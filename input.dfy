/** The keyboard side of portrait Pong: the two flags the keydown and keyup
    listeners keep, and the case-insensitive test they use to recognise a key. */
module Input {

  /** The `keys` record: `a` moves the player's paddle left, `d` moves it right. */
  datatype Keys = Keys(a: bool, d: bool)

  /** One event the page receives between frames: the `key` string of a keydown or a keyup. */
  datatype KeyEvent = Down(key: string) | Up(key: string)

  /** Lower-case form of one character; only the ASCII capitals A-Z change. */
  function LowerChar(c: char): char
  {
    if 'A' <= c <= 'Z' then (c as int - 'A' as int + 'a' as int) as char else c
  }

  /** Upper-case partner of a lower-case ASCII letter. */
  function UpperChar(c: char): char
    requires 'a' <= c <= 'z'
  {
    (c as int - 'a' as int + 'A' as int) as char
  }

  /** `toLowerCase()` applied to a key string, one character at a time: the
      length is kept, every ASCII capital becomes its lower-case partner, and
      every other character is left alone, so no capital remains. */
  function Lower(s: string): (r: string)
    ensures |r| == |s|
    ensures forall i :: 0 <= i < |s| && 'A' <= s[i] <= 'Z' ==> 'a' <= r[i] <= 'z' && UpperChar(r[i]) == s[i]
    ensures forall i :: 0 <= i < |s| && !('A' <= s[i] <= 'Z') ==> r[i] == s[i]
    ensures forall i :: 0 <= i < |r| ==> !('A' <= r[i] <= 'Z')
  {
    seq(|s|, i requires 0 <= i < |s| => LowerChar(s[i]))
  }

  /** Lower-casing twice is lower-casing once. */
  lemma LowerIdempotent(s: string)
    ensures Lower(Lower(s)) == Lower(s)
  {
  }

  /** The test `e.key.toLowerCase() === c` that both listeners make: it holds
      exactly for a one-character key whose character lowers to `c`. */
  predicate Names(key: string, c: char)
    ensures Names(key, c) <==> |key| == 1 && LowerChar(key[0]) == c
  {
    assert |key| == 1 ==> Lower(key)[0] == LowerChar(key[0]);
    Lower(key) == [c]
  }

  /** For a lower-case letter the test accepts exactly the one-letter key, in either case. */
  lemma NamesLetter(key: string, c: char)
    requires 'a' <= c <= 'z'
    ensures Names(key, c) <==> key == [c] || key == [UpperChar(c)]
  {
    if Names(key, c) {
      assert |key| == |Lower(key)| == 1;
      assert LowerChar(key[0]) == Lower(key)[0] == c;
      assert key == [key[0]];
    }
    if key == [c] || key == [UpperChar(c)] {
      assert Lower(key)[0] == LowerChar(key[0]) == c;
    }
  }

  /** The keydown listener: `a`/`A` sets only `a`, `d`/`D` sets only `d`, any other key does nothing. */
  function KeyDown(k: Keys, key: string): (r: Keys)
    ensures key == "a" || key == "A" ==> r == k.(a := true)
    ensures key == "d" || key == "D" ==> r == k.(d := true)
    ensures key !in {"a", "A", "d", "D"} ==> r == k
  {
    NamesLetter(key, 'a');
    NamesLetter(key, 'd');
    k.(a := k.a || Names(key, 'a'), d := k.d || Names(key, 'd'))
  }

  /** The keyup listener: `a`/`A` clears only `a`, `d`/`D` clears only `d`, any other key does nothing. */
  function KeyUp(k: Keys, key: string): (r: Keys)
    ensures key == "a" || key == "A" ==> r == k.(a := false)
    ensures key == "d" || key == "D" ==> r == k.(d := false)
    ensures key !in {"a", "A", "d", "D"} ==> r == k
  {
    NamesLetter(key, 'a');
    NamesLetter(key, 'd');
    k.(a := k.a && !Names(key, 'a'), d := k.d && !Names(key, 'd'))
  }

  /** Releasing a key undoes pressing it: the flags end as if only the release had happened. */
  lemma ReleaseUndoesPress(k: Keys, key: string)
    ensures KeyUp(KeyDown(k, key), key) == KeyUp(k, key)
  {
  }

  /** Delivers one event to the matching listener. */
  function Deliver(k: Keys, e: KeyEvent): Keys
  {
    match e
    case Down(key) => KeyDown(k, key)
    case Up(key) => KeyUp(k, key)
  }

  /** The flags after the page has delivered `es`, first to last; a batch in
      which no event names `a` or `d` leaves them as they were. */
  function DeliverAll(k: Keys, es: seq<KeyEvent>): (r: Keys)
    ensures (forall i :: 0 <= i < |es| ==> !Names(es[i].key, 'a') && !Names(es[i].key, 'd')) ==> r == k
    decreases |es|
  {
    if es == [] then k else DeliverAll(Deliver(k, es[0]), es[1..])
  }

  /** Reference reading of a flag: it is held when the latest event naming its key
      was a keydown; when no event names the key it stays `held`. */
  function Latest(es: seq<KeyEvent>, c: char, held: bool): bool
    decreases |es|
  {
    if es == [] then held
    else if Names(es[|es| - 1].key, c) then es[|es| - 1].Down?
    else Latest(es[..|es| - 1], c, held)
  }

  /** Delivering two batches of events one after the other is delivering them together. */
  lemma {:induction false} DeliverAllAppend(k: Keys, es: seq<KeyEvent>, fs: seq<KeyEvent>)
    ensures DeliverAll(k, es + fs) == DeliverAll(DeliverAll(k, es), fs)
    decreases |es|
  {
    if es == [] {
      assert es + fs == fs;
    } else {
      assert (es + fs)[0] == es[0];
      assert (es + fs)[1..] == es[1..] + fs;
      DeliverAllAppend(Deliver(k, es[0]), es[1..], fs);
    }
  }

  /** Whatever the order of presses and releases, each flag ends as its latest event set it. */
  lemma {:induction false} DeliverAllIsLatest(k: Keys, es: seq<KeyEvent>)
    ensures DeliverAll(k, es).a == Latest(es, 'a', k.a)
    ensures DeliverAll(k, es).d == Latest(es, 'd', k.d)
    decreases |es|
  {
    if es != [] {
      var init, last := es[..|es| - 1], es[|es| - 1];
      assert es == init + [last];
      DeliverAllAppend(k, init, [last]);
      DeliverAllIsLatest(k, init);
    }
  }
}
