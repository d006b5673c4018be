/** Cache-busting identifiers derived from the clock (yeast.go). */
module Yeast {
  import opened Basics

  /** The URL-safe alphabet: digits, upper-case letters, lower-case letters, '-' and '_'. */
  function Letter(d: nat): char
    requires d < 64
  {
    if d < 10 then '0' + d as char
    else if d < 36 then 'A' + (d - 10) as char
    else if d < 62 then 'a' + (d - 36) as char
    else if d == 62 then '-'
    else '_'
  }

  /** The value of a letter of the alphabet. */
  function Rank(c: char): int {
    if '0' <= c <= '9' then c as int - 48
    else if 'A' <= c <= 'Z' then c as int - 65 + 10
    else if 'a' <= c <= 'z' then c as int - 97 + 36
    else if c == '-' then 62
    else if c == '_' then 63
    else -1
  }

  /** The letters are distinct, and the separator is not one of them. */
  lemma LettersDistinct(d: nat)
    requires d < 64
    ensures Rank(Letter(d)) == d && Letter(d) != '.'
  {
    assert Rank('.') == -1;
  }

  const ALPHABET: string := Range('0', 10) + Range('A', 26) + Range('a', 26) + "-_"

  lemma LettersAreTheAlphabet(d: nat)
    requires d < 64
    ensures |ALPHABET| == 64 && Letter(d) == ALPHABET[d]
  {
    assert |Range('0', 10) + Range('A', 26)| == 36 && |Range('0', 10) + Range('A', 26) + Range('a', 26)| == 62;
  }

  /** Base-64 digits, most significant first. */
  function Encode(n: nat): string {
    if n < 64 then [Letter(n)] else Encode(n / 64) + [Letter(n % 64)]
  }

  /** What a string of letters encodes. */
  function Decode(s: string): int {
    if s == [] then 0 else Decode(s[..|s| - 1]) * 64 + Rank(s[|s| - 1])
  }

  /** The number is recovered from its digits, of which the first is zero only for zero itself. */
  lemma {:induction false} EncodeInverts(n: nat)
    ensures Decode(Encode(n)) == n && '.' !in Encode(n)
    ensures Encode(n) != [] && (n > 0 ==> Encode(n)[0] != '0')
  {
    LettersDistinct(n % 64);
    assert Rank('0') == 0;
    if n < 64 {
      assert Encode(n)[..0] == [];
    } else {
      EncodeInverts(n / 64);
      assert Encode(n)[..|Encode(n)| - 1] == Encode(n / 64);
    }
  }

  /** yeastEncode: prepends digits, least significant first. */
  method YeastEncode(num: nat) returns (encoded: string)
    ensures encoded == Encode(num)
  {
    encoded := "";
    var n := num;
    while true
      invariant Encode(num) == Encode(n) + encoded
      decreases n
    {
      encoded := [Letter(n % 64)] + encoded;
      if n / 64 == 0 {
        break;
      }
      assert Encode(n) + encoded[1..] == Encode(n / 64) + encoded;
      n := n / 64;
    }
  }

  // ---- The generator ----

  datatype State = State(seed: nat, previousMillis: nat)

  /** What a call emits: the time, and the sequence number within it when the time repeats. */
  datatype Key = Key(millis: nat, sequence: Option<nat>)

  function Millis(g: State, now: int): nat {
    if now < g.previousMillis then g.previousMillis else now
  }

  function NextKey(g: State, now: int): Key {
    if Millis(g, now) != g.previousMillis then Key(Millis(g, now), None) else Key(g.previousMillis, Some(g.seed))
  }

  function NextState(g: State, now: int): State {
    if Millis(g, now) != g.previousMillis then State(0, Millis(g, now)) else g.(seed := g.seed + 1)
  }

  function Suffix(k: Key): string {
    match k.sequence
    case None => ""
    case Some(q) => "." + Encode(q)
  }

  function Render(k: Key): string {
    Encode(k.millis) + Suffix(k)
  }

  class YeastGenerator {
    var seed: nat
    var previousMillis: nat

    ghost function View(): State
      reads this
    {
      State(seed, previousMillis)
    }

    constructor ()
      ensures View() == State(0, 0)
    {
      seed, previousMillis := 0, 0;
    }

    /** now is the clock reading taken under the lock; it may go backwards. */
    method Next(now: int) returns (s: string)
      modifies this
      ensures s == Render(NextKey(old(View()), now)) && View() == NextState(old(View()), now)
    {
      var millis := if now < previousMillis then previousMillis else now;
      if millis != previousMillis {
        previousMillis := millis;
        seed := 0;
        s := YeastEncode(millis);
        return;
      }
      var count := seed;
      seed := seed + 1;
      var time := YeastEncode(millis);
      var suffix := YeastEncode(count);
      s := time + "." + suffix;
    }
  }

  // ---- Uniqueness ----

  function FirstDot(s: string): nat {
    if s == [] || s[0] == '.' then 0 else 1 + FirstDot(s[1..])
  }

  lemma {:induction false} FirstDotIs(a: string, rest: string)
    requires '.' !in a && (rest == [] || rest[0] == '.')
    ensures FirstDot(a + rest) == |a|
  {
    if a == [] {
      assert a + rest == rest;
    } else {
      assert a[0] in a && (a + rest)[1..] == a[1..] + rest;
      FirstDotIs(a[1..], rest);
    }
  }

  /** The separator is outside the alphabet, so a value splits into its parts in one way. */
  lemma RenderInjective(j: Key, k: Key)
    requires Render(j) == Render(k)
    ensures j == k
  {
    EncodeInverts(j.millis);
    EncodeInverts(k.millis);
    FirstDotIs(Encode(j.millis), Suffix(j));
    FirstDotIs(Encode(k.millis), Suffix(k));
    var n := FirstDot(Render(j));
    assert Encode(j.millis) == Render(j)[..n] == Encode(k.millis);
    assert Suffix(j) == Render(j)[n..] == Suffix(k);
    if j.sequence.Some? && k.sequence.Some? {
      EncodeInverts(j.sequence.value);
      EncodeInverts(k.sequence.value);
      assert Encode(j.sequence.value) == Suffix(j)[1..] == Encode(k.sequence.value);
    }
  }

  /** The values emitted for a sequence of clock readings. */
  function Outputs(g: State, readings: seq<int>): (out: seq<string>)
    ensures |out| == |readings|
    decreases |readings|
  {
    if readings == [] then []
    else [Render(NextKey(g, readings[0]))] + Outputs(NextState(g, readings[0]), readings[1..])
  }

  /** The highest clock reading so far, or the one before all. */
  function High(g: State, readings: seq<int>): int {
    if readings == [] then g.previousMillis
    else
      var before, last := High(g, readings[..|readings| - 1]), readings[|readings| - 1];
      if last > before then last else before
  }

  /** How many values in a row, the next excluded, did not advance the clock. */
  function Repeats(g: State, readings: seq<int>): nat {
    if readings == [] then g.seed
    else if High(g, readings) > High(g, readings[..|readings| - 1]) then 0
    else Repeats(g, readings[..|readings| - 1]) + 1
  }

  function StateAfter(g: State, readings: seq<int>): State {
    if readings == [] then g else NextState(StateAfter(g, readings[..|readings| - 1]), readings[|readings| - 1])
  }

  lemma {:induction false} StateIs(g: State, readings: seq<int>)
    ensures StateAfter(g, readings).previousMillis == High(g, readings)
    ensures StateAfter(g, readings).seed == Repeats(g, readings)
  {
    if readings != [] {
      StateIs(g, readings[..|readings| - 1]);
    }
  }

  lemma {:induction false} OutputAt(g: State, readings: seq<int>, k: nat)
    requires k < |readings|
    ensures Outputs(g, readings)[k] == Render(NextKey(StateAfter(g, readings[..k]), readings[k]))
    decreases k
  {
    if k == 0 {
      assert readings[..0] == [];
    } else {
      OutputAt(NextState(g, readings[0]), readings[1..], k - 1);
      StateShift(g, readings[..k]);
      assert readings[..k][1..] == readings[1..][..k - 1];
    }
  }

  lemma {:induction false} StateShift(g: State, readings: seq<int>)
    requires readings != []
    ensures StateAfter(g, readings) == StateAfter(NextState(g, readings[0]), readings[1..])
  {
    var last := |readings| - 1;
    if last > 0 {
      StateShift(g, readings[..last]);
      assert readings[..last][1..] == readings[1..][..last - 1];
    } else {
      assert readings[..0] == [] && readings[1..] == [];
    }
  }

  lemma HighNext(g: State, readings: seq<int>, k: nat)
    requires k < |readings|
    ensures var high, before := High(g, readings[..k + 1]), High(g, readings[..k]);
            before <= high == if readings[k] > before then readings[k] else before
  {
    assert readings[..k + 1][..k] == readings[..k];
  }

  /**
   * Whatever the clock reads: a reading beyond all before it is emitted alone, and any other
   * repeats the highest so far with a running number behind a dot.
   */
  lemma ShapeOfValues(g: State, readings: seq<int>, k: nat)
    requires k < |readings|
    ensures var high, before := High(g, readings[..k + 1]), High(g, readings[..k]);
            && 0 <= before <= high
            && Outputs(g, readings)[k]
               == if high > before then Encode(high) else Encode(high) + "." + Encode(Repeats(g, readings[..k]))
  {
    OutputAt(g, readings, k);
    StateIs(g, readings[..k]);
    HighNext(g, readings, k);
  }

  /** Key k can no longer be emitted once the generator is in state g. */
  predicate Past(k: Key, g: State) {
    k.millis < g.previousMillis || (k.millis == g.previousMillis && (k.sequence.Some? ==> k.sequence.value < g.seed))
  }

  lemma {:induction false} PastStays(k: Key, g: State, readings: seq<int>, i: nat)
    requires Past(k, g) && i < |readings|
    ensures Outputs(g, readings)[i] != Render(k)
    decreases i
  {
    var now := readings[0];
    if i == 0 {
      if Render(k) == Render(NextKey(g, now)) {
        RenderInjective(k, NextKey(g, now));
        assert false;
      }
    } else {
      PastStays(k, NextState(g, now), readings[1..], i - 1);
    }
  }

  /** Whatever the clock reads, all values are pairwise distinct. */
  lemma {:induction false} AllDistinct(g: State, readings: seq<int>, i: nat, j: nat)
    requires i < j < |readings|
    ensures Outputs(g, readings)[i] != Outputs(g, readings)[j]
    decreases i
  {
    var g' := NextState(g, readings[0]);
    if i == 0 {
      PastStays(NextKey(g, readings[0]), g', readings[1..], j - 1);
    } else {
      AllDistinct(g', readings[1..], i - 1, j - 1);
    }
  }
}
