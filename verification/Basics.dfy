/** Shared vocabulary: bytes, optional values, and facts about sequences. */
module Basics {

  /** A machine byte. A subset type, so a sequence of bytes is also a sequence of integers. */
  type byte = x: int | 0 <= x < 256

  datatype Option<+T> = None | Some(value: T)

  /** Concatenation of a sequence of sequences, in order. */
  function Flat<T>(parts: seq<seq<T>>): seq<T> {
    if parts == [] then [] else parts[0] + Flat(parts[1..])
  }

  lemma {:induction false} FlatAppend<T>(a: seq<seq<T>>, b: seq<seq<T>>)
    ensures Flat(a + b) == Flat(a) + Flat(b)
  {
    if a == [] {
      assert a + b == b;
    } else {
      assert (a + b)[1..] == a[1..] + b;
      FlatAppend(a[1..], b);
    }
  }

  lemma FlatSnoc<T>(a: seq<seq<T>>, x: seq<T>)
    ensures Flat(a + [x]) == Flat(a) + x
  {
    FlatAppend(a, [x]);
    assert [x][1..] == [];
  }

  lemma FlatCons<T>(x: seq<T>, rest: seq<seq<T>>)
    ensures Flat([x] + rest) == x + Flat(rest)
  {
    assert ([x] + rest)[1..] == rest;
  }

  /** n characters in a row. */
  function Range(first: char, n: nat): string
    requires first as int + n <= 128
  {
    seq(n, k requires 0 <= k < n => (first as int + k) as char)
  }

  /** A number that is not in use. */
  lemma {:induction false} Above(xs: set<nat>) returns (n: nat)
    ensures forall x :: x in xs ==> x < n
    decreases |xs|
  {
    if xs == {} {
      n := 0;
    } else {
      var x :| x in xs;
      var m := Above(xs - {x});
      n := if x < m then m else x + 1;
      assert forall y :: y in xs ==> y == x || y in xs - {x};
    }
  }

  lemma Halves<T>(s: seq<T>, k: nat)
    requires k <= |s|
    ensures s[..k] + s[k..] == s
  {}

  lemma Assoc<T>(a: seq<T>, b: seq<T>, c: seq<T>)
    ensures a + b + c == a + (b + c)
  {}

  /** The first k parts flatten to a prefix, which the next part extends. */
  lemma FlatTake<T>(parts: seq<seq<T>>, k: nat)
    requires k <= |parts|
    ensures Flat(parts[..k]) <= Flat(parts)
    ensures k < |parts| ==> Flat(parts[..k + 1]) == Flat(parts[..k]) + parts[k]
  {
    FlatAppend(parts[..k], parts[k..]);
    assert parts[..k] + parts[k..] == parts;
    if k < |parts| {
      FlatSnoc(parts[..k], parts[k]);
      assert parts[..k + 1] == parts[..k] + [parts[k]];
    }
  }

  /** Where the parts of a known suffix stand in the whole. */
  lemma Slice<T>(input: seq<T>, cursor: nat, a: seq<T>, b: seq<T>, c: seq<T>)
    requires cursor <= |input| && input[cursor..] == a + b + c
    ensures cursor + |a| + |b| <= |input| && input[cursor + |a|..cursor + |a| + |b|] == b
    ensures b != [] ==> input[cursor + |a|] == b[0]
  {
    assert input[cursor..][|a|..|a| + |b|] == b;
  }

  lemma Tail<T>(input: seq<T>, cursor: nat, a: seq<T>, b: seq<T>)
    requires cursor <= |input| && input[cursor..] == a + b
    ensures cursor + |a| <= |input| && input[cursor + |a|..] == b
  {
    assert input[cursor..][|a|..] == b;
  }
}
