/** Bytes, byte lines, and the few sequence facts the other modules share. */
module Bytes {
  datatype Option<+T> = None | Some(value: T)

  type byte = x: int | 0 <= x < 256

  const LF: byte := 10
  const CR: byte := 13
  const BRACE: byte := 123

  /** The bytes of an ASCII literal. */
  function Ascii(s: string): (r: seq<byte>)
    ensures |r| == |s|
    ensures forall i :: 0 <= i < |s| ==> r[i] == s[i] as int % 256
  {
    seq(|s|, i requires 0 <= i < |s| => s[i] as int % 256)
  }

  function Flatten<T>(parts: seq<seq<T>>): seq<T> {
    if parts == [] then [] else parts[0] + Flatten(parts[1..])
  }

  lemma {:induction false} FlattenAppend<T>(a: seq<seq<T>>, b: seq<seq<T>>)
    ensures Flatten(a + b) == Flatten(a) + Flatten(b)
  {
    if a == [] {
      assert a + b == b;
    } else {
      assert (a + b)[1..] == a[1..] + b;
      FlattenAppend(a[1..], b);
    }
  }

  /** The position of the first b in s, or |s| when there is none. */
  function IndexOf(s: seq<byte>, b: byte): (i: nat)
    ensures i <= |s|
    ensures forall k :: 0 <= k < i ==> s[k] != b
    ensures i < |s| ==> s[i] == b
  {
    if s == [] || s[0] == b then 0 else 1 + IndexOf(s[1..], b)
  }

  /** The newline-terminated lines of s, each with its newline. */
  function Lines(s: seq<byte>): seq<seq<byte>> {
    var i := IndexOf(s, LF);
    if i == |s| then [] else [s[..i + 1]] + Lines(s[i + 1..])
  }

  /** What follows the last newline of s. */
  function Tail(s: seq<byte>): seq<byte> {
    var i := IndexOf(s, LF);
    if i == |s| then s else Tail(s[i + 1..])
  }

  /** No byte of s is b. */
  ghost predicate Without(s: seq<byte>, b: byte) {
    forall k :: 0 <= k < |s| ==> s[k] != b
  }

  /** A line ends in its only newline. */
  ghost predicate IsLine(l: seq<byte>) {
    l != [] && l[|l| - 1] == LF && forall k :: 0 <= k < |l| - 1 ==> l[k] != LF
  }

  lemma Rejoin(head: seq<byte>, later: seq<seq<byte>>, tail: seq<byte>)
    ensures Flatten([head] + later) + tail == head + (Flatten(later) + tail)
  {
    assert ([head] + later)[1..] == later;
  }

  /** Cutting into lines loses nothing, and the pieces are lines and a newline-free tail. */
  lemma {:induction false} LinesPartition(s: seq<byte>)
    ensures Flatten(Lines(s)) + Tail(s) == s
    ensures forall l :: l in Lines(s) ==> IsLine(l)
    ensures Without(Tail(s), LF)
    decreases |s|
  {
    var i := IndexOf(s, LF);
    if i < |s| {
      var head, rest := s[..i + 1], s[i + 1..];
      LinesPartition(rest);
      assert IsLine(head) && s == head + rest;
      Rejoin(head, Lines(rest), Tail(rest));
    }
  }

  /** Lines and Tail are the only way to cut a text into lines and a newline-free rest. */
  lemma {:induction false} LinesUnique(ls: seq<seq<byte>>, t: seq<byte>)
    requires forall l :: l in ls ==> IsLine(l)
    requires Without(t, LF)
    ensures Lines(Flatten(ls) + t) == ls
    ensures Tail(Flatten(ls) + t) == t
  {
    if ls == [] {
      assert Flatten(ls) + t == t;
    } else {
      var l, rest, s := ls[0], Flatten(ls[1..]) + t, Flatten(ls) + t;
      assert s == l + rest;
      assert IsLine(l);
      assert IndexOf(s, LF) == |l| - 1 by {
        assert s[|l| - 1] == LF;
        assert forall k :: 0 <= k < |l| - 1 ==> s[k] == l[k];
      }
      assert s[..|l|] == l && s[|l|..] == rest;
      LinesUnique(ls[1..], t);
      assert ls == [l] + ls[1..];
    }
  }

  lemma Regroup<T>(a: seq<T>, b: seq<T>, head: seq<T>, rest: seq<T>, middle: seq<T>, end: seq<T>)
    requires head + rest == a
    requires middle + end == rest + b
    ensures a + b == (head + middle) + end
  {
    assert a + b == head + (rest + b);
  }

  /** Cutting a + b is cutting a first, then what was left of it together with b. */
  lemma LinesAppend(a: seq<byte>, b: seq<byte>)
    ensures Lines(a + b) == Lines(a) + Lines(Tail(a) + b)
    ensures Tail(a + b) == Tail(Tail(a) + b)
  {
    var c := Tail(a) + b;
    LinesPartition(a);
    LinesPartition(c);
    Regroup(a, b, Flatten(Lines(a)), Tail(a), Flatten(Lines(c)), Tail(c));
    FlattenAppend(Lines(a), Lines(c));
    LinesUnique(Lines(a) + Lines(c), Tail(c));
  }

  /** Byte-wise lexicographic order, as Go compares strings and byte arrays. */
  predicate LexLess(a: seq<byte>, b: seq<byte>) {
    if b == [] then false
    else if a == [] then true
    else if a[0] != b[0] then a[0] < b[0]
    else LexLess(a[1..], b[1..])
  }

  /** The first k bytes are the same and then a ends, or has the smaller byte. */
  ghost predicate LessAt(a: seq<byte>, b: seq<byte>, k: nat) {
    k <= |a| && k < |b| && a[..k] == b[..k] && (k < |a| ==> a[k] < b[k])
  }

  lemma SharedHead(a: seq<byte>, b: seq<byte>, k: nat)
    ensures 0 < k <= |a| && k <= |b| && a[..k] == b[..k] ==> a[0] == b[0]
  {
    if 0 < k <= |a| && k <= |b| && a[..k] == b[..k] {
      assert a[0] == a[..k][0] && b[0] == b[..k][0];
    }
  }

  lemma {:induction false} LexExactly(a: seq<byte>, b: seq<byte>)
    ensures LexLess(a, b) <==> exists k: nat :: LessAt(a, b, k)
  {
    if a == [] || b == [] || a[0] != b[0] {
      if LexLess(a, b) { assert LessAt(a, b, 0); }
      if k: nat :| LessAt(a, b, k) {
        SharedHead(a, b, k);
      }
    } else {
      LexExactly(a[1..], b[1..]);
      if k: nat :| LessAt(a[1..], b[1..], k) {
        assert a[..k + 1] == [a[0]] + a[1..][..k] && b[..k + 1] == [b[0]] + b[1..][..k];
        assert LessAt(a, b, k + 1);
      }
      if k: nat :| LessAt(a, b, k) {
        assert k > 0;
        assert a[1..][..k - 1] == a[..k][1..] && b[1..][..k - 1] == b[..k][1..];
        assert LessAt(a[1..], b[1..], k - 1);
      }
    }
  }

  lemma {:induction false} LexTotal(a: seq<byte>, b: seq<byte>)
    ensures !(LexLess(a, b) && LexLess(b, a))
    ensures a != b ==> LexLess(a, b) || LexLess(b, a)
    ensures a == b ==> !LexLess(a, b)
  {
    if a != [] && b != [] && a[0] == b[0] {
      LexTotal(a[1..], b[1..]);
      assert a == [a[0]] + a[1..] && b == [b[0]] + b[1..];
    }
  }

  lemma {:induction false} LexTransitive(a: seq<byte>, b: seq<byte>, c: seq<byte>)
    requires LexLess(a, b) && LexLess(b, c)
    ensures LexLess(a, c)
  {
    if a != [] && a[0] == b[0] && b[0] == c[0] {
      LexTransitive(a[1..], b[1..], c[1..]);
    }
  }
}
