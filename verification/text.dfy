/** Text helpers shared by the prompt builder, the stream relay and the editor. */
module Text {

  /** The concatenation of a sequence of text fragments, folded from the left:
      the last fragment is appended last, exactly as the editor appends each
      delta to the document it already holds. */
  function Concat(parts: seq<string>): string
  {
    if parts == [] then "" else Concat(parts[..|parts| - 1]) + parts[|parts| - 1]
  }

  /** `sub` occurs in `s` verbatim, starting at index `at`. */
  predicate OccursAt(s: string, sub: string, at: nat)
  {
    at + |sub| <= |s| && s[at..at + |sub|] == sub
  }

  /** `sub` occurs in `s` verbatim somewhere. */
  predicate Contains(s: string, sub: string)
  {
    exists at: nat | at <= |s| :: OccursAt(s, sub, at)
  }

  /** Concatenation distributes over joining fragment sequences. */
  lemma {:induction false} ConcatAppend(a: seq<string>, b: seq<string>)
    ensures Concat(a + b) == Concat(a) + Concat(b)
    decreases |b|
  {
    if b == [] {
      assert a + b == a;
    } else {
      var front := b[..|b| - 1];
      assert (a + b)[..|a + b| - 1] == a + front;
      ConcatAppend(a, front);
    }
  }

  /** Taking one more fragment extends the concatenation by exactly that fragment. */
  lemma ConcatStep(parts: seq<string>, i: nat)
    requires i < |parts|
    ensures Concat(parts[..i + 1]) == Concat(parts[..i]) + parts[i]
  {
    assert parts[..i + 1][..i] == parts[..i];
  }

  /** Fragment `k` sits verbatim in the concatenation, right after the
      concatenation of the fragments before it. */
  lemma ConcatTiles(parts: seq<string>, k: nat)
    requires k < |parts|
    ensures |Concat(parts[..k])| + |parts[k]| <= |Concat(parts)|
    ensures Concat(parts)[|Concat(parts[..k])|..|Concat(parts[..k])| + |parts[k]|] == parts[k]
  {
    var before, rest := Concat(parts[..k]), Concat(parts[k + 1..]);
    assert parts == parts[..k + 1] + parts[k + 1..];
    ConcatAppend(parts[..k + 1], parts[k + 1..]);
    ConcatStep(parts, k);
    assert Concat(parts) == before + parts[k] + rest;
  }

  /** The concatenation of fewer leading fragments is a prefix of the
      concatenation of more of them. */
  lemma {:induction false} ConcatPrefix(parts: seq<string>, i: nat, j: nat)
    requires i <= j <= |parts|
    ensures Concat(parts[..i]) <= Concat(parts[..j])
  {
    assert parts[..j] == parts[..i] + parts[i..j];
    ConcatAppend(parts[..i], parts[i..j]);
  }

  /** The length of a concatenation is the sum of the fragments' lengths:
      nothing is dropped, merged away or inserted. */
  function TotalLength(parts: seq<string>): nat
  {
    if parts == [] then 0 else TotalLength(parts[..|parts| - 1]) + |parts[|parts| - 1]|
  }

  lemma {:induction false} ConcatLength(parts: seq<string>)
    ensures |Concat(parts)| == TotalLength(parts)
    decreases |parts|
  {
    if parts != [] {
      ConcatLength(parts[..|parts| - 1]);
    }
  }

  /** The successive values of the document while fragments arrive: the
      empty document first, then one more value after each fragment. */
  function Snapshots(parts: seq<string>): (r: seq<string>)
    ensures |r| == |parts| + 1
    ensures r[0] == "" && r[|parts|] == Concat(parts)
  {
    assert parts[..|parts|] == parts;
    seq(|parts| + 1, k requires 0 <= k <= |parts| => Concat(parts[..k]))
  }

  /** Each snapshot is the previous one with the next fragment appended, so
      the document only grows: every snapshot is a prefix of every later one. */
  lemma SnapshotsGrow(parts: seq<string>)
    ensures forall k :: 0 <= k < |parts| ==> Snapshots(parts)[k + 1] == Snapshots(parts)[k] + parts[k]
    ensures forall i, j :: 0 <= i <= j <= |parts| ==> Snapshots(parts)[i] <= Snapshots(parts)[j]
  {
    var r := Snapshots(parts);
    forall k | 0 <= k < |parts|
      ensures r[k + 1] == r[k] + parts[k]
    {
      ConcatStep(parts, k);
    }
    forall i, j | 0 <= i <= j <= |parts|
      ensures r[i] <= r[j]
    {
      ConcatPrefix(parts, i, j);
    }
  }
}
