/** A file as a sequence of pieces laid end to end, with their offsets. */
module Layout {
  import opened Entries
  import opened Codec

  /** Where the first `i` pieces end. */
  function End(ps: seq<Bytes>, i: nat): nat
    requires i <= |ps|
  {
    if i == 0 then 0 else End(ps, i - 1) + |ps[i - 1]|
  }

  lemma {:induction false} EndAgrees(a: seq<Bytes>, b: seq<Bytes>, i: nat)
    requires i <= |a| && i <= |b| && forall j | 0 <= j < i :: a[j] == b[j]
    ensures End(a, i) == End(b, i)
  {
    if i > 0 {
      EndAgrees(a, b, i - 1);
    }
  }

  /** A piece ends no later than any later piece begins. */
  lemma {:induction false} EndGrows(ps: seq<Bytes>, i: nat, j: nat)
    requires i < j <= |ps|
    ensures End(ps, i) + |ps[i]| <= End(ps, j)
  {
    if i < j - 1 {
      EndGrows(ps, i, j - 1);
    }
  }

  /** Piece `i` lies in its place. */
  ghost predicate PieceAt(file: Bytes, ps: seq<Bytes>, i: nat)
    requires i < |ps|
  {
    var o := End(ps, i);
    o + |ps[i]| <= |file| && file[o..o + |ps[i]|] == ps[i]
  }

  /** The file starts with the pieces, one after the other. */
  ghost predicate StartsWith(file: Bytes, ps: seq<Bytes>) {
    && End(ps, |ps|) <= |file|
    && forall i {:trigger PieceAt(file, ps, i)} | 0 <= i < |ps| :: PieceAt(file, ps, i)
  }

  /** The offsets are the prefix sums of the pieces. */
  ghost predicate Sums(ps: seq<Bytes>, offsets: seq<nat>) {
    |offsets| == |ps| && forall i {:trigger offsets[i]} | 0 <= i < |ps| :: offsets[i] == End(ps, i)
  }

  /** The file is exactly the pieces, and `offsets` says where each begins. */
  ghost predicate Laid(file: Bytes, ps: seq<Bytes>, offsets: seq<nat>) {
    StartsWith(file, ps) && |file| == End(ps, |ps|) && Sums(ps, offsets)
  }

  lemma LaidEmpty()
    ensures Laid([], [], [])
  {
  }

  lemma PieceInPrefix(file: Bytes, ps: seq<Bytes>, k: nat, i: nat)
    requires k <= |ps| && i < k && End(ps, k) <= |file| && PieceAt(file, ps, i)
    ensures PieceAt(file[..End(ps, k)], ps[..k], i) && End(ps[..k], i) == End(ps, i)
  {
    EndAgrees(ps, ps[..k], i);
    EndGrows(ps, i, k);
    Cut(file, End(ps, k), End(ps, i), End(ps, i) + |ps[i]|);
  }

  /** Cutting the file where piece `k` begins leaves the first `k` pieces. */
  lemma LaidPrefix(file: Bytes, ps: seq<Bytes>, offsets: seq<nat>, k: nat)
    requires Laid(file, ps, offsets) && k <= |ps|
    ensures End(ps, k) <= |file| && Laid(file[..End(ps, k)], ps[..k], offsets[..k])
  {
    if k < |ps| {
      EndGrows(ps, k, |ps|);
    }
    EndAgrees(ps, ps[..k], k);
    forall i | 0 <= i < k
      ensures PieceAt(file[..End(ps, k)], ps[..k], i) && offsets[..k][i] == End(ps[..k], i)
    {
      assert PieceAt(file, ps, i);
      PieceInPrefix(file, ps, k, i);
    }
  }

  lemma Cut(b: Bytes, n: nat, i: nat, j: nat)
    requires i <= j <= n <= |b|
    ensures b[..n][i..j] == b[i..j]
  {
  }

  lemma PieceBefore(file: Bytes, ps: seq<Bytes>, p: Bytes, rest: Bytes, i: nat)
    requires i < |ps| && PieceAt(file, ps, i)
    ensures PieceAt(file + p + rest, ps + [p], i) && End(ps + [p], i) == End(ps, i)
  {
    var o := End(ps, i);
    EndAgrees(ps, ps + [p], i);
    assert (file + p + rest)[..|file|] == file;
    Cut(file + p + rest, |file|, o, o + |ps[i]|);
  }

  /** One more piece at the end, whatever follows it. */
  lemma LaidAppend(file: Bytes, ps: seq<Bytes>, offsets: seq<nat>, p: Bytes, rest: Bytes)
    requires Laid(file, ps, offsets)
    ensures StartsWith(file + p + rest, ps + [p])
    ensures End(ps + [p], |ps + [p]|) == |file| + |p| && Sums(ps + [p], offsets + [|file|])
  {
    var ps', file' := ps + [p], file + p + rest;
    EndAgrees(ps, ps', |ps|);
    forall i | 0 <= i < |ps'|
      ensures PieceAt(file', ps', i) && (offsets + [|file|])[i] == End(ps', i)
    {
      if i < |ps| {
        assert PieceAt(file, ps, i);
        PieceBefore(file, ps, p, rest, i);
      }
    }
  }

  /** The same with nothing after it. */
  lemma LaidExtend(file: Bytes, ps: seq<Bytes>, offsets: seq<nat>, p: Bytes)
    requires Laid(file, ps, offsets)
    ensures Laid(file + p, ps + [p], offsets + [|file|])
  {
    LaidAppend(file, ps, offsets, p, []);
    assert file + p + [] == file + p;
  }
}
