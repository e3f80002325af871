/** Byte strings and the concatenation of a list of byte strings. */
module Bytes {

  newtype byte = b: int | 0 <= b < 256

  /** All pieces, one after the other. */
  function Flatten(pieces: seq<seq<byte>>): seq<byte> {
    if pieces == [] then []
    else Flatten(pieces[..|pieces| - 1]) + pieces[|pieces| - 1]
  }

  lemma {:induction false} FlattenAppend(a: seq<seq<byte>>, b: seq<seq<byte>>)
    ensures Flatten(a + b) == Flatten(a) + Flatten(b)
  {
    if b == [] {
      assert a + b == a;
    } else {
      var front, last := b[..|b| - 1], b[|b| - 1];
      FlattenAppend(a, front);
      assert a + b == (a + front) + [last];
      FlattenSnoc(a + front, last);
    }
  }

  lemma FlattenSnoc(a: seq<seq<byte>>, x: seq<byte>)
    ensures Flatten(a + [x]) == Flatten(a) + x
  {
    assert (a + [x])[..|a|] == a;
  }

  lemma FlattenTwo(x: seq<byte>, y: seq<byte>)
    ensures Flatten([x, y]) == x + y
  {
    FlattenSnoc([], x);
    assert [] + [x] == [x];
    FlattenSnoc([x], y);
    assert [x] + [y] == [x, y];
  }

  /** Two cuttings of one byte string into pieces of the same lengths are equal,
      even if the second one goes further. */
  lemma {:induction false} SameLengthsSamePieces(a: seq<seq<byte>>, b: seq<seq<byte>>, more: seq<byte>)
    requires |a| <= |b|
    requires forall i :: 0 <= i < |a| ==> |a[i]| == |b[i]|
    requires Flatten(b) == Flatten(a) + more
    ensures forall i :: 0 <= i < |a| ==> a[i] == b[i]
  {
    if a != [] {
      var k := |a| - 1;
      assert b == b[..|a|] + b[|a|..];
      FlattenAppend(b[..|a|], b[|a|..]);
      FlattenLength(a, b[..|a|]);
      assert Flatten(a) == Flatten(b)[..|Flatten(a)|] == Flatten(b[..|a|]);
      var a0, b0 := Flatten(a[..k]), Flatten(b[..k]);
      assert b[..|a|][..k] == b[..k];
      assert Flatten(b[..|a|]) == b0 + b[k];
      FlattenLength(a[..k], b[..k]);
      assert a0 == Flatten(a)[..|a0|] == b0;
      assert a[k] == Flatten(a)[|a0|..] == b[k];
      assert Flatten(b[..k]) == Flatten(a[..k]) + [];
      SameLengthsSamePieces(a[..k], b[..k], []);
      assert forall i :: 0 <= i < k ==> a[i] == a[..k][i] && b[i] == b[..k][i];
    }
  }

  lemma {:induction false} FlattenLength(a: seq<seq<byte>>, b: seq<seq<byte>>)
    requires |a| == |b|
    requires forall i :: 0 <= i < |a| ==> |a[i]| == |b[i]|
    ensures |Flatten(a)| == |Flatten(b)|
  {
    if a != [] {
      FlattenLength(a[..|a| - 1], b[..|b| - 1]);
    }
  }
}
