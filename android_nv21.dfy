/** The first half of `convertImageProxyToBitmap`
    (android/src/main/java/com/visioncameraocr/OCRFrameProcessorPlugin.kt): the
    three YUV_420_888 planes are copied into one NV21 byte array, luma first,
    then V, then U. */
module AndroidNv21 {

  /** A Kotlin `Byte`. */
  newtype Byte = x: int | -128 <= x < 128

  /** A java.nio.ByteBuffer as the packing reads it: its bytes up to the
      limit and a read position. */
  class ByteBuffer {
    var content: seq<Byte>
    var position: nat

    ghost predicate Valid()
      reads this
    {
      position <= |content|
    }

    /** `remaining()`. */
    function Remaining(): nat
      reads this
      requires Valid()
    {
      |content| - position
    }

    /** The bytes between the position and the limit. */
    function RemainingBytes(): (s: seq<Byte>)
      reads this
      requires Valid()
      ensures |s| == Remaining()
    {
      content[position..]
    }

    constructor (content: seq<Byte>)
      ensures Valid() && this.content == content && position == 0
    {
      this.content := content;
      position := 0;
    }

    /** `get(dst, offset, length)`: copies the next `length` bytes into
        `dst[offset..offset + length]` and moves the position past them. */
    method Get(dst: array<Byte>, offset: nat, length: nat)
      requires Valid() && length <= Remaining() && offset + length <= dst.Length
      modifies this, dst
      ensures Valid() && content == old(content) && position == old(position) + length
      ensures dst[..] == old(dst[..offset]) + old(content[position..position + length]) + old(dst[offset + length..])
    {
      ghost var before := dst[..];
      var k := 0;
      while k < length
        modifies dst
        invariant 0 <= k <= length
        invariant forall j :: 0 <= j < dst.Length ==>
          dst[j] == if offset <= j < offset + k then content[position + (j - offset)] else old(dst[j])
      {
        dst[offset + k] := content[position + k];
        k := k + 1;
      }
      ghost var expected := before[..offset] + content[position..position + length] + before[offset + length..];
      assert |dst[..]| == |expected|;
      assert forall j | 0 <= j < dst.Length :: dst[..][j] == expected[j];
      assert dst[..] == expected;
      position := position + length;
    }
  }

  /** The NV21 layout: the Y plane, then V, then U. */
  function Nv21Layout(y: seq<Byte>, u: seq<Byte>, v: seq<Byte>): seq<Byte> {
    y + v + u
  }

  /** Where each plane sits in the packed array. */
  lemma Nv21Regions(y: seq<Byte>, u: seq<Byte>, v: seq<Byte>)
    ensures |Nv21Layout(y, u, v)| == |y| + |u| + |v|
    ensures forall i :: 0 <= i < |y| ==> Nv21Layout(y, u, v)[i] == y[i]
    ensures forall i :: 0 <= i < |v| ==> Nv21Layout(y, u, v)[|y| + i] == v[i]
    ensures forall i :: 0 <= i < |u| ==> Nv21Layout(y, u, v)[|y| + |v| + i] == u[i]
  {
  }

  /** Cutting the packed array at the plane sizes gives the planes back. */
  function SplitNv21(nv21: seq<Byte>, ySize: nat, vSize: nat): (planes: (seq<Byte>, seq<Byte>, seq<Byte>))
    requires ySize + vSize <= |nv21|
  {
    (nv21[..ySize], nv21[ySize + vSize..], nv21[ySize..ySize + vSize])
  }

  lemma SplitNv21Layout(y: seq<Byte>, u: seq<Byte>, v: seq<Byte>)
    ensures SplitNv21(Nv21Layout(y, u, v), |y|, |v|) == (y, u, v)
  {
    var nv21 := Nv21Layout(y, u, v);
    assert nv21[..|y|] == y;
    assert nv21[|y| + |v|..] == u;
    assert nv21[|y|..|y| + |v|] == v;
  }

  /** The packing: a fresh array as long as the three planes' remaining bytes
      together, filled by three `get`s that leave every plane drained. */
  method PackNv21(yBuffer: ByteBuffer, uBuffer: ByteBuffer, vBuffer: ByteBuffer) returns (nv21: array<Byte>)
    requires yBuffer.Valid() && uBuffer.Valid() && vBuffer.Valid()
    requires yBuffer != uBuffer && yBuffer != vBuffer && uBuffer != vBuffer
    modifies yBuffer, uBuffer, vBuffer
    ensures fresh(nv21)
    ensures nv21[..] == Nv21Layout(old(yBuffer.RemainingBytes()), old(uBuffer.RemainingBytes()), old(vBuffer.RemainingBytes()))
    ensures yBuffer.Valid() && uBuffer.Valid() && vBuffer.Valid()
    ensures yBuffer.content == old(yBuffer.content) && uBuffer.content == old(uBuffer.content)
    ensures vBuffer.content == old(vBuffer.content)
    ensures yBuffer.Remaining() == uBuffer.Remaining() == vBuffer.Remaining() == 0
  {
    var ySize := yBuffer.Remaining();
    var uSize := uBuffer.Remaining();
    var vSize := vBuffer.Remaining();
    ghost var y, u, v := yBuffer.RemainingBytes(), uBuffer.RemainingBytes(), vBuffer.RemainingBytes();

    nv21 := new Byte[ySize + uSize + vSize](_ => 0);
    yBuffer.Get(nv21, 0, ySize);
    assert nv21[..ySize] == y;
    vBuffer.Get(nv21, ySize, vSize);
    assert nv21[..ySize + vSize] == y + v;
    uBuffer.Get(nv21, ySize + vSize, uSize);
    assert nv21[..] == y + v + u;
  }
}
