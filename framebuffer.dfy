/** The initial contents `createFramebuffer` in src/components/PostProcessing.tsx
    uploads to each framebuffer's texture: one RGBA texel of four bytes per
    pixel, every byte cleared to zero by a loop that steps one texel at a time. */
module Framebuffers {

  /** An element of a `Uint8Array`. */
  newtype Byte = b: int | 0 <= b < 256

  /** The bytes of a fully transparent black RGBA image of `texels` texels. */
  function Transparent(texels: nat): (data: seq<Byte>)
    ensures |data| == texels * 4
    ensures forall i :: 0 <= i < |data| ==> data[i] == 0
  {
    seq(texels * 4, _ => 0)
  }

  /** `emptyData`: a buffer of `width * height * 4` bytes, cleared texel by
      texel, red, green, blue and then alpha. */
  method ZeroFilledData(width: nat, height: nat) returns (emptyData: array<Byte>)
    ensures fresh(emptyData)
    ensures emptyData.Length == width * height * 4
    ensures forall i :: 0 <= i < emptyData.Length ==> emptyData[i] == 0
  {
    var texels := width * height;
    emptyData := new Byte[texels * 4];
    var i := 0;
    while i < emptyData.Length
      invariant 0 <= i <= emptyData.Length && i % 4 == 0
      invariant forall j :: 0 <= j < i ==> emptyData[j] == 0
    {
      emptyData[i] := 0;
      emptyData[i + 1] := 0;
      emptyData[i + 2] := 0;
      emptyData[i + 3] := 0;
      i := i + 4;
    }
  }

  /** The cleared buffer is the transparent image of the framebuffer's size:
      every texel, alpha included, is zero. */
  lemma ClearedBufferIsTransparent(data: seq<Byte>, width: nat, height: nat)
    requires |data| == width * height * 4
    requires forall i :: 0 <= i < |data| ==> data[i] == 0
    ensures data == Transparent(width * height)
    ensures forall p :: 0 <= p < width * height ==> data[4 * p + 3] == 0
  {
  }
}
