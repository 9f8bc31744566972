/** What a drawable hands the camera: shader wrappers (vertex bytes, optional
    vertex indices, program identity, uniforms, texture paths, flags), and the
    byte encoding of vertex indices that decides whether an index buffer exists. */
module Shader {
  import opened Wrappers
  import opened Gl

  const TWO_32: int := 0x1_0000_0000
  const TWO_31: int := 0x8000_0000

  /** The drawable identity `id(mobject)` that keys the static render index. */
  type MobjectId = nat

  /** The program a wrapper asks for. `members` are the uniform names the compiled
      program declares, as shader compilation would report them. */
  datatype ProgramCode = ProgramCode(source: string, members: set<string>)

  /** A shader wrapper. Dictionaries whose order matters (`uniforms`,
      `texture_paths`) are sequences of pairs in iteration order. */
  datatype ShaderWrapper = ShaderWrapper(
    programId: string,
    programCode: ProgramCode,
    vertData: seq<byte>,
    vertIndices: Option<seq<int>>,
    vertAttributes: seq<string>,
    uniforms: seq<(string, UniformValue)>,
    texturePaths: seq<(string, string)>,
    depthTest: bool,
    renderPrimitive: int)

  datatype Mobject = Mobject(id: MobjectId, shaderWrappers: seq<ShaderWrapper>)

  /** The value a C `int32` cast leaves of an integer (two's complement wrap-around). */
  function WrapI32(x: int): (r: int)
    ensures -TWO_31 <= r < TWO_31
    ensures (x - r) % TWO_32 == 0
  {
    var u := x % TWO_32;
    if u < TWO_31 then u else u - TWO_32
  }

  /** One index as four little-endian bytes of its 32-bit two's complement. */
  function I4Bytes(x: int): (r: seq<byte>)
    ensures |r| == 4
  {
    var u := x % TWO_32;
    [(u % 256) as byte, (u / 256 % 256) as byte, (u / 65536 % 256) as byte, (u / 16777216) as byte]
  }

  /** `indices.astype('i4').tobytes()`. */
  function EncodeI4(indices: seq<int>): (r: seq<byte>)
    ensures |r| == 4 * |indices|
  {
    if indices == [] then [] else I4Bytes(indices[0]) + EncodeI4(indices[1..])
  }

  function I4Value(b: seq<byte>): int
    requires |b| == 4
  {
    var u := b[0] as int + 256 * b[1] as int + 65536 * b[2] as int + 16777216 * b[3] as int;
    if u < TWO_31 then u else u - TWO_32
  }

  /** Reading the bytes back as `int32` values. */
  function DecodeI4(b: seq<byte>): (r: seq<int>)
    requires |b| % 4 == 0
    ensures 4 * |r| == |b|
  {
    if b == [] then [] else [I4Value(b[..4])] + DecodeI4(b[4..])
  }

  lemma I4RoundTrip(x: int)
    ensures I4Value(I4Bytes(x)) == WrapI32(x)
  {
    var u := x % TWO_32;
    var b0, q0 := u % 256, u / 256;
    var b1, q1 := q0 % 256, q0 / 256;
    var b2, b3 := q1 % 256, q1 / 256;
    assert u == b0 + 256 * q0;
    assert q0 == b1 + 256 * q1;
    assert q1 == b2 + 256 * b3;
    assert u / 65536 == q1;
    assert u / 16777216 == b3;
    assert u == b0 + 256 * b1 + 65536 * b2 + 16777216 * b3;
  }

  /** The index bytes decode to the indices, each wrapped to 32 bits. */
  lemma {:induction false} DecodeEncodeI4(indices: seq<int>)
    ensures |DecodeI4(EncodeI4(indices))| == |indices|
    ensures forall i :: 0 <= i < |indices| ==> DecodeI4(EncodeI4(indices))[i] == WrapI32(indices[i])
  {
    if indices != [] {
      var e := EncodeI4(indices);
      assert e[..4] == I4Bytes(indices[0]);
      assert e[4..] == EncodeI4(indices[1..]);
      I4RoundTrip(indices[0]);
      DecodeEncodeI4(indices[1..]);
    }
  }

  /** The encoding is empty exactly when there are no indices: the condition under
      which the camera creates no index buffer. */
  lemma EncodeI4Empty(indices: seq<int>)
    ensures EncodeI4(indices) == [] <==> indices == []
  {
  }
}
