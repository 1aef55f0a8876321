/** The name label drawn above a character: a row of textured quads, one
    per byte of the name, cut from a 16 x 16 glyph atlas, and centred on
    the character's projected position. */
module Nameplates {
  import opened Wrappers
  import opened CInt
  import opened Geometry
  import opened Layout
  import opened Cameras
  import opened ThirdPersonCameras
  import opened Characters
  import opened ShaderPrograms

  const CharWidth: real := 0.045
  const CharHeight: real := 0.15
  const CharKerning: real := 0.017
  /** The side of an atlas cell in texture coordinates. */
  const Cell: real := 1.0 / 16.0
  /** How far above the character's position the label is anchored. */
  const LabelLift: Vec3 := Vec3(0.0, 0.0, 2.0)
  /** The fixed on-screen scale of every label. */
  const LabelScale: real := 0.5

  const VertexShaderFile: string := "../shaders/nameplate.vs.txt"
  const FragmentShaderFile: string := "../shaders/nameplate.fs.txt"

  /** "player", the name drawn in white. */
  const PlayerName: seq<byte> := [0x70, 0x6C, 0x61, 0x79, 0x65, 0x72]

  datatype Colour = Colour(red: real, green: real, blue: real, alpha: real)

  // ---------------------------------------------------------------- one glyph

  /** The quad of glyph `i` in label coordinates: the triangles
      (up-left, down-left, up-right) and (down-right, up-right, down-left). */
  function GlyphQuad(i: nat): (q: seq<Vec2>)
    ensures |q| == 6
  {
    var x0 := i as real * CharWidth;
    var upLeft, upRight := Vec2(x0, CharHeight), Vec2(x0 + CharWidth, CharHeight);
    var downRight, downLeft := Vec2(x0 + CharWidth, 0.0), Vec2(x0, 0.0);
    [upLeft, downLeft, upRight, downRight, upRight, downLeft]
  }

  /** The four corners of the rectangle of glyph `i`. */
  function Corners(i: nat): set<Vec2>
  {
    var x0 := i as real * CharWidth;
    {Vec2(x0, CharHeight), Vec2(x0 + CharWidth, CharHeight), Vec2(x0 + CharWidth, 0.0), Vec2(x0, 0.0)}
  }

  /** Glyph `i` spans [i w, (i + 1) w] across and [0, h] up: its two
      triangles share the diagonal from up-right to down-left and together
      use exactly the four corners of that rectangle. */
  lemma GlyphCovers(i: nat)
    ensures var q := GlyphQuad(i); var x0 := i as real * CharWidth;
      && (forall k :: 0 <= k < 6 ==> x0 <= q[k].x <= x0 + CharWidth && 0.0 <= q[k].y <= CharHeight)
      && q[2] == q[4] && q[1] == q[5]
      && q[2] == Vec2(x0 + CharWidth, CharHeight) && q[1] == Vec2(x0, 0.0)
      && (forall k :: 0 <= k < 6 ==> q[k] in Corners(i))
      && (forall c :: c in Corners(i) ==> c in q)
  {
    var q := GlyphQuad(i);
    assert q[0] in q && q[1] in q && q[2] in q && q[3] in q;
  }

  /** Consecutive glyphs touch: the right edge of one is the left edge of
      the next. */
  lemma GlyphsAdjacent(i: nat)
    ensures GlyphQuad(i)[2] == GlyphQuad(i + 1)[0] && GlyphQuad(i)[3] == GlyphQuad(i + 1)[1]
  {
    assert (i + 1) as real * CharWidth == i as real * CharWidth + CharWidth;
  }

  /** The atlas column of a name byte, from the signed `char` with C++'s
      truncating `%`. */
  function AtlasColumn(c: byte): (col: int)
    ensures c < 128 ==> col == c % 16
    ensures c >= 128 ==> -16 < col <= 0
  {
    TruncMod(ToSignedChar(c), 16)
  }

  /** The atlas row of a name byte, from the signed `char` with C++'s
      truncating `/`. */
  function AtlasRow(c: byte): (row: int)
    ensures c < 128 ==> row == c / 16
    ensures c >= 128 ==> -8 <= row <= 0
  {
    TruncDiv(ToSignedChar(c), 16)
  }

  /** An ASCII byte has its own cell in the upper half of the atlas, row
      by row: the cell gives the byte back. */
  lemma AsciiCell(c: byte)
    requires c < 128
    ensures 0 <= AtlasColumn(c) < 16 && 0 <= AtlasRow(c) < 8
    ensures c == 16 * AtlasRow(c) + AtlasColumn(c)
  {
  }

  /** A byte from 0x80 on (a byte of a multi-byte UTF-8 character) is a
      negative `char`: its cell has a column or row below 0, outside the
      atlas, except for 0x80 itself and the bytes 0xF0, 0xE0, ... that are
      multiples of 16, which land in column 0 of a row at or above 0. */
  lemma HighByteCell(c: byte)
    requires c >= 128
    ensures AtlasRow(c) < 0 || AtlasColumn(c) < 0 || c == 128 || c % 16 == 0
    ensures AtlasColumn(c) == 0 <==> c % 16 == 0
  {
    var s := ToSignedChar(c);
    assert s == c - 256;
  }

  /** The texture coordinates of the glyph of byte `c`, in the same vertex
      order as `GlyphQuad`. */
  function GlyphUvs(c: byte): (q: seq<Vec2>)
    ensures |q| == 6
  {
    var uvX := AtlasColumn(c) as real / 16.0;
    var uvY := AtlasRow(c) as real / 16.0;
    var upLeft, upRight := Vec2(uvX + CharKerning, 1.0 - uvY), Vec2(uvX + Cell - CharKerning, 1.0 - uvY);
    var downRight, downLeft := Vec2(uvX + Cell - CharKerning, 1.0 - (uvY + Cell)), Vec2(uvX + CharKerning, 1.0 - (uvY + Cell));
    [upLeft, downLeft, upRight, downRight, upRight, downLeft]
  }

  /** The glyph of an ASCII byte samples inside its atlas cell, inset by
      the kerning left and right, and so inside the texture. */
  lemma GlyphUvsInCell(c: byte)
    requires c < 128
    ensures var q := GlyphUvs(c); var u0 := AtlasColumn(c) as real / 16.0; var v1 := 1.0 - AtlasRow(c) as real / 16.0;
      forall k :: 0 <= k < 6 ==>
        && u0 + CharKerning <= q[k].x <= u0 + Cell - CharKerning
        && v1 - Cell <= q[k].y <= v1
        && 0.0 < q[k].x < 1.0 && 0.0 <= q[k].y <= 1.0
  {
    AsciiCell(c);
  }

  // ---------------------------------------------------------------- the label

  function PositionGen(): nat -> seq<Vec2>
  {
    (i: nat) => GlyphQuad(i)
  }

  function UvGen(name: seq<byte>): nat -> seq<Vec2>
  {
    (i: nat) => if i < |name| then GlyphUvs(name[i]) else GlyphUvs(0)
  }

  /** The positions of the first `n` glyphs, six per glyph. */
  function LabelPositions(n: nat): seq<Vec2>
  {
    Concat(PositionGen(), n)
  }

  /** The texture coordinates of the first `n` bytes of `name`. */
  function LabelUvs(name: seq<byte>, n: nat): seq<Vec2>
  {
    Concat(UvGen(name), n)
  }

  /** A label of `n` glyphs has 6 n positions and 6 n texture
      coordinates. */
  lemma LabelLengths(name: seq<byte>, n: nat)
    ensures |LabelPositions(n)| == 6 * n && |LabelUvs(name, n)| == 6 * n
  {
    ConcatLength(PositionGen(), n, 6);
    ConcatLength(UvGen(name), n, 6);
  }

  /** Vertex 6 i + k of a label is corner k of glyph i. */
  lemma PositionAt(n: nat, i: nat, k: nat)
    requires i < n && k < 6
    ensures 6 * i + k < |LabelPositions(n)| && LabelPositions(n)[6 * i + k] == GlyphQuad(i)[k]
  {
    ConcatGroup(PositionGen(), n, 6, i);
    assert LabelPositions(n)[6 * i + k] == LabelPositions(n)[6 * i..6 * i + 6][k];
  }

  /** Vertex 6 i + k of a label is textured by corner k of the glyph of
      byte i of the name. */
  lemma UvAt(name: seq<byte>, n: nat, i: nat, k: nat)
    requires n <= |name| && i < n && k < 6
    ensures 6 * i + k < |LabelUvs(name, n)| && LabelUvs(name, n)[6 * i + k] == GlyphUvs(name[i])[k]
  {
    ConcatGroup(UvGen(name), n, 6, i);
    assert LabelUvs(name, n)[6 * i + k] == LabelUvs(name, n)[6 * i..6 * i + 6][k];
  }

  /** The label of `n` glyphs spans [0, n w] across: its first vertex is
      at the left edge and the up-right corner of its last glyph at n w. */
  lemma LabelSpan(n: nat)
    requires n > 0
    ensures |LabelPositions(n)| == 6 * n
    ensures LabelPositions(n)[0].x == 0.0
    ensures LabelPositions(n)[6 * (n - 1) + 2].x == n as real * CharWidth
  {
    LabelLengths([], n);
    PositionAt(n, 0, 0);
    PositionAt(n, n - 1, 2);
  }

  /** The screen position of a label's origin: the projected anchor moved
      left by half the scaled width of `n` glyphs. */
  function LabelOrigin(projected: Vec3, n: nat): Vec2
  {
    Vec2(projected.x - n as real * CharWidth / 2.0 * LabelScale, projected.y)
  }

  /** The label is centred on the projected anchor: its scaled left and
      right edges lie the same distance either side of it. */
  lemma LabelCentred(projected: Vec3, n: nat)
    requires n > 0
    ensures |LabelPositions(n)| == 6 * n
    ensures var o := LabelOrigin(projected, n);
      var left := o.x + LabelScale * LabelPositions(n)[0].x;
      var right := o.x + LabelScale * LabelPositions(n)[6 * (n - 1) + 2].x;
      right - projected.x == projected.x - left && left < projected.x
  {
    LabelSpan(n);
  }

  /** The colour uniform: white for the player, green for everyone else. */
  function LabelColour(name: seq<byte>): (c: Colour)
    ensures c.red == c.blue && c.green == 1.0 && c.alpha == 1.0
    ensures c.red == 1.0 <==> name == PlayerName
  {
    if name == PlayerName then Colour(1.0, 1.0, 1.0, 1.0) else Colour(0.0, 1.0, 0.0, 1.0)
  }

  /** The buffer-filling loop of `init` over the first `length` bytes. */
  method BuildLabel(name: seq<byte>, length: u32) returns (pos: seq<Vec2>, uv: seq<Vec2>)
    requires length <= |name|
    ensures pos == LabelPositions(length) && uv == LabelUvs(name, length)
    ensures |pos| == 6 * length && |uv| == 6 * length
  {
    pos, uv := [], [];
    var i := 0;
    while i < length
      invariant 0 <= i <= length
      invariant pos == LabelPositions(i) && uv == LabelUvs(name, i)
    {
      var x0 := i as real * CharWidth;
      var upLeft, upRight := Vec2(x0, CharHeight), Vec2(x0 + CharWidth, CharHeight);
      var downRight, downLeft := Vec2(x0 + CharWidth, 0.0), Vec2(x0, 0.0);
      pos := pos + [upLeft, downLeft, upRight];
      pos := pos + [downRight, upRight, downLeft];
      var character := name[i];
      var uvX := AtlasColumn(character) as real / 16.0;
      var uvY := AtlasRow(character) as real / 16.0;
      var uvUpLeft, uvUpRight := Vec2(uvX + CharKerning, 1.0 - uvY), Vec2(uvX + Cell - CharKerning, 1.0 - uvY);
      var uvDownRight := Vec2(uvX + Cell - CharKerning, 1.0 - (uvY + Cell));
      var uvDownLeft := Vec2(uvX + CharKerning, 1.0 - (uvY + Cell));
      uv := uv + [uvUpLeft, uvDownLeft, uvUpRight];
      uv := uv + [uvDownRight, uvUpRight, uvDownLeft];
      assert pos == LabelPositions(i) + GlyphQuad(i);
      assert uv == LabelUvs(name, i) + GlyphUvs(name[i]);
      i := i + 1;
    }
    ConcatLength(PositionGen(), length, 6);
    ConcatLength(UvGen(name), length, 6);
  }

  /** Whether `init` gets through its shader program: both shader files
      are there and compile, the GL gives a positive program handle, and
      the program links. */
  ghost predicate InitSucceeds(fs: FileSystem, gl: Gl)
  {
    && VertexShaderFile in fs.existing && VertexShaderFile in fs.contents
    && FragmentShaderFile in fs.existing && FragmentShaderFile in fs.contents
    && gl.newProgram > 0
    && gl.compiles(fs.contents[VertexShaderFile], VertexShader)
    && gl.compiles(fs.contents[FragmentShaderFile], FragmentShader)
    && gl.links(gl.newProgram)
  }

  /** The shader program `init` builds: both stages compiled from their
      files, then linked. */
  method BuildProgram(fs: FileSystem, gl: Gl, vertexShader: int, fragmentShader: int)
    returns (program: ShaderProgram, r: Result<(), Error>)
    ensures fresh(program)
    ensures r.Ok? <==> InitSucceeds(fs, gl)
    ensures r.Ok? ==> program.handle > 0 && program.linked
    ensures r.Ok? ==> program.attached == [Attached(vertexShader, VertexShader), Attached(fragmentShader, FragmentShader)]
  {
    program := new ShaderProgram();
    r := program.CompileShaderFile(VertexShaderFile, VertexShader, fs, gl, vertexShader);
    if r.Err? {
      return;
    }
    r := program.CompileShaderFile(FragmentShaderFile, FragmentShader, fs, gl, fragmentShader);
    if r.Err? {
      return;
    }
    r := program.Link(gl);
  }

  class Nameplate {
    const name: seq<byte>
    var character: Character
    var initialized: bool
    var program: ShaderProgram?
    var charWidth: real
    var charHeight: real
    var charKerning: real
    var positions: seq<Vec2>
    var uvs: seq<Vec2>
    var numVertices: u32
    var transform: Vec2
    var scale: Vec2

    /** Once initialised, the program is linked and the buffers hold the
        whole label. */
    ghost predicate Valid()
      reads this, program
    {
      initialized ==>
        && program != null && program.handle > 0 && program.linked
        && charWidth == CharWidth && charHeight == CharHeight && charKerning == CharKerning
        && positions == LabelPositions(ToU32(|name|)) && uvs == LabelUvs(name, ToU32(|name|))
        && numVertices == ToU32(6 * ToU32(|name|))
    }

    constructor (character: Character, name: seq<byte>)
      ensures this.character == character && this.name == name && !initialized && Valid()
      ensures program == null && positions == [] && uvs == [] && numVertices == 0
    {
      this.character, this.name := character, name;
      initialized, program := false, null;
      charWidth, charHeight, charKerning := 0.0, 0.0, 0.0;
      positions, uvs, numVertices := [], [], 0;
      transform, scale := Vec2(0.0, 0.0), Vec2(0.0, 0.0);
    }

    /** `init`: builds a new shader program, then the label's buffers.
        A failure of the program throws before any buffer is built. */
    method Init(fs: FileSystem, gl: Gl, vertexShader: int, fragmentShader: int) returns (r: Result<(), Error>)
      modifies this
      ensures program != null && fresh(program)
      ensures r.Ok? <==> InitSucceeds(fs, gl)
      ensures r.Ok? ==> initialized && Valid()
      ensures r.Ok? ==> program.attached == [Attached(vertexShader, VertexShader), Attached(fragmentShader, FragmentShader)]
      ensures r.Err? ==> initialized == old(initialized) && positions == old(positions) && uvs == old(uvs) &&
                         numVertices == old(numVertices)
      ensures character == old(character) && transform == old(transform) && scale == old(scale)
    {
      program, r := BuildProgram(fs, gl, vertexShader, fragmentShader);
      if r.Err? {
        return;
      }
      var length := ToU32(|name|);
      charWidth, charHeight, charKerning := CharWidth, CharHeight, CharKerning;
      var pos, uv := BuildLabel(name, length);
      positions, uvs := pos, uv;
      numVertices := ToU32(|pos|);
      initialized := true;
    }

    /** `render`: initialises once, then places the label centred over the
        character on the screen of `camera` and selects the program. The
        returned colour is the one given to the shader. */
    method Render(camera: ThirdPersonCamera, fs: FileSystem, gl: Gl, vertexShader: int, fragmentShader: int)
      returns (r: Result<(), Error>, colour: Colour)
      requires Valid()
      modifies this, program, camera.cam, camera.cam.frustum
      ensures Valid()
      ensures old(initialized) ==> program == old(program) && positions == old(positions) && uvs == old(uvs)
      ensures !old(initialized) ==> fresh(program) && (r.Ok? <==> InitSucceeds(fs, gl))
      ensures r.Ok? ==>
        && initialized
        && transform == LabelOrigin(camera.cam.maths.project(old(camera.cam.frustum.CurrentProjection()),
                                                             old(camera.cam.CurrentView()),
                                                             Add(character.position, LabelLift)), |name|)
        && scale == Vec2(LabelScale, LabelScale)
        && colour == LabelColour(name)
        && "color" in program.uniformLocations && "transform" in program.uniformLocations
        && "scale" in program.uniformLocations
      ensures character == old(character)
    {
      colour := LabelColour(name);
      if !initialized {
        r := Init(fs, gl, vertexShader, fragmentShader);
        if r.Err? {
          return;
        }
      }
      Place(camera);
      r := program.Use();
      SetUniforms(gl);
    }

    /** The placement part of `render`: the anchor above the character,
        projected and moved left by half the label's scaled width. */
    method Place(camera: ThirdPersonCamera)
      modifies this, camera.cam, camera.cam.frustum
      ensures charWidth == CharWidth ==> transform == LabelOrigin(camera.cam.maths.project(
                old(camera.cam.frustum.CurrentProjection()), old(camera.cam.CurrentView()), Add(character.position, LabelLift)), |name|)
      ensures scale == Vec2(LabelScale, LabelScale)
      ensures initialized == old(initialized) && program == old(program) && positions == old(positions) && uvs == old(uvs)
      ensures numVertices == old(numVertices) && character == old(character)
      ensures charWidth == old(charWidth) && charHeight == old(charHeight) && charKerning == old(charKerning)
    {
      var pos := Add(character.position, LabelLift);
      var projection := camera.cam.frustum.GetProjectionMatrix();
      var view := camera.cam.GetViewMatrix();
      var projected := camera.cam.maths.project(projection, view, pos);
      scale := Vec2(LabelScale, LabelScale);
      transform := Vec2(projected.x - |name| as real * charWidth / 2.0 * LabelScale, projected.y);
    }

    /** The uniform lookups of `render`; the values sent are left to the GL. */
    method SetUniforms(gl: Gl)
      requires program != null
      modifies program
      ensures "color" in program.uniformLocations && "transform" in program.uniformLocations
      ensures "scale" in program.uniformLocations
      ensures program.handle == old(program.handle) && program.linked == old(program.linked)
    {
      var _ := program.GetUniformLocation("color", gl);
      var _ := program.GetUniformLocation("transform", gl);
      var _ := program.GetUniformLocation("scale", gl);
    }

    method SetCharacter(c: Character)
      modifies this
      ensures character == c
      ensures initialized == old(initialized) && positions == old(positions) && uvs == old(uvs)
    {
      character := c;
    }
  }
}
