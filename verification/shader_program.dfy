/** The shader program wrapper: choosing a shader stage from a file's
    extension, the compile, link and use guards, the memoised uniform
    locations and the names of uniform types. The GL and the file system
    are oracles. */
module ShaderPrograms {
  import opened Wrappers

  // ---------------------------------------------------------------- GL enums

  const VertexShader: int := 0x8B31
  const FragmentShader: int := 0x8B30
  const GeometryShader: int := 0x8DD9
  const TessControlShader: int := 0x8E88
  const TessEvaluationShader: int := 0x8E87
  const ComputeShader: int := 0x91B9

  const GlFloat: int := 0x1406
  const GlFloatVec2: int := 0x8B50
  const GlFloatVec3: int := 0x8B51
  const GlFloatVec4: int := 0x8B52
  const GlDouble: int := 0x140A
  const GlInt: int := 0x1404
  const GlUnsignedInt: int := 0x1405
  const GlBool: int := 0x8B56
  const GlFloatMat2: int := 0x8B5A
  const GlFloatMat3: int := 0x8B5B
  const GlFloatMat4: int := 0x8B5C

  // ---------------------------------------------------------------- extensions

  /** The index of the last `'.'` of `s`, or -1 if there is none. */
  function LastDot(s: string): (r: int)
    ensures -1 <= r < |s|
    ensures r >= 0 ==> s[r] == '.'
    ensures forall k :: r < k < |s| ==> s[k] != '.'
  {
    if |s| == 0 then -1
    else if s[|s| - 1] == '.' then |s| - 1
    else LastDot(s[..|s| - 1])
  }

  /** `get_extension`: the suffix of `name` from its last `'.'` on, or ""
      when it has none. */
  function GetExtension(name: string): (ext: string)
    ensures ext == "" <==> '.' !in name
    ensures ext != "" ==> ext[0] == '.' && '.' !in ext[1..]
    ensures |ext| <= |name| && name[|name| - |ext|..] == ext
  {
    var loc := LastDot(name);
    if loc < 0 then "" else name[loc..]
  }

  /** A file named `stem + ext`, where `ext` is a dot followed by no other
      dot, has extension `ext`, whatever the stem holds. */
  lemma ExtensionOfName(stem: string, ext: string)
    requires |ext| > 0 && ext[0] == '.' && '.' !in ext[1..]
    ensures GetExtension(stem + ext) == ext
  {
    var name := stem + ext;
    assert name[|stem|] == '.';
  }

  /** The extension-to-stage table, in its order. */
  const Extensions: seq<(string, int)> := [
    (".vs", VertexShader), (".vert", VertexShader),
    (".gs", GeometryShader), (".geom", GeometryShader),
    (".tcs", TessControlShader), (".tes", TessEvaluationShader),
    (".fs", FragmentShader), (".frag", FragmentShader),
    (".cs", ComputeShader)]

  /** The stage of the first table entry with extension `ext`. */
  function LookupType(table: seq<(string, int)>, ext: string): (r: Option<int>)
    ensures r.None? <==> forall i :: 0 <= i < |table| ==> table[i].0 != ext
    ensures r.Some? ==> exists i :: 0 <= i < |table| && table[i] == (ext, r.value) &&
                                    forall j :: 0 <= j < i ==> table[j].0 != ext
  {
    if |table| == 0 then None
    else if table[0].0 == ext then Some(table[0].1)
    else
      var r := LookupType(table[1..], ext);
      assert forall i :: 1 <= i < |table| ==> table[i] == table[1..][i - 1];
      if r.Some? then
        var i :| 0 <= i < |table[1..]| && table[1..][i] == (ext, r.value) &&
                 forall j :: 0 <= j < i ==> table[1..][j].0 != ext;
        assert table[i + 1] == (ext, r.value);
        r
      else r
  }

  /** An entry with no earlier entry of the same extension is the one
      found. */
  lemma FirstMatch(table: seq<(string, int)>, i: nat, ext: string)
    requires i < |table| && table[i].0 == ext && forall j :: 0 <= j < i ==> table[j].0 != ext
    ensures LookupType(table, ext) == Some(table[i].1)
  {
    var r := LookupType(table, ext);
    var i' :| 0 <= i' < |table| && table[i'] == (ext, r.value) && forall j :: 0 <= j < i' ==> table[j].0 != ext;
    assert i' == i;
  }

  /** `.vs` and `.vert` name vertex shaders. */
  lemma VertexExtensions()
    ensures LookupType(Extensions, ".vs") == Some(VertexShader)
    ensures LookupType(Extensions, ".vert") == Some(VertexShader)
  {
    FirstMatch(Extensions, 0, ".vs");
    FirstMatch(Extensions, 1, ".vert");
  }

  /** `.gs` and `.geom` name geometry shaders. */
  lemma GeometryExtensions()
    ensures LookupType(Extensions, ".gs") == Some(GeometryShader)
    ensures LookupType(Extensions, ".geom") == Some(GeometryShader)
  {
    FirstMatch(Extensions, 2, ".gs");
    FirstMatch(Extensions, 3, ".geom");
  }

  /** `.tcs` and `.tes` name the two tessellation stages. */
  lemma TessellationExtensions()
    ensures LookupType(Extensions, ".tcs") == Some(TessControlShader)
    ensures LookupType(Extensions, ".tes") == Some(TessEvaluationShader)
  {
    FirstMatch(Extensions, 4, ".tcs");
    FirstMatch(Extensions, 5, ".tes");
  }

  /** `.fs` and `.frag` name fragment shaders. */
  lemma FragmentExtensions()
    ensures LookupType(Extensions, ".fs") == Some(FragmentShader)
    ensures LookupType(Extensions, ".frag") == Some(FragmentShader)
  {
    FirstMatch(Extensions, 6, ".fs");
    FirstMatch(Extensions, 7, ".frag");
  }

  /** `.cs` name compute shaders. */
  lemma ComputeExtension()
    ensures LookupType(Extensions, ".cs") == Some(ComputeShader)
  {
    FirstMatch(Extensions, 8, ".cs");
  }

  /** An extension not in the table has no stage. */
  lemma UnknownExtension(ext: string)
    requires ext !in {".vs", ".vert", ".gs", ".geom", ".tcs", ".tes", ".fs", ".frag", ".cs"}
    ensures LookupType(Extensions, ext) == None
  {
    forall i | 0 <= i < |Extensions|
      ensures Extensions[i].0 != ext
    {
    }
  }

  /** The search loop of `compile_shader(file_name)` over the table. */
  method FindShaderType(ext: string) returns (matchFound: bool, shaderType: int)
    ensures matchFound <==> LookupType(Extensions, ext).Some?
    ensures shaderType == if matchFound then LookupType(Extensions, ext).value else 0
  {
    matchFound, shaderType := false, 0;
    var i := 0;
    while i < |Extensions|
      invariant 0 <= i <= |Extensions|
      invariant LookupType(Extensions, ext) == LookupType(Extensions[i..], ext)
      invariant !matchFound && shaderType == 0
    {
      if ext == Extensions[i].0 {
        matchFound, shaderType := true, Extensions[i].1;
        return;
      }
      assert Extensions[i..][1..] == Extensions[i + 1..];
      i := i + 1;
    }
  }

  // ---------------------------------------------------------------- uniform types

  /** The uniform types `get_type_string` names, with their names. */
  const TypeNames: map<int, string> := map[
    GlFloat := "float", GlFloatVec2 := "vec2", GlFloatVec3 := "vec3", GlFloatVec4 := "vec4",
    GlDouble := "double", GlInt := "int", GlUnsignedInt := "unsigned int", GlBool := "bool",
    GlFloatMat2 := "mat2", GlFloatMat3 := "mat3", GlFloatMat4 := "mat4"]

  /** `get_type_string`: the name of a uniform type, "unknown" for the rest. */
  function GetTypeString(glType: int): (s: string)
    ensures glType in TypeNames ==> s == TypeNames[glType]
    ensures glType !in TypeNames ==> s == "unknown"
    ensures s == "unknown" <==> glType !in TypeNames
  {
    if glType == GlFloat then "float"
    else if glType == GlFloatVec2 then "vec2"
    else if glType == GlFloatVec3 then "vec3"
    else if glType == GlFloatVec4 then "vec4"
    else if glType == GlDouble then "double"
    else if glType == GlInt then "int"
    else if glType == GlUnsignedInt then "unsigned int"
    else if glType == GlBool then "bool"
    else if glType == GlFloatMat2 then "mat2"
    else if glType == GlFloatMat3 then "mat3"
    else if glType == GlFloatMat4 then "mat4"
    else "unknown"
  }

  // ---------------------------------------------------------------- the program

  /** Why an operation throws. */
  datatype Error =
    | UnrecognizedExtension(ext: string)
    | ShaderMissing(fileName: string)
    | CannotCreateProgram
    | CannotOpen(fileName: string)
    | CompilationFailed
    | NotCompiled
    | LinkFailed
    | NotLinked

  /** What the file system answers: the files `stat` finds, and the text
      of those that can be opened. */
  datatype FileSystem = FileSystem(existing: set<string>, contents: map<string, string>)

  /** What the GL answers: the handle `glCreateProgram` returns, whether a
      source compiles as a stage, whether a program links, and where a
      program puts a uniform. */
  datatype Gl = Gl(
    newProgram: int,
    compiles: (string, int) -> bool,
    links: int -> bool,
    uniformLocation: (int, string) -> int)

  /** A compiled shader attached to the program. */
  datatype Attached = Attached(handle: int, shaderType: int)

  class ShaderProgram {
    var handle: int
    var linked: bool
    var uniformLocations: map<string, int>
    var attached: seq<Attached>

    constructor ()
      ensures handle == 0 && !linked && uniformLocations == map[] && attached == []
    {
      handle, linked, uniformLocations, attached := 0, false, map[], [];
    }

    /** Creates the GL program unless the handle is already positive. */
    method EnsureProgram(gl: Gl) returns (r: Result<(), Error>)
      modifies this
      ensures old(handle) > 0 ==> handle == old(handle) && r.Ok?
      ensures old(handle) <= 0 ==> handle == gl.newProgram && (r.Ok? <==> gl.newProgram != 0)
      ensures r.Err? ==> r.error == CannotCreateProgram
      ensures linked == old(linked) && uniformLocations == old(uniformLocations) && attached == old(attached)
    {
      r := Ok(());
      if handle <= 0 {
        handle := gl.newProgram;
        if handle == 0 {
          r := Err(CannotCreateProgram);
        }
      }
    }

    /** `compile_shader(file_name)`: the stage comes from the extension;
        an extension not in the table throws before anything is done. */
    method CompileShader(fileName: string, fs: FileSystem, gl: Gl, shaderHandle: int) returns (r: Result<(), Error>)
      modifies this
      ensures LookupType(Extensions, GetExtension(fileName)).None? ==>
        r == Err(UnrecognizedExtension(GetExtension(fileName))) &&
        handle == old(handle) && linked == old(linked) && uniformLocations == old(uniformLocations) && attached == old(attached)
      ensures LookupType(Extensions, GetExtension(fileName)).Some? ==>
        var stage := LookupType(Extensions, GetExtension(fileName)).value;
        CompiledFile(old(handle), old(attached), fileName, stage, fs, gl, shaderHandle, r)
      ensures linked == old(linked) && uniformLocations == old(uniformLocations)
    {
      var ext := GetExtension(fileName);
      var matchFound, shaderType := FindShaderType(ext);
      if !matchFound {
        return Err(UnrecognizedExtension(ext));
      }
      r := CompileShaderFile(fileName, shaderType, fs, gl, shaderHandle);
    }

    /** The new handle, attachments and outcome of `compile_shader(file_name, type)`. */
    ghost predicate CompiledFile(handle0: int, attached0: seq<Attached>, fileName: string, shaderType: int,
                                 fs: FileSystem, gl: Gl, shaderHandle: int, r: Result<(), Error>)
      reads this
    {
      if fileName !in fs.existing then
        r == Err(ShaderMissing(fileName)) && handle == handle0 && attached == attached0
      else if handle0 <= 0 && gl.newProgram == 0 then
        r == Err(CannotCreateProgram) && handle == 0 && attached == attached0
      else
        && handle == (if handle0 <= 0 then gl.newProgram else handle0)
        && if fileName !in fs.contents then
             r == Err(CannotOpen(fileName)) && attached == attached0
           else
             Compiled(attached0, fs.contents[fileName], shaderType, gl, shaderHandle, r)
    }

    /** The attachments and outcome of compiling `source` once a program exists. */
    ghost predicate Compiled(attached0: seq<Attached>, source: string, shaderType: int, gl: Gl, shaderHandle: int,
                             r: Result<(), Error>)
      reads this
    {
      if gl.compiles(source, shaderType) then
        r == Ok(()) && attached == attached0 + [Attached(shaderHandle, shaderType)]
      else
        r == Err(CompilationFailed) && attached == attached0
    }

    /** `compile_shader(file_name, type)`: the file must exist, a program
        is created if there is none, and the file must open. */
    method CompileShaderFile(fileName: string, shaderType: int, fs: FileSystem, gl: Gl, shaderHandle: int)
      returns (r: Result<(), Error>)
      modifies this
      ensures CompiledFile(old(handle), old(attached), fileName, shaderType, fs, gl, shaderHandle, r)
      ensures linked == old(linked) && uniformLocations == old(uniformLocations)
    {
      if fileName !in fs.existing {
        return Err(ShaderMissing(fileName));
      }
      r := EnsureProgram(gl);
      if r.Err? {
        return;
      }
      if fileName !in fs.contents {
        return Err(CannotOpen(fileName));
      }
      r := CompileShaderSource(fs.contents[fileName], shaderType, gl, shaderHandle);
    }

    /** `compile_shader(source, type, file_name)`: compiles `source` as a
        new shader `shaderHandle` and attaches it when it compiles. */
    method CompileShaderSource(source: string, shaderType: int, gl: Gl, shaderHandle: int) returns (r: Result<(), Error>)
      modifies this
      ensures old(handle) <= 0 && gl.newProgram == 0 ==>
        r == Err(CannotCreateProgram) && handle == 0 && attached == old(attached)
      ensures !(old(handle) <= 0 && gl.newProgram == 0) ==>
        handle == (if old(handle) <= 0 then gl.newProgram else old(handle)) &&
        Compiled(old(attached), source, shaderType, gl, shaderHandle, r)
      ensures linked == old(linked) && uniformLocations == old(uniformLocations)
    {
      r := EnsureProgram(gl);
      if r.Err? {
        return;
      }
      if gl.compiles(source, shaderType) {
        attached := attached + [Attached(shaderHandle, shaderType)];
        r := Ok(());
      } else {
        r := Err(CompilationFailed);
      }
    }

    /** `link`: nothing to do once linked; without a program it throws;
        a successful link forgets every cached uniform location. */
    method Link(gl: Gl) returns (r: Result<(), Error>)
      modifies this
      ensures old(linked) ==> r.Ok? && linked && uniformLocations == old(uniformLocations)
      ensures !old(linked) && old(handle) <= 0 ==> r == Err(NotCompiled) && !linked && uniformLocations == old(uniformLocations)
      ensures !old(linked) && old(handle) > 0 ==>
        if gl.links(old(handle)) then r.Ok? && linked && uniformLocations == map[]
        else r == Err(LinkFailed) && !linked && uniformLocations == old(uniformLocations)
      ensures handle == old(handle) && attached == old(attached)
    {
      if linked {
        return Ok(());
      }
      if handle <= 0 {
        return Err(NotCompiled);
      }
      if !gl.links(handle) {
        return Err(LinkFailed);
      }
      uniformLocations := map[];
      linked := true;
      r := Ok(());
    }

    /** `use`: the program must have been created and linked. */
    method Use() returns (r: Result<(), Error>)
      ensures r.Ok? <==> handle > 0 && linked
      ensures r.Err? ==> r.error == NotLinked
    {
      if handle <= 0 || !linked {
        return Err(NotLinked);
      }
      r := Ok(());
    }

    /** `get_uniform_location`: the GL is asked only the first time a name
        is seen; the answer is kept for later calls. */
    method GetUniformLocation(name: string, gl: Gl) returns (loc: int)
      modifies this
      ensures name in old(uniformLocations) ==> loc == old(uniformLocations)[name] && uniformLocations == old(uniformLocations)
      ensures name !in old(uniformLocations) ==>
        loc == gl.uniformLocation(handle, name) && uniformLocations == old(uniformLocations)[name := loc]
      ensures handle == old(handle) && linked == old(linked) && attached == old(attached)
    {
      if name !in uniformLocations {
        uniformLocations := uniformLocations[name := gl.uniformLocation(handle, name)];
      }
      loc := uniformLocations[name];
    }
  }

  /** Asking twice for a uniform gives the first answer, even when the GL
      would now answer differently. */
  method LocationCached(name: string, first: Gl, second: Gl) returns (loc1: int, loc2: int)
    ensures loc1 == first.uniformLocation(0, name) && loc2 == loc1
  {
    var p := new ShaderProgram();
    loc1 := p.GetUniformLocation(name, first);
    loc2 := p.GetUniformLocation(name, second);
  }

  /** A program compiled from one fragment shader file links and can then
      be used; a second link is a no-op even if the GL would now refuse. */
  method CompileLinkUse(stem: string, source: string, gl: Gl, shaderHandle: int)
    returns (compiled: Result<(), Error>, linked: Result<(), Error>, relinked: Result<(), Error>, used: Result<(), Error>)
    requires gl.newProgram > 0 && gl.compiles(source, FragmentShader) && gl.links(gl.newProgram)
    ensures compiled.Ok? && linked.Ok? && relinked.Ok? && used.Ok?
  {
    var fileName := stem + ".frag";
    ExtensionOfName(stem, ".frag");
    FragmentExtensions();
    var p := new ShaderProgram();
    compiled := p.CompileShader(fileName, FileSystem({fileName}, map[fileName := source]), gl, shaderHandle);
    linked := p.Link(gl);
    relinked := p.Link(Gl(gl.newProgram, gl.compiles, _ => false, gl.uniformLocation));
    used := p.Use();
  }

  /** Using or linking a fresh program fails: nothing has been compiled. */
  method UnusableUntilCompiled(gl: Gl) returns (used: Result<(), Error>, linked: Result<(), Error>)
    ensures used == Err(NotLinked) && linked == Err(NotCompiled)
  {
    var p := new ShaderProgram();
    used := p.Use();
    linked := p.Link(gl);
  }
}
