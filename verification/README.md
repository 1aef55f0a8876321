# thewalkinggame core, modelled in Dafny

This project models the core of *thewalkinggame* (C++ namespace `oglproj`). It is a small OpenGL demo in which characters walk on a grid plane. An orbit camera follows them, and each character has a name label drawn above it. The model covers the parts of the program that compute rather than draw:

- **Mesh import.** `Meshes`, `ObjFormat`, `MeshIndexer`, `PackedVertices` and `BinFormat` model the Wavefront OBJ importer:
  - line trimming and tokenising, with the keyword `token` kept from line to line, so that a line whose keyword read fails repeats the previous keyword (`ObjFormat.BlankLineRepeatsKeyword`);
  - `atoi` and the face references `p`, `p/t`, `p//n` and `p/t/n`;
  - triangle expansion;
  - vertex welding through an epsilon-tolerant ordered map;
  - normal renormalisation, recentring and flattening.
  They also model the binary mesh cache that `store_vbo` writes and `import_bin_file` reads back.
- **Grid plane.** `Planes` models the generator: nested loops fill the position, normal, texture-coordinate and index arrays.
- **TGA images.** `Textures` models the reader and writer of uncompressed true-colour TGA images.
- **Walking character.** `Characters` models the character's five-state update tick: the walk-cycle frame, turning, and the collision veto.
- **Camera stack.** `Frustums`, `Cameras` and `ThirdPersonCameras` model the frustum, camera and orbit camera:
  - the field-of-view clamp;
  - the lazy projection and view matrices;
  - the rotation counter that renormalises the basis;
  - the yaw wrap and the pitch clamp.
- **Shader programs.** `ShaderPrograms` models the shader-program wrapper: extension dispatch, compile, link and use guards, and the uniform-location cache.
- **Name labels.** `Nameplates` models the glyph layout and centring of the name label.

Supporting modules:

- `Wrappers` holds `Option` and `Result`.
- `CInt` holds the C++ unsigned and truncating integer operations.
- `Geometry` holds vectors, symbolic quaternions and matrices, and the uninterpreted maths.
- `Layout` holds sequences built from fixed-width groups.

How the program's values are represented:

- Floats are `real`.
- `(float)M_PI` is its exact single-precision value.
- Quaternions and 4x4 matrices are symbolic terms. Two such values are equal exactly when the same glm operations built them from the same inputs.
- Normalisation, rotation by a quaternion, `cosf`/`sinf`, and the projection of a point through `projection * view` are fields of the `Geometry.Maths` oracle.
- The GL, the file system, and the float conversion of `>>` are parameters:
  - `ShaderPrograms.Gl`;
  - `ShaderPrograms.FileSystem`;
  - the `num` function of the OBJ importer;
  - the `garbage` contents of a fresh allocation.
- Files are sequences: characters for OBJ text, bytes for TGA, 4-byte cells for the mesh cache.

Inheritance is modelled by composition:

- A `Camera` owns its `Frustum` (`frustum`).
- A `ThirdPersonCamera` owns its `Camera` (`cam`).

The code behaves as follows where a reader might expect otherwise:

- **Projection rebuild.** An orthographic frustum does get a perspective matrix after any setter. `get_projection_matrix` never consults the perspective flag; see `Frustums.OrthographicAfterSetter`.
- **Yaw range.** Yaw ends up in the open interval (-2 pi, 2 pi).
- **Character angle.** It is corrected by at most one turn per update, not wrapped into a range.
- **Animation frame.** The frame is not reset to 0 while idle or turning. It is not confined to the cycle when the cycle starts at frame 0 (`Characters.BackwardUnderflow`).
- **Weld ordering.** The vertex comparator is not a strict weak ordering (`PackedVertices.EquivalenceNotTransitive`).

## Model

| member | source | states |
|---|---|---|
| PackedVertices.IsEqualSymmetric | source/mesh.cpp:19-22 | `is_equal` is symmetric in its two floats |
| PackedVertices.Components | include/packed_vertex.h:14-23 | a packed vertex has the eight components the comparator visits (position x, y, z, uv x, y, normal x, y, z) |
| PackedVertices.LexLessFirstDifference | include/packed_vertex.h:29-37 | the reference tolerant lexicographic order holds exactly when a first non-close component exists and is smaller on the left; no first difference exists exactly when all components are close |
| PackedVertices.LexLessStep | include/packed_vertex.h:29-36 | one comparison step: a non-close component decides, a close one passes on to the next |
| PackedVertices.LessIsLexLess | include/packed_vertex.h:27-38 | `operator<` equals the reference tolerant lexicographic order on the eight components |
| PackedVertices.LessIrreflexive | include/packed_vertex.h:27-38 | no packed vertex is less than itself |
| PackedVertices.LessAsymmetric | include/packed_vertex.h:27-38 | a < b implies not b < a |
| PackedVertices.LessIffFirstDifferenceSmaller | include/packed_vertex.h:29-36 | a < b exactly when the first component pair not within 0.00001 is smaller in a |
| PackedVertices.EquivalentIffAllClose | include/packed_vertex.h:37 | two vertices are mutually not-less exactly when all eight components are pairwise within 0.00001 |
| PackedVertices.EquivalenceNotTransitive | include/packed_vertex.h:29-37 | there are a, b, c with a ~ b and b ~ c but not a ~ c: the key equivalence is not transitive |
| ObjFormat.Find | source/mesh.cpp:159-166 | `find(c, from)` answers the first index at or after `from` holding `c`, or npos when there is none |
| ObjFormat.FindAt | source/mesh.cpp:159-166 | the first `c` from `from` on is what `find` returns |
| ObjFormat.FindAbsent | source/mesh.cpp:159-166 | with no `c` from `from` on, `find` returns npos |
| ObjFormat.UnterminatedTail | source/mesh.cpp:119-120 | the text after the last newline holds no newline |
| ObjFormat.CompleteLinesCover | source/mesh.cpp:119-207 | the lines the getline/eof loop processes, each with its newline, plus the unterminated tail, make up the whole file |
| ObjFormat.TrimLeftSpec | source/mesh.cpp:499-502 | the left trim removes a prefix of trim characters only and stops at a non-trim character |
| ObjFormat.TrimRightSpec | source/mesh.cpp:503-504 | the right trim removes a suffix of trim characters only and stops at a non-trim character |
| ObjFormat.TrimmedSpec | source/mesh.cpp:497-505 | `trim_string` keeps a contiguous slice, removes only trim characters around it, and the result neither starts nor ends with a trim character |
| ObjFormat.TrimFixedPoint | source/mesh.cpp:497-505 | a string that neither starts nor ends with a trim character is unchanged |
| ObjFormat.TrimmedIdempotent | source/mesh.cpp:497-505 | trimming twice equals trimming once |
| ObjFormat.TrimmedEmptyIff | source/mesh.cpp:497-505 | the trimmed string is empty exactly when every character is one of space, tab, newline, carriage return |
| ObjFormat.SkipSpaces | source/mesh.cpp:156 | what `>>` skips leaves a string that does not start with a space |
| ObjFormat.SkipSpacesDropsSpaces | source/mesh.cpp:156 | the skipped part is a prefix made of spaces only |
| ObjFormat.WordPrefix | source/mesh.cpp:156 | the word `>>` reads is a prefix, non-empty when the input starts with a non-space |
| ObjFormat.ReadWord | source/mesh.cpp:156 | `>>` yields an empty word exactly when only spaces remain, and consumes input when it reads one |
| ObjFormat.FaceTokensAreWords | source/mesh.cpp:153-156 | when the line does not end in a space, the `while (good()) >> tok` loop reads exactly the whitespace-separated words |
| ObjFormat.LeadingDigits | source/mesh.cpp:162 | the digits `atoi` reads form a prefix of decimal digits |
| ObjFormat.SkipSpacesAppend | source/mesh.cpp:162 | skipping spaces of p + q, q starting with a non-space, is skipping those of p |
| ObjFormat.LeadingDigitsAppend | source/mesh.cpp:162 | the digits of p + q, q starting with a non-digit, are those of p |
| ObjFormat.AtoiIgnoresTail | source/mesh.cpp:162-174 | `atoi` reads nothing past a character that stops it, so the text after the first '/' does not change the position index |
| ObjFormat.FaceRefPositionOnly | source/mesh.cpp:157-163 | a reference without '/' gives (atoi(p), -1, -1) |
| ObjFormat.ParseTwoSlashes | source/mesh.cpp:165-174 | with two '/', p is read before the first, t from `substr(slash1 + 1, slash2)` only when the second is not adjacent, and n after the second |
| ObjFormat.ParseOneSlash | source/mesh.cpp:165-174 | with one '/', the normal index is `atoi` of the whole token (npos + 1 wraps to 0) |
| ObjFormat.FullMiddle | source/mesh.cpp:168-172 | the texture part `substr(slash1 + 1, slash2)` of `p/t/n` reads as t, the trailing characters stopping `atoi` |
| ObjFormat.FaceRefFull | source/mesh.cpp:157-175 | `p/t/n` gives (p, t, n) |
| ObjFormat.FaceRefNoTexture | source/mesh.cpp:157-175 | `p//n` gives (p, -1, n): the texture index stays -1 because the slashes are adjacent |
| ObjFormat.FaceRefNoNormal | source/mesh.cpp:157-175 | `p/t` gives (p, t, p): the position index is read again as the normal index |
| ObjFormat.AcceptedRefs | source/mesh.cpp:181-191 | every kept reference has a position index other than -1, and no more references than tokens are kept |
| ObjFormat.AcceptedRefsCons | source/mesh.cpp:181-191 | a token with position index -1 is dropped, any other is appended in order |
| ObjFormat.ParseStatement | source/mesh.cpp:116-204 | a face line's references all have a position index other than -1, whether the keyword is read from the line or kept in `token` from an earlier line |
| ObjFormat.BlankLineRepeatsKeyword | source/mesh.cpp:116-145 | a line of vertical tabs or form feeds survives trimming, reads no keyword and keeps the previous one: after `v`, `vt` or `vn` it adds one more element built from failed number reads, after `f` an empty face, otherwise nothing |
| ObjFormat.BlankLineAfterPosition | source/mesh.cpp:116-133 | the text `v` newline, vertical tab, newline gives two position statements, not one |
| ObjFormat.BlankLineTwoPositions | source/mesh.cpp:116-133 | the same text imports as two positions and nothing else |
| ObjFormat.NoWordInSpaces | source/mesh.cpp:123 | reading a word from white space alone gives the empty word |
| ObjFormat.LinesCons | source/mesh.cpp:119 | `getline` splits off the first complete line and goes on with the rest |
| ObjFormat.Statements | source/mesh.cpp:116-207 | one statement per processed line, each read with the keyword left by the lines before it |
| ObjFormat.AccumulateNext | source/mesh.cpp:119-207 | each statement is applied to the data gathered so far, and an abort is final |
| ObjFormat.AccumulateSpec | source/mesh.cpp:129-202 | the import aborts exactly when some face has more than three accepted references; otherwise every `v`, `vt`, `vn` and face reference is collected in file order |
| ObjFormat.StatementStep | source/mesh.cpp:116-206 | each pass of the statement loop parses its line with the keyword the earlier lines left, applies it to the data gathered so far, and leaves the keyword for the next line |
| ObjFormat.AbortIsFinal | source/mesh.cpp:194-201 | one face with more than three accepted references aborts the whole import |
| ObjFormat.RefsHavePositions | source/mesh.cpp:181-191 | every collected face reference has a position index other than -1 |
| MeshIndexer.ExpandAll | source/mesh.cpp:212-230 | the expansion produces one vertex per face reference |
| MeshIndexer.Zip | source/mesh.cpp:249 | packed vertex i is (position i, uv i, normal i) |
| MeshIndexer.FindKey | source/mesh.cpp:24-37 | the model's lookup for `get_similar_vertex_index`: the first stored key, in insertion order, equivalent to the vertex, or none when no key is (the program's tree search can differ; see Left out) |
| MeshIndexer.FindKeyFrom | source/mesh.cpp:24-37 | the same search from a given key on |
| MeshIndexer.WeldStep | source/mesh.cpp:249-271 | one weld iteration keeps one output position, uv and normal per key |
| MeshIndexer.Weld | source/mesh.cpp:247-272 | the weld loop gives one output index per input vertex and equal-length output arrays |
| MeshIndexer.WeldKeysBound | source/mesh.cpp:247-272 | there are never more output vertices than input vertices |
| MeshIndexer.NormalSumUnused | source/mesh.cpp:260 | an output vertex no input is sent to has a zero normal sum |
| MeshIndexer.EquivalentSymmetric | include/packed_vertex.h:27-38 | the key equivalence is symmetric |
| MeshIndexer.WeldLast | source/mesh.cpp:247-272 | the weld of a stream is one more step on the weld of its prefix, whose indices it keeps |
| MeshIndexer.WeldStepMatches | source/mesh.cpp:255-271 | a step keeps the earlier keys and indices and sends the new vertex to a key equivalent to it, reused or appended |
| MeshIndexer.WeldMatches | source/mesh.cpp:247-272 | every input vertex is sent to a key equivalent to it |
| MeshIndexer.WeldKeysDistinct | source/mesh.cpp:262-271 | in the first-match model of the key map, no two stored keys are equivalent (the program's tree search does not guarantee this; see Left out) |
| MeshIndexer.NormalsSummedStep | source/mesh.cpp:258-267 | one step keeps every output normal equal to the sum of the normals sent to it |
| MeshIndexer.KeysFromStreamStep | source/mesh.cpp:262-271 | one step keeps every key an input vertex sent to it |
| MeshIndexer.WeldSumsAndKeys | source/mesh.cpp:247-272 | each output normal is the sum of the normals welded into it, and each key is an input vertex sent to it |
| MeshIndexer.WeldIsCorrect | source/mesh.cpp:247-272 | the first-match weld meets its full specification: one index per input naming an equivalent key, pairwise distinguishable keys (a property of the first-match model only), each output normal the sum of the normals sent to it, each key an input sent to it |
| MeshIndexer.WeldDistinct | source/mesh.cpp:262-271 | a stream of pairwise distinguishable vertices is not welded: output i is input i |
| MeshIndexer.NormalizeAll | source/mesh.cpp:275-278 | one normalised normal per summed normal |
| MeshIndexer.FlatVec3 | source/mesh.cpp:301-309 | three floats per vector |
| MeshIndexer.FlatVec2 | source/mesh.cpp:310-312 | two floats per vector |
| MeshIndexer.UnflattenVec3 | source/mesh.cpp:301-309 | reading floats in threes gives a third as many vectors |
| MeshIndexer.UnflattenVec2 | source/mesh.cpp:310-312 | reading floats in twos gives half as many vectors |
| MeshIndexer.FlatVec3At | source/mesh.cpp:303-308 | component c of vector i sits at float 3 i + c |
| MeshIndexer.FlatVec2At | source/mesh.cpp:310-311 | component c of vector i sits at float 2 i + c |
| MeshIndexer.UnflattenFlatVec3 | source/mesh.cpp:301-309 | flattening three-component vectors loses nothing |
| MeshIndexer.UnflattenFlatVec2 | source/mesh.cpp:310-312 | flattening two-component vectors loses nothing |
| BinFormat.FloatCells | source/mesh.cpp:476-481 | each float of an array is written as one float cell, in order |
| BinFormat.WordCells | source/mesh.cpp:471-482 | each count or index is written as one word cell, in order |
| BinFormat.ReadFloats | source/mesh.cpp:401-404 | a block read of n floats takes as many cells as the file still holds, and the rest of the file follows |
| BinFormat.ReadWords | source/mesh.cpp:405 | a block read of n indices takes as many cells as the file still holds |
| BinFormat.DecodeBody | source/mesh.cpp:401-405 | no array read holds more elements than its header count |
| BinFormat.Decode | source/mesh.cpp:386-405 | the reader's arrays never exceed the header counts |
| BinFormat.ReadFloatCells | source/mesh.cpp:476-481 | reading back written floats gives them back and leaves the following cells |
| BinFormat.DecodeBodyOfBody | source/mesh.cpp:476-482 | reading the written arrays with their own counts gives them back |
| BinFormat.DecodeEncode | source/mesh.cpp:466-482 | reading a written cache gives the written counts and arrays, whatever a reinterpreting read does |
| BinFormat.ShortHeader | source/mesh.cpp:386-395 | a file shorter than the five-word header gives an index count of 0 and reads no array element |
| Meshes.Translated | source/mesh.cpp:359-363 | translating keeps the number of points |
| Meshes.BoxBounds | source/mesh.cpp:338-351 | the box found by the AABB loop bounds every point, and each of its six bounds is attained by some point |
| Meshes.BoxMaxAttained | source/mesh.cpp:338-351 | each coordinate of the maximum corner the AABB loop finds is that coordinate of some point |
| Meshes.BoxMinAttained | source/mesh.cpp:338-351 | each coordinate of the minimum corner the AABB loop finds is that coordinate of some point |
| Meshes.BoxOfTranslated | source/mesh.cpp:353-363 | translating all points translates the box |
| Meshes.CenteredBox | source/mesh.cpp:353-363 | after moving the box centre to the origin, min + max = 0 on each axis |
| Meshes.ReadFaceRefs | source/mesh.cpp:150-193 | the face loop keeps exactly the accepted references of the tokens the `good()` loop reads |
| Meshes.ParseObjText | source/mesh.cpp:116-207 | the statement loop, keeping one keyword across lines, gathers exactly the specified OBJ contents, or aborts on a face with more than three references |
| Meshes.ReadLine | source/mesh.cpp:122-203 | the body of the statement loop for one trimmed line leaves the keyword the line reads (or the previous one), appends exactly the element of the line's statement, and aborts exactly on a face with more than three accepted references |
| Meshes.ExpandTriangles | source/mesh.cpp:212-230 | the expansion loop looks up each reference 1-based and produces the specified vertex stream |
| Meshes.WeldVertices | source/mesh.cpp:244-272 | the weld loop computes the specified first-match weld and meets its correctness predicate, whose distinct-keys part holds for the first-match model only |
| Meshes.NormalizeNormals | source/mesh.cpp:275-278 | each summed normal is normalised exactly once |
| Meshes.Flatten | source/mesh.cpp:291-321 | the fill loop writes positions, normals and texture coordinates as flat float arrays |
| Meshes.CopyIndices | source/mesh.cpp:322-325 | the index copy loop copies the output indices verbatim |
| Meshes.WeldObj | source/mesh.cpp:211-278 | expansion, weld and renormalisation compose as specified |
| Meshes.WeldedArrays | source/mesh.cpp:285-325 | the arrays of the welded mesh are its flattened vectors and its indices |
| Meshes.ReadArrays | source/mesh.cpp:396-405 | each array is allocated with its header count and its prefix holds the elements read |
| Meshes.Mesh.constructor | source/mesh.cpp:39-43 | stores the recentre flag; no data arrays yet |
| Meshes.Mesh.TrimString | source/mesh.cpp:497-505 | `trim_string` yields the trimmed string |
| Meshes.Mesh.Center | source/mesh.cpp:334-364 | an empty list is unchanged; otherwise every point moves by the box centre, and min + max = 0 on each axis afterwards |
| Meshes.Mesh.ImportObjFile | source/mesh.cpp:94-330 | the name is set; an unopenable file or an unsupported face changes nothing else; otherwise the arrays hold the welded, renormalised, flattened mesh |
| Meshes.Mesh.BuildFromObj | source/mesh.cpp:209-325 | the mesh holds the weld of the expanded references, with normalised normals and no tangents |
| Meshes.Mesh.Store | source/mesh.cpp:285-298 | the counts are the output sizes and the arrays are installed |
| Meshes.Mesh.SetCounts | source/mesh.cpp:285-289 | the five counts are set and nothing else changes |
| Meshes.Mesh.SetArrays | source/mesh.cpp:291-298 | the five arrays are set and nothing else changes |
| Meshes.Mesh.ImportBinFile | source/mesh.cpp:374-415 | the name is set; an unopenable file changes nothing else; otherwise the arrays hold what was read, with counts of header/3, /3, /2, /4, /1 |
| Meshes.Mesh.Load | source/mesh.cpp:396-411 | the allocations, block reads and count updates of the cache reader |
| Meshes.Mesh.ContentsOfRead | source/mesh.cpp:396-411 | a cache whose counts match its arrays loads exactly those arrays and the vector counts |
| Meshes.Mesh.StoreVbo | source/mesh.cpp:420-495 | 4 buffers, 5 with tangents; with `save_bin` the cache holds the header (3 nv, 3 nn, 2 nuv, 4 nt, ni) and the arrays; an uncreatable cache throws before the arrays are released |
| Meshes.CacheRoundTrip | source/mesh.cpp:459-484 | saving one mesh's cache and importing it into another reproduces the counts and the arrays |
| Planes.VertexRowLengths | source/plane.cpp:29-42 | every row of vertices holds 3, 3 and 2 floats per vertex |
| Planes.ElementRowLengths | source/plane.cpp:51-60 | every row of cells holds 6 indices per cell |
| Planes.Lengths | source/plane.cpp:13-16 | the arrays have 3 (xdivs+1)(zdivs+1), 3 (xdivs+1)(zdivs+1), 2 (xdivs+1)(zdivs+1) and 6 xdivs zdivs elements, the sizes allocated |
| Planes.VertexNumber | source/plane.cpp:26-42 | vertex (i, j) is vertex i (xdivs+1) + j of the grid |
| Planes.PositionAt | source/plane.cpp:28-34 | vertex i (xdivs+1) + j is at (j xsize/xdivs - xsize/2, 0, i zsize/zdivs - zsize/2) |
| Planes.NormalAt | source/plane.cpp:35-37 | every normal is (0, 1, 0) |
| Planes.TexCoordAt | source/plane.cpp:39-40 | vertex i (xdivs+1) + j has texture coordinate (j smax/zdivs, i tmax/xdivs), with the divisors swapped |
| Planes.CellNumber | source/plane.cpp:47-60 | cell (i, j) is cell i xdivs + j and its indices start at 6 (i xdivs + j) |
| Planes.CellAt | source/plane.cpp:49-58 | cell (i, j) emits the triangles (r+j, n+j, n+j+1) and (r+j, n+j+1, r+j+1), with r = i(xdivs+1) and n = (i+1)(xdivs+1) |
| Planes.CellBounds | source/plane.cpp:49-58 | the largest index of a cell names a vertex of the grid |
| Planes.RowInRange | source/plane.cpp:51-60 | every index of a row of cells names a vertex of the grid |
| Planes.ElementsInRange | source/plane.cpp:47-61 | every index written is below (xdivs+1)(zdivs+1) |
| Planes.Extent | source/plane.cpp:18-31 | the grid spans [-xsize/2, xsize/2] by [-zsize/2, zsize/2] |
| Planes.TexCoordCorner | source/plane.cpp:39-40 | the texture starts at (0, 0) and reaches (smax, tmax) at the far corner when xdivs = zdivs |
| Planes.VertexRowStep | source/plane.cpp:26-43 | each row of vertices follows the earlier ones and stays within the arrays |
| Planes.FillVertices | source/plane.cpp:12-43 | the arrays allocated with 3, 3 and 2 floats per vertex end up holding the position, normal and texture-coordinate grids |
| Planes.FillRows | source/plane.cpp:24-43 | the vertex loops fill the position, normal and texture-coordinate arrays with the specified grid |
| Planes.FillVertexRow | source/plane.cpp:29-42 | the inner loop appends one row of vertices and advances `vidx` by 3 and `tidx` by 2 per vertex |
| Planes.CellRowStep | source/plane.cpp:47-61 | each row of cells follows the earlier ones and its indices fit an `unsigned int` |
| Planes.FillElements | source/plane.cpp:45-61 | the index loops fill the element array with the specified cells |
| Planes.FillCellRow | source/plane.cpp:51-60 | the inner loop appends the six indices of each cell of one row |
| Planes.Plane.constructor | source/plane.cpp:10-92 | `faces` = xdivs zdivs, and the four buffers hold the specified arrays |
| Planes.Plane.Render | source/plane.cpp:100-104 | `render` draws 6 faces indices, the whole index buffer, in whole triangles of uploaded vertices |
| Textures.Get | source/texture.cpp:83-91 | `get` answers the byte at the read position, or -1 past the end of the file |
| Textures.ShortOf | source/texture.cpp:29-39 | `read_short_le` gives a value in [0, 65535] whose low byte is the first byte and high byte the second |
| Textures.ReadShortLE | source/texture.cpp:29-39 | a short read from a file is in [0, 65535] |
| Textures.WriteShortLE | source/texture.cpp:58-65 | `write_short_le` writes two bytes |
| Textures.ShortRoundTrip | source/texture.cpp:58-65 | reading back a written short gives its low 16 bits, hence the value itself in [0, 65535] |
| Textures.ShortBytesRoundTrip | source/texture.cpp:29-39 | writing back a read short gives its two bytes |
| Textures.ParseHeader | source/texture.cpp:83-92 | width and height are 16-bit, id length and bpp a byte or -1 |
| Textures.HeaderError | source/texture.cpp:94-98 | a header passes exactly when image type is 2, map type 0, and bpp 24 or 32; the type check comes first |
| Textures.ImageBuffer | source/texture.cpp:112-113 | the image buffer holds the file's bytes from the pixel start on, as far as the file reaches |
| Textures.ConvertedLength | source/texture.cpp:114-125 | the converted data has 4 bytes per pixel |
| Textures.PixelAt | source/texture.cpp:100-125 | pixel i of the loaded data is (R, G, B, A) from bytes 2, 1, 0, 3 of file pixel i, A = 0xFF at 24 bpp |
| Textures.ImagePixel | source/texture.cpp:111-124 | a pixel whose bytes were all read from the file is converted from the file bytes at start + k i, with no padding byte involved |
| Textures.HeaderBytes | source/texture.cpp:157-168 | the written header has 18 bytes |
| Textures.BgraUniform | source/texture.cpp:169-175 | every written pixel is 4 bytes |
| Textures.HeaderRoundTrip | source/texture.cpp:157-168 | the header read back from a written file is the one written, and it passes both checks |
| Textures.EncodedImage | source/texture.cpp:169-175 | the image buffer read from a written file holds exactly the written BGRA pixels |
| Textures.PixelsRoundTrip | source/texture.cpp:169-175 | decoding the written pixels gives back the RGBA data, whatever the allocation held |
| Textures.ConvertedPrefix | source/texture.cpp:169-175 | converting the first m written pixels gives the first 4 m RGBA bytes |
| Textures.SizeWraps | source/texture.cpp:109 | a 32768 x 32768 header gives a 32-bit buffer size of 0 |
| Textures.SizeExact | source/texture.cpp:109-115 | below 2^30 pixels the 32-bit size is exactly 4 w h |
| Textures.ReadImage | source/texture.cpp:112-113 | the image buffer after allocation and block read |
| Textures.ConvertPixels | source/texture.cpp:114-125 | the conversion loop gives the specified RGBA data |
| Textures.Texture.constructor | source/texture.cpp:14-20 | zero sides and no pixel data |
| Textures.Texture.LoadTga | source/texture.cpp:67-142 | throws when data exist or the file cannot open; stores the sides, then rejects bad headers leaving no data; otherwise stores the decoded RGBA pixels |
| Textures.Texture.WriteTga | source/texture.cpp:145-183 | an uncreatable file throws; otherwise the file is the 18-byte header and every pixel as B, G, R, A; a texture with no pixels, such as a fresh one with no data, writes the header alone |
| Textures.FileRoundTrip | source/texture.cpp:67-142 | loading into a new texture the file `write_tga` wrote succeeds and reproduces the width, the height and the RGBA data |
| Frustums.Frustum.constructor | source/frustum.cpp:11-19 | all parameters 0, orthographic, nothing to rebuild |
| Frustums.Frustum.Orthographic | source/frustum.cpp:35-44 | aspect = (right - left)/(top - bottom), fovy 0, orthographic, the ortho matrix, nothing to rebuild |
| Frustums.Frustum.PerspectiveView | source/frustum.cpp:61-70 | parameters stored, perspective, the matrix built from the unconverted fovy, nothing to rebuild |
| Frustums.Frustum.GetProjectionMatrix | source/frustum.cpp:77-85 | the matrix is rebuilt from fovy in degrees when flagged, otherwise the cache; the flag is cleared and parameters kept |
| Frustums.Frustum.SetFieldOfViewY | source/frustum.cpp:123-135 | fovy is clamped to [0, 180] and the rebuild flag raised |
| Frustums.Frustum.SetAspectRatio | source/frustum.cpp:137-141 | stored verbatim; rebuild flag raised |
| Frustums.Frustum.SetNearZDistance | source/frustum.cpp:143-147 | stored verbatim; rebuild flag raised |
| Frustums.Frustum.SetFarZDistance | source/frustum.cpp:149-153 | stored verbatim; rebuild flag raised |
| Frustums.Frustum.SetProjectionMatrix | source/frustum.cpp:155-158 | overwrites the cache and leaves the flag alone |
| Frustums.Frustum.IsOrthographic | source/frustum.cpp:107-115 | orthographic is the negation of perspective |
| Frustums.OrthographicAfterSetter | source/frustum.cpp:77-85 | an orthographic frustum answers a perspective matrix after a setter while still reporting orthographic |
| Frustums.PerspectiveUnits | source/frustum.cpp:61-70 | the constructor builds its matrix from fovy unconverted and the setter from fovy converted to radians, so the two matrices are built from different angles unless fovy is 0 |
| CInt.ToU32 | source/character.cpp:29 | conversion to `unsigned int` keeps values in [0, 2^32) and otherwise differs by a multiple of 2^32 |
| CInt.ToSignedChar | source/nameplate.cpp:61 | an `unsigned char` read as `char` lies in [-128, 128) and differs from the byte by a multiple of 256 |
| CInt.TruncDiv | source/nameplate.cpp:63 | C++ `/` truncates toward zero: the quotient times the divisor is at most a non-negative dividend and at least a negative one, within one divisor |
| CInt.TruncMod | source/nameplate.cpp:62 | C++ `%` gives the remainder of the truncating division, with the sign of the dividend |
| Geometry.Quotient | source/frustum.cpp:37 | a float quotient a / b times b gives a back when b is not 0 |
| Geometry.CrossOrthogonal | source/camera.cpp:158-168 | a cross product is orthogonal to both factors |
| Cameras.HitCountCycle | source/camera.cpp:170-179 | after k rotations the counter is k mod 1001, and exactly rotations 1001, 2002, ... renormalise |
| Cameras.HitCountBounded | source/camera.cpp:170-179 | the counter stays within 0..1000 and resets exactly when it renormalises |
| Cameras.DefaultBasisOrthogonal | source/camera.cpp:61-78 | the default basis is pairwise orthogonal |
| Cameras.Renormalised | source/camera.cpp:158-168 | after `normalize_camera` the basis is pairwise orthogonal and forward is the normalised old forward |
| Cameras.LookAtBasis | source/camera.cpp:311-364 | forward points at the centre; left is orthogonal to up and forward; forward . up is within the tolerance |
| Cameras.LookAtFromOrthogonal | source/camera.cpp:366-385 | forward points at the centre, left = normalize(up x forward), and up is orthogonal to forward and left |
| Cameras.LocalDisplacementComponents | source/camera.cpp:290-304 | on an orthogonal basis each local amount moves the eye along its own axis only |
| Cameras.Camera.CurrentView | source/camera.cpp:136-156 | a coherent cache answers the view of the current orientation and eye |
| Cameras.Camera.constructor | source/camera.cpp:14-20 | the default basis at the origin, counter 0, view due for a rebuild |
| Cameras.Camera.Orthographic | source/camera.cpp:33-38 | orthographic frustum, default basis, counter 0, the view flag uninitialised |
| Cameras.Camera.PerspectiveView | source/camera.cpp:53-59 | perspective frustum with the given parameters, default basis, counter 0, view due |
| Cameras.Camera.SetPosition | source/camera.cpp:84-98 | the eye is overwritten, the view flagged, the basis kept |
| Cameras.Camera.Translate | source/camera.cpp:268-283 | the eye moves by v, the view flagged |
| Cameras.Camera.TranslateLocal | source/camera.cpp:290-308 | the eye moves by l left + u up + f forward, the view flagged |
| Cameras.Camera.GetViewMatrix | source/camera.cpp:136-156 | the view is rebuilt only when flagged, as the inverse orientation then the translation by -eye; the flag is cleared |
| Cameras.Camera.NormalizeCamera | source/camera.cpp:158-168 | the basis is rebuilt by cross products and orthogonal; the orientation normalised |
| Cameras.Camera.RegisterRotation | source/camera.cpp:170-179 | the counter moves on and on the 1001st call resets and renormalises |
| Cameras.Camera.Roll | source/camera.cpp:188-199 | rotates left and up about forward, which stays; the orientation is multiplied by the same quaternion |
| Cameras.Camera.Pitch | source/camera.cpp:208-219 | rotates up and forward about -left; left stays |
| Cameras.Camera.Yaw | source/camera.cpp:228-239 | rotates left and forward about up; up stays |
| Cameras.Camera.Rotate | source/camera.cpp:248-261 | rotates all three axes about the normalised axis |
| Cameras.Camera.LookAt | source/camera.cpp:311-364 | turns to the centre from the eye; afterwards left is orthogonal to up and forward |
| Cameras.Camera.LookAtFrom | source/camera.cpp:366-385 | sets the eye and turns to the centre; afterwards up is orthogonal to forward and left |
| ThirdPersonCameras.WrapYaw | source/third_person_camera.cpp:38-41 | the yaw loops end strictly within one turn either way, whole turns away from the input, which stays unchanged when already in range |
| ThirdPersonCameras.ClampPitch | source/third_person_camera.cpp:48-49 | pitch below 0 becomes 0, from pi/2 on it becomes pi/2 - 0.001, anything else is kept; the result is in [0, pi/2) |
| ThirdPersonCameras.ThirdPersonCamera.constructor | source/third_person_camera.cpp:10-26 | yaw, pitch, radius and target stored verbatim on a perspective camera, which is placed, and `update`'s `look_at` has turned it to the target with up hint +z, as the first rotation of the camera (`Aimed(0)`) |
| ThirdPersonCameras.ThirdPersonCamera.Update | source/third_person_camera.cpp:110-117 | the eye is placed from the angles, radius and target, and `look_at` runs with up hint +z |
| ThirdPersonCameras.ThirdPersonCamera.SetRadius | source/third_person_camera.cpp:29-33 | the radius is stored unclamped and the camera placed, and `look_at` has turned the camera to the target with up hint +z from the new eye (`Aimed`) |
| ThirdPersonCameras.ThirdPersonCamera.SetYawAngle | source/third_person_camera.cpp:35-43 | the stored yaw is within (-2 pi, 2 pi), whole turns from the requested one, unchanged if already in range; the camera is placed, and `look_at` has turned the camera to the target with up hint +z from the new eye (`Aimed`) |
| ThirdPersonCameras.ThirdPersonCamera.SetPitchAngle | source/third_person_camera.cpp:45-51 | the stored pitch is the clamped request; the camera is placed, and `look_at` has turned the camera to the target with up hint +z from the new eye (`Aimed`) |
| ThirdPersonCameras.ThirdPersonCamera.SetTarget | source/third_person_camera.cpp:53-57 | the target is stored and the camera placed, and `look_at` has turned the camera to the target with up hint +z from the new eye (`Aimed`) |
| ThirdPersonCameras.ThirdPersonCamera.AddRadius | source/third_person_camera.cpp:60-64 | the radius grows by the amount, unclamped; the camera is placed, and `look_at` has turned the camera to the target with up hint +z from the new eye (`Aimed`) |
| ThirdPersonCameras.ThirdPersonCamera.AddYawAngle | source/third_person_camera.cpp:66-74 | the new yaw is within (-2 pi, 2 pi), whole turns from old + amount; the camera is placed, and `look_at` has turned the camera to the target with up hint +z from the new eye (`Aimed`) |
| ThirdPersonCameras.ThirdPersonCamera.AddPitchAngle | source/third_person_camera.cpp:76-82 | the new pitch is the clamped old + amount; the camera is placed, and `look_at` has turned the camera to the target with up hint +z from the new eye (`Aimed`) |
| ThirdPersonCameras.ThirdPersonCamera.AddTarget | source/third_person_camera.cpp:84-88 | the target moves by the amount; the camera is placed, and `look_at` has turned the camera to the target with up hint +z from the new eye (`Aimed`) |
| Characters.ForwardInCycle | source/character.cpp:64-76 | a forward step never passes the end frame, stays within the cycle once in it, and goes back to the start after the end |
| Characters.BackwardInCycle | source/character.cpp:77-89 | a backward step stays within the cycle when it starts above frame 0, going to the end after the start |
| Characters.BackwardUnderflow | source/character.cpp:82-86 | with the cycle starting at 0, frame 0 steps back to 2^32 - 1, outside the cycle |
| Characters.ForwardPeriod | source/character.cpp:64-76 | walking forward from the start runs through the cycle in order, period end - start + 1 |
| Characters.BackwardPeriod | source/character.cpp:77-89 | walking backward from the end runs through the cycle in reverse, period end - start + 1 |
| Characters.TurnedLeft | source/character.cpp:92-94 | the angle grows by the amount, less one turn when it reaches 2 pi |
| Characters.TurnedRight | source/character.cpp:100-102 | the angle shrinks by the amount, plus one turn when it reaches -2 pi |
| Characters.TurnKeepsRange | source/character.cpp:90-104 | a turn by less than one turn keeps an in-range angle within (-2 pi, 2 pi) |
| Characters.Walked | source/character.cpp:117-125 | a colliding move is vetoed entirely; otherwise the move is made in full and ends at least 0.5 from every other character |
| Characters.Character.constructor | source/character.cpp:17-30 | angle, position and meshes stored; speed 1.1932; timestamps 0; end frame = mesh count - 1 in `unsigned` arithmetic |
| Characters.Character.AnimationDue | source/character.cpp:66-79 | at a positive walking speed, a frame is due exactly when the time since the last frame step times the speed reaches 0.016667 x 1.2 |
| Characters.Character.Update | source/character.cpp:51-128 | frames step only when walking and due; turning changes the angle and the camera yaw by the same signed amount, and `add_yaw_angle` places the camera again and turns it to the target; otherwise the camera keeps its eye, basis, orientation and counter, and its view cache holds the view that `get_view_matrix` refreshed; position changes only when walking, by `Walked`; last update becomes t |
| Characters.Character.StepAnimation | source/character.cpp:64-89 | the frame step and its timestamp, only in walking states and when due |
| Characters.Character.Turn | source/character.cpp:90-104 | the angle turns and the camera yaw is wrapped by the same signed amount, and the camera is placed again and turned to the target |
| Characters.CheckCollision | source/character.cpp:117-123 | the collision loop finds a collision exactly when another character is closer than 0.5 |
| Characters.Character.SetState | source/character.cpp:41-44 | stores the state |
| Characters.Character.SetAnimationState | source/character.cpp:130-133 | stores the frame converted to `unsigned int` |
| Characters.Character.GetAnimationState | source/character.cpp:135-138 | reads the frame back as `int`: converting it back gives the frame, and frames below 2^31 read unchanged |
| Characters.Character.SetWalkingSpeed | source/character.cpp:140-143 | stores the speed |
| Characters.Character.SetPosition | source/character.cpp:150-153 | stores the position |
| Characters.Character.SetAngle | source/character.cpp:160-163 | stores the angle |
| Characters.Character.SetMeshes | source/character.cpp:180-183 | replaces the meshes; the end frame keeps its value |
| ShaderPrograms.LastDot | source/shader_program.cpp:95 | `find_last_of('.')` answers the last dot, or none |
| ShaderPrograms.GetExtension | source/shader_program.cpp:91-101 | the extension is "" exactly when there is no dot; otherwise it is the suffix from the last dot, with no other dot |
| ShaderPrograms.ExtensionOfName | source/shader_program.cpp:91-101 | a name ending in a one-dot extension has that extension, whatever its stem holds |
| ShaderPrograms.LookupType | source/shader_program.cpp:70-78 | the lookup answers the type of the first matching entry, or none when no entry matches |
| ShaderPrograms.FirstMatch | source/shader_program.cpp:70-78 | the first matching entry is the one found |
| ShaderPrograms.VertexExtensions | source/shader_program.cpp:23-24 | `.vs` and `.vert` name vertex shaders |
| ShaderPrograms.GeometryExtensions | source/shader_program.cpp:25-26 | `.gs` and `.geom` name geometry shaders |
| ShaderPrograms.TessellationExtensions | source/shader_program.cpp:27-28 | `.tcs` and `.tes` name the tessellation control and evaluation shaders |
| ShaderPrograms.FragmentExtensions | source/shader_program.cpp:29-30 | `.fs` and `.frag` name fragment shaders |
| ShaderPrograms.ComputeExtension | source/shader_program.cpp:31 | `.cs` names compute shaders |
| ShaderPrograms.UnknownExtension | source/shader_program.cpp:21-32 | any other extension has no stage |
| ShaderPrograms.FindShaderType | source/shader_program.cpp:64-78 | the search loop finds a match exactly when the table has one, with its type |
| ShaderPrograms.GetTypeString | source/shader_program.cpp:413-443 | the eleven listed types get their names; every other value, and only those, gets "unknown" |
| ShaderPrograms.ShaderProgram.constructor | source/shader_program.cpp:36-38 | handle 0, not linked, no cached locations |
| ShaderPrograms.ShaderProgram.EnsureProgram | source/shader_program.cpp:139-147 | a program is created only when the handle is not positive, failing when the GL answers 0 |
| ShaderPrograms.ShaderProgram.CompileShader | source/shader_program.cpp:62-89 | an unknown extension throws before anything changes; otherwise the file is compiled as the table's stage |
| ShaderPrograms.ShaderProgram.CompileShaderFile | source/shader_program.cpp:103-134 | a missing file throws first, then the program is created, then an unopenable file throws, then the source is compiled |
| ShaderPrograms.ShaderProgram.CompileShaderSource | source/shader_program.cpp:136-194 | the program is created if needed; the shader is attached exactly when it compiles |
| ShaderPrograms.ShaderProgram.Link | source/shader_program.cpp:196-233 | a no-op once linked; throws without a program; success clears the uniform cache and sets linked; failure throws |
| ShaderPrograms.ShaderProgram.Use | source/shader_program.cpp:235-243 | succeeds exactly when the handle is positive and the program linked |
| ShaderPrograms.ShaderProgram.GetUniformLocation | source/shader_program.cpp:476-487 | the GL is asked only on a cache miss; the answer is cached and no other entry changes |
| ShaderPrograms.LocationCached | source/shader_program.cpp:476-487 | a second request gives the first answer even if the GL would now answer differently |
| ShaderPrograms.CompileLinkUse | source/shader_program.cpp:196-243 | a fragment shader that compiles and links can be used, and linking again is a no-op |
| ShaderPrograms.UnusableUntilCompiled | source/shader_program.cpp:196-243 | a fresh program can neither be used nor linked |
| Nameplates.GlyphQuad | source/nameplate.cpp:48-59 | six vertices per glyph |
| Nameplates.GlyphCovers | source/nameplate.cpp:48-59 | glyph i spans [i w, (i+1) w] by [0, h] as (ul, dl, ur) and (dr, ur, dl), using exactly the four corners |
| Nameplates.GlyphsAdjacent | source/nameplate.cpp:48-51 | the right edge of a glyph is the left edge of the next |
| Nameplates.AtlasColumn | source/nameplate.cpp:61-62 | the column is c % 16 for ASCII bytes and at most 0 for bytes from 0x80 on (signed `char`, truncating `%`) |
| Nameplates.AtlasRow | source/nameplate.cpp:61-63 | the row is c / 16 for ASCII bytes and at most 0 for bytes from 0x80 on |
| Nameplates.AsciiCell | source/nameplate.cpp:61-63 | an ASCII byte has its own cell in the upper half of the 16 x 16 atlas, and the cell gives the byte back |
| Nameplates.HighByteCell | source/nameplate.cpp:61-63 | a byte from 0x80 on gets a row or column below 0, outside the atlas, unless it is 0x80 or a multiple of 16; exactly the multiples of 16 land in column 0 |
| Nameplates.GlyphUvs | source/nameplate.cpp:65-76 | six texture coordinates per glyph |
| Nameplates.GlyphUvsInCell | source/nameplate.cpp:62-76 | u runs from the cell's left edge plus the kerning to its right edge minus the kerning, and v spans the cell, inside the texture |
| Nameplates.LabelLengths | source/nameplate.cpp:43-77 | a label of n glyphs has 6 n positions and 6 n texture coordinates |
| Nameplates.PositionAt | source/nameplate.cpp:45-59 | vertex 6 i + k is corner k of glyph i |
| Nameplates.UvAt | source/nameplate.cpp:61-76 | vertex 6 i + k is textured by corner k of the glyph of byte i |
| Nameplates.LabelSpan | source/nameplate.cpp:45-59 | the label spans [0, n w] across |
| Nameplates.LabelCentred | source/nameplate.cpp:107-112 | the scaled label's edges lie equally far either side of the projected anchor |
| Nameplates.LabelColour | source/nameplate.cpp:114-115 | full green and alpha, red equal to blue, and red 1 (white) exactly for the name "player" |
| Nameplates.BuildLabel | source/nameplate.cpp:43-77 | the fill loop builds the positions and texture coordinates of every byte of the name |
| Nameplates.BuildProgram | source/nameplate.cpp:26-29 | the program compiles both stages and links, succeeding exactly when both files exist and compile and the program links |
| Nameplates.Nameplate.constructor | source/nameplate.cpp:15-22 | character and name stored, not initialised |
| Nameplates.Nameplate.Init | source/nameplate.cpp:24-88 | succeeds exactly when the program builds; then the buffers hold the whole label, the vertex count is 6 L, and the flag is set; a failure builds no buffer |
| Nameplates.Nameplate.Render | source/nameplate.cpp:97-122 | initialises only when not yet initialised; the origin is the projected anchor moved left by L w scale / 2; scale 0.5; colour by name |
| Nameplates.Nameplate.Place | source/nameplate.cpp:100-112 | the anchor 2 above the character is projected and moved left by half the scaled label width |
| Nameplates.Nameplate.SetUniforms | source/nameplate.cpp:113-117 | the "color", "transform" and "scale" locations are looked up |
| Nameplates.Nameplate.SetCharacter | source/nameplate.cpp:124-127 | stores the character |

## Left out

- **GL calls.** VAO/VBO generation and upload, draws, texture binding (`Texture::load_texture`, `bind`) and `glTexParameteri` are left out. The model keeps what they are given: the buffers and index counts.
- **Shader program internals.** Shader source text handling and info logs are left out. The GL's compile and link results are oracles in `ShaderPrograms.Gl`.
- **Other shader program operations.** `validate`, `print_active_*`, `bind_attrib_location`, `bind_frag_data_location` and the `set_uniform` overloads are left out. Only the location lookup of `set_uniform` is modelled: the values go to the GL.
- **Colour uniform.** `Nameplates.Nameplate.Render` returns the colour instead of sending it.
- **Streams and files.** A file is its contents: a character sequence, a byte sequence, or a cell sequence. Opening is an `Option`. The `.bin` file name and printed messages are not modelled.
- **Float arithmetic.** Single-precision rounding is not modelled, and neither are infinities or NaN.
  - A float quotient by zero goes through the `Maths` oracle.
  - `std::isinf(scale)` in `render` tests the constant 0.5 and is never true.
- **glm maths.** `angleAxis`, `rotate`, `quat_cast`, `mat4_cast`, `perspective`, `ortho`, `normalize`, `cosf` and `sinf` are uninterpreted or symbolic. Orthogonality is proved only where it follows from cross products.
- **Model, model-view and normal matrices.** The matrices `Character::update` builds for rendering are not modelled. Its call to `get_view_matrix`, which refreshes the camera's cache, is.
- **Scene glue.** In `Character::update`, the other characters are given as their positions and the scene's camera as a parameter. `get_parent`, `render`, `compile_link_shader` and `set_texture` belong to rendering and are not modelled.
- **Getters.** The getters of all classes are field reads (`get_state`, `get_position`, `get_radius`, `get_field_of_view_y`, ...), except `Characters.Character.GetAnimationState` and `Frustums.Frustum.IsOrthographic`.
- **Destructors and unmodelled code.** Destructors, `Mesh::render`, `Mesh::print_info` and `Texture::read_int_le` (unused) are not part of this model.
- **Centring.** `Meshes.CenterCopy` runs `center` on a copy, as the importer does. The centred points are then discarded, so the stored mesh does not depend on the recentre flag.
- **Cache lifetime.** `Meshes.Mesh.StoreVbo` requires live data arrays. A second call would use deleted memory, which the model does not represent.
- Meshes.Mesh.StoreVbo, Meshes.CacheRoundTrip: when saving, both require `HeaderFits`: 3 nv, 3 nn, 2 nuv, 4 nt and ni must each be at most 0x7FFF_FFFF. Beyond that, the `int` header words the cache writer computes (`(int)m_num_vertices * 3` and the like) overflow a signed int, which C++ leaves undefined; the model says nothing about such meshes.
- **Weld lookup.** `MeshIndexer.FindKey` models the ordered map as its keys in insertion order, searched for the first equivalent key. Because the comparator's equivalence is not transitive, the real red-black-tree search may miss an equivalent key that this search finds. The model does not capture the tree's search path.
- MeshIndexer.WeldKeysDistinct, MeshIndexer.WeldIsCorrect (its distinct-keys clause, through `WeldCorrect`) and Meshes.WeldVertices: pairwise distinguishable keys hold for the first-match model only. In the program, a tree search can miss an equivalent key and insert a third vertex equivalent to a stored one: with keys k1 = (x 0, y 1) and k2 = (x 0.000015, y 0) stored, the vertex (x 0.000008, y 0) is equivalent to k2. With k1 at the root and k2 to its right (k1 < k2 by x), the search finds the vertex below k1 (x within the margin, y smaller), goes left and never meets k2, so the vertex is stored as a third key. The model does not promise distinct keys for the program.
- MeshIndexer.FindKey, MeshIndexer.WeldStep, MeshIndexer.Weld, Meshes.WeldVertices: the program's `std::map::find` can also return a different equivalent key than the first one inserted. For the stream k2 = (x 0.000015), k1 = (x 0), v = (x 0.000008), all else 0, both keys are stored, with k2 at the root and k1 to its left; `find` goes left at k2 and returns k1, giving indices [0, 1, 1], while the first-match lookup returns k2 and gives [0, 1, 0]. The output indices and normal sums are those of the first-match map, not necessarily the program's.
- **Importer sizes.** `Meshes.Mesh.ImportObjFile` requires every face index to be in range, and the expanded stream to fit the 32-bit loop counters. Out-of-range indices, including an absent texture or normal index of -1, read outside the vectors in the source. `atoi` overflow is not modelled.
- Meshes.Mesh.ImportObjFile: also requires, through `MeshIndexer.Expandable`, that the number of accepted face references be a multiple of three. The source's expansion loop steps three references at a time and reads past the end of the index vectors otherwise; a file with the single face line `f 1 2` is such an input, and the model says nothing about it.
- **OBJ numbers.** Conversion with `>>` of `v`, `vt` and `vn` is the oracle `num` applied to each word. Stream failure states after a bad number are not modelled. A number that is not read at all (a missing word, or any word after a failed keyword read) is `num("")`; in the source the float is left uninitialised.
- **Plane sizes.** `Planes.Plane.constructor` requires positive division counts and array sizes that fit an `int`. The source overflows otherwise.
- **Nameplate program.** `Nameplates.Nameplate.constructor` leaves the program null until `init` (in the source that member starts out uninitialised). `render` before a successful `init` is what `Valid` excludes.
- Nameplates.Nameplate.Place: the transform is stated only under the character width that `init` sets, because the width is uninitialised before `init`.
- Cameras.Camera.LookAt: it states orthogonality of left to up and to forward, and the tolerance bound on forward . up, but not that up is unit length. That would need square roots.
- ThirdPersonCameras.ThirdPersonCamera.Update: it states the orientation `look_at` builds, but the eye position is only described through the `Maths` oracle.
- Frustums.PerspectiveUnits: a perspective matrix is the symbolic term `Perspective(angle, ...)`, so its last clause compares the angles the matrices are built from. `glm::perspective` uses the tangent of half the angle, which has period π, so two different angles can still give equal numeric matrices.
- ThirdPersonCameras.WrapYaw: over reals both loops end, as its `decreases` clauses prove. In single precision, `yaw -= 2 pi` no longer changes a yaw of magnitude 2^27 or more, so the source loops forever there; the model does not capture this.

## Findings

| source | as written | input that shows it | evidently intended | confidence | as-written member | corrected member |
|---|---|---|---|---|---|---|
| source/texture.cpp:109-125 | `size = m_width * m_height * 4` is computed in 32-bit `unsigned`, so it wraps for images of 2^30 pixels or more, while the loop writes 4 bytes per pixel | a TGA header of width 32768 and height 32768 at 32 bpp: size wraps to 0, yet the loop writes 2^32 bytes | a buffer of exactly 4 w h bytes | not executed | Textures.SizeWraps | Textures.SizeExact |
