# OBJ viewer core, modelled in Dafny

This project models the core of a small Windows viewer for Wavefront OBJ models. The
viewer has two rendering paths, and both are modelled.

**The software path** (GDI):
- `OBJModel::loadOBJ` reads the `v`, `vn`, `vt`, `f` and `mtllib` records of a file.
- `OBJLoader` turns the three-corner faces into flat triangles.
- `Transformer` builds working `Triangle`s. Each of these holds an averaged, normalised normal.
- `Controller` wires the load to the renderer when a file-open event arrives.
- `WinAPIRenderer::render` places the triangles on screen. It scales by 150 and centres them in the window. It sorts them far to near by their largest z. It fills every visible one in a grey that follows the light.

**The OpenGL path**:
- `models/ObjLoader` reads an OBJ file into a `Model3D` of named `Mesh`es. An `o` or `g` line starts a new mesh.
- `ModelLoader` picks the loader by file extension.
- `ModelManager` caches loaded models by path.
- `Mesh::processVertices` flattens the faces into a vertex list.
- `Camera` and `ModelRenderer` accumulate rotation and zoom.
- `OpenGLWindow` keeps a registry of its windows and routes mouse drags and the wheel to the renderer.

**Shared pieces**:
- the vector and matrix classes;
- `Light`;
- the `.mtl` material parser.

The model makes the following choices:
- **Files.** The file system is a map from path to the file's lines. A path that is absent is a file that cannot be opened.
- **Line parsing.** The parsing that `std::istringstream`, `std::getline`, `std::stoi` and `std::stoul` do is modelled character by character in `TextStreams`. This includes the stream's fail and eof states.
- **Numbers.** Floating point is modelled by `real`. Integer conversions keep their 32-bit range: `stoi` throws `out_of_range`, and `stoul` wraps a minus sign modulo 2^32, as a 32-bit `unsigned long` does.
- **Exceptions.** They are `Err` values of a `Result`.
- **Loops.** A loop over a file's lines is a `while` loop whose invariant ties the state to a fold of a one-line step function over the lines read so far.
- **Classes.** A C++ class whose methods change its fields is a Dafny class. Its methods state their new state through a `Value()` or `Data()` snapshot.
- **Values.** C++ value types (`Triangle`, `Face`, `Material`, `Mesh` data) are datatypes.
- **Face corners.** `loadOBJ` reads each face corner as the code does. A corner with fewer than two slashes repeats its last piece (see "## Findings"). So a plain `f 1 2 3` gives each corner a normal index, and the triangle loader reads `normals` at those indices.
- **Index bases.** `models/ObjLoader` keeps the indices of a face as read, shifted down by one, and `processVertices` looks them up in its own mesh's lists. An index that counts from the start of the file therefore lands in the right place only for the file's first mesh. The model keeps this behaviour.

## Model

| member | source | states |
|---|---|---|
| TextStreams.Open | model/obj/OBJModel.h:58 | a fresh line stream is good and will read exactly the line's characters |
| TextStreams.ReadWord | model/obj/OBJModel.h:59-60 | `>>` into a string: when no word is left, failbit is set and the target keeps its old value; a word it reads is non-empty and consumes input; a good stream with a non-blank rest always yields a word |
| TextStreams.KeywordOf | model/obj/OBJModel.h:58-60 | `iss >> type` on a line that starts with a word reads exactly that word and leaves the stream just after it, at end of input only when nothing follows |
| TextStreams.ReadWordAfterBlank | model/obj/OBJModel.h:86 | `>>` on a good stream holding a blank and then a word reads that word and stops at the blank or end after it |
| TextStreams.ReadWordSplits | model/obj/OBJModel.h:85-86 | the word read is the maximal run of non-white-space characters after the skipped white space, and the stream goes on right after it |
| TextStreams.Keyword | model/obj/OBJModel.h:59-60 | a line's keyword is its first white-space separated word, or the empty string on a blank line |
| TextStreams.ReadReal | model/obj/OBJModel.h:64 | `>>` into a float: a stream that has already failed leaves the target untouched; a value is read only from a good stream, which stays unfailed; every other outcome sets failbit |
| TextStreams.ReadInt | MTLParser.h:48-49 | `>>` into an int: a stream that has already failed leaves the target untouched; anything but a value read sets failbit |
| TextStreams.Getline | model/obj/OBJModel.h:91-104 | `getline(iss, s, '/')`: a stream that is not good sets failbit and leaves `s` unchanged; otherwise the piece holds no delimiter, an exhausted stream yields "" with failbit, and a non-empty rest is consumed without failing |
| TextStreams.StoI | model/obj/OBJModel.h:94 | `std::stoi`: succeeds exactly when the text starts (after white space) with an optional sign and digits whose value fits in 32 bits; otherwise `invalid_argument` or `out_of_range`; the result is in the `int` range |
| TextStreams.StoIOfNonNumeric | model/obj/OBJModel.h:94 | text starting with neither white space, a sign nor a digit makes `std::stoi` throw `invalid_argument` |
| TextStreams.StoUL | models/ObjLoader.h:60 | `std::stoul` with a 32-bit `unsigned long`: succeeds exactly when a numeral whose magnitude is below 2^32 starts the text; the result is in [0, 2^32), and a minus sign negates modulo 2^32 |
| TextStreams.NatToString | models/ObjLoader.h:90 | `std::to_string` of a count is a non-empty run of decimal digits |
| TextStreams.DigitsValueOfNatToString | models/ObjLoader.h:90 | reading the digits of `to_string(n)` back gives `n` (round trip) |
| TextStreams.StoIOfNatToString | model/obj/OBJModel.h:94 | `stoi(to_string(n)) == n` for every `n` up to `INT_MAX` |
| TextStreams.ScanRealOfNatToString | MTLParser.h:38 | a numeral followed by white space or the end of the line scans as a float equal to the number it denotes, and the scan stops right after its digits |
| TextStreams.ReadRealOfNumeral | MTLParser.h:38 | `>>` into a float on a blank and a numeral stores that number, leaves the stream unfailed just after the digits, and sets eofbit only when the line ends there |
| TextStreams.StoULOfNatToString | models/ObjLoader.h:60 | `stoul(to_string(n)) == n` for every `n` below 2^32 |
| FsPaths.FileName | models/ObjLoader.h:20-21 | the file-name part of a path is the suffix after its last separator and holds no separator |
| FsPaths.StemAndExtension | models/ModelManager.h:20-21 | stem followed by extension is the file name; the extension is empty or one dot and a dot-free tail; a non-empty extension has a non-empty stem, so a leading dot belongs to the stem |
| Vectors3D.Div | model/math/Vector3D.h:141-144 | for a non-zero divisor `s`, the quotient `v / s` times `s` gives `v` back; the operator is `noexcept`, so a zero divisor (which makes `/=` throw) is a precondition rather than an error result |
| Vectors3D.LengthSquared | model/math/Vector3D.h:59-61 | the squared length is never negative |
| Vectors3D.Equals | model/math/Vector3D.h:90-92 | `==` holds exactly when all three components are equal |
| Vectors3D.NotEquals | model/math/Vector3D.h:95-97 | `!=` is the negation of `==` |
| Vectors3D.Magnitude | model/math/Vector3D.h:64-66 | the length used for normalising is non-negative, zero exactly for the zero vector, at least the absolute value of every component, and equal to one of them |
| Vectors3D.Normalized | model/math/Vector3D.h:69-73 | `normalized()` of the zero vector is the zero vector |
| Vectors3D.NormalizedProperties | model/math/Vector3D.h:69-73 | a normalised vector is zero exactly when the input is, has length one otherwise, keeps every component's sign, and has components in [-1, 1] |
| Vectors3D.NormalizedRescales | model/math/Vector3D.h:69-73 | the normalised vector is `v` times some positive factor, so it points the way `v` does |
| Vectors3D.NormalizedAlongZ | model/math/Vector3D.h:69-73 | a vector along the z axis normalises to the unit vector with the same sign |
| Vectors3D.Normalize | model/math/Vector3D.h:99-107 | `normalize()` throws "Cannot normalize a zero-length vector" exactly on the zero vector; otherwise it gives `normalized()` |
| Vectors3D.AddSubCancel | model/math/Vector3D.h:111-120 | `(a + b) - b == a` |
| Vectors3D.AddNegIsZero | model/math/Vector3D.h:111-126 | `a + (-a)` is the zero vector |
| Vectors3D.MulCommutes | model/math/Vector3D.h:129-138 | `v * s == s * v` |
| Vectors3D.DotCommutes | model/math/Vector3D.h:76-78 | the dot product is symmetric |
| Vectors3D.LengthSquaredIsSelfDot | model/math/Vector3D.h:59-78 | the squared length is the dot product of a vector with itself |
| Vectors3D.CrossOrthogonal | model/math/Vector3D.h:76-87 | the cross product is orthogonal to both of its operands |
| Vectors3D.Vector3D.Default | model/math/Vector3D.h:19 | the default vector is (0, 0, 0) |
| Vectors3D.Vector3D.constructor | model/math/Vector3D.h:21 | the vector holds the given components |
| Vectors3D.Vector3D.AddAssign | model/math/Vector3D.h:24-29 | `+=` leaves the object equal to old value plus the operand |
| Vectors3D.Vector3D.SubAssign | model/math/Vector3D.h:32-37 | `-=` leaves the object equal to old value minus the operand |
| Vectors3D.Vector3D.MulAssign | model/math/Vector3D.h:40-45 | `*=` leaves the object equal to old value times the scalar |
| Vectors3D.Vector3D.DivAssign | model/math/Vector3D.h:48-56 | `/=` by zero throws and changes nothing; otherwise the object becomes the quotient |
| Vectors3D.Vector3D.Normalize | model/math/Vector3D.h:99-107 | in-place `normalize()` throws and changes nothing on a zero vector; otherwise the object becomes `normalized()` of its old value |
| Vectors2D.LengthSquared | model/math/Vector2D.h:41-43 | the squared length is never negative |
| Vectors2D.Magnitude | model/math/Vector2D.h:45-47 | the length used for normalising is non-negative, zero exactly for the zero vector, and bounds both components |
| Vectors2D.Normalized | model/math/Vector2D.h:49-53 | `normalized()` of the zero vector is the zero vector |
| Vectors2D.NormalizedProperties | model/math/Vector2D.h:49-53 | a normalised vector is zero exactly when the input is, has length one otherwise, keeps signs, and has components in [-1, 1] |
| Vectors2D.NormalizedRescales | model/math/Vector2D.h:49-53 | the normalised vector is `v` times some positive factor, so it points the way `v` does |
| Vectors2D.AddSubCancel | model/math/Vector2D.h:61-69 | `(a + b) - b == a` |
| Vectors2D.MulCommutes | model/math/Vector2D.h:71-79 | `v * s == s * v` |
| Vectors2D.DotCommutes | model/math/Vector2D.h:55-57 | the dot product is symmetric |
| Vectors2D.LengthSquaredIsSelfDot | model/math/Vector2D.h:41-57 | the squared length is the dot product of a vector with itself |
| Vectors2D.Vector2D.Default | model/math/Vector2D.h:19 | the default vector is (0, 0) |
| Vectors2D.Vector2D.constructor | model/math/Vector2D.h:21 | the vector holds the given components |
| Vectors2D.Vector2D.AddAssign | model/math/Vector2D.h:23-27 | `+=` leaves old value plus the operand |
| Vectors2D.Vector2D.SubAssign | model/math/Vector2D.h:29-33 | `-=` leaves old value minus the operand |
| Vectors2D.Vector2D.MulAssign | model/math/Vector2D.h:35-39 | `*=` leaves old value times the scalar |
| Matrices.Identity | model/math/Matrix4x4.h:40-42 | the identity has ones exactly on the diagonal |
| Matrices.MulIsRowTimesColumn | model/math/Matrix4x4.h:45-67 | entry (i, j) of a product is row i of the left operand dotted with column j of the right one |
| Matrices.IdentityNeutral | model/math/Matrix4x4.h:45-67 | the identity is neutral on both sides of `*` |
| Matrices.Translate | model/math/Matrix4x4.h:113-120 | `translate(x, y, z)` agrees with the identity in its first three rows and holds the offsets and a one in its bottom row |
| Matrices.TranslateCompose | model/math/Matrix4x4.h:113-120 | two translations multiply to the translation by the summed offsets |
| Matrices.Scale | model/math/Matrix4x4.h:138-145 | `scale(x, y, z)` is diagonal with the factors and a trailing one |
| Matrices.ScaleCompose | model/math/Matrix4x4.h:138-145 | two scalings multiply to the scaling by the products of the factors |
| Matrices.Matrix4x4.constructor | model/math/Matrix4x4.h:23-27 | a default matrix is the identity |
| Matrices.Matrix4x4.FromElements | model/math/Matrix4x4.h:29-37 | the matrix holds the sixteen given elements in row-major order |
| Matrices.Matrix4x4.MulAssign | model/math/Matrix4x4.h:70-73 | `*=` leaves the old matrix times the operand |
| Lights.Clamp01 | render/Light.h:39 | the clamp lies in [0, 1], keeps values already there, and maps anything below to 0 and above to 1 |
| Lights.Clamp01Idempotent | render/Light.h:39 | clamping twice is clamping once |
| Lights.Light.constructor | render/Light.h:20-29 | the light keeps type, position and colour, stores the normalised direction, and keeps the intensity as given, unclamped |
| Lights.Light.GetPosition | render/Light.h:31 | returns the stored position |
| Lights.Light.GetDirection | render/Light.h:32 | returns the stored direction |
| Lights.Light.GetColor | render/Light.h:33 | returns the stored colour |
| Lights.Light.GetIntensity | render/Light.h:34 | returns the stored intensity |
| Lights.Light.SetPosition | render/Light.h:36 | replaces the position only |
| Lights.Light.SetDirection | render/Light.h:37 | stores the normalised direction only |
| Lights.Light.SetColor | render/Light.h:38 | replaces the colour only |
| Lights.Light.SetIntensity | render/Light.h:39 | stores the clamped intensity only |
| Triangles.MakeTriangle | controller/Triangle.h:19-27 | the constructor throws the normalise error exactly when the three normals sum to zero; otherwise it keeps vertices and normals as given and its averaged normal is `normalized(sum / 3)` |
| Triangles.ThirdIsZeroIffZero | controller/Triangle.h:25-26 | a third of the normal sum is zero exactly when the sum is, so the constructor throws on exactly the zero sums |
| Triangles.AverageNormalFollowsSum | controller/Triangle.h:25-26 | each component of the averaged normal has the sign of the summed normals' component and lies in [-1, 1] |
| Triangles.Translated | controller/Triangle.h:45-52 | `translate(cx, cy)` moves every vertex by (cx, cy) and leaves z, the normals and the averaged normal alone |
| Triangles.Scaled | controller/Triangle.h:55-62 | `scale(f)` multiplies the x and y coordinate of every vertex by `f`, keeps every z, and leaves the normals alone |
| Triangles.VisibleIffNormalZSum | controller/Triangle.h:65-67 | `isVisible()` holds exactly when the z components of the three normals sum to a non-negative value |
| Triangles.LightIntensity | controller/Triangle.h:70-72 | the intensity is `max(0, n·l)`: never negative, at least `n·l`, and equal to one of them |
| Triangles.MaxZBounds | controller/Triangle.h:75-77 | `getMaxZ()` is at least each vertex's z and equal to one of them |
| Triangles.ScreenPlacementKeepsKeys | controller/Triangle.h:45-77 | scaling and then translating a triangle keeps its depth key, its visibility and its light intensity |
| Triangles.LessIsStrictWeakOrder | controller/Triangle.h:80-82 | `operator<` (larger max z first) is irreflexive and transitive, and incomparability is transitive, as `std::sort` requires |
| Triangles.WorkingTriangle.Copy | render/WinAPIRenderer.h:111 | the copy holds the source triangle's value |
| Triangles.WorkingTriangle.Scale | controller/Triangle.h:55-62 | in-place scaling leaves `Scaled` of the old value |
| Triangles.WorkingTriangle.Translate | controller/Triangle.h:45-52 | in-place translation leaves `Translated` of the old value |
| ObjModels.ParseIndex | model/obj/OBJModel.h:93-95 | an empty subtoken is an absent index; otherwise the index is `stoi - 1`, and `stoi`'s exception passes through |
| ObjModels.CornerOfSubtokens | model/obj/OBJModel.h:92-107 | a corner parses exactly when all three subtokens do; the triple is (position, texture, normal) in that order |
| ObjModels.TwoSlashSubtokens | model/obj/OBJModel.h:90-105 | on a token `a/b/c` the three getline calls yield `a`, `b` and `c` |
| ObjModels.TwoSlashCorner | model/obj/OBJModel.h:90-107 | for a token with at least two slashes the code as written and the intended reading give the same corner |
| ObjModels.ThreePieceCorner | model/obj/OBJModel.h:90-107 | `a/b/c` with numerals gives (a - 1, b - 1, c - 1) |
| ObjModels.CornerWithoutTexture | model/obj/OBJModel.h:90-107 | `a//c` gives a corner with no texture index |
| ObjModels.CornerEmptyLast | model/obj/OBJModel.h:90-107 | `a/b/` gives a corner with no normal index |
| ObjModels.CornerOfShortTokens | model/obj/OBJModel.h:90-107 | in the corrected reading, missing trailing pieces are absent: `a` gives (a - 1, none, none) and `a/b` gives (a - 1, b - 1, none) |
| ObjModels.ParseIndexOfInt | model/obj/OBJModel.h:94 | a subtoken that `stoi` reads as `k` gives index `k - 1` |
| ObjModels.StaleSubtokenNoSlash | model/obj/OBJModel.h:92-105 | as written, the token `5` gives (4, 4, 4) where (4, none, none) is meant |
| ObjModels.StaleSubtokenOneSlash | model/obj/OBJModel.h:97-105 | as written, the token `5/6` gives (4, 5, 5) where (4, 5, none) is meant |
| ObjModels.NonNumericCornerThrows | model/obj/OBJModel.h:90-94 | a corner without a slash that starts with no sign, digit or white space makes `stoi` throw `invalid_argument`, as written and as intended, which aborts the load |
| ObjModels.StaleSubtokens | model/obj/OBJModel.h:90-105 | as written, a corner with no slash repeats its one piece as all three subtokens, and a corner `a/b` repeats `b` as the third |
| ObjModels.PlainCorner | model/obj/OBJModel.h:88-107 | as written, a plain numeral corner `k` (with `1 <= k <= INT_MAX`) gives the position, texture and normal index `k - 1` |
| ObjModels.ParseLineOfWord | model/obj/OBJModel.h:58-61 | a line that starts with a word is dispatched on that word, with the stream left just after it |
| ObjModels.ReadReals3OfNumerals | model/obj/OBJModel.h:64 | `iss >> x >> y >> z` on three blank-separated decimal numerals reads their values |
| ObjModels.VertexLineOfNumerals | model/obj/OBJModel.h:62-68 | a `v` line of three decimal numerals appends the vertex of their values and changes nothing else |
| ObjModels.WordsOfThree | model/obj/OBJModel.h:86 | the `while (iss >> token)` loop over three blank-separated words reads exactly those three words |
| ObjModels.FaceOfThree | model/obj/OBJModel.h:86-108 | three tokens that each read as a corner give the face of those three corners, in order |
| ObjModels.PlainFaceLine | model/obj/OBJModel.h:83-109 | the line `f i j k` of numerals appends one face whose corners name position, texture and normal `i - 1`, `j - 1`, `k - 1` |
| ObjModels.PlainFaceSpelling | model/obj/OBJModel.h:83-109 | the face line `f 1 2 3` is one of those lines |
| ObjModels.PlainTriangleFile | model/obj/OBJModel.h:57-118 | three `v` lines of numerals followed by `f i j k` load as their three vertices, no normals, and one face whose corners name normals `i - 1`, `j - 1`, `k - 1` |
| ObjModels.FaceOfEach | model/obj/OBJModel.h:86-108 | a face parses exactly when each of its tokens does; it has one corner per token, in order, each the corner the code as written reads from that token |
| ObjModels.ParseEachAll | model/obj/OBJModel.h:86-108 | reading the tokens one by one succeeds exactly when each token parses, and then gives one result per token, in order |
| ObjModels.ReadFace | model/obj/OBJModel.h:86-108 | the `while (iss >> token)` loop builds the face of the line's remaining words |
| ObjModels.ReadCorner | model/obj/OBJModel.h:88-106 | the three `getline` calls on one `subToken` give the corner as written, stale pieces included, or the first `stoi` exception |
| ObjModels.ReadIndex | model/obj/OBJModel.h:92-95 | a non-empty subtoken becomes `stoi - 1` or throws `stoi`'s exception; an empty one is no index |
| ObjModels.FaceLine | model/obj/OBJModel.h:83-109 | an `f` line either throws or appends exactly one face with one corner per token (possibly none; indices are not range-checked) |
| ObjModels.NumericRecords | model/obj/OBJModel.h:62-82 | `v` and `vn` lines append their entry exactly when three numbers parse, `vt` when two do; a malformed record is skipped |
| ObjModels.ParseLineEffect | model/obj/OBJModel.h:57-118 | only an `f` line can throw; a line adds at most one entry and only to its keyword's list; `mtllib` alone changes the library name; an unknown keyword changes nothing |
| ObjModels.ParseRecordEffect | model/obj/OBJModel.h:57-118 | the same, for a keyword and the stream left after it |
| ObjModels.OBJModel.constructor | model/obj/OBJModel.h:138-144 | a new model holds no vertices, normals, texture coordinates or faces |
| ObjModels.OBJModel.GetFaces | model/obj/OBJModel.h:124-126 | returns the faces read |
| ObjModels.OBJModel.GetVertices | model/obj/OBJModel.h:128-130 | returns the vertices read |
| ObjModels.OBJModel.GetNormals | model/obj/OBJModel.h:132-134 | returns the normals read |
| ObjModels.OBJModel.ReadVertex | model/obj/OBJModel.h:62-68 | a `v` line leaves the state its record step gives: one more vertex exactly when three numbers parse |
| ObjModels.OBJModel.ReadNormal | model/obj/OBJModel.h:69-75 | a `vn` line leaves one more normal exactly when three numbers parse |
| ObjModels.OBJModel.ReadTexCoord | model/obj/OBJModel.h:76-82 | a `vt` line leaves one more texture coordinate exactly when two numbers parse |
| ObjModels.OBJModel.ReadFaceRecord | model/obj/OBJModel.h:83-109 | an `f` line throws and changes nothing, or appends the face its tokens give |
| ObjModels.OBJModel.ReadMtlLib | model/obj/OBJModel.h:110-117 | an `mtllib` line replaces the library name when a name follows, and keeps the old one otherwise |
| ObjModels.OBJModel.ReadLine | model/obj/OBJModel.h:58-117 | one pass of the line loop leaves the state the one-line step function gives |
| ObjModels.OBJModel.LoadOBJ | model/obj/OBJModel.h:47-122 | an unopenable file gives null; otherwise the load throws exactly when some line throws (the first exception) and else returns a fresh model holding the fold of the lines |
| TriangleLoaders.Position | model/loaders/OBJLoader.h:42-52 | a triangle vertex copies the indexed vertex's coordinates |
| TriangleLoaders.NormalOf | model/loaders/OBJLoader.h:56-66 | a triangle normal copies the indexed normal's components |
| TriangleLoaders.TriangleOf | model/loaders/OBJLoader.h:31-72 | positions come from the three position indices; normals are copied when all three corners carry one and are zero otherwise |
| TriangleLoaders.Triangular | model/loaders/OBJLoader.h:25-28 | every face kept has three corners, and no more faces are kept than given |
| TriangleLoaders.ConvertFaces | model/loaders/OBJLoader.h:18-78 | fails with "Invalid vertex indices in face." exactly when some three-corner face lacks a position index; otherwise gives one triangle per three-corner face |
| TriangleLoaders.ConvertFacesContents | model/loaders/OBJLoader.h:25-77 | triangle `k` is built from the `k`-th three-corner face; texture indices play no part |
| TriangleLoaders.AllTrianglesKept | model/loaders/OBJLoader.h:25-77 | when every face is a readable triangle, the conversion succeeds with one triangle per face, the k-th built from face k |
| TriangleLoaders.ConvertToTriangles | model/loaders/OBJLoader.h:18-78 | the conversion loop computes `ConvertFaces` of the model's faces |
| TriangleLoaders.ReadTriangle | model/loaders/OBJLoader.h:41-72 | one base triangle: positions copied from the named vertices, normals copied when all three corners name one and zero otherwise |
| TriangleLoaders.ConvertFacesNext | model/loaders/OBJLoader.h:25-75 | one more face: skipped unless it has three corners, throws when a position is missing, and otherwise adds the triangle built from it |
| TriangleLoaders.LoadModel | model/loaders/OBJLoader.h:9-15 | an unopenable file throws "Failed to load OBJ model from file: " and the path; a parse exception passes through; otherwise the result is the conversion of the parsed faces |
| TriangleLoaders.PlainFaceUnreadable | model/loaders/OBJLoader.h:55-66 | a face whose positions are in range but whose corners name normals, with no normals loaded, is not safe to convert |
| TriangleLoaders.PlainFaceNeedsNormals | model/loaders/OBJLoader.h:55-66 | a file of three `v` lines and a plain `f i j k` over them, with no `vn` line, parses to a face with its positions in range that names normals while none exist, so `loadModel` would read `normals` out of range |
| Transformers.VertexOf | controller/Transformer.h:18-20 | a working vertex copies the base vertex's coordinates |
| Transformers.Transformed | controller/Transformer.h:11-36 | succeeds exactly when no base triangle's normals sum to zero; the output has one triangle per input, each built by the `Triangle` constructor from that input |
| Transformers.FieldsCopied | controller/Transformer.h:18-25 | vertices and normals reach the working triangle unchanged |
| Transformers.TransformTriangles | controller/Transformer.h:11-36 | the loop computes `Transformed` |
| Transformers.TransformedNext | controller/Transformer.h:16-33 | one more base triangle: the constructor either throws, and the transformation throws the same, or its triangle is appended |
| Transformers.TransformedErrPersists | controller/Transformer.h:16-33 | once a prefix of the input throws, the whole transformation throws the same exception |
| SoftwareRenderer.HalfTruncated | render/WinAPIRenderer.h:113 | integer halving truncates toward zero, as C++ `/ 2` does, for negative sizes too |
| SoftwareRenderer.ConstructedShadeable | controller/Triangle.h:25-26 | a triangle made by the constructor has a light intensity in [0, 1], so its grey fits in a byte |
| SoftwareRenderer.Processed | render/WinAPIRenderer.h:109-115 | one placed triangle per model triangle, each scaled by 150 and moved by half the window size |
| SoftwareRenderer.ProcessedKeepsKeys | render/WinAPIRenderer.h:109-115 | placement keeps every triangle's averaged normal, depth key and visibility |
| SoftwareRenderer.DepthOrderedNonIncreasing | render/WinAPIRenderer.h:117 | a list is ordered by `operator<` exactly when the max-z values never increase along it |
| SoftwareRenderer.SortByDepth | render/WinAPIRenderer.h:117 | the in-place sort leaves a depth-ordered permutation of the array |
| SoftwareRenderer.ColorByte | render/WinAPIRenderer.h:54 | the grey level lies in [0, 255] and is `255 * intensity` truncated |
| SoftwareRenderer.FillOf | render/WinAPIRenderer.h:52-62 | a fill is a polygon of three points |
| SoftwareRenderer.FillIsGrey | render/WinAPIRenderer.h:119-133 | all three colour channels are the byte of `255 * max(0, n.z)` for the averaged normal `n`: white facing the viewer, black edge-on |
| SoftwareRenderer.VisibleOnes | render/WinAPIRenderer.h:121-124 | keeps only visible triangles, each taken from the list, and never more than the list holds |
| SoftwareRenderer.VisibleOnesCount | render/WinAPIRenderer.h:121-124 | each visible triangle survives exactly as often as the list holds it, and no invisible one survives |
| SoftwareRenderer.VisibleOnesAppend | render/WinAPIRenderer.h:121-124 | culling `a + b` gives the survivors of `a` followed by those of `b`, so culling keeps the list order |
| SoftwareRenderer.VisibleOnesComplete | render/WinAPIRenderer.h:121-124 | every visible triangle is kept |
| SoftwareRenderer.VisibleOnesOrdered | render/WinAPIRenderer.h:121-124 | culling a depth-ordered list leaves it depth-ordered |
| SoftwareRenderer.Fills | render/WinAPIRenderer.h:121-134 | one fill per visible triangle, in drawing order |
| SoftwareRenderer.PlaceAll | render/WinAPIRenderer.h:109-115 | the in-place placement loop leaves `Processed` of the model |
| SoftwareRenderer.DrawAll | render/WinAPIRenderer.h:121-134 | the drawing loop emits exactly `Fills` of the sorted triangles |
| SoftwareRenderer.ShadeableKept | render/WinAPIRenderer.h:109-117 | placement and sorting keep every triangle shadeable |
| SoftwareRenderer.Render | render/WinAPIRenderer.h:86-145 | the drawn order is a depth-ordered permutation of the placed model, and the fills are those of its visible triangles in that order |
| SoftwareRenderer.PaintedCount | render/WinAPIRenderer.h:109-134 | a frame paints as many triangles as the model has visible ones |
| SoftwareRenderer.VisibleCountPermutation | render/WinAPIRenderer.h:117-124 | reordering triangles does not change how many are visible |
| SoftwareRenderer.WinAPIRenderer.constructor | render/WinAPIRenderer.h:65-67 | a new renderer has no triangles |
| SoftwareRenderer.WinAPIRenderer.UpdateModel | render/WinAPIRenderer.h:152-158 | the list is replaced even when empty; an empty list raises one error box and a non-empty one requests one repaint |
| SoftwareRenderer.WinAPIRenderer.Paint | render/WinAPIRenderer.h:206-210 | a paint renders only a non-empty model; its fills are those of the placed triangles in some far-to-near order, one per visible triangle |
| ViewerModels.Model.constructor | model/Model.h:14-15 | a new model has no triangles |
| ViewerModels.Model.LoadModel | model/Model.h:18-23 | without a loader it throws and keeps its triangles; otherwise a failed load keeps them and a successful one replaces them with the loader's result |
| ViewerModels.Model.GetTriangles | model/Model.h:26-28 | returns the stored triangles |
| Controllers.TransformedShadeable | controller/Controller.h:36-37 | every working triangle handed to the renderer is shadeable |
| Controllers.Controller.constructor | controller/Controller.h:16-20 | a fresh renderer with no triangles and a model with an OBJ loader |
| Controllers.Controller.HandleEvent | controller/Controller.h:30-49 | a file-open event with a path loads, transforms and updates the renderer, which then raises one error box for an empty list and requests one repaint otherwise; an exception from either step leaves the renderer's list and both counters as they were; an `int` payload throws `bad_variant_access`; other events change neither the model's triangles nor the renderer's list and counters |
| MtlParsers.Commit | MTLParser.h:32-36 | the current material is stored under its name exactly when the name is non-empty |
| MtlParsers.MtlFoldOk | MTLParser.h:27-56 | reading the lines of a material file never throws |
| MtlParsers.ParsedMtlNext | MTLParser.h:27-56 | one more line changes the state by one step of the line function |
| MtlParsers.NewmtlCommitsAndCarriesOver | MTLParser.h:32-36 | `newmtl` commits the open material and renames it; the colours and other fields carry over into the next material |
| MtlParsers.FieldLines | MTLParser.h:37-55 | every keyword but `newmtl` leaves the table and the name alone and changes only its own field of the open material; `Ka`/`Kd`/`Ks` set that colour to the three components read after the keyword (each read, zeroed or kept as the stream allows), `Ns` the shininess to the number read, `map_Kd` the texture to the word read or "" |
| MtlParsers.ReadRgbOfNumerals | MTLParser.h:38-42 | a colour line whose three values are numerals sets the colour to exactly those numbers, whatever it held before |
| MtlParsers.DissolveLine | MTLParser.h:45-46 | `d` and `Tr` both set only the dissolve |
| MtlParsers.IllumFlagMeaning | MTLParser.h:47-50 | the illumination flag is set exactly when the number read is positive; a failed read stores 0 and clears it; a stream that failed earlier leaves the uninitialised value to decide |
| MtlParsers.IllumLine | MTLParser.h:47-50 | `illum` changes only the illumination flag |
| MtlParsers.FieldRecordEffect | MTLParser.h:37-55 | a line other than `newmtl` changes only the field its keyword names, and an unknown keyword changes nothing; for each keyword, the new value of its field is the one read from the rest of the line: three components for `Ka`/`Kd`/`Ks`, one number for `Ns`, `d` and `Tr`, the `illum` flag, the `map_Kd` word |
| MtlParsers.MtlLineKeyed | MTLParser.h:32-55 | one line keeps every table entry under its own, non-empty name |
| MtlParsers.ParsedKeyedByName | MTLParser.h:27-56 | between lines, every material in the table is stored under its own name, and no entry has the empty name |
| MtlParsers.MaterialTableKeyed | MTLParser.h:32-61 | the table `loadMTL` returns, last material included, stores every material under its own non-empty name |
| MtlParsers.TableGrowsByCommits | MTLParser.h:32-36 | only `newmtl` lines add to the table, and only the open material under its name |
| MtlParsers.ReadMaterialLine | MTLParser.h:28-55 | one pass of the line loop leaves the state the line function gives |
| MtlParsers.LoadMTL | MTLParser.h:17-65 | an unopenable file gives null; otherwise the table holds the committed materials, the last one included |
| Meshes.NewMesh | models/Mesh.h:29 | a new mesh has its name and every list empty |
| Meshes.CornerVertex | models/Mesh.h:58-82 | a corner's position, normal and texture coordinate come from their lists when the index exists and are zero otherwise |
| Meshes.FaceVertices | models/Mesh.h:55-85 | one vertex per position index, in corner order |
| Meshes.FlattenedAt | models/Mesh.h:54-86 | corner `i` of face `j` sits right after the corners of the earlier faces: no gaps, no reordering |
| Meshes.FlattenedIgnoresVertices | models/Mesh.h:52-87 | the flat list depends only on the faces and the position, normal and texture lists |
| Meshes.ProcessedIdempotent | models/Mesh.h:52 | processing twice is processing once |
| Meshes.ProcessedCount | models/Mesh.h:54-86 | the flat list has as many vertices as the faces have position indices |
| Meshes.Mesh.constructor | models/Mesh.h:29 | the mesh is `NewMesh` of its name |
| Meshes.Mesh.AddPosition | models/Mesh.h:35-37 | appends one position; nothing else changes |
| Meshes.Mesh.AddNormal | models/Mesh.h:39-41 | appends one normal; nothing else changes |
| Meshes.Mesh.AddTexCoord | models/Mesh.h:43-45 | appends one texture coordinate; nothing else changes |
| Meshes.Mesh.AddFace | models/Mesh.h:47-49 | appends one face; nothing else changes |
| Meshes.Mesh.ProcessVertices | models/Mesh.h:51-87 | the vertex list becomes the flattened faces; nothing else changes |
| Meshes.Mesh.AppendFaceVertices | models/Mesh.h:55-85 | the inner loop appends exactly the face's vertices |
| Models3D.Model3D.constructor | models/Model3D.h:13 | a named model with no meshes |
| Models3D.Model3D.AddMesh | models/Model3D.h:18-20 | appends the mesh; the name stays |
| ObjMeshLoaders.IndexValue | models/ObjLoader.h:60 | a piece converts exactly when `stoul` succeeds; the stored index is `stoul - 1` wrapped to 32 bits |
| ObjMeshLoaders.Pushed | models/ObjLoader.h:58-62 | a piece pushes at most one index: none when it is empty, its value when it converts |
| ObjMeshLoaders.Assemble | models/ObjLoader.h:54-75 | the face converts exactly when every piece does; the first failing piece in source order gives the error |
| ObjMeshLoaders.FaceIndicesBounded | models/ObjLoader.h:54-75 | no index list is longer than the number of corner tokens |
| ObjMeshLoaders.CornerOnePiece | models/ObjLoader.h:58-75 | a corner without slashes pushes only a position index |
| ObjMeshLoaders.CornerTwoPieces | models/ObjLoader.h:58-75 | `a/b` pushes a position and a texture index and no normal |
| ObjMeshLoaders.CornerThreePieces | models/ObjLoader.h:58-75 | `a/b/c` pushes position, texture and normal; an empty middle piece pushes no texture index |
| ObjMeshLoaders.PushedNumeral | models/ObjLoader.h:60 | a numeral `k` with 1 <= k < 2^32 pushes `k - 1` |
| ObjMeshLoaders.PushedZero | models/ObjLoader.h:60 | the index `0` wraps to 2^32 - 1 |
| ObjMeshLoaders.WithCurrent | models/ObjLoader.h:82-99 | the open mesh is processed and committed exactly when it has faces |
| ObjMeshLoaders.MeshName | models/ObjLoader.h:87-91 | an `o`/`g` name is the word that follows, or `unnamed_` and the number of meshes so far |
| ObjMeshLoaders.PositionLine | models/ObjLoader.h:32-37 | `v` appends its position to the open mesh when three numbers parse and changes nothing otherwise |
| ObjMeshLoaders.NormalLine | models/ObjLoader.h:38-43 | `vn` appends its normal when three numbers parse and changes nothing otherwise |
| ObjMeshLoaders.TexCoordLine | models/ObjLoader.h:44-49 | `vt` appends its texture coordinate when two numbers parse and changes nothing otherwise |
| ObjMeshLoaders.FaceLine | models/ObjLoader.h:50-80 | `f` throws exactly when a piece fails to convert; it adds a face exactly when the face has position indices |
| ObjMeshLoaders.MeshLineEffect | models/ObjLoader.h:27-94 | only `f` can throw; other lines change only what their keyword names |
| ObjMeshLoaders.MeshStepEffect | models/ObjLoader.h:27-94 | the same, for a keyword and the stream left after it |
| ObjMeshLoaders.MeshLineMeshes | models/ObjLoader.h:81-93 | `o`/`g` commits the open mesh when it has faces and opens a fresh named one |
| ObjMeshLoaders.MeshLineKeepsCommitted | models/ObjLoader.h:27-94 | a line keeps every stored mesh processed and non-empty |
| ObjMeshLoaders.ProcessedCommitted | models/ObjLoader.h:82-84 | a processed mesh with faces counts as committed |
| ObjMeshLoaders.FoldKeepsCommitted | models/ObjLoader.h:26-94 | after any number of lines every stored mesh is processed and has faces |
| ObjMeshLoaders.LoadedMeshesCommitted | models/ObjLoader.h:26-99 | every mesh of a loaded model has faces and a flattened vertex list |
| ObjMeshLoaders.LoadedModel | models/ObjLoader.h:14-102 | an unopenable file throws; otherwise the load throws exactly when a line does, and else names the model by the file's stem |
| ObjMeshLoaders.ObjLoader.LoadModel | models/ObjLoader.h:14-102 | the loader method returns `LoadedModel` of the file |
| ObjMeshLoaders.ReadFace | models/ObjLoader.h:54-75 | the corner loop computes the face's index lists |
| ObjMeshLoaders.ReadMeshLine | models/ObjLoader.h:28-93 | one pass of the line loop leaves the state the line function gives |
| ModelLoaders.CreateLoader | models/ModelLoader.cpp:4-11 | gives an OBJ loader exactly for the extension `.obj`, in lower case; otherwise throws "Unsupported file extension: " and the extension |
| ModelManagers.FreshLoad | models/ModelManager.h:20-25 | an uncached load is the loader the extension picks, applied to the path |
| ModelManagers.ModelManager.constructor | models/ModelManager.h:12 | the cache starts empty |
| ModelManagers.ModelManager.LoadModel | models/ModelManager.h:14-30 | a cached path returns the cached model and changes nothing; otherwise a successful load is stored under the path and a failure leaves the cache as it was |
| ModelManagers.ModelManager.ClearCache | models/ModelManager.h:32-34 | the cache is emptied |
| ViewStates.Rotated | renders/ModelRenderer.h:65-68 | rotating adds half the horizontal delta to the y angle and half the vertical delta to the x angle, and leaves the zoom |
| ViewStates.Zoomed | renders/ModelRenderer.h:70-72 | zooming adds a tenth of the delta to the zoom and leaves the angles |
| ViewStates.ReplayedAdds | renders/ModelRenderer.h:65-72 | replaying any sequence of updates equals one update by the summed deltas |
| ViewStates.RotateZoomCommute | RenderOgl3/Camera.cpp:9-16 | rotation and zoom updates commute |
| ViewStates.UpdatesAccumulate | renders/ModelRenderer.h:65-72 | two updates of a kind equal one update by the summed delta |
| ViewStates.ZeroDeltas | renders/ModelRenderer.h:65-72 | zero deltas change nothing |
| Cameras.Camera.constructor | RenderOgl3/Camera.h:9-11 | the camera starts unrotated at its initial zoom |
| Cameras.Camera.UpdateRotation | RenderOgl3/Camera.cpp:9-12 | the angles become `Rotated` of the old state |
| Cameras.Camera.UpdateZoom | RenderOgl3/Camera.cpp:14-16 | the zoom becomes `Zoomed` of the old state |
| ModelRenderers.ModelRenderer.constructor | renders/ModelRenderer.h:8-14 | no model, unrotated, at its initial zoom |
| ModelRenderers.ModelRenderer.SetModel | renders/ModelRenderer.h:16-18 | replaces the model only |
| ModelRenderers.ModelRenderer.UpdateRotation | renders/ModelRenderer.h:65-68 | the view becomes `Rotated` of the old view |
| ModelRenderers.ModelRenderer.UpdateZoom | renders/ModelRenderer.h:70-72 | the view becomes `Zoomed` of the old view |
| OpenGLWindows.WindowRegistry.constructor | renders/OpenGLWindow.h:11 | the registry starts empty |
| OpenGLWindows.WindowRegistry.GetInstance | renders/OpenGLWindow.h:170-176 | a registered handle gives its window, an unknown one gives null |
| OpenGLWindows.DragTelescopes | renders/OpenGLWindow.h:134-144 | a drag's rotations sum to the offset from where the button went down to the last position |
| OpenGLWindows.OpenGLWindow.constructor | renders/OpenGLWindow.h:7-24 | a new window is 800 by 600, not dragging, with no handle |
| OpenGLWindows.OpenGLWindow.Create | renders/OpenGLWindow.h:30-89 | creation succeeds exactly when the class registers, the window exists and the GL context initialises; the window is registered under its handle as soon as it exists, even when the context then fails; without a window the registry is unchanged |
| OpenGLWindows.OpenGLWindow.Destroy | renders/OpenGLWindow.h:157-168 | the window's handle leaves the registry and the window has no handle |
| OpenGLWindows.OpenGLWindow.SetModel | renders/OpenGLWindow.h:111-113 | the renderer's model is replaced |
| OpenGLWindows.OpenGLWindow.OnResize | renders/OpenGLWindow.h:115-121 | the window records the new size |
| OpenGLWindows.OpenGLWindow.OnMouseDown | renders/OpenGLWindow.h:124-128 | a drag starts at the cursor |
| OpenGLWindows.OpenGLWindow.OnMouseUp | renders/OpenGLWindow.h:130-132 | the drag ends; nothing else changes |
| OpenGLWindows.OpenGLWindow.OnMouseMove | renders/OpenGLWindow.h:134-144 | while dragging, the renderer rotates by the cursor's offset and the last position moves; otherwise nothing changes |
| OpenGLWindows.OpenGLWindow.OnMouseWheel | renders/OpenGLWindow.h:146-148 | the renderer zooms by the wheel delta scaled down by 120 |

## Left out

- Win32, GDI and OpenGL calls are left out: window-class registration, `CreateWindowEx`, the message loop, `BitBlt`, `OpenGLContext` and the GL buffers and shaders. A window handle is a number that `Create` receives as a parameter.
- `MessageBox` and `InvalidateRect` are modelled only as counters on the renderer.
- `ModelRenderer::initialize`, `resize`, `render`, `renderMesh` and `renderCube` are left out because they only issue GL calls. For the same reason, `Camera::resize` and `Camera::updateViewMatrix` are left out.
- `Matrix4x4::perspective`, `lookAt` and `rotate` (model/math/Matrix4x4.h:76-135) are left out: they need trigonometry, and reals have none.
- Vectors3D.Magnitude: the length is the largest absolute component, not the Euclidean norm, because reals have no square root. `normalized`, `normalize` and the triangle's averaged normal are exact only along an axis. Their zero cases, signs and range are proved, and that the result is a positive multiple of the input.
- Vectors2D.Magnitude: the same stand-in length as in 3D.
- Vectors3D.Normalized: divides by the stand-in length, so the result has Euclidean length one only along an axis.
- Vectors3D.NormalizedProperties: "length one" is in the stand-in length (the largest absolute component is 1), not the Euclidean norm.
- Vectors2D.Normalized: divides by the stand-in length, so the result has Euclidean length one only along an axis.
- Vectors2D.NormalizedProperties: "length one" is in the stand-in length, as in 3D.
- Vectors3D.NormalizedRescales: states only that the result is a positive multiple of the input. That normalising `c * v` for `c > 0` gives the same vector as normalising `v` is not proved: the solver runs out of resource on the nonlinear reasoning over the stand-in length.
- Vectors2D.NormalizedRescales: the same gap as in 3D.
- Vectors3D.Div: a zero divisor is a precondition. In the program, the exception `/=` throws inside the `noexcept` operator ends the process; the only caller divides by 3.
- Floating point is modelled by `real`, so rounding and overflow are not modelled.
- Float extraction covers an optional sign, digits, an optional fraction and an optional exponent. Hexadecimal floats, `inf` and `nan` are not modelled.
- TextStreams.ReadInt: `>>` into an `int` does not model overflow to `INT_MAX` or `INT_MIN`.
- MtlParsers.LoadMTL: an `illum` line with no number reads an uninitialised `int`. The model takes that value as the parameter `unset`.
- SoftwareRenderer.SortByDepth: the sort is an insertion sort. The order it gives to triangles with equal max z may differ from `std::sort`, which leaves that order unspecified.
- Pixel filling of `Polygon` is left out. A frame is the list of filled polygons with their grey colours.
- TriangleLoaders.LoadModel: requires that the faces index existing vertices and normals. The source reads `vertices[...]` and `normals[...]` without a bound check, so an out-of-range index is undefined behaviour.
- ViewerModels.Model.LoadModel and Controllers.Controller.HandleEvent carry the same requirement, for the same reason.
- Models3D.Model3D holds mesh values instead of shared references to meshes, so aliasing between models is not modelled.
- FsPaths.StemAndExtension: drive letters and root names of `std::filesystem::path` are not modelled.
- Diagnostics written to `std::cerr` and the `operator<<` overloads are left out.
- The root-level copies of `OBJModel.h`, `Vector3D.h` and `WinAPIRenderer.h` duplicate the files modelled under `model/` and `render/`, and are not part of this model.
- `main.cpp`, `RenderOgl3/MeshBuffer`, `RenderOgl3/CubeBuffer`, `RenderOgl3/ShaderProgram` and `RenderOgl3/Shaders.cpp` are not part of this model.

## Findings

| source | as written | input that shows it | evidently intended | confidence | as-written member | corrected member |
|---|---|---|---|---|---|---|
| model/obj/OBJModel.h:90-107 | when a corner token has fewer than two slashes, the later `getline` calls fail and leave `subtoken` holding the previous piece, which is then parsed again | the face token `5` gives (4, 4, 4), and `5/6` gives (4, 5, 5) | missing texture and normal pieces are absent: (4, none, none) and (4, 5, none) | not executed | ObjModels.CornerAsWritten | ObjModels.CornerOf |

The load pipeline (`ParseCorners`, `ReadFace`, `ReadCorner`) follows the code as written, so what the model proves about loading is what the program does. `CornerOf` is the intended reading. `TwoSlashCorner` proves that the two readings agree on every corner with two slashes. `TriangleLoaders.PlainFaceNeedsNormals` shows what the stale piece costs on the most common face form: a file with one `v` line per vertex and `f 1 2 3`, and no `vn` line, is not loadable, because the triangle loader reads `normals` at indices that do not exist.
