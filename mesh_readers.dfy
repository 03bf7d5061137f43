/**
 * `ReadPolyData`, written identically in viewer_3d.cpp and rotate_scene.cpp: the file's last
 * extension is lower-cased and compared against seven known extensions, each selecting a mesh
 * reader; anything else, including no extension, falls back to a default sphere source.
 *
 * The extension is an input (extracting it is a toolkit call) and the readers themselves are
 * not modelled: the result is which reader is chosen.
 */
module MeshReaders {
  /** The source of the returned mesh. */
  datatype ReaderKind =
    | Ply             // vtkPLYReader
    | XmlPolyData     // vtkXMLPolyDataReader
    | Obj             // vtkOBJReader
    | Stl             // vtkSTLReader
    | LegacyPolyData  // vtkPolyDataReader
    | Byu             // vtkBYUReader
    | SimplePoints    // vtkSimplePointsReader
    | DefaultSphere   // vtkSphereSource, for unsupported extensions

  /** `::tolower` in the C locale: only 'A'..'Z' change. */
  function LowerChar(c: char): (l: char)
    ensures 'A' <= c <= 'Z' ==> l as int == c as int + 32
    ensures !('A' <= c <= 'Z') ==> l == c
  {
    if 'A' <= c <= 'Z' then (c as int + 32) as char else c
  }

  /** `std::transform(..., ::tolower)` over the whole extension. */
  function ToLower(s: string): string {
    if s == [] then [] else [LowerChar(s[0])] + ToLower(s[1..])
  }

  /** Lower-casing keeps the length, changes each character independently, and leaves no capital. */
  lemma {:induction false} ToLowerPointwise(s: string)
    ensures |ToLower(s)| == |s|
    ensures forall i :: 0 <= i < |s| ==> ToLower(s)[i] == LowerChar(s[i])
    ensures forall i :: 0 <= i < |s| ==> !('A' <= ToLower(s)[i] <= 'Z')
  {
    if s != [] {
      ToLowerPointwise(s[1..]);
    }
  }

  /** Lower-casing twice is lower-casing once. */
  lemma {:induction false} ToLowerIdempotent(s: string)
    ensures ToLower(ToLower(s)) == ToLower(s)
  {
    if s != [] {
      ToLowerIdempotent(s[1..]);
    }
  }

  /** The dispatch of `ReadPolyData` on the file's last extension. */
  function ReaderFor(extension: string): ReaderKind {
    var e := ToLower(extension);
    if e == ".ply" then Ply
    else if e == ".vtp" then XmlPolyData
    else if e == ".obj" then Obj
    else if e == ".stl" then Stl
    else if e == ".vtk" then LegacyPolyData
    else if e == ".g" then Byu
    else if e == ".xyz" then SimplePoints
    else DefaultSphere
  }

  /** The lower-case extension that selects a reader; the sphere has none. */
  function ExtensionOf(kind: ReaderKind): string
    requires kind != DefaultSphere
  {
    match kind
    case Ply => ".ply"
    case XmlPolyData => ".vtp"
    case Obj => ".obj"
    case Stl => ".stl"
    case LegacyPolyData => ".vtk"
    case Byu => ".g"
    case SimplePoints => ".xyz"
  }

  /** The seven supported extensions. */
  const SUPPORTED: set<string> := {".ply", ".vtp", ".obj", ".stl", ".vtk", ".g", ".xyz"}

  /** The case of the extension does not matter: ".PLY" and ".ply" select the same reader. */
  lemma ReaderIgnoresCase(a: string, b: string)
    requires ToLower(a) == ToLower(b)
    ensures ReaderFor(a) == ReaderFor(b)
    ensures ReaderFor(a) == ReaderFor(ToLower(a))
  {
    ToLowerIdempotent(a);
  }

  /**
   * The dispatch table is exact: each reader is chosen by its own extension in any case, and
   * by nothing else.
   */
  lemma ReaderTable(extension: string, kind: ReaderKind)
    requires kind != DefaultSphere
    ensures ReaderFor(ExtensionOf(kind)) == kind
    ensures ReaderFor(extension) == kind <==> ToLower(extension) == ExtensionOf(kind)
  {
    assert ToLower(ExtensionOf(kind)) == ExtensionOf(kind) by {
      LowerCaseFixed(ExtensionOf(kind));
    }
  }

  /** A string without capitals is its own lower case. */
  lemma {:induction false} LowerCaseFixed(s: string)
    requires forall i :: 0 <= i < |s| ==> !('A' <= s[i] <= 'Z')
    ensures ToLower(s) == s
  {
    if s != [] {
      LowerCaseFixed(s[1..]);
    }
  }

  /** The sphere is the fallback exactly for extensions outside the supported set, the empty one included. */
  lemma SphereFallback(extension: string)
    ensures ReaderFor(extension) == DefaultSphere <==> ToLower(extension) !in SUPPORTED
    ensures ReaderFor("") == DefaultSphere
  {
  }

  /** Capitals in a supported extension still select its reader. */
  lemma ReaderExamplesUpperCase()
    ensures ReaderFor(".PLY") == Ply && ReaderFor(".G") == Byu
  {
    assert ToLower(".PLY") == ".ply";
    assert ToLower(".G") == ".g";
  }

  /** An unsupported extension, or a supported one without its dot, gives the sphere. */
  lemma ReaderExamplesFallback()
    ensures ReaderFor(".png") == DefaultSphere && ReaderFor("ply") == DefaultSphere
  {
    assert ToLower(".png") == ".png";
    assert ToLower("ply") == "ply";
  }
}
