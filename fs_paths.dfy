/**
  The `std::filesystem::path` decompositions the second loader stack uses: `filename()`,
  `stem()` and `extension()`, with both `/` and `\` as separators, as on Windows.
*/
module FsPaths {

  /**
    The files a program can open, each as the lines `std::getline` reads from it. A path
    that is absent is one whose `std::ifstream` fails to open.
  */
  type FileSystem = map<string, seq<string>>

  predicate IsSeparator(c: char) {
    c == '/' || c == '\\'
  }

  /** The index just past the last separator of `p`, or 0 when there is none. */
  function FileNameStart(p: string): (k: nat)
    ensures k <= |p|
    ensures k > 0 ==> IsSeparator(p[k - 1])
    ensures forall i :: k <= i < |p| ==> !IsSeparator(p[i])
  {
    if p == [] then 0
    else if IsSeparator(p[|p| - 1]) then |p|
    else FileNameStart(p[..|p| - 1])
  }

  /** `path(p).filename()`: the last component. */
  function FileName(p: string): (f: string)
    ensures forall i :: 0 <= i < |f| ==> !IsSeparator(f[i])
    ensures |f| <= |p| && f == p[|p| - |f|..]
  {
    p[FileNameStart(p)..]
  }

  /** The index of the last `.` of `f`, if any. */
  function LastDot(f: string): (k: int)
    ensures -1 <= k < |f|
    ensures k >= 0 ==> f[k] == '.'
    ensures forall i :: k < i < |f| ==> f[i] != '.'
  {
    if f == [] then -1
    else if f[|f| - 1] == '.' then |f| - 1
    else LastDot(f[..|f| - 1])
  }

  /**
    Where the extension of a file name starts: at its last `.`, unless that dot is the first
    character or the name is `.` or `..`, in which case there is no extension.
  */
  function ExtensionStart(f: string): (k: nat)
    ensures k <= |f|
  {
    var d := LastDot(f);
    if f == "." || f == ".." || d <= 0 then |f| else d
  }

  /** `path(p).stem()`. */
  function Stem(p: string): string {
    var f := FileName(p);
    f[..ExtensionStart(f)]
  }

  /** `path(p).extension()`. */
  function Extension(p: string): string {
    var f := FileName(p);
    f[ExtensionStart(f)..]
  }

  /** The stem and the extension split the file name, and the extension is empty or a single dotted suffix. */
  lemma StemAndExtension(p: string)
    ensures Stem(p) + Extension(p) == FileName(p)
    ensures Extension(p) == [] || (Extension(p)[0] == '.' && forall i :: 0 < i < |Extension(p)| ==> Extension(p)[i] != '.')
    ensures Extension(p) != [] ==> Stem(p) != []
  {
    var f := FileName(p);
    assert f == f[..ExtensionStart(f)] + f[ExtensionStart(f)..];
  }
}
