/** The file-path operations the export handler uses: reading a path's
    extension and replacing it (`Path::extension`, `PathBuf::set_extension`).
    A path is modelled by its parent and its final component. */
module Paths {
  import opened Wrappers

  datatype FilePath = FilePath(parent: string, name: string)

  /** A path has a file name unless its final component is empty or `..`. */
  predicate HasFileName(p: FilePath) {
    p.name != "" && p.name != ".."
  }

  /** The position of the last `c` in `s`, if any. */
  function LastIndexOf(s: string, c: char): (r: Option<nat>)
    ensures r.None? <==> c !in s
    ensures r.Some? ==> r.value < |s| && s[r.value] == c && c !in s[r.value + 1..]
  {
    if s == [] then None
    else if s[|s| - 1] == c then Some(|s| - 1)
    else
      assert s == s[..|s| - 1] + [s[|s| - 1]];
      LastIndexOf(s[..|s| - 1], c)
  }

  /** The last `c` of `a + [c] + b` is the one after `a` when `b` has none. */
  lemma LastIndexOfAppend(a: string, c: char, b: string)
    requires c !in b
    ensures LastIndexOf(a + [c] + b, c) == Some(|a|)
  {
    var s := a + [c] + b;
    assert s[|a|] == c;
    assert s[|a| + 1..] == b;
  }

  /** `Path::extension`: the part of the file name after its last `.`; none
      when the name has no `.`, when its only `.` starts it, or when there is
      no file name. */
  function Extension(p: FilePath): Option<string> {
    if !HasFileName(p) then None
    else match LastIndexOf(p.name, '.')
      case None => None
      case Some(i) => if i == 0 then None else Some(p.name[i + 1..])
  }

  /** `Path::file_stem`: the file name without its extension. */
  function FileStem(p: FilePath): Option<string> {
    if !HasFileName(p) then None
    else match LastIndexOf(p.name, '.')
      case None => Some(p.name)
      case Some(i) => if i == 0 then Some(p.name) else Some(p.name[..i])
  }

  /** `PathBuf::set_extension`: the stem followed by `.` and `ext` (the stem
      alone for an empty `ext`); a path without a file name is unchanged. */
  function SetExtension(p: FilePath, ext: string): FilePath {
    match FileStem(p)
    case None => p
    case Some(stem) => FilePath(p.parent, if ext == "" then stem else stem + "." + ext)
  }

  /** Setting a non-empty, dot-free extension on a path with a file name
      gives a path whose extension is exactly that one and whose stem and
      parent are unchanged. */
  lemma SetExtensionThenExtension(p: FilePath, ext: string)
    requires HasFileName(p) && ext != "" && '.' !in ext
    ensures Extension(SetExtension(p, ext)) == Some(ext)
    ensures FileStem(SetExtension(p, ext)) == FileStem(p)
    ensures SetExtension(p, ext).parent == p.parent
  {
    var stem := FileStem(p).value;
    assert |stem| > 0;
    var q := SetExtension(p, ext);
    assert q.name == stem + ['.'] + ext;
    LastIndexOfAppend(stem, '.', ext);
    assert q.name[..|stem|] == stem;
    assert q.name[|stem| + 1..] == ext;
  }

  /** On a path with a file name and no extension, setting one appends it to
      the whole file name. */
  lemma SetExtensionAppends(p: FilePath, ext: string)
    requires HasFileName(p) && Extension(p).None? && ext != ""
    ensures SetExtension(p, ext) == FilePath(p.parent, p.name + "." + ext)
  {
  }
}
