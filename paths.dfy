/**
 * Path helpers: the extension `os.path.splitext` splits off a POSIX path, the
 * suffix `pathlib.PurePath.suffix` reports, and joining a directory with a file
 * name. Paths are plain strings with `/` as separator.
 */
module Paths {
  import opened PyStr

  /**
   * `os.path.splitext(p)[1]` for POSIX paths: the part from the last `.` of the
   * last path component on, provided that component has a character other than
   * `.` before that dot (so `.bashrc` and `..` have no extension); `""` otherwise.
   */
  function SplitextSuffix(p: string): (ext: string)
    ensures |ext| <= |p| && ext == p[|p| - |ext|..]
    ensures ext == [] || (ext[0] == '.' && '/' !in ext && '.' !in ext[1..])
    // there is an extension exactly when the last component has a `.` after a non-`.` character
    ensures ext != [] <==>
              exists k, m :: LastIndexOf(p, '/') < k < m < |p| && p[k] != '.' && p[m] == '.'
  {
    var sepIndex := LastIndexOf(p, '/');
    var dotIndex := LastIndexOf(p, '.');
    if dotIndex > sepIndex && exists k :: sepIndex + 1 <= k < dotIndex && p[k] != '.' then
      var ext := p[dotIndex..];
      assert forall j :: 1 <= j < |ext| ==> ext[j] == p[dotIndex + j];
      ext
    else
      ""
  }

  /** `PurePath(p).name`: what follows the last `/`. */
  function FinalComponent(p: string): (name: string)
    ensures '/' !in name
    ensures |name| <= |p| && name == p[|p| - |name|..]
    // the name starts right after the last `/`, or is all of `p`
    ensures |name| == |p| || p[|p| - |name| - 1] == '/'
  {
    var i := LastIndexOf(p, '/');
    var name := p[i + 1..];
    forall j | 0 <= j < |name|
      ensures name[j] != '/'
    {
      assert name[j] == p[i + 1 + j];
    }
    name
  }

  /**
   * The suffix of a final path component `name`: its part from its last `.` on,
   * unless that dot is its first or its last character.
   */
  function NameSuffix(name: string): (suffix: string)
    ensures suffix == [] || (suffix[0] == '.' && 2 <= |suffix| && '.' !in suffix[1..])
    ensures |suffix| <= |name| && suffix == name[|name| - |suffix|..]
    ensures suffix != [] <==> LastDotIsInner(name)
  {
    var i := LastIndexOf(name, '.');
    LastDotInside(name);
    if 0 < i < |name| - 1 then
      var suffix := name[i..];
      assert forall j :: 0 <= j < |suffix| ==> suffix[j] == name[i + j];
      suffix
    else
      ""
  }

  /** `PurePath(p).suffix`: the suffix of the final component. */
  function PathSuffix(p: string): (suffix: string)
    ensures suffix == [] || (suffix[0] == '.' && 2 <= |suffix| && '/' !in suffix && '.' !in suffix[1..])
    ensures var name := FinalComponent(p);
            && |suffix| <= |name| && suffix == name[|name| - |suffix|..]
            // a suffix exists exactly when the name's last `.` is neither its first nor its last character
            && (suffix != [] <==> LastDotIsInner(name))
  {
    var name := FinalComponent(p);
    var suffix := NameSuffix(name);
    assert '/' !in suffix by {
      forall j | 0 <= j < |suffix|
        ensures suffix[j] != '/'
      {
        assert suffix[j] == name[|name| - |suffix| + j];
      }
    }
    suffix
  }

  /** The last `.` of `name` is neither its first nor its last character. */
  predicate LastDotIsInner(name: string)
  {
    exists m :: 0 < m < |name| - 1 && name[m] == '.' && forall j :: m < j < |name| ==> name[j] != '.'
  }

  /** `rfind('.')` finds an inner dot exactly when the last dot is inner. */
  lemma LastDotInside(name: string)
    ensures var i := LastIndexOf(name, '.');
            0 < i < |name| - 1 <==> LastDotIsInner(name)
  {
  }

  /**
   * `Path(dir) / name` as a string: an absolute `name` replaces `dir`, an empty
   * `dir` stands for the current directory.
   */
  function JoinPath(dir: string, name: string): (path: string)
    ensures |name| <= |path| && path[|path| - |name|..] == name
    ensures (name != [] && name[0] == '/') || dir == [] ==> path == name
    // a relative name goes under the directory, after exactly one separator
    ensures name != [] && name[0] != '/' && dir != [] ==>
              && |dir| <= |path| && path[..|dir|] == dir
              && |path| == |dir| + |name| + (if dir[|dir| - 1] == '/' then 0 else 1)
              && path[|path| - |name| - 1] == '/'
  {
    if name != [] && name[0] == '/' then name
    else if dir == [] then name
    else if dir[|dir| - 1] == '/' then dir + name
    else dir + "/" + name
  }
}
