/** File-name and path strings as the translator handles them. Paths are
    system-independent: the only separator is '/'. */
module Paths {

  const Separator: char := '/'

  /** One component of a path: a file name never contains the separator. */
  type Name = s: string | Separator !in s

  /** `s.endsWith(suffix)` of java.lang.String (case-sensitive). */
  predicate EndsWith(s: string, suffix: string)
    ensures EndsWith(s, suffix) <==> |suffix| <= |s| && s == s[..|s| - |suffix|] + suffix
  {
    |suffix| <= |s| && s[|s| - |suffix|..] == suffix
  }

  /** A string ends with every one of its own tails. */
  lemma EndsWithAppended(prefix: string, suffix: string)
    ensures EndsWith(prefix + suffix, suffix)
  {
    assert (prefix + suffix)[|prefix|..] == suffix;
  }

  /** Conversely, a string that ends with `suffix` is something followed by `suffix`. */
  lemma EndsWithSplits(s: string, suffix: string)
    requires EndsWith(s, suffix)
    ensures s == s[..|s| - |suffix|] + suffix
  {
  }

  /** The directory a parent path denotes, without the one trailing separator
      that java.io.File drops when it normalises the parent ("/" becomes ""). */
  function Directory(parent: string): (d: string)
    ensures EndsWith(parent, [Separator]) ==> parent == d + [Separator]
    ensures !EndsWith(parent, [Separator]) ==> d == parent
  {
    if EndsWith(parent, [Separator]) then parent[..|parent| - 1] else parent
  }

  /** The path of `new java.io.File(parent, child)`: the parent, one separator,
      then the child. A parent that already ends in a separator ("/") gets no
      second one. */
  function Join(parent: string, child: Name): (r: string)
    ensures r == Directory(parent) + [Separator] + child
    ensures |r| == |Directory(parent)| + 1 + |child|
    ensures EndsWith(r, child)
  {
    EndsWithAppended(Directory(parent) + [Separator], child);
    if EndsWith(parent, [Separator]) then parent + child else parent + [Separator] + child
  }

  /** The relative path recorded for an artifact, exactly as the translator
      computes it: the artifact path minus the output-directory path and one
      more character, the separator it expects. */
  function RelativePathAsWritten(outputDirPath: string, artifactPath: string): (rel: string)
    requires |outputDirPath| + 1 <= |artifactPath|
    ensures |rel| + |outputDirPath| + 1 == |artifactPath|
    ensures EndsWith(artifactPath, rel)
  {
    artifactPath[|outputDirPath| + 1..]
  }

  /** The relative path of an artifact under the output directory, counting
      the separator only once when the directory path already ends in one. */
  function RelativePath(outputDirPath: string, artifactPath: string): (rel: string)
    requires |Directory(outputDirPath)| + 1 <= |artifactPath|
    ensures |rel| + |Directory(outputDirPath)| + 1 == |artifactPath|
    ensures EndsWith(artifactPath, rel)
  {
    artifactPath[|Directory(outputDirPath)| + 1..]
  }

  /** The relative path of a file joined under a directory is its name. */
  lemma RelativePathOfJoin(outputDirPath: string, child: Name)
    ensures |Directory(outputDirPath)| + 1 <= |Join(outputDirPath, child)|
    ensures RelativePath(outputDirPath, Join(outputDirPath, child)) == child
  {
    var d := Directory(outputDirPath) + [Separator];
    assert Join(outputDirPath, child) == d + child;
    assert (d + child)[|d|..] == child;
  }

  /** Conversely, any artifact path made of the directory, one separator and
      a single name is that name joined under the directory. */
  lemma JoinOfRelativePath(outputDirPath: string, artifactPath: string)
    requires |Directory(outputDirPath)| + 1 <= |artifactPath|
    requires artifactPath[..|Directory(outputDirPath)| + 1] == Directory(outputDirPath) + [Separator]
    requires Separator !in artifactPath[|Directory(outputDirPath)| + 1..]
    ensures Separator !in RelativePath(outputDirPath, artifactPath)
    ensures Join(outputDirPath, RelativePath(outputDirPath, artifactPath)) == artifactPath
  {
    var k := |Directory(outputDirPath)| + 1;
    assert artifactPath == artifactPath[..k] + artifactPath[k..];
  }

  /** When the output-directory path does not end in a separator (every
      directory but a file-system root), the computation as written is right:
      it yields the file name, and directory, "/" and that name make up the
      artifact path. */
  lemma RelativePathAsWrittenWithoutTrailingSeparator(outputDirPath: string, child: Name)
    requires !EndsWith(outputDirPath, [Separator])
    ensures |outputDirPath| + 1 <= |Join(outputDirPath, child)|
    ensures RelativePathAsWritten(outputDirPath, Join(outputDirPath, child)) == child
    ensures outputDirPath + [Separator] + RelativePathAsWritten(outputDirPath, Join(outputDirPath, child))
         == Join(outputDirPath, child)
  {
    RelativePathOfJoin(outputDirPath, child);
  }

  /** When the output-directory path ends in a separator (the root "/"), the
      computation as written drops the first character of the file name. */
  lemma RelativePathAsWrittenWithTrailingSeparator(outputDirPath: string, child: Name)
    requires EndsWith(outputDirPath, [Separator])
    requires child != []
    ensures |outputDirPath| + 1 <= |Join(outputDirPath, child)|
    ensures RelativePathAsWritten(outputDirPath, Join(outputDirPath, child)) == child[1..]
    ensures RelativePathAsWritten(outputDirPath, Join(outputDirPath, child)) != child
  {
    var j := Join(outputDirPath, child);
    assert j == outputDirPath + child;
    assert j[|outputDirPath| + 1..] == child[1..];
  }

  /** The concrete case: output directory "/", artifact "Foo.java". */
  lemma RootOutputDirectoryDropsFirstCharacter()
    ensures Join("/", "Foo.java") == "/Foo.java"
    ensures RelativePathAsWritten("/", "/Foo.java") == "oo.java"
    ensures RelativePath("/", "/Foo.java") == "Foo.java"
  {
    assert EndsWith("/", [Separator]);
    assert Directory("/") == "";
  }
}
