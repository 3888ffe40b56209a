/**
 * The part of the filesystem the init command sees: regular files with their
 * contents and the set of directories, all addressed relative to the project
 * root that `base_path()` names. The PHP primitives `file_exists`, `is_dir`,
 * recursive `mkdir` and `file_put_contents` are modelled on it as functions.
 */
module Filesystem {
  import opened Wrappers
  import opened Json
  import opened Sources

  /** A path relative to the project root, as its components (the root is []). */
  type Path = seq<string>

  /**
   * What a regular file holds: text, a JSON document as `json_encode` wrote
   * it, one of the command's two manifests as `json_encode` wrote it (its
   * document is `Templates.Document(manifest)`), or one of the command's
   * component sources (its text is `Sources.SourceText(source)`).
   */
  datatype Blob =
    | Text(text: string)
    | Encoded(doc: Value)
    | Generated(manifest: Manifest)
    | Written(source: Source)

  datatype Disk = Disk(files: map<Path, Blob>, dirs: set<Path>)

  /** `dirname`: a path without its last component; the root is its own parent. */
  function Parent(p: Path): Path {
    if p == [] then [] else p[..|p| - 1]
  }

  /** The directories on the way to `p`: the root, every prefix, and `p` itself. */
  function Ancestors(p: Path): (r: set<Path>)
    decreases |p|
  {
    if p == [] then {[]} else Ancestors(Parent(p)) + {p}
  }

  /** The ancestors of `p` are exactly its prefixes. */
  lemma {:induction false} AncestorsArePrefixes(p: Path, q: Path)
    ensures q in Ancestors(p) <==> |q| <= |p| && q == p[..|q|]
    decreases |p|
  {
    if p != [] {
      AncestorsArePrefixes(Parent(p), q);
      assert p[..|p|] == p;
      if |q| <= |p| - 1 {
        assert Parent(p)[..|q|] == p[..|q|];
      }
    }
  }

  /** `file_exists`: true for regular files and for directories alike. */
  predicate Exists(d: Disk, p: Path) {
    p in d.files || p in d.dirs
  }

  /** `is_dir`. */
  predicate IsDir(d: Disk, p: Path) {
    p in d.dirs
  }

  /**
   * A well-formed tree: the root is a directory, every directory's ancestors
   * are directories, every file sits in a directory, and nothing is both.
   */
  ghost predicate Valid(d: Disk) {
    && [] in d.dirs
    && d.files.Keys !! d.dirs
    && (forall p :: p in d.dirs ==> Ancestors(p) <= d.dirs)
    && (forall p :: p in d.files ==> p != [] && Parent(p) in d.dirs)
  }

  /**
   * `mkdir($dir, 0777, true)`: creates every missing directory on the way to
   * `dir`. It fails, creating nothing, when `dir` is already a directory or
   * when one of the names on the way is a regular file.
   */
  function MakeDirs(d: Disk, dir: Path): Option<Disk> {
    if dir !in d.dirs && Ancestors(dir) !! d.files.Keys then Some(Disk(d.files, d.dirs + Ancestors(dir)))
    else None
  }

  /**
   * `file_put_contents($path, $content)`: creates or replaces a regular file.
   * It fails when the parent is not a directory or `path` is a directory.
   */
  function WriteFile(d: Disk, path: Path, content: Blob): Option<Disk> {
    if path != [] && Parent(path) in d.dirs && path !in d.dirs then
      Some(Disk(d.files[path := content], d.dirs))
    else None
  }

  /** An ancestor's ancestors are ancestors too. */
  lemma AncestorsOfAncestor(p: Path, q: Path)
    requires q in Ancestors(p)
    ensures Ancestors(q) <= Ancestors(p)
  {
    AncestorsArePrefixes(p, q);
    forall r | r in Ancestors(q) ensures r in Ancestors(p) {
      AncestorsArePrefixes(q, r);
      AncestorsArePrefixes(p, r);
    }
  }

  /**
   * A successful recursive `mkdir` keeps the tree well formed, leaves every
   * file alone, and afterwards `dir` and all its ancestors are directories.
   */
  lemma MakeDirsValid(d: Disk, dir: Path)
    requires Valid(d)
    ensures MakeDirs(d, dir).Some? ==>
      && Valid(MakeDirs(d, dir).value)
      && MakeDirs(d, dir).value.files == d.files
      && Ancestors(dir) <= MakeDirs(d, dir).value.dirs
      && d.dirs <= MakeDirs(d, dir).value.dirs
  {
    if MakeDirs(d, dir).Some? {
      var r := MakeDirs(d, dir).value;
      forall p | p in r.dirs ensures Ancestors(p) <= r.dirs {
        if p in Ancestors(dir) {
          AncestorsOfAncestor(dir, p);
        }
      }
      AncestorsArePrefixes(dir, []);
    }
  }

  /** A successful write keeps the tree well formed and changes only `path`. */
  lemma WriteFileValid(d: Disk, path: Path, content: Blob)
    requires Valid(d)
    ensures WriteFile(d, path, content).Some? <==> path != [] && Parent(path) in d.dirs && path !in d.dirs
    ensures WriteFile(d, path, content).Some? ==>
      && Valid(WriteFile(d, path, content).value)
      && WriteFile(d, path, content).value.dirs == d.dirs
      && WriteFile(d, path, content).value.files.Keys == d.files.Keys + {path}
      && WriteFile(d, path, content).value.files[path] == content
      && forall q :: q in d.files && q != path ==> WriteFile(d, path, content).value.files[q] == d.files[q]
  {
  }
}
