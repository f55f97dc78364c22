/**
 * Paths as lists of segments and the part of the file system that the
 * download gatekeeper touches: which paths exist, and creating one folder.
 */
module Paths {
  import opened Js

  /** A path as its segments from the root down; the root itself is `[]`. */
  type Path = seq<string>

  /** `path.basename`: the last segment ("" for the root). */
  function Basename(p: Path): string {
    if p == [] then "" else p[|p| - 1]
  }

  /** `path.dirname`: the path without its last segment (the root is its own parent). */
  function Dirname(p: Path): (r: Path)
    ensures p != [] ==> r + [Basename(p)] == p
    ensures |r| == if p == [] then 0 else |p| - 1
  {
    if p == [] then [] else p[..|p| - 1]
  }

  /** The pieces of a split path text that name a segment: empty pieces (from a
      leading, doubled or trailing "/") and "." name none. */
  function Kept(pieces: seq<string>): (r: Path)
    ensures |r| <= |pieces|
    ensures forall i :: 0 <= i < |r| ==> r[i] in pieces && r[i] != "" && r[i] != "."
  {
    if pieces == [] then []
    else if pieces[0] == "" || pieces[0] == "." then Kept(pieces[1..])
    else [pieces[0]] + Kept(pieces[1..])
  }

  /** The segments a path text names. */
  function Segments(s: string): (r: Path)
    ensures forall i :: 0 <= i < |r| ==> r[i] != "" && r[i] != "." && '/' !in r[i]
  {
    Kept(Split(s, '/'))
  }

  /** `path.join(base, rel)` on texts whose segments are plain names. */
  function JoinPath(base: string, rel: string): Path {
    Segments(base) + Segments(rel)
  }

  /** `path.join(folder, basename(folder) + ".pdf")`: the report file of a folder. */
  function PdfPath(folder: Path): (r: Path)
    ensures Dirname(r) == folder
    ensures Basename(r) == Basename(folder) + ".pdf"
    ensures r != folder
  {
    folder + [Basename(folder) + ".pdf"]
  }

  lemma {:induction false} KeptAppend(a: seq<string>, b: seq<string>)
    ensures Kept(a + b) == Kept(a) + Kept(b)
  {
    if a == [] {
      assert a + b == b;
    } else {
      assert (a + b)[0] == a[0] && (a + b)[1..] == a[1..] + b;
      KeptAppend(a[1..], b);
    }
  }

  lemma {:induction false} SplitAround(a: string, b: string, sep: char)
    ensures Split(a + [sep] + b, sep) == Split(a, sep) + Split(b, sep)
  {
    if a == [] {
      assert a + [sep] + b == [sep] + b;
      assert ([sep] + b)[1..] == b;
    } else {
      assert (a + [sep] + b)[0] == a[0];
      assert (a + [sep] + b)[1..] == a[1..] + [sep] + b;
      SplitAround(a[1..], b, sep);
    }
  }

  /** Joining two path texts is the same as reading the segments of the text
      "base/rel": `path.join` joins with a separator and normalises. */
  lemma JoinPathIsJoinedText(base: string, rel: string)
    ensures JoinPath(base, rel) == Segments(base + "/" + rel)
  {
    SplitAround(base, rel, '/');
    KeptAppend(Split(base, '/'), Split(rel, '/'));
  }

  /** The set of existing files and folders after `confirmHierarchicalFolder(folder)`. */
  function AfterConfirm(entries: set<Path>, folder: Path): set<Path> {
    if Dirname(folder) in entries then entries + {folder} else entries
  }

  /** What `confirmHierarchicalFolder` leaves behind: nothing new when the parent
      is missing, otherwise the folder exists and it is the only addition. */
  lemma ConfirmCreatesAtMostTheLeaf(entries: set<Path>, folder: Path)
    ensures entries <= AfterConfirm(entries, folder) <= entries + {folder}
    ensures Dirname(folder) !in entries ==> AfterConfirm(entries, folder) == entries
    ensures Dirname(folder) in entries ==> folder in AfterConfirm(entries, folder)
  {
  }

  /** The file system as the set of paths that exist (files and folders alike). */
  class FileSystem {
    var entries: set<Path>

    constructor (existing: set<Path>)
      ensures entries == existing
    {
      entries := existing;
    }

    /** `fs.existsSync(p)`. */
    method Exists(p: Path) returns (b: bool)
      ensures b <==> p in entries
    {
      b := p in entries;
    }

    /** `fs.mkdirSync(p)`, which fails unless the parent exists and `p` does not. */
    method Mkdir(p: Path)
      requires Dirname(p) in entries && p !in entries
      modifies this
      ensures entries == old(entries) + {p}
    {
      entries := entries + {p};
    }

    /** `fs.createWriteStream(p)`: creates the file (or truncates an existing one) in an existing folder. */
    method WriteFile(p: Path)
      requires Dirname(p) in entries
      modifies this
      ensures entries == old(entries) + {p}
    {
      entries := entries + {p};
    }

    /** `confirmHierarchicalFolder`: false, touching nothing, when the parent of
        `folder` is missing; otherwise creates `folder` if need be and answers true. */
    method ConfirmHierarchicalFolder(folder: Path) returns (ok: bool)
      modifies this
      ensures ok <==> Dirname(folder) in old(entries)
      ensures entries == AfterConfirm(old(entries), folder)
    {
      var containerExists := Exists(Dirname(folder));
      if !containerExists {
        return false;
      }
      var reportFolderExists := Exists(folder);
      if !reportFolderExists {
        Mkdir(folder);
      }
      return true;
    }
  }
}
