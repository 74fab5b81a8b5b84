/**
 * Listing what a session will upload: `setup` and its walkers
 * (`setupFile`, `setupFileList`, `setupFileEntry`, `setupDirectoryEntry`,
 * `setupFileHandle`, `setupDirectoryHandle`) in both generations.
 *
 * A dropped or picked directory is a tree of nodes.  The walk visits it
 * depth first, children in order, listing each file at its joined path and
 * each empty directory once.  The newer generation looks at the session's
 * status before each node (and each item of a file list) and stops once it
 * is `cancelled`; the older one lists everything.
 */
module UploadWalk {
  import opened Wrappers
  import opened Uploads

  /** A file, or a directory with its children (every batch of `readEntries` or of the handle iterator, in order). */
  datatype Node = FileNode(file: File) | DirNode(name: string, children: seq<Node>)

  /** What `setup` is given. */
  datatype Source =
    | PlainFile(file: File)
    | FileList(files: seq<(string, File)>)
    | FileEntrySource(file: File)
    | DirectoryEntrySource(root: Node)
    | FileHandleSource(file: File)
    | DirectoryHandleSource(root: Node)
    | Invalid

  /** A path joiner: the `join` the walkers use. */
  type Joiner = (string, string) -> string

  /** Everything a complete walk from `parent` lists for `n`. */
  function Walk(join: Joiner, parent: string, n: Node): seq<Entry>
    decreases n
  {
    match n
    case FileNode(f) => [FileEntry(join(parent, f.name), f)]
    case DirNode(name, cs) =>
      if cs == [] then [DirEntry(join(parent, name))] else WalkAll(join, join(parent, name), cs)
  }

  function WalkAll(join: Joiner, parent: string, cs: seq<Node>): seq<Entry>
    decreases cs
  {
    if cs == [] then [] else WalkAll(join, parent, cs[..|cs| - 1]) + Walk(join, parent, cs[|cs| - 1])
  }

  function Files(n: Node): nat
    decreases n
  {
    match n
    case FileNode(_) => 1
    case DirNode(_, cs) => FilesAll(cs)
  }

  function FilesAll(cs: seq<Node>): nat
    decreases cs
  {
    if cs == [] then 0 else FilesAll(cs[..|cs| - 1]) + Files(cs[|cs| - 1])
  }

  function EmptyDirs(n: Node): nat
    decreases n
  {
    match n
    case FileNode(_) => 0
    case DirNode(_, cs) => if cs == [] then 1 else EmptyDirsAll(cs)
  }

  function EmptyDirsAll(cs: seq<Node>): nat
    decreases cs
  {
    if cs == [] then 0 else EmptyDirsAll(cs[..|cs| - 1]) + EmptyDirs(cs[|cs| - 1])
  }

  function DirCount(entries: seq<Entry>): nat {
    if entries == [] then 0
    else DirCount(entries[..|entries| - 1]) + (if entries[|entries| - 1].DirEntry? then 1 else 0)
  }

  /** `totalSize`: the sizes of the listed files. */
  function TotalSize(entries: seq<Entry>): nat {
    if entries == [] then 0
    else TotalSize(entries[..|entries| - 1]) + (if entries[|entries| - 1].FileEntry? then Size(entries[|entries| - 1].file) else 0)
  }

  lemma CountsAppend(a: seq<Entry>, b: seq<Entry>)
    ensures FileCount(a + b) == FileCount(a) + FileCount(b)
    ensures DirCount(a + b) == DirCount(a) + DirCount(b)
    ensures TotalSize(a + b) == TotalSize(a) + TotalSize(b)
    decreases |b|
  {
    if b == [] {
      assert a + b == a;
    } else {
      assert (a + b)[..|a + b| - 1] == a + b[..|b| - 1];
      CountsAppend(a, b[..|b| - 1]);
    }
  }

  /** A complete walk lists one file entry per file and one directory entry per empty directory. */
  lemma {:induction false} WalkCounts(join: Joiner, parent: string, n: Node)
    ensures FileCount(Walk(join, parent, n)) == Files(n)
    ensures DirCount(Walk(join, parent, n)) == EmptyDirs(n)
    decreases n
  {
    match n
    case FileNode(f) =>
      assert [FileEntry(join(parent, f.name), f)][..0] == [];
    case DirNode(name, cs) =>
      if cs == [] {
        assert [DirEntry(join(parent, name))][..0] == [];
      } else {
        WalkAllCounts(join, join(parent, name), cs);
      }
  }

  lemma {:induction false} WalkAllCounts(join: Joiner, parent: string, cs: seq<Node>)
    ensures FileCount(WalkAll(join, parent, cs)) == FilesAll(cs)
    ensures DirCount(WalkAll(join, parent, cs)) == EmptyDirsAll(cs)
    decreases cs
  {
    if cs != [] {
      WalkAllCounts(join, parent, cs[..|cs| - 1]);
      WalkCounts(join, parent, cs[|cs| - 1]);
      CountsAppend(WalkAll(join, parent, cs[..|cs| - 1]), Walk(join, parent, cs[|cs| - 1]));
    }
  }

  /** The user's cancel, seen once the session lists `stopAt` entries; it changes the status in both generations. */
  function Seen(stopAt: Option<nat>, acc: seq<Entry>, status: Status): (r: Status)
    ensures r == status || r == Cancelled
  {
    if stopAt.Some? && |acc| >= stopAt.value then Cancelled else status
  }

  /**
   * The walk as performed: `checks` is the newer generation's status check
   * at the start of each node.  Returns the entries and the status.
   */
  function Visit(checks: bool, join: Joiner, stopAt: Option<nat>, parent: string, n: Node,
                 acc: seq<Entry>, status: Status): (seq<Entry>, Status)
    decreases n
  {
    var status := Seen(stopAt, acc, status);
    if checks && status == Cancelled then (acc, status)
    else match n
      case FileNode(f) => (acc + [FileEntry(join(parent, f.name), f)], status)
      case DirNode(name, cs) =>
        if cs == [] then (acc + [DirEntry(join(parent, name))], status)
        else VisitAll(checks, join, stopAt, join(parent, name), cs, acc, status)
  }

  function VisitAll(checks: bool, join: Joiner, stopAt: Option<nat>, parent: string, cs: seq<Node>,
                    acc: seq<Entry>, status: Status): (seq<Entry>, Status)
    decreases cs
  {
    if cs == [] then (acc, status)
    else
      var r := VisitAll(checks, join, stopAt, parent, cs[..|cs| - 1], acc, status);
      Visit(checks, join, stopAt, parent, cs[|cs| - 1], r.0, r.1)
  }

  ghost predicate IsPrefix(a: seq<Entry>, b: seq<Entry>) {
    |a| <= |b| && b[..|a|] == a
  }

  /**
   * A walk appends a prefix of the complete walk.  It is cut short only when
   * the newer generation has seen the session cancelled; the older one
   * always lists everything, and so does a walk the user never cancels.
   */
  lemma {:induction false} VisitIsPrefix(checks: bool, join: Joiner, stopAt: Option<nat>, parent: string, n: Node,
                                         acc: seq<Entry>, status: Status)
    ensures var r := Visit(checks, join, stopAt, parent, n, acc, status);
      && |acc| <= |r.0| && r.0[..|acc|] == acc
      && IsPrefix(r.0[|acc|..], Walk(join, parent, n))
      && (r.0[|acc|..] != Walk(join, parent, n) ==> checks && r.1 == Cancelled)
      && (r.1 == status || r.1 == Cancelled)
    decreases n
  {
    var s := Seen(stopAt, acc, status);
    if !(checks && s == Cancelled) {
      match n
      case FileNode(f) =>
        assert (acc + [FileEntry(join(parent, f.name), f)])[|acc|..] == Walk(join, parent, n);
      case DirNode(name, cs) =>
        if cs == [] {
          assert (acc + [DirEntry(join(parent, name))])[|acc|..] == Walk(join, parent, n);
        } else {
          VisitAllIsPrefix(checks, join, stopAt, join(parent, name), cs, acc, s);
        }
    }
  }

  lemma {:induction false} VisitAllIsPrefix(checks: bool, join: Joiner, stopAt: Option<nat>, parent: string, cs: seq<Node>,
                                            acc: seq<Entry>, status: Status)
    ensures var r := VisitAll(checks, join, stopAt, parent, cs, acc, status);
      && |acc| <= |r.0| && r.0[..|acc|] == acc
      && IsPrefix(r.0[|acc|..], WalkAll(join, parent, cs))
      && (r.0[|acc|..] != WalkAll(join, parent, cs) ==> checks && r.1 == Cancelled)
      && (r.1 == status || r.1 == Cancelled)
    decreases cs
  {
    if cs != [] {
      var init := cs[..|cs| - 1];
      var last := cs[|cs| - 1];
      var m := VisitAll(checks, join, stopAt, parent, init, acc, status);
      VisitAllIsPrefix(checks, join, stopAt, parent, init, acc, status);
      VisitIsPrefix(checks, join, stopAt, parent, last, m.0, m.1);
      var r := Visit(checks, join, stopAt, parent, last, m.0, m.1);
      if m.0[|acc|..] != WalkAll(join, parent, init) {
        // Cancelled in the newer generation: the last child adds nothing.
        assert Seen(stopAt, m.0, m.1) == Cancelled;
        assert r.0 == m.0;
      }
      PrefixJoin(acc, m.0, r.0, WalkAll(join, parent, init), Walk(join, parent, last));
    }
  }

  /** A walk cut short in its first part adds nothing in its second: the two parts append a prefix of the two walks. */
  lemma PrefixJoin(acc: seq<Entry>, m: seq<Entry>, r: seq<Entry>, wi: seq<Entry>, wl: seq<Entry>)
    requires |acc| <= |m| && m[..|acc|] == acc && IsPrefix(m[|acc|..], wi)
    requires |m| <= |r| && r[..|m|] == m && IsPrefix(r[|m|..], wl)
    requires m[|acc|..] != wi ==> r == m
    ensures |acc| <= |r| && r[..|acc|] == acc && IsPrefix(r[|acc|..], wi + wl)
    ensures r[|acc|..] != wi + wl ==> m[|acc|..] != wi || r[|m|..] != wl
  {
    assert r[..|acc|] == r[..|m|][..|acc|];
    assert r[|acc|..] == m[|acc|..] + r[|m|..];
    if m[|acc|..] != wi {
      assert (wi + wl)[..|m| - |acc|] == wi[..|m| - |acc|];
    } else {
      assert (wi + wl)[..|r| - |acc|] == wi + wl[..|r| - |m|];
    }
  }

  /** The older walk, or a newer one the user never cancels, lists the complete walk. */
  lemma UncancelledVisitIsComplete(checks: bool, join: Joiner, parent: string, n: Node, acc: seq<Entry>, status: Status)
    requires !checks || status != Cancelled
    ensures Visit(checks, join, None, parent, n, acc, status) == (acc + Walk(join, parent, n), status)
  {
    VisitNeverCancels(checks, join, parent, n, acc, status);
  }

  lemma {:induction false} VisitNeverCancels(checks: bool, join: Joiner, parent: string, n: Node, acc: seq<Entry>, status: Status)
    requires !checks || status != Cancelled
    ensures Visit(checks, join, None, parent, n, acc, status) == (acc + Walk(join, parent, n), status)
    decreases n
  {
    match n
    case FileNode(_) =>
    case DirNode(name, cs) =>
      if cs != [] {
        VisitAllNeverCancels(checks, join, join(parent, name), cs, acc, status);
      }
  }

  lemma {:induction false} VisitAllNeverCancels(checks: bool, join: Joiner, parent: string, cs: seq<Node>, acc: seq<Entry>, status: Status)
    requires !checks || status != Cancelled
    ensures VisitAll(checks, join, None, parent, cs, acc, status) == (acc + WalkAll(join, parent, cs), status)
    decreases cs
  {
    if cs == [] {
      assert acc + [] == acc;
    } else {
      VisitAllNeverCancels(checks, join, parent, cs[..|cs| - 1], acc, status);
      var m := acc + WalkAll(join, parent, cs[..|cs| - 1]);
      VisitNeverCancels(checks, join, parent, cs[|cs| - 1], m, status);
      assert m + Walk(join, parent, cs[|cs| - 1]) == acc + WalkAll(join, parent, cs);
    }
  }

  /** `setupFileList` from item `i`: each item listed at its relative path under `dest`. */
  function ListFrom(checks: bool, join: Joiner, stopAt: Option<nat>, dest: string, files: seq<(string, File)>,
                    i: nat, acc: seq<Entry>, status: Status): (seq<Entry>, Status)
    requires i <= |files|
    decreases |files| - i
  {
    if i == |files| then (acc, status)
    else
      var status := Seen(stopAt, acc, status);
      if checks && status == Cancelled then (acc, status)
      else ListFrom(checks, join, stopAt, dest, files, i + 1, acc + [FileEntry(join(dest, files[i].0), files[i].1)], status)
  }

  /** Every entry of a file list, in order. */
  function ListAll(join: Joiner, dest: string, files: seq<(string, File)>): seq<Entry> {
    if files == [] then []
    else ListAll(join, dest, files[..|files| - 1]) + [FileEntry(join(dest, files[|files| - 1].0), files[|files| - 1].1)]
  }

  /**
   * A file list is listed as a prefix of its items, cut short only by a
   * cancel the newer generation has seen.
   */
  lemma {:induction false} ListIsPrefix(checks: bool, join: Joiner, stopAt: Option<nat>, dest: string, files: seq<(string, File)>,
                                        i: nat, acc: seq<Entry>, status: Status)
    requires i <= |files|
    ensures var r := ListFrom(checks, join, stopAt, dest, files, i, acc, status);
      && |acc| <= |r.0| && r.0[..|acc|] == acc
      && IsPrefix(acc + r.0[|acc|..], acc + ListAll(join, dest, files[i..]))
      && (r.0 != acc + ListAll(join, dest, files[i..]) ==> checks && r.1 == Cancelled)
    decreases |files| - i
  {
    var r := ListFrom(checks, join, stopAt, dest, files, i, acc, status);
    if i == |files| {
      assert files[i..] == [];
    } else {
      var s := Seen(stopAt, acc, status);
      var e := FileEntry(join(dest, files[i].0), files[i].1);
      ListCons(join, dest, files[i], files[i + 1..]);
      assert files[i..] == [files[i]] + files[i + 1..];
      if !(checks && s == Cancelled) {
        ListIsPrefix(checks, join, stopAt, dest, files, i + 1, acc + [e], s);
        PrefixCons(acc, e, r.0, ListAll(join, dest, files[i + 1..]));
      } else {
        assert acc + r.0[|acc|..] == acc;
      }
    }
  }

  /** Listing one more entry `e` first: a prefix after `acc + [e]` is a prefix after `acc`. */
  lemma PrefixCons(acc: seq<Entry>, e: Entry, r: seq<Entry>, rest: seq<Entry>)
    requires |acc + [e]| <= |r| && r[..|acc + [e]|] == acc + [e]
    requires IsPrefix((acc + [e]) + r[|acc + [e]|..], (acc + [e]) + rest)
    ensures |acc| <= |r| && r[..|acc|] == acc
    ensures IsPrefix(acc + r[|acc|..], acc + ([e] + rest))
    ensures r == (acc + [e]) + rest <==> r == acc + ([e] + rest)
  {
    assert r[..|acc|] == r[..|acc + [e]|][..|acc|];
    assert acc + ([e] + rest) == (acc + [e]) + rest;
    assert acc + r[|acc|..] == r;
    assert (acc + [e]) + r[|acc + [e]|..] == r;
  }

  lemma ListCons(join: Joiner, dest: string, x: (string, File), xs: seq<(string, File)>)
    ensures ListAll(join, dest, [x] + xs) == [FileEntry(join(dest, x.0), x.1)] + ListAll(join, dest, xs)
    decreases |xs|
  {
    if xs == [] {
      assert [x] + xs == [x];
      assert [x][..0] == [];
    } else {
      assert ([x] + xs)[..|xs|] == [x] + xs[..|xs| - 1];
      ListCons(join, dest, x, xs[..|xs| - 1]);
    }
  }

  function NodeName(n: Node): string {
    match n
    case FileNode(f) => f.name
    case DirNode(name, _) => name
  }

  /** The listing `setup` performs for `src`, from entries `acc` and status `status`. */
  function Listing(gen: Generation, join: Joiner, stopAt: Option<nat>, dest: string, src: Source,
                   acc: seq<Entry>, status: Status): (seq<Entry>, Status)
  {
    match src
    case PlainFile(f) => (acc + [FileEntry(join(dest, f.name), f)], status)
    case FileList(files) => ListFrom(gen.Current?, join, stopAt, dest, files, 0, acc, status)
    case FileEntrySource(f) => (acc + [FileEntry(join(dest, f.name), f)], status)
    case DirectoryEntrySource(root) => Visit(gen.Current?, join, stopAt, dest, root, acc, status)
    case FileHandleSource(f) => (acc + [FileEntry(join(dest, f.name), f)], status)
    case DirectoryHandleSource(root) => Visit(gen.Current?, join, stopAt, dest, root, acc, status)
    case Invalid => (acc, status)
  }

  /** Everything `src` holds, as entries under `dest`. */
  function Contents(join: Joiner, dest: string, src: Source): seq<Entry> {
    match src
    case PlainFile(f) => [FileEntry(join(dest, f.name), f)]
    case FileList(files) => ListAll(join, dest, files)
    case FileEntrySource(f) => [FileEntry(join(dest, f.name), f)]
    case DirectoryEntrySource(root) => Walk(join, dest, root)
    case FileHandleSource(f) => [FileEntry(join(dest, f.name), f)]
    case DirectoryHandleSource(root) => Walk(join, dest, root)
    case Invalid => []
  }

  /**
   * `setup` lists a prefix of what the source holds, after the entries
   * already there.  It lists all of it in the older generation, or when the
   * newer one has not seen the session cancelled.
   */
  lemma ListingIsPrefix(gen: Generation, join: Joiner, stopAt: Option<nat>, dest: string, src: Source,
                        acc: seq<Entry>, status: Status)
    ensures var r := Listing(gen, join, stopAt, dest, src, acc, status);
      && |acc| <= |r.0| && r.0[..|acc|] == acc
      && IsPrefix(r.0[|acc|..], Contents(join, dest, src))
      && (r.0[|acc|..] != Contents(join, dest, src) ==> gen.Current? && r.1 == Cancelled)
  {
    var r := Listing(gen, join, stopAt, dest, src, acc, status);
    match src
    case FileList(files) =>
      ListIsPrefix(gen.Current?, join, stopAt, dest, files, 0, acc, status);
      assert files[0..] == files;
      assert r.0[|acc|..] == (acc + r.0[|acc|..])[|acc|..];
      assert (acc + ListAll(join, dest, files))[|acc|..] == ListAll(join, dest, files);
    case DirectoryEntrySource(root) =>
      VisitIsPrefix(gen.Current?, join, stopAt, dest, root, acc, status);
    case DirectoryHandleSource(root) =>
      VisitIsPrefix(gen.Current?, join, stopAt, dest, root, acc, status);
    case Invalid =>
    case PlainFile(f) =>
      assert r.0[|acc|..] == [FileEntry(join(dest, f.name), f)];
    case FileEntrySource(f) =>
      assert r.0[|acc|..] == [FileEntry(join(dest, f.name), f)];
    case FileHandleSource(f) =>
      assert r.0[|acc|..] == [FileEntry(join(dest, f.name), f)];
  }
}
