/**
 * `UploadService` and `UploadSession` of both generations, as classes whose
 * methods change their fields in place.  `gen` tells the generations apart.
 * Each method is proved to perform exactly the steps the functions of module
 * `Uploads` (a run) and module `UploadWalk` (a listing) describe, and the
 * lemmas there state what those steps achieve.
 */
module Uploading {
  import opened Wrappers
  import opened JsArrays
  import opened JsStrings
  import opened Uploads
  import opened UploadWalk

  /** What `dropUpload` did. */
  datatype Dropped = Started(session: UploadSession, flow: Flow) | ThrewTypeError | Ignored

  class UploadService {
    const gen: Generation
    /** Whether `register(manager)` has been called; the older service gets its manager at construction. */
    var registered: bool
    var sessionList: seq<UploadSession>
    /** Every request issued and every chunk written to the socket, in order. */
    var trace: seq<Item>

    constructor (gen: Generation, sessionList: seq<UploadSession>)
      ensures this.gen == gen && this.sessionList == sessionList && trace == []
      ensures registered == gen.Legacy?
    {
      this.gen := gen;
      this.sessionList := sessionList;
      trace := [];
      registered := gen.Legacy?;
    }

    /** `register(manager)`. */
    method Register()
      modifies this
      ensures registered && sessionList == old(sessionList) && trace == old(trace)
    {
      registered := true;
    }

    /** `dispose()`. */
    method Dispose()
      modifies this
      ensures sessionList == [] && registered == old(registered) && trace == old(trace)
    {
      sessionList := [];
    }

    /** The plan of a run over session `s`. */
    function PlanOf(s: UploadSession): Plan
      reads this, s
    {
      Plan(gen, s.kind, s.path, s.dest, s.entries, registered)
    }

    /** The state a run over `s` changes. */
    function Snapshot(s: UploadSession, flow: Flow): Upload<UploadSession>
      reads this, s
    {
      Upload(trace, sessionList, s.doneSize, s.doneFiles, s.status, s.current, flow, s.uploadingAt)
    }

    /** `request(id, action, data)` answered by the server. */
    method Ask(item: Item, env: Env) returns (r: Response)
      modifies this
      ensures trace == old(trace) + [item] && r == env.server(trace)
      ensures sessionList == old(sessionList) && registered == old(registered)
    {
      trace := trace + [item];
      r := env.server(trace);
    }

    /** The `while (true)` loop streaming one file. */
    method StreamFile(s: UploadSession, ghost p: Plan, path: string, f: File, env: Env) returns (flow: Flow)
      requires p.gen == gen && p.path == s.path
      modifies this, s
      ensures Snapshot(s, flow) == Stream(p, env, path, f, 0, [], old(Snapshot(s, Go)))
      ensures registered == old(registered) && s.entries == old(s.entries)
      ensures s.totalFiles == old(s.totalFiles) && s.totalSize == old(s.totalSize) && s.setupFinished == old(s.setupFinished)
    {
      ghost var goal := Stream(p, env, path, f, 0, [], Snapshot(s, Go));
      var k := 0;
      var hashed: seq<bv8> := [];
      var done := false;
      flow := Go;
      while !done
        invariant k <= |f.chunks|
        invariant registered == old(registered) && s.entries == old(s.entries)
        invariant s.totalFiles == old(s.totalFiles) && s.totalSize == old(s.totalSize) && s.setupFinished == old(s.setupFinished)
        invariant done ==> Snapshot(s, flow) == goal
        invariant !done ==> flow == Go && Stream(p, env, path, f, k, hashed, Snapshot(s, Go)) == goal
        decreases |f.chunks| - k, if done then 0 else 1
      {
        done, flow, k, hashed := StreamStep(s, p, path, f, k, hashed, env);
      }
    }

    /** One pass of the streaming loop: the status check, then the end of the file or one chunk. */
    method StreamStep(s: UploadSession, ghost p: Plan, path: string, f: File, k: nat, hashed: seq<bv8>, env: Env)
      returns (done: bool, flow: Flow, k': nat, hashed': seq<bv8>)
      requires p.gen == gen && p.path == s.path && k <= |f.chunks|
      modifies this, s
      ensures done ==> Snapshot(s, flow) == Stream(p, env, path, f, k, hashed, old(Snapshot(s, Go))) && k' == k
      ensures !done ==>
        && flow == Go && k' == k + 1 <= |f.chunks|
        && Stream(p, env, path, f, k, hashed, old(Snapshot(s, Go))) == Stream(p, env, path, f, k', hashed', Snapshot(s, Go))
      ensures registered == old(registered) && s.entries == old(s.entries)
      ensures s.totalFiles == old(s.totalFiles) && s.totalSize == old(s.totalSize) && s.setupFinished == old(s.setupFinished)
    {
      ghost var cur := Snapshot(s, Go);
      k' := k;
      hashed' := hashed;
      done := true;
      // The user's `cancel()`, if pressed since the session became `uploading`, lands just before the status check.
      if env.cancelAt.Some? && s.uploadingAt < env.cancelAt.value <= |trace| {
        s.status := Cancelled;
      }
      assert Snapshot(s, Go) == Check(env, cur);
      StreamAfterCheck(p, env, path, f, k, hashed, cur);
      if s.status == Cancelled {
        var r := Ask(Req(CancelSession, s.path, NoData), env);
        flow := if r.Failure? then Raise(r.reason) else Stop;
      } else if k == |f.chunks| {
        flow := FinishFile(s, p, f, hashed, env);
      } else {
        done, flow, hashed' := SendChunk(s, p, path, f, k, hashed, env);
        if !done {
          k' := k + 1;
        }
      }
    }

    /** The end of the stream: the file counts as done and `complete_file` carries the digest of the bytes read. */
    method FinishFile(s: UploadSession, ghost p: Plan, f: File, hashed: seq<bv8>, env: Env) returns (flow: Flow)
      requires p.gen == gen && p.path == s.path && Check(env, Snapshot(s, Go)).status != Cancelled
      modifies this, s
      ensures forall path :: Snapshot(s, flow) == Stream(p, env, path, f, |f.chunks|, hashed, old(Snapshot(s, Go)))
      ensures registered == old(registered) && s.entries == old(s.entries)
      ensures s.totalFiles == old(s.totalFiles) && s.totalSize == old(s.totalSize) && s.setupFinished == old(s.setupFinished)
    {
      s.doneFiles := s.doneFiles + 1;
      if gen.Legacy? {
        s.doneSize := s.doneSize + Size(f);
      }
      var digest := env.digest(hashed);
      var r := Ask(Req(CompleteFile, s.path, DigestData(digest)), env);
      flow := if r.Failure? then Raise(r.reason) else Go;
    }

    /** One chunk: the `chunk` request, the raw bytes, and the progress the server reports. */
    method SendChunk(s: UploadSession, ghost p: Plan, path: string, f: File, k: nat, hashed: seq<bv8>, env: Env)
      returns (done: bool, flow: Flow, hashed': seq<bv8>)
      requires p.gen == gen && p.path == s.path && k < |f.chunks| && Check(env, Snapshot(s, Go)).status != Cancelled
      modifies this, s
      ensures done ==> Snapshot(s, flow) == Stream(p, env, path, f, k, hashed, old(Snapshot(s, Go)))
      ensures !done ==>
        && flow == Go
        && Stream(p, env, path, f, k, hashed, old(Snapshot(s, Go))) == Stream(p, env, path, f, k + 1, hashed', Snapshot(s, Go))
      ensures registered == old(registered) && s.entries == old(s.entries)
      ensures s.totalFiles == old(s.totalFiles) && s.totalSize == old(s.totalSize) && s.setupFinished == old(s.setupFinished)
    {
      ghost var c := trace;
      var id := if gen.Current? then s.path else path;
      trace := trace + [Req(Chunk, id, ProgressData(s.doneSize))];
      trace := trace + [Raw(f.chunks[k])];
      assert trace == c + [Req(Chunk, ChunkId(p, path), ProgressData(s.doneSize)), Raw(f.chunks[k])];
      hashed' := hashed + f.chunks[k];
      var r := env.server(trace);
      if r.Failure? {
        done, flow := true, Raise(r.reason);
      } else {
        s.doneSize := r.progress;
        done, flow := false, Go;
      }
    }

    /** One iteration of the loop over `session.entries`. */
    method UploadOne(s: UploadSession, ghost p: Plan, e: Entry, env: Env) returns (flow: Flow)
      requires p.gen == gen && p.path == s.path && p.kind == s.kind
      modifies this, s
      ensures Snapshot(s, flow) == UploadEntry(p, env, s, e, old(Snapshot(s, Go)))
      ensures registered == old(registered) && s.entries == old(s.entries)
      ensures s.totalFiles == old(s.totalFiles) && s.totalSize == old(s.totalSize) && s.setupFinished == old(s.setupFinished)
    {
      match e
      case DirEntry(path) =>
        var r := Ask(Req(Mkdir, s.path, DirData(path)), env);
        flow := if r.Failure? then Raise(r.reason) else Go;
      case FileEntry(path, f) =>
        flow := UploadFile(s, p, path, f, env);
    }

    /** A file entry: `start_file`, then skip it or stream it. */
    method UploadFile(s: UploadSession, ghost p: Plan, path: string, f: File, env: Env) returns (flow: Flow)
      requires p.gen == gen && p.path == s.path && p.kind == s.kind
      modifies this, s
      ensures Snapshot(s, flow) == UploadEntry(p, env, s, FileEntry(path, f), old(Snapshot(s, Go)))
      ensures registered == old(registered) && s.entries == old(s.entries)
      ensures s.totalFiles == old(s.totalFiles) && s.totalSize == old(s.totalSize) && s.setupFinished == old(s.setupFinished)
    {
      s.current := Some(SliceFrom(path, |s.path|));
      var r := Ask(Req(StartFile, s.path, PathData(path)), env);
      flow := StartFileAnswered(s, p, path, f, r, env);
    }

    /** After `start_file`: a skipped file is credited or leaves the list; any other is streamed. */
    method StartFileAnswered(s: UploadSession, ghost p: Plan, path: string, f: File, r: Response, env: Env) returns (flow: Flow)
      requires p.gen == gen && p.path == s.path && p.kind == s.kind
      modifies this, s
      ensures Snapshot(s, flow) == Uploads.StartFileAnswered(p, env, s, path, f, old(Snapshot(s, Go)), r)
      ensures registered == old(registered) && s.entries == old(s.entries)
      ensures s.totalFiles == old(s.totalFiles) && s.totalSize == old(s.totalSize) && s.setupFinished == old(s.setupFinished)
    {
      ghost var st1 := Snapshot(s, Go);
      if r.Failure? {
        flow := Raise(r.reason);
        assert Snapshot(s, flow) == st1.(flow := flow);
      } else if r.skip {
        if s.kind.DirectorySession? {
          s.doneFiles := s.doneFiles + 1;
          s.doneSize := s.doneSize + Size(f);
          assert Snapshot(s, Go) == st1.(doneFiles := st1.doneFiles + 1, doneSize := st1.doneSize + Size(f));
        } else {
          var list := RemoveFirst(sessionList, s);
          sessionList := list;
          assert Snapshot(s, Go) == st1.(list := list);
        }
        flow := Go;
      } else {
        flow := StreamFile(s, p, path, f, env);
      }
    }

    /** The loop of `doStartUpload` over the session's entries; it stops at the first entry that does not finish normally. */
    method UploadAll(s: UploadSession, ghost p: Plan, env: Env) returns (flow: Flow)
      requires p.gen == gen && p.path == s.path && p.kind == s.kind && s.entries == p.entries
      modifies this, s
      ensures Snapshot(s, flow) == UploadEntries(p, env, s, 0, old(Snapshot(s, Go)))
      ensures registered == old(registered) && s.entries == old(s.entries)
      ensures s.totalFiles == old(s.totalFiles) && s.totalSize == old(s.totalSize) && s.setupFinished == old(s.setupFinished)
    {
      ghost var goal := UploadEntries(p, env, s, 0, Snapshot(s, Go));
      var i := 0;
      while i < |s.entries|
        invariant i <= |s.entries| && s.entries == p.entries
        invariant registered == old(registered)
        invariant s.totalFiles == old(s.totalFiles) && s.totalSize == old(s.totalSize) && s.setupFinished == old(s.setupFinished)
        invariant UploadEntries(p, env, s, i, Snapshot(s, Go)) == goal
      {
        flow := UploadOne(s, p, s.entries[i], env);
        if !flow.Go? {
          return;
        }
        i := i + 1;
      }
      flow := Go;
    }

    /** `doStartUpload(session)`. */
    method DoStartUpload(s: UploadSession, env: Env) returns (flow: Flow)
      modifies this, s
      ensures Snapshot(s, flow) == Uploads.DoStartUpload(old(PlanOf(s)), env, s, old(Snapshot(s, Go)))
      ensures registered == old(registered) && s.entries == old(s.entries)
      ensures s.totalFiles == old(s.totalFiles) && s.totalSize == old(s.totalSize) && s.setupFinished == old(s.setupFinished)
    {
      ghost var p := PlanOf(s);
      ghost var st0 := Snapshot(s, Go);
      if gen.Current? && !registered {
        return Raise("manager not registered");
      }
      var r := Ask(Req(StartSession, s.path, PolicyData(None)), env);
      if r.Failure? {
        return Raise(r.reason);
      }
      if r.needConfirm {
        if env.confirm.None? {
          return Stop;
        }
        r := Ask(Req(StartSession, s.path, PolicyData(env.confirm)), env);
        if r.Failure? {
          return Raise(r.reason);
        }
      }
      s.status := Uploading;
      s.uploadingAt := |trace|;
      sessionList := sessionList + [s];
      ghost var b := Snapshot(s, Go);
      assert b == Begin(p, env, s, st0);
      flow := UploadAll(s, p, env);
      if !flow.Go? {
        return;
      }
      r := Ask(Req(CompleteSession, if gen.Current? then s.path else s.dest, NoData), env);
      if r.Failure? {
        return Raise(r.reason);
      }
      if gen.Current? {
        s.status := Completed;
      }
      flow := Go;
    }

    /** `startUpload(session)`: an exception marks the session `error`. */
    method StartUpload(s: UploadSession, env: Env) returns (flow: Flow)
      modifies this, s
      ensures Snapshot(s, flow) == Uploads.StartUpload(old(PlanOf(s)), env, s, old(Snapshot(s, Go)))
      ensures registered == old(registered) && s.entries == old(s.entries)
      ensures s.totalFiles == old(s.totalFiles) && s.totalSize == old(s.totalSize) && s.setupFinished == old(s.setupFinished)
    {
      flow := DoStartUpload(s, env);
      if flow.Raise? {
        s.status := Error;
      }
    }

    /**
     * `dropUpload(entry, dest)`: a file or directory entry gets a new session,
     * which lists the entry and starts uploading.  Anything else throws a
     * `TypeError` in the newer generation and is ignored by the older one.
     */
    method DropUpload(src: Source, dest: string, join: Joiner, stopAt: Option<nat>, env: Env) returns (d: Dropped)
      modifies this
      ensures !(src.FileEntrySource? || src.DirectoryEntrySource?) ==>
        d == (if gen.Current? then ThrewTypeError else Ignored) && trace == old(trace) && sessionList == old(sessionList)
      ensures (src.FileEntrySource? || src.DirectoryEntrySource?) ==>
        && d.Started? && fresh(d.session) && d.session.service == this
        && d.session.kind == (if src.FileEntrySource? then FileSession else DirectorySession)
        && d.session.path == join(dest, if src.FileEntrySource? then src.file.name else NodeName(src.root))
        && d.session.setupFinished && d.session.Valid()
        && d.session.entries == Listing(gen, join, stopAt, dest, src, [], Preparing).0
        && Snapshot(d.session, d.flow) == Uploads.StartUpload(PlanOf(d.session), env, d.session,
             Upload(old(trace), old(sessionList), 0, 0, Listing(gen, join, stopAt, dest, src, [], Preparing).1, None, Go, 0))
    {
      if src.FileEntrySource? || src.DirectoryEntrySource? {
        var kind := if src.FileEntrySource? then FileSession else DirectorySession;
        var name := if src.FileEntrySource? then src.file.name else NodeName(src.root);
        var s := new UploadSession(this, kind, name, dest, join);
        var failed := s.Setup(src, stopAt);
        ghost var p := PlanOf(s);
        assert Snapshot(s, Go) == Upload(old(trace), old(sessionList), 0, 0, Listing(gen, join, stopAt, dest, src, [], Preparing).1, None, Go, 0);
        var flow := StartUpload(s, env);
        assert PlanOf(s) == p;
        d := Started(s, flow);
      } else if gen.Current? {
        d := ThrewTypeError;
      } else {
        d := Ignored;
      }
    }
  }

  class UploadSession {
    const service: UploadService
    const kind: SessionType
    const name: string
    const dest: string
    /** `join(dest, name)`. */
    const path: string
    const join: Joiner
    var entries: seq<Entry>
    var status: Status
    var totalSize: nat
    /** `totalFilesCount` (`totalFiles` in the older generation). */
    var totalFiles: nat
    var setupFinished: bool
    var doneSize: int
    var doneFiles: nat
    /** `currentFileRelativePath`. */
    var current: Option<string>
    /** The length of the service's trace when this session last became `uploading`; a cancel pressed earlier was overwritten. */
    var uploadingAt: nat

    /** The totals always describe the listed entries. */
    ghost predicate Valid()
      reads this
    {
      totalFiles == FileCount(entries) && totalSize == TotalSize(entries)
    }

    constructor (service: UploadService, kind: SessionType, name: string, dest: string, join: Joiner)
      ensures this.service == service && this.kind == kind && this.name == name && this.dest == dest
      ensures path == join(dest, name) && this.join == join
      ensures entries == [] && status == Unset && !setupFinished && doneSize == 0 && doneFiles == 0 && current == None
      ensures uploadingAt == 0 && Valid()
    {
      this.service := service;
      this.kind := kind;
      this.name := name;
      this.dest := dest;
      this.join := join;
      path := join(dest, name);
      entries := [];
      status := Unset;
      totalSize := 0;
      totalFiles := 0;
      setupFinished := false;
      doneSize := 0;
      doneFiles := 0;
      current := None;
      uploadingAt := 0;
    }

    /** `setStatus(status)`. */
    method SetStatus(s: Status)
      modifies this
      ensures status == s && entries == old(entries) && doneSize == old(doneSize) && doneFiles == old(doneFiles)
      ensures totalSize == old(totalSize) && totalFiles == old(totalFiles) && setupFinished == old(setupFinished)
    {
      status := s;
    }

    /** `cancel()`. */
    method Cancel()
      modifies this
      ensures status == Cancelled && entries == old(entries) && doneSize == old(doneSize) && doneFiles == old(doneFiles)
      ensures totalSize == old(totalSize) && totalFiles == old(totalFiles) && setupFinished == old(setupFinished)
    {
      status := Cancelled;
    }

    /** `removeFromList()`: the first occurrence of this session leaves the service's list. */
    method RemoveFromList()
      modifies service
      ensures service.sessionList == RemoveFirst(old(service.sessionList), this)
      ensures service.trace == old(service.trace) && service.registered == old(service.registered)
    {
      service.sessionList := RemoveFirst(service.sessionList, this);
    }

    /**
     * `redo()`: progress back to zero, off the list (newer generation only),
     * then `startUpload` again.
     */
    method Redo(env: Env) returns (flow: Flow)
      modifies this, service
      ensures service.Snapshot(this, flow) == Uploads.StartUpload(old(service.PlanOf(this)), env, this,
        old(service.Snapshot(this, Go)).(doneSize := 0, doneFiles := 0,
          list := if service.gen.Current? then RemoveFirst(old(service.sessionList), this) else old(service.sessionList)))
      ensures entries == old(entries) && totalSize == old(totalSize) && totalFiles == old(totalFiles)
    {
      ghost var p := service.PlanOf(this);
      ghost var st := service.Snapshot(this, Go).(doneSize := 0, doneFiles := 0,
        list := if service.gen.Current? then RemoveFirst(service.sessionList, this) else service.sessionList);
      doneFiles := 0;
      doneSize := 0;
      if service.gen.Current? {
        RemoveFromList();
      }
      assert service.trace == st.trace && service.sessionList == st.list;
      assert doneSize == st.doneSize && doneFiles == st.doneFiles && status == st.status && current == st.current;
      assert service.Snapshot(this, Go) == st && service.PlanOf(this) == p;
      flow := service.StartUpload(this, env);
      assert service.Snapshot(this, flow) == Uploads.StartUpload(p, env, this, st);
    }

    /** `countFile(path, file)`. */
    method CountFile(p: string, f: File)
      requires Valid()
      modifies this
      ensures Valid() && entries == old(entries) + [FileEntry(p, f)] && status == old(status)
      ensures totalFiles == old(totalFiles) + 1 && totalSize == old(totalSize) + Size(f)
      ensures doneSize == old(doneSize) && doneFiles == old(doneFiles) && setupFinished == old(setupFinished)
      ensures current == old(current) && uploadingAt == old(uploadingAt)
    {
      CountsAppend(entries, [FileEntry(p, f)]);
      assert [FileEntry(p, f)][..0] == [];
      totalSize := totalSize + Size(f);
      totalFiles := totalFiles + 1;
      entries := entries + [FileEntry(p, f)];
    }

    /** Pushes an empty directory, which the totals do not count. */
    method PushEmptyDir(p: string)
      requires Valid()
      modifies this
      ensures Valid() && entries == old(entries) + [DirEntry(p)] && status == old(status)
      ensures totalFiles == old(totalFiles) && totalSize == old(totalSize)
      ensures doneSize == old(doneSize) && doneFiles == old(doneFiles) && setupFinished == old(setupFinished)
      ensures current == old(current) && uploadingAt == old(uploadingAt)
    {
      CountsAppend(entries, [DirEntry(p)]);
      assert [DirEntry(p)][..0] == [];
      entries := entries + [DirEntry(p)];
    }

    /** `setupEntry` / `setupHandle`: one node of a dropped or picked directory, from `parent`. */
    method SetupNode(parent: string, n: Node, stopAt: Option<nat>)
      requires Valid()
      modifies this
      ensures Valid()
      ensures (entries, status) == Visit(service.gen.Current?, join, stopAt, parent, n, old(entries), old(status))
      ensures doneSize == old(doneSize) && doneFiles == old(doneFiles) && setupFinished == old(setupFinished)
      ensures current == old(current) && uploadingAt == old(uploadingAt)
      decreases n
    {
      // The user's `cancel()` lands just before the status check.
      status := Seen(stopAt, entries, status);
      if service.gen.Current? && status == Cancelled {
        return;
      }
      match n
      case FileNode(f) =>
        CountFile(join(parent, f.name), f);
      case DirNode(dirName, cs) =>
        if cs == [] {
          PushEmptyDir(join(parent, dirName));
        } else {
          ghost var e0 := entries;
          ghost var s0 := status;
          var i := 0;
          while i < |cs|
            invariant i <= |cs| && Valid()
            invariant (entries, status) == VisitAll(service.gen.Current?, join, stopAt, join(parent, dirName), cs[..i], e0, s0)
            invariant doneSize == old(doneSize) && doneFiles == old(doneFiles) && setupFinished == old(setupFinished)
            invariant current == old(current) && uploadingAt == old(uploadingAt)
          {
            assert cs[..i + 1][..i] == cs[..i];
            SetupNode(join(parent, dirName), cs[i], stopAt);
            i := i + 1;
          }
          assert cs[..i] == cs;
        }
    }

    /** `setupFileList(files)`. */
    method SetupFileList(files: seq<(string, File)>, stopAt: Option<nat>)
      requires Valid()
      modifies this
      ensures Valid()
      ensures (entries, status) == ListFrom(service.gen.Current?, join, stopAt, dest, files, 0, old(entries), old(status))
      ensures doneSize == old(doneSize) && doneFiles == old(doneFiles) && setupFinished == old(setupFinished)
      ensures current == old(current) && uploadingAt == old(uploadingAt)
    {
      ghost var goal := ListFrom(service.gen.Current?, join, stopAt, dest, files, 0, entries, status);
      var i := 0;
      while i < |files|
        invariant i <= |files| && Valid()
        invariant ListFrom(service.gen.Current?, join, stopAt, dest, files, i, entries, status) == goal
        invariant doneSize == old(doneSize) && doneFiles == old(doneFiles) && setupFinished == old(setupFinished)
        invariant current == old(current) && uploadingAt == old(uploadingAt)
      {
        // The user's `cancel()` lands just before the status check.
        status := Seen(stopAt, entries, status);
        if service.gen.Current? && status == Cancelled {
          return;
        }
        CountFile(join(dest, files[i].0), files[i].1);
        i := i + 1;
      }
    }

    /**
     * `setup(arg)`: `preparing`, then the listing; an argument of no known
     * kind is rejected and marks the session `error`; `setupFinished` is set
     * either way.
     */
    method Setup(src: Source, stopAt: Option<nat>) returns (failed: bool)
      requires Valid()
      modifies this
      ensures Valid() && setupFinished
      ensures failed <==> src.Invalid?
      ensures (entries, if failed then Preparing else status) == Listing(service.gen, join, stopAt, dest, src, old(entries), Preparing)
      ensures failed ==> status == Error
      ensures doneSize == old(doneSize) && doneFiles == old(doneFiles)
      ensures current == old(current) && uploadingAt == old(uploadingAt)
    {
      status := Preparing;
      failed := false;
      match src {
      case PlainFile(f) =>
        CountFile(join(dest, f.name), f);
      case FileList(files) =>
        SetupFileList(files, stopAt);
      case FileEntrySource(f) =>
        CountFile(join(dest, f.name), f);
      case DirectoryEntrySource(root) =>
        SetupNode(dest, root, stopAt);
      case FileHandleSource(f) =>
        CountFile(join(dest, f.name), f);
      case DirectoryHandleSource(root) =>
        SetupNode(dest, root, stopAt);
      case Invalid =>
        failed := true;
        status := Error;
      }
      setupFinished := true;
    }
  }
}
