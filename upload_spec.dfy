/**
 * The upload pipeline of both generations (src/service/websocketBase/uploadService.ts,
 * the newer, and src/services/base/uploadService.ts, the older), as values.
 *
 * A run of `doStartUpload` issues requests to the `upload` service, each
 * answered by the server before the next one; the requests, and the raw chunk
 * bytes written to the socket between them, form a trace.  The server, the
 * user's answer to the duplicate-policy dialog, the moment the user presses
 * cancel and the SHA-256 digest are inputs (`Env`).  The functions below
 * describe a run step by step; the classes in module `UploadService` are
 * proved to perform exactly these steps.
 */
module Uploads {
  import opened Wrappers
  import opened JsArrays
  import opened JsStrings

  datatype Generation = Current | Legacy

  datatype SessionType = FileSession | DirectorySession

  /** `SessionStatus`; `Unset` is `undefined`. */
  datatype Status = Unset | Pending | Preparing | Uploading | Cancelled | Completed | Error

  datatype Policy = Overwrite | Skip | Rename

  /** A file: its name and the chunks its stream yields. */
  datatype File = File(name: string, chunks: seq<seq<bv8>>)

  function Concat(chunks: seq<seq<bv8>>): seq<bv8> {
    if chunks == [] then [] else Concat(chunks[..|chunks| - 1]) + chunks[|chunks| - 1]
  }

  /** `file.size`. */
  function Size(f: File): nat {
    |Concat(f.chunks)|
  }

  /** `UploadEntry`: an empty directory to create, or a file to send, at a destination path. */
  datatype Entry = DirEntry(path: string) | FileEntry(path: string, file: File)

  datatype Action = StartSession | CompleteSession | CancelSession | StartFile | CompleteFile | Chunk | Mkdir

  /** The `data` of a request. */
  datatype Payload =
    | NoData
    | PolicyData(policy: Option<Policy>)
    | PathData(path: string)
    | DigestData(digest: string)
    | ProgressData(progress: int)
    | DirData(dir: string)

  /** A request to the `upload` service, or raw bytes written to the socket. */
  datatype Item = Req(action: Action, id: string, data: Payload) | Raw(bytes: seq<bv8>)

  /** The server's answer: the fields the client reads, or a rejection. */
  datatype Response = Reply(needConfirm: bool, skip: bool, progress: int) | Failure(reason: string)

  /**
   * The world around a run: the server's answer to the trace so far, the
   * policy the user picks (`None`: the dialog is dismissed), the trace length
   * from which the user has pressed cancel, and SHA-256.
   */
  datatype Env = Env(
    server: seq<Item> -> Response,
    confirm: Option<Policy>,
    cancelAt: Option<nat>,
    digest: seq<bv8> -> string)

  /** How a step ends: go on, return quietly, or throw. */
  datatype Flow = Go | Stop | Raise(reason: string)

  /** What a session uploads: fixed for the whole run. */
  datatype Plan = Plan(
    gen: Generation, kind: SessionType, path: string, dest: string,
    entries: seq<Entry>, registered: bool)

  /**
   * The state a run changes: the trace, `sessionList`, and the session's
   * counters, status and current file.  `uploadingAt` is the trace length at
   * which the session last became `uploading`: `setStatus('uploading')`
   * overwrites a cancel pressed before then.
   */
  datatype Upload<S> = Upload(
    trace: seq<Item>, list: seq<S>, doneSize: int, doneFiles: nat,
    status: Status, current: Option<string>, flow: Flow, uploadingAt: nat)

  // ---------------------------------------------------------------------
  // Small helpers.

  /** `s.slice(n)`. */
  function CountAction(t: seq<Item>, a: Action): nat {
    if t == [] then 0
    else CountAction(t[..|t| - 1], a) + (if t[|t| - 1].Req? && t[|t| - 1].action == a then 1 else 0)
  }

  function Raws(t: seq<Item>): seq<seq<bv8>> {
    if t == [] then []
    else Raws(t[..|t| - 1]) + (if t[|t| - 1].Raw? then [t[|t| - 1].bytes] else [])
  }

  lemma CountAppend(t: seq<Item>, u: seq<Item>, a: Action)
    ensures CountAction(t + u, a) == CountAction(t, a) + CountAction(u, a)
    ensures Raws(t + u) == Raws(t) + Raws(u)
    decreases |u|
  {
    if u == [] {
      assert t + u == t;
    } else {
      assert (t + u)[..|t + u| - 1] == t + u[..|u| - 1];
      CountAppend(t, u[..|u| - 1], a);
    }
  }

  // ---------------------------------------------------------------------
  // One run of `doStartUpload`.

  /** Whether the user's cancel has landed by the time the trace is `st.trace`: pressed, and after the session became `uploading`. */
  predicate CancelLanded<S>(env: Env, st: Upload<S>) {
    env.cancelAt.Some? && st.uploadingAt < env.cancelAt.value <= |st.trace|
  }

  /** The status check: the status it reads, with the user's cancel applied once it has landed. */
  function Check<S>(env: Env, st: Upload<S>): (r: Upload<S>)
    ensures r.status == Cancelled <==> st.status == Cancelled || CancelLanded(env, st)
    ensures r == st.(status := r.status)
    ensures r.status == st.status || r.status == Cancelled
  {
    if CancelLanded(env, st) then st.(status := Cancelled) else st
  }

  /** Issues one request and returns the server's answer to it. */
  function Ask<S>(env: Env, st: Upload<S>, item: Item): (r: (Upload<S>, Response))
    ensures r.0 == st.(trace := st.trace + [item]) && r.1 == env.server(st.trace + [item])
  {
    var t := st.trace + [item];
    (st.(trace := t), env.server(t))
  }

  /** Continues, or throws with the reason a request was rejected. */
  function Then<S>(st: Upload<S>, r: Response): Upload<S> {
    if r.Failure? then st.(flow := Raise(r.reason)) else st
  }

  /** The id of chunk requests: the session's path in the newer generation, the entry's path in the older. */
  function ChunkId(p: Plan, entryPath: string): string {
    if p.gen.Current? then p.path else entryPath
  }

  /**
   * The `while (true)` loop streaming file `f` from chunk `k`, `hashed`
   * holding the bytes hashed so far.  Before each read the status is checked
   * for cancellation.
   */
  function Stream<S>(p: Plan, env: Env, entryPath: string, f: File, k: nat, hashed: seq<bv8>, st: Upload<S>): Upload<S>
    requires k <= |f.chunks|
    decreases |f.chunks| - k
  {
    var st := Check(env, st);
    if st.status == Cancelled then
      var (st1, r) := Ask(env, st, Req(CancelSession, p.path, NoData));
      st1.(flow := if r.Failure? then Raise(r.reason) else Stop)
    else if k == |f.chunks| then
      var st1 := st.(doneFiles := st.doneFiles + 1,
                     doneSize := if p.gen.Legacy? then st.doneSize + Size(f) else st.doneSize);
      var (st2, r) := Ask(env, st1, Req(CompleteFile, p.path, DigestData(env.digest(hashed))));
      Then(st2, r)
    else
      var t := st.trace + [Req(Chunk, ChunkId(p, entryPath), ProgressData(st.doneSize)), Raw(f.chunks[k])];
      var r := env.server(t);
      if r.Failure? then st.(trace := t, flow := Raise(r.reason))
      else Stream(p, env, entryPath, f, k + 1, hashed + f.chunks[k], st.(trace := t, doneSize := r.progress))
  }

  /** The status check is idempotent, so streaming from a checked state is streaming from the state itself. */
  lemma StreamAfterCheck<S>(p: Plan, env: Env, path: string, f: File, k: nat, hashed: seq<bv8>, st: Upload<S>)
    requires k <= |f.chunks|
    ensures Stream(p, env, path, f, k, hashed, Check(env, st)) == Stream(p, env, path, f, k, hashed, st)
  {
    assert Check(env, Check(env, st)) == Check(env, st);
  }

  /** One iteration of the loop over `session.entries`. */
  function UploadEntry<S(==)>(p: Plan, env: Env, self: S, e: Entry, st: Upload<S>): Upload<S> {
    match e
    case DirEntry(path) =>
      var (st1, r) := Ask(env, st, Req(Mkdir, p.path, DirData(path)));
      Then(st1, r)
    case FileEntry(path, f) =>
      var st0 := st.(current := Some(SliceFrom(path, |p.path|)));
      var (st1, r) := Ask(env, st0, Req(StartFile, p.path, PathData(path)));
      StartFileAnswered(p, env, self, path, f, st1, r)
  }

  /** What follows the answer `r` to `start_file`: an exception, a skip, or the stream. */
  function StartFileAnswered<S(==)>(p: Plan, env: Env, self: S, path: string, f: File, st1: Upload<S>, r: Response): Upload<S> {
    if r.Failure? then st1.(flow := Raise(r.reason))
    else if r.skip then
      if p.kind.DirectorySession? then st1.(doneFiles := st1.doneFiles + 1, doneSize := st1.doneSize + Size(f))
      else st1.(list := RemoveFirst(st1.list, self))
    else Stream(p, env, path, f, 0, [], st1)
  }

  /** The loop over `session.entries` from index `i`; it ends early on a quiet return or an exception. */
  function UploadEntries<S(==)>(p: Plan, env: Env, self: S, i: nat, st: Upload<S>): Upload<S>
    requires i <= |p.entries|
    decreases |p.entries| - i
  {
    if i == |p.entries| || !st.flow.Go? then st
    else UploadEntries(p, env, self, i + 1, UploadEntry(p, env, self, p.entries[i], st))
  }

  /**
   * `start_session`, the duplicate-policy dialog and the policy resend; then
   * the session becomes `uploading` and joins `sessionList`.
   */
  function Begin<S>(p: Plan, env: Env, self: S, st: Upload<S>): Upload<S> {
    if p.gen.Current? && !p.registered then st.(flow := Raise("manager not registered"))
    else
      var (st1, r) := Ask(env, st, Req(StartSession, p.path, PolicyData(None)));
      if r.Failure? then st1.(flow := Raise(r.reason))
      else if r.needConfirm && env.confirm.None? then st1.(flow := Stop)
      else
        var (st2, r2) := if r.needConfirm then Ask(env, st1, Req(StartSession, p.path, PolicyData(env.confirm))) else (st1, r);
        if r2.Failure? then st2.(flow := Raise(r2.reason))
        else st2.(status := Uploading, list := st2.list + [self], uploadingAt := |st2.trace|)
  }

  /** `complete_session` (with the session's path, or in the older generation its destination), then `completed` in the newer generation. */
  function Finish<S>(p: Plan, env: Env, st: Upload<S>): Upload<S> {
    var (st1, r) := Ask(env, st, Req(CompleteSession, if p.gen.Current? then p.path else p.dest, NoData));
    if r.Failure? then st1.(flow := Raise(r.reason))
    else if p.gen.Current? then st1.(status := Completed)
    else st1
  }

  /** `doStartUpload`. */
  function DoStartUpload<S(==)>(p: Plan, env: Env, self: S, st: Upload<S>): Upload<S> {
    var b := Begin(p, env, self, st.(flow := Go));
    if !b.flow.Go? then b
    else
      var e := UploadEntries(p, env, self, 0, b);
      if !e.flow.Go? then e else Finish(p, env, e)
  }

  /** `startUpload`: an exception marks the session `error` (and propagates). */
  function StartUpload<S(==)>(p: Plan, env: Env, self: S, st: Upload<S>): (r: Upload<S>)
    ensures r.flow.Raise? ==> r.status == Error
  {
    var r := DoStartUpload(p, env, self, st);
    if r.flow.Raise? then r.(status := Error) else r
  }

  // ---------------------------------------------------------------------
  // Properties of a run.

  /** `u` is `t` followed by at least one more item. */
  ghost predicate Extends(t: seq<Item>, u: seq<Item>) {
    |t| < |u| && u[..|t|] == t
  }

  lemma AddedSplit(t0: seq<Item>, t1: seq<Item>, u: seq<Item>)
    requires |t0| <= |t1| <= |u| && t1[..|t0|] == t0 && u[..|t1|] == t1
    ensures u[..|t0|] == t0
    ensures u[|t0|..] == t1[|t0|..] + u[|t1|..]
  {
    assert u[..|t0|] == u[..|t1|][..|t0|];
  }

  lemma CountOne(x: Item)
    ensures forall a :: CountAction([x], a) == (if x.Req? && x.action == a then 1 else 0)
    ensures Raws([x]) == (if x.Raw? then [x.bytes] else [])
  {
    assert [x][..0] == [];
  }

  /** A dismissed dialog ends the run after the first `start_session`: the list and the status are untouched. */
  lemma DeclinedConfirmation<S>(p: Plan, env: Env, self: S, st: Upload<S>)
    requires p.gen.Legacy? || p.registered
    requires env.confirm.None?
    requires var r := env.server(st.trace + [Req(StartSession, p.path, PolicyData(None))]); r.Reply? && r.needConfirm
    ensures StartUpload(p, env, self, st) == st.(trace := st.trace + [Req(StartSession, p.path, PolicyData(None))], flow := Stop)
  {
  }

  /**
   * The session joins `sessionList`, as `uploading`, only once `start_session`
   * (and the policy resend, when asked for) has been answered; a run that
   * stops or throws before that leaves the list and the status as they were.
   */
  lemma ListedAfterStart<S>(p: Plan, env: Env, self: S, st: Upload<S>)
    requires st.flow.Go?
    ensures var b := Begin(p, env, self, st);
      if b.flow.Go? then
        && b.list == st.list + [self] && b.status == Uploading
        && (b.trace == st.trace + [Req(StartSession, p.path, PolicyData(None))]
            || (env.confirm.Some? && b.trace == st.trace + [Req(StartSession, p.path, PolicyData(None)), Req(StartSession, p.path, PolicyData(env.confirm))]))
      else
        b.list == st.list && b.status == st.status
  {
  }

  /** An empty-directory entry issues exactly one `mkdir` and changes no counter. */
  lemma DirectoryEntryMakesDir<S>(p: Plan, env: Env, self: S, path: string, st: Upload<S>)
    ensures var r := UploadEntry(p, env, self, DirEntry(path), st);
      && r.trace == st.trace + [Req(Mkdir, p.path, DirData(path))]
      && r.doneFiles == st.doneFiles && r.doneSize == st.doneSize && r.list == st.list
  {
  }

  /**
   * A skipped file sends no chunk.  A directory session credits it as done
   * (one more file, its full size); a file session leaves `sessionList`.
   */
  lemma SkippedFile<S>(p: Plan, env: Env, self: S, path: string, f: File, st: Upload<S>)
    requires var r := env.server(st.trace + [Req(StartFile, p.path, PathData(path))]); r.Reply? && r.skip
    ensures var r := UploadEntry(p, env, self, FileEntry(path, f), st);
      && r.trace == st.trace + [Req(StartFile, p.path, PathData(path))]
      && r.flow == st.flow
      && (p.kind.DirectorySession? ==> r.doneFiles == st.doneFiles + 1 && r.doneSize == st.doneSize + Size(f) && r.list == st.list)
      && (p.kind.FileSession? ==> r.list == RemoveFirst(st.list, self) && r.doneFiles == st.doneFiles && r.doneSize == st.doneSize)
  {
  }

  lemma ConcatAppend(chunks: seq<seq<bv8>>, c: seq<bv8>)
    ensures Concat(chunks + [c]) == Concat(chunks) + c
  {
    assert (chunks + [c])[..|chunks|] == chunks;
  }

  /** Streaming always issues at least one request, and touches neither the list nor any status but `cancelled`. */
  lemma {:induction false} StreamExtends<S>(p: Plan, env: Env, path: string, f: File, k: nat, hashed: seq<bv8>, st: Upload<S>)
    requires k <= |f.chunks|
    ensures var r := Stream(p, env, path, f, k, hashed, st);
      && Extends(st.trace, r.trace) && r.list == st.list
      && (r.status == st.status || r.status == Cancelled)
    decreases |f.chunks| - k
  {
    var s := Check(env, st);
    if s.status != Cancelled && k < |f.chunks| {
      var t := st.trace + [Req(Chunk, ChunkId(p, path), ProgressData(s.doneSize)), Raw(f.chunks[k])];
      var resp := env.server(t);
      if resp.Reply? {
        var next := s.(trace := t, doneSize := resp.progress);
        StreamExtends(p, env, path, f, k + 1, hashed + f.chunks[k], next);
        var r := Stream(p, env, path, f, k + 1, hashed + f.chunks[k], next);
        assert r.trace[..|st.trace|] == r.trace[..|t|][..|st.trace|];
      }
    }
  }

  /** The two items of one chunk: a `chunk` request and the raw bytes. */
  lemma ChunkItems(x: Item, bytes: seq<bv8>)
    requires x.Req? && x.action == Chunk
    ensures forall a :: CountAction([x, Raw(bytes)], a) == (if a == Chunk then 1 else 0)
    ensures Raws([x, Raw(bytes)]) == [bytes]
  {
    assert [x, Raw(bytes)] == [x] + [Raw(bytes)];
    CountOne(x);
    CountOne(Raw(bytes));
    forall a ensures CountAction([x, Raw(bytes)], a) == (if a == Chunk then 1 else 0) {
      CountAppend([x], [Raw(bytes)], a);
    }
    CountAppend([x], [Raw(bytes)], Chunk);
  }

  /** A trace continuing with a `chunk` request and its bytes. */
  lemma ChunkPrefix(t0: seq<Item>, x: Item, bytes: seq<bv8>, u: seq<Item>)
    requires x.Req? && x.action == Chunk
    requires |t0| + 2 < |u| && u[..|t0| + 2] == t0 + [x, Raw(bytes)]
    ensures Extends(t0, u)
    ensures Raws(u[|t0|..]) == [bytes] + Raws(u[|t0| + 2..])
    ensures forall a :: CountAction(u[|t0|..], a) == CountAction(u[|t0| + 2..], a) + (if a == Chunk then 1 else 0)
  {
    AddedSplit(t0, t0 + [x, Raw(bytes)], u);
    assert (t0 + [x, Raw(bytes)])[|t0|..] == [x, Raw(bytes)];
    ChunkItems(x, bytes);
    forall a ensures CountAction(u[|t0|..], a) == CountAction(u[|t0| + 2..], a) + (if a == Chunk then 1 else 0) {
      CountAppend([x, Raw(bytes)], u[|t0| + 2..], a);
    }
    CountAppend([x, Raw(bytes)], u[|t0| + 2..], Chunk);
  }

  /**
   * A stream that runs to the end writes the file's chunks to the socket in
   * order, counts the file as done, and sends `complete_file` last, with the
   * digest of the file's bytes.
   */
  lemma {:induction false} StreamSendsWholeFile<S>(p: Plan, env: Env, path: string, f: File, k: nat, hashed: seq<bv8>, st: Upload<S>)
    requires k <= |f.chunks| && hashed == Concat(f.chunks[..k]) && st.flow.Go?
    ensures var r := Stream(p, env, path, f, k, hashed, st);
      Extends(st.trace, r.trace) &&
      (r.flow.Go? ==>
        && Raws(r.trace[|st.trace|..]) == f.chunks[k..]
        && r.trace[|r.trace| - 1] == Req(CompleteFile, p.path, DigestData(env.digest(Concat(f.chunks))))
        && r.doneFiles == st.doneFiles + 1)
    decreases |f.chunks| - k
  {
    StreamExtends(p, env, path, f, k, hashed, st);
    var r := Stream(p, env, path, f, k, hashed, st);
    var s := Check(env, st);
    if s.status == Cancelled {
      assert !r.flow.Go?;
    } else if k == |f.chunks| {
      assert f.chunks[..k] == f.chunks && f.chunks[k..] == [];
      StreamLastStep(p, env, path, f, hashed, st);
      var item := Req(CompleteFile, p.path, DigestData(env.digest(Concat(f.chunks))));
      assert r.trace[|r.trace| - 1] == item;
    } else {
      var x := Req(Chunk, ChunkId(p, path), ProgressData(s.doneSize));
      var t := st.trace + [x, Raw(f.chunks[k])];
      var resp := env.server(t);
      if resp.Reply? {
        var next := s.(trace := t, doneSize := resp.progress);
        ChunksStep(f.chunks, k);
        StreamSendsWholeFile(p, env, path, f, k + 1, hashed + f.chunks[k], next);
        assert r == Stream(p, env, path, f, k + 1, hashed + f.chunks[k], next);
        if r.flow.Go? {
          ChunkPrefix(st.trace, x, f.chunks[k], r.trace);
        }
      }
    }
  }

  /** Taking one more chunk: the bytes hashed grow by it, and the chunks left lose it. */
  lemma ChunksStep(chunks: seq<seq<bv8>>, k: nat)
    requires k < |chunks|
    ensures Concat(chunks[..k + 1]) == Concat(chunks[..k]) + chunks[k]
    ensures chunks[k..] == [chunks[k]] + chunks[k + 1..]
  {
    assert chunks[..k + 1] == chunks[..k] + [chunks[k]];
    ConcatAppend(chunks[..k], chunks[k]);
  }

  /** With every chunk sent and no cancel, the stream sends only `complete_file` with the whole file's digest. */
  lemma StreamLastStep<S>(p: Plan, env: Env, path: string, f: File, hashed: seq<bv8>, st: Upload<S>)
    requires hashed == Concat(f.chunks) && Check(env, st).status != Cancelled
    ensures var r := Stream(p, env, path, f, |f.chunks|, hashed, st);
      && r.trace == st.trace + [Req(CompleteFile, p.path, DigestData(env.digest(Concat(f.chunks))))]
      && Raws(r.trace[|st.trace|..]) == []
      && r.doneFiles == st.doneFiles + 1
  {
    var item := Req(CompleteFile, p.path, DigestData(env.digest(hashed)));
    var r := Stream(p, env, path, f, |f.chunks|, hashed, st);
    assert r.trace[|st.trace|..] == [item];
    CountOne(item);
  }

  /**
   * A stream that runs to the end sends one `chunk` request per remaining
   * chunk and exactly one `complete_file`, and nothing else.
   */
  lemma {:induction false} StreamRequests<S>(p: Plan, env: Env, path: string, f: File, k: nat, hashed: seq<bv8>, st: Upload<S>)
    requires k <= |f.chunks| && st.flow.Go?
    ensures var r := Stream(p, env, path, f, k, hashed, st);
      Extends(st.trace, r.trace) &&
      (r.flow.Go? ==>
        forall a :: CountAction(r.trace[|st.trace|..], a) ==
          if a == CompleteFile then 1 else if a == Chunk then |f.chunks| - k else 0)
    decreases |f.chunks| - k
  {
    StreamExtends(p, env, path, f, k, hashed, st);
    var r := Stream(p, env, path, f, k, hashed, st);
    var s := Check(env, st);
    if r.flow.Go? && s.status != Cancelled {
      if k == |f.chunks| {
        var item := Req(CompleteFile, p.path, DigestData(env.digest(hashed)));
        assert r.trace[|st.trace|..] == [item];
        CountOne(item);
      } else {
        var x := Req(Chunk, ChunkId(p, path), ProgressData(s.doneSize));
        var t := st.trace + [x, Raw(f.chunks[k])];
        var resp := env.server(t);
        var next := s.(trace := t, doneSize := resp.progress);
        StreamRequests(p, env, path, f, k + 1, hashed + f.chunks[k], next);
        assert r == Stream(p, env, path, f, k + 1, hashed + f.chunks[k], next);
        ChunkPrefix(st.trace, x, f.chunks[k], r.trace);
      }
    }
  }

  /** Streaming a file never ends the session. */
  lemma {:induction false} StreamKeepsSessionOpen<S>(p: Plan, env: Env, path: string, f: File, k: nat, hashed: seq<bv8>, st: Upload<S>)
    requires k <= |f.chunks|
    ensures var r := Stream(p, env, path, f, k, hashed, st);
      Extends(st.trace, r.trace) && CountAction(r.trace[|st.trace|..], CompleteSession) == 0
    decreases |f.chunks| - k
  {
    StreamExtends(p, env, path, f, k, hashed, st);
    var r := Stream(p, env, path, f, k, hashed, st);
    var s := Check(env, st);
    if s.status == Cancelled {
      CountOne(Req(CancelSession, p.path, NoData));
      assert r.trace[|st.trace|..] == [Req(CancelSession, p.path, NoData)];
    } else if k == |f.chunks| {
      CountOne(Req(CompleteFile, p.path, DigestData(env.digest(hashed))));
      assert r.trace[|st.trace|..] == [Req(CompleteFile, p.path, DigestData(env.digest(hashed)))];
    } else {
      var x := Req(Chunk, ChunkId(p, path), ProgressData(s.doneSize));
      var t := st.trace + [x, Raw(f.chunks[k])];
      var resp := env.server(t);
      if resp.Failure? {
        assert r.trace[|st.trace|..] == [x, Raw(f.chunks[k])];
        ChunkItems(x, f.chunks[k]);
      } else {
        var next := s.(trace := t, doneSize := resp.progress);
        StreamKeepsSessionOpen(p, env, path, f, k + 1, hashed + f.chunks[k], next);
        assert r == Stream(p, env, path, f, k + 1, hashed + f.chunks[k], next);
        ChunkPrefix(st.trace, x, f.chunks[k], r.trace);
      }
    }
  }

  /**
   * A stream that sees the session cancelled ends with exactly one
   * `cancel_session`, last, sends no `complete_file` or `complete_session`,
   * and returns quietly unless that request is rejected.
   */
  lemma {:induction false} CancelledStreamStops<S>(p: Plan, env: Env, path: string, f: File, k: nat, hashed: seq<bv8>, st: Upload<S>)
    requires k <= |f.chunks| && st.flow.Go?
    ensures var r := Stream(p, env, path, f, k, hashed, st);
      Extends(st.trace, r.trace) &&
      (r.flow.Stop? ==>
        && r.trace[|r.trace| - 1] == Req(CancelSession, p.path, NoData)
        && (forall a :: CountAction(r.trace[|st.trace|..], a) ==
              if a == CancelSession then 1 else if a == Chunk then CountAction(r.trace[|st.trace|..], Chunk) else 0)
        && r.status == Cancelled)
    decreases |f.chunks| - k
  {
    StreamExtends(p, env, path, f, k, hashed, st);
    var r := Stream(p, env, path, f, k, hashed, st);
    var s := Check(env, st);
    if r.flow.Stop? {
      if s.status == Cancelled {
        var item := Req(CancelSession, p.path, NoData);
        assert r.trace[|st.trace|..] == [item];
        CountOne(item);
      } else if k < |f.chunks| {
        var x := Req(Chunk, ChunkId(p, path), ProgressData(s.doneSize));
        var t := st.trace + [x, Raw(f.chunks[k])];
        var resp := env.server(t);
        var next := s.(trace := t, doneSize := resp.progress);
        CancelledStreamStops(p, env, path, f, k + 1, hashed + f.chunks[k], next);
        assert r == Stream(p, env, path, f, k + 1, hashed + f.chunks[k], next);
        ChunkPrefix(st.trace, x, f.chunks[k], r.trace);
      }
    }
  }

  /** A server that acknowledges each chunk with the bytes received so far. */
  ghost predicate Honest(env: Env, base: int, f: File, p: Plan, path: string) {
    forall t: seq<Item>, k: nat {:trigger env.server(t), f.chunks[k]} ::
      k < |f.chunks| && |t| >= 2
        && t[|t| - 2] == Req(Chunk, ChunkId(p, path), ProgressData(base + |Concat(f.chunks[..k])|))
        && t[|t| - 1] == Raw(f.chunks[k])
      ==> env.server(t) == Reply(false, false, base + |Concat(f.chunks[..k + 1])|)
  }

  /**
   * With an honest server, each `chunk` request carries the bytes sent before
   * it, and a completed file leaves `doneSize` one file size higher in the
   * newer generation but two file sizes higher in the older one, which adds
   * the size again after adopting the server's count.
   */
  lemma {:induction false} HonestProgress<S>(p: Plan, env: Env, path: string, f: File, k: nat, hashed: seq<bv8>, st: Upload<S>, base: int)
    requires k <= |f.chunks| && Honest(env, base, f, p, path) && st.flow.Go?
    requires st.doneSize == base + |Concat(f.chunks[..k])|
    ensures var r := Stream(p, env, path, f, k, hashed, st);
      r.flow.Go? ==>
        r.doneSize == base + (if p.gen.Current? then Size(f) else 2 * Size(f))
    decreases |f.chunks| - k
  {
    var r := Stream(p, env, path, f, k, hashed, st);
    var s := Check(env, st);
    if s.status == Cancelled {
      assert !r.flow.Go?;
    } else if k == |f.chunks| {
      assert f.chunks[..k] == f.chunks;
      HonestLastStep(p, env, path, f, hashed, st, base);
    } else {
      var t := st.trace + [Req(Chunk, ChunkId(p, path), ProgressData(s.doneSize)), Raw(f.chunks[k])];
      HonestReply(env, base, f, p, path, t, k);
      var resp := env.server(t);
      var next := s.(trace := t, doneSize := resp.progress);
      HonestProgress(p, env, path, f, k + 1, hashed + f.chunks[k], next, base);
      assert r == Stream(p, env, path, f, k + 1, hashed + f.chunks[k], next);
    }
  }

  /** An honest server answers a chunk whose request carries the bytes before it with the bytes up to and including it. */
  lemma HonestReply(env: Env, base: int, f: File, p: Plan, path: string, t: seq<Item>, k: nat)
    requires Honest(env, base, f, p, path) && k < |f.chunks| && |t| >= 2
    requires t[|t| - 2] == Req(Chunk, ChunkId(p, path), ProgressData(base + |Concat(f.chunks[..k])|))
    requires t[|t| - 1] == Raw(f.chunks[k])
    ensures env.server(t) == Reply(false, false, base + |Concat(f.chunks[..k + 1])|)
  {
  }

  /** With every byte acknowledged, finishing the file adds its size once more in the older generation only. */
  lemma HonestLastStep<S>(p: Plan, env: Env, path: string, f: File, hashed: seq<bv8>, st: Upload<S>, base: int)
    requires Check(env, st).status != Cancelled && st.doneSize == base + Size(f)
    ensures var r := Stream(p, env, path, f, |f.chunks|, hashed, st);
      r.flow.Go? ==> r.doneSize == base + (if p.gen.Current? then Size(f) else 2 * Size(f))
  {
  }

  function FileCount(entries: seq<Entry>): nat {
    if entries == [] then 0
    else FileCount(entries[..|entries| - 1]) + (if entries[|entries| - 1].FileEntry? then 1 else 0)
  }

  lemma FileCountCons(e: Entry, es: seq<Entry>)
    ensures FileCount([e] + es) == (if e.FileEntry? then 1 else 0) + FileCount(es)
    decreases |es|
  {
    if es == [] {
      assert [e] + es == [e];
      assert [e][..0] == [];
    } else {
      assert ([e] + es)[..|es|] == [e] + es[..|es| - 1];
      FileCountCons(e, es[..|es| - 1]);
    }
  }

  /**
   * One entry issues no `complete_session`; if the run goes on it issued no
   * `cancel_session` and, in a directory session, counted one file per file
   * entry; if it stopped, it was cancelled and `cancel_session` came last.
   */
  lemma EntryFacts<S>(p: Plan, env: Env, self: S, e: Entry, st: Upload<S>)
    requires st.flow.Go?
    ensures var m := UploadEntry(p, env, self, e, st);
      && Extends(st.trace, m.trace)
      && CountAction(m.trace[|st.trace|..], CompleteSession) == 0
      && (m.flow.Go? ==>
            && CountAction(m.trace[|st.trace|..], CancelSession) == 0
            && (p.kind.DirectorySession? ==> m.doneFiles == st.doneFiles + (if e.FileEntry? then 1 else 0)))
      && (m.flow.Stop? ==>
            && CountAction(m.trace[|st.trace|..], CancelSession) == 1
            && m.trace[|m.trace| - 1] == Req(CancelSession, p.path, NoData)
            && m.status == Cancelled)
  {
    var m := UploadEntry(p, env, self, e, st);
    match e
    case DirEntry(path) =>
      assert m.trace[|st.trace|..] == [Req(Mkdir, p.path, DirData(path))];
      CountOne(Req(Mkdir, p.path, DirData(path)));
    case FileEntry(path, f) =>
      var item := Req(StartFile, p.path, PathData(path));
      var st1 := st.(current := Some(SliceFrom(path, |p.path|)), trace := st.trace + [item]);
      var r := env.server(st.trace + [item]);
      CountOne(item);
      if r.Failure? || r.skip {
        assert m.trace[|st.trace|..] == [item];
      } else {
        assert m == Stream(p, env, path, f, 0, [], st1);
        StreamAfterStartFile(p, env, path, f, st.trace, item, st1);
      }
  }

  lemma StreamAfterStartFile<S>(p: Plan, env: Env, path: string, f: File, t0: seq<Item>, item: Item, st1: Upload<S>)
    requires st1.trace == t0 + [item] && item.Req? && item.action == StartFile && st1.flow.Go?
    ensures var m := Stream(p, env, path, f, 0, [], st1);
      && Extends(t0, m.trace)
      && CountAction(m.trace[|t0|..], CompleteSession) == 0
      && (m.flow.Go? ==>
            && CountAction(m.trace[|t0|..], CancelSession) == 0
            && m.doneFiles == st1.doneFiles + 1)
      && (m.flow.Stop? ==>
            && CountAction(m.trace[|t0|..], CancelSession) == 1
            && m.trace[|m.trace| - 1] == Req(CancelSession, p.path, NoData)
            && m.status == Cancelled)
  {
    var m := Stream(p, env, path, f, 0, [], st1);
    StreamKeepsSessionOpen(p, env, path, f, 0, [], st1);
    StartFileCounts(t0, item, m.trace);
    if m.flow.Go? {
      FinishedStreamCancels(p, env, path, f, st1);
      assert f.chunks[..0] == [];
      StreamSendsWholeFile(p, env, path, f, 0, [], st1);
    } else if m.flow.Stop? {
      CancelledStreamCancels(p, env, path, f, st1);
    }
  }

  /** A `start_file` request counts as neither `complete_session` nor `cancel_session`. */
  lemma StartFileCounts(t0: seq<Item>, item: Item, u: seq<Item>)
    requires item.Req? && item.action == StartFile && |t0| + 1 <= |u| && u[..|t0| + 1] == t0 + [item]
    ensures u[..|t0|] == t0
    ensures CountAction(u[|t0|..], CompleteSession) == CountAction(u[|t0| + 1..], CompleteSession)
    ensures CountAction(u[|t0|..], CancelSession) == CountAction(u[|t0| + 1..], CancelSession)
  {
    assert (t0 + [item])[|t0|..] == [item];
    CountOne(item);
    CountSplit(t0, t0 + [item], u, CompleteSession);
    CountSplit(t0, t0 + [item], u, CancelSession);
  }

  /** A stream that runs to the end sends no `cancel_session`. */
  lemma FinishedStreamCancels<S>(p: Plan, env: Env, path: string, f: File, st: Upload<S>)
    requires st.flow.Go?
    ensures var m := Stream(p, env, path, f, 0, [], st);
      m.flow.Go? ==> Extends(st.trace, m.trace) && CountAction(m.trace[|st.trace|..], CancelSession) == 0
  {
    StreamRequests(p, env, path, f, 0, [], st);
  }

  /** A stream that returns quietly sends exactly one `cancel_session`. */
  lemma CancelledStreamCancels<S>(p: Plan, env: Env, path: string, f: File, st: Upload<S>)
    requires st.flow.Go?
    ensures var m := Stream(p, env, path, f, 0, [], st);
      m.flow.Stop? ==>
        && Extends(st.trace, m.trace) && CountAction(m.trace[|st.trace|..], CancelSession) == 1
        && m.trace[|m.trace| - 1] == Req(CancelSession, p.path, NoData) && m.status == Cancelled
  {
    CancelledStreamStops(p, env, path, f, 0, [], st);
  }

  /**
   * The loop over the entries from `i` issues no `complete_session`.  If it
   * goes on to the end it issued no `cancel_session` and, in a directory
   * session, counted every file entry, skipped or sent, exactly once; if it
   * stopped, the session was cancelled and `cancel_session` came last.
   */
  lemma {:induction false} EntriesFacts<S>(p: Plan, env: Env, self: S, i: nat, st: Upload<S>)
    requires i <= |p.entries| && st.flow.Go?
    ensures EntriesOutcome(p, i, st, UploadEntries(p, env, self, i, st))
    decreases |p.entries| - i
  {
    var r := UploadEntries(p, env, self, i, st);
    if i == |p.entries| {
      assert p.entries[i..] == [];
      assert r.trace[|st.trace|..] == [];
    } else {
      var e := p.entries[i];
      var m := UploadEntry(p, env, self, e, st);
      EntryFacts(p, env, self, e, st);
      assert r == UploadEntries(p, env, self, i + 1, m);
      if m.flow.Go? {
        EntriesFacts(p, env, self, i + 1, m);
        EntriesCombine(p, i, st, m, r);
      } else {
        assert r == m;
      }
    }
  }

  /** What `EntriesFacts` states of the run `r` of the entries from `i` on, started in `st`. */
  ghost predicate EntriesOutcome<S>(p: Plan, i: nat, st: Upload<S>, r: Upload<S>)
    requires i <= |p.entries|
  {
    && |st.trace| <= |r.trace| && r.trace[..|st.trace|] == st.trace
    && CountAction(r.trace[|st.trace|..], CompleteSession) == 0
    && (r.flow.Go? ==>
          && CountAction(r.trace[|st.trace|..], CancelSession) == 0
          && (p.kind.DirectorySession? ==> r.doneFiles == st.doneFiles + FileCount(p.entries[i..])))
    && (r.flow.Stop? ==>
          && CountAction(r.trace[|st.trace|..], CancelSession) == 1
          && r.trace[|r.trace| - 1] == Req(CancelSession, p.path, NoData)
          && r.status == Cancelled)
  }

  /** Entry `i` run normally from `st` to `m`, and the later entries from `m` to `r`: together they run from `st` to `r`. */
  lemma EntriesCombine<S>(p: Plan, i: nat, st: Upload<S>, m: Upload<S>, r: Upload<S>)
    requires i < |p.entries| && m.flow.Go?
    requires Extends(st.trace, m.trace)
    requires CountAction(m.trace[|st.trace|..], CompleteSession) == 0 && CountAction(m.trace[|st.trace|..], CancelSession) == 0
    requires p.kind.DirectorySession? ==> m.doneFiles == st.doneFiles + (if p.entries[i].FileEntry? then 1 else 0)
    requires EntriesOutcome(p, i + 1, m, r)
    ensures EntriesOutcome(p, i, st, r)
  {
    FileCountCons(p.entries[i], p.entries[i + 1..]);
    assert p.entries[i..] == [p.entries[i]] + p.entries[i + 1..];
    CountSplit(st.trace, m.trace, r.trace, CompleteSession);
    CountSplit(st.trace, m.trace, r.trace, CancelSession);
  }

  /** Counting over `u` past `t0` splits at an intermediate trace `t1`. */
  lemma CountSplit(t0: seq<Item>, t1: seq<Item>, u: seq<Item>, a: Action)
    requires |t0| <= |t1| <= |u| && t1[..|t0|] == t0 && u[..|t1|] == t1
    ensures u[..|t0|] == t0
    ensures CountAction(u[|t0|..], a) == CountAction(t1[|t0|..], a) + CountAction(u[|t1|..], a)
  {
    AddedSplit(t0, t1, u);
    CountAppend(t1[|t0|..], u[|t1|..], a);
  }

  /** A `Begin` that goes on added one or two `start_session` requests and made the session `uploading`. */
  lemma BeginFacts<S>(p: Plan, env: Env, self: S, st: Upload<S>)
    requires st.flow.Go?
    ensures var b := Begin(p, env, self, st);
      b.flow.Go? ==>
        && |st.trace| <= |b.trace| && b.trace[..|st.trace|] == st.trace
        && CountAction(b.trace[|st.trace|..], CompleteSession) == 0
        && CountAction(b.trace[|st.trace|..], CancelSession) == 0
        && b.doneFiles == st.doneFiles
  {
    var b := Begin(p, env, self, st);
    ListedAfterStart(p, env, self, st);
    if b.flow.Go? {
      var x := Req(StartSession, p.path, PolicyData(None));
      var y := Req(StartSession, p.path, PolicyData(env.confirm));
      CountOne(x);
      if b.trace == st.trace + [x] {
        assert b.trace[|st.trace|..] == [x];
      } else {
        CountOne(y);
        assert b.trace[|st.trace|..] == [x] + [y];
        CountAppend([x], [y], CompleteSession);
        CountAppend([x], [y], CancelSession);
      }
    }
  }

  /** A `Finish` that goes on appended `complete_session` and nothing else. */
  lemma FinishFacts<S>(p: Plan, env: Env, st: Upload<S>)
    requires st.flow.Go?
    ensures var r := Finish(p, env, st);
      r.flow.Go? ==>
        && r.trace == st.trace + [Req(CompleteSession, if p.gen.Current? then p.path else p.dest, NoData)]
        && r.doneFiles == st.doneFiles
        && (p.gen.Current? ==> r.status == Completed)
  {
  }

  /**
   * A run that ends normally sends `complete_session` exactly once, last,
   * with the session's path (newer) or destination (older), and no
   * `cancel_session`; the newer generation then marks the session
   * `completed`, and a directory session has counted every file entry.
   */
  lemma CompletedRun<S>(p: Plan, env: Env, self: S, st: Upload<S>)
    ensures var r := DoStartUpload(p, env, self, st);
      r.flow.Go? ==>
        && |st.trace| < |r.trace| && r.trace[..|st.trace|] == st.trace
        && r.trace[|r.trace| - 1] == Req(CompleteSession, if p.gen.Current? then p.path else p.dest, NoData)
        && CountAction(r.trace[|st.trace|..], CompleteSession) == 1
        && CountAction(r.trace[|st.trace|..], CancelSession) == 0
        && (p.gen.Current? ==> r.status == Completed)
        && (p.kind.DirectorySession? ==> r.doneFiles == st.doneFiles + FileCount(p.entries))
  {
    var s0 := st.(flow := Go);
    var b := Begin(p, env, self, s0);
    if b.flow.Go? {
      BeginFacts(p, env, self, s0);
      var e := UploadEntries(p, env, self, 0, b);
      EntriesFacts(p, env, self, 0, b);
      assert p.entries[0..] == p.entries;
      if e.flow.Go? {
        var r := Finish(p, env, e);
        assert r == DoStartUpload(p, env, self, st);
        FinishFacts(p, env, e);
        if r.flow.Go? {
          var item := Req(CompleteSession, if p.gen.Current? then p.path else p.dest, NoData);
          CountOne(item);
          assert r.trace[|e.trace|..] == [item];
          CountSplit(s0.trace, b.trace, e.trace, CompleteSession);
          CountSplit(s0.trace, b.trace, e.trace, CancelSession);
          CountSplit(s0.trace, e.trace, r.trace, CompleteSession);
          CountSplit(s0.trace, e.trace, r.trace, CancelSession);
        }
      }
    }
  }

  /**
   * A run that returns quietly never sends `complete_session`: either the
   * dialog was dismissed, or the session was cancelled and `cancel_session`
   * was its last request.
   */
  lemma StoppedRunNeverCompletes<S>(p: Plan, env: Env, self: S, st: Upload<S>)
    ensures var r := DoStartUpload(p, env, self, st);
      r.flow.Stop? ==>
        || (env.confirm.None? && r.trace == st.trace + [Req(StartSession, p.path, PolicyData(None))])
        || (&& r.status == Cancelled && |st.trace| < |r.trace|
            && r.trace[|r.trace| - 1] == Req(CancelSession, p.path, NoData)
            && CountAction(r.trace[|st.trace|..], CompleteSession) == 0)
  {
    var s0 := st.(flow := Go);
    var b := Begin(p, env, self, s0);
    if b.flow.Go? {
      BeginFacts(p, env, self, s0);
      var e := UploadEntries(p, env, self, 0, b);
      EntriesFacts(p, env, self, 0, b);
      if e.flow.Stop? {
        assert e == DoStartUpload(p, env, self, st);
        CountSplit(s0.trace, b.trace, e.trace, CompleteSession);
      } else if e.flow.Go? {
        FinishFacts(p, env, e);
      }
    }
  }

  /** The user never cancelled, or cancelled no later than the trace length at which the session became `uploading`. */
  ghost predicate CancelOverwritten<S>(env: Env, st: Upload<S>) {
    env.cancelAt.Some? ==> env.cancelAt.value <= st.uploadingAt
  }

  /** A stream from a state whose cancel was overwritten runs as if the user had never cancelled. */
  lemma {:induction false} StreamIgnoresEarlyCancel<S>(p: Plan, env: Env, path: string, f: File, k: nat, hashed: seq<bv8>, st: Upload<S>)
    requires k <= |f.chunks| && CancelOverwritten(env, st)
    ensures Stream(p, env, path, f, k, hashed, st) == Stream(p, env.(cancelAt := None), path, f, k, hashed, st)
    ensures Stream(p, env, path, f, k, hashed, st).uploadingAt == st.uploadingAt
    decreases |f.chunks| - k
  {
    assert Check(env, st) == st == Check(env.(cancelAt := None), st);
    if st.status != Cancelled && k < |f.chunks| {
      var t := st.trace + [Req(Chunk, ChunkId(p, path), ProgressData(st.doneSize)), Raw(f.chunks[k])];
      var r := env.server(t);
      if !r.Failure? {
        StreamIgnoresEarlyCancel(p, env, path, f, k + 1, hashed + f.chunks[k], st.(trace := t, doneSize := r.progress));
      }
    }
  }

  lemma EntryIgnoresEarlyCancel<S>(p: Plan, env: Env, self: S, e: Entry, st: Upload<S>)
    requires CancelOverwritten(env, st)
    ensures UploadEntry(p, env, self, e, st) == UploadEntry(p, env.(cancelAt := None), self, e, st)
    ensures UploadEntry(p, env, self, e, st).uploadingAt == st.uploadingAt
  {
    if e.FileEntry? {
      var st0 := st.(current := Some(SliceFrom(e.path, |p.path|)));
      var (st1, r) := Ask(env, st0, Req(StartFile, p.path, PathData(e.path)));
      if !r.Failure? && !r.skip {
        StreamIgnoresEarlyCancel(p, env, e.path, e.file, 0, [], st1);
      }
    }
  }

  lemma {:induction false} EntriesIgnoreEarlyCancel<S>(p: Plan, env: Env, self: S, i: nat, st: Upload<S>)
    requires i <= |p.entries| && CancelOverwritten(env, st)
    ensures UploadEntries(p, env, self, i, st) == UploadEntries(p, env.(cancelAt := None), self, i, st)
    decreases |p.entries| - i
  {
    if i < |p.entries| && st.flow.Go? {
      EntryIgnoresEarlyCancel(p, env, self, p.entries[i], st);
      EntriesIgnoreEarlyCancel(p, env, self, i + 1, UploadEntry(p, env, self, p.entries[i], st));
    }
  }

  /**
   * `setStatus('uploading')` overwrites a cancel pressed before it: when the
   * user cancels before the session becomes `uploading`, the run goes on
   * exactly as if they had never cancelled.
   */
  lemma EarlyCancelIsOverwritten<S>(p: Plan, env: Env, self: S, st: Upload<S>)
    requires var b := Begin(p, env, self, st.(flow := Go));
      b.flow.Go? && env.cancelAt.Some? && env.cancelAt.value <= |b.trace|
    ensures DoStartUpload(p, env, self, st) == DoStartUpload(p, env.(cancelAt := None), self, st)
  {
    var b := Begin(p, env, self, st.(flow := Go));
    assert b == Begin(p, env.(cancelAt := None), self, st.(flow := Go));
    EntriesIgnoreEarlyCancel(p, env, self, 0, b);
  }

  /**
   * `redo` of a session listed once: the newer generation takes it off the
   * list before starting again, so it is listed once more; the older one
   * does not, so it ends up listed twice.
   */
  lemma RedoListing<S>(p: Plan, env: Env, self: S, st: Upload<S>)
    requires multiset(st.list)[self] == 1
    ensures var list := if p.gen.Current? then RemoveFirst(st.list, self) else st.list;
      var b := Begin(p, env, self, st.(list := list, flow := Go));
      b.flow.Go? ==> multiset(b.list)[self] == (if p.gen.Current? then 1 else 2)
  {
    var list := if p.gen.Current? then RemoveFirst(st.list, self) else st.list;
    RemoveFirstRemovesOne(st.list, self);
    ListedAfterStart(p, env, self, st.(list := list, flow := Go));
    assert multiset(list + [self]) == multiset(list) + multiset{self};
  }
}
