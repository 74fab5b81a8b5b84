/**
 * The older `WebSocketManager` (src/services/base/webSocketManager.ts).  It
 * routes messages exactly as the newer one does (module `Routing`), but its
 * `sendWithReconnect` has no queue and no single-flight guard: every send that
 * finds the socket dead runs a reconnect of its own and then writes just its
 * own frame to whatever `_ws` is by then.  Several reconnects, and so several
 * sockets, can be in flight at once.
 *
 * Every call of `sendWithReconnect` is a job.  A job waits either for the
 * socket it found connecting to open, or for its own reconnect (the URL fetch,
 * then the new socket's `open`), and finishes when its promise settles.
 */
module LegacySocketManager {
  import opened Wrappers
  import CacheMaps
  import opened Wire
  import opened Routing

  /** Where a send stands. */
  datatype Stage =
    | WaitingOpen(socket: nat)   // found `_ws` connecting; waits for that socket to open
    | Fetching                   // found `_ws` dead; its reconnect waits for `fetchNewUrl`
    | Opening(socket: nat)       // its reconnect made this socket and waits for it to open
    | Finished(ok: bool)         // its promise has resolved (`ok`) or rejected

  /** One call of `sendWithReconnect`; `reconnects` says whether it started a reconnect. */
  datatype Job = Job(msg: Message, reconnects: bool, stage: Stage)

  /** What the result of `request` is: a promise of the manager's, or the promise of the job it awaits. */
  datatype LegacyCall = Promise(id: nat) | SendPromise(job: nat)

  // ---------------------------------------------------------------------
  // Counting jobs and events.

  datatype Kind = Reconnects | InFlight | OpensSocket(g: nat)

  predicate Has(j: Job, k: Kind) {
    match k
    case Reconnects => j.reconnects
    case InFlight => j.stage.Fetching? || j.stage.Opening?
    case OpensSocket(g) => j.stage == Opening(g)
  }

  function Tally(jobs: seq<Job>, k: Kind): nat {
    if jobs == [] then 0
    else Tally(jobs[..|jobs| - 1], k) + (if Has(jobs[|jobs| - 1], k) then 1 else 0)
  }

  function Starts(events: seq<ManagerEvent>): nat {
    if events == [] then 0
    else Starts(events[..|events| - 1]) + (if events[|events| - 1].ReconnectStart? then 1 else 0)
  }

  function Ends(events: seq<ManagerEvent>): nat {
    if events == [] then 0
    else Ends(events[..|events| - 1]) + (if events[|events| - 1].ReconnectEnd? then 1 else 0)
  }

  lemma TallyAppend(jobs: seq<Job>, j: Job, k: Kind)
    ensures Tally(jobs + [j], k) == Tally(jobs, k) + (if Has(j, k) then 1 else 0)
  {
    assert (jobs + [j])[..|jobs|] == jobs;
  }

  lemma CountAppend(events: seq<ManagerEvent>, e: ManagerEvent)
    ensures Starts(events + [e]) == Starts(events) + (if e.ReconnectStart? then 1 else 0)
    ensures Ends(events + [e]) == Ends(events) + (if e.ReconnectEnd? then 1 else 0)
  {
    assert (events + [e])[..|events|] == events;
  }

  /** Replacing one job changes each tally by that job's difference. */
  lemma {:induction false} TallyUpdate(jobs: seq<Job>, i: nat, j: Job, k: Kind)
    requires i < |jobs|
    ensures Tally(jobs[i := j], k) + (if Has(jobs[i], k) then 1 else 0) == Tally(jobs, k) + (if Has(j, k) then 1 else 0)
    decreases |jobs|
  {
    var n := |jobs| - 1;
    if i < n {
      TallyUpdate(jobs[..n], i, j, k);
      assert jobs[i := j][..n] == jobs[..n][i := j];
    } else {
      assert jobs[i := j][..n] == jobs[..n];
    }
  }

  /** A job woken by the settling of socket `g`: its promise settles with `ok`. */
  function Wake(j: Job, g: nat, ok: bool): Job {
    if j.stage == WaitingOpen(g) || j.stage == Opening(g) then j.(stage := Finished(ok)) else j
  }

  function WakeAll(jobs: seq<Job>, g: nat, ok: bool): (r: seq<Job>)
    ensures |r| == |jobs|
    ensures forall i :: 0 <= i < |jobs| ==> r[i] == Wake(jobs[i], g, ok)
  {
    if jobs == [] then []
    else WakeAll(jobs[..|jobs| - 1], g, ok) + [Wake(jobs[|jobs| - 1], g, ok)]
  }

  /** The frames of the jobs at the given stage, in the order the jobs started. */
  function Resumed(jobs: seq<Job>, st: Stage): (ms: seq<Message>)
    ensures |ms| <= |jobs|
  {
    if jobs == [] then []
    else Resumed(jobs[..|jobs| - 1], st) + (if jobs[|jobs| - 1].stage == st then [jobs[|jobs| - 1].msg] else [])
  }

  /** Waking the jobs of socket `g` ends exactly the reconnect that made `g`, and no other. */
  lemma {:induction false} WakeAllTally(jobs: seq<Job>, g: nat, ok: bool)
    ensures Tally(WakeAll(jobs, g, ok), Reconnects) == Tally(jobs, Reconnects)
    ensures Tally(WakeAll(jobs, g, ok), InFlight) + Tally(jobs, OpensSocket(g)) == Tally(jobs, InFlight)
    ensures Tally(WakeAll(jobs, g, ok), OpensSocket(g)) == 0
    ensures forall h :: h != g ==> Tally(WakeAll(jobs, g, ok), OpensSocket(h)) == Tally(jobs, OpensSocket(h))
    decreases |jobs|
  {
    if jobs != [] {
      var n := |jobs| - 1;
      WakeAllTally(jobs[..n], g, ok);
      var w := WakeAll(jobs, g, ok);
      assert w[..n] == WakeAll(jobs[..n], g, ok);
    }
  }

  /** With one socket per reconnect, a socket's reconnect, if any, is the only job opening it. */
  lemma {:induction false} OpenerTally(jobs: seq<Job>, g: nat)
    requires forall i :: 0 <= i < |jobs| ==> jobs[i].stage != Opening(g)
    ensures Tally(jobs, OpensSocket(g)) == 0
    decreases |jobs|
  {
    if jobs != [] {
      OpenerTally(jobs[..|jobs| - 1], g);
    }
  }

  // ---------------------------------------------------------------------
  // The connection side.

  /**
   * The sockets made so far by generation (`_ws` is the last), the frames
   * written, every send, and the events dispatched.
   */
  datatype Link = Link(sockets: seq<ReadyState>, sent: seq<Frame>, jobs: seq<Job>, events: seq<ManagerEvent>)
  {
    function Current(): nat
      requires |sockets| > 0
    {
      |sockets| - 1
    }

    /** A job waits only for a socket that exists and is connecting, and only a reconnect fetches or opens. */
    ghost predicate JobOk(j: Job) {
      match j.stage
      case WaitingOpen(g) => g < |sockets| && sockets[g].Connecting?
      case Opening(g) => j.reconnects && g < |sockets| && sockets[g].Connecting?
      case Fetching => j.reconnects
      case Finished(_) => true
    }

    /**
     * Every job is well placed, no socket is opened by two reconnects, and
     * each reconnect dispatched one `reconnect-start` and, once it is no
     * longer in flight, exactly one `reconnect-end`.
     */
    ghost predicate Wf() {
      && |sockets| > 0
      && (forall i :: 0 <= i < |jobs| ==> JobOk(jobs[i]))
      && (forall g :: Tally(jobs, OpensSocket(g)) <= 1)
      && Starts(events) == Tally(jobs, Reconnects)
      && Ends(events) + Tally(jobs, InFlight) == Tally(jobs, Reconnects)
    }

    /**
     * `sendWithReconnect` up to its first suspension: an open `_ws` takes the
     * frame at once; a connecting one suspends the job until it opens; a dead
     * one starts a reconnect of the job's own, whatever else is in flight.
     */
    function SendWithReconnect(m: Message): (l: Link)
      requires |sockets| > 0
      ensures l.sockets == sockets && |l.jobs| == |jobs| + 1 && l.jobs[..|jobs|] == jobs
    {
      var g := Current();
      match sockets[g]
      case Open => this.(sent := sent + [Frame(g, m)], jobs := jobs + [Job(m, false, Finished(true))])
      case Connecting => this.(jobs := jobs + [Job(m, false, WaitingOpen(g))])
      case _ => this.(jobs := jobs + [Job(m, true, Fetching)], events := events + [ReconnectStart])
    }

    /** The URL fetch of job `j` settles: its new socket becomes `_ws`, or its reconnect fails and so does its send. */
    function UrlFetched(j: nat, ok: bool): Link
      requires j < |jobs| && jobs[j].stage.Fetching?
    {
      if ok then this.(sockets := sockets + [Connecting], jobs := jobs[j := jobs[j].(stage := Opening(|sockets|))])
      else this.(jobs := jobs[j := jobs[j].(stage := Finished(false))], events := events + [ReconnectEnd(false)])
    }

    /**
     * Socket `g` opens.  The reconnect that made it, if any, registered its
     * `open` listener before any job could suspend on `g`, and the microtasks
     * that listener releases run before the next listener: so that reconnect
     * reports success and its own job writes its frame first, and then the
     * jobs suspended on `g` write theirs, in order.  Each write goes to the
     * current `_ws`, which throws if that is a newer socket still connecting
     * and discards the frame if it is closed.
     */
    function Opened(g: nat): Link
      requires g < |sockets| && sockets[g].Connecting?
    {
      var socks := sockets[g := Open];
      var cur := |socks| - 1;
      var msgs := Resumed(jobs, Opening(g)) + Resumed(jobs, WaitingOpen(g));
      this.(sockets := socks,
            events := events + (if Tally(jobs, OpensSocket(g)) > 0 then [ReconnectEnd(true)] else []),
            sent := sent + (if socks[cur].Open? then Frames(cur, msgs) else []),
            jobs := WakeAll(jobs, g, !socks[cur].Connecting?))
    }

    /** Socket `g` fails to connect: the jobs suspended on it reject, and so does the reconnect that made it. */
    function Errored(g: nat): Link
      requires g < |sockets| && sockets[g].Connecting?
    {
      this.(sockets := sockets[g := Closed],
            events := events + (if Tally(jobs, OpensSocket(g)) > 0 then [ReconnectEnd(false)] else []),
            jobs := WakeAll(jobs, g, false))
    }

    /** Socket `g`, established, starts its closing handshake. */
    function BeginClosing(g: nat): Link
      requires g < |sockets| && sockets[g].Open?
    {
      this.(sockets := sockets[g := ReadyState.Closing])
    }

    /** Socket `g`, established or closing, has closed. */
    function Close(g: nat): Link
      requires g < |sockets| && !sockets[g].Connecting?
    {
      this.(sockets := sockets[g := ReadyState.Closed])
    }
  }

  function Initial(): (l: Link)
    ensures l.Wf() && l.sockets == [Connecting]
  {
    Link([Connecting], [], [], [])
  }

  // ---------------------------------------------------------------------
  // Traces of connection events.

  datatype LinkOp = SendOp(m: Message) | UrlOp(j: nat, ok: bool) | OpenOp(g: nat) | ErrorOp(g: nat) | ClosingOp(g: nat) | CloseOp(g: nat)

  predicate Enabled(l: Link, op: LinkOp) {
    match op
    case SendOp(_) => |l.sockets| > 0
    case UrlOp(j, _) => j < |l.jobs| && l.jobs[j].stage.Fetching?
    case OpenOp(g) => g < |l.sockets| && l.sockets[g].Connecting?
    case ErrorOp(g) => g < |l.sockets| && l.sockets[g].Connecting?
    case ClosingOp(g) => g < |l.sockets| && l.sockets[g].Open?
    case CloseOp(g) => g < |l.sockets| && !l.sockets[g].Connecting?
  }

  function Step(l: Link, op: LinkOp): Link
    requires Enabled(l, op)
  {
    match op
    case SendOp(m) => l.SendWithReconnect(m)
    case UrlOp(j, ok) => l.UrlFetched(j, ok)
    case OpenOp(g) => l.Opened(g)
    case ErrorOp(g) => l.Errored(g)
    case ClosingOp(g) => l.BeginClosing(g)
    case CloseOp(g) => l.Close(g)
  }

  lemma SendKeepsWf(l: Link, m: Message)
    requires l.Wf()
    ensures l.SendWithReconnect(m).Wf()
  {
    var g := l.Current();
    var l' := l.SendWithReconnect(m);
    var j := match l.sockets[g]
      case Open => Job(m, false, Finished(true))
      case Connecting => Job(m, false, WaitingOpen(g))
      case _ => Job(m, true, Fetching);
    assert l'.jobs == l.jobs + [j] && l'.sockets == l.sockets;
    assert l'.JobOk(j);
    forall i | 0 <= i < |l'.jobs| ensures l'.JobOk(l'.jobs[i]) {
      if i < |l.jobs| {
        assert l'.jobs[i] == l.jobs[i] && l.JobOk(l.jobs[i]);
      }
    }
    TallyAppend(l.jobs, j, Reconnects);
    TallyAppend(l.jobs, j, InFlight);
    forall h ensures Tally(l'.jobs, OpensSocket(h)) <= 1 {
      TallyAppend(l.jobs, j, OpensSocket(h));
    }
    if j.reconnects {
      assert l'.events == l.events + [ReconnectStart];
      CountAppend(l.events, ReconnectStart);
    } else {
      assert l'.events == l.events;
    }
  }

  lemma UrlFetchedKeepsWf(l: Link, j: nat, ok: bool)
    requires l.Wf() && j < |l.jobs| && l.jobs[j].stage.Fetching?
    ensures l.UrlFetched(j, ok).Wf()
  {
    var l' := l.UrlFetched(j, ok);
    var job := l'.jobs[j];
    TallyUpdate(l.jobs, j, job, Reconnects);
    TallyUpdate(l.jobs, j, job, InFlight);
    if ok {
      var g := |l.sockets|;
      assert forall i :: 0 <= i < |l.jobs| ==> l.jobs[i].stage != Opening(g) by {
        forall i | 0 <= i < |l.jobs| ensures l.jobs[i].stage != Opening(g) {
          assert l.JobOk(l.jobs[i]);
        }
      }
      OpenerTally(l.jobs, g);
      forall h ensures Tally(l'.jobs, OpensSocket(h)) <= 1 {
        TallyUpdate(l.jobs, j, job, OpensSocket(h));
      }
      forall i | 0 <= i < |l'.jobs| ensures l'.JobOk(l'.jobs[i]) {
        if i != j {
          assert l.JobOk(l.jobs[i]);
        }
      }
    } else {
      CountAppend(l.events, ReconnectEnd(false));
      forall h ensures Tally(l'.jobs, OpensSocket(h)) <= 1 {
        TallyUpdate(l.jobs, j, job, OpensSocket(h));
      }
      forall i | 0 <= i < |l'.jobs| ensures l'.JobOk(l'.jobs[i]) {
        if i != j {
          assert l.JobOk(l.jobs[i]);
        }
      }
    }
  }

  lemma WakeKeepsWf(l: Link, g: nat, ok: bool, l': Link, e: ManagerEvent)
    requires l.Wf() && g < |l.sockets| && l.sockets[g].Connecting?
    requires e.ReconnectEnd?
    requires |l'.sockets| == |l.sockets| && !l'.sockets[g].Connecting?
    requires forall h :: 0 <= h < |l.sockets| && h != g ==> l'.sockets[h] == l.sockets[h]
    requires l'.jobs == WakeAll(l.jobs, g, ok)
    requires l'.events == l.events + (if Tally(l.jobs, OpensSocket(g)) > 0 then [e] else [])
    ensures l'.Wf()
  {
    WakeAllTally(l.jobs, g, ok);
    forall h ensures Tally(l'.jobs, OpensSocket(h)) <= 1 {
      if h != g {
        assert Tally(l.jobs, OpensSocket(h)) <= 1;
      }
    }
    if Tally(l.jobs, OpensSocket(g)) > 0 {
      CountAppend(l.events, e);
    } else {
      assert l'.events == l.events;
    }
    forall i | 0 <= i < |l'.jobs| ensures l'.JobOk(l'.jobs[i]) {
      WakeKeepsJobOk(l, g, ok, l', l.jobs[i]);
    }
  }

  /** A job that was well placed stays so once the jobs waiting on socket `g` are woken and only `g` changed. */
  lemma WakeKeepsJobOk(l: Link, g: nat, ok: bool, l': Link, j: Job)
    requires l.JobOk(j) && g < |l.sockets| && |l'.sockets| == |l.sockets|
    requires forall h :: 0 <= h < |l.sockets| && h != g ==> l'.sockets[h] == l.sockets[h]
    ensures l'.JobOk(Wake(j, g, ok))
  {
    match j.stage
    case WaitingOpen(h) =>
      if h != g {
        assert l'.sockets[h] == l.sockets[h];
      }
    case Opening(h) =>
      if h != g {
        assert l'.sockets[h] == l.sockets[h];
      }
    case Fetching =>
    case Finished(_) =>
  }

  lemma OpenedKeepsWf(l: Link, g: nat)
    requires l.Wf() && g < |l.sockets| && l.sockets[g].Connecting?
    ensures l.Opened(g).Wf()
  {
    var l' := l.Opened(g);
    WakeKeepsWf(l, g, !l'.sockets[|l'.sockets| - 1].Connecting?, l', ReconnectEnd(true));
  }

  /** Every connection event keeps the link well formed. */
  lemma StepKeepsWf(l: Link, op: LinkOp)
    requires l.Wf() && Enabled(l, op)
    ensures Step(l, op).Wf()
  {
    match op
    case SendOp(m) => SendKeepsWf(l, m);
    case UrlOp(j, ok) => UrlFetchedKeepsWf(l, j, ok);
    case OpenOp(g) => OpenedKeepsWf(l, g);
    case ErrorOp(g) => WakeKeepsWf(l, g, false, l.Errored(g), ReconnectEnd(false));
    case ClosingOp(g) =>
      var l' := l.BeginClosing(g);
      forall i | 0 <= i < |l'.jobs| ensures l'.JobOk(l'.jobs[i]) {
        assert l.JobOk(l.jobs[i]);
      }
    case CloseOp(g) =>
      var l' := l.Close(g);
      forall i | 0 <= i < |l'.jobs| ensures l'.JobOk(l'.jobs[i]) {
        assert l.JobOk(l.jobs[i]);
      }
  }

  function Run(l: Link, ops: seq<LinkOp>): Link
    decreases |ops|
  {
    if ops == [] || !Enabled(l, ops[0]) then l else Run(Step(l, ops[0]), ops[1..])
  }

  /**
   * Over every sequence of events, each reconnect has dispatched exactly one
   * `reconnect-start`, and exactly one `reconnect-end` once it is no longer in
   * flight; so when none is in flight, starts and ends are equal in number.
   */
  lemma {:induction false} EachStartHasOneEnd(l: Link, ops: seq<LinkOp>)
    requires l.Wf()
    ensures Run(l, ops).Wf()
    ensures var r := Run(l, ops);
      Starts(r.events) == Ends(r.events) + Tally(r.jobs, InFlight)
    decreases |ops|
  {
    if ops != [] && Enabled(l, ops[0]) {
      StepKeepsWf(l, ops[0]);
      EachStartHasOneEnd(Step(l, ops[0]), ops[1..]);
    }
  }

  /** No single-flight guard: two sends on a dead socket start two reconnects of their own. */
  lemma NoSingleFlight(l: Link, m1: Message, m2: Message)
    requires l.Wf() && (l.sockets[l.Current()].Closing? || l.sockets[l.Current()].Closed?)
    ensures var l' := l.SendWithReconnect(m1).SendWithReconnect(m2);
      && l'.events == l.events + [ReconnectStart, ReconnectStart]
      && l'.jobs == l.jobs + [Job(m1, true, Fetching), Job(m2, true, Fetching)]
      && l'.sent == l.sent
  {
  }

  /**
   * A send suspended on an older socket that opens while a newer `_ws` is
   * still connecting writes nothing: its `_ws.send` throws and its promise
   * rejects.
   */
  lemma ResumedSendOnNewerSocketFails(l: Link, g: nat, i: nat)
    requires l.Wf() && g < l.Current() && l.sockets[g].Connecting? && l.sockets[l.Current()].Connecting?
    requires i < |l.jobs| && l.jobs[i].stage == WaitingOpen(g)
    ensures l.Opened(g).jobs[i].stage == Finished(false)
    ensures l.Opened(g).sent == l.sent
  {
  }

  /** One frame per job at stage `Opening(g)`. */
  lemma {:induction false} ResumedCount(jobs: seq<Job>, g: nat)
    ensures |Resumed(jobs, Opening(g))| == Tally(jobs, OpensSocket(g))
    decreases |jobs|
  {
    if jobs != [] {
      ResumedCount(jobs[..|jobs| - 1], g);
    }
  }

  /** With at most one reconnect opening socket `g`, its job is the only one resumed as opener. */
  lemma {:induction false} ResumedUnique(jobs: seq<Job>, g: nat, j: nat)
    requires j < |jobs| && jobs[j].stage == Opening(g) && Tally(jobs, OpensSocket(g)) <= 1
    ensures Resumed(jobs, Opening(g)) == [jobs[j].msg]
    decreases |jobs|
  {
    var n := |jobs| - 1;
    ResumedCount(jobs[..n], g);
    if j < n {
      assert jobs[..n][j] == jobs[j];
      ResumedUnique(jobs[..n], g, j);
    }
  }

  /**
   * When the newest socket opens, the job whose reconnect made it writes its
   * frame first, right after the reconnect reports success, and the jobs
   * suspended on that socket follow in the order they suspended.
   */
  lemma OpenerWritesFirst(l: Link, g: nat, j: nat)
    requires l.Wf() && g == l.Current() && l.sockets[g].Connecting?
    requires j < |l.jobs| && l.jobs[j].stage == Opening(g)
    ensures l.Opened(g).sent == l.sent + [Frame(g, l.jobs[j].msg)] + Frames(g, Resumed(l.jobs, WaitingOpen(g)))
    ensures l.Opened(g).events == l.events + [ReconnectEnd(true)]
  {
    ResumedUnique(l.jobs, g, j);
    ResumedCount(l.jobs, g);
    var w := Resumed(l.jobs, WaitingOpen(g));
    assert Frames(g, [l.jobs[j].msg] + w) == [Frame(g, l.jobs[j].msg)] + Frames(g, w);
  }

  // ---------------------------------------------------------------------
  // The manager.

  class WebSocketManager {
    const router: Router
    var sockets: seq<ReadyState>
    var sent: seq<Frame>
    var jobs: seq<Job>
    var events: seq<ManagerEvent>

    function LinkState(): Link
      reads this
    {
      Link(sockets, sent, jobs, events)
    }

    ghost predicate Valid()
      reads this, router, router.table
    {
      router.Valid() && LinkState().Wf()
    }

    constructor ()
      ensures Valid() && LinkState() == Initial() && fresh(router) && fresh(router.table)
      ensures router.waiters == [] && router.services == {} && router.table.State() == CacheMaps.Empty(CacheMaps.DefaultTtl)
    {
      router := new Router();
      sockets, sent, jobs, events := [Connecting], [], [], [];
    }

    /** `registerService`: a duplicate name throws and changes nothing; otherwise the service is added, with no `register` call. */
    method RegisterService(name: string) returns (threw: bool)
      requires Valid()
      modifies router
      ensures Valid()
      ensures router.waiters == old(router.waiters) && router.delivered == old(router.delivered)
      ensures threw <==> name in old(router.services)
      ensures router.services == old(router.services) + {name}
    {
      if name in router.services {
        return true;
      }
      router.services := router.services + {name};
      return false;
    }

    /** `unregisterService`. */
    method UnregisterService(name: string) returns (removed: bool)
      requires Valid()
      modifies router, router.table
      ensures Valid() && router.delivered == old(router.delivered)
      ensures var gone := Matching(old(router.table.State()), name + ":");
        && router.table.State() == old(router.table.State()).Without(gone)
        && SettledAll(old(router.waiters), router.waiters, WaitersOf(old(router.table.entries), gone), Rejected("Service unregistered"))
      ensures removed == (name in old(router.services)) && router.services == old(router.services) - {name}
    {
      removed := router.UnregisterService(name);
    }

    /** The `close` listener of socket `g`. */
    method OnClose(g: nat)
      requires Valid() && g < |sockets| && !sockets[g].Connecting?
      modifies this, router
      ensures Valid() && router.services == old(router.services) && router.delivered == old(router.delivered)
      ensures SettledAll(old(router.waiters), router.waiters, router.table.entries.Values, Rejected("WebSocket closed"))
      ensures LinkState() == old(LinkState()).Close(g)
    {
      StepKeepsWf(LinkState(), CloseOp(g));
      router.OnClose();
      sockets := sockets[g := ReadyState.Closed];
    }

    /** Socket `g` starts its closing handshake. */
    method OnClosing(g: nat)
      requires Valid() && g < |sockets| && sockets[g].Open?
      modifies this
      ensures Valid() && LinkState() == old(LinkState()).BeginClosing(g)
    {
      StepKeepsWf(LinkState(), ClosingOp(g));
      sockets := sockets[g := ReadyState.Closing];
    }

    /** The URL fetch of job `j` settles. */
    method OnUrlFetched(j: nat, ok: bool)
      requires Valid() && j < |jobs| && jobs[j].stage.Fetching?
      modifies this
      ensures Valid() && LinkState() == old(LinkState()).UrlFetched(j, ok)
    {
      StepKeepsWf(LinkState(), UrlOp(j, ok));
      if ok {
        jobs := jobs[j := jobs[j].(stage := Opening(|sockets|))];
        sockets := sockets + [Connecting];
      } else {
        jobs := jobs[j := jobs[j].(stage := Finished(false))];
        events := events + [ReconnectEnd(false)];
      }
    }

    /** Settles every job waiting on socket `g` with `ok`, collecting the frames to write, in order. */
    method WakeJobs(g: nat, ok: bool) returns (woken: seq<Job>, suspended: seq<Message>, opener: seq<Message>, reconnected: bool)
      ensures woken == WakeAll(jobs, g, ok)
      ensures suspended == Resumed(jobs, WaitingOpen(g)) && opener == Resumed(jobs, Opening(g))
      ensures reconnected <==> Tally(jobs, OpensSocket(g)) > 0
    {
      woken, suspended, opener, reconnected := [], [], [], false;
      var i := 0;
      while i < |jobs|
        invariant 0 <= i <= |jobs|
        invariant woken == WakeAll(jobs[..i], g, ok)
        invariant suspended == Resumed(jobs[..i], WaitingOpen(g)) && opener == Resumed(jobs[..i], Opening(g))
        invariant reconnected <==> Tally(jobs[..i], OpensSocket(g)) > 0
      {
        assert jobs[..i + 1][..i] == jobs[..i];
        var job := jobs[i];
        if job.stage == WaitingOpen(g) {
          suspended := suspended + [job.msg];
        } else if job.stage == Opening(g) {
          opener := opener + [job.msg];
          reconnected := true;
        }
        woken := woken + [Wake(job, g, ok)];
        i := i + 1;
      }
      assert jobs[..i] == jobs;
    }

    /** Socket `g` opens. */
    method OnOpen(g: nat)
      requires Valid() && g < |sockets| && sockets[g].Connecting?
      modifies this
      ensures Valid() && LinkState() == old(LinkState()).Opened(g)
    {
      ghost var l := LinkState();
      var socks := sockets[g := Open];
      var cur := |socks| - 1;
      var woken, suspended, opener, reconnected := WakeJobs(g, !socks[cur].Connecting?);
      var evs, out := events, sent;
      if reconnected {
        evs := evs + [ReconnectEnd(true)];
      }
      if socks[cur].Open? {
        out := out + Frames(cur, opener + suspended);
      }
      OpenedKeepsWf(l, g);
      ghost var next := l.Opened(g);
      assert next.sockets == socks && next.jobs == woken;
      assert next.events == evs;
      assert next.sent == out;
      sockets, sent, jobs, events := socks, out, woken, evs;
      assert LinkState() == next;
    }

    /** Socket `g` fails to connect. */
    method OnError(g: nat)
      requires Valid() && g < |sockets| && sockets[g].Connecting?
      modifies this
      ensures Valid() && LinkState() == old(LinkState()).Errored(g)
    {
      ghost var next := LinkState().Errored(g);
      WakeKeepsWf(LinkState(), g, false, next, ReconnectEnd(false));
      var woken, _, _, reconnected := WakeJobs(g, false);
      if reconnected {
        events := events + [ReconnectEnd(false)];
      }
      sockets := sockets[g := ReadyState.Closed];
      jobs := woken;
      assert LinkState() == next;
    }

    /** `sendWithReconnect`, up to its first suspension; `job` is the index of the new job. */
    method SendWithReconnect(m: Message) returns (job: nat)
      requires Valid()
      modifies this
      ensures Valid() && LinkState() == old(LinkState()).SendWithReconnect(m) && job == |old(jobs)|
    {
      ghost var next := LinkState().SendWithReconnect(m);
      SendKeepsWf(LinkState(), m);
      job := |jobs|;
      var g := |sockets| - 1;
      if sockets[g].Open? {
        sent := sent + [Frame(g, m)];
        jobs := jobs + [Job(m, false, Finished(true))];
      } else if sockets[g].Connecting? {
        jobs := jobs + [Job(m, false, WaitingOpen(g))];
      } else {
        jobs := jobs + [Job(m, true, Fetching)];
        events := events + [ReconnectStart];
      }
      assert LinkState() == next;
    }

    /**
     * `request`, an `async` function: an unregistered service yields a
     * rejected promise; without a response the result settles with the
     * awaited send; with one, the promise is stored under the message's key
     * before the send starts.
     */
    method Request(m: Message, noResponse: bool) returns (r: LegacyCall)
      requires Valid()
      modifies this, router, router.table
      ensures Valid() && router.services == old(router.services) && router.delivered == old(router.delivered)
      ensures m.service !in old(router.services) ==>
        && r == Promise(|old(router.waiters)|)
        && router.waiters == old(router.waiters) + [Rejected("Service " + m.service + " not registered")]
        && LinkState() == old(LinkState()) && router.table.State() == old(router.table.State())
      ensures m.service in old(router.services) && noResponse ==>
        && r == SendPromise(|old(jobs)|)
        && LinkState() == old(LinkState()).SendWithReconnect(m)
        && router.waiters == old(router.waiters) && router.table.State() == old(router.table.State())
      ensures m.service in old(router.services) && !noResponse ==>
        && r == Promise(|old(router.waiters)|)
        && router.waiters == old(router.waiters) + [Pending]
        && router.table.State() == old(router.table.State()).Set(MessageKey(m), |old(router.waiters)|)
        && LinkState() == old(LinkState()).SendWithReconnect(m)
    {
      if m.service !in router.services {
        var id := router.NewPromise(Rejected("Service " + m.service + " not registered"));
        return Promise(id);
      }
      if noResponse {
        var job := SendWithReconnect(m);
        return SendPromise(job);
      }
      var id := router.NewPromise(Pending);
      router.Expect(MessageKey(m), id);
      var _ := SendWithReconnect(m);
      return Promise(id);
    }
  }
}
