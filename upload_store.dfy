/**
 * The upload list of src/stores/webShellUpload.ts: `clearIdleSessions`
 * keeps the sessions that are still preparing, pending or uploading and
 * drops the rest, in order.
 */
module UploadStore {
  import opened Uploads

  /** `keepStatuses`. */
  const KeepStatuses: seq<Status> := [Preparing, Pending, Uploading]

  /** `keepStatuses.includes(status)`. */
  predicate Busy(status: Status) {
    status in KeepStatuses
  }

  /** `sessions.filter(s => keepStatuses.includes(s.status))`, with `statusOf` reading each session's status. */
  function ClearIdleSessions<S>(sessions: seq<S>, statusOf: S -> Status): seq<S> {
    if sessions == [] then []
    else (if Busy(statusOf(sessions[0])) then [sessions[0]] else []) + ClearIdleSessions(sessions[1..], statusOf)
  }

  /** `sub` is `s` with some elements left out and the rest in order. */
  ghost predicate IsSubsequence<S>(sub: seq<S>, s: seq<S>) {
    if sub == [] then true
    else if s == [] then false
    else (sub[0] == s[0] && IsSubsequence(sub[1..], s[1..])) || IsSubsequence(sub, s[1..])
  }

  /** The busy statuses are exactly preparing, pending and uploading. */
  lemma BusyStatuses(status: Status)
    ensures Busy(status) <==> status == Preparing || status == Pending || status == Uploading
  {
  }

  /**
   * Every session keeps its multiplicity if it is busy and disappears if
   * not: all kept sessions are busy, and every busy session is kept.
   */
  lemma {:induction false} ClearIdleKeepsExactlyBusy<S>(sessions: seq<S>, statusOf: S -> Status)
    ensures forall x :: multiset(ClearIdleSessions(sessions, statusOf))[x] ==
                        if Busy(statusOf(x)) then multiset(sessions)[x] else 0
  {
    if sessions != [] {
      ClearIdleKeepsExactlyBusy(sessions[1..], statusOf);
      assert sessions == [sessions[0]] + sessions[1..];
    }
  }

  /** The result keeps the order of the list it came from. */
  lemma {:induction false} ClearIdleIsSubsequence<S>(sessions: seq<S>, statusOf: S -> Status)
    ensures IsSubsequence(ClearIdleSessions(sessions, statusOf), sessions)
  {
    if sessions != [] {
      ClearIdleIsSubsequence(sessions[1..], statusOf);
      var rest := ClearIdleSessions(sessions[1..], statusOf);
      if Busy(statusOf(sessions[0])) {
        assert ([sessions[0]] + rest)[1..] == rest;
      } else {
        assert [] + rest == rest;
      }
    }
  }

  /** Clearing twice clears no more than clearing once. */
  lemma {:induction false} ClearIdleIdempotent<S>(sessions: seq<S>, statusOf: S -> Status)
    ensures ClearIdleSessions(ClearIdleSessions(sessions, statusOf), statusOf) == ClearIdleSessions(sessions, statusOf)
  {
    if sessions != [] {
      ClearIdleIdempotent(sessions[1..], statusOf);
      var rest := ClearIdleSessions(sessions[1..], statusOf);
      if Busy(statusOf(sessions[0])) {
        assert ([sessions[0]] + rest)[0] == sessions[0];
        assert ([sessions[0]] + rest)[1..] == rest;
      } else {
        assert [] + rest == rest;
      }
    }
  }
}
