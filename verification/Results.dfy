/**
 The result document of a job and the events its posts give rise to.

 A post sets the keys it carries and leaves the others; events come from comparing the post with the
 document as it was just before.
 */
module Results {
  import opened Basics

  datatype JobState =
    | Waiting | Running | InPhase(phase: Phase) | Allocated | Cancelled | Complete | Completed
    | Unlisted(name: string)

  predicate IsTerminal(s: JobState) { s in {Complete, Completed, Cancelled} }

  predicate IsDone(s: Option<JobState>) { s == Some(Complete) || s == Some(Completed) }

  /** Exit codes by phase, in insertion order. */
  type Status = seq<(Phase, int)>

  predicate HasPhase(st: Status, p: Phase) {
    exists i :: 0 <= i < |st| && st[i].0 == p
  }

  datatype ResultData = ResultData(
    state: Option<JobState>, changedAt: Option<int>, status: Option<Status>,
    deviceInfo: Option<string>, agentId: Option<string>)

  datatype Post = Post(
    state: Option<JobState>, status: Option<Status>, deviceInfo: Option<string>, agentId: Option<string>)

  function OrElse<T>(a: Option<T>, b: Option<T>): Option<T> {
    if a.Some? then a else b
  }

  /** Per key, the post wins; the timestamp moves only when the state really changes. */
  function UpdateResults(rd: ResultData, post: Post, now: int): ResultData {
    ResultData(
      OrElse(post.state, rd.state),
      if post.state.Some? && post.state != rd.state then Some(now) else rd.changedAt,
      OrElse(post.status, rd.status),
      OrElse(post.deviceInfo, rd.deviceInfo),
      OrElse(post.agentId, rd.agentId))
  }

  datatype Event =
    | PhaseStarted(phase: Phase) | PhaseCompleted(phase: Phase, exitCode: int) | JobCompleted

  function StatusOf(s: Option<Status>): Status {
    if s.Some? then s.value else []
  }

  /** One event for each phase that the post reports and the document did not know. */
  function PhaseCompletedEvents(before: Status, reported: Status): seq<Event> {
    if reported == [] then []
    else
      var n := |reported| - 1;
      PhaseCompletedEvents(before, reported[..n])
      + if HasPhase(before, reported[n].0) then [] else [PhaseCompleted(reported[n].0, reported[n].1)]
  }

  function LifecycleEvents(before: Option<JobState>, posted: Option<JobState>): seq<Event> {
    match posted
    case None => []
    case Some(s) =>
      if IsDone(posted) then (if IsDone(before) then [] else [JobCompleted])
      else if s.InPhase? && posted != before then [PhaseStarted(s.phase)]
      else []
  }

  function DetectNewResultEvents(before: ResultData, post: Post): seq<Event> {
    PhaseCompletedEvents(StatusOf(before.status), StatusOf(post.status)) + LifecycleEvents(before.state, post.state)
  }
}
