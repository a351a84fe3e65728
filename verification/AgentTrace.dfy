/**
 What an agent does, as others see it: each step is a read, a post, a phase that ran or a request for work, with
 what the administrator and the supervisor did just before it.
 */
module AgentTrace {
  import opened Basics

  datatype AgentState = Waiting | Offline | Maintenance | Restart | Busy(phase: Phase)

  predicate IsDown(s: AgentState) { s == Offline || s == Maintenance }

  /** The agent's record on the server. */
  datatype Status = Status(state: AgentState, comment: string)

  datatype Move = Signal | SetStatus(status: Status)

  datatype Place = Startup | Idle | BeforeWork | BeforePhase | AfterJob

  datatype PhaseRun = Exits(code: int) | Raises

  /** What a request for work brings: a job may fail before its phases, with or without a directory to clean up in. */
  datatype Grant = NoJob | FailsEarly(hasDirectory: bool) | Works

  const RECOVERY_FAILED := 46

  datatype Act =
    /** A read of the record, to check for an offline request or for a restart request; it may fail. */
    | Looked(place: Place, forOffline: bool, reply: Option<Status>)
    | Posted(status: Status, arrived: bool)
    /** A status just read, posted back. */
    | Heartbeat(status: Status, arrived: bool)
    | JobChecked(cancelled: bool)
    | Ran(phase: Phase, outcome: PhaseRun)
    | Asked(grant: Grant)

  datatype Step = Step(moves: seq<Move>, act: Act)

  /** Everything the agent does not control, by the number of steps it has taken. */
  datatype World = World(
    moves: nat -> seq<Move>, readOk: nat -> bool, postOk: nat -> bool, heartbeatDue: nat -> bool,
    cancels: nat -> bool, runs: nat -> PhaseRun, cleanups: nat -> int, grants: nat -> Grant)

  // ---------------------------------------------------------------------------------------------
  // The server's side
  // ---------------------------------------------------------------------------------------------

  function MovedBy(s: Status, ms: seq<Move>): Status {
    if ms == [] then s
    else if ms[|ms| - 1].SetStatus? then ms[|ms| - 1].status
    else MovedBy(s, ms[..|ms| - 1])
  }

  /** An administrator takes the record away from offline or maintenance. */
  predicate LeavesDown(s: Status, ms: seq<Move>) {
    ms != [] &&
    var init, last := ms[..|ms| - 1], ms[|ms| - 1];
    LeavesDown(s, init) || (IsDown(MovedBy(s, init).state) && last.SetStatus? && !IsDown(last.status.state))
  }

  function ActedOn(s: Status, act: Act): Status {
    match act
    case Posted(status, true) => status
    case Heartbeat(status, true) => status
    case _ => s
  }

  function ServerAfter(s0: Status, t: seq<Step>): Status {
    if t == [] then s0
    else ActedOn(MovedBy(ServerAfter(s0, t[..|t| - 1]), t[|t| - 1].moves), t[|t| - 1].act)
  }

  predicate Truthful(w: World, n: nat, server: Status, act: Act) {
    match act
    case Looked(_, _, reply) => reply == if w.readOk(n) then Some(server) else None
    case Posted(_, arrived) => arrived == w.postOk(n)
    case Heartbeat(_, arrived) => arrived == w.postOk(n)
    case JobChecked(cancelled) => cancelled == w.cancels(n)
    case Ran(phase, outcome) => outcome == if phase == Cleanup then Exits(w.cleanups(n)) else w.runs(n)
    case Asked(grant) => grant == NoJob || grant == w.grants(n)
  }

  /** The history is what this world gives: every move, every reply, every lost post, every exit code. */
  predicate Faithful(w: World, s0: Status, t: seq<Step>) {
    t == [] ||
    var init, last := t[..|t| - 1], t[|t| - 1];
    && Faithful(w, s0, init)
    && last.moves == w.moves(|init|)
    && Truthful(w, |init|, MovedBy(ServerAfter(s0, init), last.moves), last.act)
  }

  // ---------------------------------------------------------------------------------------------
  // Requests
  // ---------------------------------------------------------------------------------------------

  predicate SeesDown(act: Act) {
    act.Looked? && act.forOffline && act.reply.Some? && IsDown(act.reply.value.state)
  }

  /** Only the phases before the cleanup ask for the agent to go offline. */
  predicate RecoveryFails(act: Act) { act.Ran? && act.phase != Cleanup && act.outcome == Exits(RECOVERY_FAILED) }

  predicate IsRequest(act: Act) { SeesDown(act) || RecoveryFails(act) }

  predicate GoesOffline(act: Act) { act.Posted? && act.status.state == Offline }

  /** The agent has an offline request in hand that it has not yet acted on. */
  predicate Known(t: seq<Step>) {
    t != [] &&
    var init, act := t[..|t| - 1], t[|t| - 1].act;
    if GoesOffline(act) then false
    else RecoveryFails(act) || (SeesDown(act) && act.place in {BeforeWork, BeforePhase, AfterJob}) || Known(init)
  }

  /** The only ways an offline request ends: an administrator, a failed read, a lost post. */
  predicate IsRelease(s0: Status, init: seq<Step>, last: Step) {
    || LeavesDown(ServerAfter(s0, init), last.moves)
    || (last.act.Looked? && last.act.forOffline && last.act.reply.None? && !Known(init))
    || (GoesOffline(last.act) && !last.act.arrived)
  }

  predicate OfflineOwed(s0: Status, t: seq<Step>) {
    t != [] &&
    var init, last := t[..|t| - 1], t[|t| - 1];
    IsRequest(last.act) || (!IsRelease(s0, init, last) && OfflineOwed(s0, init))
  }

  predicate SeesRestart(act: Act) { act.Looked? && act.reply.Some? && act.reply.value.state == Restart }

  /** A restart that is read counts if it is looked for, and before work only if no offline request is in hand. */
  predicate Heeds(init: seq<Step>, act: Act) {
    SeesRestart(act) && !act.forOffline && (act.place == BeforePhase || (act.place == BeforeWork && !Known(init)))
  }

  /** A restart is to be done. */
  predicate RestartOwed(t: seq<Step>) {
    t != [] &&
    var init, last := t[..|t| - 1], t[|t| - 1];
    RestartOwed(init) || Signal in last.moves || Heeds(init, last.act)
  }

  // ---------------------------------------------------------------------------------------------
  // What the agent may do
  // ---------------------------------------------------------------------------------------------

  /** Since it last did anything else, the agent has looked for an offline request. */
  predicate Watched(t: seq<Step>) {
    t != [] &&
    match t[|t| - 1].act
    case Looked(_, forOffline, _) => forOffline || Watched(t[..|t| - 1])
    case Heartbeat(_, _) => Watched(t[..|t| - 1])
    case _ => false
  }

  predicate WatchedRestart(t: seq<Step>) {
    t != [] &&
    match t[|t| - 1].act
    case Looked(_, forOffline, _) => !forOffline || WatchedRestart(t[..|t| - 1])
    case Heartbeat(_, _) => WatchedRestart(t[..|t| - 1])
    case _ => false
  }

  /** Since it last asked for work, the agent looked for an offline request, and then owed no restart. */
  predicate Cleared(t: seq<Step>) {
    t != [] &&
    match t[|t| - 1].act
    case Looked(_, forOffline, _) => !RestartOwed(t) && (forOffline || Cleared(t[..|t| - 1]))
    case Heartbeat(_, _) => !RestartOwed(t) && Cleared(t[..|t| - 1])
    case Asked(_) => false
    case _ => Cleared(t[..|t| - 1])
  }

  predicate ComesUp(t: seq<Step>) {
    t != [] &&
    match t[|t| - 1].act
    case Looked(Startup, false, reply) => reply.None? || reply.value.state != Offline
    case Heartbeat(_, _) => ComesUp(t[..|t| - 1])
    case _ => false
  }

  predicate Ended(t: seq<Step>) { t != [] && t[|t| - 1].act.Posted? && t[|t| - 1].act.status.state == Restart }

  predicate Allowed(s0: Status, t: seq<Step>, act: Act) {
    !Ended(t) &&
    match act
    case Asked(_) => !OfflineOwed(s0, t) && !Known(t) && Cleared(t)
    case Heartbeat(status, _) => t != [] && t[|t| - 1].act.Looked? && t[|t| - 1].act.reply == Some(status)
    case Posted(status, _) =>
      (match status.state
       case Offline => Known(t)
       case Maintenance => false
       case Restart => !OfflineOwed(s0, t) && !Known(t) && RestartOwed(t)
       case Waiting => !OfflineOwed(s0, t) && !Known(t) && (ComesUp(t) || Watched(t))
       case Busy(_) => (Known(t) || (Watched(t) && !OfflineOwed(s0, t))) && (RestartOwed(t) || WatchedRestart(t)))
    case _ => true
  }

  predicate Safe(s0: Status, t: seq<Step>) {
    t == [] || (Safe(s0, t[..|t| - 1]) && Allowed(s0, t[..|t| - 1], t[|t| - 1].act))
  }

  // ---------------------------------------------------------------------------------------------
  // One more step
  // ---------------------------------------------------------------------------------------------

  lemma StepUnfolds(w: World, s0: Status, t: seq<Step>, s: Step)
    ensures (t + [s])[..|t|] == t && (t + [s])[|t|] == s
    ensures ServerAfter(s0, t + [s]) == ActedOn(MovedBy(ServerAfter(s0, t), s.moves), s.act)
    ensures Faithful(w, s0, t + [s]) <==> Faithful(w, s0, t) && s.moves == w.moves(|t|)
                                          && Truthful(w, |t|, MovedBy(ServerAfter(s0, t), s.moves), s.act)
    ensures Safe(s0, t + [s]) <==> Safe(s0, t) && Allowed(s0, t, s.act)
  {
    assert (t + [s])[..|t|] == t;
  }

  lemma {:induction false} DownUntilLeft(s: Status, ms: seq<Move>)
    requires IsDown(s.state) && !LeavesDown(s, ms)
    ensures IsDown(MovedBy(s, ms).state)
  {
    if ms != [] {
      DownUntilLeft(s, ms[..|ms| - 1]);
    }
  }

  lemma {:induction false} LeavingIsAMove(s: Status, ms: seq<Move>)
    requires LeavesDown(s, ms)
    ensures exists m :: m in ms && m.SetStatus? && !IsDown(m.status.state)
  {
    var init, last := ms[..|ms| - 1], ms[|ms| - 1];
    if LeavesDown(s, init) {
      LeavingIsAMove(s, init);
      var m :| m in init && m.SetStatus? && !IsDown(m.status.state);
      assert m in ms;
    } else {
      assert last in ms;
    }
  }

  /** The world refused this read, lost this post, or an administrator moved the record just before. */
  predicate WorldReleases(w: World, n: nat, act: Act) {
    || (act.Looked? && !w.readOk(n))
    || (GoesOffline(act) && !w.postOk(n))
    || AdminRaises(w, n)
  }

  predicate AdminRaises(w: World, n: nat) {
    exists m <- w.moves(n) :: m.SetStatus? && !IsDown(m.status.state)
  }

  lemma ReleaseIsReal(w: World, s0: Status, init: seq<Step>, last: Step)
    requires Faithful(w, s0, init + [last]) && IsRelease(s0, init, last)
    ensures WorldReleases(w, |init|, last.act)
  {
    StepUnfolds(w, s0, init, last);
    if LeavesDown(ServerAfter(s0, init), last.moves) {
      LeavingIsAMove(ServerAfter(s0, init), last.moves);
    }
  }

  lemma {:induction false} PrefixFaithful(w: World, s0: Status, t: seq<Step>, n: nat)
    requires Faithful(w, s0, t) && n <= |t|
    ensures Faithful(w, s0, t[..n])
    decreases |t|
  {
    if n == |t| {
      assert t[..n] == t;
    } else {
      PrefixFaithful(w, s0, t[..|t| - 1], n);
      assert t[..|t| - 1][..n] == t[..n];
    }
  }

  lemma ReleaseAt(w: World, s0: Status, t: seq<Step>, k: nat)
    requires Faithful(w, s0, t) && k < |t| && IsRelease(s0, t[..k], t[k])
    ensures WorldReleases(w, k, t[k].act)
  {
    assert t[..k + 1] == t[..k] + [t[k]];
    PrefixFaithful(w, s0, t, k + 1);
    ReleaseIsReal(w, s0, t[..k], t[k]);
  }

  lemma {:induction false} SafeAt(s0: Status, t: seq<Step>, j: nat)
    requires Safe(s0, t) && j < |t|
    ensures Safe(s0, t[..j]) && Allowed(s0, t[..j], t[j].act)
    decreases |t|
  {
    if j < |t| - 1 {
      SafeAt(s0, t[..|t| - 1], j);
      assert t[..|t| - 1][..j] == t[..j];
    }
  }

  // ---------------------------------------------------------------------------------------------
  // An offline request is kept
  // ---------------------------------------------------------------------------------------------

  /** A request that stands is in the agent's hands or on the server. */
  predicate Kept(s0: Status, t: seq<Step>) {
    OfflineOwed(s0, t) ==> Known(t) || IsDown(ServerAfter(s0, t).state)
  }

  lemma KeptStep(w: World, s0: Status, t: seq<Step>, s: Step)
    requires Faithful(w, s0, t + [s]) && Safe(s0, t + [s]) && Kept(s0, t)
    requires t != [] && t[|t| - 1].act.Looked? && t[|t| - 1].act.reply.Some? ==>
               ServerAfter(s0, t) == t[|t| - 1].act.reply.value
    ensures Kept(s0, t + [s])
  {
    StepUnfolds(w, s0, t, s);
    if OfflineOwed(s0, t) && !IsRelease(s0, t, s) && IsDown(ServerAfter(s0, t).state) {
      DownUntilLeft(ServerAfter(s0, t), s.moves);
    }
  }

  lemma LookShowsServer(w: World, s0: Status, t: seq<Step>)
    requires Faithful(w, s0, t) && t != [] && t[|t| - 1].act.Looked? && t[|t| - 1].act.reply.Some?
    ensures ServerAfter(s0, t) == t[|t| - 1].act.reply.value
  {
  }

  lemma {:induction false} SafeIsKept(w: World, s0: Status, t: seq<Step>)
    requires Faithful(w, s0, t) && Safe(s0, t)
    ensures Kept(s0, t)
  {
    if t != [] {
      var init, last := t[..|t| - 1], t[|t| - 1];
      SafeIsKept(w, s0, init);
      assert t == init + [last];
      if init != [] && init[|init| - 1].act.Looked? && init[|init| - 1].act.reply.Some? {
        LookShowsServer(w, s0, init);
      }
      KeptStep(w, s0, init, last);
    }
  }

  lemma {:induction false} OwedUnlessReleased(s0: Status, t: seq<Step>, i: nat)
    requires i < |t| && IsRequest(t[i].act) && !OfflineOwed(s0, t)
    ensures exists k :: i < k < |t| && IsRelease(s0, t[..k], t[k])
  {
    var n := |t| - 1;
    if i < n && !IsRelease(s0, t[..n], t[n]) {
      OwedUnlessReleased(s0, t[..n], i);
      var k :| i < k < n && IsRelease(s0, t[..n][..k], t[..n][k]);
      assert t[..n][..k] == t[..k];
    }
  }

  /**
   After a check has seen the agent offline, or a phase has failed to recover, it asks for a job only if an
   administrator, a failed read or a lost post came in between.
   */
  lemma NoWorkWhileOffline(w: World, s0: Status, t: seq<Step>, i: nat, j: nat)
    requires Faithful(w, s0, t) && Safe(s0, t)
    requires i < j < |t| && IsRequest(t[i].act) && t[j].act.Asked?
    ensures exists k :: i < k < j && WorldReleases(w, k, t[k].act)
  {
    SafeAt(s0, t, j);
    OwedUnlessReleased(s0, t[..j], i);
    var k :| i < k < j && IsRelease(s0, t[..j][..k], t[..j][k]);
    assert t[..j][..k] == t[..k];
    ReleaseAt(w, s0, t, k);
  }

  lemma {:induction false} KnownSince(t: seq<Step>) returns (i: nat)
    requires Known(t)
    ensures i < |t| && IsRequest(t[i].act) && forall k :: i < k < |t| ==> !GoesOffline(t[k].act)
  {
    var n := |t| - 1;
    if Known(t[..n]) && !IsRequest(t[n].act) {
      i := KnownSince(t[..n]);
      assert forall k :: i < k < n ==> t[k] == t[..n][k];
    } else {
      i := n;
    }
  }

  /** The agent takes itself offline only for a request it has not yet acted on. */
  lemma OfflineOnlyOnRequest(s0: Status, t: seq<Step>, j: nat) returns (i: nat)
    requires Safe(s0, t) && j < |t| && GoesOffline(t[j].act)
    ensures i < j && IsRequest(t[i].act) && forall k :: i < k < j ==> !GoesOffline(t[k].act)
  {
    SafeAt(s0, t, j);
    i := KnownSince(t[..j]);
    assert forall k :: i < k < j ==> t[k] == t[..j][k];
  }

  predicate LooksForOffline(act: Act) { act.Looked? && act.forOffline }

  lemma {:induction false} ClearedSince(t: seq<Step>) returns (k: nat)
    requires Cleared(t)
    ensures k < |t| && t[k].act.Looked? && t[k].act.forOffline && !RestartOwed(t[..k + 1])
    ensures forall l :: k <= l < |t| ==> !t[l].act.Asked?
    ensures forall l :: k < l < |t| ==> !LooksForOffline(t[l].act)
  {
    var n := |t| - 1;
    if t[n].act.Looked? && t[n].act.forOffline {
      k := n;
      assert t[..n + 1] == t;
    } else {
      k := ClearedSince(t[..n]);
      assert t[..n][..k + 1] == t[..k + 1];
      assert forall l :: k <= l < n ==> t[l] == t[..n][l];
    }
  }

  /** Before every request for work the agent looks whether it is to go offline, each time anew. */
  lemma LooksBeforeWork(s0: Status, t: seq<Step>, j: nat) returns (k: nat)
    requires Safe(s0, t) && j < |t| && t[j].act.Asked?
    ensures k < j && t[k].act.Looked? && t[k].act.forOffline && !RestartOwed(t[..k + 1])
    ensures forall l :: k <= l < j ==> !t[l].act.Asked?
    ensures forall l :: k < l < j ==> !LooksForOffline(t[l].act)
  {
    SafeAt(s0, t, j);
    k := ClearedSince(t[..j]);
    assert t[..j][..k + 1] == t[..k + 1];
    assert forall l :: k <= l < j ==> t[l] == t[..j][l];
  }

  // ---------------------------------------------------------------------------------------------
  // A restart is kept
  // ---------------------------------------------------------------------------------------------

  lemma {:induction false} RestartStays(t: seq<Step>, i: nat, k: nat)
    requires i <= k <= |t| && RestartOwed(t[..i])
    ensures RestartOwed(t[..k])
    decreases k
  {
    if i < k {
      RestartStays(t, i, k - 1);
      assert t[..k][..k - 1] == t[..k - 1];
    }
  }

  /** Once a restart is owed the agent asks for work at most once more. */
  lemma NoWorkBeforeRestart(s0: Status, t: seq<Step>, i: nat, j: nat, l: nat)
    requires Safe(s0, t) && i <= j < l < |t| && RestartOwed(t[..i]) && t[j].act.Asked?
    ensures !t[l].act.Asked?
  {
    if t[l].act.Asked? {
      var k := LooksBeforeWork(s0, t, l);
      assert j < k;
      RestartStays(t, i, k + 1);
      assert false;
    }
  }

  /** Once the agent has checked with a restart owed, it asks for no more work at all. */
  lemma NoWorkAfterDecision(s0: Status, t: seq<Step>, k: nat, j: nat)
    requires Safe(s0, t) && k < j < |t| && LooksForOffline(t[k].act) && RestartOwed(t[..k + 1])
    ensures !t[j].act.Asked?
  {
    if t[j].act.Asked? {
      var l := LooksBeforeWork(s0, t, j);
      assert k <= l;
      RestartStays(t, k + 1, l + 1);
      assert false;
    }
  }

  /** A restart that is read becomes owed exactly if it was looked for, and not put off by an offline request. */
  lemma SeenRestartOwedIff(t: seq<Step>, s: Step)
    requires !RestartOwed(t) && Signal !in s.moves && SeesRestart(s.act)
    ensures RestartOwed(t + [s])
       <==> !s.act.forOffline && (s.act.place == BeforePhase || (s.act.place == BeforeWork && !Known(t)))
  {
    assert (t + [s])[..|t|] == t;
  }
}
