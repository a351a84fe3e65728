/**
 What the agent's whole life guarantees: offline and restart requests are kept in its hands or on the server, and
 acted on before any more work.
 */
module AgentLife {
  import opened Basics
  import opened AgentTrace
  import opened Agent

  /** The history is what the world gave, the record is what it left, and every act was allowed. */
  predicate Sound(w: World, s0: Status, a: State) {
    && Faithful(w, s0, a.trace)
    && a.server == ServerAfter(s0, a.trace)
    && Safe(s0, a.trace)
  }

  predicate RestartInHand(a: State) { a.flags.needsRestart == RestartOwed(a.trace) }

  /** The flags say exactly what the history asks for. */
  predicate InHand(a: State) { a.flags.needsOffline == Known(a.trace) && RestartInHand(a) }

  lemma {:induction false} SignalledMeans(f: Flags, ms: seq<Move>)
    ensures Signalled(f, ms).needsOffline == f.needsOffline
    ensures Signalled(f, ms).needsRestart == (f.needsRestart || Signal in ms)
  {
    if ms != [] {
      var n := |ms| - 1;
      SignalledMeans(f, ms[..n]);
      assert ms == ms[..n] + [ms[n]];
      UpdateKeeps(Signalled(f, ms[..n]), SIGNAL_COMMENT, true, Signalled(f, ms[..n]).needsOffline);
    }
  }

  // ---------------------------------------------------------------------------------------------
  // Single steps
  // ---------------------------------------------------------------------------------------------

  lemma TookSound(w: World, s0: Status, a: State, act: Act)
    requires Sound(w, s0, a) && Allowed(s0, a.trace, act)
    requires Truthful(w, |a.trace|, Interfered(w, a).server, act)
    ensures var b, n := Took(w, a, act), |a.trace|;
      && Sound(w, s0, b)
      && |b.trace| == n + 1 && b.trace[..n] == a.trace && b.trace[n] == Step(w.moves(n), act)
      && b.flags.needsOffline == a.flags.needsOffline
      && b.flags.needsRestart == (a.flags.needsRestart || Signal in w.moves(n))
  {
    StepUnfolds(w, s0, a.trace, Step(w.moves(|a.trace|), act));
    SignalledMeans(a.flags, w.moves(|a.trace|));
  }

  lemma PostSound(w: World, s0: Status, a: State, status: Status)
    requires Sound(w, s0, a) && RestartInHand(a) && Allowed(s0, a.trace, Posted(status, w.postOk(|a.trace|)))
    ensures var b := Post(w, a, status);
      && Sound(w, s0, b) && RestartInHand(b)
      && b.flags.needsOffline == a.flags.needsOffline
      && Known(b.trace) == (status.state != Offline && Known(a.trace))
      && (OfflineOwed(s0, b.trace) ==> OfflineOwed(s0, a.trace) && (status.state == Offline ==> b.server == status))
      && Cleared(b.trace) == Cleared(a.trace)
      && Ended(b.trace) == (status.state == Restart)
  {
    TookSound(w, s0, a, Posted(status, w.postOk(|a.trace|)));
  }

  lemma JobCheckSound(w: World, s0: Status, a: State)
    requires Sound(w, s0, a) && InHand(a) && !Ended(a.trace)
    ensures var b := Took(w, a, JobChecked(w.cancels(|a.trace|)));
      Sound(w, s0, b) && InHand(b) && !Ended(b.trace)
  {
    TookSound(w, s0, a, JobChecked(w.cancels(|a.trace|)));
  }

  lemma HeartbeatSound(w: World, s0: Status, a: State, status: Status)
    requires Sound(w, s0, a) && !Ended(a.trace)
    requires a.trace != [] && a.trace[|a.trace| - 1].act.Looked? && a.trace[|a.trace| - 1].act.reply == Some(status)
    ensures var b := Took(w, a, Heartbeat(status, w.postOk(|a.trace|)));
      && Sound(w, s0, b) && !Ended(b.trace)
      && b.flags.needsOffline == a.flags.needsOffline
      && b.flags.needsRestart == (a.flags.needsRestart || Signal in w.moves(|a.trace|))
      && RestartOwed(b.trace) == (RestartOwed(a.trace) || Signal in w.moves(|a.trace|))
      && Known(b.trace) == Known(a.trace)
      && (OfflineOwed(s0, b.trace) ==> OfflineOwed(s0, a.trace))
      && Watched(b.trace) == Watched(a.trace) && WatchedRestart(b.trace) == WatchedRestart(a.trace)
      && Cleared(b.trace) == (!RestartOwed(b.trace) && Cleared(a.trace))
      && ComesUp(b.trace) == ComesUp(a.trace)
  {
    TookSound(w, s0, a, Heartbeat(status, w.postOk(|a.trace|)));
  }

  // ---------------------------------------------------------------------------------------------
  // Looking
  // ---------------------------------------------------------------------------------------------

  function LookAct(w: World, a: State, place: Place, forOffline: bool): Act {
    Looked(place, forOffline, ReplyAt(w, a))
  }

  /** What a look leaves behind. */
  predicate AfterLook(w: World, s0: Status, a: State, act: Act, b: State) {
    && Sound(w, s0, b) && !Ended(b.trace)
    && b.flags.needsOffline == a.flags.needsOffline
    && Known(b.trace) == (Known(a.trace) || (SeesDown(act) && act.place in {BeforeWork, BeforePhase, AfterJob}))
    && RestartOwed(b.trace) == (b.flags.needsRestart || Heeds(a.trace, act))
  }

  lemma LookTook(w: World, s0: Status, a: State, place: Place, forOffline: bool)
    requires Sound(w, s0, a) && RestartInHand(a) && !Ended(a.trace)
    ensures var act := LookAct(w, a, place, forOffline);
      var b := Took(w, a, act);
      && AfterLook(w, s0, a, act, b)
      && b.trace != [] && b.trace[|b.trace| - 1].act == act
      && (forOffline && !SeesDown(act) && !Known(a.trace) ==> !OfflineOwed(s0, b.trace))
      && (!forOffline && OfflineOwed(s0, b.trace) ==> OfflineOwed(s0, a.trace))
      && (forOffline || Watched(a.trace) ==> Watched(b.trace))
      && (!forOffline ==> WatchedRestart(b.trace))
      && (forOffline || Cleared(a.trace) || RestartOwed(a.trace) ==> Cleared(b.trace) || RestartOwed(b.trace))
      && (place == Startup && !forOffline && (act.reply.Some? ==> act.reply.value.state != Offline)
          ==> ComesUp(b.trace))
  {
    var act := LookAct(w, a, place, forOffline);
    TookSound(w, s0, a, act);
    SafeIsKept(w, s0, a.trace);
    if OfflineOwed(s0, a.trace) && !Known(a.trace) && !LeavesDown(a.server, w.moves(|a.trace|)) {
      DownUntilLeft(a.server, w.moves(|a.trace|));
    }
  }

  lemma LookSound(w: World, s0: Status, a: State, place: Place, forOffline: bool)
    requires Sound(w, s0, a) && RestartInHand(a) && !Ended(a.trace)
    ensures var act := LookAct(w, a, place, forOffline);
      var b := Look(w, a, place, forOffline);
      && AfterLook(w, s0, a, act, b)
      && (forOffline && !SeesDown(act) && !Known(a.trace) ==> !OfflineOwed(s0, b.trace))
      && (!forOffline && OfflineOwed(s0, b.trace) ==> OfflineOwed(s0, a.trace))
      && (forOffline || Watched(a.trace) ==> Watched(b.trace))
      && (!forOffline ==> WatchedRestart(b.trace))
      && (forOffline || Cleared(a.trace) || RestartOwed(a.trace) ==> Cleared(b.trace) || RestartOwed(b.trace))
      && (place == Startup && !forOffline && (act.reply.Some? ==> act.reply.value.state != Offline)
          ==> ComesUp(b.trace))
  {
    LookTook(w, s0, a, place, forOffline);
    var act := LookAct(w, a, place, forOffline);
    if act.reply.Some? && w.heartbeatDue(|a.trace|) {
      HeartbeatSound(w, s0, Took(w, a, act), act.reply.value);
    }
  }

  /** Ready for a phase: an offline request is in hand, or none stands. */
  predicate Ready(s0: Status, a: State) { Known(a.trace) || (Watched(a.trace) && !OfflineOwed(s0, a.trace)) }

  lemma CheckedForOfflineSound(w: World, s0: Status, a: State)
    requires Sound(w, s0, a) && InHand(a) && !Ended(a.trace)
    ensures var b := CheckedForOffline(w, a);
      Sound(w, s0, b) && InHand(b) && !Ended(b.trace) && Ready(s0, b)
  {
    LookSound(w, s0, a, BeforePhase, true);
  }

  lemma CheckedForRestartSound(w: World, s0: Status, a: State)
    requires Sound(w, s0, a) && InHand(a) && !Ended(a.trace) && Ready(s0, a)
    ensures var b := CheckedForRestart(w, a);
      && Sound(w, s0, b) && InHand(b) && !Ended(b.trace) && Ready(s0, b)
      && (RestartOwed(b.trace) || WatchedRestart(b.trace))
  {
    LookSound(w, s0, a, BeforePhase, false);
  }

  // ---------------------------------------------------------------------------------------------
  // Phases and jobs
  // ---------------------------------------------------------------------------------------------

  lemma TakeOfflineSound(w: World, s0: Status, a: State, comment: string)
    requires Sound(w, s0, a) && RestartInHand(a) && !Ended(a.trace) && Known(a.trace)
    ensures var b := TakeOffline(w, a, comment);
      && Sound(w, s0, b) && InHand(b) && !Ended(b.trace) && !Known(b.trace)
      && (OfflineOwed(s0, b.trace) ==> b.server.state == Offline)
  {
    PostSound(w, s0, a, Status(Offline, comment));
  }

  lemma PhaseDoneSound(w: World, s0: Status, a: State, phase: Phase)
    requires phase != Cleanup
    requires Sound(w, s0, a) && InHand(a) && !Ended(a.trace)
    ensures var b := PhaseDone(w, a, phase).state;
      Sound(w, s0, b) && InHand(b) && !Ended(b.trace)
  {
    JobCheckSound(w, s0, a);
    if !w.cancels(|a.trace|) {
      var b := Took(w, a, JobChecked(false));
      PhaseStartedSound(w, s0, b, phase);
      PhaseRanSound(w, s0, PhaseStarted(w, b, phase), phase);
    }
  }

  lemma PhaseStartedSound(w: World, s0: Status, a: State, phase: Phase)
    requires Sound(w, s0, a) && InHand(a) && !Ended(a.trace)
    ensures var b := PhaseStarted(w, a, phase);
      Sound(w, s0, b) && InHand(b) && !Ended(b.trace)
  {
    var o := CheckedForOffline(w, a);
    var c := CheckedForRestart(w, o);
    CheckedForOfflineSound(w, s0, a);
    CheckedForRestartSound(w, s0, o);
    PostSound(w, s0, c, Status(Busy(phase), c.flags.comment));
  }

  lemma PhaseRanSound(w: World, s0: Status, p: State, phase: Phase)
    requires phase != Cleanup
    requires Sound(w, s0, p) && InHand(p) && !Ended(p.trace)
    ensures var e := PhaseRan(w, p, phase);
      Sound(w, s0, e) && InHand(e) && !Ended(e.trace)
  {
    TookSound(w, s0, p, Ran(phase, w.runs(|p.trace|)));
    if w.runs(|p.trace|) == Exits(RECOVERY_FAILED) {
      TakeOfflineSound(w, s0, Took(w, p, Ran(phase, w.runs(|p.trace|))), RECOVERY_COMMENT);
    }
  }

  lemma NotTheCleanup(k: nat)
    requires k < |TEST_PHASES|
    ensures TEST_PHASES[k] != Cleanup
  {
  }

  lemma {:induction false} PhasesRunSound(w: World, s0: Status, a: State, k: nat)
    requires k <= |TEST_PHASES|
    requires Sound(w, s0, a) && InHand(a) && !Ended(a.trace)
    ensures var b := PhasesRun(w, a, k);
      Sound(w, s0, b) && InHand(b) && !Ended(b.trace)
    decreases |TEST_PHASES| - k
  {
    if k < |TEST_PHASES| {
      var phase := TEST_PHASES[k];
      var e := PhaseDone(w, a, phase);
      NotTheCleanup(k);
      PhaseDoneSound(w, s0, a, phase);
      if e.goesOn {
        PhasesRunSound(w, s0, e.state, k + 1);
      }
    }
  }

  lemma CleanedUpSound(w: World, s0: Status, a: State)
    requires Sound(w, s0, a) && InHand(a) && !Ended(a.trace)
    ensures var b := CleanedUp(w, a);
      Sound(w, s0, b) && InHand(b) && !Ended(b.trace)
  {
    TookSound(w, s0, a, Ran(Cleanup, Exits(w.cleanups(|a.trace|))));
  }

  // ---------------------------------------------------------------------------------------------
  // Decisions
  // ---------------------------------------------------------------------------------------------

  /** The agent stopped: it left for a restart, or went offline and dropped the flag. */
  predicate Stopped(w: World, s0: Status, b: State) {
    && Sound(w, s0, b)
    && b.exited == Ended(b.trace)
    && RestartInHand(b) && !Known(b.trace) && !b.flags.needsOffline
    && (if b.exited then !OfflineOwed(s0, b.trace) else OfflineOwed(s0, b.trace) ==> b.server.state == Offline)
  }

  /** The agent may ask for work. */
  predicate Free(w: World, s0: Status, b: State) {
    && Sound(w, s0, b) && InHand(b) && !Ended(b.trace)
    && !Known(b.trace) && !OfflineOwed(s0, b.trace) && Cleared(b.trace)
  }

  predicate Decided(w: World, s0: Status, d: Decision) {
    if d.stop then Stopped(w, s0, d.state) else Free(w, s0, d.state) && !d.state.exited
  }

  lemma RestartedSound(w: World, s0: Status, a: State, comment: string)
    requires Sound(w, s0, a) && InHand(a) && !Ended(a.trace)
    requires !OfflineOwed(s0, a.trace) && !Known(a.trace) && RestartOwed(a.trace)
    ensures Stopped(w, s0, Restarted(w, a, comment))
  {
    PostSound(w, s0, a, Status(Restart, comment));
  }

  lemma JobDoneSound(w: World, s0: Status, a: State)
    requires Sound(w, s0, a) && InHand(a) && !Ended(a.trace) && !a.exited
    ensures Decided(w, s0, JobDone(w, a)) && (!JobDone(w, a).stop ==> Watched(JobDone(w, a).state.trace))
  {
    var o, b := OfflineCheck(w, a, AfterJob), Look(w, a, AfterJob, true);
    LookSound(w, s0, a, AfterJob, true);
    if o.needed {
      TakeOfflineSound(w, s0, b, o.comment);
    } else if b.flags.needsRestart {
      RestartedSound(w, s0, b, b.flags.comment);
    }
  }

  lemma RequestsFlaggedSound(w: World, s0: Status, a: State)
    requires Sound(w, s0, a) && InHand(a) && !Ended(a.trace)
    ensures var d := RequestsFlagged(w, a);
      && Sound(w, s0, d) && InHand(d) && !Ended(d.trace) && d.exited == a.exited
      && (!Known(d.trace) ==> !OfflineOwed(s0, d.trace))
      && (Cleared(d.trace) || RestartOwed(d.trace))
  {
    var o, b := OfflineCheck(w, a, BeforeWork), Look(w, a, BeforeWork, true);
    var r, c := RestartCheck(w, b, BeforeWork), Look(w, b, BeforeWork, false);
    NeededIsKnown(w, s0, a);
    BothLooked(w, s0, a);
    if o.needed {
      FlagSound(w, s0, c, o.comment, false, true);
    } else if r.needed {
      RestartNeeded(w, b);
      FlagSound(w, s0, c, r.comment, true, c.flags.needsOffline);
    } else {
      RestartNeeded(w, b);
    }
  }

  /** Flags are the agent's own: nobody else sees them. */
  lemma FlagSound(w: World, s0: Status, c: State, comment: string, restart: bool, offline: bool)
    requires Sound(w, s0, c)
    ensures var d := Flag(c, comment, restart, offline);
      && Sound(w, s0, d) && d.trace == c.trace && d.exited == c.exited
      && d.flags.needsOffline == offline && d.flags.needsRestart == (c.flags.needsRestart || restart)
  {
    UpdateKeeps(c.flags, comment, restart, offline);
  }

  lemma RestartNeeded(w: World, b: State)
    ensures var act, flagged := LookAct(w, b, BeforeWork, false), Look(w, b, BeforeWork, false).flags.needsRestart;
      && (RestartCheck(w, b, BeforeWork).needed ==> SeesRestart(act) || flagged)
      && (SeesRestart(act) ==> RestartCheck(w, b, BeforeWork).needed)
  {
  }

  lemma BothLooked(w: World, s0: Status, a: State)
    requires Sound(w, s0, a) && InHand(a) && !Ended(a.trace)
    ensures var b := Look(w, a, BeforeWork, true);
      var c := Look(w, b, BeforeWork, false);
      && Sound(w, s0, c) && !Ended(c.trace) && c.flags.needsOffline == a.flags.needsOffline
      && Known(c.trace) == Known(b.trace) && (Known(a.trace) ==> Known(c.trace))
      && RestartOwed(c.trace) == (c.flags.needsRestart || Heeds(b.trace, LookAct(w, b, BeforeWork, false)))
      && (!Known(c.trace) ==> !OfflineOwed(s0, c.trace))
      && (Cleared(c.trace) || RestartOwed(c.trace))
  {
    LookSound(w, s0, a, BeforeWork, true);
    LookSound(w, s0, Look(w, a, BeforeWork, true), BeforeWork, false);
  }

  lemma NeededIsKnown(w: World, s0: Status, a: State)
    requires Sound(w, s0, a) && InHand(a) && !Ended(a.trace)
    ensures OfflineCheck(w, a, BeforeWork).needed == Known(Look(w, a, BeforeWork, true).trace)
  {
    LookSound(w, s0, a, BeforeWork, true);
  }

  lemma WorkCheckedSound(w: World, s0: Status, a: State)
    requires Sound(w, s0, a) && InHand(a) && !Ended(a.trace) && !a.exited
    ensures Decided(w, s0, WorkChecked(w, a))
  {
    var d := RequestsFlagged(w, a);
    RequestsFlaggedSound(w, s0, a);
    if d.flags.needsOffline {
      TakeOfflineSound(w, s0, d, d.flags.comment);
    } else if d.flags.needsRestart {
      RestartedSound(w, s0, d, d.flags.comment);
    }
  }

  /** How a round of work ends: stopped by a request, or with none standing. */
  predicate RoundEnds(w: World, s0: Status, b: State) {
    Stopped(w, s0, b) || (Sound(w, s0, b) && InHand(b) && !Ended(b.trace) && !b.exited && !Known(b.trace)
                          && !OfflineOwed(s0, b.trace))
  }

  lemma JobRunSound(w: World, s0: Status, a: State, grant: Grant)
    requires Free(w, s0, a) && !a.exited
    ensures var d := JobDone(w, JobRun(w, AskedForWork(w, a), grant));
      Decided(w, s0, d) && (!d.stop ==> Watched(d.state.trace))
  {
    TookSound(w, s0, a, Asked(GrantAt(w, a)));
    var b := AskedForWork(w, a);
    if grant == Works {
      PhasesRunSound(w, s0, b, 0);
    }
    if grant != FailsEarly(false) {
      CleanedUpSound(w, s0, if grant == Works then PhasesRun(w, b, 0) else b);
    }
    JobDoneSound(w, s0, JobRun(w, b, grant));
  }

  lemma {:induction false} WorkedSound(w: World, s0: Status, a: State)
    requires Free(w, s0, a) && !a.exited
    ensures RoundEnds(w, s0, Worked(w, a))
    decreases a.jobs
  {
    var grant := GrantAt(w, a);
    if grant == NoJob {
      TookSound(w, s0, a, Asked(GrantAt(w, a)));
    } else {
      JobRunSound(w, s0, a, grant);
      var d := JobDone(w, JobRun(w, AskedForWork(w, a), grant));
      if !d.stop {
        PostSound(w, s0, d.state, Status(Waiting, ""));
        WorkedSound(w, s0, Post(w, d.state, Status(Waiting, "")));
      }
    }
  }

  lemma JobsProcessedSound(w: World, s0: Status, a: State)
    requires Sound(w, s0, a) && InHand(a) && !Ended(a.trace) && !a.exited
    ensures RoundEnds(w, s0, JobsProcessed(w, a))
  {
    WorkCheckedSound(w, s0, a);
    var d := WorkChecked(w, a);
    if !d.stop {
      WorkedSound(w, s0, d.state);
    }
  }

  // ---------------------------------------------------------------------------------------------
  // The whole life
  // ---------------------------------------------------------------------------------------------

  /** Between rounds. */
  predicate Alive(w: World, s0: Status, a: State) { Sound(w, s0, a) && InHand(a) && !Ended(a.trace) && !a.exited }

  lemma {:induction false} AwaitedSound(w: World, s0: Status, a: State, polls: nat)
    requires Alive(w, s0, a)
    ensures Alive(w, s0, Awaited(w, a, polls).state)
    decreases polls
  {
    LookSound(w, s0, a, Idle, true);
    if OfflineCheck(w, a, Idle).needed && polls > 0 {
      AwaitedSound(w, s0, Look(w, a, Idle, true), polls - 1);
    }
  }

  /** The agent has left for a restart, or is between rounds. */
  predicate Lives(w: World, s0: Status, b: State) {
    && Sound(w, s0, b) && RestartInHand(b)
    && b.exited == Ended(b.trace)
    && (!b.exited ==> InHand(b))
  }

  predicate RoundLives(w: World, s0: Status, r: Round) {
    Lives(w, s0, r.state) && (r.goesOn ==> Alive(w, s0, r.state))
  }

  lemma RoundSound(w: World, s0: Status, a: State, polls: nat)
    requires Alive(w, s0, a)
    ensures RoundLives(w, s0, RoundOf(w, a, polls))
  {
    AwaitedSound(w, s0, a, polls);
    var x := Awaited(w, a, polls);
    if x.online {
      JobsProcessedSound(w, s0, x.state);
    }
  }

  lemma {:induction false} LivedSound(w: World, s0: Status, a: State, rounds: nat, polls: nat)
    requires Alive(w, s0, a)
    ensures RoundLives(w, s0, Lived(w, a, rounds, polls))
  {
    if rounds > 0 {
      LivedSound(w, s0, a, rounds - 1, polls);
      var r := Lived(w, a, rounds - 1, polls);
      if r.goesOn {
        RoundSound(w, s0, r.state, polls);
      }
    }
  }

  /** In every world the agent's history is faithful and every act in it was allowed; its flags tell what it owes. */
  lemma LifeIsSafe(w: World, server: Status, jobs: nat, rounds: nat, polls: nat)
    ensures Lives(w, server, Life(w, server, jobs, rounds, polls))
  {
    var a := NewAgent(server, jobs);
    var reply, b := ReplyAt(w, a), Look(w, a, Startup, false);
    LookSound(w, server, a, Startup, false);
    if !(reply.Some? && reply.value.state == Offline) {
      PostSound(w, server, b, Status(Waiting, ""));
    }
    LivedSound(w, server, Started(w, a), rounds, polls);
  }

  // ---------------------------------------------------------------------------------------------
  // An offline request is honoured
  // ---------------------------------------------------------------------------------------------

  lemma OwedUnlessWorldReleases(w: World, s0: Status, t: seq<Step>, i: nat)
    requires Faithful(w, s0, t) && i < |t| && IsRequest(t[i].act)
    requires forall k :: i < k < |t| ==> !WorldReleases(w, k, t[k].act)
    ensures OfflineOwed(s0, t)
  {
    if !OfflineOwed(s0, t) {
      OwedUnlessReleased(s0, t, i);
      var k :| i < k < |t| && IsRelease(s0, t[..k], t[k]);
      ReleaseAt(w, s0, t, k);
    }
  }

  /**
   A check that sees the agent offline, or a phase that exits with the recovery code, takes the agent offline by the
   end of the round, and no job is asked for in between, unless a read fails, a post is lost or an administrator
   raises the record.
   */
  lemma OfflineHonoured(w: World, s0: Status, a: State, i: nat)
    requires Alive(w, s0, a)
    requires var t := JobsProcessed(w, a).trace;
      && i < |t| && IsRequest(t[i].act)
      && forall k :: i < k < |t| ==> !WorldReleases(w, k, t[k].act)
    ensures var b := JobsProcessed(w, a);
      && !b.exited && b.server.state == Offline && !b.flags.needsOffline
      && forall j :: i < j < |b.trace| ==> !b.trace[j].act.Asked?
  {
    var b := JobsProcessed(w, a);
    JobsProcessedSound(w, s0, a);
    OwedUnlessWorldReleases(w, s0, b.trace, i);
    forall j | i < j < |b.trace|
      ensures !b.trace[j].act.Asked?
    {
      if b.trace[j].act.Asked? {
        NoWorkWhileOffline(w, s0, b.trace, i, j);
      }
    }
  }

  /** What the agent does about the exit code of a phase, the cleanup included. */
  function AfterPhase(w: World, a: State, phase: Phase): State {
    if phase == Cleanup then CleanedUp(w, a) else PhaseRan(w, a, phase)
  }

  /** The code for a failed recovery takes the agent offline exactly if its phase is not the cleanup. */
  lemma RecoveryFailureIff(w: World, s0: Status, a: State, phase: Phase)
    requires Sound(w, s0, a) && InHand(a) && !Ended(a.trace)
    requires var n := |a.trace|;
      if phase == Cleanup then w.cleanups(n) == RECOVERY_FAILED else w.runs(n) == Exits(RECOVERY_FAILED)
    ensures var n, b := |a.trace|, AfterPhase(w, a, phase);
      && n < |b.trace| && b.trace[n].act == Ran(phase, Exits(RECOVERY_FAILED))
      && (phase != Cleanup <==> n + 1 < |b.trace| && GoesOffline(b.trace[n + 1].act))
      && (phase != Cleanup <==> IsRequest(b.trace[n].act))
  {
  }

  /**
   A cleanup that failed to recover the machine goes unnoticed: with everything else working, the agent posts that it
   waits and asks for the next job.
   */
  lemma CleanupFailureIgnored(w: World, a: State)
    requires a.server.state == Waiting && !a.flags.needsRestart && !a.flags.needsOffline
    requires var n := |a.trace|;
      && w.cleanups(n) == RECOVERY_FAILED
      && w.moves(n) == [] && w.moves(n + 1) == [] && w.moves(n + 2) == [] && w.moves(n + 3) == []
      && w.readOk(n + 1) && !w.heartbeatDue(n + 1) && w.postOk(n + 2)
    ensures var d := JobDone(w, CleanedUp(w, a));
      var b := AskedForWork(w, Post(w, d.state, Status(Waiting, "")));
      var n := |a.trace|;
      && !d.stop && |b.trace| == n + 4
      && b.trace[n].act == Ran(Cleanup, Exits(RECOVERY_FAILED)) && b.trace[n + 3].act.Asked?
      && b.server == Status(Waiting, "") && !b.flags.needsOffline
  {
  }

  // ---------------------------------------------------------------------------------------------
  // A restart is honoured
  // ---------------------------------------------------------------------------------------------

  function Asks(t: seq<Step>): nat {
    if t == [] then 0 else Asks(t[..|t| - 1]) + if t[|t| - 1].act.Asked? then 1 else 0
  }

  lemma TookAsks(w: World, a: State, act: Act)
    ensures Asks(Took(w, a, act).trace) == Asks(a.trace) + if act.Asked? then 1 else 0
  {
    var s := Step(w.moves(|a.trace|), act);
    assert (a.trace + [s])[..|a.trace|] == a.trace;
  }

  lemma LookAsks(w: World, a: State, place: Place, forOffline: bool)
    ensures Asks(Look(w, a, place, forOffline).trace) == Asks(a.trace)
  {
    var reply := ReplyAt(w, a);
    var b := Took(w, a, Looked(place, forOffline, reply));
    TookAsks(w, a, Looked(place, forOffline, reply));
    if reply.Some? {
      TookAsks(w, b, Heartbeat(reply.value, w.postOk(|b.trace|)));
    }
  }

  lemma FlagStays(w: World, a: State, place: Place, forOffline: bool)
    ensures a.flags.needsRestart ==> Look(w, a, place, forOffline).flags.needsRestart
    ensures a.flags.needsOffline == Look(w, a, place, forOffline).flags.needsOffline
  {
    var b := Took(w, a, LookAct(w, a, place, forOffline));
    SignalledMeans(a.flags, w.moves(|a.trace|));
    SignalledMeans(b.flags, w.moves(|b.trace|));
  }

  lemma FlaggedAsks(w: World, a: State)
    ensures Asks(RequestsFlagged(w, a).trace) == Asks(a.trace)
  {
    LookAsks(w, a, BeforeWork, true);
    LookAsks(w, Look(w, a, BeforeWork, true), BeforeWork, false);
  }

  lemma WorkCheckedAsks(w: World, a: State)
    ensures Asks(WorkChecked(w, a).state.trace) == Asks(a.trace)
  {
    var d := RequestsFlagged(w, a);
    FlaggedAsks(w, a);
    TookAsks(w, d, Posted(Status(Offline, d.flags.comment), w.postOk(|d.trace|)));
    TookAsks(w, d, Posted(Status(Restart, d.flags.comment), w.postOk(|d.trace|)));
  }

  /**
   With a restart owed at the start of a round, no job is asked for: the agent restarts, unless it is to go offline;
   then it does that, and still owes the restart.
   */
  lemma RestartHonoured(w: World, s0: Status, a: State)
    requires Alive(w, s0, a) && RestartOwed(a.trace)
    ensures var b := JobsProcessed(w, a);
      && Asks(b.trace) == Asks(a.trace)
      && (b.exited <==> !OfflineCheck(w, a, BeforeWork).needed)
      && RestartInHand(b) && b.flags.needsRestart
  {
    var b := Look(w, a, BeforeWork, true);
    FlagStays(w, a, BeforeWork, true);
    FlagStays(w, b, BeforeWork, false);
    var d := WorkChecked(w, a);
    WorkCheckedAsks(w, a);
    WorkCheckedSound(w, s0, a);
    assert d.stop;
    RestartStaysFlagged(w, a);
  }

  lemma RestartStaysFlagged(w: World, a: State)
    requires a.flags.needsRestart
    ensures WorkChecked(w, a).stop && WorkChecked(w, a).state.flags.needsRestart
    ensures !a.exited ==> (WorkChecked(w, a).state.exited <==> !OfflineCheck(w, a, BeforeWork).needed)
  {
    var b := Look(w, a, BeforeWork, true);
    var d := RequestsFlagged(w, a);
    FlagStays(w, a, BeforeWork, true);
    FlagStays(w, b, BeforeWork, false);
    assert d.flags.needsRestart && (d.flags.needsOffline <==> OfflineCheck(w, a, BeforeWork).needed);
    SignalledMeans(d.flags, w.moves(|d.trace|));
  }

  /**
   Before work a restart is flagged exactly if it was flagged before, or is signalled, or is read with no offline
   request in hand.
   */
  lemma RestartBeforeWorkIff(w: World, s0: Status, a: State)
    requires Sound(w, s0, a) && InHand(a) && !Ended(a.trace)
    ensures var b := Look(w, a, BeforeWork, true);
      var c := Look(w, b, BeforeWork, false);
      RequestsFlagged(w, a).flags.needsRestart
      <==> c.flags.needsRestart
           || (SeesRestart(LookAct(w, b, BeforeWork, false)) && !OfflineCheck(w, a, BeforeWork).needed)
  {
    BothLooked(w, s0, a);
    NeededIsKnown(w, s0, a);
    RequestsFlaggedSound(w, s0, a);
  }

  /** Before a phase it is flagged exactly if it was flagged before, or is signalled, or is read. */
  lemma RestartBeforePhaseIff(w: World, s0: Status, a: State)
    requires Sound(w, s0, a) && InHand(a) && !Ended(a.trace) && Ready(s0, a)
    ensures CheckedForRestart(w, a).flags.needsRestart
       <==> a.flags.needsRestart
            || Look(w, a, BeforePhase, false).flags.needsRestart
            || SeesRestart(LookAct(w, a, BeforePhase, false))
  {
    CheckedForRestartSound(w, s0, a);
    LookSound(w, s0, a, BeforePhase, false);
  }

  /**
   A restart that the server asks for between the two looks before work, the first of which saw offline, is read and
   not flagged; the agent posts over it that it is offline.  Nothing need fail for that.
   */
  lemma RestartLostBeforeWork(w: World, a: State, restart: Status)
    requires a.server.state == Offline && restart.state == Restart
    requires !a.flags.needsRestart && !a.flags.needsOffline && !a.exited
    requires var n := |a.trace|;
      && w.moves(n) == [] && w.readOk(n) && !w.heartbeatDue(n)
      && w.moves(n + 1) == [SetStatus(restart)] && w.readOk(n + 1) && !w.heartbeatDue(n + 1)
      && w.moves(n + 2) == [] && w.postOk(n + 2)
    ensures var d := WorkChecked(w, a);
      && SeesRestart(d.state.trace[|a.trace| + 1].act)
      && d.state.server.state == Offline && !d.state.flags.needsRestart && !d.state.exited
  {
    var b := Look(w, a, BeforeWork, true);
    assert MovedBy(b.server, [SetStatus(restart)]) == restart;
    SignalledMeans(b.flags, [SetStatus(restart)]);
  }

  /**
   A restart that the server asks for, read after a job, is neither heeded nor kept: the agent posts over it that it
   waits.  Nothing need fail for that.
   */
  lemma RestartLostAfterJob(w: World, a: State)
    requires a.server.state == Restart && !a.flags.needsRestart && !a.flags.needsOffline
    requires var n := |a.trace|;
      w.moves(n) == [] && w.readOk(n) && !w.heartbeatDue(n) && w.moves(n + 1) == [] && w.postOk(n + 1)
    ensures var d := JobDone(w, a);
      var b := Post(w, d.state, Status(Waiting, ""));
      && !d.stop && SeesRestart(d.state.trace[|a.trace|].act)
      && b.server.state == Waiting && !b.flags.needsRestart && b.exited == a.exited
  {
  }

  /** After a job the agent restarts exactly if it owed that before, whatever it reads there. */
  lemma RestartAfterJobIff(w: World, s0: Status, a: State)
    requires Sound(w, s0, a) && InHand(a) && !Ended(a.trace) && !a.exited
    ensures var d := JobDone(w, a);
      d.state.exited <==> !OfflineCheck(w, a, AfterJob).needed && RestartOwed(Look(w, a, AfterJob, true).trace)
    ensures RestartOwed(Look(w, a, AfterJob, true).trace)
       <==> RestartOwed(a.trace) || SignalDuringLook(w, a)
  {
    LookSound(w, s0, a, AfterJob, true);
    var b := Took(w, a, LookAct(w, a, AfterJob, true));
    SignalledMeans(a.flags, w.moves(|a.trace|));
    SignalledMeans(b.flags, w.moves(|b.trace|));
  }

  /** The supervisor signals before the read, or before the heartbeat that follows it. */
  predicate SignalDuringLook(w: World, a: State) {
    var n := |a.trace|;
    Signal in w.moves(n) || (w.readOk(n) && w.heartbeatDue(n) && Signal in w.moves(n + 1))
  }
}
