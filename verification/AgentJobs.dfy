/**
 What a life is made of, as others see it: which phases a job runs and in what order, what the agent posts around
 them, and when it asks for work again.
 */
module AgentJobs {
  import opened Basics
  import opened AgentTrace
  import opened Agent

  // ---------------------------------------------------------------------------------------------
  // All that the agent does but look
  // ---------------------------------------------------------------------------------------------

  predicate IsMark(act: Act) { !act.Looked? && !act.Heartbeat? }

  function Marks(t: seq<Step>): seq<Act> {
    if t == [] then []
    else Marks(t[..|t| - 1]) + if IsMark(t[|t| - 1].act) then [t[|t| - 1].act] else []
  }

  lemma TookMarks(w: World, a: State, act: Act)
    ensures Marks(Took(w, a, act).trace) == Marks(a.trace) + if IsMark(act) then [act] else []
  {
    var s := Step(w.moves(|a.trace|), act);
    assert (a.trace + [s])[..|a.trace|] == a.trace;
  }

  lemma LookMarks(w: World, a: State, place: Place, forOffline: bool)
    ensures Marks(Look(w, a, place, forOffline).trace) == Marks(a.trace)
  {
    var reply := ReplyAt(w, a);
    var b := Took(w, a, Looked(place, forOffline, reply));
    TookMarks(w, a, Looked(place, forOffline, reply));
    if reply.Some? {
      TookMarks(w, b, Heartbeat(reply.value, w.postOk(|b.trace|)));
    }
  }

  lemma PostMarks(w: World, a: State, status: Status)
    ensures Marks(Post(w, a, status).trace) == Marks(a.trace) + [Posted(status, w.postOk(|a.trace|))]
  {
    TookMarks(w, a, Posted(status, w.postOk(|a.trace|)));
  }

  // ---------------------------------------------------------------------------------------------
  // One job
  // ---------------------------------------------------------------------------------------------

  predicate IsLink(act: Act) { act.JobChecked? || act.Ran? }

  /** The checks for a cancellation and the phases. */
  function Links(m: seq<Act>): seq<Act> {
    if m == [] then [] else (if IsLink(m[0]) then [m[0]] else []) + Links(m[1..])
  }

  /** A phase that fails ends the job, unless it is the test; an exception always does, and so does a cancellation. */
  predicate GoesOnAfter(act: Act) {
    match act
    case JobChecked(cancelled) => !cancelled
    case Ran(phase, outcome) => outcome == Exits(0) || (phase == Test && outcome.Exits?)
    case _ => false
  }

  /** From the k-th phase on: check and phase in turn, the phases in order, up to the first link that ends the job. */
  ghost predicate IsChain(c: seq<Act>, k: nat) {
    && (c != [] <==> k < |TEST_PHASES|)
    && k + (|c| + 1) / 2 <= |TEST_PHASES|
    && (forall i :: 0 <= i < |c| && i % 2 == 0 ==> c[i].JobChecked?)
    && (forall i :: 0 <= i < |c| && i % 2 == 1 ==> c[i].Ran? && c[i].phase == TEST_PHASES[k + i / 2])
    && (forall i :: 0 <= i < |c| ==>
          (i + 1 < |c| <==> GoesOnAfter(c[i]) && (i % 2 == 0 || k + i / 2 + 1 < |TEST_PHASES|)))
  }

  predicate PostsBusy(act: Act, phase: Phase) { act.Posted? && act.status.state == Busy(phase) }

  /** A phase comes right after the post that says so; one that fails to recover is followed by going offline. */
  predicate Fits(m: seq<Act>, i: nat)
    requires i < |m|
  {
    && (m[i].Ran? ==> 0 < i && PostsBusy(m[i - 1], m[i].phase))
    && (RecoveryFails(m[i]) ==> i + 1 < |m| && GoesOffline(m[i + 1]))
    && (m[i].Posted? ==>
          || (i + 1 < |m| && m[i + 1].Ran? && PostsBusy(m[i], m[i + 1].phase))
          || (0 < i && RecoveryFails(m[i - 1]) && GoesOffline(m[i])))
  }

  ghost predicate IsPosted(m: seq<Act>) { forall i :: 0 <= i < |m| ==> Fits(m, i) }

  predicate IsCleanup(act: Act) { act.Ran? && act.phase == Cleanup }

  /** What a job consists of, by what the request for work brought. */
  ghost predicate IsJob(grant: Grant, m: seq<Act>) {
    match grant
    case NoJob => m == []
    case FailsEarly(hasDirectory) => if hasDirectory then |m| == 1 && IsCleanup(m[0]) else m == []
    case Works =>
      && m != [] && IsCleanup(m[|m| - 1])
      && IsChain(Links(m[..|m| - 1]), 0) && IsPosted(m[..|m| - 1])
  }

  lemma {:induction false} LinksConcat(a: seq<Act>, b: seq<Act>)
    ensures Links(a + b) == Links(a) + Links(b)
  {
    if a == [] {
      assert a + b == b;
    } else {
      LinksConcat(a[1..], b);
      assert (a + b)[0] == a[0] && (a + b)[1..] == a[1..] + b;
      Assoc(if IsLink(a[0]) then [a[0]] else [], Links(a[1..]), Links(b));
    }
  }

  /** What one phase adds. */
  ghost predicate IsPhase(m: seq<Act>, phase: Phase, goesOn: bool) {
    if |m| == 1 then m[0] == JobChecked(true) && !goesOn
    else
      && |m| >= 3
      && m[0] == JobChecked(false) && PostsBusy(m[1], phase) && m[2].Ran? && m[2].phase == phase
      && (if m[2].outcome == Exits(RECOVERY_FAILED) then |m| == 4 && GoesOffline(m[3]) else |m| == 3)
      && goesOn == GoesOnAfter(m[2])
  }

  lemma CheckMarks(w: World, a: State)
    ensures Marks(CheckedForRestart(w, CheckedForOffline(w, a)).trace) == Marks(a.trace)
  {
    var b := CheckedForOffline(w, a);
    LookMarks(w, a, BeforePhase, true);
    assert Marks(b.trace) == Marks(a.trace);
    LookMarks(w, b, BeforePhase, false);
  }

  lemma StartMarks(w: World, a: State, phase: Phase) returns (post: Act)
    ensures Marks(PhaseStarted(w, a, phase).trace) == Marks(a.trace) + [post] && PostsBusy(post, phase)
  {
    var c := CheckedForRestart(w, CheckedForOffline(w, a));
    CheckMarks(w, a);
    PostMarks(w, c, Status(Busy(phase), c.flags.comment));
    post := Posted(Status(Busy(phase), c.flags.comment), w.postOk(|c.trace|));
  }

  lemma RunMarks(w: World, a: State, phase: Phase) returns (m: seq<Act>)
    ensures Marks(PhaseRan(w, a, phase).trace) == Marks(a.trace) + m
    ensures m != [] && m[0] == Ran(phase, w.runs(|a.trace|))
    ensures if m[0].outcome == Exits(RECOVERY_FAILED) then |m| == 2 && GoesOffline(m[1]) else |m| == 1
  {
    var d := Took(w, a, Ran(phase, w.runs(|a.trace|)));
    TookMarks(w, a, Ran(phase, w.runs(|a.trace|)));
    PostMarks(w, d, Status(Offline, RECOVERY_COMMENT));
    m := [Ran(phase, w.runs(|a.trace|))];
    if w.runs(|a.trace|) == Exits(RECOVERY_FAILED) {
      var post := Posted(Status(Offline, RECOVERY_COMMENT), w.postOk(|d.trace|));
      Assoc(Marks(a.trace), m, [post]);
      m := m + [post];
    }
  }

  lemma StartedAndRan(w: World, a: State, phase: Phase) returns (m: seq<Act>)
    ensures var p := PhaseStarted(w, a, phase);
      && Marks(PhaseRan(w, p, phase).trace) == Marks(a.trace) + m
      && |m| >= 2 && PostsBusy(m[0], phase) && m[1] == Ran(phase, w.runs(|p.trace|))
      && if m[1].outcome == Exits(RECOVERY_FAILED) then |m| == 3 && GoesOffline(m[2]) else |m| == 2
  {
    var p := PhaseStarted(w, a, phase);
    var post := StartMarks(w, a, phase);
    var rest := RunMarks(w, p, phase);
    Assoc(Marks(a.trace), [post], rest);
    m := [post] + rest;
  }

  lemma PhaseMarks(w: World, a: State, phase: Phase) returns (m: seq<Act>)
    requires phase != Cleanup
    ensures Marks(PhaseDone(w, a, phase).state.trace) == Marks(a.trace) + m
    ensures IsPhase(m, phase, PhaseDone(w, a, phase).goesOn)
  {
    TookMarks(w, a, JobChecked(w.cancels(|a.trace|)));
    if w.cancels(|a.trace|) {
      m := [JobChecked(true)];
    } else {
      m := UncancelledMarks(w, a, phase);
    }
  }

  lemma UncancelledMarks(w: World, a: State, phase: Phase) returns (m: seq<Act>)
    requires phase != Cleanup && !w.cancels(|a.trace|)
    ensures Marks(PhaseDone(w, a, phase).state.trace) == Marks(a.trace) + m
    ensures |m| > 1 && IsPhase(m, phase, PhaseDone(w, a, phase).goesOn)
  {
    var b := Took(w, a, JobChecked(false));
    TookMarks(w, a, JobChecked(false));
    var rest := StartedAndRan(w, b, phase);
    Assoc(Marks(a.trace), [JobChecked(false)], rest);
    m := [JobChecked(false)] + rest;
    assert PhaseDone(w, a, phase).goesOn == GoesOnAfter(m[2]);
  }

  lemma PhaseLinks(m: seq<Act>, phase: Phase, goesOn: bool)
    requires IsPhase(m, phase, goesOn)
    ensures Links(m) == if |m| == 1 then [m[0]] else [m[0], m[2]]
  {
    if |m| == 1 {
      assert m[1..] == [];
    } else {
      assert Links(m[3..]) == [] by {
        assert |m| == 4 ==> m[3..][1..] == [];
      }
      assert m[2..][1..] == m[3..] && Links(m[2..]) == [m[2]];
      assert m[1..][1..] == m[2..] && Links(m[1..]) == [m[2]];
    }
  }

  /** One more phase before a chain of later ones. */
  lemma ChainCons(check: Act, ran: Act, c: seq<Act>, k: nat)
    requires k < |TEST_PHASES| && check == JobChecked(false) && ran.Ran? && ran.phase == TEST_PHASES[k]
    requires if GoesOnAfter(ran) then IsChain(c, k + 1) else c == []
    ensures IsChain([check, ran] + c, k)
  {
    var d := [check, ran] + c;
    assert forall i :: 2 <= i < |d| ==> d[i] == c[i - 2];
    forall i | 0 <= i < |d|
      ensures i + 1 < |d| <==> GoesOnAfter(d[i]) && (i % 2 == 0 || k + i / 2 + 1 < |TEST_PHASES|)
    {
      if i >= 2 {
        assert (i - 2) / 2 == i / 2 - 1 && (i - 2) % 2 == i % 2;
      }
    }
    forall i | 0 <= i < |d| && i % 2 == 1
      ensures d[i].Ran? && d[i].phase == TEST_PHASES[k + i / 2]
    {
      if i >= 2 {
        assert (i - 2) / 2 == i / 2 - 1 && (i - 2) % 2 == 1;
      }
    }
    forall i | 0 <= i < |d| && i % 2 == 0
      ensures d[i].JobChecked?
    {
      assert i >= 2 ==> (i - 2) % 2 == 0;
    }
  }

  lemma PostedConcat(a: seq<Act>, b: seq<Act>, phase: Phase, goesOn: bool)
    requires IsPhase(a, phase, goesOn) && phase != Cleanup && IsPosted(b)
    ensures IsPosted(a + b)
  {
    var m := a + b;
    forall i | 0 <= i < |m|
      ensures Fits(m, i)
    {
      if i >= |a| {
        var j := i - |a|;
        assert Fits(b, j) && m[i] == b[j] && (j + 1 < |b| ==> m[i + 1] == b[j + 1]);
        assert 0 < j ==> m[i - 1] == b[j - 1];
      } else {
        assert i < 4 && m[i] == a[i];
      }
    }
  }

  lemma {:induction false} PhasesMarks(w: World, a: State, k: nat) returns (m: seq<Act>)
    requires k <= |TEST_PHASES|
    ensures Marks(PhasesRun(w, a, k).trace) == Marks(a.trace) + m
    ensures IsChain(Links(m), k) && IsPosted(m)
    decreases |TEST_PHASES| - k
  {
    m := [];
    if k < |TEST_PHASES| {
      var phase := TEST_PHASES[k];
      var e := PhaseDone(w, a, phase);
      var first := PhaseMarks(w, a, phase);
      var rest: seq<Act> := [];
      if e.goesOn {
        rest := PhasesMarks(w, e.state, k + 1);
      }
      m := MarksThenRest(Marks(a.trace), Marks(PhasesRun(w, a, k).trace), first, rest, k, e.goesOn);
    }
  }

  lemma MarksThenRest(before: seq<Act>, after: seq<Act>, first: seq<Act>, rest: seq<Act>, k: nat, goesOn: bool)
    returns (m: seq<Act>)
    requires k < |TEST_PHASES| && IsPhase(first, TEST_PHASES[k], goesOn)
    requires if goesOn then IsChain(Links(rest), k + 1) && IsPosted(rest) else rest == []
    requires after == before + first + rest
    ensures after == before + m && IsChain(Links(m), k) && IsPosted(m)
  {
    PhaseThenRest(first, rest, k, goesOn);
    Assoc(before, first, rest);
    m := first + rest;
  }

  lemma PhaseThenRest(first: seq<Act>, rest: seq<Act>, k: nat, goesOn: bool)
    requires k < |TEST_PHASES| && IsPhase(first, TEST_PHASES[k], goesOn)
    requires if goesOn then IsChain(Links(rest), k + 1) && IsPosted(rest) else rest == []
    ensures IsChain(Links(first + rest), k) && IsPosted(first + rest)
  {
    LinksConcat(first, rest);
    PhaseLinks(first, TEST_PHASES[k], goesOn);
    PostedConcat(first, rest, TEST_PHASES[k], goesOn);
    if |first| > 1 {
      ChainCons(first[0], first[2], Links(rest), k);
    }
  }

  /** A job: the phases in order up to the one that ends it, each posted before it runs, and the cleanup. */
  lemma JobInOrder(w: World, a: State, grant: Grant) returns (m: seq<Act>)
    requires grant != NoJob
    ensures Marks(JobRun(w, a, grant).trace) == Marks(a.trace) + m && IsJob(grant, m)
  {
    m := [];
    var b := a;
    if grant == Works {
      m := PhasesMarks(w, a, 0);
      b := PhasesRun(w, a, 0);
    }
    if grant != FailsEarly(false) {
      var cleanup := Ran(Cleanup, Exits(w.cleanups(|b.trace|)));
      TookMarks(w, b, cleanup);
      Assoc(Marks(a.trace), m, [cleanup]);
      assert (m + [cleanup])[..|m|] == m;
      m := m + [cleanup];
    }
  }

  // ---------------------------------------------------------------------------------------------
  // One round
  // ---------------------------------------------------------------------------------------------

  predicate PostsState(act: Act, states: set<AgentState>) { act.Posted? && act.status.state in states }

  /**
   Job after job: each request for work is followed by what it brought, and that by the post that the agent waits,
   unless the agent goes offline or restarts.  The round ends there, or when there is no job.
   */
  ghost predicate AreJobs(m: seq<Act>)
    decreases |m|
  {
    && m != [] && m[0].Asked?
    && if m[0].grant == NoJob then |m| == 1
       else exists n :: 1 <= n < |m| && IsJob(m[0].grant, m[1..n]) && EndsJob(m, n)
  }

  ghost predicate EndsJob(m: seq<Act>, n: int)
    requires 1 <= n < |m|
    decreases |m|, 0
  {
    if n == |m| - 1 then PostsState(m[n], {Offline, Restart})
    else PostsState(m[n], {Waiting}) && AreJobs(m[n + 1..])
  }

  /** A round is a decision to stop, or jobs. */
  ghost predicate IsWork(m: seq<Act>) { (|m| == 1 && PostsState(m[0], {Offline, Restart})) || AreJobs(m) }

  lemma AskMarks(w: World, a: State)
    ensures Marks(AskedForWork(w, a).trace) == Marks(a.trace) + [Asked(GrantAt(w, a))]
  {
    TookMarks(w, a, Asked(GrantAt(w, a)));
  }

  lemma DoneMarks(w: World, a: State) returns (m: seq<Act>)
    ensures Marks(JobDone(w, a).state.trace) == Marks(a.trace) + m
    ensures if JobDone(w, a).stop then |m| == 1 && PostsState(m[0], {Offline, Restart}) else m == []
  {
    var o, b := OfflineCheck(w, a, AfterJob), Look(w, a, AfterJob, true);
    LookMarks(w, a, AfterJob, true);
    m := StopMarks(w, b, o.needed, b.flags.needsRestart, o.comment);
  }

  /** Offline, restart, or neither. */
  lemma StopMarks(w: World, b: State, offline: bool, restart: bool, comment: string) returns (m: seq<Act>)
    ensures var c := if offline then TakeOffline(w, b, comment)
                     else if restart then Restarted(w, b, b.flags.comment) else b;
      Marks(c.trace) == Marks(b.trace) + m
    ensures if offline || restart then |m| == 1 && PostsState(m[0], {Offline, Restart}) else m == []
  {
    m := [];
    if offline {
      PostMarks(w, b, Status(Offline, comment));
      m := [Posted(Status(Offline, comment), w.postOk(|b.trace|))];
    } else if restart {
      PostMarks(w, b, Status(Restart, b.flags.comment));
      m := [Posted(Status(Restart, b.flags.comment), w.postOk(|b.trace|))];
    }
  }

  lemma CheckedWorkMarks(w: World, a: State) returns (m: seq<Act>)
    ensures Marks(WorkChecked(w, a).state.trace) == Marks(a.trace) + m
    ensures if WorkChecked(w, a).stop then |m| == 1 && PostsState(m[0], {Offline, Restart}) else m == []
  {
    var d := RequestsFlagged(w, a);
    FlaggedMarks(w, a);
    m := StopMarks(w, d, d.flags.needsOffline, d.flags.needsRestart, d.flags.comment);
  }

  lemma FlaggedMarks(w: World, a: State)
    ensures Marks(RequestsFlagged(w, a).trace) == Marks(a.trace)
  {
    LookMarks(w, a, BeforeWork, true);
    LookMarks(w, Look(w, a, BeforeWork, true), BeforeWork, false);
  }

  /** The marks of one job and of the check after it. */
  lemma JobMarks(w: World, a: State) returns (job: seq<Act>, stop: seq<Act>)
    requires GrantAt(w, a) != NoJob
    ensures var grant := GrantAt(w, a);
      var d := JobDone(w, JobRun(w, AskedForWork(w, a), grant));
      && IsJob(grant, job) && Marks(d.state.trace) == Marks(a.trace) + ([Asked(grant)] + job + stop)
      && if d.stop then |stop| == 1 && PostsState(stop[0], {Offline, Restart}) else stop == []
  {
    var grant, b := GrantAt(w, a), AskedForWork(w, a);
    AskMarks(w, a);
    job := JobInOrder(w, b, grant);
    stop := DoneMarks(w, JobRun(w, b, grant));
    Assoc(Marks(a.trace), [Asked(grant)], job);
    Assoc(Marks(a.trace), [Asked(grant)] + job, stop);
  }

  lemma JobThenRest(grant: Grant, job: seq<Act>, post: Act, rest: seq<Act>)
    requires grant != NoJob && IsJob(grant, job)
    requires if rest == [] then PostsState(post, {Offline, Restart}) else PostsState(post, {Waiting}) && AreJobs(rest)
    ensures AreJobs([Asked(grant)] + job + [post] + rest)
  {
    var m, n := [Asked(grant)] + job + [post] + rest, 1 + |job|;
    assert m[1..n] == job && m[n] == post && m[n + 1..] == rest;
    assert EndsJob(m, n);
  }

  lemma {:induction false} WorkMarks(w: World, a: State) returns (m: seq<Act>)
    ensures Marks(Worked(w, a).trace) == Marks(a.trace) + m && AreJobs(m)
    decreases a.jobs
  {
    var grant := GrantAt(w, a);
    if grant == NoJob {
      AskMarks(w, a);
      return [Asked(NoJob)];
    }
    var job, stop := JobMarks(w, a);
    var d := JobDone(w, JobRun(w, AskedForWork(w, a), grant));
    if d.stop {
      m := LastJob(grant, job, stop);
    } else {
      var b := Post(w, d.state, Status(Waiting, ""));
      var post := Posted(Status(Waiting, ""), w.postOk(|d.state.trace|));
      PostMarks(w, d.state, Status(Waiting, ""));
      var rest := WorkMarks(w, b);
      JobThenRest(grant, job, post, rest);
      m := [Asked(grant)] + job + [post] + rest;
      Regroup(Marks(a.trace), [Asked(grant)] + job, stop, post, rest);
    }
  }

  lemma LastJob(grant: Grant, job: seq<Act>, stop: seq<Act>) returns (m: seq<Act>)
    requires grant != NoJob && IsJob(grant, job) && |stop| == 1 && PostsState(stop[0], {Offline, Restart})
    ensures m == [Asked(grant)] + job + stop && AreJobs(m)
  {
    JobThenRest(grant, job, stop[0], []);
    m := [Asked(grant)] + job + stop;
    assert m == [Asked(grant)] + job + [stop[0]] + [];
  }

  lemma Regroup(before: seq<Act>, done: seq<Act>, stop: seq<Act>, post: Act, rest: seq<Act>)
    requires stop == []
    ensures before + (done + stop) + [post] + rest == before + (done + [post] + rest)
  {
    assert done + stop == done;
  }

  /** A round of work, from the checks to the last request for a job. */
  lemma RoundInOrder(w: World, a: State) returns (m: seq<Act>)
    ensures Marks(JobsProcessed(w, a).trace) == Marks(a.trace) + m && IsWork(m)
  {
    var d := WorkChecked(w, a);
    m := CheckedWorkMarks(w, a);
    if !d.stop {
      assert Marks(a.trace) + m == Marks(a.trace);
      m := WorkMarks(w, d.state);
    }
  }

  // ---------------------------------------------------------------------------------------------
  // Round after round
  // ---------------------------------------------------------------------------------------------

  /** All that the agent has read, in order. */
  function Looks(t: seq<Step>): seq<Act> {
    if t == [] then [] else Looks(t[..|t| - 1]) + if t[|t| - 1].act.Looked? then [t[|t| - 1].act] else []
  }

  lemma TookLooks(w: World, a: State, act: Act)
    ensures Looks(Took(w, a, act).trace) == Looks(a.trace) + if act.Looked? then [act] else []
  {
    var s := Step(w.moves(|a.trace|), act);
    assert (a.trace + [s])[..|a.trace|] == a.trace;
  }

  lemma {:induction false} SignalsKeepOffline(f: Flags, ms: seq<Move>)
    ensures Signalled(f, ms).needsOffline == f.needsOffline
  {
    if ms != [] {
      SignalsKeepOffline(f, ms[..|ms| - 1]);
    }
  }

  lemma LookLooks(w: World, a: State, place: Place, forOffline: bool)
    ensures var b := Look(w, a, place, forOffline);
      && Looks(b.trace) == Looks(a.trace) + [Looked(place, forOffline, ReplyAt(w, a))]
      && b.flags.needsOffline == a.flags.needsOffline
  {
    var look := Looked(place, forOffline, ReplyAt(w, a));
    var b := Took(w, a, look);
    TookLooks(w, a, look);
    SignalsKeepOffline(a.flags, w.moves(|a.trace|));
    if look.reply.Some? {
      TookLooks(w, b, Heartbeat(look.reply.value, w.postOk(|b.trace|)));
      SignalsKeepOffline(b.flags, w.moves(|b.trace|));
    }
  }

  /** Idle looks: each but the last saw the agent down, and the last one only if there was no time for more. */
  ghost predicate IsIdling(ls: seq<Act>, flagged: bool, online: bool, polls: nat) {
    && 1 <= |ls| <= polls + 1
    && (forall i :: 0 <= i < |ls| ==> ls[i].Looked? && ls[i].place == Idle && ls[i].forOffline)
    && (forall i :: 0 <= i < |ls| - 1 ==> SeesDown(ls[i]) || flagged)
    && (online <==> !SeesDown(ls[|ls| - 1]) && !flagged)
    && (!online ==> |ls| == polls + 1)
  }

  /** The agent does nothing but look while it is offline, and stops as soon as it is not. */
  lemma {:induction false} IdlesWhileDown(w: World, a: State, polls: nat) returns (ls: seq<Act>)
    ensures var x := Awaited(w, a, polls);
      && Marks(x.state.trace) == Marks(a.trace) && Looks(x.state.trace) == Looks(a.trace) + ls
      && IsIdling(ls, a.flags.needsOffline, x.online, polls)
    decreases polls
  {
    var c, b := OfflineCheck(w, a, Idle), Look(w, a, Idle, true);
    var look := Looked(Idle, true, ReplyAt(w, a));
    LookMarks(w, a, Idle, true);
    LookLooks(w, a, Idle, true);
    ls := [look];
    if c.needed && polls > 0 {
      var rest := IdlesWhileDown(w, b, polls - 1);
      Assoc(Looks(a.trace), [look], rest);
      IdleFirst(look, rest, a.flags.needsOffline, Awaited(w, b, polls - 1).online, polls);
      ls := [look] + rest;
    }
  }

  lemma IdleFirst(look: Act, rest: seq<Act>, flagged: bool, online: bool, polls: nat)
    requires polls > 0 && IsIdling(rest, flagged, online, polls - 1)
    requires look.Looked? && look.place == Idle && look.forOffline && (SeesDown(look) || flagged)
    ensures IsIdling([look] + rest, flagged, online, polls)
  {
    var ls := [look] + rest;
    assert forall i :: 1 <= i < |ls| ==> ls[i] == rest[i - 1];
  }

  /** A record that was read is posted back exactly if a heartbeat is due. */
  lemma HeartbeatIff(w: World, a: State, place: Place, forOffline: bool)
    ensures var n, t := |a.trace|, Look(w, a, place, forOffline).trace;
      && n < |t| && t[..n] == a.trace && t[n].act == Looked(place, forOffline, ReplyAt(w, a))
      && if w.readOk(n) && w.heartbeatDue(n) then
           |t| == n + 2 && t[n + 1].act == Heartbeat(ReplyAt(w, a).value, w.postOk(n + 1))
         else |t| == n + 1
  {
  }

  /** An agent that goes offline because its record says so keeps the comment that is there. */
  lemma OfflineKeepsComment(w: World, a: State)
    requires ReplyAt(w, a).Some? && IsDown(ReplyAt(w, a).value.state) && !a.flags.needsOffline
    ensures var status := Status(Offline, ReplyAt(w, a).value.comment);
      && (exists arrived :: Marks(JobDone(w, a).state.trace) == Marks(a.trace) + [Posted(status, arrived)])
      && (exists arrived :: Marks(WorkChecked(w, a).state.trace) == Marks(a.trace) + [Posted(status, arrived)])
  {
    var b := Look(w, a, AfterJob, true);
    LookMarks(w, a, AfterJob, true);
    PostMarks(w, b, Status(Offline, ReplyAt(w, a).value.comment));
    var c := Look(w, a, BeforeWork, true);
    var d := Look(w, c, BeforeWork, false);
    LookLooks(w, a, BeforeWork, true);
    LookLooks(w, c, BeforeWork, false);
    UpdateKeeps(d.flags, ReplyAt(w, a).value.comment, false, true);
    FlaggedMarks(w, a);
    PostMarks(w, RequestsFlagged(w, a), Status(Offline, ReplyAt(w, a).value.comment));
  }

  /** A starting agent posts that it waits, exactly if it does not read that it is offline. */
  lemma ComesUpWaiting(w: World, server: Status, jobs: nat)
    ensures var a := NewAgent(server, jobs);
      var read := ReplyAt(w, a);
      && Looks(Started(w, a).trace) == [Looked(Startup, false, read)]
      && var m := Marks(Started(w, a).trace);
        if read.Some? && read.value.state == Offline then m == []
        else |m| == 1 && m[0].Posted? && m[0].status == Status(Waiting, "")
  {
    var a := NewAgent(server, jobs);
    var b := Look(w, a, Startup, false);
    var post := Posted(Status(Waiting, ""), w.postOk(|b.trace|));
    LookMarks(w, a, Startup, false);
    LookLooks(w, a, Startup, false);
    assert Marks(b.trace) == [] && Looks(b.trace) == [Looked(Startup, false, ReplyAt(w, a))];
    TookMarks(w, b, post);
    TookLooks(w, b, post);
  }

  /** Rounds of work, one after the other. */
  ghost predicate AreRounds(m: seq<Act>, n: nat)
    decreases n
  {
    if n == 0 then m == []
    else exists k :: 0 <= k <= |m| && AreRounds(m[..k], n - 1) && IsWork(m[k..])
  }

  /** All the rounds were made, unless the agent left to restart or stayed offline for as long as it was watched. */
  ghost predicate IsLife(before: seq<Act>, r: Round, rounds: nat, polls: nat, m: seq<Act>, n: nat) {
    && Marks(r.state.trace) == before + m && n <= rounds && AreRounds(m, n)
    && (if r.goesOn then n == rounds && !r.state.exited else r.state.exited || StaysDown(r.state, polls))
  }

  lemma {:induction false} LifeGoesOn(w: World, a: State, rounds: nat, polls: nat) returns (m: seq<Act>, n: nat)
    requires !a.exited
    ensures IsLife(Marks(a.trace), Lived(w, a, rounds, polls), rounds, polls, m, n)
  {
    m, n := [], 0;
    if rounds > 0 {
      var r := Lived(w, a, rounds - 1, polls);
      m, n := LifeGoesOn(w, a, rounds - 1, polls);
      if r.goesOn {
        m, n := LifeContinues(w, Marks(a.trace), r, rounds, polls, m, n);
      }
    }
  }

  lemma LifeContinues(w: World, before: seq<Act>, r: Round, rounds: nat, polls: nat, m: seq<Act>, n: nat)
    returns (m': seq<Act>, n': nat)
    requires rounds > 0 && r.goesOn && IsLife(before, r, rounds - 1, polls, m, n)
    ensures IsLife(before, RoundOf(w, r.state, polls), rounds, polls, m', n')
  {
    var work := OneRound(w, r.state, polls);
    var online := Awaited(w, r.state, polls).online;
    m', n' := NextRound(before, r, RoundOf(w, r.state, polls), rounds, polls, m, n, work, online);
  }

  /** What a round adds to the marks, if the agent comes online. */
  ghost predicate IsRound(a: State, r: Round, polls: nat, work: seq<Act>, online: bool) {
    if online then Marks(r.state.trace) == Marks(a.trace) + work && IsWork(work) && r.goesOn == !r.state.exited
    else Marks(r.state.trace) == Marks(a.trace) && !r.goesOn && StaysDown(r.state, polls)
  }

  lemma NextRound(
    before: seq<Act>, r: Round, next: Round, rounds: nat, polls: nat, m: seq<Act>, n: nat, work: seq<Act>,
    online: bool) returns (m': seq<Act>, n': nat)
    requires rounds > 0 && r.goesOn && IsLife(before, r, rounds - 1, polls, m, n)
    requires IsRound(r.state, next, polls, work, online)
    ensures IsLife(before, next, rounds, polls, m', n')
  {
    m', n' := m, n;
    if online {
      RoundsThenOne(m, n, work);
      Assoc(before, m, work);
      m', n' := m + work, n + 1;
    }
  }

  lemma RoundsThenOne(m: seq<Act>, n: nat, work: seq<Act>)
    requires AreRounds(m, n) && IsWork(work)
    ensures AreRounds(m + work, n + 1)
  {
    assert (m + work)[..|m|] == m && (m + work)[|m|..] == work;
  }

  /** The last looks all saw the agent offline. */
  ghost predicate StaysDown(b: State, polls: nat) {
    exists before: seq<Act>, ls: seq<Act> :: Looks(b.trace) == before + ls && |ls| == polls + 1
      && forall i :: 0 <= i < |ls| ==> ls[i].Looked? && ls[i].place == Idle && (SeesDown(ls[i]) || b.flags.needsOffline)
  }

  lemma OneRound(w: World, a: State, polls: nat) returns (work: seq<Act>)
    requires !a.exited
    ensures IsRound(a, RoundOf(w, a, polls), polls, work, Awaited(w, a, polls).online)
  {
    var x := Awaited(w, a, polls);
    var ls := IdlesWhileDown(w, a, polls);
    work := [];
    if x.online {
      work := RoundInOrder(w, x.state);
    } else {
      AwaitedKeepsFlag(w, a, polls);
      assert Looks(x.state.trace) == Looks(a.trace) + ls;
    }
  }

  lemma {:induction false} AwaitedKeepsFlag(w: World, a: State, polls: nat)
    ensures Awaited(w, a, polls).state.flags.needsOffline == a.flags.needsOffline
    decreases polls
  {
    LookLooks(w, a, Idle, true);
    if OfflineCheck(w, a, Idle).needed && polls > 0 {
      AwaitedKeepsFlag(w, Look(w, a, Idle, true), polls - 1);
    }
  }
}
