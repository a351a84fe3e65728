/**
 The agent: its deferred offline and restart requests, and the loop that runs jobs.

 The administrator and the restart signal act between any two steps of the agent.  Reads and posts of the
 agent's own record may fail.  All of that, and the outcome of every phase, is decided by an unknown world.
 */
module Agent {
  import opened Basics
  import opened AgentTrace

  // ---------------------------------------------------------------------------------------------
  // The status handler
  // ---------------------------------------------------------------------------------------------

  datatype Flags = Flags(needsRestart: bool, needsOffline: bool, comment: string)

  function Updated(f: Flags, comment: string, restart: bool, offline: bool): Flags {
    var f1 := if restart && !f.needsRestart then
                Flags(true, f.needsOffline, if f.needsOffline then f.comment else comment)
              else f;
    if offline && !f1.needsOffline then Flags(f1.needsRestart, true, comment)
    else if !offline && f1.needsOffline then Flags(f1.needsRestart, false, "")
    else f1
  }

  /** A restart once flagged stays flagged; the offline flag follows the argument; its comment prevails. */
  lemma UpdateKeeps(f: Flags, comment: string, restart: bool, offline: bool)
    ensures var g := Updated(f, comment, restart, offline);
      && g.needsRestart == (f.needsRestart || restart)
      && g.needsOffline == offline
      && (f.needsOffline && offline ==> g.comment == f.comment)
      && (f.needsOffline && !offline ==> g.comment == "")
      && (!f.needsOffline && offline ==> g.comment == comment)
      && (!f.needsOffline && !offline ==> g.comment == if restart && !f.needsRestart then comment else f.comment)
  {
  }

  class AgentStatusHandler {
    var needsRestart: bool
    var needsOffline: bool
    var comment: string

    function View(): Flags reads this { Flags(needsRestart, needsOffline, comment) }

    constructor ()
      ensures View() == Flags(false, false, "")
    {
      needsRestart, needsOffline, comment := false, false, "";
    }

    method Update(comment: string, restart: bool, offline: bool)
      modifies this
      ensures View() == Updated(old(View()), comment, restart, offline)
    {
      if restart && !needsRestart {
        needsRestart := true;
        if !needsOffline {
          this.comment := comment;
        }
      }
      if offline && !needsOffline {
        needsOffline := true;
        this.comment := comment;
      } else if !offline && needsOffline {
        needsOffline := false;
        this.comment := "";
      }
    }
  }

  // ---------------------------------------------------------------------------------------------
  // What each operation does
  // ---------------------------------------------------------------------------------------------

  /** The agent: its flags, its record on the server, the jobs left for it, and what it has done. */
  datatype State = State(flags: Flags, server: Status, jobs: nat, exited: bool, trace: seq<Step>)

  const SIGNAL_COMMENT := "Restart signal detected from supervisor process"
  const RECOVERY_COMMENT := "Set to offline by agent. Recovery failed"

  function Signalled(f: Flags, ms: seq<Move>): Flags {
    if ms == [] then f
    else
      var g := Signalled(f, ms[..|ms| - 1]);
      if ms[|ms| - 1].Signal? then Updated(g, SIGNAL_COMMENT, true, g.needsOffline) else g
  }

  /** The moments before the next step. */
  function Interfered(w: World, a: State): State {
    var ms := w.moves(|a.trace|);
    a.(flags := Signalled(a.flags, ms), server := MovedBy(a.server, ms))
  }

  function Took(w: World, a: State, act: Act): (b: State)
    ensures b.jobs == a.jobs && b.exited == a.exited
  {
    var b := Interfered(w, a);
    b.(server := ActedOn(b.server, act), trace := a.trace + [Step(w.moves(|a.trace|), act)])
  }

  function Post(w: World, a: State, status: Status): (b: State)
    ensures b.jobs == a.jobs && b.exited == a.exited
  {
    Took(w, a, Posted(status, w.postOk(|a.trace|)))
  }

  function ReplyAt(w: World, a: State): Option<Status> {
    if w.readOk(|a.trace|) then Some(Interfered(w, a).server) else None
  }

  /** Read the record, and post it back if a heartbeat is due. */
  function Look(w: World, a: State, place: Place, forOffline: bool): (b: State)
    ensures b.jobs == a.jobs && b.exited == a.exited
  {
    var reply := ReplyAt(w, a);
    var b := Took(w, a, Looked(place, forOffline, reply));
    if reply.Some? && w.heartbeatDue(|a.trace|) then Took(w, b, Heartbeat(reply.value, w.postOk(|b.trace|))) else b
  }

  function CommentOf(reply: Option<Status>): string { if reply.Some? then reply.value.comment else "" }

  datatype Check = Check(needed: bool, comment: string)

  function OfflineCheck(w: World, a: State, place: Place): Check {
    var reply, flags := ReplyAt(w, a), Look(w, a, place, true).flags;
    if reply.Some? && IsDown(reply.value.state) then Check(true, reply.value.comment)
    else if flags.needsOffline then Check(true, flags.comment)
    else Check(false, CommentOf(reply))
  }

  function RestartCheck(w: World, a: State, place: Place): Check {
    var reply, flags := ReplyAt(w, a), Look(w, a, place, false).flags;
    if reply.Some? && reply.value.state == Restart then Check(true, reply.value.comment)
    else if flags.needsRestart && !(reply.Some? && reply.value.state == Offline) then Check(true, flags.comment)
    else Check(false, CommentOf(reply))
  }

  function Flag(a: State, comment: string, restart: bool, offline: bool): State {
    a.(flags := Updated(a.flags, comment, restart, offline))
  }

  function TakeOffline(w: World, a: State, comment: string): (b: State)
    ensures b.jobs == a.jobs && b.exited == a.exited
  {
    Flag(Post(w, a, Status(Offline, comment)), comment, false, false)
  }

  function Restarted(w: World, a: State, comment: string): State {
    Post(w, a, Status(Restart, comment)).(exited := true)
  }

  function CheckedForOffline(w: World, a: State): (b: State)
    ensures b.jobs == a.jobs && b.exited == a.exited
  {
    if a.flags.needsOffline then a
    else
      var c, b := OfflineCheck(w, a, BeforePhase), Look(w, a, BeforePhase, true);
      if c.needed then Flag(b, c.comment, false, true) else b
  }

  function CheckedForRestart(w: World, a: State): (b: State)
    ensures b.jobs == a.jobs && b.exited == a.exited
  {
    if a.flags.needsRestart then a
    else
      var c, b := RestartCheck(w, a, BeforePhase), Look(w, a, BeforePhase, false);
      if c.needed then Flag(b, c.comment, true, b.flags.needsOffline) else b
  }

  datatype PhaseEnd = PhaseEnd(state: State, goesOn: bool)

  function PhaseStarted(w: World, a: State, phase: Phase): (b: State)
    ensures b.jobs == a.jobs && b.exited == a.exited
  {
    var c := CheckedForRestart(w, CheckedForOffline(w, a));
    Post(w, c, Status(Busy(phase), c.flags.comment))
  }

  function PhaseDone(w: World, a: State, phase: Phase): (e: PhaseEnd)
    ensures e.state.jobs == a.jobs && e.state.exited == a.exited
  {
    var b := Took(w, a, JobChecked(w.cancels(|a.trace|)));
    if w.cancels(|a.trace|) then PhaseEnd(b, false)
    else
      var p := PhaseStarted(w, b, phase);
      PhaseEnd(PhaseRan(w, p, phase), GoesOn(w.runs(|p.trace|), phase))
  }

  /** The phase runs; a failed recovery takes the agent offline. */
  function PhaseRan(w: World, a: State, phase: Phase): (b: State)
    ensures b.jobs == a.jobs && b.exited == a.exited
  {
    var outcome := w.runs(|a.trace|);
    var d := Took(w, a, Ran(phase, outcome));
    if outcome == Exits(RECOVERY_FAILED) then TakeOffline(w, d, RECOVERY_COMMENT) else d
  }

  predicate GoesOn(outcome: PhaseRun, phase: Phase) { outcome.Exits? && (outcome.code == 0 || phase == Test) }

  /** The phases from the k-th on. */
  function PhasesRun(w: World, a: State, k: nat): (b: State)
    requires k <= |TEST_PHASES|
    ensures b.jobs == a.jobs && b.exited == a.exited
    decreases |TEST_PHASES| - k
  {
    if k == |TEST_PHASES| then a
    else
      var e := PhaseDone(w, a, TEST_PHASES[k]);
      if e.goesOn then PhasesRun(w, e.state, k + 1) else e.state
  }

  datatype Decision = Decision(state: State, stop: bool)

  /** Look for both requests; an offline request takes priority. */
  function RequestsFlagged(w: World, a: State): State {
    var o, b := OfflineCheck(w, a, BeforeWork), Look(w, a, BeforeWork, true);
    var r, c := RestartCheck(w, b, BeforeWork), Look(w, b, BeforeWork, false);
    if o.needed then Flag(c, o.comment, false, true)
    else if r.needed then Flag(c, r.comment, true, c.flags.needsOffline)
    else c
  }

  function WorkChecked(w: World, a: State): Decision {
    var d := RequestsFlagged(w, a);
    if d.flags.needsOffline then Decision(TakeOffline(w, d, d.flags.comment), true)
    else if d.flags.needsRestart then Decision(Restarted(w, d, d.flags.comment), true)
    else Decision(d, false)
  }

  function JobDone(w: World, a: State): (d: Decision)
    ensures d.state.jobs == a.jobs
  {
    var o, b := OfflineCheck(w, a, AfterJob), Look(w, a, AfterJob, true);
    if o.needed then Decision(TakeOffline(w, b, o.comment), true)
    else if b.flags.needsRestart then Decision(Restarted(w, b, b.flags.comment), true)
    else Decision(b, false)
  }

  function GrantAt(w: World, a: State): Grant {
    if a.jobs > 0 then w.grants(|a.trace|) else NoJob
  }

  function AskedForWork(w: World, a: State): State {
    var grant := GrantAt(w, a);
    var b := Took(w, a, Asked(grant));
    if grant != NoJob then b.(jobs := b.jobs - 1) else b
  }

  /** The cleanup runs however the job went; nobody looks whether its exit code says that a recovery failed. */
  function CleanedUp(w: World, a: State): (b: State)
    ensures b.jobs == a.jobs && b.exited == a.exited
  {
    Took(w, a, Ran(Cleanup, Exits(w.cleanups(|a.trace|))))
  }

  function JobRun(w: World, a: State, grant: Grant): (b: State)
    ensures b.jobs == a.jobs && b.exited == a.exited
  {
    var b := if grant == Works then PhasesRun(w, a, 0) else a;
    if grant == FailsEarly(false) then b else CleanedUp(w, b)
  }

  /** Ask for a job and run it, until there is none or a request stops it. */
  function Worked(w: World, a: State): State
    decreases a.jobs
  {
    var grant, b := GrantAt(w, a), AskedForWork(w, a);
    if grant == NoJob then b
    else
      var d := JobDone(w, JobRun(w, b, grant));
      if d.stop then d.state
      else Worked(w, Post(w, d.state, Status(Waiting, "")))
  }

  function JobsProcessed(w: World, a: State): State {
    var d := WorkChecked(w, a);
    if d.stop then d.state else Worked(w, d.state)
  }

  /** On start, an agent that the server holds offline stays so; any other comes up waiting for work. */
  function Started(w: World, a: State): State {
    var reply, b := ReplyAt(w, a), Look(w, a, Startup, false);
    if reply.Some? && reply.value.state == Offline then b else Post(w, b, Status(Waiting, ""))
  }

  datatype Wait = Wait(state: State, online: bool)

  /** Wait, for some polls, until the agent is not offline. */
  function Awaited(w: World, a: State, polls: nat): Wait
    decreases polls
  {
    var c, b := OfflineCheck(w, a, Idle), Look(w, a, Idle, true);
    if !c.needed then Wait(b, true)
    else if polls == 0 then Wait(b, false)
    else Awaited(w, b, polls - 1)
  }

  datatype Round = Round(state: State, goesOn: bool)

  /** One round: wait until online, then process jobs; the life ends when it stays offline or leaves to restart. */
  function RoundOf(w: World, a: State, polls: nat): Round {
    var x := Awaited(w, a, polls);
    if !x.online then Round(x.state, false)
    else
      var b := JobsProcessed(w, x.state);
      Round(b, !b.exited)
  }

  /** The agent's life, watched for some rounds and, in each, for some polls. */
  function Lived(w: World, a: State, rounds: nat, polls: nat): Round {
    if rounds == 0 then Round(a, true)
    else
      var r := Lived(w, a, rounds - 1, polls);
      if r.goesOn then RoundOf(w, r.state, polls) else r
  }

  function NewAgent(server: Status, jobs: nat): State { State(Flags(false, false, ""), server, jobs, false, []) }

  function Life(w: World, server: Status, jobs: nat, rounds: nat, polls: nat): State {
    Lived(w, Started(w, NewAgent(server, jobs)), rounds, polls).state
  }

  // ---------------------------------------------------------------------------------------------
  // The agent
  // ---------------------------------------------------------------------------------------------

  class TestflingerAgent {
    const statusHandler: AgentStatusHandler
    const world: World
    /** The record that the server keeps of this agent. */
    var server: Status
    /** The jobs the server has left to hand out. */
    var jobs: nat
    var exited: bool
    var trace: seq<Step>

    function View(): State
      reads this, statusHandler
    {
      State(statusHandler.View(), server, jobs, exited, trace)
    }

    constructor (world: World, server: Status, jobs: nat)
      ensures this.world == world && fresh(statusHandler)
      ensures View() == NewAgent(server, jobs)
    {
      this.world, this.server, this.jobs := world, server, jobs;
      statusHandler := new AgentStatusHandler();
      exited, trace := false, [];
    }

    method RestartSignalHandler()
      modifies statusHandler
      ensures statusHandler.View()
           == Updated(old(statusHandler.View()), SIGNAL_COMMENT, true, old(statusHandler.needsOffline))
    {
      statusHandler.Update(SIGNAL_COMMENT, true, statusHandler.needsOffline);
    }

    /** Whatever the administrator and the supervisor do before the agent's next step. */
    method Interfere()
      modifies this`server, statusHandler
      ensures View() == Interfered(world, old(View()))
    {
      var moves := world.moves(|trace|);
      assert moves[..0] == [];
      for i := 0 to |moves|
        invariant server == MovedBy(old(server), moves[..i])
        invariant statusHandler.View() == Signalled(old(statusHandler.View()), moves[..i])
      {
        assert moves[..i + 1][..i] == moves[..i];
        match moves[i] {
          case Signal => RestartSignalHandler();
          case SetStatus(status) => server := status;
        }
      }
      assert moves[..|moves|] == moves;
    }

    /** Post a state for this agent; a failed post is swallowed. */
    method SetAgentState(state: AgentState, comment: string)
      modifies this`server, this`trace, statusHandler
      ensures View() == Post(world, old(View()), Status(state, comment))
      ensures world.postOk(|old(trace)|) ==> server == Status(state, comment)
    {
      Interfere();
      var arrived := world.postOk(|trace|);
      if arrived {
        server := Status(state, comment);
      }
      trace := trace + [Step(world.moves(|trace|), Posted(Status(state, comment), arrived))];
    }

    /** Read this agent's record, and post it back when a heartbeat is due. */
    method GetAgentState(place: Place, forOffline: bool) returns (reply: Option<Status>)
      modifies this`server, this`trace, statusHandler
      ensures View() == Look(world, old(View()), place, forOffline) && reply == ReplyAt(world, old(View()))
    {
      var n := |trace|;
      Interfere();
      reply := if world.readOk(n) then Some(server) else None;
      trace := trace + [Step(world.moves(n), Looked(place, forOffline, reply))];
      if reply.Some? && world.heartbeatDue(n) {
        SendHeartbeat(reply.value);
      }
    }

    method SendHeartbeat(status: Status)
      modifies this`server, this`trace, statusHandler
      ensures View() == Took(world, old(View()), Heartbeat(status, world.postOk(|old(trace)|)))
      ensures world.postOk(|old(trace)|) ==> server == status
    {
      Interfere();
      var arrived := world.postOk(|trace|);
      if arrived {
        server := status;
      }
      trace := trace + [Step(world.moves(|trace|), Heartbeat(status, arrived))];
    }

    method CheckOffline(place: Place) returns (needed: bool, comment: string)
      modifies this`server, this`trace, statusHandler
      ensures View() == Look(world, old(View()), place, true)
      ensures Check(needed, comment) == OfflineCheck(world, old(View()), place)
    {
      var reply := GetAgentState(place, true);
      if reply.Some? && (reply.value.state == Offline || reply.value.state == Maintenance) {
        return true, reply.value.comment;
      }
      if statusHandler.needsOffline {
        return true, statusHandler.comment;
      }
      return false, CommentOf(reply);
    }

    method CheckRestart(place: Place) returns (needed: bool, comment: string)
      modifies this`server, this`trace, statusHandler
      ensures View() == Look(world, old(View()), place, false)
      ensures Check(needed, comment) == RestartCheck(world, old(View()), place)
    {
      var reply := GetAgentState(place, false);
      if reply.Some? && reply.value.state == Restart {
        return true, reply.value.comment;
      }
      if statusHandler.needsRestart && !(reply.Some? && reply.value.state == Offline) {
        return true, statusHandler.comment;
      }
      return false, CommentOf(reply);
    }

    /** Post the restart and leave. */
    method RestartAgent(comment: string)
      modifies this`server, this`trace, this`exited, statusHandler
      ensures View() == Restarted(world, old(View()), comment)
    {
      SetAgentState(Restart, comment);
      exited := true;
    }

    /** Post the agent offline, then drop the flag so that it can be brought back. */
    method OfflineAgent(comment: string)
      modifies this`server, this`trace, statusHandler
      ensures View() == TakeOffline(world, old(View()), comment)
    {
      SetAgentState(Offline, comment);
      statusHandler.Update(comment, false, false);
    }

    method GetJobData() returns (grant: Grant)
      modifies this`server, this`trace, this`jobs, statusHandler
      ensures View() == AskedForWork(world, old(View())) && grant == GrantAt(world, old(View()))
      ensures grant == if old(jobs) > 0 then world.grants(|old(trace)|) else NoJob
      ensures jobs == old(jobs) - if grant == NoJob then 0 else 1
    {
      Interfere();
      grant := if jobs > 0 then world.grants(|trace|) else NoJob;
      trace := trace + [Step(world.moves(|trace|), Asked(grant))];
      if grant != NoJob {
        jobs := jobs - 1;
      }
    }

    method CheckJobState() returns (cancelled: bool)
      modifies this`server, this`trace, statusHandler
      ensures View() == Took(world, old(View()), JobChecked(world.cancels(|old(trace)|)))
      ensures cancelled == world.cancels(|old(trace)|)
    {
      Interfere();
      cancelled := world.cancels(|trace|);
      trace := trace + [Step(world.moves(|trace|), JobChecked(cancelled))];
    }

    method RunTestPhase(phase: Phase) returns (outcome: PhaseRun)
      modifies this`server, this`trace, statusHandler
      ensures View() == Took(world, old(View()), Ran(phase, world.runs(|old(trace)|)))
      ensures outcome == world.runs(|old(trace)|)
    {
      Interfere();
      outcome := world.runs(|trace|);
      trace := trace + [Step(world.moves(|trace|), Ran(phase, outcome))];
    }

    /** Before a phase: look for an offline and a restart request, unless one is already flagged. */
    method CheckBeforePhase()
      modifies this`server, this`trace, statusHandler
      ensures View() == CheckedForRestart(world, CheckedForOffline(world, old(View())))
    {
      if !statusHandler.needsOffline {
        var needed, comment := CheckOffline(BeforePhase);
        if needed {
          statusHandler.Update(comment, false, true);
        }
      }
      if !statusHandler.needsRestart {
        var needed, comment := CheckRestart(BeforePhase);
        if needed {
          statusHandler.Update(comment, true, statusHandler.needsOffline);
        }
      }
    }

    /** One phase, unless the job was cancelled; the result says whether the job goes on. */
    method RunPhase(phase: Phase) returns (goesOn: bool)
      modifies this`server, this`trace, statusHandler
      ensures PhaseEnd(View(), goesOn) == PhaseDone(world, old(View()), phase)
    {
      var cancelled := CheckJobState();
      if cancelled {
        return false;
      }
      CheckBeforePhase();
      SetAgentState(Busy(phase), statusHandler.comment);
      var outcome := RunTestPhase(phase);
      if outcome.Raises? {
        return false;
      }
      if outcome.code == RECOVERY_FAILED {
        OfflineAgent(RECOVERY_COMMENT);
      }
      return outcome.code == 0 || phase == Test;
    }

    method RunCleanup()
      modifies this`server, this`trace, statusHandler
      ensures View() == CleanedUp(world, old(View()))
    {
      Interfere();
      trace := trace + [Step(world.moves(|trace|), Ran(Cleanup, Exits(world.cleanups(|trace|))))];
    }

    /** A job: its phases, if it gets that far, and the cleanup, if there is anything to clean up in. */
    method RunJob(grant: Grant)
      modifies this`server, this`trace, statusHandler
      ensures View() == JobRun(world, old(View()), grant)
    {
      if grant == Works {
        RunPhases();
      }
      if grant != FailsEarly(false) {
        RunCleanup();
      }
    }

    /** The phases of one job, up to the first that ends it. */
    method RunPhases()
      modifies this`server, this`trace, statusHandler
      ensures View() == PhasesRun(world, old(View()), 0)
    {
      for k := 0 to |TEST_PHASES|
        invariant PhasesRun(world, View(), k) == PhasesRun(world, old(View()), 0)
      {
        var goesOn := RunPhase(TEST_PHASES[k]);
        if !goesOn {
          return;
        }
      }
    }

    /** The checks before the agent asks for its first job. */
    method CheckBeforeWork() returns (stop: bool)
      modifies this`server, this`trace, this`exited, statusHandler
      ensures Decision(View(), stop) == WorkChecked(world, old(View()))
    {
      var needsOffline, offlineComment := CheckOffline(BeforeWork);
      var needsRestart, restartComment := CheckRestart(BeforeWork);
      if needsOffline {
        statusHandler.Update(offlineComment, false, true);
      } else if needsRestart {
        statusHandler.Update(restartComment, true, statusHandler.needsOffline);
      }
      stop := statusHandler.needsOffline || statusHandler.needsRestart;
      if statusHandler.needsOffline {
        OfflineAgent(statusHandler.comment);
      } else if statusHandler.needsRestart {
        RestartAgent(statusHandler.comment);
      }
    }

    /** The checks after a job. */
    method CheckAfterJob() returns (stop: bool)
      modifies this`server, this`trace, this`exited, statusHandler
      ensures Decision(View(), stop) == JobDone(world, old(View()))
    {
      var needed, comment := CheckOffline(AfterJob);
      stop := needed || statusHandler.needsRestart;
      if needed {
        OfflineAgent(comment);
      } else if statusHandler.needsRestart {
        RestartAgent(statusHandler.comment);
      }
    }

    method ProcessJobs()
      modifies this, statusHandler
      ensures View() == JobsProcessed(world, old(View()))
    {
      var stop := CheckBeforeWork();
      if stop {
        return;
      }
      ghost var ready := View();
      var grant := GetJobData();
      while grant != NoJob
        invariant Worked(world, ready) == JobsProcessed(world, old(View()))
        invariant View() == AskedForWork(world, ready) && grant == GrantAt(world, ready)
        decreases ready.jobs
      {
        RunJob(grant);
        stop := CheckAfterJob();
        if stop {
          return;
        }
        SetAgentState(Waiting, "");
        ready := View();
        grant := GetJobData();
      }
    }

    method SetStartupState()
      modifies this`server, this`trace, statusHandler
      ensures View() == Started(world, old(View()))
    {
      var reply := GetAgentState(Startup, false);
      if !(reply.Some? && reply.value.state == Offline) {
        SetAgentState(Waiting, "");
      }
    }

    method AwaitOnline(polls: nat) returns (online: bool)
      modifies this`server, this`trace, statusHandler
      ensures Wait(View(), online) == Awaited(world, old(View()), polls)
    {
      var left := polls;
      var offline, reason := CheckOffline(Idle);
      ghost var before := old(View());
      while offline && left > 0
        invariant Awaited(world, before, left) == Awaited(world, old(View()), polls)
        invariant View() == Look(world, before, Idle, true)
        invariant Check(offline, reason) == OfflineCheck(world, before, Idle)
      {
        before := View();
        left := left - 1;
        offline, reason := CheckOffline(Idle);
      }
      online := !offline;
    }

    /** One round: wait until online, then process jobs. */
    method RunRound(polls: nat) returns (goesOn: bool)
      modifies this, statusHandler
      ensures Round(View(), goesOn) == RoundOf(world, old(View()), polls)
    {
      var online := AwaitOnline(polls);
      if !online {
        return false;
      }
      ProcessJobs();
      return !exited;
    }

    /** The agent's life, watched for some rounds, and in each for some polls. */
    method StartAgent(rounds: nat, polls: nat)
      modifies this, statusHandler
      ensures View() == Lived(world, Started(world, old(View())), rounds, polls).state
    {
      SetStartupState();
      ghost var start := View();
      var goesOn := true;
      for r := 0 to rounds
        invariant Round(View(), goesOn) == Lived(world, start, r, polls)
      {
        if goesOn {
          goesOn := RunRound(polls);
        }
      }
    }
  }
}
