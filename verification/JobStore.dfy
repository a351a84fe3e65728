/**
 The server's job queue: jobs, the agents' records, and stored attachment archives.

 Every database call is atomic.  Handlers make several of them, interleaved freely; a call still to be made is
 pending, and may be made at any time or never.
 */
module JobStore {
  import opened Basics
  import opened Results

  type Id = string

  /** No attachments, attachments announced but not stored, or stored. */
  datatype Attachments = NotAwaited | Awaited | Received

  datatype Job = Job(
    queue: string, excluded: set<string>, priority: int, attachments: Attachments, result: ResultData)

  /** The collections; an agent's record holds the job it is running, if any. */
  datatype Database = Database(jobs: map<Id, Job>, agents: map<string, Option<Id>>, files: set<Id>)

  // ---------------------------------------------------------------------------------------------
  // The database calls
  // ---------------------------------------------------------------------------------------------

  function AddJob(db: Database, id: Id, job: Job): Database {
    db.(jobs := db.jobs[id := job])
  }

  /** The filter an agent's request applies. */
  predicate Eligible(job: Job, queues: set<string>, agent: string) {
    && job.result.state == Some(Waiting)
    && job.queue in queues
    && (job.attachments == NotAwaited || job.attachments == Received)
    && agent !in job.excluded
  }

  /** What keeps a job from an agent: it does not wait, is elsewhere, lacks its archive, or excludes the agent. */
  predicate IsClosed(job: Job, queues: set<string>, agent: string) {
    job.result.state != Some(Waiting) || job.queue !in queues || job.attachments == Awaited || agent in job.excluded
  }

  /** A job that a request may be given: eligible, and no eligible job has a higher priority. */
  predicate MayPop(db: Database, queues: set<string>, agent: string, id: Id) {
    && id in db.jobs && Eligible(db.jobs[id], queues, agent)
    && forall other <- db.jobs :: Eligible(db.jobs[other], queues, agent) ==>
      db.jobs[other].priority <= db.jobs[id].priority
  }

  function Popped(db: Database, id: Id, agent: string, now: int): Database
    requires id in db.jobs
  {
    var job := db.jobs[id];
    db.(jobs := db.jobs[id := job.(result :=
      job.result.(state := Some(Running), changedAt := Some(now), agentId := Some(agent)))])
  }

  predicate Cancellable(db: Database, id: Id) {
    id in db.jobs && !(db.jobs[id].result.state.Some? && IsTerminal(db.jobs[id].result.state.value))
  }

  function CancelUpdate(db: Database, id: Id, now: int): Database {
    if Cancellable(db, id) then
      var job := db.jobs[id];
      db.(jobs := db.jobs[id := job.(result := job.result.(state := Some(Cancelled), changedAt := Some(now)))])
    else db
  }

  /** The post itself says the job is over, whatever the document said before. */
  predicate EndsJob(post: Post) { post.state.Some? && IsTerminal(post.state.value) }

  function PostUpdate(db: Database, id: Id, post: Post, now: int): Database {
    if id in db.jobs then
      db.(jobs := db.jobs[id := db.jobs[id].(result := UpdateResults(db.jobs[id].result, post, now))])
    else db
  }

  function AgentJobSet(db: Database, agent: string, id: Id): Database {
    if agent in db.agents then db.(agents := db.agents[agent := Some(id)]) else db
  }

  predicate Holds(db: Database, agent: string, id: Id) {
    agent in db.agents && db.agents[agent] == Some(id)
  }

  ghost predicate NobodyHolds(db: Database, id: Id) {
    forall a :: !Holds(db, a, id)
  }

  /** One record is cleared: the one found first. */
  function AgentJobCleared(db: Database, found: Option<string>): Database
    requires found.Some? ==> found.value in db.agents
  {
    if found.Some? then db.(agents := db.agents[found.value := None]) else db
  }

  predicate FindsHolder(db: Database, id: Id, found: Option<string>) {
    if found.Some? then Holds(db, found.value, id) else forall a <- db.agents :: !Holds(db, a, id)
  }

  function MarkReceived(db: Database, id: Id): Database {
    if id in db.jobs && db.jobs[id].attachments == Awaited then
      db.(jobs := db.jobs[id := db.jobs[id].(attachments := Received)])
    else db
  }

  // ---------------------------------------------------------------------------------------------
  // The calls as the server makes them
  // ---------------------------------------------------------------------------------------------

  class JobDatabase {
    var jobs: map<Id, Job>
    var agents: map<string, Option<Id>>
    var files: set<Id>

    function View(): Database reads this { Database(jobs, agents, files) }

    constructor ()
      ensures View() == Database(map[], map[], {})
    {
      jobs, agents, files := map[], map[], {};
    }

    method PopJob(queueList: set<string>, agentName: string, now: int) returns (popped: Option<Id>)
      modifies this`jobs
      ensures match popped
        case Some(id) => MayPop(old(View()), queueList, agentName, id)
                         && View() == Popped(old(View()), id, agentName, now)
        case None => View() == old(View())
      ensures popped.Some? ==>
                && popped.value in old(jobs)
                && var job := old(jobs)[popped.value];
                && job.result.state == Some(Waiting) && job.queue in queueList
                && job.attachments != Awaited && agentName !in job.excluded
                && forall id <- old(jobs) :: old(jobs)[id].priority > job.priority ==>
                  IsClosed(old(jobs)[id], queueList, agentName)
      ensures popped.Some? ==>
                && jobs.Keys == old(jobs).Keys
                && jobs[popped.value].result.state == Some(Running)
                && jobs[popped.value].result.agentId == Some(agentName)
                && jobs[popped.value].result.changedAt == Some(now)
      ensures popped.None? <==> forall id <- old(jobs) :: IsClosed(old(jobs)[id], queueList, agentName)
    {
      var best: Option<Id> := None;
      var todo := jobs.Keys;
      while todo != {}
        invariant todo <= jobs.Keys
        invariant best.Some? ==> best.value in jobs && Eligible(jobs[best.value], queueList, agentName)
        invariant forall id <- jobs.Keys - todo :: Eligible(jobs[id], queueList, agentName) ==>
          best.Some? && jobs[id].priority <= jobs[best.value].priority
        decreases |todo|
      {
        var id :| id in todo;
        todo := todo - {id};
        if Eligible(jobs[id], queueList, agentName)
           && (best.None? || jobs[id].priority > jobs[best.value].priority) {
          best := Some(id);
        }
      }
      popped := best;
      if best.Some? {
        var job := jobs[best.value];
        jobs := jobs[best.value := job.(result :=
          job.result.(state := Some(Running), changedAt := Some(now), agentId := Some(agentName)))];
      }
    }

    /** Unset the job on one agent record that holds it. */
    method ClearAgentJob(jobId: Id) returns (modified: nat, ghost found: Option<string>)
      modifies this`agents
      ensures FindsHolder(old(View()), jobId, found)
      ensures View() == AgentJobCleared(old(View()), found)
      ensures modified == if found.Some? then 1 else 0
      ensures agents == if found.Some? then old(agents)[found.value := None] else old(agents)
    {
      modified, found := 0, None;
      if a :| a in agents && agents[a] == Some(jobId) {
        agents := agents[a := None];
        modified, found := 1, Some(a);
      }
    }

    method SetAgentJob(agentName: string, jobId: Id)
      modifies this`agents
      ensures View() == AgentJobSet(old(View()), agentName, jobId)
      ensures agents.Keys == old(agents).Keys
      ensures forall a <- agents :: agents[a] == if a == agentName then Some(jobId) else old(agents)[a]
    {
      if agentName in agents {
        agents := agents[agentName := Some(jobId)];
      }
    }

    /** No modification at all means the job was already over and no record held it. */
    method CancelJob(jobId: Id, now: int) returns (modifications: nat, ghost found: Option<string>)
      modifies this`jobs, this`agents
      ensures FindsHolder(old(View()), jobId, found)
      ensures View() == AgentJobCleared(CancelUpdate(old(View()), jobId, now), found)
      ensures modifications == (if Cancellable(old(View()), jobId) then 1 else 0) + (if found.Some? then 1 else 0)
      ensures jobId in old(jobs) ==>
                if old(jobs)[jobId].result.state in {Some(Cancelled), Some(Complete), Some(Completed)} then
                  jobs == old(jobs) && modifications <= 1
                else
                  jobId in jobs && jobs[jobId].result.state == Some(Cancelled) && modifications >= 1
    {
      modifications := 0;
      if jobId in jobs {
        var job := jobs[jobId];
        if job.result.state.None? || job.result.state.value !in {Cancelled, Complete, Completed} {
          jobs := jobs[jobId := job.(result := job.result.(state := Some(Cancelled), changedAt := Some(now)))];
          modifications := modifications + 1;
        }
      }
      var cleared;
      cleared, found := ClearAgentJob(jobId);
      modifications := modifications + cleared;
    }

    /** Store a post and return the document as it was, from which the events are detected. */
    method UpdateJobResults(jobId: Id, post: Post, now: int)
      returns (before: Option<ResultData>, ghost found: Option<string>)
      modifies this`jobs, this`agents
      ensures before == if jobId in old(jobs) then Some(old(jobs)[jobId].result) else None
      ensures if post.state in {Some(Complete), Some(Completed), Some(Cancelled)}
              then FindsHolder(old(View()), jobId, found) else found == None
      ensures View() == AgentJobCleared(PostUpdate(old(View()), jobId, post, now), found)
      ensures jobId in old(jobs) ==>
                && jobId in jobs
                && var was, doc := old(jobs)[jobId].result, jobs[jobId].result;
                && doc.state == (if post.state.Some? then post.state else was.state)
                && doc.status == (if post.status.Some? then post.status else was.status)
                && doc.deviceInfo == (if post.deviceInfo.Some? then post.deviceInfo else was.deviceInfo)
                && doc.agentId == (if post.agentId.Some? then post.agentId else was.agentId)
                && doc.changedAt == if doc.state != was.state then Some(now) else was.changedAt
    {
      before := None;
      if jobId in jobs {
        var rd := jobs[jobId].result;
        before := Some(rd);
        if post.state.Some? && post.state != rd.state {
          rd := rd.(changedAt := Some(now));
        }
        if post.state.Some? {
          rd := rd.(state := post.state);
        }
        if post.status.Some? {
          rd := rd.(status := post.status);
        }
        if post.deviceInfo.Some? {
          rd := rd.(deviceInfo := post.deviceInfo);
        }
        if post.agentId.Some? {
          rd := rd.(agentId := post.agentId);
        }
        jobs := jobs[jobId := jobs[jobId].(result := rd)];
      }
      found := None;
      if post.state.Some? && post.state.value in {Complete, Completed, Cancelled} {
        var modified;
        modified, found := ClearAgentJob(jobId);
      }
    }

    method AttachmentsReceived(jobId: Id)
      modifies this`jobs
      ensures View() == MarkReceived(old(View()), jobId)
      ensures jobId in old(jobs) && old(jobs)[jobId].attachments == Awaited ==>
                jobId in jobs && jobs[jobId].attachments == Received
    {
      if jobId in jobs && jobs[jobId].attachments == Awaited {
        jobs := jobs[jobId := jobs[jobId].(attachments := Received)];
      }
    }
  }

  // ---------------------------------------------------------------------------------------------
  // Interleaved runs
  // ---------------------------------------------------------------------------------------------

  datatype Pending = SetAgent(agent: string, id: Id) | ClearAgent(id: Id) | MarkAttachments(id: Id)

  datatype Server = Server(db: Database, pending: multiset<Pending>)

  datatype Step =
    | Register(agent: string)
    | Submit(id: Id, job: Job, now: int)
    | SaveFile(id: Id)
    | Pop(agent: string, queues: set<string>, id: Id, now: int)
    | Cancel(id: Id, now: int)
    | PostResult(id: Id, post: Post, now: int)
    | RunSet(agent: string, id: Id)
    | RunClear(id: Id, found: Option<string>)
    | RunMark(id: Id)
    | Lose(p: Pending)

  /** What the agent code posts: a phase, "allocated" or "complete", never its own agent id. */
  predicate AgentPosts(post: Post) {
    && post.agentId.None?
    && (post.state.Some? ==> post.state.value.InPhase? || post.state.value in {Allocated, Complete})
  }

  predicate IsNewJob(job: Job, now: int) {
    && job.attachments != Received
    && job.result == ResultData(Some(Waiting), Some(now), None, None, None)
  }

  predicate Enabled(s: Server, step: Step) {
    match step
    case Register(_) => true
    case Submit(id, job, now) => id !in s.db.jobs && IsNewJob(job, now)
    case SaveFile(id) => id in s.db.jobs && s.db.jobs[id].attachments != NotAwaited
    case Pop(agent, queues, id, _) => MayPop(s.db, queues, agent, id)
    case Cancel(_, _) => true
    case PostResult(id, post, _) => id in s.db.jobs && AgentPosts(post)
    case RunSet(agent, id) => SetAgent(agent, id) in s.pending
    case RunClear(id, found) => ClearAgent(id) in s.pending && FindsHolder(s.db, id, found)
    case RunMark(id) => MarkAttachments(id) in s.pending
    case Lose(p) => p in s.pending
  }

  function Apply(s: Server, step: Step): Server
    requires Enabled(s, step)
  {
    match step
    case Register(agent) =>
      if agent in s.db.agents then s else s.(db := s.db.(agents := s.db.agents[agent := None]))
    case Submit(id, job, _) => s.(db := AddJob(s.db, id, job))
    case SaveFile(id) =>
      Server(s.db.(files := s.db.files + {id}), s.pending + multiset{MarkAttachments(id)})
    case Pop(agent, _, id, now) =>
      Server(Popped(s.db, id, agent, now), s.pending + multiset{SetAgent(agent, id)})
    case Cancel(id, now) => Server(CancelUpdate(s.db, id, now), s.pending + multiset{ClearAgent(id)})
    case PostResult(id, post, now) =>
      Server(PostUpdate(s.db, id, post, now),
             if EndsJob(post) then s.pending + multiset{ClearAgent(id)} else s.pending)
    case RunSet(agent, id) => Server(AgentJobSet(s.db, agent, id), s.pending - multiset{SetAgent(agent, id)})
    case RunClear(id, found) => Server(AgentJobCleared(s.db, found), s.pending - multiset{ClearAgent(id)})
    case RunMark(id) => Server(MarkReceived(s.db, id), s.pending - multiset{MarkAttachments(id)})
    case Lose(p) => s.(pending := s.pending - multiset{p})
  }

  const START := Server(Database(map[], map[], {}), multiset{})

  /** Runs, and the state each leads to. */
  function Exec(steps: seq<Step>): Option<Server> {
    if steps == [] then Some(START)
    else
      var before := Exec(steps[..|steps| - 1]);
      if before.Some? && Enabled(before.value, steps[|steps| - 1]) then
        Some(Apply(before.value, steps[|steps| - 1]))
      else None
  }

  predicate IsRun(steps: seq<Step>) { Exec(steps).Some? }

  function After(steps: seq<Step>): Server
    requires IsRun(steps)
  {
    Exec(steps).value
  }

  lemma {:induction false} RunPrefix(steps: seq<Step>, n: nat)
    requires IsRun(steps) && n <= |steps|
    ensures IsRun(steps[..n])
    ensures n < |steps| ==> Enabled(After(steps[..n]), steps[n])
    ensures n < |steps| ==> IsRun(steps[..n + 1]) && After(steps[..n + 1]) == Apply(After(steps[..n]), steps[n])
    decreases |steps|
  {
    if n == |steps| {
      assert steps[..n] == steps;
    } else if n == |steps| - 1 {
      assert steps[..n + 1] == steps;
    } else {
      RunPrefix(steps[..|steps| - 1], n);
      assert steps[..|steps| - 1][..n] == steps[..n];
      assert steps[..|steps| - 1][..n + 1] == steps[..n + 1];
    }
  }

  // ---------------------------------------------------------------------------------------------
  // What every step keeps
  // ---------------------------------------------------------------------------------------------

  /** The job was given to this agent, and only to it. */
  predicate GivenTo(db: Database, agent: string, id: Id) {
    && id in db.jobs
    && db.jobs[id].result.agentId == Some(agent)
    && db.jobs[id].result.state != Some(Waiting)
  }

  ghost predicate HoldersGiven(s: Server) {
    forall a, id :: Holds(s.db, a, id) ==> GivenTo(s.db, a, id)
  }

  ghost predicate PendingGiven(s: Server) {
    forall a, id :: SetAgent(a, id) in s.pending ==> GivenTo(s.db, a, id)
  }

  predicate MarkStored(s: Server, id: Id) { MarkAttachments(id) in s.pending ==> id in s.db.files }

  predicate ReceivedStored(s: Server, id: Id) {
    id in s.db.jobs && s.db.jobs[id].attachments == Received ==> id in s.db.files
  }

  ghost predicate ArchivesStored(s: Server) {
    forall id :: MarkStored(s, id) && ReceivedStored(s, id)
  }

  ghost predicate Inv(s: Server) {
    HoldersGiven(s) && PendingGiven(s) && ArchivesStored(s)
  }

  /** Given once, given for good: no step takes a job back or hands it on. */
  lemma GivenStays(s: Server, step: Step, agent: string, id: Id)
    requires Enabled(s, step) && GivenTo(s.db, agent, id)
    ensures GivenTo(Apply(s, step).db, agent, id)
  {
  }

  /** Of all posts, exactly one back to "waiting", or one that names another agent, would undo that. */
  lemma PostKeepsGivenIff(db: Database, agent: string, id: Id, post: Post, now: int)
    requires GivenTo(db, agent, id)
    ensures GivenTo(PostUpdate(db, id, post, now), agent, id)
       <==> post.state != Some(Waiting) && (post.agentId.Some? ==> post.agentId == Some(agent))
  {
  }

  lemma StepKeepsHolders(s: Server, step: Step)
    requires HoldersGiven(s) && PendingGiven(s) && Enabled(s, step)
    ensures HoldersGiven(Apply(s, step))
  {
    var s' := Apply(s, step);
    forall a, id | Holds(s'.db, a, id)
      ensures GivenTo(s'.db, a, id)
    {
      assert Holds(s.db, a, id) || step == RunSet(a, id);
      GivenStays(s, step, a, id);
    }
  }

  lemma StepKeepsPending(s: Server, step: Step)
    requires PendingGiven(s) && Enabled(s, step)
    ensures PendingGiven(Apply(s, step))
  {
    var s' := Apply(s, step);
    forall a, id | SetAgent(a, id) in s'.pending
      ensures GivenTo(s'.db, a, id)
    {
      if SetAgent(a, id) in s.pending {
        GivenStays(s, step, a, id);
      }
    }
  }

  lemma StepKeepsMark(s: Server, step: Step, id: Id)
    requires MarkStored(s, id) && Enabled(s, step)
    ensures MarkStored(Apply(s, step), id)
  {
  }

  lemma StepKeepsReceived(s: Server, step: Step, id: Id)
    requires MarkStored(s, id) && ReceivedStored(s, id) && Enabled(s, step)
    ensures ReceivedStored(Apply(s, step), id)
  {
  }

  lemma {:induction false} RunKeepsInv(steps: seq<Step>)
    requires IsRun(steps)
    ensures Inv(After(steps))
  {
    if steps != [] {
      var before, step := After(steps[..|steps| - 1]), steps[|steps| - 1];
      RunKeepsInv(steps[..|steps| - 1]);
      StepKeepsHolders(before, step);
      StepKeepsPending(before, step);
      forall id
        ensures MarkStored(After(steps), id) && ReceivedStored(After(steps), id)
      {
        assert MarkStored(before, id);
        StepKeepsMark(before, step, id);
        StepKeepsReceived(before, step, id);
      }
    }
  }

  // ---------------------------------------------------------------------------------------------
  // Who gets a job
  // ---------------------------------------------------------------------------------------------

  lemma {:induction false} GivenThroughout(steps: seq<Step>, i: nat, agent: string, id: Id)
    requires IsRun(steps) && i <= |steps| && IsRun(steps[..i])
    requires GivenTo(After(steps[..i]).db, agent, id)
    ensures GivenTo(After(steps).db, agent, id)
    decreases |steps|
  {
    if i == |steps| {
      assert steps[..i] == steps;
    } else {
      var init := steps[..|steps| - 1];
      assert init[..i] == steps[..i];
      GivenThroughout(init, i, agent, id);
      GivenStays(After(init), steps[|steps| - 1], agent, id);
    }
  }

  /** However requests interleave, a job is given out at most once. */
  lemma PoppedAtMostOnce(steps: seq<Step>, i: nat, j: nat)
    requires IsRun(steps) && i < j < |steps| && steps[i].Pop? && steps[j].Pop?
    ensures steps[i].id != steps[j].id
  {
    RunPrefix(steps, i);
    RunPrefix(steps, j);
    if steps[i].id == steps[j].id {
      assert steps[..j][..i + 1] == steps[..i + 1];
      GivenThroughout(steps[..j], i + 1, steps[i].agent, steps[i].id);
    }
  }

  /** At any time, a job marked as having its attachments has its archive stored. */
  lemma ArchiveStored(steps: seq<Step>, id: Id)
    requires IsRun(steps) && id in After(steps).db.jobs && After(steps).db.jobs[id].attachments == Received
    ensures id in After(steps).db.files
  {
    RunKeepsInv(steps);
    assert MarkStored(After(steps), id);
  }

  /** Never outside the requested queues, to an excluded agent, before its archive is stored, or out of turn. */
  lemma PopIsSound(steps: seq<Step>, i: nat)
    requires IsRun(steps) && i < |steps| && steps[i].Pop? && IsRun(steps[..i])
    ensures var db, pop := After(steps[..i]).db, steps[i];
      && pop.id in db.jobs
      && var job := db.jobs[pop.id];
      && job.result.state == Some(Waiting)
      && job.queue in pop.queues && pop.agent !in job.excluded
      && (job.attachments != NotAwaited ==> pop.id in db.files)
      && forall other <- db.jobs :: db.jobs[other].priority > job.priority ==>
        IsClosed(db.jobs[other], pop.queues, pop.agent)
  {
    RunPrefix(steps, i);
    if After(steps[..i]).db.jobs[steps[i].id].attachments == Received {
      ArchiveStored(steps[..i], steps[i].id);
    }
  }

  // ---------------------------------------------------------------------------------------------
  // Every job can be got
  // ---------------------------------------------------------------------------------------------

  /** Of finitely many jobs, one that is open to the agent has the highest priority. */
  lemma {:induction false} HighestOpen(db: Database, ids: set<Id>, queues: set<string>, agent: string, id: Id)
    returns (best: Id)
    requires ids <= db.jobs.Keys && id in ids && !IsClosed(db.jobs[id], queues, agent)
    ensures best in ids && !IsClosed(db.jobs[best], queues, agent)
    ensures forall other <- ids :: db.jobs[other].priority > db.jobs[best].priority ==>
      IsClosed(db.jobs[other], queues, agent)
    decreases |ids|
  {
    best := id;
    if x :| x in ids && !IsClosed(db.jobs[x], queues, agent) && db.jobs[x].priority > db.jobs[id].priority {
      best := HighestOpen(db, ids - {id}, queues, agent, x);
    }
  }

  /** A request is answered as soon as one job is open to it. */
  lemma OpenIsServed(s: Server, queues: set<string>, agent: string, id: Id, now: int) returns (best: Id)
    requires id in s.db.jobs && !IsClosed(s.db.jobs[id], queues, agent)
    ensures Enabled(s, Pop(agent, queues, best, now))
  {
    best := HighestOpen(s.db, s.db.jobs.Keys, queues, agent, id);
  }

  predicate IsMarked(db: Database, id: Id) { id in db.jobs && db.jobs[id].attachments != Awaited }

  predicate MarkKnown(s: Server, id: Id) { MarkAttachments(id) in s.pending ==> id in s.db.jobs }

  lemma MarkKnownStays(s: Server, step: Step, id: Id)
    requires MarkKnown(s, id) && Enabled(s, step)
    ensures MarkKnown(Apply(s, step), id)
  {
  }

  lemma {:induction false} MarksKnown(steps: seq<Step>, id: Id)
    requires IsRun(steps)
    ensures MarkKnown(After(steps), id)
  {
    if steps != [] {
      MarksKnown(steps[..|steps| - 1], id);
      MarkKnownStays(After(steps[..|steps| - 1]), steps[|steps| - 1], id);
    }
  }

  lemma MarkedStep(s: Server, step: Step, id: Id)
    requires IsMarked(s.db, id) && Enabled(s, step)
    ensures IsMarked(Apply(s, step).db, id)
  {
  }

  lemma {:induction false} MarkedStays(steps: seq<Step>, i: nat, id: Id)
    requires IsRun(steps) && i <= |steps| && IsRun(steps[..i]) && IsMarked(After(steps[..i]).db, id)
    ensures IsMarked(After(steps).db, id)
    decreases |steps|
  {
    if i == |steps| {
      assert steps[..i] == steps;
    } else {
      var init := steps[..|steps| - 1];
      assert init[..i] == steps[..i];
      MarkedStays(init, i, id);
      MarkedStep(After(init), steps[|steps| - 1], id);
    }
  }

  /** Once its attachments are marked, a waiting job does not leave a request for its queue without an answer. */
  lemma MarkedIsServed(steps: seq<Step>, i: nat, queues: set<string>, agent: string, now: int) returns (best: Id)
    requires IsRun(steps) && i < |steps| && steps[i].RunMark?
    requires steps[i].id in After(steps).db.jobs ==>
      var job := After(steps).db.jobs[steps[i].id];
      job.result.state == Some(Waiting) && job.queue in queues && agent !in job.excluded
    ensures IsRun(steps + [Pop(agent, queues, best, now)])
  {
    var id := steps[i].id;
    RunPrefix(steps, i);
    MarksKnown(steps[..i], id);
    MarkedStays(steps, i + 1, id);
    best := OpenIsServed(After(steps), queues, agent, id, now);
    RunSnoc(steps, Pop(agent, queues, best, now));
  }

  /** No two agent records show the same job. */
  lemma OneHolder(steps: seq<Step>, a: string, b: string, id: Id)
    requires IsRun(steps)
    requires Holds(After(steps).db, a, id) && Holds(After(steps).db, b, id)
    ensures a == b && GivenTo(After(steps).db, a, id)
  {
    RunKeepsInv(steps);
  }

  /** So clearing the one record that is found leaves none. */
  lemma ClearingOneSuffices(steps: seq<Step>, id: Id, found: Option<string>)
    requires IsRun(steps) && Enabled(After(steps), RunClear(id, found))
    ensures NobodyHolds(Apply(After(steps), RunClear(id, found)).db, id)
  {
    var db' := Apply(After(steps), RunClear(id, found)).db;
    forall a
      ensures !Holds(db', a, id)
    {
      if Holds(After(steps).db, a, id) && found.Some? {
        OneHolder(steps, a, found.value, id);
      }
    }
  }

  /** The end of a job, or its cancellation, makes the server clear its record. */
  lemma EndClears(steps: seq<Step>, step: Step, id: Id) returns (found: Option<string>)
    requires IsRun(steps) && Enabled(After(steps), step)
    requires (step.Cancel? && step.id == id)
      || (step.PostResult? && step.id == id
          && step.post.state in {Some(Complete), Some(Completed), Some(Cancelled)})
    ensures IsRun(steps + [step] + [RunClear(id, found)])
    ensures NobodyHolds(After(steps + [step] + [RunClear(id, found)]).db, id)
  {
    RunSnoc(steps, step);
    var s := After(steps + [step]);
    found := None;
    if a :| a in s.db.agents && Holds(s.db, a, id) {
      found := Some(a);
    }
    RunSnoc(steps + [step], RunClear(id, found));
    ClearingOneSuffices(steps + [step], id, found);
  }

  /** A call that records the agent is still to come. */
  ghost predicate RecordPending(s: Server, id: Id) {
    exists a :: SetAgent(a, id) in s.pending
  }

  lemma SettledFor(s: Server, step: Step, id: Id, a: string)
    requires Enabled(s, step) && id in s.db.jobs && s.db.jobs[id].result.state != Some(Waiting)
    requires !Holds(s.db, a, id) && SetAgent(a, id) !in s.pending
    ensures !Holds(Apply(s, step).db, a, id) && SetAgent(a, id) !in Apply(s, step).pending
  {
    if step.RunSet? {
      assert step.agent == a ==> step.id != id;
    } else if step.Pop? {
      assert step.id != id;
    }
  }

  lemma SettledStep(s: Server, step: Step, id: Id)
    requires Enabled(s, step) && id in s.db.jobs && s.db.jobs[id].result.state != Some(Waiting)
    requires NobodyHolds(s.db, id) && !RecordPending(s, id)
    ensures var s' := Apply(s, step);
      && id in s'.db.jobs && s'.db.jobs[id].result.state != Some(Waiting)
      && NobodyHolds(s'.db, id) && !RecordPending(s', id)
  {
    forall a
      ensures !Holds(Apply(s, step).db, a, id) && SetAgent(a, id) !in Apply(s, step).pending
    {
      SettledFor(s, step, id, a);
    }
  }

  lemma {:induction false} SettledStays(steps: seq<Step>, more: seq<Step>, id: Id)
    requires IsRun(steps) && IsRun(steps + more)
    requires id in After(steps).db.jobs && After(steps).db.jobs[id].result.state != Some(Waiting)
    requires NobodyHolds(After(steps).db, id) && !RecordPending(After(steps), id)
    ensures var s := After(steps + more);
      && id in s.db.jobs && s.db.jobs[id].result.state != Some(Waiting)
      && NobodyHolds(s.db, id) && !RecordPending(s, id)
    decreases |more|
  {
    if more == [] {
      assert steps + more == steps;
    } else {
      var n := |more| - 1;
      assert (steps + more)[..|steps + more| - 1] == steps + more[..n];
      SettledStays(steps, more[..n], id);
      SettledStep(After(steps + more[..n]), more[n], id);
    }
  }

  lemma RunSnoc(steps: seq<Step>, step: Step)
    requires IsRun(steps) && Enabled(After(steps), step)
    ensures IsRun(steps + [step]) && After(steps + [step]) == Apply(After(steps), step)
  {
    assert (steps + [step])[..|steps|] == steps;
  }

  /** A job given out can show up on a record later exactly if it does now, or a call for it is pending. */
  lemma RecordReappearsIff(steps: seq<Step>, id: Id)
    requires IsRun(steps) && id in After(steps).db.jobs && After(steps).db.jobs[id].result.state != Some(Waiting)
    ensures (exists more :: IsRun(steps + more) && !NobodyHolds(After(steps + more).db, id))
       <==> !NobodyHolds(After(steps).db, id) || RecordPending(After(steps), id)
  {
    if !NobodyHolds(After(steps).db, id) {
      assert steps + [] == steps;
    } else if RecordPending(After(steps), id) {
      var a :| SetAgent(a, id) in After(steps).pending;
      RunSnoc(steps, Register(a));
      RunSnoc(steps + [Register(a)], RunSet(a, id));
      var more := [Register(a), RunSet(a, id)];
      assert steps + [Register(a)] + [RunSet(a, id)] == steps + more;
      assert Holds(After(steps + more).db, a, id);
    } else {
      forall more | IsRun(steps + more)
        ensures NobodyHolds(After(steps + more).db, id)
      {
        SettledStays(steps, more, id);
      }
    }
  }

  // ---------------------------------------------------------------------------------------------
  // Timestamps and events
  // ---------------------------------------------------------------------------------------------

  function StateIn(s: Server, id: Id): Option<JobState> {
    if id in s.db.jobs then s.db.jobs[id].result.state else None
  }

  function TimeOf(step: Step): int {
    match step
    case Submit(_, _, now) => now
    case Pop(_, _, _, now) => now
    case Cancel(_, now) => now
    case PostResult(_, _, now) => now
    case _ => 0
  }

  /** A step after which the job's state is not what it was. */
  datatype Change = Change(at: int, before: Option<JobState>, after: Option<JobState>, byPost: bool)

  function StepChange(s: Server, step: Step, id: Id): seq<Change>
    requires Enabled(s, step)
  {
    var before, after := StateIn(s, id), StateIn(Apply(s, step), id);
    if before != after then [Change(TimeOf(step), before, after, step.PostResult?)] else []
  }

  function Changes(steps: seq<Step>, id: Id): seq<Change>
    requires IsRun(steps)
  {
    if steps == [] then []
    else
      var init := steps[..|steps| - 1];
      Changes(init, id) + StepChange(After(init), steps[|steps| - 1], id)
  }

  lemma ChangedNow(s: Server, step: Step, id: Id)
    requires Enabled(s, step) && id in Apply(s, step).db.jobs && StateIn(Apply(s, step), id) != StateIn(s, id)
    ensures Apply(s, step).db.jobs[id].result.changedAt == Some(TimeOf(step))
  {
  }

  lemma UpdateKeepsTime(rd: ResultData, post: Post, now: int)
    requires UpdateResults(rd, post, now).state == rd.state
    ensures UpdateResults(rd, post, now).changedAt == rd.changedAt
  {
  }

  lemma UnchangedStays(s: Server, step: Step, id: Id)
    requires Enabled(s, step) && id in Apply(s, step).db.jobs && StateIn(Apply(s, step), id) == StateIn(s, id)
    ensures id in s.db.jobs && Apply(s, step).db.jobs[id].result.changedAt == s.db.jobs[id].result.changedAt
  {
    if step.PostResult? && step.id == id {
      UpdateKeepsTime(s.db.jobs[id].result, step.post, step.now);
    } else if step.Cancel? && step.id == id {
      assert !Cancellable(s.db, id);
    }
  }

  /** The stored timestamp is the time of the last real change of state, whatever was posted since. */
  lemma {:induction false} ChangedAtIsLastChange(steps: seq<Step>, id: Id)
    requires IsRun(steps) && id in After(steps).db.jobs
    ensures var cs := Changes(steps, id);
      && cs != []
      && After(steps).db.jobs[id].result.changedAt == Some(cs[|cs| - 1].at)
      && StateIn(After(steps), id) == cs[|cs| - 1].after
  {
    if steps != [] {
      var init, step := steps[..|steps| - 1], steps[|steps| - 1];
      var before := After(init);
      assert After(steps) == Apply(before, step);
      assert Changes(steps, id) == Changes(init, id) + StepChange(before, step, id);
      if StateIn(After(steps), id) == StateIn(before, id) {
        UnchangedStays(before, step, id);
        ChangedAtIsLastChange(init, id);
      } else {
        ChangedNow(before, step, id);
      }
    }
  }

  /** The events detected for the posts to one job, in the order in which the posts were stored. */
  function StepEvents(s: Server, step: Step, id: Id): seq<Event>
    requires Enabled(s, step)
  {
    if step.PostResult? && step.id == id then DetectNewResultEvents(s.db.jobs[id].result, step.post) else []
  }

  function Detected(steps: seq<Step>, id: Id): seq<Event>
    requires IsRun(steps)
  {
    if steps == [] then []
    else
      var init := steps[..|steps| - 1];
      Detected(init, id) + StepEvents(After(init), steps[|steps| - 1], id)
  }

  function Lifecycle(es: seq<Event>): seq<Event> {
    if es == [] then []
    else Lifecycle(es[..|es| - 1]) + if es[|es| - 1].PhaseCompleted? then [] else [es[|es| - 1]]
  }

  /** What a change of state made by a post announces. */
  function Announced(c: Change): seq<Event> {
    if !c.byPost then []
    else if c.after in {Some(Complete), Some(Completed)} then
      if c.before in {Some(Complete), Some(Completed)} then [] else [JobCompleted]
    else if c.after.Some? && c.after.value.InPhase? then [PhaseStarted(c.after.value.phase)]
    else []
  }

  function AnnouncedAll(cs: seq<Change>): seq<Event> {
    if cs == [] then [] else AnnouncedAll(cs[..|cs| - 1]) + Announced(cs[|cs| - 1])
  }

  lemma {:induction false} LifecycleConcat(a: seq<Event>, b: seq<Event>)
    ensures Lifecycle(a + b) == Lifecycle(a) + Lifecycle(b)
  {
    if b == [] {
      assert a + b == a;
    } else {
      LifecycleConcat(a, b[..|b| - 1]);
      assert (a + b)[..|a + b| - 1] == a + b[..|b| - 1];
    }
  }

  lemma {:induction false} NoLifecycleInPhaseEvents(before: Status, reported: Status)
    ensures Lifecycle(PhaseCompletedEvents(before, reported)) == []
  {
    if reported != [] {
      var n := |reported| - 1;
      NoLifecycleInPhaseEvents(before, reported[..n]);
      LifecycleConcat(PhaseCompletedEvents(before, reported[..n]),
        if HasPhase(before, reported[n].0) then [] else [PhaseCompleted(reported[n].0, reported[n].1)]);
    }
  }

  lemma DetectedLifecycle(rd: ResultData, post: Post, now: int)
    ensures Lifecycle(DetectNewResultEvents(rd, post))
         == if UpdateResults(rd, post, now).state != rd.state
            then Announced(Change(now, rd.state, UpdateResults(rd, post, now).state, true)) else []
  {
    NoLifecycleInPhaseEvents(StatusOf(rd.status), StatusOf(post.status));
    LifecycleConcat(PhaseCompletedEvents(StatusOf(rd.status), StatusOf(post.status)),
                    LifecycleEvents(rd.state, post.state));
  }

  lemma LifecycleStep(s: Server, step: Step, id: Id)
    requires Enabled(s, step)
    ensures Lifecycle(StepEvents(s, step, id)) == AnnouncedAll(StepChange(s, step, id))
  {
    if step.PostResult? && step.id == id {
      DetectedLifecycle(s.db.jobs[id].result, step.post, step.now);
    }
  }

  lemma AnnouncedConcat(a: seq<Change>, b: seq<Change>)
    requires |b| <= 1
    ensures AnnouncedAll(a + b) == AnnouncedAll(a) + AnnouncedAll(b)
  {
    if b == [] {
      assert a + b == a;
    } else {
      assert (a + b)[..|a|] == a && b[..0] == [];
    }
  }

  /** Started and completed events are exactly, in order, the changes made by posts into a phase or to the end. */
  lemma {:induction false} EventsAreChanges(steps: seq<Step>, id: Id)
    requires IsRun(steps)
    ensures Lifecycle(Detected(steps, id)) == AnnouncedAll(Changes(steps, id))
  {
    if steps != [] {
      var init, step := steps[..|steps| - 1], steps[|steps| - 1];
      var before := After(init);
      EventsAreChanges(init, id);
      LifecycleStep(before, step, id);
      LifecycleConcat(Detected(init, id), StepEvents(before, step, id));
      AnnouncedConcat(Changes(init, id), StepChange(before, step, id));
    }
  }
}
