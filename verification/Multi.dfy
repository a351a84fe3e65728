/**
 The multi-device connector: it submits the child jobs, waits until each was seen "allocated", and lists the
 devices; on any failure it cancels the children.

 Time, the replies to every request, and what the children and others do between requests are unknown.
 */
module Multi {
  import opened Basics
  import opened Results
  import opened HandOff

  /** Job ids are as fresh as the number of jobs submitted so far. */
  type JobId = nat

  type Duration = x: real | 0.0 <= x

  /** A failed submission may have stored the job: a reply that never came, or an error sent on the way back. */
  datatype SubmitReply = Accepted | HttpFailure(stored: bool) | OsFailure(stored: bool)

  /** The job is on the server, and the reply did not say so. */
  predicate IsLost(reply: SubmitReply) { !reply.Accepted? && reply.stored }

  datatype World = World(
    moves: nat -> seq<(JobId, Move)>, reachable: nat -> bool, delay: nat -> Duration,
    submit: nat -> SubmitReply, parentState: nat -> Option<JobState>)

  datatype Spec = NotADict | Dict(job: JobSpec)

  /** A reply, and the time it was given. */
  datatype Poll = OfParent(at: nat, state: Option<JobState>) | OfChild(job: JobId, at: nat, state: Option<JobState>)

  datatype Reason = NoJobs | CannotCreate | ParentDone | ChildDone(job: JobId) | TimedOut

  datatype Device = Device(job: JobId, info: Option<string>)

  datatype Outcome = Provisioned(devices: seq<Device>) | ProvisioningError(reason: Reason)

  /** A reply that stops the connector; "complete", the state that agents post, is not among those of the parent. */
  predicate Stops(p: Poll) {
    match p
    case OfParent(_, s) => s in {Some(Cancelled), Some(Completed)}
    case OfChild(_, _, s) => s in {Some(Cancelled), Some(Complete), Some(Completed)}
  }

  predicate Quiet(polls: seq<Poll>) { forall p <- polls :: !Stops(p) }

  /** A reply for this child, allocated or over. */
  predicate IsNews(p: Poll, job: JobId) {
    p.OfChild? && p.job == job && (p.state == Some(Allocated) || Stops(p))
  }

  predicate IsNoNews(p: Poll, job: JobId) {
    p.OfChild? && p.job == job && p.state != Some(Allocated) && !Stops(p)
  }

  /** One reply for each of the first jobs, none with news. */
  ghost predicate NoNews(replies: seq<Poll>, jobs: seq<JobId>) {
    |replies| <= |jobs| && forall i :: 0 <= i < |replies| ==> IsNoNews(replies[i], jobs[i])
  }

  /** The jobs were looked at in order up to the first with news; it is taken off the list, or ends the wait. */
  ghost predicate LookedAt(replies: seq<Poll>, jobs: seq<JobId>, left: seq<JobId>, failed: Option<JobId>) {
    var n := |replies|;
    || (n == |jobs| && NoNews(replies, jobs) && left == jobs && failed.None?)
    || (0 < n <= |jobs| && NoNews(replies[..n - 1], jobs) && IsNews(replies[n - 1], jobs[n - 1])
        && if replies[n - 1].state == Some(Allocated) then failed.None? && left == jobs[..n - 1] + jobs[n..]
           else failed == Some(jobs[n - 1]) && left == jobs)
  }

  /** What the connector adds to a job: allocate, and belong to this one. */
  function Injected(job: JobSpec, parent: nat): JobSpec { job.(allocate := true, parent := Some(parent)) }

  /** The jobs among a list of entries. */
  function Asked(list: seq<Spec>): (js: seq<JobSpec>)
    ensures |js| <= |list|
  {
    if list == [] then []
    else Asked(list[..|list| - 1]) + match list[|list| - 1] case NotADict => [] case Dict(job) => [job]
  }

  lemma {:induction false} AskedGrows(list: seq<Spec>, i: nat)
    requires i <= |list|
    ensures Asked(list[..i]) <= Asked(list)
    decreases |list| - i
  {
    if i == |list| {
      assert list[..i] == list;
    } else {
      AskedGrows(list, i + 1);
      assert list[..i + 1][..i] == list[..i];
    }
  }

  /** The i-th entry asks for the next job, or for none. */
  lemma AskedNext(list: seq<Spec>, i: nat)
    requires i < |list|
    ensures var n := |Asked(list[..i])|;
      && |Asked(list[..i + 1])| == n + (if list[i].Dict? then 1 else 0)
      && (list[i].Dict? ==> n < |Asked(list)| && Asked(list)[n] == list[i].job)
  {
    AskedGrows(list, i + 1);
    assert list[..i + 1][..i] == list[..i];
  }

  ghost predicate Subset(a: seq<JobId>, b: seq<JobId>) { forall i :: 0 <= i < |a| ==> a[i] in b }

  /** The jobs are the first of those asked for, each told to allocate and linked to its parent. */
  ghost predicate Matches(js: seq<JobId>, specs: seq<JobSpec>, asked: seq<JobSpec>, parent: nat) {
    && |js| <= |asked|
    && forall i :: 0 <= i < |js| ==> js[i] < |specs| && specs[js[i]] == JobSpec(true, Some(parent), asked[i].file)
  }

  lemma MatchesNext(js: seq<JobId>, specs: seq<JobSpec>, asked: seq<JobSpec>, parent: nat)
    requires Matches(js, specs, asked, parent) && |js| < |asked|
    ensures Matches(js + [|specs|], specs + [Injected(asked[|js|], parent)], asked, parent)
  {
  }

  /** Ids count up from 0, so that the list holds all ids below `n` exactly if it is that long. */
  lemma CoversIff(js: seq<JobId>, n: nat)
    requires forall i :: 0 <= i < |js| ==> js[i] == i
    ensures (forall j: JobId :: j < n ==> j in js) <==> n <= |js|
  {
    if n <= |js| {
      forall j: JobId | j < n
        ensures j in js
      {
        assert js[j] == j;
      }
    } else {
      assert |js| !in js;
    }
  }

  const DEFAULT_TIMEOUT := 7200

  function Timeout(given: Option<int>): int { if given.Some? then given.value else DEFAULT_TIMEOUT }

  class Multi {
    const world: World
    const jobId: nat
    var tick: nat
    var now: real
    /** The child jobs on the server by id, what their agents have done, and what they were submitted as. */
    var slots: seq<Slot>
    var specs: seq<JobSpec>
    var jobs: seq<JobId>
    var polls: seq<Poll>
    /** The jobs the connector has asked the server to cancel, in order. */
    var cancels: seq<JobId>
    /** The children as they were at each time, from 1 on. */
    ghost var history: seq<seq<Slot>>
    /** The times at which jobs were submitted. */
    ghost var submissions: seq<nat>

    ghost predicate Valid() reads this {
      && |slots| == |specs|
      && |history| == tick
      && (forall j {:trigger slots[j]} :: 0 <= j < |slots| ==>
            Inv(slots[j]) && slots[j].job == specs[j] && slots[j].child.file == specs[j].file)
      && (forall i :: 0 <= i < |jobs| ==> jobs[i] == i)
      && (forall i {:trigger polls[i]} :: 0 <= i < |polls| ==> Honest(polls[i]))
      && SubmittedSoFar()
    }

    /** A recorded reply is the state at that time, or none if the server could not be reached. */
    ghost predicate Honest(p: Poll) reads this`history {
      match p
      case OfParent(at, state) => state == if world.reachable(at) then world.parentState(at) else None
      case OfChild(job, at, state) =>
        && 0 < at <= |history| && job < |history[at - 1]|
        && state == if world.reachable(at) then history[at - 1][job].doc.state else None
    }

    /** The server has the jobs that were acknowledged, and one more if the reply to the last was lost. */
    ghost predicate SubmittedSoFar() reads this`submissions, this`jobs, this`specs {
      && |jobs| <= |submissions| <= |jobs| + 1
      && (forall i :: 0 <= i < |jobs| ==> world.submit(submissions[i]) == Accepted)
      && (|submissions| > |jobs| ==> world.submit(submissions[|jobs|]) != Accepted)
      && |specs| == |jobs| + if ReplyLost() then 1 else 0
    }

    /** The last job that was submitted was stored, but the reply did not arrive. */
    ghost predicate ReplyLost() reads this`submissions {
      submissions != [] && IsLost(world.submit(submissions[|submissions| - 1]))
    }

    /** The device of this child has reached the server. */
    ghost predicate HandedOff(j: JobId) reads this`slots {
      j < |slots| && Reached(slots[j])
    }

    /** Time goes on, and nothing a child has handed off is undone. */
    twostate predicate Follows() reads this {
      old(now) <= now && old(tick) <= tick && forall j: JobId :: old(HandedOff(j)) ==> HandedOff(j)
    }

    constructor (world: World, jobId: nat)
      ensures Valid() && jobs == [] && polls == [] && cancels == [] && submissions == []
      ensures this.world == world && this.jobId == jobId
    {
      this.world, this.jobId := world, jobId;
      tick, now, slots, specs, jobs, polls, cancels := 0, 0.0, [], [], [], [], [];
      history, submissions := [], [];
    }

    /** One step of a child, of the network, or of others; without effect if it is not enabled. */
    method Advance(j: JobId, m: Move)
      requires Valid() && j < |specs|
      modifies this`slots
      ensures Valid() && Follows()
      ensures slots == old(slots)[j := Step(old(slots)[j], m)]
    {
      StepKeeps(slots[j], m);
      slots := slots[j := Step(slots[j], m)];
    }

    method Interfere()
      requires Valid()
      modifies this`tick, this`now, this`history, this`slots
      ensures Valid() && Follows() && tick == old(tick) + 1 && history == old(history) + [slots]
    {
      var moves := world.moves(tick);
      now := now + world.delay(tick);
      for i := 0 to |moves|
        invariant Valid() && Follows() && tick == old(tick) && history == old(history)
      {
        var (j, m) := moves[i];
        if j < |specs| {
          Advance(j, m);
        }
      }
      tick := tick + 1;
      history := history + [slots];
    }

    method Sleep(seconds: Duration)
      requires Valid()
      modifies this`tick, this`now, this`history, this`slots
      ensures Valid() && Follows()
      ensures now >= old(now) + seconds
    {
      now := now + seconds;
      Interfere();
    }

    /** The state of a child, unknown if the server cannot be reached. */
    method GetStatus(job: JobId) returns (state: Option<JobState>)
      requires Valid() && job < |specs|
      modifies this`tick, this`now, this`history, this`slots, this`polls
      ensures Valid() && Follows()
      ensures polls == old(polls) + [OfChild(job, tick, state)] && tick == old(tick) + 1
      ensures state == if world.reachable(tick) then slots[job].doc.state else None
      ensures state == Some(Allocated) ==> HandedOff(job)
    {
      Interfere();
      state := if world.reachable(tick) then slots[job].doc.state else None;
      polls := polls + [OfChild(job, tick, state)];
    }

    /** Ask the server to cancel a job.  The request may fail; a job that is over stays as it is. */
    method CancelJob(job: JobId)
      requires Valid() && job < |specs|
      modifies this`tick, this`now, this`history, this`slots, this`cancels
      ensures Valid() && Follows()
      ensures cancels == old(cancels) + [job]
      ensures world.reachable(tick) ==> slots[job].doc.state in {Some(Cancelled), Some(Complete), Some(Completed)}
    {
      cancels := cancels + [job];
      Interfere();
      if world.reachable(tick) && slots[job].doc.state !in {Some(Cancelled), Some(Complete), Some(Completed)} {
        Advance(job, OthersSet(Cancelled, tick));
      }
    }

    /** Cancel each job; a request that fails does not keep the others from being made. */
    method CancelJobs()
      requires Valid()
      modifies this`tick, this`now, this`history, this`slots, this`cancels
      ensures Valid() && Follows()
      ensures cancels == old(cancels) + jobs
    {
      for i := 0 to |jobs|
        invariant Valid() && Follows()
        invariant cancels == old(cancels) + jobs[..i]
      {
        assert jobs[..i + 1] == jobs[..i] + [jobs[i]];
        CancelJob(jobs[i]);
      }
    }

    method TerminateIfParentCompleted() returns (stop: bool)
      requires Valid()
      modifies this`tick, this`now, this`history, this`slots, this`polls, this`cancels
      ensures Valid() && Follows()
      ensures |polls| == |old(polls)| + 1 && polls[..|old(polls)|] == old(polls)
      ensures polls[|old(polls)|].OfParent? && stop == Stops(polls[|old(polls)|])
      ensures var t := old(tick) + 1;
                stop <==> world.reachable(t) && world.parentState(t) in {Some(Cancelled), Some(Completed)}
      ensures cancels == old(cancels) + if stop then jobs else []
    {
      Interfere();
      var state := if world.reachable(tick) then world.parentState(tick) else None;
      polls := polls + [OfParent(tick, state)];
      stop := state == Some(Cancelled) || state == Some(Completed);
      if stop {
        CancelJobs();
      }
    }

    /** Submit the jobs; the first that fails ends it, with all jobs that were acknowledged cancelled. */
    method CreateJobs(list: Option<seq<Spec>>) returns (error: Option<Reason>)
      requires Valid() && jobs == [] && submissions == [] && cancels == []
      modifies this`tick, this`now, this`history, this`slots, this`specs, this`jobs, this`submissions, this`cancels
      ensures Valid() && Follows()
      ensures error == Some(NoJobs) <==> list.None? || list.value == []
      ensures error in {None, Some(NoJobs), Some(CannotCreate)}
      ensures cancels == if error.Some? then jobs else []
      ensures error == Some(CannotCreate) <==> |submissions| > |jobs|
      ensures list.Some? ==> Submitted(list.value) && (error.None? ==> |jobs| == |Asked(list.value)|)
      ensures CoversAll() <==> !ReplyLost()
    {
      CoversIff(jobs, |specs|);
      if list.None? || list.value == [] {
        return Some(NoJobs);
      }
      error := SubmitAll(list.value);
      CoversIff(jobs, |specs|);
      if error.Some? {
        CancelJobs();
      }
    }

    /** Every child on the server is known to the connector. */
    ghost predicate CoversAll()
      reads this`jobs, this`specs
    {
      forall j: JobId :: j < |specs| ==> j in jobs
    }

    method SubmitAll(list: seq<Spec>) returns (error: Option<Reason>)
      requires Valid() && jobs == [] && submissions == []
      modifies this`tick, this`now, this`history, this`slots, this`specs, this`jobs, this`submissions
      ensures Valid() && Follows()
      ensures error in {None, Some(CannotCreate)}
      ensures error.Some? <==> |submissions| > |jobs|
      ensures Submitted(list) && (error.None? ==> |jobs| == |Asked(list)|)
    {
      for i := 0 to |list|
        invariant Valid() && Follows()
        invariant Submitted(list) && |jobs| == |submissions| == |Asked(list[..i])|
      {
        AskedNext(list, i);
        if list[i].Dict? {
          MatchesNext(jobs, specs, Asked(list), jobId);
          error := SubmitJob(Injected(list[i].job, jobId));
          if error.Some? {
            return;
          }
        }
      }
      assert list[..|list|] == list;
      error := None;
    }

    /** The jobs are the first of those asked for, each linked to this job and told to allocate. */
    ghost predicate Submitted(list: seq<Spec>)
      reads this`jobs, this`specs
    {
      Matches(jobs, specs, Asked(list), jobId)
    }

    /** Submit one job; a job the server stored without the reply arriving is not among `jobs`. */
    method SubmitJob(job: JobSpec) returns (error: Option<Reason>)
      requires Valid() && |submissions| == |jobs|
      modifies this`tick, this`now, this`history, this`slots, this`specs, this`jobs, this`submissions
      ensures Valid() && Follows() && submissions == old(submissions) + [old(tick) + 1]
      ensures error == if world.submit(old(tick) + 1) == Accepted then None else Some(CannotCreate)
      ensures jobs == old(jobs) + if error.None? then [|old(specs)|] else []
      ensures specs == old(specs) + if error.None? || ReplyLost() then [job] else []
    {
      Interfere();
      var reply := world.submit(tick);
      submissions := submissions + [tick];
      if reply == Accepted || IsLost(reply) {
        slots, specs := slots + [NewSlot(job, tick)], specs + [job];
      }
      error := Some(CannotCreate);
      if reply == Accepted {
        jobs := jobs + [|jobs|];
        error := None;
      }
    }

    /** One look at each job not yet allocated, up to the first that has news. */
    method PollOnce(unallocated: seq<JobId>) returns (left: seq<JobId>, failed: Option<JobId>)
      requires Valid() && Subset(unallocated, jobs)
      modifies this`tick, this`now, this`history, this`slots, this`polls
      ensures Valid() && Follows() && old(polls) <= polls
      ensures failed.None? ==> Quiet(old(polls)) ==> Quiet(polls)
      ensures failed.Some? ==> left == unallocated && StoppedBy(failed.value)
      ensures |left| <= |unallocated| <= |left| + 1
      ensures Subset(left, unallocated)
      ensures forall j <- unallocated :: j in left || SeenAllocated(j)
      ensures LookedAt(polls[|old(polls)|..], unallocated, left, failed)
    {
      left, failed := unallocated, None;
      ghost var replies: seq<Poll> := [];
      for i := 0 to |unallocated|
        invariant Valid() && Follows() && old(polls) <= polls
        invariant Quiet(old(polls)) ==> Quiet(polls)
        invariant left == unallocated && failed == None
        invariant polls == old(polls) + replies && |replies| == i && NoNews(replies, unallocated)
      {
        var job := unallocated[i];
        var state := GetStatus(job);
        replies := replies + [OfChild(job, tick, state)];
        assert replies[..i] == polls[|old(polls)|..][..i] && polls[|old(polls)|..] == replies;
        if state == Some(Allocated) {
          left := unallocated[..i] + unallocated[i + 1..];
          return;
        }
        if state == Some(Cancelled) || state == Some(Complete) || state == Some(Completed) {
          failed := Some(job);
          return;
        }
      }
      assert polls[|old(polls)|..] == replies;
    }

    /** The job was read as allocated, and its device has reached the server. */
    ghost predicate SeenAllocated(j: JobId)
      reads this`polls, this`slots
    {
      HandedOff(j) && exists at :: OfChild(j, at, Some(Allocated)) in polls
    }

    /** The last reply showed that this child is over. */
    ghost predicate StoppedBy(j: JobId)
      reads this`polls, this`jobs
    {
      j in jobs && polls != [] &&
      var last := polls[|polls| - 1];
      last.OfChild? && last.job == j && Stops(last)
    }

    /** The device that a child's results name; nothing if the server cannot be reached. */
    method GetDeviceInfo(job: JobId) returns (info: Option<string>)
      requires Valid() && job < |specs| && HandedOff(job)
      modifies this`tick, this`now, this`history, this`slots
      ensures Valid() && Follows() && tick == old(tick) + 1
      ensures info == if world.reachable(tick) then FileInfo(specs[job].file) else None
    {
      Interfere();
      info := if world.reachable(tick) then slots[job].doc.deviceInfo else None;
    }

    /** The list of devices; a device is missing from it only if the server could not be reached. */
    method SaveJobListFile() returns (devices: seq<Device>)
      requires Valid() && forall i :: 0 <= i < |jobs| ==> HandedOff(jobs[i])
      modifies this`tick, this`now, this`history, this`slots
      ensures Valid() && Follows()
      ensures ListedFrom(devices, old(tick))
    {
      devices := [];
      for i := 0 to |jobs|
        invariant Valid() && Follows() && tick == old(tick) + i
        invariant |devices| == i && forall k :: 0 <= k < i ==> Lists(devices[k], k, old(tick) + k + 1)
      {
        var info := GetDeviceInfo(jobs[i]);
        devices := devices + [Device(jobs[i], info)];
      }
    }

    /** Poll the children; one that is over ends the wait, with all of them cancelled. */
    method LookAtChildren(unallocated: seq<JobId>) returns (left: seq<JobId>, error: Option<Reason>)
      requires Valid() && Subset(unallocated, jobs) && cancels == [] && Quiet(polls)
      modifies this`tick, this`now, this`history, this`slots, this`polls, this`cancels
      ensures Valid() && Follows() && old(polls) <= polls
      ensures error.None? ==> cancels == [] && Quiet(polls)
      ensures error.None? ==> |left| <= |unallocated| <= |left| + 1 && Subset(left, unallocated)
      ensures error.None? ==> forall j <- unallocated :: j in left || SeenAllocated(j)
      ensures error.Some? ==> error.value.ChildDone? && cancels == jobs && StoppedFor(error.value)
      ensures LookedAt(polls[|old(polls)|..], unallocated, left, FailedJob(error))
    {
      var failed;
      left, failed := PollOnce(unallocated);
      error := None;
      if failed.Some? {
        CancelJobs();
        error := Some(ChildDone(failed.value));
      }
    }

    function FailedJob(error: Option<Reason>): Option<JobId> {
      if error.Some? && error.value.ChildDone? then Some(error.value.job) else None
    }

    /** Sleep, look at the parent, look at the children, look at the clock. */
    method AwaitRound(unallocated: seq<JobId>, start: real, timeout: int)
      returns (left: seq<JobId>, error: Option<Reason>)
      requires Valid() && Subset(unallocated, jobs) && cancels == [] && Quiet(polls) && start <= now
      modifies this`tick, this`now, this`history, this`slots, this`polls, this`cancels
      ensures Valid() && Follows() && old(polls) <= polls && old(now) + 10.0 <= now
      ensures error.None? ==> cancels == [] && Quiet(polls) && now - start <= timeout as real
      ensures error.None? ==> |left| <= |unallocated| <= |left| + 1 && Subset(left, unallocated)
      ensures error.None? ==> forall j <- unallocated :: j in left || SeenAllocated(j)
      ensures error.Some? ==> cancels == jobs && StoppedFor(error.value)
      ensures error == Some(TimedOut) ==> now - start > timeout as real
      ensures |polls| > |old(polls)| && polls[|old(polls)|].OfParent?
      ensures if Stops(polls[|old(polls)|]) then error == Some(ParentDone)
              else LookedAt(polls[|old(polls)| + 1..], unallocated, left, FailedJob(error))
    {
      Sleep(10.0);
      var stop := TerminateIfParentCompleted();
      if stop {
        return unallocated, Some(ParentDone);
      }
      left, error := LookAtChildren(unallocated);
      if error.None? && now - start > timeout as real {
        CancelJobs();
        error := Some(TimedOut);
      }
    }

    /** Round after round, until each child was seen allocated or something ends the wait. */
    method AwaitAllocated(timeout: int) returns (error: Option<Reason>, ghost rounds: nat)
      requires Valid() && cancels == [] && polls == []
      modifies this`tick, this`now, this`history, this`slots, this`polls, this`cancels
      ensures Valid() && Follows()
      ensures rounds <= 1 || 10 * (rounds - 1) <= timeout
      ensures error.None? ==> cancels == [] && Quiet(polls)
      ensures error.None? ==> AllAllocated()
      ensures error.None? ==> |jobs| <= rounds && (jobs == [] || 10 * rounds <= timeout)
      ensures error.Some? ==> cancels == jobs && StoppedFor(error.value)
      ensures error == Some(TimedOut) ==> now - old(now) > timeout as real
    {
      rounds, error := 0, None;
      var unallocated := jobs;
      var start := now;
      while unallocated != []
        invariant Valid() && Follows()
        invariant cancels == [] && Quiet(polls) && Subset(unallocated, jobs)
        invariant forall i :: 0 <= i < |jobs| ==> jobs[i] in unallocated || SeenAllocated(jobs[i])
        invariant 10.0 * rounds as real <= now - start
        invariant rounds > 0 ==> 10 * rounds <= timeout
        invariant |unallocated| <= |jobs| <= |unallocated| + rounds && (jobs == [] ==> rounds == 0)
        decreases timeout / 10 - rounds
      {
        rounds := rounds + 1;
        unallocated, error := AwaitRound(unallocated, start, timeout);
        if error.Some? {
          return;
        }
      }
      error := None;
    }

    /** The wait, and then the list of devices. */
    method Allocate(timeout: int) returns (outcome: Outcome, ghost rounds: nat)
      requires Valid() && cancels == [] && polls == []
      modifies this`tick, this`now, this`history, this`slots, this`polls, this`cancels
      ensures Valid() && Follows()
      ensures cancels == if outcome.Provisioned? then [] else jobs
      ensures rounds <= 1 || 10 * (rounds - 1) <= timeout
      ensures outcome.Provisioned? ==> Quiet(polls) && AllAllocated() && exists t :: ListedFrom(outcome.devices, t)
      ensures outcome.Provisioned? ==> |jobs| <= rounds && (jobs == [] || 10 * rounds <= timeout)
      ensures outcome.ProvisioningError? ==> StoppedFor(outcome.reason)
      ensures outcome == ProvisioningError(TimedOut) ==> now - old(now) > timeout as real
    {
      var error;
      error, rounds := AwaitAllocated(timeout);
      if error.Some? {
        return ProvisioningError(error.value), rounds;
      }
      ghost var t := tick;
      var devices := SaveJobListFile();
      assert ListedFrom(devices, t);
      outcome := Provisioned(devices);
    }

    ghost predicate AllAllocated()
      reads this`polls, this`slots, this`jobs
    {
      forall i :: 0 <= i < |jobs| ==> SeenAllocated(jobs[i])
    }

    /**
     Submit the children, wait until each was seen allocated, list their devices.

     Every round lasts ten seconds or more, and finds at most one child allocated.  An error leaves no child
     without an attempt to cancel it, if and only if no reply to a submission was lost; "complete" on the parent
     does not stop the wait.
     */
    method Provision(list: Option<seq<Spec>>, allocationTimeout: Option<int>)
      returns (outcome: Outcome, ghost rounds: nat)
      requires Valid() && jobs == [] && polls == [] && cancels == [] && submissions == []
      modifies this
      ensures Valid() && Follows()
      ensures list.Some? ==> Submitted(list.value)
      ensures Ended(outcome, list)
      ensures cancels == if outcome.Provisioned? then [] else jobs
      ensures outcome.ProvisioningError? ==> ((forall j: JobId :: j < |specs| ==> j in cancels) <==> !ReplyLost())
      ensures rounds <= 1 || 10 * (rounds - 1) <= Timeout(allocationTimeout)
      ensures outcome.Provisioned? ==> |jobs| <= rounds && (jobs == [] || 10 * rounds <= Timeout(allocationTimeout))
      ensures outcome == ProvisioningError(TimedOut) ==> now - old(now) > Timeout(allocationTimeout) as real
    {
      rounds := 0;
      var error := CreateJobs(list);
      if error.Some? {
        return ProvisioningError(error.value), rounds;
      }
      outcome, rounds := Allocate(Timeout(allocationTimeout));
    }

    /** What each way of ending means. */
    ghost predicate Ended(outcome: Outcome, list: Option<seq<Spec>>)
      reads this
    {
      match outcome
      case Provisioned(devices) =>
        && list.Some? && list.value != [] && |jobs| == |Asked(list.value)|
        && Quiet(polls)
        && AllAllocated()
        && exists t :: ListedFrom(devices, t)
      case ProvisioningError(NoJobs) => list.None? || list.value == []
      case ProvisioningError(CannotCreate) => list.Some? && list.value != [] && polls == [] && |submissions| > |jobs|
      case ProvisioningError(reason) => list.Some? && |jobs| == |Asked(list.value)| && StoppedFor(reason)
    }

    /** The reply, or the lack of one, that ended the wait. */
    ghost predicate StoppedFor(reason: Reason)
      reads this`polls, this`jobs
    {
      polls != [] &&
      match reason
      case ParentDone => polls[|polls| - 1].OfParent? && Stops(polls[|polls| - 1])
      case ChildDone(job) => StoppedBy(job)
      case TimedOut => Quiet(polls)
      case _ => false
    }

    ghost predicate ListedFrom(devices: seq<Device>, t: nat)
      reads this`specs, this`jobs
    {
      |devices| == |jobs| && forall k :: 0 <= k < |jobs| ==> Lists(devices[k], k, t + k + 1)
    }

    /** The entry of the k-th job: with its device if the request for it, at time `t`, got through. */
    ghost predicate Lists(d: Device, k: nat, t: nat)
      reads this`specs, this`jobs
    {
      && k < |jobs| && d.job == jobs[k] && jobs[k] < |specs|
      && d.info == if world.reachable(t) then FileInfo(specs[jobs[k]].file) else None
    }
  }

  /** A child whose submission was stored without a reply stays on the server, and nobody asks to cancel it. */
  method LostReplyLeavesChild(world: World, job: JobSpec) returns (m: Multi)
    requires forall t :: IsLost(world.submit(t))
    ensures fresh(m) && |m.specs| == 1 && m.jobs == [] && m.cancels == []
  {
    m := new Multi(world, 0);
    var list := [Dict(job)];
    assert list[..0] == [] && |Asked(list)| == 1;
    var outcome, rounds := m.Provision(Some(list), None);
    ghost var first := if m.submissions == [] then 0 else m.submissions[0];
    assert IsLost(world.submit(first));
  }
}
