/**
 The hand-off of a device from the agent of a child job to the parent job.

 The child reports its device until one report is acknowledged, and only then calls itself allocated.  The
 network may lose, delay, reorder and repeat posts.  Others change the job's state meanwhile.
 */
module HandOff {
  import opened Basics
  import opened Results

  /** The device-info file of a child: it may be missing, or say nothing about the device. */
  datatype DeviceFile = Missing | Present(info: Option<string>)

  datatype Stage = Working | Reporting | Reported | Holding

  /** A child job's agent: what it has sent, and what of that the server has stored. */
  datatype Child = Child(file: DeviceFile, stage: Stage, sent: set<Post>, stored: set<Post>)

  datatype JobSpec = JobSpec(allocate: bool, parent: Option<nat>, file: DeviceFile)

  datatype Slot = Slot(job: JobSpec, child: Child, doc: ResultData)

  function FileInfo(f: DeviceFile): Option<string> { if f.Present? then f.info else None }

  function InfoPost(f: DeviceFile): Post { Post(None, None, FileInfo(f), None) }

  const ALLOCATED := Post(Some(Allocated), None, None, None)

  function NewSlot(job: JobSpec, now: int): Slot {
    Slot(job, Child(job.file, Working, {}, {}), ResultData(Some(JobState.Waiting), Some(now), None, None, None))
  }

  datatype Move =
    /** Any other post of the agent: phase starts, phase results, the device, the final outcome. */
    | Sends(post: Post)
    | StartsAllocating
    | Reports
    | SeesReportStored
    | CallsItselfAllocated
    | Stores(post: Post, now: int)
    /** A pop, a cancellation or anybody else's change of state. */
    | OthersSet(state: JobState, now: int)

  predicate Enabled(s: Slot, m: Move) {
    match m
    case Sends(p) =>
      p.state != Some(Allocated) && (p.deviceInfo.Some? ==> p.deviceInfo == FileInfo(s.child.file))
    case StartsAllocating => s.job.allocate && s.child.stage == Working
    case Reports => s.child.stage == Reporting && s.child.file.Present?
    case SeesReportStored =>
      s.child.stage == Reporting && s.child.file.Present? && InfoPost(s.child.file) in s.child.stored
    case CallsItselfAllocated => s.child.stage == Reported
    case Stores(p, now) => p in s.child.sent
    case OthersSet(state, now) => state != Allocated
  }

  function Apply(s: Slot, m: Move): Slot {
    match m
    case Sends(p) => s.(child := s.child.(sent := s.child.sent + {p}))
    case StartsAllocating => s.(child := s.child.(stage := Reporting))
    case Reports => s.(child := s.child.(sent := s.child.sent + {InfoPost(s.child.file)}))
    case SeesReportStored => s.(child := s.child.(stage := Reported))
    case CallsItselfAllocated => s.(child := s.child.(stage := Holding, sent := s.child.sent + {ALLOCATED}))
    case Stores(p, now) =>
      s.(child := s.child.(stored := s.child.stored + {p}), doc := UpdateResults(s.doc, p, now))
    case OthersSet(state, now) => s.(doc := UpdateResults(s.doc, Post(Some(state), None, None, None), now))
  }

  function Step(s: Slot, m: Move): Slot { if Enabled(s, m) then Apply(s, m) else s }

  function Run(s: Slot, ms: seq<Move>): Slot {
    if ms == [] then s else Step(Run(s, ms[..|ms| - 1]), ms[|ms| - 1])
  }

  predicate Reached(s: Slot) { InfoPost(s.child.file) in s.child.stored }

  /** A report of the device was stored; without the file there is no report. */
  predicate Acknowledged(s: Slot) { s.child.file.Present? && Reached(s) }

  ghost predicate Inv(s: Slot) {
    && s.child.stored <= s.child.sent
    && (forall p <- s.child.sent :: p.deviceInfo.Some? ==> p.deviceInfo == FileInfo(s.child.file))
    && (forall p <- s.child.sent :: p.state == Some(Allocated) ==> Acknowledged(s))
    && (s.child.stage in {Reported, Holding} ==> Acknowledged(s))
    && (s.child.stage != Working ==> s.job.allocate)
    && (forall p <- s.child.sent :: p.state == Some(Allocated) ==> s.job.allocate)
    && (s.doc.state == Some(Allocated) ==> s.job.allocate)
    && (s.doc.state == Some(Allocated) ==> Acknowledged(s))
    && (Reached(s) && FileInfo(s.child.file).Some? ==> s.doc.deviceInfo == FileInfo(s.child.file))
    && (s.doc.deviceInfo.Some? ==> s.doc.deviceInfo == FileInfo(s.child.file))
  }

  /** `b` comes after `a`: the same job, with nothing stored undone. */
  predicate Later(a: Slot, b: Slot) {
    b.job == a.job && b.child.file == a.child.file && a.child.stored <= b.child.stored
  }

  lemma StepKeeps(s: Slot, m: Move)
    requires Inv(s)
    ensures Inv(Step(s, m)) && Later(s, Step(s, m))
  {
  }

  lemma {:induction false} RunKeeps(s: Slot, ms: seq<Move>)
    requires Inv(s)
    ensures Inv(Run(s, ms)) && Later(s, Run(s, ms))
  {
    if ms != [] {
      RunKeeps(s, ms[..|ms| - 1]);
      StepKeeps(Run(s, ms[..|ms| - 1]), ms[|ms| - 1]);
    }
  }

  lemma {:induction false} RunConcat(s: Slot, ms: seq<Move>, ns: seq<Move>)
    ensures Run(s, ms + ns) == Run(Run(s, ms), ns)
  {
    if ns == [] {
      assert ms + ns == ms;
    } else {
      assert (ms + ns)[..|ms + ns| - 1] == ms + ns[..|ns| - 1];
      RunConcat(s, ms, ns[..|ns| - 1]);
    }
  }

  /**
   Whoever has read "allocated" finds, then and ever after, the device that the child's file names.  Without a
   device in the file the document never names one.
   */
  lemma AllocatedThenDevice(job: JobSpec, start: int, before: seq<Move>, after: seq<Move>)
    requires Run(NewSlot(job, start), before).doc.state == Some(Allocated)
    ensures Run(NewSlot(job, start), before + after).doc.deviceInfo == FileInfo(job.file)
  {
    var s := NewSlot(job, start);
    RunKeeps(s, before);
    RunKeeps(Run(s, before), after);
    RunConcat(s, before, after);
  }

  /** "Allocated" needs an acknowledged report: without the file there is none, and no hand-off. */
  lemma NoFileNoHandOff(job: JobSpec, start: int, ms: seq<Move>)
    requires job.file.Missing?
    ensures Run(NewSlot(job, start), ms).doc.state != Some(Allocated)
  {
    RunKeeps(NewSlot(job, start), ms);
  }

  /** A child can come to be allocated exactly if it was told to allocate and has the file. */
  lemma CanHandOffIff(job: JobSpec, start: int)
    ensures (exists ms :: Run(NewSlot(job, start), ms).doc.state == Some(Allocated))
       <==> job.allocate && job.file.Present?
  {
    if job.allocate && job.file.Present? {
      var ms := HandsOff(job, start);
    }
    forall ms | Run(NewSlot(job, start), ms).doc.state == Some(Allocated)
      ensures job.allocate && job.file.Present?
    {
      RunKeeps(NewSlot(job, start), ms);
    }
  }

  /** Report the device, and once the report is stored post the state. */
  lemma HandsOff(job: JobSpec, start: int) returns (ms: seq<Move>)
    requires job.allocate && job.file.Present?
    ensures Run(NewSlot(job, start), ms).doc.state == Some(Allocated)
  {
    var report := InfoPost(job.file);
    var reporting := [StartsAllocating, Reports];
    var holding := [Stores(report, start), SeesReportStored];
    var stored := [CallsItselfAllocated, Stores(ALLOCATED, start)];
    var s := NewSlot(job, start);
    var s1 := RunTwo(s, StartsAllocating, Reports);
    var s2 := RunTwo(s1, Stores(report, start), SeesReportStored);
    var s3 := RunTwo(s2, CallsItselfAllocated, Stores(ALLOCATED, start));
    RunConcat(s, reporting, holding);
    RunConcat(s, reporting + holding, stored);
    ms := reporting + holding + stored;
  }

  lemma RunTwo(s: Slot, m: Move, n: Move) returns (t: Slot)
    ensures t == Step(Step(s, m), n) && Run(s, [m, n]) == t
  {
    t := Step(Step(s, m), n);
    assert [m, n][..1] == [m] && [m][..0] == [];
    assert Run(s, [m]) == Step(s, m);
  }
}
