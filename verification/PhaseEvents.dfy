/**
 Phase-completed events over a lossy link: cumulative posts, any of which may be lost or stored several times.  The
 server appends the events that it finds new one by one, while other handlers do the same.
 */
module PhaseEvents {
  import opened Basics
  import opened Results

  // ---------------------------------------------------------------------------------------------
  // The agent's outcome file
  // ---------------------------------------------------------------------------------------------

  function Recorded(st: Status, p: Phase, code: int): Status {
    if st == [] then [(p, code)]
    else if st[0].0 == p then [(p, code)] + st[1..]
    else [st[0]] + Recorded(st[1..], p, code)
  }

  class OutcomeFile {
    var status: Status

    constructor ()
      ensures status == []
    {
      status := [];
    }

    /** Set the exit code of a phase; the result is what is posted. */
    method UpdatePhaseResults(phase: Phase, exitcode: int) returns (posted: Status)
      modifies this
      ensures status == Recorded(old(status), phase, exitcode) && posted == status
      ensures if HasPhase(old(status), phase) then
                exists i :: 0 <= i < |old(status)| && old(status)[i].0 == phase
                            && status == old(status)[i := (phase, exitcode)]
              else status == old(status) + [(phase, exitcode)]
    {
      var i := 0;
      while i < |status| && status[i].0 != phase
        invariant i <= |status| && forall k :: 0 <= k < i ==> status[k].0 != phase
      {
        i := i + 1;
      }
      RecordedFrom(status, i, phase, exitcode);
      if i < |status| {
        status := status[i := (phase, exitcode)];
      } else {
        status := status + [(phase, exitcode)];
      }
      posted := status;
    }
  }

  /** The entry at the first place that has the phase is replaced, or a new one is put behind the last. */
  lemma {:induction false} RecordedFrom(st: Status, i: nat, p: Phase, code: int)
    requires i <= |st| && (forall k :: 0 <= k < i ==> st[k].0 != p) && (i < |st| ==> st[i].0 == p)
    ensures Recorded(st, p, code) == if i < |st| then st[i := (p, code)] else st + [(p, code)]
  {
    if i > 0 {
      RecordedFrom(st[1..], i - 1, p, code);
      assert st == [st[0]] + st[1..];
    }
  }

  ghost predicate Distinct(runs: Status) {
    forall i, j :: 0 <= i < j < |runs| ==> runs[i].0 != runs[j].0
  }

  /** A job runs each phase at most once, so its posts are the growing prefixes of one list. */
  lemma {:induction false} RecordedAppends(st: Status, p: Phase, code: int)
    requires !HasPhase(st, p)
    ensures Recorded(st, p, code) == st + [(p, code)]
  {
    if st != [] {
      assert st[0].0 != p;
      assert !HasPhase(st[1..], p) by {
        forall i | 0 <= i < |st[1..]|
          ensures st[1..][i].0 != p
        {
          assert st[1..][i] == st[i + 1];
        }
      }
      RecordedAppends(st[1..], p, code);
    }
  }

  // ---------------------------------------------------------------------------------------------
  // What the server stores of the agent's posts
  // ---------------------------------------------------------------------------------------------

  /** A stored post: with the exit codes of the first `upTo` phases, or without any. */
  datatype Delivery = Delivery(upTo: Option<nat>, state: Option<JobState>, deviceInfo: Option<string>)

  ghost predicate Deliverable(runs: Status, ds: seq<Delivery>) {
    forall i :: 0 <= i < |ds| && ds[i].upTo.Some? ==> ds[i].upTo.value <= |runs|
  }

  function PostOf(runs: Status, d: Delivery): Post
    requires d.upTo.Some? ==> d.upTo.value <= |runs|
  {
    Post(d.state, if d.upTo.Some? then Some(runs[..d.upTo.value]) else None, d.deviceInfo, None)
  }

  /** The document after a sequence of deliveries, starting from a job that has reported nothing. */
  function Document(runs: Status, ds: seq<Delivery>, rd: ResultData): ResultData
    requires Deliverable(runs, ds)
  {
    if ds == [] then rd
    else UpdateResults(Document(runs, ds[..|ds| - 1], rd), PostOf(runs, ds[|ds| - 1]), |ds|)
  }

  function EventsOf(runs: Status, ds: seq<Delivery>, rd: ResultData): (ess: seq<seq<Event>>)
    requires Deliverable(runs, ds)
    ensures |ess| == |ds|
  {
    if ds == [] then []
    else
      EventsOf(runs, ds[..|ds| - 1], rd)
      + [DetectNewResultEvents(Document(runs, ds[..|ds| - 1], rd), PostOf(runs, ds[|ds| - 1]))]
  }

  /** The phase-completed events of a list. */
  function CompletedIn(es: seq<Event>): seq<Event> {
    if es == [] then []
    else CompletedIn(es[..|es| - 1]) + if es[|es| - 1].PhaseCompleted? then [es[|es| - 1]] else []
  }

  function Concat(ess: seq<seq<Event>>): seq<Event> {
    if ess == [] then [] else Concat(ess[..|ess| - 1]) + ess[|ess| - 1]
  }

  lemma ConcatSnoc(ess: seq<seq<Event>>, es: seq<Event>)
    ensures Concat(ess + [es]) == Concat(ess) + es
  {
    assert (ess + [es])[..|ess|] == ess;
  }

  /** One event for each phase that was run. */
  function OnePerRun(runs: Status): (es: seq<Event>)
    ensures |es| == |runs|
  {
    seq(|runs|, i requires 0 <= i < |runs| => PhaseCompleted(runs[i].0, runs[i].1))
  }

  lemma OnePerRunSplit(runs: Status, l: nat, k: nat, m: nat)
    requires l <= k <= m <= |runs|
    ensures OnePerRun(runs[l..k]) + OnePerRun(runs[k..m]) == OnePerRun(runs[l..m])
  {
    assert runs[l..m] == runs[l..k] + runs[k..m];
  }

  lemma {:induction false} CompletedConcat(a: seq<Event>, b: seq<Event>)
    ensures CompletedIn(a + b) == CompletedIn(a) + CompletedIn(b)
  {
    if b == [] {
      assert a + b == a;
    } else {
      CompletedConcat(a, b[..|b| - 1]);
      assert (a + b)[..|a + b| - 1] == a + b[..|b| - 1];
    }
  }

  /** How many phases the stored document knows. */
  function Level(ds: seq<Delivery>): nat {
    if ds == [] then 0
    else if ds[|ds| - 1].upTo.Some? then ds[|ds| - 1].upTo.value
    else Level(ds[..|ds| - 1])
  }

  lemma {:induction false} DocumentLevel(runs: Status, ds: seq<Delivery>, rd: ResultData)
    requires Deliverable(runs, ds) && rd.status.None?
    ensures Level(ds) <= |runs| && StatusOf(Document(runs, ds, rd).status) == runs[..Level(ds)]
  {
    if ds != [] {
      DocumentLevel(runs, ds[..|ds| - 1], rd);
    }
  }

  lemma KnownPhase(runs: Status, l: nat, x: nat)
    requires Distinct(runs) && l <= |runs| && x < |runs|
    ensures HasPhase(runs[..l], runs[x].0) <==> x < l
  {
    if x < l {
      assert runs[..l][x].0 == runs[x].0;
    } else {
      forall i | 0 <= i < l
        ensures runs[..l][i].0 != runs[x].0
      {
        assert runs[..l][i] == runs[i];
      }
    }
  }

  /** A post of k phases on a document that knows l of them announces phases l to k, in order. */
  lemma {:induction false} NewPhases(runs: Status, l: nat, k: nat)
    requires Distinct(runs) && l <= |runs| && k <= |runs|
    ensures PhaseCompletedEvents(runs[..l], runs[..k]) == if k <= l then [] else OnePerRun(runs[l..k])
  {
    if k > 0 {
      NewPhases(runs, l, k - 1);
      assert runs[..k][..k - 1] == runs[..k - 1];
      KnownPhase(runs, l, k - 1);
      if k > l {
        OnePerRunSplit(runs, l, k - 1, k);
        assert OnePerRun(runs[k - 1..k]) == [PhaseCompleted(runs[k - 1].0, runs[k - 1].1)];
        assert k - 1 == l ==> OnePerRun(runs[l..k - 1]) == [];
      }
    }
  }

  lemma {:induction false} PhaseEventsCompleted(before: Status, reported: Status)
    ensures CompletedIn(PhaseCompletedEvents(before, reported)) == PhaseCompletedEvents(before, reported)
  {
    if reported != [] {
      var n := |reported| - 1;
      var rest := PhaseCompletedEvents(before, reported[..n]);
      PhaseEventsCompleted(before, reported[..n]);
      var (p, code) := reported[n];
      CompletedConcat(rest, if HasPhase(before, p) then [] else [PhaseCompleted(p, code)]);
    }
  }

  lemma DetectedCompleted(rd: ResultData, post: Post)
    ensures CompletedIn(DetectNewResultEvents(rd, post))
         == PhaseCompletedEvents(StatusOf(rd.status), StatusOf(post.status))
  {
    var phases := PhaseCompletedEvents(StatusOf(rd.status), StatusOf(post.status));
    var life := LifecycleEvents(rd.state, post.state);
    PhaseEventsCompleted(StatusOf(rd.status), StatusOf(post.status));
    CompletedConcat(phases, life);
    LifecycleNotCompleted(rd.state, post.state);
    assert CompletedIn(phases) + [] == phases;
  }

  lemma LifecycleNotCompleted(before: Option<JobState>, posted: Option<JobState>)
    ensures CompletedIn(LifecycleEvents(before, posted)) == []
  {
    var life := LifecycleEvents(before, posted);
    assert life != [] ==> life[..|life| - 1] == [];
  }

  /** What one delivery announces depends only on how far the document and the post have got. */
  lemma DeliveryCompletes(runs: Status, ds: seq<Delivery>, rd: ResultData)
    requires Distinct(runs) && Deliverable(runs, ds) && rd.status.None? && ds != []
    ensures var init := ds[..|ds| - 1]; var l, k := Level(init), Level(ds);
      && l <= |runs| && k <= |runs|
      && CompletedIn(DetectNewResultEvents(Document(runs, init, rd), PostOf(runs, ds[|ds| - 1])))
      == if k <= l then [] else OnePerRun(runs[l..k])
  {
    var init, d := ds[..|ds| - 1], ds[|ds| - 1];
    DocumentLevel(runs, init, rd);
    DocumentLevel(runs, ds, rd);
    DetectedCompleted(Document(runs, init, rd), PostOf(runs, d));
    if d.upTo.Some? {
      NewPhases(runs, Level(init), d.upTo.value);
    } else {
      assert StatusOf(PostOf(runs, d).status) == [];
    }
  }

  /** Posts are stored in the order of sending: no older one after a newer one. */
  predicate InOrder(ds: seq<Delivery>) {
    ds == [] || (InOrder(ds[..|ds| - 1]) && Level(ds[..|ds| - 1]) <= Level(ds))
  }

  /** Every step back makes phases be announced again later. */
  function StepsBack(ds: seq<Delivery>): nat {
    if ds == [] then 0
    else
      var l, k := Level(ds[..|ds| - 1]), Level(ds);
      StepsBack(ds[..|ds| - 1]) + if k < l then l - k else 0
  }

  lemma {:induction false} InOrderNeverBack(ds: seq<Delivery>)
    ensures InOrder(ds) <==> StepsBack(ds) == 0
  {
    if ds != [] {
      InOrderNeverBack(ds[..|ds| - 1]);
    }
  }

  /** All phase-completed events that a sequence of deliveries gives rise to. */
  function Completed(runs: Status, ds: seq<Delivery>, rd: ResultData): seq<Event>
    requires Deliverable(runs, ds)
  {
    CompletedIn(Concat(EventsOf(runs, ds, rd)))
  }

  lemma CompletedNext(runs: Status, ds: seq<Delivery>, rd: ResultData)
    requires Distinct(runs) && Deliverable(runs, ds) && rd.status.None? && ds != []
    ensures var init := ds[..|ds| - 1]; var l, k := Level(init), Level(ds);
      && l <= |runs| && k <= |runs|
      && Completed(runs, ds, rd) == Completed(runs, init, rd) + if k <= l then [] else OnePerRun(runs[l..k])
  {
    var init := ds[..|ds| - 1];
    DeliveryCompletes(runs, ds, rd);
    CompletedConcat(Concat(EventsOf(runs, init, rd)), EventsOf(runs, ds, rd)[|ds| - 1]);
    assert EventsOf(runs, ds, rd)[..|ds| - 1] == EventsOf(runs, init, rd);
  }

  lemma {:induction false} CompletedCount(runs: Status, ds: seq<Delivery>, rd: ResultData)
    requires Distinct(runs) && Deliverable(runs, ds) && rd.status.None?
    ensures |Completed(runs, ds, rd)| == Level(ds) + StepsBack(ds)
  {
    if ds != [] {
      CompletedCount(runs, ds[..|ds| - 1], rd);
      CompletedNext(runs, ds, rd);
    }
  }

  lemma {:induction false} CompletedInOrder(runs: Status, ds: seq<Delivery>, rd: ResultData)
    requires Distinct(runs) && Deliverable(runs, ds) && rd.status.None? && InOrder(ds)
    ensures Level(ds) <= |runs|
    ensures Completed(runs, ds, rd) == OnePerRun(runs[..Level(ds)])
  {
    DocumentLevel(runs, ds, rd);
    if ds != [] {
      var init := ds[..|ds| - 1];
      CompletedInOrder(runs, init, rd);
      CompletedNext(runs, ds, rd);
      OnePerRunSplit(runs, 0, Level(init), Level(ds));
      assert runs[0..Level(init)] == runs[..Level(init)] && runs[0..Level(ds)] == runs[..Level(ds)];
      assert Level(init) == Level(ds) ==> OnePerRun(runs[Level(init)..Level(ds)]) == [];
    }
  }

  /** At some time the document knows n phases. */
  predicate Reaches(ds: seq<Delivery>, n: nat) {
    Level(ds) == n || (ds != [] && Reaches(ds[..|ds| - 1], n))
  }

  /** The number of deliveries after which it first does. */
  function FirstReaching(ds: seq<Delivery>, n: nat): (f: nat)
    requires Reaches(ds, n)
    ensures f <= |ds| && Level(ds[..f]) == n
  {
    if ds != [] && Reaches(ds[..|ds| - 1], n) then
      var f := FirstReaching(ds[..|ds| - 1], n);
      assert ds[..|ds| - 1][..f] == ds[..f];
      f
    else
      assert ds[..|ds|] == ds;
      |ds|
  }

  /** After the first f deliveries no delivery tells the document of a phase that it does not know. */
  predicate NeverRises(ds: seq<Delivery>, f: nat) {
    |ds| <= f || (NeverRises(ds[..|ds| - 1], f) && Level(ds) <= Level(ds[..|ds| - 1]))
  }

  /** What such deliveries would announce again. */
  function Rises(ds: seq<Delivery>, f: nat): nat {
    if |ds| <= f then 0
    else
      var l, k := Level(ds[..|ds| - 1]), Level(ds);
      Rises(ds[..|ds| - 1], f) + if k > l then k - l else 0
  }

  lemma {:induction false} NoRisesIff(ds: seq<Delivery>, f: nat)
    ensures NeverRises(ds, f) <==> Rises(ds, f) == 0
  {
    if |ds| > f {
      NoRisesIff(ds[..|ds| - 1], f);
    }
  }

  lemma {:induction false} RisesAnnounce(runs: Status, ds: seq<Delivery>, rd: ResultData, f: nat)
    requires Distinct(runs) && Deliverable(runs, ds) && rd.status.None? && f <= |ds|
    ensures |Completed(runs, ds, rd)| == |Completed(runs, ds[..f], rd)| + Rises(ds, f)
    ensures Rises(ds, f) == 0 ==> Completed(runs, ds, rd) == Completed(runs, ds[..f], rd)
  {
    if f == |ds| {
      assert ds[..f] == ds;
    } else {
      var init := ds[..|ds| - 1];
      assert init[..f] == ds[..f];
      RisesAnnounce(runs, init, rd, f);
      CompletedNext(runs, ds, rd);
    }
  }

  /** A phase that the document never knows is never announced. */
  lemma {:induction false} NeverAnnounced(runs: Status, ds: seq<Delivery>, rd: ResultData)
    requires Distinct(runs) && Deliverable(runs, ds) && rd.status.None? && !Reaches(ds, |runs|)
    ensures runs != []
    ensures var (p, code) := runs[|runs| - 1]; PhaseCompleted(p, code) !in Completed(runs, ds, rd)
  {
    if ds != [] {
      var init := ds[..|ds| - 1];
      NeverAnnounced(runs, init, rd);
      CompletedNext(runs, ds, rd);
      if Level(init) < Level(ds) {
        LastNotAmong(runs, Level(init), Level(ds));
      }
    }
  }

  lemma LastNotAmong(runs: Status, l: nat, k: nat)
    requires Distinct(runs) && l <= k < |runs|
    ensures var (p, code) := runs[|runs| - 1]; PhaseCompleted(p, code) !in OnePerRun(runs[l..k])
  {
    assert forall i :: 0 <= i < k - l ==> runs[l..k][i] == runs[l + i];
  }

  /**
   In order until the document first knows all n phases, and telling it nothing new after that.  An older post may
   come later still, if no newer one follows it.
   */
  predicate OnceOver(ds: seq<Delivery>, n: nat) {
    Reaches(ds, n) && InOrder(ds[..FirstReaching(ds, n)]) && NeverRises(ds, FirstReaching(ds, n))
  }

  /** Each phase is announced exactly once, if and only if the deliveries run once over all phases. */
  lemma ExactlyOnceIff(runs: Status, ds: seq<Delivery>, rd: ResultData)
    requires Distinct(runs) && Deliverable(runs, ds) && rd.status.None?
    ensures multiset(Completed(runs, ds, rd)) == multiset(OnePerRun(runs)) <==> OnceOver(ds, |runs|)
  {
    if Reaches(ds, |runs|) {
      OnceIfReached(runs, ds, rd);
    } else {
      NeverAnnounced(runs, ds, rd);
      var last := OnePerRun(runs)[|runs| - 1];
      assert last in multiset(OnePerRun(runs));
    }
  }

  lemma OnceIfReached(runs: Status, ds: seq<Delivery>, rd: ResultData)
    requires Distinct(runs) && Deliverable(runs, ds) && rd.status.None? && Reaches(ds, |runs|)
    ensures multiset(Completed(runs, ds, rd)) == multiset(OnePerRun(runs)) <==> OnceOver(ds, |runs|)
  {
    var f := FirstReaching(ds, |runs|);
    InOrderNeverBack(ds[..f]);
    NoRisesIff(ds, f);
    CompletedCount(runs, ds[..f], rd);
    RisesAnnounce(runs, ds, rd, f);
    if OnceOver(ds, |runs|) {
      CompletedInOrder(runs, ds[..f], rd);
      assert runs[..|runs|] == runs;
    }
    assert |multiset(Completed(runs, ds, rd))| == |Completed(runs, ds, rd)|;
    assert |multiset(OnePerRun(runs))| == |runs|;
  }

  // ---------------------------------------------------------------------------------------------
  // Appending to the event log
  // ---------------------------------------------------------------------------------------------

  /** A handler stores its post and then holds the events it detected; it appends them one by one. */
  datatype LogStep = Store(es: seq<Event>) | Append(handler: nat)

  datatype EventLog = EventLog(log: seq<Event>, held: seq<seq<Event>>)

  predicate CanStep(l: EventLog, step: LogStep) {
    step.Append? ==> step.handler < |l.held| && l.held[step.handler] != []
  }

  function TakeStep(l: EventLog, step: LogStep): EventLog
    requires CanStep(l, step)
  {
    match step
    case Store(es) => l.(held := l.held + [es])
    case Append(h) => EventLog(l.log + [l.held[h][0]], l.held[h := l.held[h][1..]])
  }

  function ExecLog(steps: seq<LogStep>): Option<EventLog> {
    if steps == [] then Some(EventLog([], []))
    else
      var before := ExecLog(steps[..|steps| - 1]);
      if before.Some? && CanStep(before.value, steps[|steps| - 1]) then
        Some(TakeStep(before.value, steps[|steps| - 1]))
      else None
  }

  function StoresOf(steps: seq<LogStep>): seq<seq<Event>> {
    if steps == [] then []
    else StoresOf(steps[..|steps| - 1]) + if steps[|steps| - 1].Store? then [steps[|steps| - 1].es] else []
  }

  predicate AllAppended(l: EventLog) { forall h :: 0 <= h < |l.held| ==> l.held[h] == [] }

  lemma {:induction false} ConcatUpdate(ess: seq<seq<Event>>, h: nat)
    requires h < |ess| && ess[h] != []
    ensures multiset(Concat(ess)) == multiset(Concat(ess[h := ess[h][1..]])) + multiset{ess[h][0]}
  {
    var n := |ess| - 1;
    var ess' := ess[h := ess[h][1..]];
    if h < n {
      ConcatUpdate(ess[..n], h);
      assert ess'[..n] == ess[..n][h := ess[h][1..]] && ess'[n] == ess[n];
      assert Concat(ess') == Concat(ess'[..n]) + ess[n];
    } else {
      assert ess'[..n] == ess[..n] && Concat(ess') == Concat(ess[..n]) + ess[h][1..];
      assert ess[h] == [ess[h][0]] + ess[h][1..];
    }
  }

  lemma StepConserves(l: EventLog, step: LogStep)
    requires CanStep(l, step)
    ensures var l' := TakeStep(l, step);
      multiset(l'.log) + multiset(Concat(l'.held))
      == multiset(l.log) + multiset(Concat(l.held)) + if step.Store? then multiset(step.es) else multiset{}
  {
    match step
    case Store(es) => ConcatSnoc(l.held, es);
    case Append(h) => ConcatUpdate(l.held, h);
  }

  /** Whatever the interleaving, nothing is dropped or doubled between detection and log. */
  lemma {:induction false} LogConserves(steps: seq<LogStep>)
    requires ExecLog(steps).Some?
    ensures var l := ExecLog(steps).value;
      multiset(l.log) + multiset(Concat(l.held)) == multiset(Concat(StoresOf(steps)))
  {
    if steps != [] {
      var init, step := steps[..|steps| - 1], steps[|steps| - 1];
      LogConserves(init);
      StepConserves(ExecLog(init).value, step);
      if step.Store? {
        ConcatSnoc(StoresOf(init), step.es);
      } else {
        assert StoresOf(steps) == StoresOf(init);
      }
    }
  }

  lemma {:induction false} NothingHeld(ess: seq<seq<Event>>)
    requires forall h :: 0 <= h < |ess| ==> ess[h] == []
    ensures Concat(ess) == []
  {
    if ess != [] {
      NothingHeld(ess[..|ess| - 1]);
    }
  }

  lemma {:induction false} CompletedMultiset(es: seq<Event>, e: Event)
    ensures multiset(CompletedIn(es))[e] == if e.PhaseCompleted? then multiset(es)[e] else 0
  {
    if es != [] {
      var n := |es| - 1;
      CompletedMultiset(es[..n], e);
      assert es == es[..n] + [es[n]];
      assert multiset(es) == multiset(es[..n]) + multiset{es[n]};
    }
  }

  /** The log after all handlers are done: one completed event per phase run, with its exit code. */
  lemma LoggedExactlyOnce(runs: Status, ds: seq<Delivery>, rd: ResultData, steps: seq<LogStep>)
    requires Distinct(runs) && Deliverable(runs, ds) && rd.status.None? && OnceOver(ds, |runs|)
    requires ExecLog(steps).Some? && AllAppended(ExecLog(steps).value)
    requires StoresOf(steps) == EventsOf(runs, ds, rd)
    ensures multiset(CompletedIn(ExecLog(steps).value.log)) == multiset(OnePerRun(runs))
    ensures forall i :: 0 <= i < |runs| ==>
      multiset(CompletedIn(ExecLog(steps).value.log))[PhaseCompleted(runs[i].0, runs[i].1)] == 1
  {
    var l := ExecLog(steps).value;
    var detected := Concat(EventsOf(runs, ds, rd));
    LogConserves(steps);
    NothingHeld(l.held);
    ExactlyOnceIff(runs, ds, rd);
    SameCompleted(l.log, detected);
    forall i | 0 <= i < |runs|
      ensures multiset(OnePerRun(runs))[PhaseCompleted(runs[i].0, runs[i].1)] == 1
    {
      OneEach(runs, i);
    }
  }

  lemma SameCompleted(a: seq<Event>, b: seq<Event>)
    requires multiset(a) == multiset(b)
    ensures multiset(CompletedIn(a)) == multiset(CompletedIn(b))
  {
    forall e
      ensures multiset(CompletedIn(a))[e] == multiset(CompletedIn(b))[e]
    {
      CompletedMultiset(a, e);
      CompletedMultiset(b, e);
    }
  }

  lemma {:induction false} OneEach(runs: Status, i: nat)
    requires Distinct(runs) && i < |runs|
    ensures multiset(OnePerRun(runs))[PhaseCompleted(runs[i].0, runs[i].1)] == 1
  {
    var es, e := OnePerRun(runs), PhaseCompleted(runs[i].0, runs[i].1);
    assert es == es[..i] + [e] + es[i + 1..];
    assert e !in es[..i] && e !in es[i + 1..];
  }

  /** Only the newest handler still holds events. */
  ghost predicate OnlyLastHolds(l: EventLog) {
    forall h :: 0 <= h < |l.held| - 1 ==> l.held[h] == []
  }

  lemma LastAppends(held: seq<seq<Event>>, h: nat)
    requires h < |held| && held[h] != [] && forall i :: 0 <= i < |held| - 1 ==> held[i] == []
    ensures h == |held| - 1 && Concat(held) == held[h] && Concat(held[h := held[h][1..]]) == held[h][1..]
  {
    var rest, es := held[..h], held[h];
    NothingHeld(rest);
    ConcatSnoc(rest, es);
    ConcatSnoc(rest, es[1..]);
    assert held == rest + [es] && held[h := es[1..]] == rest + [es[1..]];
  }

  lemma SequentialStep(l: EventLog, step: LogStep)
    requires CanStep(l, step) && OnlyLastHolds(l) && (step.Store? ==> AllAppended(l))
    ensures OnlyLastHolds(TakeStep(l, step))
    ensures TakeStep(l, step).log + Concat(TakeStep(l, step).held)
         == l.log + Concat(l.held) + if step.Store? then step.es else []
  {
    match step
    case Store(es) =>
      ConcatSnoc(l.held, es);
    case Append(h) =>
      LastAppends(l.held, h);
      MoveFirst(l.log, l.held[h]);
  }

  lemma MoveFirst(a: seq<Event>, b: seq<Event>)
    requires b != []
    ensures (a + [b[0]]) + b[1..] == a + b
  {
  }

  /** A post is stored only when the handler of the one before it has appended its events. */
  ghost predicate Sequential(steps: seq<LogStep>) {
    steps == [] ||
    (var init := steps[..|steps| - 1];
     Sequential(init)
     && (steps[|steps| - 1].Store? && ExecLog(init).Some? ==> AllAppended(ExecLog(init).value)))
  }

  /** Handlers that run one after the other also keep the order. */
  lemma {:induction false} SequentialLogInOrder(steps: seq<LogStep>)
    requires ExecLog(steps).Some? && Sequential(steps)
    ensures OnlyLastHolds(ExecLog(steps).value)
    ensures ExecLog(steps).value.log + Concat(ExecLog(steps).value.held) == Concat(StoresOf(steps))
  {
    if steps != [] {
      var init, step := steps[..|steps| - 1], steps[|steps| - 1];
      SequentialLogInOrder(init);
      SequentialStep(ExecLog(init).value, step);
      if step.Store? {
        ConcatSnoc(StoresOf(init), step.es);
      } else {
        assert StoresOf(steps) == StoresOf(init);
      }
    }
  }
}
