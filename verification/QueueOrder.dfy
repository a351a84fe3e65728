/**
 The position of a job in its queue, against the order in which agents are given the jobs.

 Jobs are read in the order of the collection; sorting by priority leaves equals in that order.
 */
module QueueOrder {
  import opened Basics
  import opened Results
  import opened JobStore

  datatype Entry = Entry(id: Id, job: Job)

  function Insert(e: Entry, s: seq<Entry>): seq<Entry> {
    if s == [] || s[0].job.priority <= e.job.priority then [e] + s else [s[0]] + Insert(e, s[1..])
  }

  /** By descending priority, equals in their old order. */
  function Sorted(c: seq<Entry>): seq<Entry> {
    if c == [] then [] else Insert(c[0], Sorted(c[1..]))
  }

  function Select(p: Job -> bool, c: seq<Entry>): seq<Entry> {
    if c == [] then [] else (if p(c[0].job) then [c[0]] else []) + Select(p, c[1..])
  }

  predicate WaitsIn(job: Job, queue: string) { job.queue == queue && job.result.state == Some(Waiting) }

  function Waits(queue: string): Job -> bool { (j: Job) => WaitsIn(j, queue) }

  function May(queue: string, agent: string): Job -> bool { (j: Job) => Eligible(j, {queue}, agent) }

  function WaitingJobs(c: seq<Entry>, queue: string): seq<Entry> {
    Sorted(Select(Waits(queue), c))
  }

  function IndexOf(s: seq<Entry>, id: Id): Option<nat> {
    if s == [] then None
    else if s[0].id == id then Some(0)
    else match IndexOf(s[1..], id) case None => None case Some(k) => Some(k + 1)
  }

  function JobPosition(c: seq<Entry>, queue: string, id: Id): Option<nat> {
    IndexOf(WaitingJobs(c, queue), id)
  }

  /** What the database gives an agent that asks for work in this queue. */
  function Next(c: seq<Entry>, queue: string, agent: string): Option<Entry> {
    var s := Sorted(Select(May(queue, agent), c));
    if s == [] then None else Some(s[0])
  }

  function Run(job: Job): Job { job.(result := job.result.(state := Some(Running))) }

  function Mark(c: seq<Entry>, id: Id): seq<Entry> {
    if c == [] then [] else [if c[0].id == id then Entry(id, Run(c[0].job)) else c[0]] + Mark(c[1..], id)
  }

  function Pop(c: seq<Entry>, queue: string, agent: string): seq<Entry> {
    var e := Next(c, queue, agent);
    if e.None? then c else Mark(c, e.value.id)
  }

  ghost predicate UniqueIds(c: seq<Entry>) { forall i, j :: 0 <= i < j < |c| ==> c[i].id != c[j].id }

  // ---------------------------------------------------------------------------------------------
  // Sorting, selecting and marking commute
  // ---------------------------------------------------------------------------------------------

  predicate Descending(s: seq<Entry>) {
    forall i, j :: 0 <= i < j < |s| ==> s[j].job.priority <= s[i].job.priority
  }

  lemma {:induction false} InsertMembers(e: Entry, s: seq<Entry>)
    ensures forall x :: x in Insert(e, s) <==> x == e || x in s
  {
    if s != [] && s[0].job.priority > e.job.priority {
      InsertMembers(e, s[1..]);
      assert s == [s[0]] + s[1..];
    }
  }

  lemma {:induction false} InsertDescending(e: Entry, s: seq<Entry>)
    requires Descending(s)
    ensures Descending(Insert(e, s))
  {
    if s != [] && s[0].job.priority > e.job.priority {
      InsertDescending(e, s[1..]);
      InsertMembers(e, s[1..]);
      var t := Insert(e, s[1..]);
      assert forall k :: 0 <= k < |t| ==> t[k] in t && (t[k] == e || t[k] in s[1..]);
    }
  }

  lemma {:induction false} SortedDescending(c: seq<Entry>)
    ensures Descending(Sorted(c))
    ensures forall x :: x in Sorted(c) <==> x in c
  {
    if c != [] {
      SortedDescending(c[1..]);
      InsertDescending(c[0], Sorted(c[1..]));
      InsertMembers(c[0], Sorted(c[1..]));
      assert c == [c[0]] + c[1..];
    }
  }

  function Ranks(priority: int): Job -> bool { (j: Job) => j.priority == priority }

  /** Jobs of one priority keep the order of the collection. */
  lemma {:induction false} SortedStable(c: seq<Entry>, priority: int)
    ensures Select(Ranks(priority), Sorted(c)) == Select(Ranks(priority), c)
  {
    if c != [] {
      SortedStable(c[1..], priority);
      InsertStable(c[0], Sorted(c[1..]), priority);
    }
  }

  lemma {:induction false} InsertStable(e: Entry, s: seq<Entry>, priority: int)
    ensures Select(Ranks(priority), Insert(e, s))
         == if e.job.priority == priority then [e] + Select(Ranks(priority), s) else Select(Ranks(priority), s)
    decreases |s|
  {
    if s == [] || s[0].job.priority <= e.job.priority {
      SelectCons(Ranks(priority), e, s);
    } else {
      InsertStable(e, s[1..], priority);
      SelectCons(Ranks(priority), s[0], Insert(e, s[1..]));
      SelectCons(Ranks(priority), s[0], s[1..]);
      assert s == [s[0]] + s[1..];
    }
  }

  lemma {:induction false} SelectMembers(p: Job -> bool, c: seq<Entry>)
    ensures forall x :: x in Select(p, c) <==> x in c && p(x.job)
  {
    if c != [] {
      SelectMembers(p, c[1..]);
      assert c == [c[0]] + c[1..];
    }
  }

  lemma SelectCons(p: Job -> bool, e: Entry, s: seq<Entry>)
    ensures Select(p, [e] + s) == if p(e.job) then [e] + Select(p, s) else Select(p, s)
  {
    assert ([e] + s)[1..] == s;
  }

  lemma InsertFront(e: Entry, s: seq<Entry>)
    requires forall x <- s :: x.job.priority <= e.job.priority
    ensures Insert(e, s) == [e] + s
  {
    assert s != [] ==> s[0] in s;
  }

  lemma InsertBehind(h: Entry, e: Entry, s: seq<Entry>)
    requires h.job.priority > e.job.priority
    ensures Insert(e, [h] + s) == [h] + Insert(e, s)
  {
    assert ([h] + s)[1..] == s;
  }

  lemma {:induction false} InsertSelect(p: Job -> bool, e: Entry, s: seq<Entry>)
    requires Descending(s)
    ensures Select(p, Insert(e, s)) == if p(e.job) then Insert(e, Select(p, s)) else Select(p, s)
  {
    if s == [] || s[0].job.priority <= e.job.priority {
      SelectCons(p, e, s);
      SelectMembers(p, s);
      InsertFront(e, Select(p, s));
    } else {
      assert s == [s[0]] + s[1..];
      SelectCons(p, s[0], s[1..]);
      SelectCons(p, s[0], Insert(e, s[1..]));
      InsertSelect(p, e, s[1..]);
      InsertBehind(s[0], e, Select(p, s[1..]));
    }
  }

  /** Selecting from the sorted jobs is sorting the selected ones. */
  lemma {:induction false} SortedSelect(p: Job -> bool, c: seq<Entry>)
    ensures Select(p, Sorted(c)) == Sorted(Select(p, c))
  {
    if c != [] {
      SortedSelect(p, c[1..]);
      SortedDescending(c[1..]);
      InsertSelect(p, c[0], Sorted(c[1..]));
      assert c == [c[0]] + c[1..];
      SelectCons(p, c[0], c[1..]);
      SortedCons(c[0], Select(p, c[1..]));
    }
  }

  lemma SortedCons(e: Entry, c: seq<Entry>)
    ensures Sorted([e] + c) == Insert(e, Sorted(c))
  {
    assert ([e] + c)[1..] == c;
  }

  function MarkOne(e: Entry, id: Id): Entry { if e.id == id then Entry(id, Run(e.job)) else e }

  lemma MarkCons(e: Entry, s: seq<Entry>, id: Id)
    ensures Mark([e] + s, id) == [MarkOne(e, id)] + Mark(s, id)
  {
    assert ([e] + s)[1..] == s;
  }

  lemma {:induction false} InsertMark(e: Entry, s: seq<Entry>, id: Id)
    ensures Mark(Insert(e, s), id) == Insert(MarkOne(e, id), Mark(s, id))
  {
    if s == [] || s[0].job.priority <= e.job.priority {
      MarkCons(e, s, id);
    } else {
      MarkCons(s[0], Insert(e, s[1..]), id);
      InsertMark(e, s[1..], id);
      InsertBehind(MarkOne(s[0], id), MarkOne(e, id), Mark(s[1..], id));
    }
  }

  /** A job that starts to run keeps its place. */
  lemma {:induction false} SortedMark(c: seq<Entry>, id: Id)
    ensures Sorted(Mark(c, id)) == Mark(Sorted(c), id)
  {
    if c != [] {
      SortedMark(c[1..], id);
      InsertMark(c[0], Sorted(c[1..]), id);
      SortedCons(MarkOne(c[0], id), Mark(c[1..], id));
    }
  }

  // ---------------------------------------------------------------------------------------------
  // One pop
  // ---------------------------------------------------------------------------------------------

  /** The eligible jobs, in order, are those among the waiting ones. */
  lemma {:induction false} EligibleWait(s: seq<Entry>, queue: string, agent: string)
    ensures Select(May(queue, agent), Select(Waits(queue), s)) == Select(May(queue, agent), s)
  {
    if s != [] {
      EligibleWait(s[1..], queue, agent);
      assert s == [s[0]] + s[1..];
      SelectCons(Waits(queue), s[0], s[1..]);
      SelectCons(May(queue, agent), s[0], s[1..]);
      SelectCons(May(queue, agent), s[0], Select(Waits(queue), s[1..]));
    }
  }

  /** The first entry with a property. */
  function First(p: Job -> bool, s: seq<Entry>): (k: Option<nat>)
    ensures k.Some? ==> k.value < |s|
  {
    if s == [] then None
    else if p(s[0].job) then Some(0)
    else match First(p, s[1..]) case None => None case Some(k) => Some(k + 1)
  }

  lemma {:induction false} FirstMeans(p: Job -> bool, s: seq<Entry>)
    ensures match First(p, s)
      case Some(k) => p(s[k].job) && Select(p, s) != [] && Select(p, s)[0] == s[k]
                      && forall i :: 0 <= i < k ==> !p(s[i].job)
      case None => Select(p, s) == [] && forall i :: 0 <= i < |s| ==> !p(s[i].job)
  {
    if s != [] {
      FirstMeans(p, s[1..]);
    }
  }

  /** An agent is given the first of the waiting jobs it may have. */
  lemma NextIsFirst(c: seq<Entry>, queue: string, agent: string)
    ensures var w := WaitingJobs(c, queue);
      Next(c, queue, agent) == match First(May(queue, agent), w) case None => None case Some(k) => Some(w[k])
  {
    var w := WaitingJobs(c, queue);
    SortedSelect(Waits(queue), c);
    SortedSelect(May(queue, agent), c);
    EligibleWait(Sorted(c), queue, agent);
    FirstMeans(May(queue, agent), w);
  }

  function Drop(s: seq<Entry>, id: Id): seq<Entry> {
    if s == [] then [] else (if s[0].id == id then [] else [s[0]]) + Drop(s[1..], id)
  }

  lemma DropCons(e: Entry, s: seq<Entry>, id: Id)
    ensures Drop([e] + s, id) == if e.id == id then Drop(s, id) else [e] + Drop(s, id)
  {
    assert ([e] + s)[1..] == s;
  }

  lemma {:induction false} SelectMark(s: seq<Entry>, queue: string, id: Id)
    ensures Select(Waits(queue), Mark(s, id)) == Drop(Select(Waits(queue), s), id)
  {
    if s != [] {
      SelectMark(s[1..], queue, id);
      assert s == [s[0]] + s[1..];
      SelectCons(Waits(queue), s[0], s[1..]);
      SelectCons(Waits(queue), MarkOne(s[0], id), Mark(s[1..], id));
      DropCons(s[0], Select(Waits(queue), s[1..]), id);
    }
  }

  lemma {:induction false} SelectDrop(p: Job -> bool, s: seq<Entry>, id: Id)
    ensures Select(p, Drop(s, id)) == Drop(Select(p, s), id)
  {
    if s != [] {
      SelectDrop(p, s[1..], id);
      assert s == [s[0]] + s[1..];
      SelectCons(p, s[0], s[1..]);
      SelectCons(p, s[0], Drop(s[1..], id));
      DropCons(s[0], s[1..], id);
      DropCons(s[0], Select(p, s[1..]), id);
    }
  }

  /** A pop takes its job out of the waiting ones, and leaves the order of the others. */
  lemma WaitingAfterPop(c: seq<Entry>, queue: string, agent: string)
    ensures WaitingJobs(Pop(c, queue, agent), queue)
         == match Next(c, queue, agent)
            case None => WaitingJobs(c, queue)
            case Some(e) => Drop(WaitingJobs(c, queue), e.id)
  {
    var e := Next(c, queue, agent);
    if e.Some? {
      SortedSelect(Waits(queue), c);
      SortedSelect(Waits(queue), Mark(c, e.value.id));
      SortedMark(c, e.value.id);
      SelectMark(Sorted(c), queue, e.value.id);
    }
  }

  // ---------------------------------------------------------------------------------------------
  // Job ids are unique
  // ---------------------------------------------------------------------------------------------

  lemma {:induction false} InsertUnique(e: Entry, s: seq<Entry>)
    requires UniqueIds(s) && forall x <- s :: x.id != e.id
    ensures UniqueIds(Insert(e, s))
  {
    if s != [] && s[0].job.priority > e.job.priority {
      InsertUnique(e, s[1..]);
      InsertMembers(e, s[1..]);
      var t := Insert(e, s[1..]);
      assert forall k :: 0 <= k < |t| ==> t[k] in t && (t[k] == e || t[k] in s[1..]);
    }
  }

  lemma {:induction false} WaitingUnique(c: seq<Entry>, queue: string)
    requires UniqueIds(c)
    ensures UniqueIds(WaitingJobs(c, queue))
    ensures forall x :: x in WaitingJobs(c, queue) <==> x in c && WaitsIn(x.job, queue)
  {
    if c != [] {
      WaitingUnique(c[1..], queue);
      assert c == [c[0]] + c[1..];
      SelectCons(Waits(queue), c[0], c[1..]);
      if WaitsIn(c[0].job, queue) {
        SortedCons(c[0], Select(Waits(queue), c[1..]));
        InsertUnique(c[0], WaitingJobs(c[1..], queue));
        InsertMembers(c[0], WaitingJobs(c[1..], queue));
      }
    }
  }

  lemma {:induction false} MarkUnique(c: seq<Entry>, id: Id)
    requires UniqueIds(c)
    ensures UniqueIds(Mark(c, id)) && |Mark(c, id)| == |c|
    ensures forall i :: 0 <= i < |c| ==> Mark(c, id)[i].id == c[i].id
  {
    if c != [] {
      MarkUnique(c[1..], id);
    }
  }

  lemma {:induction false} DropAt(s: seq<Entry>, q: nat)
    requires UniqueIds(s) && q < |s|
    ensures Drop(s, s[q].id) == s[..q] + s[q + 1..]
  {
    if q == 0 {
      DropNothing(s[1..], s[0].id);
    } else {
      DropAt(s[1..], q - 1);
      assert s[0].id != s[q].id;
      assert s[..q] == [s[0]] + s[1..][..q - 1] && s[q + 1..] == s[1..][q..];
    }
  }

  lemma {:induction false} DropNothing(s: seq<Entry>, id: Id)
    requires forall i :: 0 <= i < |s| ==> s[i].id != id
    ensures Drop(s, id) == s
  {
    if s != [] {
      DropNothing(s[1..], id);
    }
  }

  lemma {:induction false} IndexOfMeans(s: seq<Entry>, id: Id)
    requires UniqueIds(s)
    ensures forall k: nat :: IndexOf(s, id) == Some(k) <==> k < |s| && s[k].id == id
  {
    if s != [] {
      IndexOfMeans(s[1..], id);
      assert s == [s[0]] + s[1..];
    }
  }

  lemma IndexAfterDrop(w: seq<Entry>, q: nat, id: Id, k: nat)
    requires UniqueIds(w) && q < |w| && k < |w| && w[k].id == id
    ensures IndexOf(w[..q] + w[q + 1..], id) == if q < k then Some(k - 1) else if q == k then None else Some(k)
  {
    var v := w[..q] + w[q + 1..];
    assert forall i :: 0 <= i < |v| ==> v[i] == if i < q then w[i] else w[i + 1];
    IndexOfMeans(v, id);
    var r := IndexOf(v, id);
    assert r.Some? ==> v[r.value].id == id;
  }

  /** A pop of a job further ahead moves a job up by one; a pop of one behind it leaves it where it is. */
  lemma PositionAfterPop(c: seq<Entry>, queue: string, agent: string, id: Id, k: nat, q: nat)
    requires UniqueIds(c) && JobPosition(c, queue, id) == Some(k)
    requires First(May(queue, agent), WaitingJobs(c, queue)) == Some(q)
    ensures Next(c, queue, agent) == Some(WaitingJobs(c, queue)[q])
    ensures JobPosition(Pop(c, queue, agent), queue, id)
         == if q < k then Some(k - 1) else if q == k then None else Some(k)
  {
    var w := WaitingJobs(c, queue);
    NextIsFirst(c, queue, agent);
    WaitingUnique(c, queue);
    IndexOfMeans(w, id);
    WaitingAfterPop(c, queue, agent);
    DropAt(w, q);
    IndexAfterDrop(w, q, id, k);
  }

  // ---------------------------------------------------------------------------------------------
  // Many pops
  // ---------------------------------------------------------------------------------------------

  function PopMany(c: seq<Entry>, queue: string, agents: seq<string>): seq<Entry> {
    if agents == [] then c
    else Pop(PopMany(c, queue, agents[..|agents| - 1]), queue, agents[|agents| - 1])
  }

  /** What the i-th of the agents is given, when they ask one after the other. */
  function Given(c: seq<Entry>, queue: string, agents: seq<string>, i: nat): Option<Entry>
    requires i < |agents|
  {
    Next(PopMany(c, queue, agents[..i]), queue, agents[i])
  }

  /** For these agents and jobs, `p` says who may have what. */
  ghost predicate Alike(agents: seq<string>, w: seq<Entry>, queue: string, p: Job -> bool) {
    forall i, k :: 0 <= i < |agents| && 0 <= k < |w| ==> (Eligible(w[k].job, {queue}, agents[i]) <==> p(w[k].job))
  }

  lemma {:induction false} SelectAlike(p: Job -> bool, q: Job -> bool, s: seq<Entry>)
    requires forall k :: 0 <= k < |s| ==> (p(s[k].job) <==> q(s[k].job))
    ensures Select(p, s) == Select(q, s)
  {
    if s != [] {
      SelectAlike(p, q, s[1..]);
    }
  }

  function From(s: seq<Entry>, n: nat): seq<Entry> { if n <= |s| then s[n..] else [] }

  /** Agents that may have the same jobs are given these, in the order of the queue. */
  lemma {:induction false} GivenInOrder(c: seq<Entry>, queue: string, agents: seq<string>, p: Job -> bool)
    requires UniqueIds(c) && Alike(agents, WaitingJobs(c, queue), queue, p)
    ensures var after := PopMany(c, queue, agents);
      && UniqueIds(after)
      && Select(p, WaitingJobs(after, queue)) == From(Select(p, WaitingJobs(c, queue)), |agents|)
      && (forall x <- WaitingJobs(after, queue) :: x in WaitingJobs(c, queue))
  {
    if agents != [] {
      var n := |agents| - 1;
      var before, a := PopMany(c, queue, agents[..n]), agents[n];
      GivenInOrder(c, queue, agents[..n], p);
      PopAlike(before, queue, a, p, WaitingJobs(c, queue));
    }
  }

  lemma PopAlike(c: seq<Entry>, queue: string, agent: string, p: Job -> bool, all: seq<Entry>)
    requires UniqueIds(c) && Alike([agent], all, queue, p) && forall x <- WaitingJobs(c, queue) :: x in all
    ensures var e := Select(p, WaitingJobs(c, queue));
      var after := Pop(c, queue, agent);
      && Next(c, queue, agent) == (if e == [] then None else Some(e[0]))
      && UniqueIds(after)
      && Select(p, WaitingJobs(after, queue)) == From(e, 1)
      && (forall x <- WaitingJobs(after, queue) :: x in all)
  {
    NextAlike(c, queue, agent, p, all);
    WaitingAfterPop(c, queue, agent);
    var e := Next(c, queue, agent);
    if e.Some? {
      MarkUnique(c, e.value.id);
      DropMembers(WaitingJobs(c, queue), e.value.id);
      WaitingUnique(c, queue);
      SelectDropFirst(p, WaitingJobs(c, queue));
    }
  }

  lemma NextAlike(c: seq<Entry>, queue: string, agent: string, p: Job -> bool, all: seq<Entry>)
    requires Alike([agent], all, queue, p) && forall x <- WaitingJobs(c, queue) :: x in all
    ensures var e := Select(p, WaitingJobs(c, queue));
      Next(c, queue, agent) == (if e == [] then None else Some(e[0]))
  {
    var w := WaitingJobs(c, queue);
    var may := May(queue, agent);
    assert forall k :: 0 <= k < |w| ==> w[k] in w && [agent][0] == agent;
    SelectAlike(may, p, w);
    NextIsFirst(c, queue, agent);
    FirstMeans(may, w);
  }

  lemma SelectDropFirst(p: Job -> bool, w: seq<Entry>)
    requires UniqueIds(w) && Select(p, w) != []
    ensures Select(p, Drop(w, Select(p, w)[0].id)) == From(Select(p, w), 1)
  {
    SelectDrop(p, w, Select(p, w)[0].id);
    SelectUnique(p, w);
    DropAt(Select(p, w), 0);
  }

  lemma {:induction false} SelectUnique(p: Job -> bool, s: seq<Entry>)
    requires UniqueIds(s)
    ensures UniqueIds(Select(p, s))
  {
    if s != [] {
      SelectUnique(p, s[1..]);
      SelectMembers(p, s[1..]);
      var t := Select(p, s[1..]);
      assert forall k :: 0 <= k < |t| ==> t[k] in t && t[k] in s[1..];
    }
  }

  lemma {:induction false} DropMembers(s: seq<Entry>, id: Id)
    ensures forall x <- Drop(s, id) :: x in s
  {
    if s != [] {
      DropMembers(s[1..], id);
    }
  }

  lemma {:induction false} SelectAt(p: Job -> bool, s: seq<Entry>, k: nat)
    requires k < |s| && p(s[k].job)
    ensures var t := |Select(p, s[..k])|;
      && t < |Select(p, s)| && Select(p, s)[t] == s[k]
      && t <= k && (t == k <==> forall i :: 0 <= i < k ==> p(s[i].job))
  {
    assert s == [s[0]] + s[1..];
    SelectCons(p, s[0], s[1..]);
    if k > 0 {
      assert s[..k] == [s[0]] + s[1..][..k - 1];
      SelectCons(p, s[0], s[1..][..k - 1]);
      SelectAt(p, s[1..], k - 1);
      assert forall i :: 0 < i < k ==> s[i] == s[1..][i - 1];
    }
  }

  /**
   The turn of a job is the number of jobs ahead of it that the agents may have: its position exactly if they may
   have all of them.
   */
  lemma TurnAndPosition(c: seq<Entry>, queue: string, agents: seq<string>, p: Job -> bool, id: Id, k: nat)
    returns (turn: nat)
    requires UniqueIds(c) && Alike(agents, WaitingJobs(c, queue), queue, p)
    requires JobPosition(c, queue, id) == Some(k) && k < |WaitingJobs(c, queue)|
    requires p(WaitingJobs(c, queue)[k].job)
    ensures turn == |Select(p, WaitingJobs(c, queue)[..k])|
    ensures turn <= k && (turn == k <==> forall i :: 0 <= i < k ==> p(WaitingJobs(c, queue)[i].job))
    ensures forall i :: 0 <= i < |agents| ==>
              (i == turn <==> Given(c, queue, agents, i).Some? && Given(c, queue, agents, i).value.id == id)
  {
    var w := WaitingJobs(c, queue);
    WaitingUnique(c, queue);
    IndexOfMeans(w, id);
    SelectAt(p, w, k);
    SelectUnique(p, w);
    turn := |Select(p, w[..k])|;
    forall i | 0 <= i < |agents|
      ensures i == turn <==> Given(c, queue, agents, i).Some? && Given(c, queue, agents, i).value.id == id
    {
      GivenAt(c, queue, agents, p, i);
    }
  }

  /** The i-th agent is given the i-th of the open jobs. */
  lemma GivenAt(c: seq<Entry>, queue: string, agents: seq<string>, p: Job -> bool, i: nat)
    requires UniqueIds(c) && Alike(agents, WaitingJobs(c, queue), queue, p) && i < |agents|
    ensures var e := Select(p, WaitingJobs(c, queue));
      Given(c, queue, agents, i) == if i < |e| then Some(e[i]) else None
  {
    var w := WaitingJobs(c, queue);
    GivenInOrder(c, queue, agents[..i], p);
    PopAlike(PopMany(c, queue, agents[..i]), queue, agents[i], p, w);
    assert From(Select(p, w), i) != [] ==> From(Select(p, w), i)[0] == Select(p, w)[i];
  }

  /** With every waiting job open to every agent, position k means the (k + 1)-th pop. */
  lemma PositionIsTurn(c: seq<Entry>, queue: string, agents: seq<string>, id: Id, k: nat)
    requires UniqueIds(c) && JobPosition(c, queue, id) == Some(k) && k < |agents|
    requires forall x <- WaitingJobs(c, queue), a <- agents :: Eligible(x.job, {queue}, a)
    ensures forall i :: 0 <= i < |agents| ==>
              (i == k <==> Given(c, queue, agents, i).Some? && Given(c, queue, agents, i).value.id == id)
  {
    var w := WaitingJobs(c, queue);
    WaitingUnique(c, queue);
    IndexOfMeans(w, id);
    var all := (j: Job) => true;
    assert Alike(agents, w, queue, all) by {
      assert forall i :: 0 <= i < |w| ==> w[i] in w;
      assert forall i :: 0 <= i < |agents| ==> agents[i] in agents;
    }
    var turn := TurnAndPosition(c, queue, agents, all, id, k);
  }
}
