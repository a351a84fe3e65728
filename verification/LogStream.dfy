/**
 Live logs from the agent to the terminal.

 The agent numbers the fragments of a job across all phases and posts each once; a post may be lost.  The server
 answers one query per phase.  The command line tool polls with a cursor until the job is complete.
 */
module LogStream {
  import opened Basics

  datatype Fragment = Fragment(phase: Phase, number: nat, data: string)

  function Text(fs: seq<Fragment>): string {
    if fs == [] then "" else Text(fs[..|fs| - 1]) + fs[|fs| - 1].data
  }

  lemma {:induction false} TextConcat(a: seq<Fragment>, b: seq<Fragment>)
    ensures Text(a + b) == Text(a) + Text(b)
  {
    if b == [] {
      assert a + b == a;
    } else {
      var n := |b| - 1;
      TextConcat(a, b[..n]);
      assert (a + b)[..|a + b| - 1] == a + b[..n] && (a + b)[|a + b| - 1] == b[n];
      Assoc(Text(a), Text(b[..n]), b[n].data);
    }
  }

  // ---------------------------------------------------------------------------------------------
  // The agent's side
  // ---------------------------------------------------------------------------------------------

  predicate Before(f: Fragment, g: Fragment) {
    f.number < g.number && PhaseIndex(f.phase) <= PhaseIndex(g.phase)
  }

  /** Numbers grow strictly and phases follow the enumeration order. */
  ghost predicate WellOrdered(s: seq<Fragment>) {
    forall i, j :: 0 <= i < j < |s| ==> Before(s[i], s[j])
  }

  lemma WellOrderedPrefix(s: seq<Fragment>, n: nat)
    requires WellOrdered(s) && n <= |s|
    ensures WellOrdered(s[..n])
  {
    forall i, j | 0 <= i < j < n
      ensures Before(s[..n][i], s[..n][j])
    {
      assert Before(s[i], s[j]);
    }
  }

  function Chunks(contents: string, size: nat): seq<string>
    requires size > 0
  {
    if contents == "" then []
    else if |contents| <= size then [contents]
    else [contents[..size]] + Chunks(contents[size..], size)
  }

  /** What the server stores of a list of writes: numbered from n, minus the posts that get lost. */
  function Posted(lands: nat -> bool, phase: Phase, n: nat, datas: seq<string>): seq<Fragment> {
    if datas == [] then []
    else
      var m := |datas| - 1;
      Posted(lands, phase, n, datas[..m]) + if lands(n + m) then [Fragment(phase, n + m, datas[m])] else []
  }

  class EndpointLogHandler {
    var fragmentNumber: nat
    var phase: Phase
    /** Which posts reach the server, by fragment number. */
    const lands: nat -> bool
    /** The fragments that did, as the server stored them. */
    var stored: seq<Fragment>

    ghost predicate Valid() reads this {
      && WellOrdered(stored)
      && forall i :: 0 <= i < |stored| ==>
        Before(stored[i], Fragment(phase, fragmentNumber, ""))
    }

    constructor (lands: nat -> bool)
      ensures Valid() && fragmentNumber == 0 && phase == Setup && stored == [] && this.lands == lands
    {
      this.lands := lands;
      fragmentNumber, phase, stored := 0, Setup, [];
    }

    /** The job moves on to its next phase. */
    method SetPhase(p: Phase)
      requires Valid() && PhaseIndex(phase) <= PhaseIndex(p)
      modifies this`phase
      ensures Valid() && phase == p
    {
      phase := p;
    }

    /** Calling the handler: the counter advances whether or not the post arrives. */
    method Write(data: string)
      requires Valid()
      modifies this`fragmentNumber, this`stored
      ensures Valid() && fragmentNumber == old(fragmentNumber) + 1
      ensures stored == old(stored) +
        if lands(old(fragmentNumber)) then [Fragment(phase, old(fragmentNumber), data)] else []
    {
      if lands(fragmentNumber) {
        stored := stored + [Fragment(phase, fragmentNumber, data)];
      }
      fragmentNumber := fragmentNumber + 1;
    }

    /** A file is written chunk by chunk. */
    method WriteFromFile(contents: string, chunkSize: nat)
      requires Valid() && chunkSize > 0
      modifies this`fragmentNumber, this`stored
      ensures Valid() && fragmentNumber == old(fragmentNumber) + |Chunks(contents, chunkSize)|
      ensures stored == old(stored) + Posted(lands, phase, old(fragmentNumber), Chunks(contents, chunkSize))
    {
      var pos := 0;
      ghost var done: seq<string> := [];
      ghost var first := fragmentNumber;
      while pos < |contents|
        invariant Valid() && 0 <= pos <= |contents|
        invariant done + Chunks(contents[pos..], chunkSize) == Chunks(contents, chunkSize)
        invariant fragmentNumber == first + |done|
        invariant stored == old(stored) + Posted(lands, phase, first, done)
      {
        var end := Min(pos + chunkSize, |contents|);
        var data := contents[pos..end];
        Write(data);
        PostedNext(lands, phase, first, done, data, old(stored));
        ChunkStep(contents, pos, end, chunkSize, done);
        done := done + [data];
        pos := end;
      }
      assert done == Chunks(contents, chunkSize);
    }
  }

  lemma PostedNext(lands: nat -> bool, phase: Phase, n: nat, done: seq<string>, data: string, before: seq<Fragment>)
    ensures before + Posted(lands, phase, n, done + [data])
         == before + Posted(lands, phase, n, done)
            + if lands(n + |done|) then [Fragment(phase, n + |done|, data)] else []
  {
    assert (done + [data])[..|done|] == done;
  }

  lemma ChunkStep(contents: string, pos: nat, end: nat, size: nat, done: seq<string>)
    requires size > 0 && pos < |contents| && end == Min(pos + size, |contents|)
    ensures done + [contents[pos..end]] + Chunks(contents[end..], size) == done + Chunks(contents[pos..], size)
  {
    var rest := contents[pos..];
    assert rest[..|rest|] == rest;
    assert rest[..end - pos] == contents[pos..end] && rest[end - pos..] == contents[end..];
    assert Chunks(rest, size) == [contents[pos..end]] + Chunks(contents[end..], size);
  }

  /** When no post is lost the fragments of a file spell out the file, in pieces no larger than a chunk. */
  lemma {:induction false} ChunksSpellContents(lands: nat -> bool, phase: Phase, n: nat, contents: string, size: nat)
    requires size > 0 && forall k :: lands(k)
    ensures var fs := Posted(lands, phase, n, Chunks(contents, size));
      && Text(fs) == contents
      && forall i :: 0 <= i < |fs| ==> fs[i].phase == phase && fs[i].number == n + i && 0 < |fs[i].data| <= size
  {
    PostedAll(lands, phase, n, Chunks(contents, size));
    ChunksJoin(contents, size);
    TextIsJoin(Posted(lands, phase, n, Chunks(contents, size)), Chunks(contents, size));
  }

  function JoinAll(ds: seq<string>): string {
    if ds == [] then "" else ds[0] + JoinAll(ds[1..])
  }

  lemma {:induction false} JoinAllSnoc(ds: seq<string>, d: string)
    ensures JoinAll(ds + [d]) == JoinAll(ds) + d
  {
    if ds == [] {
      assert ds + [d] == [d];
    } else {
      JoinAllSnoc(ds[1..], d);
      assert (ds + [d])[1..] == ds[1..] + [d];
    }
  }

  lemma {:induction false} ChunksJoin(contents: string, size: nat)
    requires size > 0
    ensures JoinAll(Chunks(contents, size)) == contents
    ensures forall i :: 0 <= i < |Chunks(contents, size)| ==> 0 < |Chunks(contents, size)[i]| <= size
  {
    if |contents| > size {
      ChunksJoin(contents[size..], size);
      assert contents == contents[..size] + contents[size..];
    }
  }

  lemma {:induction false} PostedAll(lands: nat -> bool, phase: Phase, n: nat, datas: seq<string>)
    requires forall k :: lands(k)
    ensures var fs := Posted(lands, phase, n, datas);
      |fs| == |datas| && forall i :: 0 <= i < |fs| ==> fs[i] == Fragment(phase, n + i, datas[i])
  {
    if datas != [] {
      PostedAll(lands, phase, n, datas[..|datas| - 1]);
    }
  }

  lemma {:induction false} TextIsJoin(fs: seq<Fragment>, ds: seq<string>)
    requires |fs| == |ds| && forall i :: 0 <= i < |fs| ==> fs[i].data == ds[i]
    ensures Text(fs) == JoinAll(ds)
  {
    if fs != [] {
      var n := |fs| - 1;
      TextIsJoin(fs[..n], ds[..n]);
      JoinAllSnoc(ds[..n], ds[n]);
      assert ds[..n] + [ds[n]] == ds;
    }
  }

  // ---------------------------------------------------------------------------------------------
  // The server's side
  // ---------------------------------------------------------------------------------------------

  /** The fragments of phases lo up to hi whose number is at least start. */
  function Pick(s: seq<Fragment>, lo: nat, hi: nat, start: nat): seq<Fragment> {
    if s == [] then []
    else
      var f := s[|s| - 1];
      Pick(s[..|s| - 1], lo, hi, start)
      + if lo <= PhaseIndex(f.phase) < hi && f.number >= start then [f] else []
  }

  function InsertByNumber(f: Fragment, s: seq<Fragment>): seq<Fragment> {
    if s == [] || s[|s| - 1].number <= f.number then s + [f]
    else InsertByNumber(f, s[..|s| - 1]) + [s[|s| - 1]]
  }

  function SortByNumber(s: seq<Fragment>): seq<Fragment> {
    if s == [] then [] else InsertByNumber(s[|s| - 1], SortByNumber(s[..|s| - 1]))
  }

  function RetrieveLogFragments(logs: seq<Fragment>, phase: Phase, start: nat): seq<Fragment> {
    SortByNumber(Pick(logs, PhaseIndex(phase), PhaseIndex(phase) + 1, start))
  }

  function LastNumber(fs: seq<Fragment>): int {
    if fs == [] then -1 else fs[|fs| - 1].number
  }

  /** One phase: the number of the last fragment, or -1, and the joined text. */
  function RetrieveLogs(logs: seq<Fragment>, phase: Phase, start: nat): (int, string) {
    var fs := RetrieveLogFragments(logs, phase, start);
    (LastNumber(fs), Text(fs))
  }

  lemma {:induction false} SortOrdered(s: seq<Fragment>)
    requires WellOrdered(s)
    ensures SortByNumber(s) == s
  {
    if s != [] {
      var n := |s| - 1;
      WellOrderedPrefix(s, n);
      SortOrdered(s[..n]);
      assert n > 0 ==> Before(s[n - 1], s[n]);
    }
  }

  lemma {:induction false} PickFrom(s: seq<Fragment>, lo: nat, hi: nat, start: nat)
    ensures forall f <- Pick(s, lo, hi, start) :: f in s && lo <= PhaseIndex(f.phase) < hi && f.number >= start
  {
    if s != [] {
      PickFrom(s[..|s| - 1], lo, hi, start);
    }
  }

  lemma {:induction false} PickOrdered(s: seq<Fragment>, lo: nat, hi: nat, start: nat)
    requires WellOrdered(s)
    ensures WellOrdered(Pick(s, lo, hi, start))
  {
    if s != [] {
      var n := |s| - 1;
      WellOrderedPrefix(s, n);
      PickOrdered(s[..n], lo, hi, start);
      PickFrom(s[..n], lo, hi, start);
      forall f | f in Pick(s[..n], lo, hi, start)
        ensures Before(f, s[n])
      {
        var k :| 0 <= k < n && s[k] == f;
        assert Before(s[k], s[n]);
      }
    }
  }

  lemma {:induction false} PickConcat(a: seq<Fragment>, b: seq<Fragment>, lo: nat, hi: nat, start: nat)
    ensures Pick(a + b, lo, hi, start) == Pick(a, lo, hi, start) + Pick(b, lo, hi, start)
  {
    if b == [] {
      assert a + b == a;
    } else {
      PickConcat(a, b[..|b| - 1], lo, hi, start);
      assert (a + b)[..|a + b| - 1] == a + b[..|b| - 1];
    }
  }

  lemma {:induction false} PickNone(s: seq<Fragment>, lo: nat, hi: nat, start: nat)
    requires forall i :: 0 <= i < |s| ==> !(lo <= PhaseIndex(s[i].phase) < hi && s[i].number >= start)
    ensures Pick(s, lo, hi, start) == []
  {
    if s != [] {
      PickNone(s[..|s| - 1], lo, hi, start);
    }
  }

  lemma NonePastLast(s: seq<Fragment>, mid: nat, hi: nat, start: nat)
    requires WellOrdered(s) && s != [] && PhaseIndex(s[|s| - 1].phase) < mid
    ensures Pick(s, mid, hi, start) == []
  {
    forall i | 0 <= i < |s|
      ensures PhaseIndex(s[i].phase) < mid
    {
      assert i < |s| - 1 ==> Before(s[i], s[|s| - 1]);
    }
    PickNone(s, mid, hi, start);
  }

  /** In a well-ordered log, earlier phases come first: phase order is fragment order. */
  lemma {:induction false} PickSplit(s: seq<Fragment>, lo: nat, mid: nat, hi: nat, start: nat)
    requires WellOrdered(s) && lo <= mid <= hi
    ensures Pick(s, lo, hi, start) == Pick(s, lo, mid, start) + Pick(s, mid, hi, start)
  {
    if s != [] {
      var init := s[..|s| - 1];
      WellOrderedPrefix(s, |s| - 1);
      PickSplit(init, lo, mid, hi, start);
      if PhaseIndex(s[|s| - 1].phase) < mid {
        NonePastLast(s, mid, hi, start);
        PickEarly(s, lo, mid, hi, start);
      } else {
        PickLate(s, lo, mid, hi, start);
      }
    }
  }

  lemma PickEarly(s: seq<Fragment>, lo: nat, mid: nat, hi: nat, start: nat)
    requires s != [] && lo <= mid <= hi && PhaseIndex(s[|s| - 1].phase) < mid && Pick(s, mid, hi, start) == []
    requires var init := s[..|s| - 1];
      Pick(init, lo, hi, start) == Pick(init, lo, mid, start) + Pick(init, mid, hi, start)
    ensures Pick(s, lo, hi, start) == Pick(s, lo, mid, start) + Pick(s, mid, hi, start)
  {
    var init := s[..|s| - 1];
    assert Pick(init, mid, hi, start) == [];
    assert Pick(init, lo, hi, start) == Pick(init, lo, mid, start);
  }

  lemma PickLate(s: seq<Fragment>, lo: nat, mid: nat, hi: nat, start: nat)
    requires s != [] && lo <= mid <= hi && PhaseIndex(s[|s| - 1].phase) >= mid
    requires var init := s[..|s| - 1];
      Pick(init, lo, hi, start) == Pick(init, lo, mid, start) + Pick(init, mid, hi, start)
    ensures Pick(s, lo, hi, start) == Pick(s, lo, mid, start) + Pick(s, mid, hi, start)
  {
    var init := s[..|s| - 1];
    assert Pick(s, lo, mid, start) == Pick(init, lo, mid, start);
    Assoc(Pick(init, lo, mid, start), Pick(init, mid, hi, start), [s[|s| - 1]]);
  }

  lemma RetrievedInOrder(log: seq<Fragment>, phase: Phase, start: nat)
    requires WellOrdered(log)
    ensures RetrieveLogFragments(log, phase, start) == Pick(log, PhaseIndex(phase), PhaseIndex(phase) + 1, start)
  {
    PickOrdered(log, PhaseIndex(phase), PhaseIndex(phase) + 1, start);
    SortOrdered(Pick(log, PhaseIndex(phase), PhaseIndex(phase) + 1, start));
  }

  lemma QueryInOrder(s: seq<Fragment>, n: nat, k: nat, start: nat)
    requires WellOrdered(s) && n <= |s| && k < |PHASES|
    ensures RetrieveLogFragments(s[..n], PHASES[k], start) == Pick(s[..n], k, k + 1, start)
  {
    assert PhaseIndex(PHASES[k]) == k;
    WellOrderedPrefix(s, n);
    RetrievedInOrder(s[..n], PHASES[k], start);
  }

  // ---------------------------------------------------------------------------------------------
  // One poll
  // ---------------------------------------------------------------------------------------------

  /** The phases are queried one after the other: query i sees the first ends[i] stored fragments. */
  ghost predicate IsReads(s: seq<Fragment>, ends: seq<nat>) {
    && |ends| == |PHASES|
    && (forall i :: 0 <= i < |ends| ==> ends[i] <= |s|)
    && forall i, j :: 0 <= i <= j < |ends| ==> ends[i] <= ends[j]
  }

  /** What the first k queries of a poll return, concatenated in phase order. */
  function Seen(s: seq<Fragment>, ends: seq<nat>, cur: nat, k: nat): seq<Fragment>
    requires k <= |PHASES| == |ends| && forall i :: 0 <= i < |ends| ==> ends[i] <= |s|
  {
    if k == 0 then []
    else Seen(s, ends, cur, k - 1) + RetrieveLogFragments(s[..ends[k - 1]], PHASES[k - 1], cur)
  }

  /** No fragment is seen by its query while an earlier one arrived too late for its own. */
  ghost predicate NoOvertaking(s: seq<Fragment>, ends: seq<nat>)
    requires |ends| == |PHASES|
  {
    NoOvertakingFrom(s, ends, 0)
  }

  /** The same among the fragments that a cursor still asks for. */
  ghost predicate NoOvertakingFrom(s: seq<Fragment>, ends: seq<nat>, cur: nat)
    requires |ends| == |PHASES|
  {
    forall x, y :: 0 <= x < y < |s| && s[x].number >= cur && y < ends[PhaseIndex(s[y].phase)] ==>
      x < ends[PhaseIndex(s[x].phase)]
  }

  /** Of the fragments that the cursor asks for, the queries see those stored before instant r. */
  ghost predicate IsInstant(s: seq<Fragment>, ends: seq<nat>, cur: nat, r: nat)
    requires |ends| == |PHASES|
  {
    r <= |s| &&
    forall x :: 0 <= x < |s| && s[x].number >= cur ==> (x < r <==> x < ends[PhaseIndex(s[x].phase)])
  }

  /** A snapshot: all queries of the poll see the same log. */
  lemma SnapshotDoesNotOvertake(s: seq<Fragment>, ends: seq<nat>)
    requires IsReads(s, ends) && forall i :: 0 <= i < |ends| ==> ends[i] == ends[0]
    ensures NoOvertaking(s, ends)
  {
  }

  /** More generally, whatever arrives while a poll runs belongs to one phase. */
  lemma OnePhaseDoesNotOvertake(s: seq<Fragment>, ends: seq<nat>, p: Phase)
    requires IsReads(s, ends) && WellOrdered(s)
    requires forall x :: ends[0] <= x < ends[|ends| - 1] ==> s[x].phase == p
    ensures NoOvertaking(s, ends)
  {
    forall x, y | 0 <= x < y < |s| && y < ends[PhaseIndex(s[y].phase)]
      ensures x < ends[PhaseIndex(s[x].phase)]
    {
      if x >= ends[0] {
        assert s[x].phase == p == s[y].phase;
      }
    }
  }

  lemma PickBetween(s: seq<Fragment>, a: nat, b: nat, lo: nat, hi: nat, start: nat)
    requires a <= |s| && b <= |s|
    requires forall x :: 0 <= x < |s| && (x < a) != (x < b) ==>
               !(lo <= PhaseIndex(s[x].phase) < hi && s[x].number >= start)
    ensures Pick(s[..a], lo, hi, start) == Pick(s[..b], lo, hi, start)
  {
    var l, u := Min(a, b), if a < b then b else a;
    assert s[..u] == s[..l] + s[l..u];
    PickConcat(s[..l], s[l..u], lo, hi, start);
    PickNone(s[l..u], lo, hi, start);
  }

  /** The query for one phase returns what it would have returned at instant r. */
  lemma QuerySees(s: seq<Fragment>, ends: seq<nat>, cur: nat, k: nat, r: nat)
    requires IsReads(s, ends) && WellOrdered(s) && k < |PHASES| && IsInstant(s, ends, cur, r)
    ensures RetrieveLogFragments(s[..ends[k]], PHASES[k], cur) == Pick(s[..r], k, k + 1, cur)
  {
    QueryInOrder(s, ends[k], k, cur);
    PickBetween(s, ends[k], r, k, k + 1, cur);
  }

  /** Without overtaking, the queries together see the log as it was at one instant r. */
  lemma {:induction false} SeenIsSnapshot(s: seq<Fragment>, ends: seq<nat>, cur: nat, k: nat, r: nat)
    requires IsReads(s, ends) && WellOrdered(s) && k <= |PHASES| && IsInstant(s, ends, cur, r)
    ensures Seen(s, ends, cur, k) == Pick(s[..r], 0, k, cur)
  {
    if k == 0 {
      PickNone(s[..r], 0, 0, cur);
    } else {
      SeenIsSnapshot(s, ends, cur, k - 1, r);
      QuerySees(s, ends, cur, k - 1, r);
      WellOrderedPrefix(s, r);
      PickSplit(s[..r], 0, k - 1, k, cur);
    }
  }

  lemma InstantOf(s: seq<Fragment>, ends: seq<nat>, cur: nat) returns (r: nat)
    requires IsReads(s, ends) && NoOvertakingFrom(s, ends, cur)
    ensures IsInstant(s, ends, cur, r)
    ensures cur == 0 ==> ends[0] <= r <= ends[|ends| - 1]
  {
    r := 0;
    while r < |s| && (s[r].number < cur || r < ends[PhaseIndex(s[r].phase)])
      invariant r <= |s|
      invariant forall x :: 0 <= x < r && s[x].number >= cur ==> x < ends[PhaseIndex(s[x].phase)]
    {
      r := r + 1;
    }
    if cur == 0 {
      if r > 0 {
        assert r - 1 < ends[PhaseIndex(s[r - 1].phase)] <= ends[|ends| - 1];
      }
      assert r < |s| ==> ends[0] <= ends[PhaseIndex(s[r].phase)];
    }
    assert r < |s| ==> r >= ends[PhaseIndex(s[r].phase)];
  }

  /** A fragment is returned exactly when the cursor asks for it and its own query came late enough. */
  lemma {:induction false} SeenMember(s: seq<Fragment>, ends: seq<nat>, cur: nat, k: nat, x: nat)
    requires IsReads(s, ends) && WellOrdered(s) && k <= |PHASES| && x < |s|
    ensures s[x] in Seen(s, ends, cur, k)
       <==> s[x].number >= cur && PhaseIndex(s[x].phase) < k && x < ends[PhaseIndex(s[x].phase)]
  {
    if k > 0 {
      SeenMember(s, ends, cur, k - 1, x);
      var n := ends[k - 1];
      QueryInOrder(s, n, k - 1, cur);
      PickMember(s, n, k - 1, k, cur, x);
      InEither(Seen(s, ends, cur, k - 1), Pick(s[..n], k - 1, k, cur), s[x]);
    }
  }

  lemma InEither(a: seq<Fragment>, b: seq<Fragment>, f: Fragment)
    ensures f in a + b <==> f in a || f in b
  {
  }

  lemma {:induction false} PickMember(s: seq<Fragment>, n: nat, lo: nat, hi: nat, start: nat, x: nat)
    requires WellOrdered(s) && n <= |s| && x < |s|
    ensures s[x] in Pick(s[..n], lo, hi, start)
       <==> x < n && lo <= PhaseIndex(s[x].phase) < hi && s[x].number >= start
  {
    if n > 0 {
      PickMember(s, n - 1, lo, hi, start, x);
      assert s[..n][..n - 1] == s[..n - 1];
      assert x < n - 1 ==> Before(s[x], s[n - 1]);
      assert x > n - 1 ==> Before(s[n - 1], s[x]);
    }
  }

  /** The fragments numbered start and above. */
  function From(s: seq<Fragment>, start: nat): seq<Fragment> { Pick(s, 0, |PHASES|, start) }

  /** A poll returns a gapless stretch of the log from its cursor on, if and only if nothing overtook there. */
  lemma GaplessIff(s: seq<Fragment>, ends: seq<nat>, cur: nat)
    requires IsReads(s, ends) && WellOrdered(s)
    ensures NoOvertakingFrom(s, ends, cur)
       <==> exists r :: 0 <= r <= |s| && Seen(s, ends, cur, |PHASES|) == From(s[..r], cur)
  {
    if NoOvertakingFrom(s, ends, cur) {
      var r := InstantOf(s, ends, cur);
      SeenIsSnapshot(s, ends, cur, |PHASES|, r);
    }
    if exists r :: 0 <= r <= |s| && Seen(s, ends, cur, |PHASES|) == From(s[..r], cur) {
      var r :| 0 <= r <= |s| && Seen(s, ends, cur, |PHASES|) == From(s[..r], cur);
      GaplessNotOvertaken(s, ends, cur, r);
    }
  }

  lemma GaplessNotOvertaken(s: seq<Fragment>, ends: seq<nat>, cur: nat, r: nat)
    requires IsReads(s, ends) && WellOrdered(s) && r <= |s| && Seen(s, ends, cur, |PHASES|) == From(s[..r], cur)
    ensures NoOvertakingFrom(s, ends, cur)
  {
    forall x, y | 0 <= x < y < |s| && s[x].number >= cur && y < ends[PhaseIndex(s[y].phase)]
      ensures x < ends[PhaseIndex(s[x].phase)]
    {
      assert Before(s[x], s[y]);
      SeenMember(s, ends, cur, |PHASES|, x);
      SeenMember(s, ends, cur, |PHASES|, y);
      PickMember(s, r, 0, |PHASES|, cur, x);
      PickMember(s, r, 0, |PHASES|, cur, y);
    }
  }

  lemma {:induction false} PickEverything(s: seq<Fragment>)
    ensures Pick(s, 0, |PHASES|, 0) == s
  {
    if s != [] {
      PickEverything(s[..|s| - 1]);
    }
  }

  // ---------------------------------------------------------------------------------------------
  // The poll loop
  // ---------------------------------------------------------------------------------------------

  datatype JobState = Complete | Cancelled | Other

  /** What the server records about the job, in order. */
  datatype Write = StoreFragment(f: Fragment) | SetState(state: JobState)

  function Fragments(w: seq<Write>): seq<Fragment> {
    if w == [] then []
    else Fragments(w[..|w| - 1]) + match w[|w| - 1] { case StoreFragment(f) => [f] case SetState(_) => [] }
  }

  function StateOf(w: seq<Write>): JobState {
    if w == [] then Other
    else match w[|w| - 1] { case StoreFragment(_) => StateOf(w[..|w| - 1]) case SetState(s) => s }
  }

  /** The agent posts "complete" only after the cleanup phase, with every fragment already posted. */
  ghost predicate AgentHistory(w: seq<Write>) {
    && WellOrdered(Fragments(w))
    && forall i, j :: 0 <= i < j < |w| && w[i] == SetState(Complete) ==> !w[j].StoreFragment?
  }

  /** Whatever the order of states and fragments while the job runs: the outcome post comes last. */
  lemma {:induction false} AgentRunIsHistory(running: seq<Write>, after: seq<Write>)
    requires WellOrdered(Fragments(running)) && SetState(Complete) !in running
    requires forall i :: 0 <= i < |after| ==> !after[i].StoreFragment?
    ensures AgentHistory(running + after) && Fragments(running + after) == Fragments(running)
  {
    var w := running + after;
    assert w[..|running|] == running;
    forall j | |running| <= j < |w|
      ensures !w[j].StoreFragment?
    {
      assert w[j] == after[j - |running|];
    }
    NoFragmentsAfter(w, |running|);
  }

  /** One round: when the state was read, when each phase was queried, and whether a query failed. */
  datatype Poll = Poll(stateAt: nat, readAt: seq<nat>, fails: bool)

  function ReadsOf(w: seq<Write>, p: Poll): (ends: seq<nat>)
    requires forall i :: 0 <= i < |p.readAt| ==> p.readAt[i] <= |w|
    ensures |ends| == |p.readAt|
    ensures forall i :: 0 <= i < |ends| ==> ends[i] == |Fragments(w[..p.readAt[i]])|
  {
    seq(|p.readAt|, i requires 0 <= i < |p.readAt| => |Fragments(w[..p.readAt[i]])|)
  }

  /** Within a round the state is read first and the queries follow in order; rounds do not overlap. */
  ghost predicate IsSchedule(w: seq<Write>, polls: seq<Poll>) {
    && (forall k :: 0 <= k < |polls| ==>
          && |polls[k].readAt| == |PHASES|
          && polls[k].stateAt <= polls[k].readAt[0]
          && polls[k].readAt[|PHASES| - 1] <= |w|
          && forall i, j :: 0 <= i <= j < |PHASES| ==> polls[k].readAt[i] <= polls[k].readAt[j])
    && forall k, l :: 0 <= k < l < |polls| ==> polls[k].readAt[|PHASES| - 1] <= polls[l].stateAt
  }

  datatype Exit = SawComplete | SawCancelled | StillPolling

  datatype Progress = Progress(printed: string, cur: nat, exit: Exit)

  function Largest(s: seq<Fragment>, ends: seq<nat>, cur: nat, k: nat): int
    requires k <= |PHASES| == |ends| && forall i :: 0 <= i < |ends| ==> ends[i] <= |s|
  {
    if k == 0 then -1
    else
      var l := LastNumber(RetrieveLogFragments(s[..ends[k - 1]], PHASES[k - 1], cur));
      var m := Largest(s, ends, cur, k - 1);
      if l > m then l else m
  }

  /** Printing is skipped, and the cursor kept, when there is nothing new to show. */
  function Shown(g: Progress, last: int, data: string): Progress {
    if last >= 0 && data != "" then g.(printed := g.printed + data, cur := last + 1) else g
  }

  function Show(s: seq<Fragment>, ends: seq<nat>, g: Progress): Progress
    requires |ends| == |PHASES| && forall i :: 0 <= i < |ends| ==> ends[i] <= |s|
  {
    Shown(g, Largest(s, ends, g.cur, |PHASES|), Text(Seen(s, ends, g.cur, |PHASES|)))
  }

  function ExitOn(state: JobState): Exit {
    match state
    case Complete => SawComplete
    case Cancelled => SawCancelled
    case Other => StillPolling
  }

  function PollOnce(w: seq<Write>, g: Progress, p: Poll): Progress
    requires |p.readAt| == |PHASES| && forall i :: 0 <= i < |p.readAt| ==> p.readAt[i] <= |w|
    requires p.stateAt <= |w|
  {
    if g.exit != StillPolling || p.fails then g
    else
      FragmentPrefixes(w, p.readAt);
      Show(Fragments(w), ReadsOf(w, p), g).(exit := ExitOn(StateOf(w[..p.stateAt])))
  }

  function PollAll(w: seq<Write>, g: Progress, polls: seq<Poll>): Progress
    requires IsSchedule(w, polls)
  {
    if polls == [] then g
    else
      var n := |polls| - 1;
      assert IsSchedule(w, polls[..n]);
      PollOnce(w, PollAll(w, g, polls[..n]), polls[n])
  }

  lemma {:induction false} FragmentPrefix(w: seq<Write>, t: nat)
    requires t <= |w|
    ensures Fragments(w[..t]) <= Fragments(w)
    decreases |w|
  {
    if t == |w| {
      assert w[..t] == w;
    } else {
      FragmentPrefix(w[..|w| - 1], t);
      assert w[..|w| - 1][..t] == w[..t];
    }
  }

  lemma FragmentPrefixes(w: seq<Write>, ts: seq<nat>)
    requires forall i :: 0 <= i < |ts| ==> ts[i] <= |w|
    ensures forall i :: 0 <= i < |ts| ==> |Fragments(w[..ts[i]])| <= |Fragments(w)|
  {
    forall i | 0 <= i < |ts|
      ensures |Fragments(w[..ts[i]])| <= |Fragments(w)|
    {
      FragmentPrefix(w, ts[i]);
    }
  }

  /** The state read by a round; a failed one reads nothing. */
  function StateRead(w: seq<Write>, p: Poll): JobState {
    if p.fails || p.stateAt > |w| then Other else StateOf(w[..p.stateAt])
  }

  /** The first round that reads that the job is over. */
  function FirstOver(w: seq<Write>, polls: seq<Poll>): (k: nat)
    ensures k <= |polls| && forall i :: 0 <= i < k ==> StateRead(w, polls[i]) == Other
    ensures k < |polls| ==> StateRead(w, polls[k]) != Other
  {
    if polls == [] || StateRead(w, polls[0]) != Other then 0 else 1 + FirstOver(w, polls[1..])
  }

  /** How the loop ends, given the states read. */
  predicate IsExit(w: seq<Write>, polls: seq<Poll>, exit: Exit) {
    var k := FirstOver(w, polls);
    && (exit == SawComplete <==> k < |polls| && StateRead(w, polls[k]) == Complete)
    && (exit == SawCancelled <==> k < |polls| && StateRead(w, polls[k]) == Cancelled)
    && (exit == StillPolling <==> k == |polls|)
  }

  /** The command line tool: what it has printed, and its poll loop over all phases. */
  class TestflingerCli {
    var printed: string

    constructor ()
      ensures printed == ""
    {
      printed := "";
    }

    /** One request for the logs of all phases, combined: the largest fragment number and the text. */
    method GetCombinedLogOutput(s: seq<Fragment>, ends: seq<nat>, start: nat) returns (last: int, data: string)
      requires |ends| == |PHASES| && forall i :: 0 <= i < |ends| ==> ends[i] <= |s|
      ensures last == Largest(s, ends, start, |PHASES|) && data == Text(Seen(s, ends, start, |PHASES|))
    {
      last, data := -1, "";
      for k := 0 to |PHASES|
        invariant last == Largest(s, ends, start, k) && data == Text(Seen(s, ends, start, k))
      {
        var (number, text) := RetrieveLogs(s[..ends[k]], PHASES[k], start);
        TextConcat(Seen(s, ends, start, k), RetrieveLogFragments(s[..ends[k]], PHASES[k], start));
        if number > last {
          last := number;
        }
        data := data + text;
      }
    }

    /** One round: the state, then the logs, printed if there is anything new, then a look at the state. */
    method PollRound(w: seq<Write>, p: Poll, curFragment: nat) returns (next: nat, exit: Exit)
      requires |p.readAt| == |PHASES| && p.stateAt <= |w| && forall i :: 0 <= i < |p.readAt| ==> p.readAt[i] <= |w|
      modifies this`printed
      ensures Progress(printed, next, exit) == PollOnce(w, Progress(old(printed), curFragment, StillPolling), p)
    {
      next, exit := curFragment, StillPolling;
      if p.fails {
        return;
      }
      var jobState := StateOf(w[..p.stateAt]);
      FragmentPrefixes(w, p.readAt);
      var last, data := GetCombinedLogOutput(Fragments(w), ReadsOf(w, p), curFragment);
      if last >= 0 && data != "" {
        printed := printed + data;
        next := last + 1;
      }
      if jobState == Complete {
        exit := SawComplete;
      } else if jobState == Cancelled {
        exit := SawCancelled;
      }
    }

    method DoPoll(w: seq<Write>, polls: seq<Poll>, startFragment: nat) returns (exit: Exit)
      requires IsSchedule(w, polls)
      modifies this`printed
      ensures var g := PollAll(w, Progress(old(printed), startFragment, StillPolling), polls);
        printed == g.printed && exit == g.exit
      ensures IsExit(w, polls, exit)
    {
      var curFragment: nat := startFragment;
      ghost var g0 := Progress(printed, startFragment, StillPolling);
      exit := StillPolling;
      for k := 0 to |polls|
        invariant IsSchedule(w, polls[..k]) && exit == StillPolling
        invariant PollAll(w, g0, polls[..k]) == Progress(printed, curFragment, exit)
      {
        PollAllStep(w, g0, polls, k);
        curFragment, exit := PollRound(w, polls[k], curFragment);
        if exit != StillPolling {
          PollAllStops(w, g0, polls, k + 1);
          break;
        }
      }
      assert polls[..|polls|] == polls;
      ExitsAsRead(w, g0, polls);
    }
  }

  lemma PollAllStep(w: seq<Write>, g: Progress, polls: seq<Poll>, k: nat)
    requires IsSchedule(w, polls) && k < |polls|
    ensures IsSchedule(w, polls[..k]) && IsSchedule(w, polls[..k + 1])
    ensures PollAll(w, g, polls[..k + 1]) == PollOnce(w, PollAll(w, g, polls[..k]), polls[k])
  {
    assert polls[..k + 1][..k] == polls[..k];
  }

  lemma {:induction false} PollAllStops(w: seq<Write>, g: Progress, polls: seq<Poll>, k: nat)
    requires IsSchedule(w, polls) && k <= |polls| && IsSchedule(w, polls[..k])
    requires PollAll(w, g, polls[..k]).exit != StillPolling
    ensures PollAll(w, g, polls) == PollAll(w, g, polls[..k])
    decreases |polls|
  {
    if k == |polls| {
      assert polls[..k] == polls;
    } else {
      var n := |polls| - 1;
      assert polls[..n][..k] == polls[..k];
      PollAllStops(w, g, polls[..n], k);
      PollAllStep(w, g, polls, n);
      assert polls[..n + 1] == polls;
    }
  }

  /** The loop ends with the first round that reads that the job is over, and as that says; later ones print nothing. */
  lemma ExitIff(w: seq<Write>, g: Progress, polls: seq<Poll>)
    requires IsSchedule(w, polls) && g.exit == StillPolling
    ensures IsExit(w, polls, PollAll(w, g, polls).exit)
    ensures var n := Min(FirstOver(w, polls) + 1, |polls|);
      IsSchedule(w, polls[..n]) && PollAll(w, g, polls) == PollAll(w, g, polls[..n])
  {
    var k := FirstOver(w, polls);
    WhileOpen(w, g, polls, k);
    if k < |polls| {
      PollAllStep(w, g, polls, k);
      PollAllStops(w, g, polls, k + 1);
    } else {
      assert polls[..k] == polls;
    }
  }

  lemma ExitsAsRead(w: seq<Write>, g: Progress, polls: seq<Poll>)
    requires IsSchedule(w, polls) && g.exit == StillPolling
    ensures IsExit(w, polls, PollAll(w, g, polls).exit)
  {
    ExitIff(w, g, polls);
  }

  lemma {:induction false} WhileOpen(w: seq<Write>, g: Progress, polls: seq<Poll>, n: nat)
    requires IsSchedule(w, polls) && g.exit == StillPolling
    requires n <= |polls| && forall i :: 0 <= i < n ==> StateRead(w, polls[i]) == Other
    ensures IsSchedule(w, polls[..n]) && PollAll(w, g, polls[..n]).exit == StillPolling
  {
    if n > 0 {
      WhileOpen(w, g, polls, n - 1);
      PollAllStep(w, g, polls, n - 1);
    }
  }

  // ---------------------------------------------------------------------------------------------
  // Delivery
  // ---------------------------------------------------------------------------------------------

  /** The first r fragments have been shown from start on; those the cursor has not passed are blank. */
  ghost predicate Covers(s: seq<Fragment>, start: nat, g: Progress, r: nat) {
    && r <= |s| && CursorPlaced(s, start, g.cur, r)
    && g.printed == Text(From(s[..r], start))
    && Text(From(s[..r], g.cur)) == ""
  }

  lemma {:induction false} LargestIsLast(s: seq<Fragment>, ends: seq<nat>, cur: nat, k: nat, r: nat)
    requires IsReads(s, ends) && WellOrdered(s) && k <= |PHASES| && IsInstant(s, ends, cur, r)
    ensures Largest(s, ends, cur, k) == LastNumber(Pick(s[..r], 0, k, cur))
  {
    if k == 0 {
      PickNone(s[..r], 0, 0, cur);
    } else {
      LargestIsLast(s, ends, cur, k - 1, r);
      QuerySees(s, ends, cur, k - 1, r);
      WellOrderedPrefix(s, r);
      PickSplit(s[..r], 0, k - 1, k, cur);
      PickOrdered(s[..r], 0, k, cur);
      LastOfConcat(Pick(s[..r], 0, k - 1, cur), Pick(s[..r], k - 1, k, cur));
    }
  }

  lemma LastOfConcat(a: seq<Fragment>, b: seq<Fragment>)
    requires WellOrdered(a + b)
    ensures LastNumber(a + b) == if LastNumber(b) > LastNumber(a) then LastNumber(b) else LastNumber(a)
  {
    var c := a + b;
    if a != [] && b != [] {
      assert Before(c[|a| - 1], c[|c| - 1]);
    } else {
      assert a == [] ==> c == b;
      assert b == [] ==> c == a;
    }
  }

  lemma LastOfFrom(s: seq<Fragment>, cur: nat)
    requires WellOrdered(s) && From(s, cur) != []
    ensures s != [] && s[|s| - 1].number >= cur && LastNumber(From(s, cur)) == s[|s| - 1].number
    ensures From(s, s[|s| - 1].number + 1) == []
  {
    var f := From(s, cur)[0];
    PickFrom(s, 0, |PHASES|, cur);
    var n := |s| - 1;
    var k :| 0 <= k <= n && s[k] == f;
    assert k < n ==> Before(s[k], s[n]);
    forall i | 0 <= i <= n
      ensures s[i].number < s[n].number + 1
    {
      assert i < n ==> Before(s[i], s[n]);
    }
    PickNone(s, 0, |PHASES|, s[n].number + 1);
  }

  lemma {:induction false} FromAgree(s: seq<Fragment>, a: nat, b: nat)
    requires forall i :: 0 <= i < |s| ==> (s[i].number >= a <==> s[i].number >= b)
    ensures From(s, a) == From(s, b)
  {
    if s != [] {
      FromAgree(s[..|s| - 1], a, b);
    }
  }

  /** The cursor is where it began, or right behind a fragment already shown. */
  ghost predicate CursorPlaced(s: seq<Fragment>, start: nat, cur: nat, r: nat)
    requires r <= |s|
  {
    start <= cur && (cur > start ==> exists x :: 0 <= x < r && s[x].number + 1 == cur)
  }

  lemma NewNumbers(s: seq<Fragment>, start: nat, cur: nat, r: nat)
    requires WellOrdered(s) && r <= |s| && CursorPlaced(s, start, cur, r)
    ensures forall i :: r <= i < |s| ==> (s[i].number >= cur <==> s[i].number >= start)
  {
    if cur > start {
      var x :| 0 <= x < r && s[x].number + 1 == cur;
      forall i | r <= i < |s|
        ensures s[i].number >= cur
      {
        assert Before(s[x], s[i]);
      }
    }
  }

  /** What is new since instant r is the same whether counted from the cursor or from the start. */
  lemma NewText(s: seq<Fragment>, start: nat, cur: nat, r: nat, r': nat)
    requires WellOrdered(s) && r <= r' <= |s| && CursorPlaced(s, start, cur, r)
    requires Text(From(s[..r], cur)) == ""
    ensures Text(From(s[..r], start)) + Text(From(s[..r'], cur)) == Text(From(s[..r'], start))
  {
    var added := s[r..r'];
    assert From(added, cur) == From(added, start) by {
      NewNumbers(s, start, cur, r);
      FromAgree(added, cur, start);
    }
    TextSplits(s, r, r', cur);
    TextSplits(s, r, r', start);
  }

  lemma TextSplits(s: seq<Fragment>, r: nat, r': nat, start: nat)
    requires r <= r' <= |s|
    ensures Text(From(s[..r'], start)) == Text(From(s[..r], start)) + Text(From(s[r..r'], start))
  {
    assert s[..r'] == s[..r] + s[r..r'];
    PickConcat(s[..r], s[r..r'], 0, |PHASES|, start);
    TextConcat(From(s[..r], start), From(s[r..r'], start));
  }

  lemma ShowKeepsCovering(s: seq<Fragment>, ends: seq<nat>, start: nat, g: Progress, r: nat) returns (r': nat)
    requires WellOrdered(s) && IsReads(s, ends) && NoOvertaking(s, ends)
    requires Covers(s, start, g, r) && r <= ends[0]
    ensures Covers(s, start, Show(s, ends, g), r') && ends[0] <= r' <= ends[|PHASES| - 1]
  {
    r' := InstantOf(s, ends, 0);
    SeenIsSnapshot(s, ends, g.cur, |PHASES|, r');
    LargestIsLast(s, ends, g.cur, |PHASES|, r');
    NewText(s, start, g.cur, r, r');
    ShownCovers(s, start, g, r, r');
  }

  /** Show, given what the poll saw at instant r'. */
  lemma ShownCovers(s: seq<Fragment>, start: nat, g: Progress, r: nat, r': nat)
    requires WellOrdered(s) && Covers(s, start, g, r) && r <= r' <= |s|
    requires g.printed + Text(From(s[..r'], g.cur)) == Text(From(s[..r'], start))
    ensures Covers(s, start, Shown(g, LastNumber(From(s[..r'], g.cur)), Text(From(s[..r'], g.cur))), r')
  {
    var log := s[..r'];
    WellOrderedPrefix(s, r');
    if From(log, g.cur) != [] {
      LastOfFrom(log, g.cur);
      assert log[r' - 1] == s[r' - 1];
    }
  }

  // The world's clock: reads happen at positions in the server's history.

  lemma FragmentsMonotone(w: seq<Write>, t: nat, u: nat)
    requires t <= u <= |w|
    ensures |Fragments(w[..t])| <= |Fragments(w[..u])| <= |Fragments(w)|
  {
    FragmentPrefix(w[..u], t);
    assert w[..u][..t] == w[..t];
    FragmentPrefix(w, u);
  }

  lemma ScheduledReads(w: seq<Write>, p: Poll)
    requires IsSchedule(w, [p])
    ensures |p.readAt| == |PHASES| && forall i :: 0 <= i < |p.readAt| ==> p.readAt[i] <= |w|
    ensures IsReads(Fragments(w), ReadsOf(w, p))
  {
    assert [p][0] == p;
    ReadsOrdered(w, p);
  }

  lemma ReadsOrdered(w: seq<Write>, p: Poll)
    requires |p.readAt| == |PHASES| && forall i :: 0 <= i < |p.readAt| ==> p.readAt[i] <= |w|
    requires forall i, j :: 0 <= i <= j < |PHASES| ==> p.readAt[i] <= p.readAt[j]
    ensures IsReads(Fragments(w), ReadsOf(w, p))
  {
    var ends := ReadsOf(w, p);
    forall i, j | 0 <= i <= j < |PHASES|
      ensures ends[i] <= ends[j] <= |Fragments(w)|
    {
      FragmentsMonotone(w, p.readAt[i], p.readAt[j]);
    }
  }

  /** Once "complete" can be read, every fragment is stored. */
  lemma {:induction false} CompleteMeansStored(w: seq<Write>, t: nat)
    requires AgentHistory(w) && t <= |w| && StateOf(w[..t]) == Complete
    ensures Fragments(w[..t]) == Fragments(w)
  {
    StateIsLast(w[..t]);
    var i :| 0 <= i < t && w[..t][i] == SetState(Complete);
    assert w[i] == SetState(Complete);
    NoFragmentsAfter(w, t);
  }

  /** The state is the one that was set last; before any was set it is neither complete nor cancelled. */
  lemma {:induction false} StateIsLast(w: seq<Write>)
    ensures (forall j :: 0 <= j < |w| ==> w[j].StoreFragment?)
      || exists i :: 0 <= i < |w| && w[i] == SetState(StateOf(w)) && forall j :: i < j < |w| ==> w[j].StoreFragment?
    ensures (forall j :: 0 <= j < |w| ==> w[j].StoreFragment?) ==> StateOf(w) == Other
  {
    if w != [] && w[|w| - 1].StoreFragment? {
      StateIsLast(w[..|w| - 1]);
    }
  }

  lemma {:induction false} NoFragmentsAfter(w: seq<Write>, t: nat)
    requires t <= |w| && forall j :: t <= j < |w| ==> !w[j].StoreFragment?
    ensures Fragments(w[..t]) == Fragments(w)
  {
    if t == |w| {
      assert w[..t] == w;
    } else {
      NoFragmentsAfter(w[..|w| - 1], t);
      assert w[..|w| - 1][..t] == w[..t];
    }
  }

  /** Polls whose queries do not overtake each other, for instance snapshots. */
  ghost predicate Faithful(w: seq<Write>, polls: seq<Poll>)
    requires IsSchedule(w, polls)
  {
    forall k :: 0 <= k < |polls| && !polls[k].fails ==> NoOvertaking(Fragments(w), ReadsOf(w, polls[k]))
  }

  function EndOf(polls: seq<Poll>): nat
    requires forall k :: 0 <= k < |polls| ==> |polls[k].readAt| == |PHASES|
  {
    if polls == [] then 0 else polls[|polls| - 1].readAt[|PHASES| - 1]
  }

  /** Over any number of rounds: a gapless prefix has been printed, the whole log if "complete" was seen. */
  lemma {:induction false} PollAllCovers(w: seq<Write>, start: nat, polls: seq<Poll>) returns (r: nat)
    requires AgentHistory(w) && IsSchedule(w, polls) && Faithful(w, polls)
    ensures EndOf(polls) <= |w|
    ensures RoundsCover(w, start, polls, PollAll(w, Progress("", start, StillPolling), polls), r)
  {
    if polls == [] {
      return 0;
    }
    var n := |polls| - 1;
    assert IsSchedule(w, polls[..n]);
    r := PollAllCovers(w, start, polls[..n]);
    r := OneMoreRound(w, start, polls, PollAll(w, Progress("", start, StillPolling), polls[..n]), r);
  }

  ghost predicate RoundsCover(w: seq<Write>, start: nat, polls: seq<Poll>, g: Progress, r: nat)
    requires IsSchedule(w, polls) && EndOf(polls) <= |w|
  {
    && Covers(Fragments(w), start, g, r)
    && r <= |Fragments(w[..EndOf(polls)])|
    && (g.exit == SawComplete ==> r == |Fragments(w)|)
  }

  lemma OneMoreRound(w: seq<Write>, start: nat, polls: seq<Poll>, g: Progress, r: nat) returns (r': nat)
    requires AgentHistory(w) && IsSchedule(w, polls) && Faithful(w, polls) && polls != []
    requires IsSchedule(w, polls[..|polls| - 1]) && EndOf(polls[..|polls| - 1]) <= |w|
    requires RoundsCover(w, start, polls[..|polls| - 1], g, r)
    ensures EndOf(polls) <= |w|
    ensures RoundsCover(w, start, polls, PollOnce(w, g, polls[|polls| - 1]), r')
  {
    var before, p := EndOf(polls[..|polls| - 1]), polls[|polls| - 1];
    r' := r;
    FragmentsMonotone(w, before, p.readAt[0]);
    FragmentsMonotone(w, p.readAt[0], EndOf(polls));
    if g.exit == StillPolling && !p.fails {
      r' := PollOnceCovers(w, start, g, r, p);
    }
  }

  lemma PollOnceCovers(w: seq<Write>, start: nat, g: Progress, r: nat, p: Poll) returns (r': nat)
    requires AgentHistory(w) && IsSchedule(w, [p]) && Faithful(w, [p])
    requires g.exit == StillPolling && !p.fails
    requires Covers(Fragments(w), start, g, r)
    requires [p][0] == p && r <= |Fragments(w[..p.readAt[0]])|
    ensures Covers(Fragments(w), start, PollOnce(w, g, p), r')
    ensures r' <= |Fragments(w[..p.readAt[|PHASES| - 1]])|
    ensures PollOnce(w, g, p).exit == SawComplete ==> r' == |Fragments(w)|
  {
    assert [p][0] == p;
    ScheduledReads(w, p);
    r' := ShowKeepsCovering(Fragments(w), ReadsOf(w, p), start, g, r);
    if StateOf(w[..p.stateAt]) == Complete {
      CompleteMeansStored(w, p.stateAt);
      FragmentsMonotone(w, p.stateAt, p.readAt[0]);
    }
  }

  /** When the loop ends on "complete", every stored fragment from start on is printed once, in order. */
  lemma DeliveredOnComplete(w: seq<Write>, start: nat, polls: seq<Poll>)
    requires AgentHistory(w) && IsSchedule(w, polls) && Faithful(w, polls)
    requires PollAll(w, Progress("", start, StillPolling), polls).exit == SawComplete
    ensures PollAll(w, Progress("", start, StillPolling), polls).printed == Text(From(Fragments(w), start))
    ensures start == 0 ==> PollAll(w, Progress("", start, StillPolling), polls).printed == Text(Fragments(w))
  {
    var r := PollAllCovers(w, start, polls);
    assert Fragments(w)[..r] == Fragments(w);
    PickEverything(Fragments(w));
  }

  /** However the loop stands or ends, what it has printed is a gapless prefix of the log. */
  lemma AlwaysGapless(w: seq<Write>, start: nat, polls: seq<Poll>)
    requires AgentHistory(w) && IsSchedule(w, polls) && Faithful(w, polls)
    ensures exists r :: (0 <= r <= |Fragments(w)|
      && PollAll(w, Progress("", start, StillPolling), polls).printed == Text(From(Fragments(w)[..r], start)))
  {
    var r := PollAllCovers(w, start, polls);
  }

  lemma LastIsLargest(fs: seq<Fragment>, f: Fragment)
    requires WellOrdered(fs) && f in fs
    ensures LastNumber(fs) >= f.number
  {
    var i :| 0 <= i < |fs| && fs[i] == f;
    assert i < |fs| - 1 ==> Before(fs[i], fs[|fs| - 1]);
  }

  lemma QueryReturns(s: seq<Fragment>, n: nat, k: nat, cur: nat, y: nat)
    requires WellOrdered(s) && n <= |s| && k < |PHASES| && y < n
    requires s[y].number >= cur && PhaseIndex(s[y].phase) == k
    ensures LastNumber(RetrieveLogFragments(s[..n], PHASES[k], cur)) >= s[y].number
  {
    QueryInOrder(s, n, k, cur);
    PickMember(s, n, k, k + 1, cur, y);
    WellOrderedPrefix(s, n);
    PickOrdered(s[..n], k, k + 1, cur);
    LastIsLargest(Pick(s[..n], k, k + 1, cur), s[y]);
  }

  lemma {:induction false} LargestAtLeast(s: seq<Fragment>, ends: seq<nat>, cur: nat, k: nat, y: nat)
    requires IsReads(s, ends) && WellOrdered(s) && k <= |PHASES| && y < |s|
    requires s[y].number >= cur && PhaseIndex(s[y].phase) < k && y < ends[PhaseIndex(s[y].phase)]
    ensures Largest(s, ends, cur, k) >= s[y].number
  {
    if PhaseIndex(s[y].phase) < k - 1 {
      LargestAtLeast(s, ends, cur, k - 1, y);
    } else {
      QueryReturns(s, ends[k - 1], k - 1, cur, y);
    }
  }

  /** What is overtaken is missed by the poll, and asked for by no query behind the cursor that it leaves. */
  lemma OvertakenIsMissed(s: seq<Fragment>, ends: seq<nat>, g: Progress, x: nat, y: nat)
    requires IsReads(s, ends) && WellOrdered(s) && x < y < |s| && s[x].number >= g.cur
    requires y < ends[PhaseIndex(s[y].phase)] && x >= ends[PhaseIndex(s[x].phase)]
    requires Text(Seen(s, ends, g.cur, |PHASES|)) != ""
    ensures s[x] !in Seen(s, ends, g.cur, |PHASES|)
    ensures forall later :: IsReads(s, later) ==> s[x] !in Seen(s, later, Show(s, ends, g).cur, |PHASES|)
  {
    SeenMember(s, ends, g.cur, |PHASES|, x);
    assert Before(s[x], s[y]);
    LargestAtLeast(s, ends, g.cur, |PHASES|, y);
    forall later | IsReads(s, later)
      ensures s[x] !in Seen(s, later, Show(s, ends, g).cur, |PHASES|)
    {
      SeenMember(s, later, Show(s, ends, g).cur, |PHASES|, x);
    }
  }
}
