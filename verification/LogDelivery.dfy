/**
 When the whole log arrives: what a poll that sees a fragment before an earlier one costs over a run of the poll loop.
 */
module LogDelivery {
  import opened Basics
  import opened LogStream

  // ---------------------------------------------------------------------------------------------
  // What one poll shows
  // ---------------------------------------------------------------------------------------------

  /** The first m fragments are those the cursor has passed. */
  ghost predicate IsCut(s: seq<Fragment>, cur: nat, m: nat) {
    m <= |s| && forall i :: 0 <= i < |s| ==> (i < m <==> s[i].number < cur)
  }

  lemma {:induction false} TextAtLeast(fs: seq<Fragment>, f: Fragment)
    requires f in fs
    ensures |Text(fs)| >= |f.data|
  {
    var n := |fs| - 1;
    if fs[n] != f {
      assert fs == fs[..n] + [fs[n]];
      TextAtLeast(fs[..n], f);
    }
  }

  /** What one query returns fits in the first m fragments. */
  lemma QueryFits(s: seq<Fragment>, e: nat, k: nat, cur: nat, m: nat)
    requires WellOrdered(s) && e <= |s| && m <= |s|
    requires forall i :: m <= i < e ==> !(PhaseIndex(s[i].phase) == k && s[i].number >= cur)
    ensures |Text(Pick(s[..e], k, k + 1, cur))| <= |Text(Pick(s[..m], k, k + 1, cur))|
  {
    if e <= m {
      PickGrows(s, e, k, cur, m);
    } else {
      PickBetween(s, e, m, k, k + 1, cur);
    }
  }

  lemma PickGrows(s: seq<Fragment>, e: nat, k: nat, cur: nat, m: nat)
    requires e <= m <= |s|
    ensures |Text(Pick(s[..m], k, k + 1, cur))|
         == |Text(Pick(s[..e], k, k + 1, cur))| + |Text(Pick(s[e..m], k, k + 1, cur))|
  {
    assert s[..m] == s[..e] + s[e..m];
    PickConcat(s[..e], s[e..m], k, k + 1, cur);
    TextConcat(Pick(s[..e], k, k + 1, cur), Pick(s[e..m], k, k + 1, cur));
  }

  /** There is room for one that it missed. */
  lemma QueryMisses(s: seq<Fragment>, e: nat, k: nat, cur: nat, m: nat, x: nat)
    requires e <= x < m <= |s| && PhaseIndex(s[x].phase) == k && s[x].number >= cur
    ensures |Text(Pick(s[..e], k, k + 1, cur))| + |s[x].data| <= |Text(Pick(s[..m], k, k + 1, cur))|
  {
    PickGrows(s, e, k, cur, m);
    PickHas(s, e, m, k, cur, x);
    TextAtLeast(Pick(s[e..m], k, k + 1, cur), s[x]);
  }

  lemma {:induction false} PickHas(s: seq<Fragment>, e: nat, m: nat, k: nat, cur: nat, x: nat)
    requires e <= x < m <= |s| && PhaseIndex(s[x].phase) == k && s[x].number >= cur
    ensures s[x] in Pick(s[e..m], k, k + 1, cur)
  {
    assert s[e..m][..m - e - 1] == s[e..m - 1];
    if x < m - 1 {
      PickHas(s, e, m - 1, k, cur, x);
    }
  }

  /** The query for its phase comes late enough for fragment i. */
  predicate IsInTime(s: seq<Fragment>, ends: seq<nat>, i: nat)
    requires |ends| == |PHASES| && i < |s|
  {
    i < ends[PhaseIndex(s[i].phase)]
  }

  /** None of the queries returns a fragment behind the first m. */
  ghost predicate SeesUpTo(s: seq<Fragment>, ends: seq<nat>, cur: nat, m: nat)
    requires |ends| == |PHASES|
  {
    forall i {:trigger IsInTime(s, ends, i)} :: m <= i < |s| && s[i].number >= cur ==> !IsInTime(s, ends, i)
  }

  /** A fragment that the cursor asks for and that came too late for its own query. */
  predicate IsMissed(s: seq<Fragment>, ends: seq<nat>, cur: nat, m: nat, x: nat)
    requires |ends| == |PHASES|
  {
    x < m <= |s| && s[x].number >= cur && x >= ends[PhaseIndex(s[x].phase)]
  }

  /** The room that fragment x leaves among what the first k queries return, if it was missed. */
  function Room(s: seq<Fragment>, ends: seq<nat>, cur: nat, k: nat, m: nat, x: nat): nat
    requires |ends| == |PHASES|
  {
    if IsMissed(s, ends, cur, m, x) && PhaseIndex(s[x].phase) < k then |s[x].data| else 0
  }

  /** What the first k queries return fits in the first m fragments, with room for one that was missed. */
  lemma {:induction false} SeenFits(s: seq<Fragment>, ends: seq<nat>, cur: nat, k: nat, m: nat, x: nat)
    requires IsReads(s, ends) && WellOrdered(s) && k <= |PHASES| && m <= |s|
    requires SeesUpTo(s, ends, cur, m)
    ensures |Text(Seen(s, ends, cur, k))| + Room(s, ends, cur, k, m, x) <= |Text(Pick(s[..m], 0, k, cur))|
  {
    if k == 0 {
      assert Text(Seen(s, ends, cur, 0)) == "";
    } else {
      SeenFits(s, ends, cur, k - 1, m, x);
      RoomInQuery(s, ends, cur, k, m, x);
      SeenLength(s, ends, cur, k);
      WellOrderedPrefix(s, m);
      PickLength(s[..m], cur, k);
    }
  }

  lemma SeenLength(s: seq<Fragment>, ends: seq<nat>, cur: nat, k: nat)
    requires IsReads(s, ends) && WellOrdered(s) && 0 < k <= |PHASES|
    ensures |Text(Seen(s, ends, cur, k))|
         == |Text(Seen(s, ends, cur, k - 1))| + |Text(Pick(s[..ends[k - 1]], k - 1, k, cur))|
  {
    QueryInOrder(s, ends[k - 1], k - 1, cur);
    TextConcat(Seen(s, ends, cur, k - 1), Pick(s[..ends[k - 1]], k - 1, k, cur));
  }

  lemma NoneBehind(s: seq<Fragment>, ends: seq<nat>, cur: nat, k: nat, m: nat)
    requires IsReads(s, ends) && k < |PHASES| && m <= |s| && SeesUpTo(s, ends, cur, m)
    ensures forall i :: m <= i < ends[k] ==> !(PhaseIndex(s[i].phase) == k && s[i].number >= cur)
  {
    forall i | m <= i < ends[k] && PhaseIndex(s[i].phase) == k && s[i].number >= cur
      ensures false
    {
      assert IsInTime(s, ends, i);
    }
  }

  lemma RoomInQuery(s: seq<Fragment>, ends: seq<nat>, cur: nat, k: nat, m: nat, x: nat)
    requires IsReads(s, ends) && WellOrdered(s) && 0 < k <= |PHASES| && m <= |s|
    requires SeesUpTo(s, ends, cur, m)
    ensures |Text(Pick(s[..ends[k - 1]], k - 1, k, cur))| + Room(s, ends, cur, k, m, x)
         <= |Text(Pick(s[..m], k - 1, k, cur))| + Room(s, ends, cur, k - 1, m, x)
  {
    if IsMissed(s, ends, cur, m, x) && PhaseIndex(s[x].phase) == k - 1 {
      QueryMisses(s, ends[k - 1], k - 1, cur, m, x);
    } else {
      NothingInQuery(s, ends, cur, k - 1, m);
    }
  }

  lemma NothingInQuery(s: seq<Fragment>, ends: seq<nat>, cur: nat, k: nat, m: nat)
    requires IsReads(s, ends) && WellOrdered(s) && k < |PHASES| && m <= |s| && SeesUpTo(s, ends, cur, m)
    ensures |Text(Pick(s[..ends[k]], k, k + 1, cur))| <= |Text(Pick(s[..m], k, k + 1, cur))|
  {
    NoneBehind(s, ends, cur, k, m);
    QueryFits(s, ends[k], k, cur, m);
  }

  lemma PickLength(log: seq<Fragment>, cur: nat, k: nat)
    requires WellOrdered(log) && 0 < k
    ensures |Text(Pick(log, 0, k, cur))| == |Text(Pick(log, 0, k - 1, cur))| + |Text(Pick(log, k - 1, k, cur))|
  {
    var early, last := Pick(log, 0, k - 1, cur), Pick(log, k - 1, k, cur);
    PickSplit(log, 0, k - 1, k, cur);
    assert Pick(log, 0, k, cur) == early + last;
    TextConcat(early, last);
  }

  /** A fragment with text misses its own query, while a later one is seen by its. */
  ghost predicate Skips(s: seq<Fragment>, ends: seq<nat>, cur: nat)
    requires |ends| == |PHASES|
  {
    exists x, y {:trigger IsInTime(s, ends, x), IsInTime(s, ends, y)} ::
      0 <= x < y < |s| && s[x].number >= cur && s[x].data != "" && !IsInTime(s, ends, x) && IsInTime(s, ends, y)
  }

  /** The poll shows something, so that the cursor passes what it skips. */
  ghost predicate LosesIn(s: seq<Fragment>, ends: seq<nat>, cur: nat)
    requires IsReads(s, ends)
  {
    Text(Seen(s, ends, cur, |PHASES|)) != "" && Skips(s, ends, cur)
  }

  /** What the queries miss of the first m fragments has no text, and they see none behind these. */
  ghost predicate MissesNoText(s: seq<Fragment>, ends: seq<nat>, cur: nat, m: nat)
    requires IsReads(s, ends) && m <= |s|
  {
    && (forall i {:trigger IsInTime(s, ends, i)} ::
          0 <= i < m && s[i].number >= cur && !IsInTime(s, ends, i) ==> s[i].data == "")
    && SeesUpTo(s, ends, cur, m)
  }

  lemma {:induction false} PickBlank(s: seq<Fragment>, lo: nat, hi: nat, cur: nat)
    requires forall i :: 0 <= i < |s| && lo <= PhaseIndex(s[i].phase) < hi && s[i].number >= cur ==> s[i].data == ""
    ensures Text(Pick(s, lo, hi, cur)) == ""
  {
    if s != [] {
      var init := s[..|s| - 1];
      PickBlank(init, lo, hi, cur);
      var f := s[|s| - 1];
      if lo <= PhaseIndex(f.phase) < hi && f.number >= cur {
        assert f.data == "" && [f][..0] == [];
        TextConcat(Pick(init, lo, hi, cur), [f]);
      } else {
        assert Pick(s, lo, hi, cur) == Pick(init, lo, hi, cur);
      }
    }
  }

  lemma QuerySpells(s: seq<Fragment>, ends: seq<nat>, cur: nat, k: nat, m: nat)
    requires IsReads(s, ends) && m <= |s| && k < |PHASES| && MissesNoText(s, ends, cur, m)
    ensures Text(Pick(s[..ends[k]], k, k + 1, cur)) == Text(Pick(s[..m], k, k + 1, cur))
  {
    var e := ends[k];
    if e <= m {
      assert s[..m] == s[..e] + s[e..m];
      PickConcat(s[..e], s[e..m], k, k + 1, cur);
      TextConcat(Pick(s[..e], k, k + 1, cur), Pick(s[e..m], k, k + 1, cur));
      LateIsBlank(s, ends, cur, k, m);
    } else {
      NoneBehind(s, ends, cur, k, m);
      PickBetween(s, e, m, k, k + 1, cur);
    }
  }

  lemma LateIsBlank(s: seq<Fragment>, ends: seq<nat>, cur: nat, k: nat, m: nat)
    requires IsReads(s, ends) && k < |PHASES| && ends[k] <= m <= |s| && MissesNoText(s, ends, cur, m)
    ensures Text(Pick(s[ends[k]..m], k, k + 1, cur)) == ""
  {
    var late := s[ends[k]..m];
    forall i | 0 <= i < |late| && k <= PhaseIndex(late[i].phase) < k + 1 && late[i].number >= cur
      ensures late[i].data == ""
    {
      assert !IsInTime(s, ends, ends[k] + i);
    }
    PickBlank(late, k, k + 1, cur);
  }

  /** What the first k queries return spells what the first m fragments have in these phases. */
  lemma {:induction false} SeenSpells(s: seq<Fragment>, ends: seq<nat>, cur: nat, k: nat, m: nat)
    requires IsReads(s, ends) && WellOrdered(s) && k <= |PHASES| && m <= |s| && MissesNoText(s, ends, cur, m)
    ensures Text(Seen(s, ends, cur, k)) == Text(Pick(s[..m], 0, k, cur))
  {
    if k == 0 {
      PickNone(s[..m], 0, 0, cur);
    } else {
      SeenSpells(s, ends, cur, k - 1, m);
      QueryInOrder(s, ends[k - 1], k - 1, cur);
      QuerySpells(s, ends, cur, k - 1, m);
      TextConcat(Seen(s, ends, cur, k - 1), Pick(s[..ends[k - 1]], k - 1, k, cur));
      WellOrderedPrefix(s, m);
      PickSplit(s[..m], 0, k - 1, k, cur);
      TextConcat(Pick(s[..m], 0, k - 1, cur), Pick(s[..m], k - 1, k, cur));
    }
  }

  lemma LastOfQuery(s: seq<Fragment>, n: nat, k: nat, cur: nat) returns (y: nat)
    requires WellOrdered(s) && n <= |s| && k < |PHASES|
    requires LastNumber(RetrieveLogFragments(s[..n], PHASES[k], cur)) >= 0
    ensures y < n && s[y].number == LastNumber(RetrieveLogFragments(s[..n], PHASES[k], cur))
    ensures PhaseIndex(s[y].phase) == k && s[y].number >= cur
  {
    QueryInOrder(s, n, k, cur);
    y := LastPicked(s[..n], k, cur);
  }

  lemma {:induction false} LastPicked(s: seq<Fragment>, k: nat, cur: nat) returns (y: nat)
    requires Pick(s, k, k + 1, cur) != []
    ensures y < |s| && s[y].number == LastNumber(Pick(s, k, k + 1, cur))
    ensures PhaseIndex(s[y].phase) == k && s[y].number >= cur
  {
    var n := |s| - 1;
    if PhaseIndex(s[n].phase) == k && s[n].number >= cur {
      y := n;
    } else {
      y := LastPicked(s[..n], k, cur);
    }
  }

  /** The largest number seen is that of a fragment that was seen. */
  lemma {:induction false} LargestIsSeen(s: seq<Fragment>, ends: seq<nat>, cur: nat, k: nat) returns (y: nat)
    requires IsReads(s, ends) && WellOrdered(s) && k <= |PHASES| && Largest(s, ends, cur, k) >= 0
    ensures y < |s| && s[y].number == Largest(s, ends, cur, k) && s[y].number >= cur
    ensures y < ends[PhaseIndex(s[y].phase)]
  {
    var last := LastNumber(RetrieveLogFragments(s[..ends[k - 1]], PHASES[k - 1], cur));
    if last > Largest(s, ends, cur, k - 1) {
      y := LastOfQuery(s, ends[k - 1], k - 1, cur);
    } else {
      y := LargestIsSeen(s, ends, cur, k - 1);
    }
  }

  // ---------------------------------------------------------------------------------------------
  // What a run shows
  // ---------------------------------------------------------------------------------------------

  /** What the cursor has passed from `start` on, the first m fragments, has been printed, or some of it was lost. */
  ghost predicate Accounts(s: seq<Fragment>, start: nat, g: Progress, m: nat, lost: bool) {
    && IsCut(s, g.cur, m) && start <= g.cur
    && var passed := Text(From(s[..m], start));
      if lost then |g.printed| < |passed| else g.printed == passed
  }

  lemma CutText(s: seq<Fragment>, start: nat, cur: nat, m: nat, n: nat)
    requires IsCut(s, cur, m) && start <= cur && m <= n <= |s|
    ensures Text(From(s[..n], start)) == Text(From(s[..m], start)) + Text(From(s[..n], cur))
  {
    TextSplits(s, m, n, start);
    TextSplits(s, m, n, cur);
    NothingBefore(s, cur, m);
    AllBehind(s, start, cur, m, n);
    assert "" + Text(From(s[m..n], cur)) == Text(From(s[m..n], cur));
  }

  lemma NothingBefore(s: seq<Fragment>, cur: nat, m: nat)
    requires IsCut(s, cur, m)
    ensures From(s[..m], cur) == []
  {
    PickNone(s[..m], 0, |PHASES|, cur);
  }

  lemma AllBehind(s: seq<Fragment>, start: nat, cur: nat, m: nat, n: nat)
    requires IsCut(s, cur, m) && start <= cur && m <= n <= |s|
    ensures From(s[m..n], start) == From(s[m..n], cur)
  {
    FromAgree(s[m..n], start, cur);
  }

  lemma StartCut(s: seq<Fragment>, start: nat) returns (m: nat)
    requires WellOrdered(s)
    ensures Accounts(s, start, Begin(start), m, false)
  {
    m := 0;
    while m < |s| && s[m].number < start
      invariant m <= |s| && forall i :: 0 <= i < m ==> s[i].number < start
    {
      m := m + 1;
    }
    assert forall i :: m < i < |s| ==> Before(s[m], s[i]);
    PickNone(s[..m], 0, |PHASES|, start);
  }

  /** A poll that sees y shows at least its text. */
  lemma SeenShows(s: seq<Fragment>, ends: seq<nat>, cur: nat, y: nat)
    requires IsReads(s, ends) && WellOrdered(s)
    requires y < |s| && s[y].number >= cur && y < ends[PhaseIndex(s[y].phase)]
    ensures |Text(Seen(s, ends, cur, |PHASES|))| >= |s[y].data| && Largest(s, ends, cur, |PHASES|) >= s[y].number
  {
    SeenMember(s, ends, cur, |PHASES|, y);
    TextAtLeast(Seen(s, ends, cur, |PHASES|), s[y]);
    LargestAtLeast(s, ends, cur, |PHASES|, y);
  }

  /** One poll: what the cursor passes was stored before its last query; it is shown, or some of it is lost. */
  lemma ShowAccounts(s: seq<Fragment>, ends: seq<nat>, start: nat, g: Progress, m: nat, lost: bool) returns (m': nat)
    requires IsReads(s, ends) && WellOrdered(s) && Accounts(s, start, g, m, lost)
    ensures m <= m' && if Show(s, ends, g).cur == g.cur then m' == m else m' <= ends[|PHASES| - 1]
    ensures Accounts(s, start, Show(s, ends, g), m', lost || LosesIn(s, ends, g.cur))
  {
    if Largest(s, ends, g.cur, |PHASES|) >= 0 && Text(Seen(s, ends, g.cur, |PHASES|)) != "" {
      m' := PassingAccounts(s, ends, start, g, m, lost);
    } else {
      IdleLosesNothing(s, ends, g);
      m' := m;
    }
  }

  lemma PassingAccounts(s: seq<Fragment>, ends: seq<nat>, start: nat, g: Progress, m: nat, lost: bool)
    returns (m': nat)
    requires IsReads(s, ends) && WellOrdered(s) && Accounts(s, start, g, m, lost)
    requires Largest(s, ends, g.cur, |PHASES|) >= 0 && Text(Seen(s, ends, g.cur, |PHASES|)) != ""
    ensures m <= m' <= ends[|PHASES| - 1] && Show(s, ends, g).cur > g.cur
    ensures Accounts(s, start, Show(s, ends, g), m', lost || LosesIn(s, ends, g.cur))
  {
    var y := LargestIsSeen(s, ends, g.cur, |PHASES|);
    m' := PassingTo(s, ends, start, g, m, y, lost);
  }

  /** A poll without anything new changes nothing. */
  lemma IdleLosesNothing(s: seq<Fragment>, ends: seq<nat>, g: Progress)
    requires IsReads(s, ends) && WellOrdered(s)
    requires Largest(s, ends, g.cur, |PHASES|) < 0 || Text(Seen(s, ends, g.cur, |PHASES|)) == ""
    ensures Show(s, ends, g) == g && !LosesIn(s, ends, g.cur)
  {
    LosingShows(s, ends, g.cur);
  }

  lemma LosingShows(s: seq<Fragment>, ends: seq<nat>, cur: nat)
    requires IsReads(s, ends) && WellOrdered(s)
    ensures LosesIn(s, ends, cur) ==> Largest(s, ends, cur, |PHASES|) >= 0
  {
    if LosesIn(s, ends, cur) {
      var x, y := Skipped(s, ends, cur);
      SeenShows(s, ends, cur, y);
    }
  }

  lemma PassingTo(s: seq<Fragment>, ends: seq<nat>, start: nat, g: Progress, m: nat, y: nat, lost: bool)
    returns (m': nat)
    requires IsReads(s, ends) && WellOrdered(s) && Accounts(s, start, g, m, lost)
    requires y < |s| && g.cur <= s[y].number == Largest(s, ends, g.cur, |PHASES|)
    requires y < ends[PhaseIndex(s[y].phase)] && Text(Seen(s, ends, g.cur, |PHASES|)) != ""
    ensures m <= m' <= ends[|PHASES| - 1] && Show(s, ends, g).cur > g.cur
    ensures Accounts(s, start, Show(s, ends, g), m', lost || LosesIn(s, ends, g.cur))
  {
    PassedUpTo(s, ends, g.cur, y);
    ShownText(s, ends, g.cur, y, y + 1);
    m' := Account(s, start, g, Text(Seen(s, ends, g.cur, |PHASES|)), m, y, lost, Skips(s, ends, g.cur));
  }

  /** Once y is the last that the cursor has passed. */
  lemma Account(
    s: seq<Fragment>, start: nat, g: Progress, seen: string, m: nat, y: nat, lost: bool, skips: bool)
    returns (m': nat)
    requires Accounts(s, start, g, m, lost) && y < |s| && IsCut(s, s[y].number + 1, y + 1) && g.cur <= s[y].number
    requires var passed := Text(From(s[..y + 1], g.cur)); if skips then |seen| < |passed| else seen == passed
    ensures m <= m' == y + 1
    ensures Accounts(s, start, Progress(g.printed + seen, s[y].number + 1, g.exit), m', lost || skips)
  {
    m' := y + 1;
    CutText(s, start, g.cur, m, y + 1);
  }

  /** What a poll shows is what the cursor passes, or less if it skips text. */
  lemma ShownText(s: seq<Fragment>, ends: seq<nat>, cur: nat, y: nat, m: nat)
    requires IsReads(s, ends) && WellOrdered(s) && m <= |s| && SeesUpTo(s, ends, cur, m)
    requires m == y + 1 && y < ends[PhaseIndex(s[y].phase)]
    ensures var seen, passed := Text(Seen(s, ends, cur, |PHASES|)), Text(From(s[..m], cur));
      if Skips(s, ends, cur) then |seen| < |passed| else seen == passed
  {
    if Skips(s, ends, cur) {
      SkippingShowsLess(s, ends, cur, m);
    } else {
      NothingSkipped(s, ends, cur, y, m);
      SeenSpells(s, ends, cur, |PHASES|, m);
    }
  }

  lemma NothingSkipped(s: seq<Fragment>, ends: seq<nat>, cur: nat, y: nat, m: nat)
    requires IsReads(s, ends) && m <= |s| && m == y + 1 && y < ends[PhaseIndex(s[y].phase)]
    requires SeesUpTo(s, ends, cur, m) && !Skips(s, ends, cur)
    ensures MissesNoText(s, ends, cur, m)
  {
    assert IsInTime(s, ends, y);
  }

  lemma SkippingShowsLess(s: seq<Fragment>, ends: seq<nat>, cur: nat, m: nat)
    requires IsReads(s, ends) && WellOrdered(s) && m <= |s| && SeesUpTo(s, ends, cur, m) && Skips(s, ends, cur)
    ensures |Text(Seen(s, ends, cur, |PHASES|))| < |Text(From(s[..m], cur))|
  {
    var x := SkippedBelow(s, ends, cur, m);
    MissingShowsLess(s, ends, cur, m, x);
  }

  lemma SkippedBelow(s: seq<Fragment>, ends: seq<nat>, cur: nat, m: nat) returns (x: nat)
    requires IsReads(s, ends) && WellOrdered(s) && m <= |s| && SeesUpTo(s, ends, cur, m) && Skips(s, ends, cur)
    ensures IsMissed(s, ends, cur, m, x) && s[x].data != ""
  {
    var y;
    x, y := Skipped(s, ends, cur);
    assert IsInTime(s, ends, y);
  }

  lemma MissingShowsLess(s: seq<Fragment>, ends: seq<nat>, cur: nat, m: nat, x: nat)
    requires IsReads(s, ends) && WellOrdered(s) && m <= |s| && SeesUpTo(s, ends, cur, m)
    requires IsMissed(s, ends, cur, m, x) && s[x].data != ""
    ensures |Text(Seen(s, ends, cur, |PHASES|))| < |Text(From(s[..m], cur))|
  {
    SeenFits(s, ends, cur, |PHASES|, m, x);
  }

  lemma Skipped(s: seq<Fragment>, ends: seq<nat>, cur: nat) returns (x: nat, y: nat)
    requires IsReads(s, ends) && WellOrdered(s) && Skips(s, ends, cur)
    ensures x < y < |s| && s[x].data != "" && y < ends[PhaseIndex(s[y].phase)] && x >= ends[PhaseIndex(s[x].phase)]
    ensures cur <= s[x].number < s[y].number
  {
    x, y :| 0 <= x < y < |s| && s[x].number >= cur && s[x].data != ""
      && !IsInTime(s, ends, x) && IsInTime(s, ends, y);
    assert Before(s[x], s[y]);
  }

  /** The cursor moves behind the largest number seen: nothing seen is beyond it. */
  lemma PassedUpTo(s: seq<Fragment>, ends: seq<nat>, cur: nat, y: nat)
    requires IsReads(s, ends) && WellOrdered(s) && y < |s| && s[y].number == Largest(s, ends, cur, |PHASES|)
    ensures IsCut(s, s[y].number + 1, y + 1)
    ensures SeesUpTo(s, ends, cur, y + 1)
  {
    forall i | 0 <= i < |s|
      ensures i < y + 1 <==> s[i].number < s[y].number + 1
    {
      assert i < y ==> Before(s[i], s[y]);
      assert i > y ==> Before(s[y], s[i]);
    }
    forall i | y + 1 <= i < |s| && s[i].number >= cur
      ensures i >= ends[PhaseIndex(s[i].phase)]
    {
      if i < ends[PhaseIndex(s[i].phase)] {
        LargestAtLeast(s, ends, cur, |PHASES|, i);
      }
    }
  }

  // ---------------------------------------------------------------------------------------------
  // The whole run
  // ---------------------------------------------------------------------------------------------

  function Begin(start: nat): Progress { Progress("", start, StillPolling) }

  ghost predicate StillRunning(w: seq<Write>, start: nat, polls: seq<Poll>, k: nat)
    requires IsSchedule(w, polls) && k <= |polls|
  {
    assert IsSchedule(w, polls[..k]);
    PollAll(w, Begin(start), polls[..k]).exit == StillPolling
  }

  function CursorAt(w: seq<Write>, start: nat, polls: seq<Poll>, k: nat): nat
    requires IsSchedule(w, polls) && k <= |polls|
  {
    assert IsSchedule(w, polls[..k]);
    PollAll(w, Begin(start), polls[..k]).cur
  }

  /** The k-th round was made, did not fail, and skipped text that the cursor then passed. */
  ghost predicate LosesAt(w: seq<Write>, start: nat, polls: seq<Poll>, k: nat)
    requires IsSchedule(w, polls) && k < |polls|
  {
    ScheduledPoll(w, polls, k);
    && StillRunning(w, start, polls, k) && !polls[k].fails
    && LosesIn(Fragments(w), ReadsOf(w, polls[k]), CursorAt(w, start, polls, k))
  }

  ghost predicate Loses(w: seq<Write>, start: nat, polls: seq<Poll>)
    requires IsSchedule(w, polls)
  {
    exists k: nat :: k < |polls| && LosesAt(w, start, polls, k)
  }

  lemma ScheduledPoll(w: seq<Write>, polls: seq<Poll>, k: nat)
    requires IsSchedule(w, polls) && k < |polls|
    ensures IsSchedule(w, [polls[k]]) && IsReads(Fragments(w), ReadsOf(w, polls[k]))
  {
    assert IsSchedule(w, [polls[k]]) by {
      assert [polls[k]][0] == polls[k];
    }
    ScheduledReads(w, polls[k]);
  }

  /** Over a run: what the cursor has passed was stored before the last query; it was printed, or text was lost. */
  lemma {:induction false} RunBounds(w: seq<Write>, start: nat, polls: seq<Poll>) returns (m: nat)
    requires WellOrdered(Fragments(w)) && IsSchedule(w, polls)
    ensures EndOf(polls) <= |w|
    ensures PollAll(w, Begin(start), polls).cur == start || m <= |Fragments(w[..EndOf(polls)])|
    ensures Accounts(Fragments(w), start, PollAll(w, Begin(start), polls), m, Loses(w, start, polls))
  {
    if polls == [] {
      m := StartCut(Fragments(w), start);
    } else {
      var init := polls[..|polls| - 1];
      assert IsSchedule(w, init);
      m := RunBounds(w, start, init);
      LosesSnoc(w, start, polls);
      m := RoundBounds(w, start, polls, m);
    }
  }

  lemma LosesSnoc(w: seq<Write>, start: nat, polls: seq<Poll>)
    requires IsSchedule(w, polls) && polls != [] && IsSchedule(w, polls[..|polls| - 1])
    ensures Loses(w, start, polls)
       <==> Loses(w, start, polls[..|polls| - 1]) || LosesAt(w, start, polls, |polls| - 1)
  {
    var n := |polls| - 1;
    assert forall k: nat :: k <= n ==> polls[..n][..k] == polls[..k];
    forall k: nat | k < n
      ensures LosesAt(w, start, polls, k) <==> LosesAt(w, start, polls[..n], k)
    {
    }
  }

  lemma RoundBounds(w: seq<Write>, start: nat, polls: seq<Poll>, m: nat) returns (m': nat)
    requires WellOrdered(Fragments(w)) && IsSchedule(w, polls) && polls != []
    requires IsSchedule(w, polls[..|polls| - 1]) && EndOf(polls[..|polls| - 1]) <= |w|
    requires var init := polls[..|polls| - 1];
      var g := PollAll(w, Begin(start), init);
      && (g.cur == start || m <= |Fragments(w[..EndOf(init)])|)
      && Accounts(Fragments(w), start, g, m, Loses(w, start, init))
    ensures EndOf(polls) <= |w|
    ensures PollAll(w, Begin(start), polls).cur == start || m' <= |Fragments(w[..EndOf(polls)])|
    ensures Accounts(Fragments(w), start, PollAll(w, Begin(start), polls), m',
      Loses(w, start, polls[..|polls| - 1]) || LosesAt(w, start, polls, |polls| - 1))
  {
    var n := |polls| - 1;
    var g, p := PollAll(w, Begin(start), polls[..n]), polls[n];
    ScheduledPoll(w, polls, n);
    EndBefore(w, polls);
    FragmentsMonotone(w, p.readAt[0], p.readAt[|PHASES| - 1]);
    m' := m;
    if g.exit == StillPolling && !p.fails {
      m' := ShowAccounts(Fragments(w), ReadsOf(w, p), start, g, m, Loses(w, start, polls[..n]));
      PollOnceShows(w, g, p);
    }
  }

  /** Rounds follow each other. */
  lemma EndBefore(w: seq<Write>, polls: seq<Poll>)
    requires IsSchedule(w, polls) && polls != []
    ensures var before, p := EndOf(polls[..|polls| - 1]), polls[|polls| - 1];
      before <= p.readAt[0] <= |w| && |Fragments(w[..before])| <= |Fragments(w[..p.readAt[0]])|
  {
    var n := |polls| - 1;
    assert n > 0 ==> polls[..n][n - 1] == polls[n - 1];
    FragmentsMonotone(w, EndOf(polls[..n]), polls[n].readAt[0]);
  }

  lemma PollOnceShows(w: seq<Write>, g: Progress, p: Poll)
    requires |p.readAt| == |PHASES| && p.stateAt <= |w| && forall i :: 0 <= i < |p.readAt| ==> p.readAt[i] <= |w|
    requires IsReads(Fragments(w), ReadsOf(w, p)) && g.exit == StillPolling && !p.fails
    ensures var h, shown := PollOnce(w, g, p), Show(Fragments(w), ReadsOf(w, p), g);
      h.printed == shown.printed && h.cur == shown.cur
  {
  }

  /** A round that reads "complete" leaves no text behind its cursor. */
  lemma CompleteShowsRest(w: seq<Write>, g: Progress, p: Poll)
    requires AgentHistory(w) && IsSchedule(w, [p])
    requires |p.readAt| == |PHASES| && p.stateAt <= |w| && forall i :: 0 <= i < |p.readAt| ==> p.readAt[i] <= |w|
    requires IsReads(Fragments(w), ReadsOf(w, p)) && StateOf(w[..p.stateAt]) == Complete
    ensures Text(From(Fragments(w), Show(Fragments(w), ReadsOf(w, p), g).cur)) == ""
  {
    var s, ends := Fragments(w), ReadsOf(w, p);
    assert [p][0] == p;
    CompleteMeansStored(w, p.stateAt);
    forall i | 0 <= i < |PHASES|
      ensures ends[i] == |s|
    {
      FragmentsMonotone(w, p.stateAt, p.readAt[i]);
    }
    LateShowsRest(s, ends, g);
  }

  lemma LateShowsRest(s: seq<Fragment>, ends: seq<nat>, g: Progress)
    requires WellOrdered(s) && IsReads(s, ends) && forall i :: 0 <= i < |PHASES| ==> ends[i] == |s|
    ensures Text(From(s, Show(s, ends, g).cur)) == ""
  {
    SeenIsSnapshot(s, ends, g.cur, |PHASES|, |s|);
    LargestIsLast(s, ends, g.cur, |PHASES|, |s|);
    assert s[..|s|] == s;
    RestShown(s, g);
  }

  lemma RestShown(s: seq<Fragment>, g: Progress)
    requires WellOrdered(s)
    ensures Text(From(s, Shown(g, LastNumber(From(s, g.cur)), Text(From(s, g.cur))).cur)) == ""
  {
    if From(s, g.cur) != [] {
      LastOfFrom(s, g.cur);
    }
  }

  lemma {:induction false} CompleteLeavesNothing(w: seq<Write>, start: nat, polls: seq<Poll>)
    requires AgentHistory(w) && IsSchedule(w, polls) && PollAll(w, Begin(start), polls).exit == SawComplete
    ensures Text(From(Fragments(w), PollAll(w, Begin(start), polls).cur)) == ""
  {
    var n := |polls| - 1;
    assert IsSchedule(w, polls[..n]);
    var g := PollAll(w, Begin(start), polls[..n]);
    ScheduledPoll(w, polls, n);
    if g.exit == SawComplete {
      CompleteLeavesNothing(w, start, polls[..n]);
    } else {
      CompleteShowsRest(w, g, polls[n]);
    }
  }

  /**
   When the loop ends on "complete", the log has been printed from `start` on, if and only if no round that showed
   something skipped a fragment with text for a later one.
   */
  lemma DeliveredIff(w: seq<Write>, start: nat, polls: seq<Poll>)
    requires AgentHistory(w) && IsSchedule(w, polls)
    requires PollAll(w, Begin(start), polls).exit == SawComplete
    ensures PollAll(w, Begin(start), polls).printed == Text(From(Fragments(w), start)) <==> !Loses(w, start, polls)
  {
    var s, g := Fragments(w), PollAll(w, Begin(start), polls);
    var m := RunBounds(w, start, polls);
    CutText(s, start, g.cur, m, |s|);
    assert s[..|s|] == s;
    CompleteLeavesNothing(w, start, polls);
  }

  lemma CursorStep(w: seq<Write>, start: nat, polls: seq<Poll>, k: nat)
    requires WellOrdered(Fragments(w)) && IsSchedule(w, polls) && k < |polls|
    ensures CursorAt(w, start, polls, k) <= CursorAt(w, start, polls, k + 1)
  {
    PollAllStep(w, Begin(start), polls, k);
    var cur := CursorAt(w, start, polls, k);
    ScheduledPoll(w, polls, k);
    var ends := ReadsOf(w, polls[k]);
    if Largest(Fragments(w), ends, cur, |PHASES|) >= 0 {
      var y := LargestIsSeen(Fragments(w), ends, cur, |PHASES|);
    }
  }

  lemma {:induction false} CursorGrows(w: seq<Write>, start: nat, polls: seq<Poll>, k: nat, l: nat)
    requires WellOrdered(Fragments(w)) && IsSchedule(w, polls) && k <= l <= |polls|
    ensures CursorAt(w, start, polls, k) <= CursorAt(w, start, polls, l)
    decreases l
  {
    if k < l {
      CursorGrows(w, start, polls, k, l - 1);
      CursorStep(w, start, polls, l - 1);
    }
  }

  /** What the l-th round returns, if it is made. */
  function SeenAt(w: seq<Write>, start: nat, polls: seq<Poll>, l: nat): seq<Fragment>
    requires IsSchedule(w, polls) && l < |polls|
  {
    ScheduledPoll(w, polls, l);
    Seen(Fragments(w), ReadsOf(w, polls[l]), CursorAt(w, start, polls, l), |PHASES|)
  }

  /** A round that shows something, or sees y with its text, leaves the cursor behind whatever is before y. */
  lemma OvertakingPasses(w: seq<Write>, start: nat, polls: seq<Poll>, k: nat, x: nat, y: nat)
    requires WellOrdered(Fragments(w)) && IsSchedule(w, polls) && k < |polls|
    requires StillRunning(w, start, polls, k) && !polls[k].fails
    requires var s, ends := Fragments(w), ReadsOf(w, polls[k]);
      x < y < |s| && y < ends[PhaseIndex(s[y].phase)] && (s[y].data != "" || Text(SeenAt(w, start, polls, k)) != "")
    ensures CursorAt(w, start, polls, k + 1) > Fragments(w)[x].number
  {
    var s := Fragments(w);
    assert Before(s[x], s[y]);
    ScheduledPoll(w, polls, k);
    PollAllStep(w, Begin(start), polls, k);
    if s[y].number >= CursorAt(w, start, polls, k) {
      SeenShows(s, ReadsOf(w, polls[k]), CursorAt(w, start, polls, k), y);
    } else {
      CursorStep(w, start, polls, k);
    }
  }

  lemma EndsGrow(w: seq<Write>, polls: seq<Poll>, l: nat, k: nat, i: nat, j: nat)
    requires IsSchedule(w, polls) && l < k < |polls| && i < |PHASES| && j < |PHASES|
    ensures ReadsOf(w, polls[l])[i] <= ReadsOf(w, polls[k])[j]
  {
    FragmentsMonotone(w, polls[l].readAt[i], polls[k].readAt[j]);
  }

  /** An overtaken fragment is lost for good: no round of the run returns it. */
  lemma OvertakenIsLost(w: seq<Write>, start: nat, polls: seq<Poll>, k: nat, x: nat, y: nat, l: nat)
    requires WellOrdered(Fragments(w)) && IsSchedule(w, polls)
    requires k < |polls| && l < |polls| && StillRunning(w, start, polls, k) && !polls[k].fails
    requires var s, ends := Fragments(w), ReadsOf(w, polls[k]);
      && x < y < |s| && y < ends[PhaseIndex(s[y].phase)] && x >= ends[PhaseIndex(s[x].phase)]
      && (s[y].data != "" || Text(SeenAt(w, start, polls, k)) != "")
    ensures Fragments(w)[x] !in SeenAt(w, start, polls, l)
  {
    var s := Fragments(w);
    var phase := PhaseIndex(s[x].phase);
    ScheduledPoll(w, polls, l);
    SeenMember(s, ReadsOf(w, polls[l]), CursorAt(w, start, polls, l), |PHASES|, x);
    if l < k {
      EndsGrow(w, polls, l, k, phase, phase);
    } else if l > k {
      OvertakingPasses(w, start, polls, k, x, y);
      CursorGrows(w, start, polls, k + 1, l);
    }
  }

  // ---------------------------------------------------------------------------------------------
  // Logs without empty fragments
  // ---------------------------------------------------------------------------------------------

  ghost predicate NonEmpty(s: seq<Fragment>) { forall i :: 0 <= i < |s| ==> s[i].data != "" }

  /** The k-th round was made, did not fail, and in it a fragment overtook an earlier one, from `start` on. */
  ghost predicate OvertakesAt(w: seq<Write>, start: nat, polls: seq<Poll>, k: nat)
    requires IsSchedule(w, polls) && k < |polls|
  {
    && StillRunning(w, start, polls, k) && !polls[k].fails
    && !NoOvertakingFrom(Fragments(w), ReadsOf(w, polls[k]), start)
  }

  ghost predicate Overtakes(w: seq<Write>, start: nat, polls: seq<Poll>)
    requires IsSchedule(w, polls)
  {
    exists k: nat :: k < |polls| && OvertakesAt(w, start, polls, k)
  }

  /** The round in which the cursor passed a number. */
  lemma {:induction false} PassedIn(w: seq<Write>, start: nat, polls: seq<Poll>, k: nat, n: nat) returns (j: nat)
    requires IsSchedule(w, polls) && k <= |polls| && start <= n < CursorAt(w, start, polls, k)
    ensures j < k && CursorAt(w, start, polls, j) <= n < CursorAt(w, start, polls, j + 1)
  {
    assert polls[..0] == [];
    if CursorAt(w, start, polls, k - 1) <= n {
      j := k - 1;
    } else {
      j := PassedIn(w, start, polls, k - 1, n);
    }
  }

  /** A round in which the cursor passes x, and that queried x's phase too early. */
  lemma PassingLoses(w: seq<Write>, start: nat, polls: seq<Poll>, j: nat, x: nat)
    requires WellOrdered(Fragments(w)) && IsSchedule(w, polls) && j < |polls|
    requires x < |Fragments(w)| && Fragments(w)[x].data != ""
    requires x >= ReadsOf(w, polls[j])[PhaseIndex(Fragments(w)[x].phase)]
    requires CursorAt(w, start, polls, j) <= Fragments(w)[x].number < CursorAt(w, start, polls, j + 1)
    ensures LosesAt(w, start, polls, j)
  {
    PollAllStep(w, Begin(start), polls, j);
    ScheduledPoll(w, polls, j);
    PassedSkips(Fragments(w), ReadsOf(w, polls[j]), CursorAt(w, start, polls, j), x);
  }

  /** A fragment that came too late, when one numbered at least as high was seen. */
  lemma PassedSkips(s: seq<Fragment>, ends: seq<nat>, cur: nat, x: nat)
    requires IsReads(s, ends) && WellOrdered(s) && x < |s| && s[x].data != ""
    requires x >= ends[PhaseIndex(s[x].phase)] && cur <= s[x].number <= Largest(s, ends, cur, |PHASES|)
    ensures Skips(s, ends, cur)
  {
    var y := LargestIsSeen(s, ends, cur, |PHASES|);
    assert !IsInTime(s, ends, x) && IsInTime(s, ends, y);
  }

  lemma OvertakingLoses(w: seq<Write>, start: nat, polls: seq<Poll>, k: nat, x: nat, y: nat) returns (j: nat)
    requires WellOrdered(Fragments(w)) && IsSchedule(w, polls) && k < |polls|
    requires StillRunning(w, start, polls, k) && !polls[k].fails
    requires var s, ends := Fragments(w), ReadsOf(w, polls[k]);
      && x < y < |s| && y < ends[PhaseIndex(s[y].phase)] && x >= ends[PhaseIndex(s[x].phase)]
      && s[x].number >= start && s[x].data != "" && s[y].data != ""
    ensures j <= k && LosesAt(w, start, polls, j)
  {
    var s, phase := Fragments(w), PhaseIndex(Fragments(w)[x].phase);
    j := k;
    OvertakingPasses(w, start, polls, k, x, y);
    if CursorAt(w, start, polls, k) > s[x].number {
      j := PassedIn(w, start, polls, k, s[x].number);
      EndsGrow(w, polls, j, k, phase, phase);
    }
    PassingLoses(w, start, polls, j, x);
  }

  /** Without empty fragments, text is lost if and only if in some round that was made a fragment overtook another. */
  lemma LosesIff(w: seq<Write>, start: nat, polls: seq<Poll>)
    requires WellOrdered(Fragments(w)) && NonEmpty(Fragments(w)) && IsSchedule(w, polls)
    ensures Loses(w, start, polls) <==> Overtakes(w, start, polls)
  {
    if Loses(w, start, polls) {
      LosingOvertakes(w, start, polls);
    }
    if Overtakes(w, start, polls) {
      var k: nat :| k < |polls| && OvertakesAt(w, start, polls, k);
      var j := OvertakesLoses(w, start, polls, k);
    }
  }

  lemma OvertakesLoses(w: seq<Write>, start: nat, polls: seq<Poll>, k: nat) returns (j: nat)
    requires WellOrdered(Fragments(w)) && NonEmpty(Fragments(w)) && IsSchedule(w, polls)
    requires k < |polls| && OvertakesAt(w, start, polls, k)
    ensures j < |polls| && LosesAt(w, start, polls, j)
  {
    ScheduledPoll(w, polls, k);
    var x, y := Overtaken(Fragments(w), ReadsOf(w, polls[k]), start);
    j := OvertakingLoses(w, start, polls, k, x, y);
  }

  lemma LosingOvertakes(w: seq<Write>, start: nat, polls: seq<Poll>)
    requires WellOrdered(Fragments(w)) && IsSchedule(w, polls) && Loses(w, start, polls)
    ensures Overtakes(w, start, polls)
  {
    var k: nat :| k < |polls| && LosesAt(w, start, polls, k);
    LosingOvertakesAt(w, start, polls, k);
  }

  lemma LosingOvertakesAt(w: seq<Write>, start: nat, polls: seq<Poll>, k: nat)
    requires WellOrdered(Fragments(w)) && IsSchedule(w, polls) && k < |polls| && LosesAt(w, start, polls, k)
    ensures OvertakesAt(w, start, polls, k)
  {
    ScheduledPoll(w, polls, k);
    CursorGrows(w, start, polls, 0, k);
    assert polls[..0] == [] && CursorAt(w, start, polls, 0) == start;
    SkippingOvertakes(Fragments(w), ReadsOf(w, polls[k]), CursorAt(w, start, polls, k), start);
  }

  lemma SkippingOvertakes(s: seq<Fragment>, ends: seq<nat>, cur: nat, start: nat)
    requires IsReads(s, ends) && WellOrdered(s) && Skips(s, ends, cur) && start <= cur
    ensures !NoOvertakingFrom(s, ends, start)
  {
    var x, y := Skipped(s, ends, cur);
  }

  lemma Overtaken(s: seq<Fragment>, ends: seq<nat>, start: nat) returns (x: nat, y: nat)
    requires IsReads(s, ends) && !NoOvertakingFrom(s, ends, start)
    ensures x < y < |s| && y < ends[PhaseIndex(s[y].phase)] && x >= ends[PhaseIndex(s[x].phase)]
    ensures s[x].number >= start
  {
    x, y :| 0 <= x < y < |s| && s[x].number >= start && y < ends[PhaseIndex(s[y].phase)]
      && x >= ends[PhaseIndex(s[x].phase)];
  }

  // ---------------------------------------------------------------------------------------------
  // A run that loses a fragment
  // ---------------------------------------------------------------------------------------------

  const FIRST := Fragment(Setup, 0, "a")
  const SECOND := Fragment(Provision, 1, "b")

  /** Two phases write, then the job is over. */
  const HISTORY: seq<Write> := [StoreFragment(FIRST), StoreFragment(SECOND), SetState(Complete)]

  /** The first round queries the first phase before, and the others after, both fragments are stored. */
  const ROUNDS: seq<Poll> := [Poll(0, [0, 2, 2, 2, 2, 2, 2], false), Poll(3, [3, 3, 3, 3, 3, 3, 3], false)]

  lemma HistoryFragments()
    ensures Fragments(HISTORY) == [FIRST, SECOND] && Fragments(HISTORY[..0]) == []
    ensures Fragments(HISTORY[..2]) == [FIRST, SECOND] && StateOf(HISTORY[..3]) == Complete
    ensures AgentHistory(HISTORY) && NonEmpty(Fragments(HISTORY)) && IsSchedule(HISTORY, ROUNDS)
  {
    var one, two := [StoreFragment(FIRST)], [StoreFragment(FIRST), StoreFragment(SECOND)];
    assert one[..0] == [] && two[..1] == one;
    assert Fragments(one) == [FIRST];
    assert Fragments(two) == [FIRST] + [SECOND];
    assert HISTORY[..2] == two && HISTORY[..3] == HISTORY;
    assert Fragments(HISTORY) == Fragments(two) + [];
  }

  /** Snapshots matter: this run ends on "complete" and has not printed the whole log. */
  lemma LogIsLost()
    ensures AgentHistory(HISTORY) && NonEmpty(Fragments(HISTORY)) && IsSchedule(HISTORY, ROUNDS)
    ensures PollAll(HISTORY, Begin(0), ROUNDS).exit == SawComplete
    ensures PollAll(HISTORY, Begin(0), ROUNDS).printed != Text(Fragments(HISTORY))
  {
    HistoryFragments();
    ScheduledPoll(HISTORY, ROUNDS, 0);
    var ends := ReadsOf(HISTORY, ROUNDS[0]);
    assert ends[0] == 0 && ends[1] == 2;
    assert PhaseIndex(FIRST.phase) == 0 && PhaseIndex(SECOND.phase) == 1;
    assert !NoOvertaking(Fragments(HISTORY), ends) by {
      var s := Fragments(HISTORY);
      assert s[0] == FIRST && s[1] == SECOND;
    }
    assert ROUNDS[..0] == [] && ROUNDS[..1][..0] == [] && ROUNDS[..2] == ROUNDS;
    PollAllStep(HISTORY, Begin(0), ROUNDS, 0);
    PollAllStep(HISTORY, Begin(0), ROUNDS, 1);
    assert HISTORY[..0] == [];
    assert OvertakesAt(HISTORY, 0, ROUNDS, 0);
    LosesIff(HISTORY, 0, ROUNDS);
    DeliveredIff(HISTORY, 0, ROUNDS);
    PickEverything(Fragments(HISTORY));
  }
}
