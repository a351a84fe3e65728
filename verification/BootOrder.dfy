/**
 Network entries first: how the boot order of a machine is rearranged before it is provisioned.

 The firmware's data is a list of lines, each a name and a text; names are distinct.

 The new order starts with the entry that the machine was booted from, if that was over IPv4, and
 goes on with the other entries for IPv4, in the order of the lines.  The rest of the old order
 follows.
 */
module BootOrder {
  import opened Basics

  type Line = (string, string)

  function Contains(s: string, part: string): bool {
    part <= s || (s != [] && Contains(s[1..], part))
  }

  predicate IsHex(c: char) { '0' <= c <= '9' || 'A' <= c <= 'F' || 'a' <= c <= 'f' }

  predicate AllHex(s: string) { forall i :: 0 <= i < |s| ==> IsHex(s[i]) }

  /** The four hexadecimal digits after the first "Boot" that has them. */
  function BootNumber(name: string): (n: Option<string>)
    ensures n.Some? ==> |n.value| == 4 && AllHex(n.value)
  {
    if name == [] then None
    else if "Boot" <= name && |name| >= 8 && AllHex(name[4..8]) then Some(name[4..8])
    else BootNumber(name[1..])
  }

  function Lookup(efi: seq<Line>, name: string): Option<string> {
    if efi == [] then None else if efi[0].0 == name then Some(efi[0].1) else Lookup(efi[1..], name)
  }

  /** The text of the first line whose name contains `part`. */
  function TextOf(efi: seq<Line>, part: string): Option<string> {
    if efi == [] then None else if Contains(efi[0].0, part) then Some(efi[0].1) else TextOf(efi[1..], part)
  }

  function Split(s: string): (parts: seq<string>)
    ensures parts != []
  {
    if s == [] then [""]
    else
      var rest := Split(s[1..]);
      if s[0] == ',' then [""] + rest else [[s[0]] + rest[0]] + rest[1..]
  }

  function Join(parts: seq<string>): string {
    if parts == [] then [] else if |parts| == 1 then parts[0] else parts[0] + "," + Join(parts[1..])
  }

  predicate IsIPv4(l: Line) { Contains(l.1, "IPv4") && Contains(l.0, "Boot") }

  /** The number of an IPv4 line. */
  function Number(l: Line): seq<string> {
    if IsIPv4(l) && BootNumber(l.0).Some? then [BootNumber(l.0).value] else []
  }

  function IPv4Numbers(efi: seq<Line>): seq<string> {
    if efi == [] then [] else IPv4Numbers(efi[..|efi| - 1]) + Number(efi[|efi| - 1])
  }

  /** The current entry, if it boots over IPv4. */
  function Current(efi: seq<Line>): seq<string> {
    var current := Lookup(efi, "BootCurrent:");
    if current.Some? && current.value != [] then
      var text := TextOf(efi, "Boot" + current.value);
      if text.Some? && text.value != [] && Contains(text.value, "IPv4") then [current.value] else []
    else []
  }

  /** Each of `xs` that is not there yet, in order. */
  function AppendNew(acc: seq<string>, xs: seq<string>): seq<string> {
    if xs == [] then acc
    else
      var a := AppendNew(acc, xs[..|xs| - 1]);
      if xs[|xs| - 1] in a then a else a + [xs[|xs| - 1]]
  }

  function NetworkFirst(efi: seq<Line>): seq<string> { AppendNew(Current(efi), IPv4Numbers(efi)) }

  datatype Outcome = Nothing | NoBootOrder | SetOrder(order: string)

  function Reset(efi: seq<Line>): Outcome {
    if efi == [] then Nothing
    else
      var order := Lookup(efi, "BootOrder:");
      if order.None? then NoBootOrder else SetOrder(Join(AppendNew(NetworkFirst(efi), Split(order.value))))
  }

  method ResetEfi(efi: seq<Line>) returns (r: Outcome)
    ensures r == Reset(efi)
  {
    if efi == [] {
      return Nothing;
    }
    var order := Lookup(efi, "BootOrder:");
    if order.None? {
      return NoBootOrder;
    }
    var bootlist := Split(order.value);
    var newBootOrder := AddCurrent(efi);
    newBootOrder := AddIPv4(newBootOrder, efi);
    newBootOrder := AddRemaining(newBootOrder, bootlist);
    return SetOrder(Join(newBootOrder));
  }

  method AddCurrent(efi: seq<Line>) returns (order: seq<string>)
    ensures order == Current(efi)
  {
    order := [];
    var current := Lookup(efi, "BootCurrent:");
    if current.Some? && current.value != [] {
      var deviceDescr := TextOf(efi, "Boot" + current.value);
      if deviceDescr.Some? && deviceDescr.value != [] && Contains(deviceDescr.value, "IPv4") {
        order := order + [current.value];
      }
    }
  }

  method AddIPv4(start: seq<string>, efi: seq<Line>) returns (order: seq<string>)
    ensures order == AppendNew(start, IPv4Numbers(efi))
  {
    order := start;
    for i := 0 to |efi|
      invariant order == AppendNew(start, IPv4Numbers(efi[..i]))
    {
      IPv4Next(efi, i);
      if IsIPv4(efi[i]) {
        var bootNum := BootNumber(efi[i].0);
        if bootNum.Some? {
          AppendNewSnoc(start, IPv4Numbers(efi[..i]), bootNum.value);
          if bootNum.value !in order {
            order := order + [bootNum.value];
          }
        }
      }
    }
    assert efi[..|efi|] == efi;
  }

  method AddRemaining(start: seq<string>, bootlist: seq<string>) returns (order: seq<string>)
    ensures order == AppendNew(start, bootlist)
  {
    order := start;
    for i := 0 to |bootlist|
      invariant order == AppendNew(start, bootlist[..i])
    {
      assert bootlist[..i + 1] == bootlist[..i] + [bootlist[i]];
      AppendNewSnoc(start, bootlist[..i], bootlist[i]);
      if bootlist[i] !in order {
        order := order + [bootlist[i]];
      }
    }
    assert bootlist[..|bootlist|] == bootlist;
  }

  lemma IPv4Next(efi: seq<Line>, i: nat)
    requires i < |efi|
    ensures IPv4Numbers(efi[..i + 1])
         == if Number(efi[i]) == [] then IPv4Numbers(efi[..i]) else IPv4Numbers(efi[..i]) + [Number(efi[i])[0]]
  {
    assert efi[..i + 1][..i] == efi[..i];
    assert IPv4Numbers(efi[..i]) + [] == IPv4Numbers(efi[..i]);
  }

  lemma AppendNewSnoc(acc: seq<string>, xs: seq<string>, x: string)
    ensures AppendNew(acc, xs + [x])
         == if x in AppendNew(acc, xs) then AppendNew(acc, xs) else AppendNew(acc, xs) + [x]
  {
    assert (xs + [x])[..|xs|] == xs;
  }

  // ---------------------------------------------------------------------------------------------
  // What is read from the lines
  // ---------------------------------------------------------------------------------------------

  lemma {:induction false} ContainsMeans(s: string, part: string)
    ensures Contains(s, part) <==> exists i :: 0 <= i <= |s| && part <= s[i..]
  {
    assert s[0..] == s;
    if s != [] {
      ContainsMeans(s[1..], part);
      assert forall i :: 0 <= i < |s| ==> s[1..][i..] == s[i + 1..];
      if exists i :: 0 <= i <= |s| && part <= s[i..] {
        var i :| 0 <= i <= |s| && part <= s[i..];
        assert i > 0 ==> s[1..][i - 1..] == s[i..];
      }
    }
  }

  const HEX_DIGITS := "0123456789ABCDEFabcdef"

  lemma HexMeans(c: char)
    ensures IsHex(c) <==> c in HEX_DIGITS
  {
    if '0' <= c <= '9' {
      assert HEX_DIGITS[(c - '0') as int] == c;
    } else if 'A' <= c <= 'F' {
      assert HEX_DIGITS[10 + (c - 'A') as int] == c;
    } else if 'a' <= c <= 'f' {
      assert HEX_DIGITS[16 + (c - 'a') as int] == c;
    }
  }

  /** "Boot" and four hexadecimal digits stand at place `i`. */
  predicate NumberAt(name: string, i: nat) {
    i + 8 <= |name| && name[i..i + 4] == "Boot" && AllHex(name[i + 4..i + 8])
  }

  /** The number is the one at the first place where there is one. */
  lemma {:induction false} BootNumberMeans(name: string)
    ensures BootNumber(name).None? ==> forall i: nat :: !NumberAt(name, i)
    ensures BootNumber(name).Some? ==> exists i: nat ::
      NumberAt(name, i) && BootNumber(name) == Some(name[i + 4..i + 8]) && forall j: nat :: j < i ==> !NumberAt(name, j)
  {
    if name != [] {
      BootNumberMeans(name[1..]);
      assert "Boot" <= name && |name| >= 8 && AllHex(name[4..8]) <==> NumberAt(name, 0);
      forall i: nat
        ensures NumberAt(name[1..], i) <==> NumberAt(name, i + 1)
      {
        NumberShifts(name, i);
      }
      assert forall i: nat :: i > 0 && NumberAt(name, i) ==> NumberAt(name[1..], i - 1);
      if !NumberAt(name, 0) && BootNumber(name).Some? {
        var i: nat :| NumberAt(name[1..], i) && BootNumber(name[1..]) == Some(name[1..][i + 4..i + 8])
          && forall j: nat :: j < i ==> !NumberAt(name[1..], j);
        assert name[1..][i + 4..i + 8] == name[i + 5..i + 9];
        assert NumberAt(name, i + 1);
      }
    }
  }

  lemma NumberShifts(name: string, i: nat)
    requires name != []
    ensures NumberAt(name[1..], i) <==> NumberAt(name, i + 1)
  {
    if i + 9 <= |name| {
      assert name[1..][i..i + 4] == name[i + 1..i + 5] && name[1..][i + 4..i + 8] == name[i + 5..i + 9];
    }
  }

  /** Line `k` is the first with this name... */
  predicate IsNamed(efi: seq<Line>, name: string, k: nat) {
    k < |efi| && efi[k].0 == name && forall j :: 0 <= j < k ==> efi[j].0 != name
  }

  /** ... or the first whose name contains `part`. */
  predicate IsFirstWith(efi: seq<Line>, part: string, k: nat) {
    k < |efi| && Contains(efi[k].0, part) && forall j :: 0 <= j < k ==> !Contains(efi[j].0, part)
  }

  lemma {:induction false} LookupMeans(efi: seq<Line>, name: string)
    ensures Lookup(efi, name).None? <==> forall k :: 0 <= k < |efi| ==> efi[k].0 != name
    ensures forall k: nat :: IsNamed(efi, name, k) ==> Lookup(efi, name) == Some(efi[k].1)
    ensures Lookup(efi, name).Some? ==> exists k: nat :: IsNamed(efi, name, k)
  {
    if efi != [] && efi[0].0 != name {
      LookupMeans(efi[1..], name);
      forall k: nat | IsNamed(efi, name, k)
        ensures Lookup(efi, name) == Some(efi[k].1)
      {
        assert IsNamed(efi[1..], name, k - 1);
      }
      if k: nat :| IsNamed(efi[1..], name, k) {
        assert IsNamed(efi, name, k + 1);
      }
    } else if efi != [] {
      assert IsNamed(efi, name, 0);
    }
  }

  lemma {:induction false} TextMeans(efi: seq<Line>, part: string)
    ensures forall k: nat :: IsFirstWith(efi, part, k) ==> TextOf(efi, part) == Some(efi[k].1)
    ensures TextOf(efi, part).Some? ==> exists k: nat :: IsFirstWith(efi, part, k)
  {
    if efi != [] && !Contains(efi[0].0, part) {
      TextMeans(efi[1..], part);
      forall k: nat | IsFirstWith(efi, part, k)
        ensures TextOf(efi, part) == Some(efi[k].1)
      {
        assert IsFirstWith(efi[1..], part, k - 1);
      }
      if k: nat :| IsFirstWith(efi[1..], part, k) {
        assert IsFirstWith(efi, part, k + 1);
      }
    } else if efi != [] {
      assert IsFirstWith(efi, part, 0);
    }
  }

  /** The entry that was booted counts exactly if the first line that names it says IPv4. */
  ghost predicate BootedOver(efi: seq<Line>, entry: string) {
    && entry != []
    && (exists i: nat :: IsNamed(efi, "BootCurrent:", i) && efi[i].1 == entry)
    && exists k: nat :: IsFirstWith(efi, "Boot" + entry, k) && Contains(efi[k].1, "IPv4")
  }

  lemma CurrentMeans(efi: seq<Line>)
    ensures |Current(efi)| <= 1
    ensures forall entry :: Current(efi) == [entry] <==> BootedOver(efi, entry)
  {
    LookupMeans(efi, "BootCurrent:");
    var current := Lookup(efi, "BootCurrent:");
    if current.Some? {
      TextMeans(efi, "Boot" + current.value);
    }
    assert !Contains("", "IPv4");
  }

  /** The IPv4 entries are the numbers of the lines that say IPv4, one after the other. */
  lemma {:induction false} NumbersMean(efi: seq<Line>)
    ensures forall x :: x in IPv4Numbers(efi) <==> exists k :: 0 <= k < |efi| && SaysIPv4(efi[k], x)
    ensures forall n :: 0 <= n <= |efi| ==> IPv4Numbers(efi[..n]) <= IPv4Numbers(efi)
  {
    if efi != [] {
      var n := |efi| - 1;
      NumbersMean(efi[..n]);
      forall x
        ensures x in IPv4Numbers(efi) <==> exists k :: 0 <= k < |efi| && SaysIPv4(efi[k], x)
      {
        assert forall k :: 0 <= k < n ==> efi[..n][k] == efi[k];
        assert x in Number(efi[n]) <==> SaysIPv4(efi[n], x);
      }
      forall m | 0 <= m <= |efi|
        ensures IPv4Numbers(efi[..m]) <= IPv4Numbers(efi)
      {
        assert if m <= n then efi[..m] == efi[..n][..m] else efi[..m] == efi;
      }
    }
  }

  predicate SaysIPv4(l: Line, number: string) {
    Contains(l.1, "IPv4") && Contains(l.0, "Boot") && BootNumber(l.0) == Some(number)
  }

  lemma {:induction false} JoinSplit(s: string)
    ensures Join(Split(s)) == s
  {
    if s != [] {
      JoinSplit(s[1..]);
      var rest := Split(s[1..]);
      if s[0] == ',' {
        assert ([""] + rest)[1..] == rest;
      } else {
        var parts := [[s[0]] + rest[0]] + rest[1..];
        assert parts[1..] == rest[1..];
        assert [s[0]] + s[1..] == s;
      }
    }
  }

  // ---------------------------------------------------------------------------------------------
  // The order that is set
  // ---------------------------------------------------------------------------------------------

  predicate NoDuplicates(s: seq<string>) { forall i, j :: 0 <= i < j < |s| ==> s[i] != s[j] }

  lemma {:induction false} AppendNewKeeps(acc: seq<string>, xs: seq<string>)
    ensures acc <= AppendNew(acc, xs)
    ensures forall x :: x in AppendNew(acc, xs) <==> x in acc || x in xs
    ensures NoDuplicates(acc) ==> NoDuplicates(AppendNew(acc, xs))
  {
    if xs != [] {
      var n := |xs| - 1;
      AppendNewKeeps(acc, xs[..n]);
      assert xs == xs[..n] + [xs[n]];
    }
  }

  /** The place of a new entry is decided by where it first stands in the list. */
  function FirstIndex(s: seq<string>, x: string): (k: nat)
    requires x in s
    ensures k < |s| && s[k] == x && x !in s[..k]
  {
    if s[0] == x then 0 else 1 + FirstIndex(s[1..], x)
  }

  lemma {:induction false} AppendNewOrder(acc: seq<string>, xs: seq<string>, x: string, y: string)
    requires NoDuplicates(acc) && x in xs && y in xs && x !in acc && y !in acc
    requires FirstIndex(xs, x) < FirstIndex(xs, y)
    ensures x in AppendNew(acc, xs) && y in AppendNew(acc, xs)
    ensures FirstIndex(AppendNew(acc, xs), x) < FirstIndex(AppendNew(acc, xs), y)
  {
    var n := |xs| - 1;
    var init := xs[..n];
    AppendNewKeeps(acc, init);
    AppendNewKeeps(acc, xs);
    assert xs == init + [xs[n]];
    FirstIndexIn(init, [xs[n]], x);
    var a := AppendNew(acc, init);
    FirstIndexIn(a, [xs[n]], x);
    if y in init {
      FirstIndexIn(init, [xs[n]], y);
      AppendNewOrder(acc, init, x, y);
      FirstIndexIn(a, [xs[n]], y);
    }
  }

  lemma {:induction false} FirstIndexIn(s: seq<string>, t: seq<string>, x: string)
    requires x in s
    ensures x in s + t && FirstIndex(s + t, x) == FirstIndex(s, x)
  {
    assert (s + t)[0] == s[0];
    if s[0] != x {
      assert (s + t)[1..] == s[1..] + t;
      FirstIndexIn(s[1..], t, x);
    }
  }

  lemma {:induction false} AppendNewNothing(acc: seq<string>, xs: seq<string>)
    requires forall x <- xs :: x in acc
    ensures AppendNew(acc, xs) == acc
  {
    if xs != [] {
      AppendNewNothing(acc, xs[..|xs| - 1]);
    }
  }

  lemma {:induction false} AppendNewFresh(acc: seq<string>, xs: seq<string>)
    requires NoDuplicates(acc + xs)
    ensures AppendNew(acc, xs) == acc + xs
  {
    if xs == [] {
      assert acc + xs == acc;
    } else {
      var n := |xs| - 1;
      var init := acc + xs[..n];
      assert acc + xs == init + [xs[n]];
      assert NoDuplicates(init) by {
        assert forall i :: 0 <= i < |init| ==> init[i] == (acc + xs)[i];
      }
      assert forall i :: 0 <= i < |init| ==> init[i] == (acc + xs)[i] && (acc + xs)[|init|] == xs[n];
      AppendNewFresh(acc, xs[..n]);
      assert acc + xs[..n] + [xs[n]] == acc + xs;
    }
  }

  lemma {:induction false} AppendNewConcat(acc: seq<string>, xs: seq<string>, ys: seq<string>)
    ensures AppendNew(acc, xs + ys) == AppendNew(AppendNew(acc, xs), ys)
  {
    if ys == [] {
      assert xs + ys == xs;
    } else {
      assert (xs + ys)[..|xs + ys| - 1] == xs + ys[..|ys| - 1];
      AppendNewConcat(acc, xs, ys[..|ys| - 1]);
    }
  }

  /** Appending its own result again changes nothing. */
  lemma AppendNewTwice(acc: seq<string>, xs: seq<string>)
    requires NoDuplicates(acc)
    ensures AppendNew(acc, AppendNew(acc, xs)) == AppendNew(acc, xs)
  {
    var r := AppendNew(acc, xs);
    AppendNewKeeps(acc, xs);
    var rest := r[|acc|..];
    assert r == acc + rest;
    AppendNewConcat(acc, acc, rest);
    AppendNewNothing(acc, acc);
    AppendNewFresh(acc, rest);
  }

  lemma NetworkFirstDistinct(efi: seq<Line>)
    ensures NoDuplicates(NetworkFirst(efi))
  {
    AppendNewKeeps(Current(efi), IPv4Numbers(efi));
  }

  /**
   No entry twice, all old ones kept; the network entries lead, the current one first among them; the others
   follow in their old order.
   */
  ghost predicate IsOrder(order: seq<string>, efi: seq<Line>, bootlist: seq<string>) {
    && NoDuplicates(order)
    && Current(efi) <= NetworkFirst(efi) <= order
    && (forall x :: x in order <==> x in Current(efi) || x in IPv4Numbers(efi) || x in bootlist)
    && (forall i :: 0 <= i < |NetworkFirst(efi)| ==> order[i] in Current(efi) || order[i] in IPv4Numbers(efi))
    && (forall i :: |NetworkFirst(efi)| <= i < |order| ==>
          order[i] !in Current(efi) && order[i] !in IPv4Numbers(efi))
  }

  lemma OrderMeans(efi: seq<Line>, bootlist: seq<string>)
    ensures IsOrder(AppendNew(NetworkFirst(efi), bootlist), efi, bootlist)
  {
    var net := NetworkFirst(efi);
    var order := AppendNew(net, bootlist);
    NetworkFirstDistinct(efi);
    AppendNewKeeps(Current(efi), IPv4Numbers(efi));
    AppendNewKeeps(net, bootlist);
    forall i | 0 <= i < |net|
      ensures order[i] in Current(efi) || order[i] in IPv4Numbers(efi)
    {
      assert order[i] == net[i];
    }
    forall i | |net| <= i < |order|
      ensures order[i] !in net
    {
      NotInPrefix(net, order, i);
    }
  }

  lemma NotInPrefix(a: seq<string>, b: seq<string>, i: nat)
    requires NoDuplicates(b) && a <= b && |a| <= i < |b|
    ensures b[i] !in a
  {
    assert forall k :: 0 <= k < |a| ==> a[k] == b[k];
  }

  lemma OthersKeepOrder(efi: seq<Line>, bootlist: seq<string>, x: string, y: string)
    requires x in bootlist && y in bootlist && x !in NetworkFirst(efi) && y !in NetworkFirst(efi)
    requires FirstIndex(bootlist, x) < FirstIndex(bootlist, y)
    ensures var order := AppendNew(NetworkFirst(efi), bootlist);
      x in order && y in order && FirstIndex(order, x) < FirstIndex(order, y)
  {
    NetworkFirstDistinct(efi);
    AppendNewOrder(NetworkFirst(efi), bootlist, x, y);
  }

  // ---------------------------------------------------------------------------------------------
  // Doing it again
  // ---------------------------------------------------------------------------------------------

  predicate NoComma(s: string) { forall i :: 0 <= i < |s| ==> s[i] != ',' }

  lemma {:induction false} SplitPart(s: string, rest: string)
    requires NoComma(s)
    ensures Split(s) == [s] && Split(s + "," + rest) == [s] + Split(rest)
  {
    if s == [] {
      assert s + "," + rest == [','] + rest;
      assert ([','] + rest)[1..] == rest;
    } else {
      SplitPart(s[1..], rest);
      assert s == [s[0]] + s[1..] && [s[1..]][1..] == [];
      assert (s + "," + rest)[1..] == s[1..] + "," + rest;
      assert ([s[1..]] + Split(rest))[1..] == Split(rest);
    }
  }

  lemma {:induction false} SplitJoin(parts: seq<string>)
    requires parts != [] && forall p <- parts :: NoComma(p)
    ensures Split(Join(parts)) == parts
  {
    if |parts| == 1 {
      SplitPart(parts[0], "");
    } else {
      SplitJoin(parts[1..]);
      SplitPart(parts[0], Join(parts[1..]));
    }
  }

  lemma {:induction false} SplitNoComma(s: string)
    ensures forall p <- Split(s) :: NoComma(p)
  {
    if s != [] {
      SplitNoComma(s[1..]);
      var rest := Split(s[1..]);
      assert rest[0] in rest;
    }
  }

  lemma {:induction false} NumbersNoComma(efi: seq<Line>)
    ensures forall p <- IPv4Numbers(efi) :: NoComma(p)
  {
    if efi != [] {
      NumbersNoComma(efi[..|efi| - 1]);
    }
  }

  /** The firmware's data with another boot order. */
  function WithOrder(efi: seq<Line>, order: string): seq<Line> {
    if efi == [] then []
    else [if efi[0].0 == "BootOrder:" then (efi[0].0, order) else efi[0]] + WithOrder(efi[1..], order)
  }

  lemma {:induction false} NoBootIn(name: string)
    requires forall i :: 0 <= i < |name| ==> name[i] != 'B'
    ensures BootNumber(name) == None
  {
    if name != [] {
      assert "Boot"[0] == 'B';
      NoBootIn(name[1..]);
    }
  }

  lemma OrderHasNoNumber()
    ensures BootNumber("BootOrder:") == None
  {
    NoBootIn("BootOrder:"[1..]);
    assert "BootOrder:"[4..8][0] == 'O';
  }

  lemma {:induction false} IPv4Cons(l: Line, efi: seq<Line>)
    ensures IPv4Numbers([l] + efi) == Number(l) + IPv4Numbers(efi)
  {
    var all := [l] + efi;
    if efi == [] {
      assert all[..0] == [];
    } else {
      assert all[..|all| - 1] == [l] + efi[..|efi| - 1];
      IPv4Cons(l, efi[..|efi| - 1]);
    }
  }

  lemma {:induction false} WithOrderNumbers(efi: seq<Line>, order: string)
    ensures IPv4Numbers(WithOrder(efi, order)) == IPv4Numbers(efi)
  {
    if efi != [] {
      var w := WithOrder(efi, order);
      WithOrderNumbers(efi[1..], order);
      assert w[1..] == WithOrder(efi[1..], order);
      OrderHasNoNumber();
      IPv4Cons(efi[0], efi[1..]);
      IPv4Cons(w[0], w[1..]);
      assert efi == [efi[0]] + efi[1..] && w == [w[0]] + w[1..];
    }
  }

  lemma {:induction false} WithOrderLookup(efi: seq<Line>, order: string, name: string)
    ensures Lookup(WithOrder(efi, order), name)
         == if name == "BootOrder:" && Lookup(efi, name).Some? then Some(order) else Lookup(efi, name)
  {
    if efi != [] {
      WithOrderLookup(efi[1..], order, name);
      assert WithOrder(efi, order)[1..] == WithOrder(efi[1..], order);
    }
  }

  lemma {:induction false} WithOrderText(efi: seq<Line>, order: string, part: string)
    requires !Contains("BootOrder:", part)
    ensures TextOf(WithOrder(efi, order), part) == TextOf(efi, part)
  {
    if efi != [] {
      WithOrderText(efi[1..], order, part);
      assert WithOrder(efi, order)[1..] == WithOrder(efi[1..], order);
    }
  }

  /** The current entry, if set, is not part of the name "BootOrder:"; if it goes first, it is not a list. */
  predicate PlainCurrent(efi: seq<Line>) {
    var current := Lookup(efi, "BootCurrent:");
    && (current.Some? && current.value != [] ==> !Contains("BootOrder:", "Boot" + current.value))
    && forall i :: 0 <= i < |Current(efi)| ==> NoComma(Current(efi)[i])
  }

  lemma {:induction false} NoneStarts(s: string, part: string)
    requires part != [] && part[0] == 'B' && forall i :: 0 <= i < |s| ==> s[i] != 'B'
    ensures !Contains(s, part)
  {
    if s != [] {
      NoneStarts(s[1..], part);
    }
  }

  /** A number as firmware prints it is plain. */
  lemma FirmwareNumberIsPlain(efi: seq<Line>)
    requires var current := Lookup(efi, "BootCurrent:");
      current.Some? ==> |current.value| == 4 && AllHex(current.value)
    ensures PlainCurrent(efi)
  {
    var current := Lookup(efi, "BootCurrent:");
    if current.Some? {
      var part := "Boot" + current.value;
      NoneStarts("BootOrder:"[1..], part);
      assert "BootOrder:"[4] == 'O' && part[4] == current.value[0] && IsHex(current.value[0]);
      assert !(part <= "BootOrder:");
    }
  }

  lemma OrderReadsBack(efi: seq<Line>, bootlist: string)
    requires PlainCurrent(efi)
    ensures var order := AppendNew(NetworkFirst(efi), Split(bootlist));
      Split(Join(order)) == order
  {
    var order := AppendNew(NetworkFirst(efi), Split(bootlist));
    AppendNewKeeps(Current(efi), IPv4Numbers(efi));
    AppendNewKeeps(NetworkFirst(efi), Split(bootlist));
    NumbersNoComma(efi);
    SplitNoComma(bootlist);
    assert Split(bootlist)[0] in order;
    SplitJoin(order);
  }

  /** What is set, read back: there is an error exactly without a boot order, and nothing to do exactly without data. */
  lemma ResetMeans(efi: seq<Line>)
    requires PlainCurrent(efi)
    ensures Reset(efi) == Nothing <==> efi == []
    ensures Reset(efi) == NoBootOrder <==> efi != [] && forall k :: 0 <= k < |efi| ==> efi[k].0 != "BootOrder:"
    ensures forall k: nat :: IsNamed(efi, "BootOrder:", k) ==>
      Reset(efi).SetOrder? && IsOrder(Split(Reset(efi).order), efi, Split(efi[k].1))
  {
    LookupMeans(efi, "BootOrder:");
    forall k: nat | IsNamed(efi, "BootOrder:", k)
      ensures Reset(efi).SetOrder? && IsOrder(Split(Reset(efi).order), efi, Split(efi[k].1))
    {
      OrderReadsBack(efi, efi[k].1);
      OrderMeans(efi, Split(efi[k].1));
    }
  }

  lemma SameCurrent(efi: seq<Line>, order: string)
    requires PlainCurrent(efi)
    ensures Current(WithOrder(efi, order)) == Current(efi)
  {
    assert "BootCurrent:"[4] != "BootOrder:"[4];
    WithOrderLookup(efi, order, "BootCurrent:");
    var current := Lookup(efi, "BootCurrent:");
    if current.Some? && current.value != [] {
      WithOrderText(efi, order, "Boot" + current.value);
    }
  }

  /** With the new order in place, nothing is left to do. */
  lemma ResetTwice(efi: seq<Line>)
    requires Reset(efi).SetOrder? && PlainCurrent(efi)
    ensures Reset(WithOrder(efi, Reset(efi).order)) == Reset(efi)
  {
    var bootlist := Lookup(efi, "BootOrder:").value;
    var order := Reset(efi).order;
    NetworkFirstDistinct(efi);
    OrderReadsBack(efi, bootlist);
    WithOrderLookup(efi, order, "BootOrder:");
    WithOrderNumbers(efi, order);
    SameCurrent(efi, order);
    assert NetworkFirst(WithOrder(efi, order)) == NetworkFirst(efi);
    AppendNewTwice(NetworkFirst(efi), Split(bootlist));
  }
}
