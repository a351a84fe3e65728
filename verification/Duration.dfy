/**
 Durations: what strings they are spelled by, how they are parsed, and how they are printed.

 A duration is a list of numbers with units, in any case, with white space anywhere around them, or
 a plain integer; it is printed with the largest units first.  What a string spells is said without
 the parser, by writing out the items that it consists of.

 Characters outside ASCII count as neither digits nor white space.
 */
module Duration {
  import opened Basics

  // ---------------------------------------------------------------------------------------------
  // Characters and numbers
  // ---------------------------------------------------------------------------------------------

  predicate IsDigit(c: char) { '0' <= c <= '9' }

  predicate IsSpace(c: char) { c == ' ' || '\t' <= c <= '\r' || '\U{1c}' <= c <= '\U{1f}' }

  predicate AllDigits(s: string) { forall i :: 0 <= i < |s| ==> IsDigit(s[i]) }

  predicate AllSpace(s: string) { forall i :: 0 <= i < |s| ==> IsSpace(s[i]) }

  function LowerChar(c: char): char {
    if 'A' <= c <= 'Z' then c - 'A' + 'a' else c
  }

  function Lower(s: string): (t: string)
    ensures |t| == |s| && forall i :: 0 <= i < |s| ==> t[i] == LowerChar(s[i])
  {
    seq(|s|, i requires 0 <= i < |s| => LowerChar(s[i]))
  }

  /** The length of the longest prefix with property `p`. */
  function Span(p: char -> bool, s: string): (n: nat)
    ensures n <= |s| && (forall i :: 0 <= i < n ==> p(s[i])) && (n < |s| ==> !p(s[n]))
  {
    if s == [] || !p(s[0]) then 0 else 1 + Span(p, s[1..])
  }

  lemma SpanOf(p: char -> bool, a: string, b: string)
    requires forall i :: 0 <= i < |a| ==> p(a[i])
    requires b == [] || !p(b[0])
    ensures Span(p, a + b) == |a|
  {
    var n := Span(p, a + b);
    assert forall i :: 0 <= i < |a| ==> (a + b)[i] == a[i];
    assert b != [] ==> (a + b)[|a|] == b[0];
  }

  function Digit(c: char): nat { if IsDigit(c) then (c - '0') as nat else 0 }

  function NatOf(s: string): nat {
    if s == [] then 0 else 10 * NatOf(s[..|s| - 1]) + Digit(s[|s| - 1])
  }

  function Decimal(n: nat): (s: string)
    ensures s != [] && AllDigits(s)
  {
    if n < 10 then [DigitChar(n)] else Decimal(n / 10) + [DigitChar(n % 10)]
  }

  function DigitChar(d: nat): (c: char)
    requires d < 10
    ensures IsDigit(c) && Digit(c) == d
  {
    '0' + d as char
  }

  lemma {:induction false} DecimalValue(n: nat)
    ensures NatOf(Decimal(n)) == n
  {
    if n >= 10 {
      DecimalValue(n / 10);
      assert Decimal(n)[..|Decimal(n)| - 1] == Decimal(n / 10);
    }
  }

  // ---------------------------------------------------------------------------------------------
  // The language of durations
  // ---------------------------------------------------------------------------------------------

  datatype Unit = S | Sec | Secs | M | Minute | Mins | H | Hour | Hours | D | Day | Days

  function Name(u: Unit): (s: string)
    ensures s != [] && forall i :: 0 <= i < |s| ==> 'a' <= s[i] <= 'z'
  {
    match u
    case S => "s" case Sec => "sec" case Secs => "secs"
    case M => "m" case Minute => "min" case Mins => "mins"
    case H => "h" case Hour => "hour" case Hours => "hours"
    case D => "d" case Day => "day" case Days => "days"
  }

  function Multiplier(u: Unit): (n: nat)
    ensures n > 0
  {
    match u
    case S | Sec | Secs => 1
    case M | Minute | Mins => 60
    case H | Hour | Hours => 3600
    case D | Day | Days => 86400
  }

  function Seconds(n: nat, u: Unit): nat {
    match Multiplier(u)
    case 1 => n
    case 60 => 60 * n
    case 3600 => 3600 * n
    case _ => 86400 * n
  }

  lemma SecondsMultiplies(n: nat, u: Unit)
    ensures Seconds(n, u) == n * Multiplier(u)
  {
  }

  /** A number and a unit, with the white space between and after them. */
  datatype Item = Item(digits: string, gap: string, unit: Unit, after: string)

  predicate GoodItem(it: Item) {
    it.digits != [] && AllDigits(it.digits) && AllSpace(it.gap) && AllSpace(it.after)
  }

  predicate Good(items: seq<Item>) { forall i :: 0 <= i < |items| ==> GoodItem(items[i]) }

  function SpellThen(it: Item, rest: string): string {
    it.digits + (it.gap + (Name(it.unit) + (it.after + rest)))
  }

  function Spell(items: seq<Item>): string {
    if items == [] then [] else SpellThen(items[0], Spell(items[1..]))
  }

  function Value(items: seq<Item>): nat {
    if items == [] then 0 else Seconds(NatOf(items[0].digits), items[0].unit) + Value(items[1..])
  }

  /** A string of numbers with units, in any case, with white space anywhere around them. */
  ghost predicate IsUnitList(s: string, lead: string, items: seq<Item>) {
    AllSpace(lead) && items != [] && Good(items) && Lower(s) == lead + Spell(items)
  }

  /** Digits, with single underscores between them. */
  predicate Grouped(s: string) {
    && s != [] && IsDigit(s[|s| - 1])
    && var init := s[..|s| - 1];
       || init == []
       || Grouped(init)
       || (init[|init| - 1] == '_' && Grouped(init[..|init| - 1]))
  }

  function Ungrouped(s: string): string {
    if s == [] then []
    else Ungrouped(s[..|s| - 1]) + if s[|s| - 1] == '_' then [] else [s[|s| - 1]]
  }

  function Sign(plus: bool): string { if plus then "+" else "" }

  ghost predicate IsInteger(s: string, lead: string, plus: bool, body: string, trail: string) {
    AllSpace(lead) && AllSpace(trail) && Grouped(body) && s == lead + (Sign(plus) + body) + trail
  }

  ghost predicate SpellsUnits(s: string, v: nat) {
    exists lead, items :: IsUnitList(s, lead, items) && v == Value(items)
  }

  /** `s` spells the duration `v`. */
  ghost predicate Spells(s: string, v: nat) {
    || SpellsUnits(s, v)
    || (exists lead, plus, body, trail :: IsInteger(s, lead, plus, body, trail) && v == NatOf(Ungrouped(body)))
  }

  // ---------------------------------------------------------------------------------------------
  // Parsing
  // ---------------------------------------------------------------------------------------------

  function Strip(s: string): string {
    if s == [] then []
    else if IsSpace(s[0]) then Strip(s[1..])
    else if IsSpace(s[|s| - 1]) then Strip(s[..|s| - 1])
    else s
  }

  /** The alternatives for a unit, in the order in which they are tried. */
  const ALTERNATIVES: seq<Unit> := [Secs, Sec, Mins, Minute, Hours, Hour, Days, Day, S, M, H, D]

  function FirstOf(us: seq<Unit>, s: string): (u: Option<Unit>)
    ensures u.Some? ==> Name(u.value) <= s
  {
    if us == [] then None else if Name(us[0]) <= s then Some(us[0]) else FirstOf(us[1..], s)
  }

  function UnitAt(s: string): (u: Option<Unit>)
    ensures u.Some? ==> Name(u.value) <= s
  {
    FirstOf(ALTERNATIVES, s)
  }

  datatype Match = Match(num: string, gap: string, unit: Unit)

  function MatchLength(m: Match): nat { |m.num| + |m.gap| + |Name(m.unit)| }

  predicate GoodMatch(m: Match) { m.num != [] && AllDigits(m.num) && AllSpace(m.gap) }

  /** A number, white space and a unit at the front of `s`. */
  function MatchAt(s: string): (m: Option<Match>)
    ensures m.Some? ==> GoodMatch(m.value) && MatchLength(m.value) <= |s|
  {
    var n := Span(IsDigit, s);
    var w := Span(IsSpace, s[n..]);
    var u := UnitAt(s[n..][w..]);
    if n == 0 || u.None? then None else Some(Match(s[..n], s[n..][..w], u.value))
  }

  /** All matches, from left to right, skipping what does not match. */
  function FindAll(s: string): (ms: seq<Match>)
    decreases |s|
  {
    if s == [] then []
    else
      var m := MatchAt(s);
      if m.None? then FindAll(s[1..]) else [m.value] + FindAll(s[MatchLength(m.value)..])
  }

  function Squeeze(s: string): string {
    if s == [] then [] else (if IsSpace(s[0]) then [] else [s[0]]) + Squeeze(s[1..])
  }

  function MatchText(m: Match): string { m.num + Name(m.unit) }

  function Joined(ms: seq<Match>): string {
    if ms == [] then [] else Joined(ms[..|ms| - 1]) + MatchText(ms[|ms| - 1])
  }

  function Total(ms: seq<Match>): nat {
    if ms == [] then 0
    else Total(ms[..|ms| - 1]) + Seconds(NatOf(ms[|ms| - 1].num), ms[|ms| - 1].unit)
  }

  function PlainInteger(s: string): Option<nat> {
    var body := if s != [] && s[0] == '+' then s[1..] else s;
    if Grouped(body) then Some(NatOf(Ungrouped(body))) else None
  }

  datatype Input = Integer(i: int) | Text(s: string) | Other

  datatype Error = Negative | BadType | Empty | BadFormat

  datatype Result<T> = Ok(value: T) | Err(error: Error)

  // ---------------------------------------------------------------------------------------------
  // Matching undoes spelling
  // ---------------------------------------------------------------------------------------------

  lemma {:induction false} FirstOfIsFirst(us: seq<Unit>, s: string, k: nat) returns (j: nat)
    requires k < |us| && Name(us[k]) <= s
    ensures j <= k && FirstOf(us, s) == Some(us[j])
  {
    if Name(us[0]) <= s {
      j := 0;
    } else {
      j := FirstOfIsFirst(us[1..], s, k - 1);
      j := j + 1;
    }
  }

  function Rank(u: Unit): (k: nat)
    ensures k < |ALTERNATIVES| && ALTERNATIVES[k] == u
  {
    match u
    case Secs => 0 case Sec => 1 case Mins => 2 case Minute => 3 case Hours => 4 case Hour => 5
    case Days => 6 case Day => 7 case S => 8 case M => 9 case H => 10 case D => 11
  }

  /** Of two units that begin alike, the longer is tried first. */
  lemma LongerFirst(j: nat, k: nat)
    requires j <= k < |ALTERNATIVES| && Name(ALTERNATIVES[j])[0] == Name(ALTERNATIVES[k])[0]
    ensures |Name(ALTERNATIVES[k])| <= |Name(ALTERNATIVES[j])|
  {
  }

  lemma UnitAtLongest(s: string, v: Unit)
    requires Name(v) <= s
    ensures UnitAt(s).Some? && |Name(v)| <= |Name(UnitAt(s).value)|
  {
    var j := FirstOfIsFirst(ALTERNATIVES, s, Rank(v));
    assert Name(v)[0] == s[0] == Name(UnitAt(s).value)[0];
    LongerFirst(j, Rank(v));
  }

  /** A unit ends where no letter follows. */
  lemma UnitAtExact(u: Unit, rest: string)
    requires rest == [] || IsSpace(rest[0]) || IsDigit(rest[0])
    ensures UnitAt(Name(u) + rest) == Some(u)
  {
    var s := Name(u) + rest;
    assert Name(u) <= s;
    UnitAtLongest(s, u);
    var v := UnitAt(s).value;
    assert rest != [] ==> s[|Name(u)|] == rest[0];
    assert forall i :: 0 <= i < |Name(v)| ==> Name(v)[i] == s[i];
    assert |Name(v)| == |Name(u)|;
    assert Name(v) == s[..|Name(v)|] == Name(u);
    NameInjective(u, v);
  }

  lemma NameInjective(u: Unit, v: Unit)
    requires Name(u) == Name(v)
    ensures u == v
  {
  }

  function ItemMatch(it: Item): Match { Match(it.digits, it.gap, it.unit) }

  function Matches(items: seq<Item>): seq<Match> {
    if items == [] then [] else [ItemMatch(items[0])] + Matches(items[1..])
  }

  lemma MatchAtParts(it: Item, rest: string)
    requires GoodItem(it) && (rest == [] || IsSpace(rest[0]) || IsDigit(rest[0]))
    ensures MatchAt(it.digits + (it.gap + (Name(it.unit) + rest))) == Some(ItemMatch(it))
  {
    var ending := Name(it.unit) + rest;
    var tail := it.gap + ending;
    var s := it.digits + tail;
    SpanOf(IsDigit, it.digits, tail);
    assert s[..|it.digits|] == it.digits && s[|it.digits|..] == tail;
    SpanOf(IsSpace, it.gap, ending);
    assert tail[..|it.gap|] == it.gap && tail[|it.gap|..] == ending;
    UnitAtExact(it.unit, rest);
  }

  lemma AfterItem(it: Item, rest: string)
    ensures SpellThen(it, rest)[MatchLength(ItemMatch(it))..] == it.after + rest
  {
  }

  lemma {:induction false} SkipSpace(lead: string, s: string)
    requires AllSpace(lead)
    ensures FindAll(lead + s) == FindAll(s)
  {
    if lead == [] {
      assert lead + s == s;
    } else {
      assert (lead + s)[0] == lead[0] && (lead + s)[1..] == lead[1..] + s;
      assert Span(IsDigit, lead + s) == 0;
      SkipSpace(lead[1..], s);
    }
  }

  lemma FindAllItem(it: Item, rest: string)
    requires GoodItem(it) && (rest == [] || IsDigit(rest[0]))
    ensures FindAll(SpellThen(it, rest)) == [ItemMatch(it)] + FindAll(rest)
  {
    AfterItem(it, rest);
    MatchAtParts(it, it.after + rest);
    SkipSpace(it.after, rest);
  }

  lemma {:induction false} FindAllSpelled(items: seq<Item>)
    requires Good(items)
    ensures FindAll(Spell(items)) == Matches(items)
  {
    if items != [] {
      SpellStarts(items[1..]);
      FindAllItem(items[0], Spell(items[1..]));
      FindAllSpelled(items[1..]);
    }
  }

  lemma SpellStarts(items: seq<Item>)
    requires Good(items)
    ensures items != [] ==> Spell(items) != [] && IsDigit(Spell(items)[0])
  {
    if items != [] {
      assert GoodItem(items[0]);
      assert Spell(items)[0] == items[0].digits[0];
    }
  }

  // ---------------------------------------------------------------------------------------------
  // Spelling undoes matching
  // ---------------------------------------------------------------------------------------------

  lemma {:induction false} SqueezeConcat(a: string, b: string)
    ensures Squeeze(a + b) == Squeeze(a) + Squeeze(b)
  {
    if a == [] {
      assert a + b == b;
    } else {
      assert (a + b)[0] == a[0] && (a + b)[1..] == a[1..] + b;
      SqueezeConcat(a[1..], b);
    }
  }

  lemma {:induction false} SqueezeSpace(a: string)
    requires AllSpace(a)
    ensures Squeeze(a) == []
  {
    if a != [] {
      SqueezeSpace(a[1..]);
    }
  }

  lemma {:induction false} SqueezeSolid(a: string)
    requires forall i :: 0 <= i < |a| ==> !IsSpace(a[i])
    ensures Squeeze(a) == a
  {
    if a != [] {
      SqueezeSolid(a[1..]);
    }
  }

  lemma SqueezeFront(a: string, rest: string)
    requires forall i :: 0 <= i < |a| ==> !IsSpace(a[i])
    ensures Squeeze(a + rest) == a + Squeeze(rest)
  {
    SqueezeConcat(a, rest);
    SqueezeSolid(a);
  }

  lemma SqueezeGap(a: string, rest: string)
    requires AllSpace(a)
    ensures Squeeze(a + rest) == Squeeze(rest)
  {
    SqueezeConcat(a, rest);
    SqueezeSpace(a);
  }

  lemma Cancel<T>(a: seq<T>, b: seq<T>, c: seq<T>)
    requires a + b == a + c
    ensures b == c
  {
    assert (a + b)[|a|..] == b;
    assert (a + c)[|a|..] == c;
  }

  lemma SqueezeMatch(m: Match, rest: string)
    requires GoodMatch(m)
    ensures Squeeze(m.num + (m.gap + (Name(m.unit) + rest))) == MatchText(m) + Squeeze(rest)
  {
    SqueezeFront(m.num, m.gap + (Name(m.unit) + rest));
    SqueezeGap(m.gap, Name(m.unit) + rest);
    SqueezeFront(Name(m.unit), rest);
    Assoc(m.num, Name(m.unit), Squeeze(rest));
  }

  lemma {:induction false} JoinedCons(m: Match, ms: seq<Match>)
    ensures Joined([m] + ms) == MatchText(m) + Joined(ms)
  {
    var all := [m] + ms;
    var n := |ms| - 1;
    if ms == [] {
      assert all[..0] == [];
    } else {
      assert all[..|all| - 1] == [m] + ms[..n];
      assert all[|all| - 1] == ms[n];
      JoinedCons(m, ms[..n]);
      Assoc(MatchText(m), Joined(ms[..n]), MatchText(ms[n]));
    }
  }

  lemma {:induction false} JoinedSpelled(items: seq<Item>)
    requires Good(items)
    ensures Joined(Matches(items)) == Squeeze(Spell(items))
  {
    if items != [] {
      var it, rest := items[0], Spell(items[1..]);
      JoinedSpelled(items[1..]);
      JoinedCons(ItemMatch(it), Matches(items[1..]));
      SqueezeMatch(ItemMatch(it), it.after + rest);
      SqueezeGap(it.after, rest);
    }
  }

  lemma MatchAtFront(s: string)
    requires MatchAt(s).Some?
    ensures var m := MatchAt(s).value;
      s == m.num + (m.gap + (Name(m.unit) + s[MatchLength(m)..]))
  {
    var m := MatchAt(s).value;
    Cut(s, Span(IsDigit, s), m.gap, Name(m.unit));
  }

  lemma Cut(s: string, n: nat, gap: string, name: string)
    requires n <= |s| && gap <= s[n..] && name <= s[n..][|gap|..]
    ensures s == s[..n] + (gap + (name + s[n + |gap| + |name|..]))
  {
    var t := s[n..];
    assert t[|gap|..] == s[n + |gap|..];
    FrontBack(name, t[|gap|..]);
    assert t[|gap|..][|name|..] == s[n + |gap| + |name|..];
    FrontBack(gap, t);
    FrontBack(s[..n], s);
  }

  lemma FrontBack<T>(a: seq<T>, s: seq<T>)
    requires a <= s
    ensures s == a + s[|a|..]
  {
  }

  /** Matches cover at most what is not white space. */
  lemma {:induction false} JoinedBound(s: string)
    ensures |Joined(FindAll(s))| <= |Squeeze(s)|
    decreases |s|
  {
    if s != [] {
      var m := MatchAt(s);
      if m.None? {
        JoinedBound(s[1..]);
      } else {
        var rest := s[MatchLength(m.value)..];
        MatchAtFront(s);
        SqueezeMatch(m.value, rest);
        JoinedCons(m.value, FindAll(rest));
        JoinedBound(rest);
      }
    }
  }

  lemma NoMatchThere(s: string)
    requires s != [] && MatchAt(s).None? && Joined(FindAll(s)) == Squeeze(s)
    ensures IsSpace(s[0]) && FindAll(s) == FindAll(s[1..]) && Joined(FindAll(s[1..])) == Squeeze(s[1..])
  {
    JoinedBound(s[1..]);
  }

  lemma MatchThere(s: string, m: Match, rest: string)
    requires s != [] && MatchAt(s) == Some(m) && rest == s[MatchLength(m)..] && Joined(FindAll(s)) == Squeeze(s)
    ensures s == m.num + (m.gap + (Name(m.unit) + rest))
    ensures FindAll(s) == [m] + FindAll(rest) && Joined(FindAll(rest)) == Squeeze(rest)
  {
    MatchAtFront(s);
    SqueezeMatch(m, rest);
    JoinedCons(m, FindAll(rest));
    Cancel(MatchText(m), Joined(FindAll(rest)), Squeeze(rest));
  }

  ghost predicate IsSpelling(s: string, lead: string, items: seq<Item>) {
    AllSpace(lead) && Good(items) && s == lead + Spell(items) && Matches(items) == FindAll(s)
  }

  lemma SkipSpelling(s: string, lead: string, items: seq<Item>)
    requires s != [] && MatchAt(s).None? && Joined(FindAll(s)) == Squeeze(s)
    requires IsSpelling(s[1..], lead, items)
    ensures IsSpelling(s, [s[0]] + lead, items)
  {
    NoMatchThere(s);
    FrontAgain(s, lead, Spell(items));
  }

  lemma FrontAgain(s: string, a: string, b: string)
    requires s != [] && s[1..] == a + b
    ensures s == ([s[0]] + a) + b
  {
  }

  lemma NextSpelling(s: string, m: Match, rest: string, after: string, others: seq<Item>)
    requires s != [] && MatchAt(s) == Some(m) && rest == s[MatchLength(m)..] && Joined(FindAll(s)) == Squeeze(s)
    requires IsSpelling(rest, after, others)
    ensures IsSpelling(s, [], [Item(m.num, m.gap, m.unit, after)] + others)
  {
    MatchThere(s, m, rest);
    ConsIsSpelling(s, Item(m.num, m.gap, m.unit, after), others, FindAll(rest), FindAll(s));
  }

  lemma ConsIsSpelling(s: string, it: Item, others: seq<Item>, rest: seq<Match>, all: seq<Match>)
    requires GoodItem(it) && Good(others) && s == SpellThen(it, Spell(others)) && all == FindAll(s)
    requires Matches(others) == rest && all == [ItemMatch(it)] + rest
    ensures IsSpelling(s, [], [it] + others)
  {
    ConsSpell(it, others);
    assert [] + s == s;
  }

  lemma ConsSpell(it: Item, others: seq<Item>)
    requires GoodItem(it) && Good(others)
    ensures Good([it] + others)
    ensures Spell([it] + others) == SpellThen(it, Spell(others))
    ensures Matches([it] + others) == [ItemMatch(it)] + Matches(others)
  {
    assert ([it] + others)[1..] == others;
  }

  /** If the matches cover all but white space, the string is a list of items. */
  lemma {:induction false} Unspelled(s: string) returns (lead: string, items: seq<Item>)
    requires Joined(FindAll(s)) == Squeeze(s)
    ensures IsSpelling(s, lead, items)
    decreases |s|
  {
    if s == [] {
      lead, items := [], [];
    } else if MatchAt(s).None? {
      NoMatchThere(s);
      var l, its := Unspelled(s[1..]);
      SkipSpelling(s, l, its);
      lead, items := [s[0]] + l, its;
    } else {
      var m := MatchAt(s).value;
      var rest := s[MatchLength(m)..];
      MatchThere(s, m, rest);
      var after, others := Unspelled(rest);
      NextSpelling(s, m, rest, after, others);
      lead, items := [], [Item(m.num, m.gap, m.unit, after)] + others;
    }
  }

  // ---------------------------------------------------------------------------------------------
  // White space at the ends
  // ---------------------------------------------------------------------------------------------

  predicate Solid(s: string) { s != [] && !IsSpace(s[0]) && !IsSpace(s[|s| - 1]) }

  predicate EndsInLetter(s: string) { s != [] && 'a' <= s[|s| - 1] <= 'z' }

  lemma {:induction false} StripParts(s: string) returns (lead: string, trail: string)
    ensures AllSpace(lead) && AllSpace(trail) && s == lead + Strip(s) + trail
    ensures Strip(s) == [] || Solid(Strip(s))
    decreases |s|
  {
    lead, trail := [], [];
    if s != [] && IsSpace(s[0]) {
      lead, trail := StripParts(s[1..]);
      SpaceBefore(s, lead, Strip(s), trail);
      lead := [s[0]] + lead;
    } else if s != [] && IsSpace(s[|s| - 1]) {
      lead, trail := StripParts(s[..|s| - 1]);
      SpaceAfter(s, lead, Strip(s), trail);
      trail := trail + [s[|s| - 1]];
    }
  }

  lemma SpaceBefore(s: string, lead: string, middle: string, trail: string)
    requires s != [] && s[1..] == lead + middle + trail && IsSpace(s[0]) && AllSpace(lead)
    ensures s == ([s[0]] + lead) + middle + trail && AllSpace([s[0]] + lead)
  {
    FrontAgain(s, lead, middle + trail);
    Assoc(lead, middle, trail);
    Assoc([s[0]] + lead, middle, trail);
  }

  lemma SpaceAfter(s: string, lead: string, middle: string, trail: string)
    requires s != [] && s[..|s| - 1] == lead + middle + trail && IsSpace(s[|s| - 1]) && AllSpace(trail)
    ensures s == lead + middle + (trail + [s[|s| - 1]]) && AllSpace(trail + [s[|s| - 1]])
  {
    assert s == s[..|s| - 1] + [s[|s| - 1]];
    Assoc(lead + middle, trail, [s[|s| - 1]]);
  }

  lemma {:induction false} StripMiddle(lead: string, s: string, trail: string)
    requires AllSpace(lead) && AllSpace(trail) && Solid(s)
    ensures Strip(lead + s + trail) == s
    decreases |lead| + |trail|
  {
    var all := lead + s + trail;
    if lead != [] {
      assert all[1..] == lead[1..] + s + trail;
      StripMiddle(lead[1..], s, trail);
    } else if trail != [] {
      assert all[0] == s[0];
      assert all[..|all| - 1] == lead + s + trail[..|trail| - 1];
      StripMiddle(lead, s, trail[..|trail| - 1]);
    } else {
      assert all == s;
    }
  }

  lemma LowerConcat(a: string, b: string)
    ensures Lower(a + b) == Lower(a) + Lower(b)
  {
  }

  lemma LowerSame(a: string)
    requires forall i :: 0 <= i < |a| ==> LowerChar(a[i]) == a[i]
    ensures Lower(a) == a
  {
  }

  function Normal(s: string): string { Lower(Strip(s)) }

  /** Stripping and lowering commute. */
  lemma NormalParts(s: string) returns (lead: string, trail: string)
    ensures AllSpace(lead) && AllSpace(trail)
    ensures s == lead + Strip(s) + trail && Lower(s) == lead + Normal(s) + trail
    ensures Normal(s) == [] || Solid(Normal(s))
  {
    lead, trail := StripParts(s);
    LowerConcat(lead + Strip(s), trail);
    LowerConcat(lead, Strip(s));
    LowerSame(lead);
    LowerSame(trail);
  }

  lemma NormalMiddle(s: string, lead: string, m: string, trail: string)
    requires AllSpace(lead) && AllSpace(trail) && Solid(m) && Lower(s) == lead + m + trail
    ensures Normal(s) == m
  {
    var a, b := NormalParts(s);
    assert (lead + m + trail)[|lead|] == m[0];
    assert Normal(s) != [] by {
      assert Normal(s) == [] ==> AllSpace(Lower(s));
    }
    StripMiddle(a, Normal(s), b);
    StripMiddle(lead, m, trail);
  }

  // ---------------------------------------------------------------------------------------------
  // The parser
  // ---------------------------------------------------------------------------------------------

  /** What is left of a string after stripping, in lower case, as a list of units. */
  function UnitTotal(t: string): Option<nat> {
    var ms := FindAll(t);
    if ms != [] && Joined(ms) == Squeeze(t) then Some(Total(ms)) else None
  }

  function Parse(s: string): Result<nat> {
    var t := Normal(s);
    if t == [] then Err(Empty)
    else if t[0] == '-' then Err(Negative)
    else if PlainInteger(t).Some? then Ok(PlainInteger(t).value)
    else if UnitTotal(t).Some? then Ok(UnitTotal(t).value)
    else Err(BadFormat)
  }

  function ParseInput(input: Input): Result<nat> {
    match input
    case Integer(i) => if i < 0 then Err(Negative) else Ok(i)
    case Text(s) => Parse(s)
    case Other => Err(BadType)
  }

  method ParseDuration(duration: Input) returns (r: Result<nat>)
    ensures r == ParseInput(duration)
    ensures duration.Integer? ==> r == if duration.i < 0 then Err(Negative) else Ok(duration.i)
    ensures duration.Other? ==> r == Err(BadType)
  {
    if duration.Integer? {
      if duration.i < 0 {
        return Err(Negative);
      }
      return Ok(duration.i);
    }
    if duration.Other? {
      return Err(BadType);
    }
    var t := Lower(Strip(duration.s));
    if t == [] {
      return Err(Empty);
    }
    if t[0] == '-' {
      return Err(Negative);
    }
    var plain := PlainInteger(t);
    if plain.Some? {
      return Ok(plain.value);
    }
    var matches := FindAll(t);
    if matches == [] {
      return Err(BadFormat);
    }
    var reconstructed: string := [];
    for i := 0 to |matches|
      invariant reconstructed == Joined(matches[..i])
    {
      JoinedNext(matches, i);
      reconstructed := reconstructed + (matches[i].num + Name(matches[i].unit));
    }
    assert matches[..|matches|] == matches;
    if Squeeze(t) != reconstructed {
      return Err(BadFormat);
    }
    var totalSeconds := 0;
    for i := 0 to |matches|
      invariant totalSeconds == Total(matches[..i])
    {
      TotalNext(matches, i);
      SecondsMultiplies(NatOf(matches[i].num), matches[i].unit);
      totalSeconds := totalSeconds + NatOf(matches[i].num) * Multiplier(matches[i].unit);
    }
    return Ok(totalSeconds);
  }

  // ---------------------------------------------------------------------------------------------
  // The parser accepts exactly the spellings of a duration
  // ---------------------------------------------------------------------------------------------

  lemma {:induction false} TotalCons(m: Match, ms: seq<Match>)
    ensures Total([m] + ms) == Seconds(NatOf(m.num), m.unit) + Total(ms)
  {
    var all := [m] + ms;
    var n := |ms| - 1;
    if ms == [] {
      assert all[..0] == [];
    } else {
      assert all[..|all| - 1] == [m] + ms[..n];
      TotalCons(m, ms[..n]);
    }
  }

  lemma {:induction false} TotalIsValue(items: seq<Item>)
    ensures Total(Matches(items)) == Value(items)
  {
    if items != [] {
      TotalIsValue(items[1..]);
      TotalCons(ItemMatch(items[0]), Matches(items[1..]));
    }
  }

  lemma TotalNext(ms: seq<Match>, i: nat)
    requires i < |ms|
    ensures Total(ms[..i + 1]) == Total(ms[..i]) + Seconds(NatOf(ms[i].num), ms[i].unit)
  {
    assert ms[..i + 1][..i] == ms[..i];
  }

  lemma JoinedNext(ms: seq<Match>, i: nat)
    requires i < |ms|
    ensures Joined(ms[..i + 1]) == Joined(ms[..i]) + MatchText(ms[i])
  {
    assert ms[..i + 1][..i] == ms[..i];
  }

  /** The same items, with other white space after the last. */
  function WithAfter(items: seq<Item>, after: string): seq<Item>
    requires items != []
  {
    var n := |items| - 1;
    items[..n] + [items[n].(after := after)]
  }

  lemma WithAfterSame(items: seq<Item>)
    requires items != []
    ensures WithAfter(items, items[|items| - 1].after) == items
  {
  }

  lemma ThenAfter(it: Item, rest: string, after: string)
    ensures SpellThen(it, rest + after) == SpellThen(it, rest) + after
  {
    Assoc(it.after, rest, after);
    Assoc(Name(it.unit), it.after + rest, after);
    Assoc(it.gap, Name(it.unit) + (it.after + rest), after);
    Assoc(it.digits, it.gap + (Name(it.unit) + (it.after + rest)), after);
  }

  lemma {:induction false} WithAfterSpells(items: seq<Item>, after: string)
    requires items != [] && Good(items) && AllSpace(after)
    ensures Good(WithAfter(items, after)) && Value(WithAfter(items, after)) == Value(items)
    ensures Spell(WithAfter(items, after)) == Spell(WithAfter(items, "")) + after
    ensures Matches(WithAfter(items, after)) == Matches(items)
  {
    var ws, es := WithAfter(items, after), WithAfter(items, "");
    assert GoodItem(items[0]);
    if |items| == 1 {
      assert ws[1..] == [] && es[1..] == [] && items[1..] == [];
      ThenAfter(es[0], [], after);
      assert [] + after == after + [];
    } else {
      WithAfterSpells(items[1..], after);
      assert ws[1..] == WithAfter(items[1..], after) && ws[0] == items[0];
      assert es[1..] == WithAfter(items[1..], "") && es[0] == items[0];
      ThenAfter(items[0], Spell(es[1..]), after);
    }
  }

  lemma {:induction false} SpellSolid(items: seq<Item>)
    requires items != [] && Good(items)
    ensures Solid(Spell(WithAfter(items, ""))) && EndsInLetter(Spell(WithAfter(items, "")))
  {
    var es := WithAfter(items, "");
    assert GoodItem(items[0]);
    if |items| == 1 {
      assert es[1..] == [];
    } else {
      SpellSolid(items[1..]);
      assert es[1..] == WithAfter(items[1..], "");
    }
    ThenSolid(es[0], Spell(es[1..]));
  }

  lemma ThenSolid(it: Item, rest: string)
    requires GoodItem(it) && if rest == [] then it.after == [] else Solid(rest) && EndsInLetter(rest)
    ensures Solid(SpellThen(it, rest)) && EndsInLetter(SpellThen(it, rest))
  {
    var s := SpellThen(it, rest);
    assert s[0] == it.digits[0];
    if rest == [] {
      assert s == (it.digits + it.gap) + Name(it.unit);
    } else {
      assert s[|s| - 1] == rest[|rest| - 1];
    }
  }

  /** A spelled list of units, once stripped and lowered, is parsed to its value. */
  lemma UnitsParse(s: string, lead: string, items: seq<Item>)
    requires IsUnitList(s, lead, items)
    ensures UnitTotal(Normal(s)) == Some(Value(items))
    ensures Normal(s) != [] && IsDigit(Normal(s)[0]) && EndsInLetter(Normal(s))
  {
    var n := |items| - 1;
    var es := WithAfter(items, "");
    assert GoodItem(items[n]);
    WithAfterSame(items);
    WithAfterSpells(items, items[n].after);
    WithAfterSpells(items, "");
    SpellSolid(items);
    Assoc(lead, Spell(es), items[n].after);
    NormalMiddle(s, lead, Spell(es), items[n].after);
    SpellStarts(es);
    FindAllSpelled(es);
    JoinedSpelled(es);
    TotalIsValue(es);
  }

  lemma UnitsParsed(s: string) returns (lead: string, items: seq<Item>)
    requires UnitTotal(Normal(s)).Some?
    ensures IsUnitList(s, lead, items) && UnitTotal(Normal(s)) == Some(Value(items))
  {
    var a, b := NormalParts(s);
    var l, its := Unspelled(Normal(s));
    lead, items := a + l, WithAfter(its, its[|its| - 1].after + b);
    TotalIsValue(its);
    SpaceAround(a, l, its, b);
  }

  /** White space before and after a list of items belongs to it. */
  lemma SpaceAround(a: string, l: string, its: seq<Item>, b: string)
    requires its != [] && Good(its) && AllSpace(a) && AllSpace(l) && AllSpace(b)
    ensures var items := WithAfter(its, its[|its| - 1].after + b);
      && AllSpace(a + l) && items != [] && Good(items) && Value(items) == Value(its)
      && a + (l + Spell(its)) + b == a + l + Spell(items)
  {
    var n := |its| - 1;
    assert GoodItem(its[n]);
    WithAfterSame(its);
    WithAfterSpells(its, its[n].after);
    WithAfterSpells(its, its[n].after + b);
    Regroup(a, l, Spell(WithAfter(its, "")), its[n].after, b);
  }

  lemma Regroup<T>(a: seq<T>, l: seq<T>, e: seq<T>, x: seq<T>, b: seq<T>)
    ensures (a + (l + (e + x))) + b == (a + l) + (e + (x + b))
  {
    Assoc(a, l, e + x);
    Assoc(a + l, e + x, b);
    Assoc(e, x, b);
  }

  predicate IsDigitOrBar(c: char) { IsDigit(c) || c == '_' }

  lemma {:induction false} GroupedChars(s: string)
    requires Grouped(s)
    ensures IsDigit(s[0]) && IsDigit(s[|s| - 1])
    ensures forall i :: 0 <= i < |s| ==> IsDigitOrBar(s[i])
  {
    var init := s[..|s| - 1];
    if init != [] {
      if Grouped(init) {
        GroupedChars(init);
      } else {
        GroupedChars(init[..|init| - 1]);
        assert init == init[..|init| - 1] + ['_'];
      }
      assert s == init + [s[|s| - 1]];
    }
  }

  lemma SignBody(plus: bool, body: string)
    requires Grouped(body)
    ensures Solid(Sign(plus) + body) && (Sign(plus) + body)[0] != '-'
    ensures PlainInteger(Sign(plus) + body) == Some(NatOf(Ungrouped(body)))
  {
    GroupedChars(body);
    if plus {
      assert ("+" + body)[1..] == body;
    } else {
      assert "" + body == body;
    }
  }

  predicate IsPlain(s: string) { forall i :: 0 <= i < |s| ==> IsDigitOrBar(s[i]) || s[i] == '+' }

  lemma SignBodyPlain(plus: bool, body: string)
    requires Grouped(body)
    ensures IsPlain(Sign(plus) + body)
  {
    GroupedChars(body);
  }

  lemma LowerPlain(lead: string, m: string, trail: string)
    requires AllSpace(lead) && IsPlain(m) && AllSpace(trail)
    ensures Lower(lead + m + trail) == lead + m + trail
  {
    LowerConcat(lead + m, trail);
    LowerConcat(lead, m);
    LowerSame(lead);
    LowerSame(m);
    LowerSame(trail);
  }

  lemma IntegerParses(s: string, lead: string, plus: bool, body: string, trail: string)
    requires IsInteger(s, lead, plus, body, trail)
    ensures Normal(s) != [] && Normal(s)[0] != '-'
    ensures PlainInteger(Normal(s)) == Some(NatOf(Ungrouped(body)))
  {
    SignBody(plus, body);
    SignBodyPlain(plus, body);
    LowerPlain(lead, Sign(plus) + body, trail);
    NormalMiddle(s, lead, Sign(plus) + body, trail);
  }

  lemma Unsigned(t: string) returns (plus: bool, body: string)
    requires PlainInteger(t).Some?
    ensures t == Sign(plus) + body && Grouped(body)
  {
    plus := t != [] && t[0] == '+';
    body := if plus then t[1..] else t;
  }

  lemma LowerUndone(a: string)
    requires IsPlain(Lower(a))
    ensures Lower(a) == a
  {
    assert forall i :: 0 <= i < |a| ==> Lower(a)[i] == LowerChar(a[i]);
  }

  lemma IntegerParsed(s: string) returns (lead: string, plus: bool, body: string, trail: string)
    requires PlainInteger(Normal(s)).Some?
    ensures IsInteger(s, lead, plus, body, trail)
    ensures PlainInteger(Normal(s)) == Some(NatOf(Ungrouped(body)))
  {
    lead, trail := NormalParts(s);
    plus, body := Unsigned(Normal(s));
    SignBody(plus, body);
    SignBodyPlain(plus, body);
    LowerUndone(Strip(s));
  }

  /** A string is accepted, with this value, exactly if it spells it. */
  lemma ParseExact(s: string, v: nat)
    ensures Parse(s) == Ok(v) <==> Spells(s, v)
  {
    if Parse(s) == Ok(v) {
      ParsedSpells(s, v);
    }
    if Spells(s, v) {
      SpelledParses(s, v);
    }
  }

  /** What stands first but for white space. */
  lemma FirstSolid(s: string, lead: string, t: string, trail: string)
    requires s == lead + t + trail && AllSpace(lead) && t != [] && !IsSpace(t[0])
    ensures !AllSpace(s)
    ensures t[0] == '-' <==> exists i :: 0 <= i < |s| && s[i] == '-' && AllSpace(s[..i])
  {
    assert s[|lead|] == t[0] && s[..|lead|] == lead;
  }

  /** Which error it is: a blank string, a leading minus sign, or anything else that spells nothing. */
  lemma ErrorsMean(s: string)
    ensures Parse(s) == Err(Empty) <==> AllSpace(s)
    ensures Parse(s) == Err(Negative) <==> exists i :: 0 <= i < |s| && s[i] == '-' && AllSpace(s[..i])
    ensures Parse(s) != Err(BadType)
  {
    var lead, trail := NormalParts(s);
    var t := Strip(s);
    if t == [] {
      assert forall i :: 0 <= i < |s| ==> IsSpace(s[i]);
    } else {
      FirstSolid(s, lead, t, trail);
    }
  }

  lemma SpelledParses(s: string, v: nat)
    requires Spells(s, v)
    ensures Parse(s) == Ok(v)
  {
    if SpellsUnits(s, v) {
      var lead, items :| IsUnitList(s, lead, items) && v == Value(items);
      UnitsParse(s, lead, items);
    } else {
      var lead, plus, body, trail :| IsInteger(s, lead, plus, body, trail) && v == NatOf(Ungrouped(body));
      IntegerParses(s, lead, plus, body, trail);
    }
  }

  lemma ParsedSpells(s: string, v: nat)
    requires Parse(s) == Ok(v)
    ensures Spells(s, v)
  {
    if PlainInteger(Normal(s)).Some? {
      var lead, plus, body, trail := IntegerParsed(s);
    } else {
      var lead, items := UnitsParsed(s);
    }
  }

  lemma {:induction false} SpellConcat(a: seq<Item>, b: seq<Item>)
    requires Good(a) && Good(b)
    ensures Good(a + b) && Spell(a + b) == Spell(a) + Spell(b) && Value(a + b) == Value(a) + Value(b)
  {
    if a == [] {
      assert a + b == b;
    } else {
      assert (a + b)[0] == a[0] && (a + b)[1..] == a[1..] + b;
      assert GoodItem(a[0]);
      SpellConcat(a[1..], b);
      ThenAfter(a[0], Spell(a[1..]), Spell(b));
    }
  }

  lemma UnitListsConcat(a: string, la: string, ia: seq<Item>, b: string, lb: string, ib: seq<Item>)
    returns (items: seq<Item>)
    requires IsUnitList(a, la, ia) && IsUnitList(b, lb, ib)
    ensures IsUnitList(a + b, la, items) && Value(items) == Value(ia) + Value(ib)
  {
    var last := ia[|ia| - 1].after;
    assert GoodItem(ia[|ia| - 1]);
    var longer := WithAfter(ia, last + lb);
    items := longer + ib;
    WithAfterSame(ia);
    WithAfterSpells(ia, last);
    WithAfterSpells(ia, last + lb);
    SpellConcat(longer, ib);
    LowerConcat(a, b);
    Joint(la, Spell(WithAfter(ia, "")), last, lb, Spell(ib));
  }

  lemma Joint<T>(a: seq<T>, e: seq<T>, x: seq<T>, b: seq<T>, c: seq<T>)
    ensures (a + (e + x)) + (b + c) == a + ((e + (x + b)) + c)
  {
    Assoc(a, e + x, b + c);
    Assoc(e + x, b, c);
    Assoc(e, x, b);
  }

  /** Durations with units, written one after the other, spell the sum. */
  lemma UnitsAdd(a: string, b: string, x: nat, y: nat)
    requires SpellsUnits(a, x) && SpellsUnits(b, y)
    ensures SpellsUnits(a + b, x + y)
  {
    var la, ia :| IsUnitList(a, la, ia) && x == Value(ia);
    var lb, ib :| IsUnitList(b, lb, ib) && y == Value(ib);
    var items := UnitListsConcat(a, la, ia, b, lb, ib);
  }

  lemma ParsedWithUnits(s: string, v: nat)
    requires Parse(s) == Ok(v) && PlainInteger(Normal(s)).None?
    ensures SpellsUnits(s, v)
  {
    var lead, items := UnitsParsed(s);
  }

  /** If two strings parse and neither is a plain integer, what they spell together is their sum. */
  lemma ParseAdds(a: string, b: string, x: nat, y: nat)
    requires Parse(a) == Ok(x) && Parse(b) == Ok(y)
    requires PlainInteger(Normal(a)).None? && PlainInteger(Normal(b)).None?
    ensures Parse(a + b) == Ok(x + y)
  {
    ParsedWithUnits(a, x);
    ParsedWithUnits(b, y);
    UnitsAdd(a, b, x, y);
    UnitsSpelledParse(a + b, x + y);
  }

  lemma UnitsSpelledParse(s: string, v: nat)
    requires SpellsUnits(s, v)
    ensures Parse(s) == Ok(v)
  {
    SpelledParses(s, v);
  }

  // ---------------------------------------------------------------------------------------------
  // Printing
  // ---------------------------------------------------------------------------------------------

  const SCALE: seq<Unit> := [D, H, M, S]

  function FormatItems(n: nat, us: seq<Unit>): (items: seq<Item>)
    ensures Good(items)
  {
    if us == [] then []
    else if n >= Multiplier(us[0]) then
      [Item(Decimal(n / Multiplier(us[0])), "", us[0], "")] + FormatItems(n % Multiplier(us[0]), us[1..])
    else FormatItems(n, us[1..])
  }

  function Format(n: nat): string {
    if n == 0 then "0s" else Spell(FormatItems(n, SCALE))
  }

  function Concat(parts: seq<string>): string {
    if parts == [] then [] else Concat(parts[..|parts| - 1]) + parts[|parts| - 1]
  }

  method FormatDuration(seconds: int) returns (r: Result<string>)
    ensures r == if seconds < 0 then Err(Negative) else Ok(Format(seconds))
  {
    if seconds < 0 {
      return Err(Negative);
    }
    if seconds == 0 {
      return Ok("0s");
    }
    var left: nat := seconds;
    var parts: seq<string> := [];
    for i := 0 to |SCALE|
      invariant Concat(parts) + Spell(FormatItems(left, SCALE[i..])) == Format(seconds)
    {
      var divisor := Multiplier(SCALE[i]);
      FormatNext(left, i, Concat(parts));
      if left >= divisor {
        var part := Decimal(left / divisor) + Name(SCALE[i]);
        assert (parts + [part])[..|parts|] == parts;
        parts := parts + [part];
        left := left % divisor;
      }
    }
    assert Concat(parts) + [] == Concat(parts);
    return Ok(Concat(parts));
  }

  lemma FormatNext(n: nat, i: nat, before: string)
    requires i < |SCALE|
    ensures var m := Multiplier(SCALE[i]);
      before + Spell(FormatItems(n, SCALE[i..]))
        == if n >= m then (before + (Decimal(n / m) + Name(SCALE[i]))) + Spell(FormatItems(n % m, SCALE[i + 1..]))
           else before + Spell(FormatItems(n, SCALE[i + 1..]))
  {
    var u, m := SCALE[i], Multiplier(SCALE[i]);
    assert SCALE[i..][1..] == SCALE[i + 1..];
    if n >= m {
      var digits := Decimal(n / m);
      var it := Item(digits, "", u, "");
      var others := FormatItems(n % m, SCALE[i + 1..]);
      var rest := Spell(others);
      ConsSpell(it, others);
      assert "" + rest == rest && "" + (Name(u) + rest) == Name(u) + rest;
      Assoc(digits, Name(u), rest);
      Assoc(before, digits + Name(u), rest);
    }
  }

  /** The units that a canonical spelling may still use: what is left is less than one of the next larger. */
  predicate Canonical(items: seq<Item>, us: seq<Unit>) {
    if us == [] then items == []
    else if items != [] && items[0].unit == us[0] then
      && items[0].gap == "" && items[0].after == ""
      && NatOf(items[0].digits) > 0 && items[0].digits == Decimal(NatOf(items[0].digits))
      && Value(items[1..]) < Multiplier(us[0]) && Canonical(items[1..], us[1..])
    else Value(items) < Multiplier(us[0]) && Canonical(items, us[1..])
  }

  lemma CanonicalCons(k: nat, rest: seq<Item>, us: seq<Unit>)
    requires us != [] && k > 0 && Value(rest) < Multiplier(us[0]) && Canonical(rest, us[1..])
    ensures var items := [Item(Decimal(k), "", us[0], "")] + rest;
      Canonical(items, us) && Value(items) == Seconds(k, us[0]) + Value(rest)
  {
    DecimalValue(k);
    assert ([Item(Decimal(k), "", us[0], "")] + rest)[1..] == rest;
  }

  predicate IsCanonicalFor(items: seq<Item>, n: nat, us: seq<Unit>) { Value(items) == n && Canonical(items, us) }

  lemma {:induction false} FormatIsCanonical(n: nat, i: nat)
    requires i <= |SCALE| && (i == |SCALE| ==> n == 0)
    ensures IsCanonicalFor(FormatItems(n, SCALE[i..]), n, SCALE[i..])
    decreases |SCALE| - i
  {
    if i < |SCALE| {
      var u := SCALE[i];
      var us := SCALE[i + 1..];
      assert SCALE[i..] == [u] + us;
      if n >= Multiplier(u) {
        FormatIsCanonical(n % Multiplier(u), i + 1);
        SecondsDivided(n, u);
        CanonicalCons(n / Multiplier(u), FormatItems(n % Multiplier(u), us), SCALE[i..]);
      } else {
        FormatIsCanonical(n, i + 1);
        NotYet(FormatItems(n, us), u, i + 1);
      }
    }
  }

  /** A canonical spelling in smaller units does not start with a larger one. */
  lemma {:induction false} NotYet(items: seq<Item>, u: Unit, i: nat)
    requires i <= |SCALE| && Canonical(items, SCALE[i..]) && u !in SCALE[i..]
    ensures items != [] ==> items[0].unit != u
    decreases |SCALE| - i
  {
    if i < |SCALE| {
      assert SCALE[i..][1..] == SCALE[i + 1..];
      if items != [] && items[0].unit != SCALE[i..][0] {
        NotYet(items, u, i + 1);
      }
    }
  }

  lemma {:induction false} CanonicalUnique(a: seq<Item>, b: seq<Item>, us: seq<Unit>)
    requires Canonical(a, us) && Canonical(b, us) && Value(a) == Value(b)
    ensures a == b
  {
    if us != [] {
      StartsLarge(a, us);
      StartsLarge(b, us);
      if a != [] && a[0].unit == us[0] {
        SecondsUnique(us[0], NatOf(a[0].digits), Value(a[1..]), NatOf(b[0].digits), Value(b[1..]));
        CanonicalUnique(a[1..], b[1..], us[1..]);
        assert a[0] == b[0];
        assert a == [a[0]] + a[1..] && b == [b[0]] + b[1..];
      } else {
        CanonicalUnique(a, b, us[1..]);
      }
    }
  }

  /** A canonical spelling starts with the largest unit exactly if it is worth at least one of it. */
  lemma StartsLarge(items: seq<Item>, us: seq<Unit>)
    requires us != [] && Canonical(items, us)
    ensures items != [] && items[0].unit == us[0] <==> Value(items) >= Multiplier(us[0])
  {
  }

  lemma SecondsUnique(u: Unit, q1: nat, r1: nat, q2: nat, r2: nat)
    requires r1 < Multiplier(u) && r2 < Multiplier(u) && Seconds(q1, u) + r1 == Seconds(q2, u) + r2
    ensures q1 == q2 && r1 == r2
  {
  }

  lemma SecondsDivided(n: nat, u: Unit)
    ensures Seconds(n / Multiplier(u), u) + n % Multiplier(u) == n
    ensures n / Multiplier(u) > 0 <==> n >= Multiplier(u)
  {
  }

  /** What is printed is the one canonical spelling: largest units first, none zero, none overflowing. */
  lemma FormatUnique(items: seq<Item>)
    requires items != [] && Canonical(items, SCALE) && Value(items) > 0
    ensures Format(Value(items)) == Spell(items)
  {
    FormatIsCanonical(Value(items), 0);
    assert SCALE[0..] == SCALE;
    CanonicalUnique(items, FormatItems(Value(items), SCALE), SCALE);
  }

  lemma {:induction false} SpellLower(items: seq<Item>)
    requires Good(items)
    ensures Lower(Spell(items)) == Spell(items)
  {
    if items != [] {
      var it, rest := items[0], Spell(items[1..]);
      assert GoodItem(it);
      SpellLower(items[1..]);
      LowerConcat(it.digits, it.gap + (Name(it.unit) + (it.after + rest)));
      LowerConcat(it.gap, Name(it.unit) + (it.after + rest));
      LowerConcat(Name(it.unit), it.after + rest);
      LowerConcat(it.after, rest);
      LowerSame(it.digits);
      LowerSame(it.gap);
      LowerSame(Name(it.unit));
      LowerSame(it.after);
    }
  }

  lemma FormatSpells(n: nat)
    ensures SpellsUnits(Format(n), n)
  {
    var items := if n == 0 then ZERO else FormatItems(n, SCALE);
    if n == 0 {
      ZeroSpelled();
    } else {
      FormatIsCanonical(n, 0);
      assert SCALE[0..] == SCALE;
    }
    SpellLower(items);
    assert [] + Spell(items) == Spell(items);
    assert IsUnitList(Format(n), [], items);
  }

  const ZERO := [Item("0", "", S, "")]

  lemma ZeroSpelled()
    ensures Good(ZERO) && Spell(ZERO) == "0s" && Value(ZERO) == 0
  {
    assert ZERO[1..] == [];
    assert "0"[..0] == "";
  }

  /** Printing and parsing again gives the number back. */
  lemma RoundTrip(n: nat)
    ensures Parse(Format(n)) == Ok(n)
  {
    FormatSpells(n);
    SpelledParses(Format(n), n);
  }

  /** A number with a unit is that many of it. */
  lemma UnitAlone(n: nat, u: Unit)
    ensures Parse(Decimal(n) + Name(u)) == Ok(Seconds(n, u))
  {
    var items := [Item(Decimal(n), "", u, "")];
    assert items[1..] == [];
    assert Spell(items) == Decimal(n) + Name(u);
    DecimalValue(n);
    assert GoodItem(items[0]);
    SpellLower(items);
    assert IsUnitList(Decimal(n) + Name(u), [], items) && Value(items) == Seconds(n, u);
    SpelledParses(Decimal(n) + Name(u), Seconds(n, u));
  }

  const NAMES := ["s", "sec", "secs", "m", "min", "mins", "h", "hour", "hours", "d", "day", "days"]
  const UNITS: seq<Unit> := [S, Sec, Secs, M, Minute, Mins, H, Hour, Hours, D, Day, Days]

  lemma NameAt(k: nat)
    requires k < 12
    ensures Name(UNITS[k]) == NAMES[k]
  {
  }

  lemma UnitIn(u: Unit) returns (k: nat)
    ensures k < 12 && UNITS[k] == u
  {
    k := match u
      case S => 0 case Sec => 1 case Secs => 2 case M => 3 case Minute => 4 case Mins => 5
      case H => 6 case Hour => 7 case Hours => 8 case D => 9 case Day => 10 case Days => 11;
  }

  /** There are these units and no others... */
  lemma UnitNames(name: string)
    ensures name in NAMES <==> exists u :: Name(u) == name
  {
    if name in NAMES {
      var k :| 0 <= k < |NAMES| && NAMES[k] == name;
      NameAt(k);
    }
    if u :| Name(u) == name {
      var k := UnitIn(u);
      NameAt(k);
    }
  }

  lemma FirstLetter(n: nat, u: Unit)
    ensures match Name(u)[0]
      case 's' => Seconds(n, u) == n
      case 'm' => Seconds(n, u) == 60 * n
      case 'h' => Seconds(n, u) == 3600 * n
      case c => c == 'd' && Seconds(n, u) == 86400 * n
  {
  }

  /** ... and the first letter says how many seconds it has. */
  lemma OneUnit(n: nat, u: Unit)
    ensures var r := Parse(Decimal(n) + Name(u));
      match Name(u)[0]
      case 's' => r == Ok(n)
      case 'm' => r == Ok(60 * n)
      case 'h' => r == Ok(3600 * n)
      case c => c == 'd' && r == Ok(86400 * n)
  {
    UnitAlone(n, u);
    FirstLetter(n, u);
  }
}
