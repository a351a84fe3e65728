/**
 The control-host connector reads its log as Server-Sent Events, and reconnects with a Last-Event-ID cursor while the
 job runs.  What the JSON decoder and the logger make of a payload is an unknown function, the Judge.
 */
module Sse {
  import opened Basics

  // ---------------------------------------------------------------------------------------------
  // Text and lines
  // ---------------------------------------------------------------------------------------------

  predicate IsLine(l: string) { '\n' !in l }

  predicate AreLines(ls: seq<string>) { forall i :: 0 <= i < |ls| ==> IsLine(ls[i]) }

  /** The lines of a response body; an unterminated last line is yielded too, an empty one is not. */
  function Lines(text: string): (ls: seq<string>)
    ensures text != "" ==> ls != []
  {
    if text == "" then []
    else if text[0] == '\n' then [""] + Lines(text[1..])
    else if |text| == 1 then [text]
    else
      var rest := Lines(text[1..]);
      [[text[0]] + rest[0]] + rest[1..]
  }

  function Unlines(ls: seq<string>): string {
    if ls == [] then "" else ls[0] + "\n" + Unlines(ls[1..])
  }

  lemma {:induction false} LinesOfTerminated(l: string, rest: string)
    requires IsLine(l)
    ensures Lines(l + "\n" + rest) == [l] + Lines(rest)
  {
    var text := l + "\n" + rest;
    if l == "" {
      assert text[1..] == rest;
    } else {
      LinesOfTerminated(l[1..], rest);
      assert text[1..] == l[1..] + "\n" + rest;
      assert [l[0]] + l[1..] == l;
    }
  }

  lemma {:induction false} LinesOfUnterminated(l: string)
    requires IsLine(l) && l != ""
    ensures Lines(l) == [l]
  {
    if |l| > 1 {
      LinesOfUnterminated(l[1..]);
      assert [l[0]] + l[1..] == l;
    }
  }

  /** Cutting a stream anywhere leaves whole lines, then at most one fragment, which is not blank. */
  lemma {:induction false} CutLines(ls: seq<string>, cut: nat) returns (k: nat, tail: seq<string>)
    requires AreLines(ls)
    requires cut <= |Unlines(ls)|
    ensures k <= |ls|
    ensures Lines(Unlines(ls)[..cut]) == ls[..k] + tail
    ensures "" !in tail
    ensures cut == |Unlines(ls)| ==> k == |ls| && tail == []
  {
    var text := Unlines(ls);
    if ls == [] {
      return 0, [];
    }
    var l := ls[0];
    assert text == l + "\n" + Unlines(ls[1..]);
    if cut <= |l| {
      assert text[..cut] == l[..cut];
      k := 0;
      if cut == 0 {
        tail := [];
      } else {
        assert IsLine(l) && IsLine(l[..cut]);
        LinesOfUnterminated(l[..cut]);
        tail := [l[..cut]];
      }
    } else {
      var c := cut - |l| - 1;
      var k', tail' := CutLines(ls[1..], c);
      assert text[..cut] == l + "\n" + Unlines(ls[1..])[..c];
      LinesOfTerminated(l, Unlines(ls[1..])[..c]);
      assert [l] + ls[1..][..k'] == ls[..k' + 1];
      assert [l] + (ls[1..][..k'] + tail') == ls[..k' + 1] + tail';
      k, tail := k' + 1, tail';
    }
  }

  // ---------------------------------------------------------------------------------------------
  // The reader
  // ---------------------------------------------------------------------------------------------

  /** What becomes of a payload: logged, refused as malformed JSON, or an exception escapes. */
  datatype Verdict = Handled | Malformed | Raises
  type Judge = string -> Verdict

  /** The fields collected since the last blank line. */
  datatype Fields = Fields(eventId: Option<string>, hasId: bool, data: seq<string>)

  const NO_FIELDS := Fields(None, false, [])

  datatype Reader = Reader(
    logged: seq<string>, emitted: nat, cursorUpdated: bool, lastId: Option<string>,
    fields: Fields, raised: bool)

  function FreshReader(logged: seq<string>): Reader {
    Reader(logged, 0, false, None, NO_FIELDS, false)
  }

  /** Index of the first colon, or the length of the line when it has none. */
  function Colon(line: string): (i: nat)
    ensures i <= |line|
    ensures i < |line| ==> line[i] == ':'
    ensures ':' !in line[..i]
  {
    if line == "" || line[0] == ':' then 0
    else
      var i := 1 + Colon(line[1..]);
      assert line[..i] == [line[0]] + line[1..][..i - 1];
      i
  }

  function StripOne(value: string): string {
    if value != "" && value[0] == ' ' then value[1..] else value
  }

  /** A non-blank line: comments and lines without a colon are dropped, as are unknown fields. */
  function FeedField(f: Fields, line: string): Fields
    requires line != ""
  {
    var i := Colon(line);
    if line[0] == ':' || i == |line| then f
    else
      var value := StripOne(line[i + 1..]);
      if line[..i] == "id" then f.(eventId := if value == "" then None else Some(value), hasId := true)
      else if line[..i] == "data" then f.(data := f.data + [value])
      else f
  }

  function Join(ls: seq<string>): string {
    if ls == [] then "" else if |ls| == 1 then ls[0] else ls[0] + "\n" + Join(ls[1..])
  }

  /** A payload is its data lines again, once it is cut at the newlines. */
  lemma {:induction false} JoinSplits(ls: seq<string>)
    requires ls != [] && AreLines(ls)
    ensures Lines(Join(ls) + "\n") == ls
  {
    var l := ls[0];
    if |ls| == 1 {
      LinesOfTerminated(l, "");
      assert l + "\n" == l + "\n" + "";
    } else {
      JoinSplits(ls[1..]);
      LinesOfTerminated(l, Join(ls[1..]) + "\n");
      assert Join(ls) + "\n" == l + "\n" + (Join(ls[1..]) + "\n");
    }
  }

  /** A blank line: the cursor follows the event only when its payload has been handled. */
  function Dispatch(judge: Judge, r: Reader): Reader {
    if r.fields.data == [] then r.(fields := NO_FIELDS)
    else
      var payload := Join(r.fields.data);
      match judge(payload)
      case Raises => r.(raised := true)
      case Malformed => r.(fields := NO_FIELDS)
      case Handled =>
        Reader(r.logged + [payload], r.emitted + 1, r.cursorUpdated || r.fields.hasId,
               if r.fields.hasId then r.fields.eventId else r.lastId, NO_FIELDS, false)
  }

  function FeedLine(judge: Judge, r: Reader, line: string): Reader {
    if r.raised then r
    else if line == "" then Dispatch(judge, r)
    else r.(fields := FeedField(r.fields, line))
  }

  function Feed(judge: Judge, r: Reader, lines: seq<string>): Reader {
    if lines == [] then r
    else FeedLine(judge, Feed(judge, r, lines[..|lines| - 1]), lines[|lines| - 1])
  }

  lemma {:induction false} FeedConcat(judge: Judge, r: Reader, a: seq<string>, b: seq<string>)
    ensures Feed(judge, r, a + b) == Feed(judge, Feed(judge, r, a), b)
  {
    if b == [] {
      assert a + b == a;
    } else {
      var n := |b| - 1;
      FeedConcat(judge, r, a, b[..n]);
      assert (a + b)[..|a + b| - 1] == a + b[..n] && (a + b)[|a + b| - 1] == b[n];
      assert Feed(judge, r, a + b) == FeedLine(judge, Feed(judge, r, a + b[..n]), b[n]);
    }
  }

  // ---------------------------------------------------------------------------------------------
  // Events as the control host lists them
  // ---------------------------------------------------------------------------------------------

  /** An event on the wire: any non-blank lines, closed by a blank one. */
  type Block = seq<string>

  predicate IsBlock(b: Block) { forall i :: 0 <= i < |b| ==> b[i] != "" && IsLine(b[i]) }

  predicate AreBlocks(bs: seq<Block>) { forall i :: 0 <= i < |bs| ==> IsBlock(bs[i]) }

  function ParseFields(b: Block): Fields
    requires IsBlock(b)
  {
    if b == [] then NO_FIELDS else FeedField(ParseFields(b[..|b| - 1]), b[|b| - 1])
  }

  datatype Event = Event(hasId: bool, id: Option<string>, payload: Option<string>)

  function Parse(b: Block): Event
    requires IsBlock(b)
  {
    var f := ParseFields(b);
    Event(f.hasId, f.eventId, if f.data == [] then None else Some(Join(f.data)))
  }

  /** An event the way a host writes it: its id, then one data field per payload line. */
  function Render(id: string, data: seq<string>): Block {
    if data == [] then ["id: " + id] else Render(id, data[..|data| - 1]) + ["data: " + data[|data| - 1]]
  }

  /** A field is read with or without one space after the colon; an empty id takes the id away. */
  lemma FeedRendered(f: Fields, value: string)
    ensures FeedField(f, "id: " + value) == f.(eventId := if value == "" then None else Some(value), hasId := true)
    ensures FeedField(f, "data: " + value) == f.(data := f.data + [value])
    ensures (value == "" || value[0] != ' ') ==>
              && FeedField(f, "id:" + value) == FeedField(f, "id: " + value)
              && FeedField(f, "data:" + value) == FeedField(f, "data: " + value)
  {
    IdRendered(f, value);
    DataRendered(f, value);
  }

  lemma IdRendered(f: Fields, value: string)
    ensures FeedField(f, "id: " + value) == f.(eventId := if value == "" then None else Some(value), hasId := true)
    ensures (value == "" || value[0] != ' ') ==> FeedField(f, "id:" + value) == FeedField(f, "id: " + value)
  {
    FieldValue("id", value);
    assert "id: " + value == "id" + ": " + value && "id:" + value == "id" + ":" + value;
  }

  lemma DataRendered(f: Fields, value: string)
    ensures FeedField(f, "data: " + value) == f.(data := f.data + [value])
    ensures (value == "" || value[0] != ' ') ==> FeedField(f, "data:" + value) == FeedField(f, "data: " + value)
  {
    FieldValue("data", value);
    assert "data: " + value == "data" + ": " + value && "data:" + value == "data" + ":" + value;
  }

  lemma {:induction false} RenderParses(id: string, data: seq<string>)
    requires IsLine(id) && AreLines(data)
    ensures IsBlock(Render(id, data))
    ensures ParseFields(Render(id, data)) == Fields(if id == "" then None else Some(id), true, data)
  {
    if data == [] {
      IdAlone(id);
    } else {
      var n := |data| - 1;
      var init, last := data[..n], data[n];
      RenderParses(id, init);
      AddsData(Render(id, init), last);
      assert data == init + [last];
    }
  }

  lemma IdAlone(id: string)
    requires IsLine(id)
    ensures IsBlock(["id: " + id])
    ensures ParseFields(["id: " + id]) == Fields(if id == "" then None else Some(id), true, [])
  {
    IdRendered(NO_FIELDS, id);
    assert ["id: " + id][..0] == [];
  }

  lemma AddsData(b: Block, value: string)
    requires IsBlock(b) && IsLine(value)
    ensures IsBlock(b + ["data: " + value])
    ensures ParseFields(b + ["data: " + value]) == ParseFields(b).(data := ParseFields(b).data + [value])
  {
    ParseFieldsSnoc(b, "data: " + value);
    DataRendered(ParseFields(b), value);
  }

  /** Reading back what was written: the id and the joined payload lines, whatever they contain. */
  lemma ParseRendered(id: string, data: seq<string>)
    requires IsLine(id) && AreLines(data)
    ensures IsBlock(Render(id, data))
    ensures Parse(Render(id, data))
         == Event(true, if id == "" then None else Some(id), if data == [] then None else Some(Join(data)))
  {
    RenderParses(id, data);
  }

  lemma {:induction false} FieldValue(field: string, value: string)
    requires field != "" && ':' !in field
    ensures var line := field + ": " + value;
      Colon(line) == |field| && line[..|field|] == field && StripOne(line[|field| + 1..]) == value
    ensures var line := field + ":" + value;
      Colon(line) == |field| && line[..|field|] == field && line[|field| + 1..] == value
  {
    var line, close := field + ": " + value, field + ":" + value;
    assert line[|field|] == ':' && close[|field|] == ':';
    assert line[|field| + 1..] == " " + value && close[|field| + 1..] == value;
  }

  /** Comments, lines without a colon and other fields change nothing, wherever they stand. */
  predicate IsIgnorable(line: string)
    requires line != ""
  {
    line[0] == ':' || ':' !in line || line[..Colon(line)] !in ["id", "data"]
  }

  lemma {:induction false} IgnorableLines(a: Block, line: string, b: Block)
    requires IsBlock(a) && IsBlock(b) && line != "" && IsLine(line) && IsIgnorable(line)
    ensures IsBlock(a + [line] + b) && IsBlock(a + b)
    ensures ParseFields(a + [line] + b) == ParseFields(a + b)
  {
    if b == [] {
      IgnorableLast(a, line);
      assert a + b == a && a + [line] + b == a + [line];
    } else {
      var n := |b| - 1;
      IgnorableLines(a, line, b[..n]);
      assert a + [line] + b == a + [line] + b[..n] + [b[n]] && a + b == a + b[..n] + [b[n]];
      ParseFieldsSnoc(a + [line] + b[..n], b[n]);
      ParseFieldsSnoc(a + b[..n], b[n]);
    }
  }

  lemma ParseFieldsSnoc(b: Block, line: string)
    requires IsBlock(b) && line != "" && IsLine(line)
    ensures IsBlock(b + [line]) && ParseFields(b + [line]) == FeedField(ParseFields(b), line)
  {
    assert (b + [line])[..|b|] == b;
  }

  lemma IgnorableLast(a: Block, line: string)
    requires IsBlock(a) && line != "" && IsLine(line) && IsIgnorable(line)
    ensures IsBlock(a + [line]) && ParseFields(a + [line]) == ParseFields(a)
  {
    ParseFieldsSnoc(a, line);
  }

  predicate IsHandled(judge: Judge, e: Event) { e.payload.Some? && judge(e.payload.value) == Handled }
  predicate IsRaising(judge: Judge, e: Event) { e.payload.Some? && judge(e.payload.value) == Raises }

  /** The payloads of the well-formed events of a list, in order. */
  function HandledIn(judge: Judge, es: seq<Event>): seq<string> {
    if es == [] then []
    else
      var e := es[|es| - 1];
      HandledIn(judge, es[..|es| - 1]) + if IsHandled(judge, e) then [e.payload.value] else []
  }

  lemma {:induction false} HandledConcat(judge: Judge, a: seq<Event>, b: seq<Event>)
    ensures HandledIn(judge, a + b) == HandledIn(judge, a) + HandledIn(judge, b)
  {
    if b == [] {
      assert a + b == a;
    } else {
      HandledConcat(judge, a, b[..|b| - 1]);
      assert (a + b)[..|a + b| - 1] == a + b[..|b| - 1];
    }
  }

  /** Delivery of one whole event, stated on the event instead of on its lines. */
  function Deliver(judge: Judge, r: Reader, e: Event): Reader {
    if r.raised || e.payload.None? then r
    else match judge(e.payload.value)
      case Raises => r.(raised := true)
      case Malformed => r
      case Handled =>
        Reader(r.logged + [e.payload.value], r.emitted + 1, r.cursorUpdated || e.hasId,
               if e.hasId then e.id else r.lastId, r.fields, false)
  }

  function DeliverAll(judge: Judge, r: Reader, es: seq<Event>): Reader {
    if es == [] then r
    else Deliver(judge, DeliverAll(judge, r, es[..|es| - 1]), es[|es| - 1])
  }

  function Flat(bs: seq<Block>): seq<string> {
    if bs == [] then [] else bs[0] + [""] + Flat(bs[1..])
  }

  function ParseAll(bs: seq<Block>): (es: seq<Event>)
    requires AreBlocks(bs)
    ensures |es| == |bs|
  {
    seq(|bs|, i requires 0 <= i < |bs| => Parse(bs[i]))
  }

  predicate SameButFields(r: Reader, s: Reader) { r.(fields := NO_FIELDS) == s.(fields := NO_FIELDS) }

  lemma {:induction false} FeedFieldLines(judge: Judge, r: Reader, b: Block)
    requires IsBlock(b) && r.fields == NO_FIELDS
    ensures Feed(judge, r, b) == if r.raised then r else r.(fields := ParseFields(b))
  {
    if b != [] {
      FeedFieldLines(judge, r, b[..|b| - 1]);
      assert b[|b| - 1] != "";
    }
  }

  lemma FeedBlock(judge: Judge, r: Reader, b: Block)
    requires IsBlock(b) && (r.raised || r.fields == NO_FIELDS)
    ensures SameButFields(Feed(judge, r, b + [""]), Deliver(judge, r, Parse(b)))
    ensures !Feed(judge, r, b + [""]).raised ==> Feed(judge, r, b + [""]).fields == NO_FIELDS
  {
    if r.raised {
      FeedRaised(judge, r, b + [""]);
    } else {
      FeedFieldLines(judge, r, b);
      assert (b + [""])[..|b|] == b;
    }
  }

  lemma {:induction false} FeedRaised(judge: Judge, r: Reader, ls: seq<string>)
    requires r.raised
    ensures Feed(judge, r, ls) == r
  {
    if ls != [] {
      FeedRaised(judge, r, ls[..|ls| - 1]);
    }
  }

  lemma {:induction false} FlatConcat(a: seq<Block>, b: seq<Block>)
    ensures Flat(a + b) == Flat(a) + Flat(b)
  {
    if a == [] {
      assert a + b == b;
    } else {
      FlatConcat(a[1..], b);
      assert (a + b)[1..] == a[1..] + b;
    }
  }

  lemma DeliverIgnoresFields(judge: Judge, r: Reader, s: Reader, e: Event)
    requires SameButFields(r, s)
    ensures SameButFields(Deliver(judge, r, e), Deliver(judge, s, e))
  {
  }

  /** Reading whole events off the wire delivers exactly those events. */
  lemma {:induction false} FeedBlocks(judge: Judge, r: Reader, bs: seq<Block>)
    requires AreBlocks(bs)
    requires !r.raised && r.fields == NO_FIELDS
    ensures SameButFields(Feed(judge, r, Flat(bs)), DeliverAll(judge, r, ParseAll(bs)))
    ensures !Feed(judge, r, Flat(bs)).raised ==> Feed(judge, r, Flat(bs)).fields == NO_FIELDS
  {
    if bs != [] {
      var n := |bs| - 1;
      var init, last := bs[..n], bs[n];
      FeedBlocks(judge, r, init);
      assert Flat(bs) == Flat(init) + (last + [""]) by {
        FlatConcat(init, [last]);
        assert init + [last] == bs;
        assert Flat([last]) == last + [""];
      }
      var before := Feed(judge, r, Flat(init));
      FeedConcat(judge, r, Flat(init), last + [""]);
      FeedBlock(judge, before, last);
      DeliverIgnoresFields(judge, before, DeliverAll(judge, r, ParseAll(init)), Parse(last));
      DeliverLast(judge, r, bs);
    }
  }

  lemma DeliverLast(judge: Judge, r: Reader, bs: seq<Block>)
    requires AreBlocks(bs) && bs != []
    ensures var n := |bs| - 1;
      DeliverAll(judge, r, ParseAll(bs)) == Deliver(judge, DeliverAll(judge, r, ParseAll(bs[..n])), Parse(bs[n]))
  {
    assert ParseAll(bs)[..|bs| - 1] == ParseAll(bs[..|bs| - 1]);
  }

  lemma {:induction false} FlatLines(bs: seq<Block>)
    requires AreBlocks(bs)
    ensures AreLines(Flat(bs))
  {
    if bs != [] {
      FlatLines(bs[1..]);
      assert IsBlock(bs[0]) && Flat(bs) == bs[0] + [""] + Flat(bs[1..]);
    }
  }

  /** A cut among the lines keeps whole events, then lines that no blank line closes. */
  lemma {:induction false} CutBlocks(bs: seq<Block>, k: nat) returns (q: nat, rest: seq<string>)
    requires AreBlocks(bs)
    requires k <= |Flat(bs)|
    ensures q <= |bs| && Flat(bs)[..k] == Flat(bs[..q]) + rest && "" !in rest
    ensures k == |Flat(bs)| ==> q == |bs| && rest == []
  {
    if bs == [] {
      return 0, [];
    }
    var b := bs[0];
    if k <= |b| {
      assert IsBlock(b);
      q, rest := 0, b[..k];
      assert Flat(bs)[..k] == b[..k];
    } else {
      var q', rest' := CutBlocks(bs[1..], k - |b| - 1);
      assert Flat(bs)[..k] == b + [""] + Flat(bs[1..])[..k - |b| - 1];
      assert bs[..q' + 1][1..] == bs[1..][..q'];
      q, rest := q' + 1, rest';
    }
  }

  function Wire(bs: seq<Block>): string { Unlines(Flat(bs)) }

  lemma {:induction false} FeedUnclosed(judge: Judge, r: Reader, ls: seq<string>)
    requires "" !in ls
    ensures SameButFields(Feed(judge, r, ls), r)
  {
    if ls != [] {
      FeedUnclosed(judge, r, ls[..|ls| - 1]);
      assert ls[|ls| - 1] in ls;
    }
  }

  /** Cut at any character, a stream delivers exactly a prefix of its events. */
  lemma CutDeliversPrefix(judge: Judge, logged: seq<string>, bs: seq<Block>, cut: nat) returns (q: nat)
    requires AreBlocks(bs)
    requires cut <= |Wire(bs)|
    ensures q <= |bs|
    ensures SameButFields(Feed(judge, FreshReader(logged), Lines(Wire(bs)[..cut])),
                          DeliverAll(judge, FreshReader(logged), ParseAll(bs)[..q]))
    ensures cut == |Wire(bs)| ==> q == |bs|
  {
    var r := FreshReader(logged);
    FlatLines(bs);
    var k, tail := CutLines(Flat(bs), cut);
    var rest;
    q, rest := CutBlocks(bs, k);
    var whole := Flat(bs[..q]);
    assert Lines(Wire(bs)[..cut]) == whole + (rest + tail);
    FeedConcat(judge, r, whole, rest + tail);
    FeedUnclosed(judge, Feed(judge, r, whole), rest + tail);
    FeedBlocks(judge, r, bs[..q]);
    assert ParseAll(bs[..q]) == ParseAll(bs)[..q];
  }

  // ---------------------------------------------------------------------------------------------
  // What a delivered prefix leaves behind
  // ---------------------------------------------------------------------------------------------

  /** Events before the first one whose handling raises: the only ones any connection can log. */
  function Reachable(judge: Judge, es: seq<Event>): (n: nat)
    ensures n <= |es|
    ensures forall i :: 0 <= i < n ==> !IsRaising(judge, es[i])
    ensures n < |es| ==> IsRaising(judge, es[n])
  {
    if es == [] then 0
    else
      var n := Reachable(judge, es[..|es| - 1]);
      if n < |es| - 1 || IsRaising(judge, es[|es| - 1]) then n else |es|
  }

  lemma {:induction false} ReachableIs(judge: Judge, es: seq<Event>, n: nat)
    requires n <= |es|
    requires forall i :: 0 <= i < n ==> !IsRaising(judge, es[i])
    requires n < |es| ==> IsRaising(judge, es[n])
    ensures Reachable(judge, es) == n
  {
    if es != [] {
      ReachableIs(judge, es[..|es| - 1], Min(n, |es| - 1));
    }
  }

  lemma {:induction false} DeliveryLogs(judge: Judge, r: Reader, es: seq<Event>)
    requires !r.raised
    ensures var d, n := DeliverAll(judge, r, es), Reachable(judge, es);
      && d.raised == (n < |es|)
      && d.logged == r.logged + HandledIn(judge, es[..n])
      && d.emitted == r.emitted + |HandledIn(judge, es[..n])|
  {
    if es != [] {
      var m := |es| - 1;
      DeliveryLogs(judge, r, es[..m]);
      var n := Reachable(judge, es[..m]);
      assert es[..m][..n] == es[..n];
      if n == m && !IsRaising(judge, es[m]) {
        assert es[..m + 1] == es;
      }
    }
  }

  /** Event h moved the cursor and no later loggable event has an id field, or none has one at all. */
  ghost predicate CursorMoved(judge: Judge, es: seq<Event>, h: nat, before: Option<string>, after: Option<string>) {
    if h < |es| && IsHandled(judge, es[h]) && es[h].hasId then
      && after == es[h].id
      && forall i :: h < i < |es| && IsHandled(judge, es[i]) ==> !es[i].hasId
    else
      && after == before
      && forall i :: 0 <= i < |es| && IsHandled(judge, es[i]) ==> !es[i].hasId
  }

  lemma {:induction false} DeliveryCursor(judge: Judge, r: Reader, es: seq<Event>, before: Option<string>)
    returns (h: nat)
    requires !r.raised && !r.cursorUpdated && Reachable(judge, es) == |es|
    ensures h <= |es|
    ensures var d := DeliverAll(judge, r, es);
      && d.cursorUpdated == (h < |es|)
      && CursorMoved(judge, es, h, before, if d.cursorUpdated then d.lastId else before)
      && (d.cursorUpdated ==> IsHandled(judge, es[h]) && es[h].hasId)
  {
    if es == [] {
      return 0;
    }
    var m := |es| - 1;
    ReachableIs(judge, es[..m], m);
    h := DeliveryCursor(judge, r, es[..m], before);
    DeliveryLogs(judge, r, es[..m]);
    if IsHandled(judge, es[m]) && es[m].hasId {
      h := m;
    } else if h == m {
      h := |es|;
    }
  }

  lemma {:induction false} NothingHandled(judge: Judge, es: seq<Event>)
    requires forall e <- es :: !IsHandled(judge, e)
    ensures HandledIn(judge, es) == []
  {
    if es != [] {
      assert es[|es| - 1] in es;
      NothingHandled(judge, es[..|es| - 1]);
    }
  }

  lemma HandledMonotone(judge: Judge, es: seq<Event>, i: nat, j: nat)
    requires i <= j <= |es|
    ensures HandledIn(judge, es[..j]) == HandledIn(judge, es[..i]) + HandledIn(judge, es[i..j])
  {
    assert es[..j] == es[..i] + es[i..j];
    HandledConcat(judge, es[..i], es[i..j]);
  }

  // ---------------------------------------------------------------------------------------------
  // The reconnect loop
  // ---------------------------------------------------------------------------------------------

  datatype Status = Running | Completed | Failed

  /** One round of the loop: where the stream ends, and the job status read after it. */
  datatype Connection = Connection(cut: nat, status: Status)

  datatype Outcome = Reconnecting | Finished | ProvisioningError | Crashed

  const SSE_RECONNECT_DELAY: nat := 2
  const SSE_RECONNECT_MAX_DELAY: nat := 30

  /** The loop's variables, the log, the delays slept, and which streams logged something. */
  datatype Session = Session(
    logged: seq<string>, lastId: Option<string>, delay: nat, slept: seq<nat>,
    productive: seq<bool>, outcome: Outcome)

  function StartSession(logged: seq<string>): Session {
    Session(logged, None, SSE_RECONNECT_DELAY, [], [], Reconnecting)
  }

  /** After an exception nothing more is read. */
  lemma FeedEnds(judge: Judge, r: Reader, lines: seq<string>, n: nat)
    requires n <= |lines| && Feed(judge, r, lines[..n]).raised
    ensures Feed(judge, r, lines) == Feed(judge, r, lines[..n])
  {
    FeedRaised(judge, Feed(judge, r, lines[..n]), lines[n..]);
    FeedConcat(judge, r, lines[..n], lines[n..]);
    assert lines[..n] + lines[n..] == lines;
  }

  /** Where the control host resumes: after the event that carries the given id. */
  function Resume(es: seq<Event>, lastId: Option<string>): (n: nat)
    ensures n <= |es|
    ensures lastId.None? ==> n == 0
    ensures n > 0 ==> es[n - 1].id == lastId
  {
    if lastId.None? || es == [] then 0
    else if es[|es| - 1].id == lastId then |es|
    else Resume(es[..|es| - 1], lastId)
  }

  function Body(bs: seq<Block>, lastId: Option<string>, cut: nat): string
    requires AreBlocks(bs)
  {
    var text := Wire(bs[Resume(ParseAll(bs), lastId)..]);
    if cut <= |text| then text[..cut] else text
  }

  function NextDelay(delay: nat, emitted: nat): nat {
    if emitted > 0 then SSE_RECONNECT_DELAY else Min(delay * 2, SSE_RECONNECT_MAX_DELAY)
  }

  /** What the loop body makes of a finished stream and of the status read after it. */
  function Absorb(s: Session, r: Reader, status: Status): Session {
    if r.raised then s.(logged := r.logged, outcome := Crashed)
    else
      var s1 := s.(logged := r.logged, lastId := if r.cursorUpdated then r.lastId else s.lastId);
      match status
      case Running =>
        s1.(slept := s.slept + [s.delay], delay := NextDelay(s.delay, r.emitted),
            productive := s.productive + [r.emitted > 0])
      case Completed => s1.(outcome := Finished)
      case Failed => s1.(outcome := ProvisioningError)
  }

  function Connect(judge: Judge, bs: seq<Block>, s: Session, c: Connection): Session
    requires AreBlocks(bs)
  {
    if s.outcome != Reconnecting then s
    else Absorb(s, Feed(judge, FreshReader(s.logged), Lines(Body(bs, s.lastId, c.cut))), c.status)
  }

  function ConnectAll(judge: Judge, bs: seq<Block>, s: Session, cs: seq<Connection>): Session
    requires AreBlocks(bs)
  {
    if cs == [] then s
    else Connect(judge, bs, ConnectAll(judge, bs, s, cs[..|cs| - 1]), cs[|cs| - 1])
  }

  lemma ConnectAllSnoc(judge: Judge, bs: seq<Block>, s: Session, cs: seq<Connection>, c: Connection)
    requires AreBlocks(bs)
    ensures ConnectAll(judge, bs, s, cs + [c]) == Connect(judge, bs, ConnectAll(judge, bs, s, cs), c)
  {
    assert (cs + [c])[..|cs|] == cs;
  }

  /** The first connection after which the job is no longer running. */
  function FirstOver(cs: seq<Connection>): (k: nat)
    ensures k <= |cs| && forall i :: 0 <= i < k ==> cs[i].status == Running
    ensures k < |cs| ==> cs[k].status != Running
  {
    if cs == [] || cs[0].status != Running then 0 else 1 + FirstOver(cs[1..])
  }

  /** What a run without an exception comes to, given the statuses read: its outcome and how often it slept. */
  predicate IsOutcome(cs: seq<Connection>, outcome: Outcome, pauses: nat) {
    var k := FirstOver(cs);
    && (outcome == Finished <==> k < |cs| && cs[k].status == Completed)
    && (outcome == ProvisioningError <==> k < |cs| && cs[k].status == Failed)
    && (outcome == Reconnecting <==> k == |cs|)
    && pauses == k
  }

  class ControlHostConnector {
    const judge: Judge
    var logged: seq<string>

    constructor (judge: Judge)
      ensures this.judge == judge && logged == []
    {
      this.judge := judge;
      logged := [];
    }

    /** Parse and log one stream; an escaping exception is the flag raised. */
    method StreamSseLogs(text: string)
      returns (emitted: nat, cursorUpdated: bool, lastId: Option<string>, raised: bool)
      modifies this`logged
      ensures var r := Feed(judge, FreshReader(old(logged)), Lines(text));
        && logged == r.logged && emitted == r.emitted && cursorUpdated == r.cursorUpdated
        && lastId == r.lastId && raised == r.raised
    {
      emitted, cursorUpdated, lastId, raised := 0, false, None, false;
      var eventId: Option<string>, eventHasId, dataLines := None, false, [];
      var lines := Lines(text);
      ghost var start := FreshReader(logged);
      for n := 0 to |lines|
        invariant !raised
        invariant Feed(judge, start, lines[..n])
               == Reader(logged, emitted, cursorUpdated, lastId, Fields(eventId, eventHasId, dataLines), raised)
      {
        var line := lines[n];
        assert lines[..n + 1][..n] == lines[..n];
        if line == "" {
          if dataLines != [] {
            var payload := Join(dataLines);
            match judge(payload) {
              case Raises =>
                raised := true;
                FeedEnds(judge, start, lines, n + 1);
                return;
              case Malformed =>
              case Handled =>
                logged := logged + [payload];
                emitted := emitted + 1;
                if eventHasId {
                  lastId := eventId;
                  cursorUpdated := true;
                }
            }
          }
          eventId, eventHasId, dataLines := None, false, [];
        } else if line[0] == ':' {
        } else {
          var i := Colon(line);
          if i < |line| {
            var field, value := line[..i], StripOne(line[i + 1..]);
            if field == "id" {
              eventId := if value == "" then None else Some(value);
              eventHasId := true;
            } else if field == "data" {
              dataLines := dataLines + [value];
            }
          }
        }
      }
      assert lines[..|lines|] == lines;
    }

    /** Stream, check the job status, reconnect while it is running. */
    method Run(bs: seq<Block>, cs: seq<Connection>) returns (outcome: Outcome, slept: seq<nat>)
      requires AreBlocks(bs)
      modifies this`logged
      ensures var s := ConnectAll(judge, bs, StartSession(old(logged)), cs);
        logged == s.logged && outcome == s.outcome && slept == s.slept
      ensures outcome == Crashed || IsOutcome(cs, outcome, |slept|)
    {
      outcome := Reconnecting;
      var reconnectDelay := SSE_RECONNECT_DELAY;
      var lastId: Option<string> := None;
      slept := [];
      ghost var start := StartSession(logged);
      ghost var productive: seq<bool> := [];
      for n := 0 to |cs|
        invariant outcome == Reconnecting
        invariant ConnectAll(judge, bs, start, cs[..n])
               == Session(logged, lastId, reconnectDelay, slept, productive, outcome)
      {
        ghost var before := ConnectAll(judge, bs, start, cs[..n]);
        assert cs[..n + 1][..n] == cs[..n];
        var emitted, cursorUpdated, streamLastId, raised := StreamSseLogs(Body(bs, lastId, cs[n].cut));
        if raised {
          ConnectAllStops(judge, bs, start, cs, n + 1);
          outcome := Crashed;
          break;
        }
        if cursorUpdated {
          lastId := streamLastId;
        }
        match cs[n].status {
          case Running =>
            slept := slept + [reconnectDelay];
            reconnectDelay := NextDelay(reconnectDelay, emitted);
            productive := productive + [emitted > 0];
          case Completed =>
            ConnectAllStops(judge, bs, start, cs, n + 1);
            outcome := Finished;
            break;
          case Failed =>
            ConnectAllStops(judge, bs, start, cs, n + 1);
            outcome := ProvisioningError;
            break;
        }
      }
      assert cs[..|cs|] == cs;
      RunOutcome(judge, bs, start.logged, cs);
    }
  }

  lemma {:induction false} ConnectAllStops(judge: Judge, bs: seq<Block>, s: Session, cs: seq<Connection>, n: nat)
    requires AreBlocks(bs)
    requires n <= |cs| && ConnectAll(judge, bs, s, cs[..n]).outcome != Reconnecting
    ensures ConnectAll(judge, bs, s, cs) == ConnectAll(judge, bs, s, cs[..n])
    decreases |cs|
  {
    if n == |cs| {
      assert cs[..n] == cs;
    } else {
      var m := |cs| - 1;
      assert cs[..m][..n] == cs[..n];
      ConnectAllStops(judge, bs, s, cs[..m], n);
    }
  }

  /** The i-th stream lets an exception escape. */
  predicate RaisesIn(judge: Judge, bs: seq<Block>, logged: seq<string>, cs: seq<Connection>, i: nat)
    requires AreBlocks(bs) && i < |cs|
  {
    var s := ConnectAll(judge, bs, StartSession(logged), cs[..i]);
    Feed(judge, FreshReader(s.logged), Lines(Body(bs, s.lastId, cs[i].cut))).raised
  }

  /** How a status ends the run, if it does. */
  function EndOf(status: Status): Outcome {
    match status case Running => Reconnecting case Completed => Finished case Failed => ProvisioningError
  }

  /** What one connection makes of a session. */
  predicate Follows(s: Session, raises: bool, status: Status, t: Session) {
    if s.outcome != Reconnecting then t == s
    else if raises then t.outcome == Crashed
    else t.outcome == EndOf(status) && |t.slept| == |s.slept| + if status == Running then 1 else 0
  }

  /** The sessions one after the other, and which streams raised. */
  ghost predicate IsCourse(ss: seq<Session>, raises: seq<bool>, cs: seq<Connection>) {
    && |ss| == |cs| + 1 && |raises| == |cs|
    && ss[0].outcome == Reconnecting && ss[0].slept == []
    && forall i :: 0 <= i < |cs| ==> Follows(ss[i], raises[i], cs[i].status, ss[i + 1])
  }

  lemma {:induction false} WhileRunning(ss: seq<Session>, raises: seq<bool>, cs: seq<Connection>, n: nat)
    requires IsCourse(ss, raises, cs) && n <= FirstOver(cs)
    ensures if true in raises[..n] then ss[n].outcome == Crashed
            else ss[n].outcome == Reconnecting && |ss[n].slept| == n
  {
    if n > 0 {
      WhileRunning(ss, raises, cs, n - 1);
      assert raises[..n] == raises[..n - 1] + [raises[n - 1]];
      assert Follows(ss[n - 1], raises[n - 1], cs[n - 1].status, ss[n]);
    }
  }

  lemma {:induction false} StaysOver(ss: seq<Session>, raises: seq<bool>, cs: seq<Connection>, m: nat, n: nat)
    requires IsCourse(ss, raises, cs) && m <= n <= |cs| && ss[m].outcome != Reconnecting
    ensures ss[n] == ss[m]
    decreases n
  {
    if m < n {
      StaysOver(ss, raises, cs, m, n - 1);
      assert Follows(ss[n - 1], raises[n - 1], cs[n - 1].status, ss[n]);
    }
  }

  lemma CourseEnds(ss: seq<Session>, raises: seq<bool>, cs: seq<Connection>)
    requires IsCourse(ss, raises, cs)
    ensures var s, n := ss[|cs|], Min(FirstOver(cs) + 1, |cs|);
      && (s.outcome == Crashed || IsOutcome(cs, s.outcome, |s.slept|))
      && (s.outcome == Crashed <==> true in raises[..n]) && s == ss[n]
  {
    var k := FirstOver(cs);
    WhileRunning(ss, raises, cs, k);
    if k < |cs| {
      assert raises[..k + 1] == raises[..k] + [raises[k]];
      assert Follows(ss[k], raises[k], cs[k].status, ss[k + 1]);
      StaysOver(ss, raises, cs, k + 1, |cs|);
    }
  }

  lemma ConnectAllNext(judge: Judge, bs: seq<Block>, s: Session, cs: seq<Connection>, n: nat)
    requires AreBlocks(bs) && n < |cs|
    ensures ConnectAll(judge, bs, s, cs[..n + 1]) == Connect(judge, bs, ConnectAll(judge, bs, s, cs[..n]), cs[n])
  {
    assert cs[..n + 1] == cs[..n] + [cs[n]];
    ConnectAllSnoc(judge, bs, s, cs[..n], cs[n]);
  }

  lemma AbsorbFollows(s: Session, r: Reader, status: Status)
    requires s.outcome == Reconnecting
    ensures Follows(s, r.raised, status, Absorb(s, r, status))
  {
  }

  lemma ConnectFollows(judge: Judge, bs: seq<Block>, s: Session, c: Connection)
    requires AreBlocks(bs)
    ensures Follows(s, Feed(judge, FreshReader(s.logged), Lines(Body(bs, s.lastId, c.cut))).raised, c.status,
                    Connect(judge, bs, s, c))
  {
    if s.outcome == Reconnecting {
      AbsorbFollows(s, Feed(judge, FreshReader(s.logged), Lines(Body(bs, s.lastId, c.cut))), c.status);
    }
  }

  lemma NextFollows(judge: Judge, bs: seq<Block>, logged: seq<string>, cs: seq<Connection>, n: nat)
    requires AreBlocks(bs) && n < |cs|
    ensures Follows(ConnectAll(judge, bs, StartSession(logged), cs[..n]), RaisesIn(judge, bs, logged, cs, n),
                    cs[n].status, ConnectAll(judge, bs, StartSession(logged), cs[..n + 1]))
  {
    ConnectAllNext(judge, bs, StartSession(logged), cs, n);
    ConnectFollows(judge, bs, ConnectAll(judge, bs, StartSession(logged), cs[..n]), cs[n]);
  }

  lemma CourseOf(judge: Judge, bs: seq<Block>, logged: seq<string>, cs: seq<Connection>)
    returns (ss: seq<Session>, raises: seq<bool>)
    requires AreBlocks(bs)
    ensures IsCourse(ss, raises, cs)
    ensures forall i :: 0 <= i <= |cs| ==> ss[i] == ConnectAll(judge, bs, StartSession(logged), cs[..i])
    ensures forall i :: 0 <= i < |cs| ==> raises[i] == RaisesIn(judge, bs, logged, cs, i)
  {
    ss := seq(|cs| + 1, i requires 0 <= i <= |cs| => ConnectAll(judge, bs, StartSession(logged), cs[..i]));
    raises := seq(|cs|, i requires 0 <= i < |cs| => RaisesIn(judge, bs, logged, cs, i));
    forall i | 0 <= i < |cs|
      ensures Follows(ss[i], raises[i], cs[i].status, ss[i + 1])
    {
      NextFollows(judge, bs, logged, cs, i);
    }
  }

  /**
   The status that ends the run decides its outcome; an exception in a stream up to there is the only other end.
   Nothing happens after it.
   */
  lemma OutcomeIff(judge: Judge, bs: seq<Block>, logged: seq<string>, cs: seq<Connection>)
    requires AreBlocks(bs)
    ensures var s, n := ConnectAll(judge, bs, StartSession(logged), cs), Min(FirstOver(cs) + 1, |cs|);
      && (s.outcome == Crashed || IsOutcome(cs, s.outcome, |s.slept|))
      && (s.outcome == Crashed <==> exists i :: 0 <= i < n && RaisesIn(judge, bs, logged, cs, i))
      && s == ConnectAll(judge, bs, StartSession(logged), cs[..n])
  {
    var n := Min(FirstOver(cs) + 1, |cs|);
    var ss, raises := CourseOf(judge, bs, logged, cs);
    CourseEnds(ss, raises, cs);
    assert cs[..|cs|] == cs;
    assert true in raises[..n] <==> exists i :: 0 <= i < n && raises[i];
  }

  lemma RunOutcome(judge: Judge, bs: seq<Block>, logged: seq<string>, cs: seq<Connection>)
    requires AreBlocks(bs)
    ensures var s := ConnectAll(judge, bs, StartSession(logged), cs);
      s.outcome == Crashed || IsOutcome(cs, s.outcome, |s.slept|)
  {
    OutcomeIff(judge, bs, logged, cs);
  }

  // ---------------------------------------------------------------------------------------------
  // Exactly once
  // ---------------------------------------------------------------------------------------------

  /** No two events share an id. */
  ghost predicate UniqueIds(es: seq<Event>) {
    forall i, j :: 0 <= i < j < |es| && es[i].id.Some? ==> es[i].id != es[j].id
  }

  /** Every event that can be logged carries a non-empty id. */
  ghost predicate LoggableHaveIds(judge: Judge, es: seq<Event>) {
    forall i :: 0 <= i < Reachable(judge, es) && IsHandled(judge, es[i]) ==> es[i].hasId && es[i].id.Some?
  }

  /** The log holds the well-formed payloads of a prefix of the list: in order, no gap, no repeat. */
  ghost predicate IsPrefixLog(judge: Judge, es: seq<Event>, logged: seq<string>) {
    exists n :: 0 <= n <= Reachable(judge, es) && logged == HandledIn(judge, es[..n])
  }

  lemma {:induction false} ResumeAt(es: seq<Event>, h: nat)
    requires UniqueIds(es) && h < |es| && es[h].id.Some?
    ensures Resume(es, es[h].id) == h + 1
  {
    if h < |es| - 1 {
      ResumeAt(es[..|es| - 1], h);
    }
  }

  lemma AbsorbIgnoresFields(s: Session, r: Reader, d: Reader, status: Status)
    requires SameButFields(r, d)
    ensures Absorb(s, r, status) == Absorb(s, d, status)
  {
  }

  lemma SuffixDelivers(judge: Judge, logged: seq<string>, bs: seq<Block>, m: nat, cut: nat) returns (q: nat)
    requires AreBlocks(bs) && m <= |bs| && cut <= |Wire(bs[m..])|
    ensures m <= q <= |bs| && (cut == |Wire(bs[m..])| ==> q == |bs|)
    ensures SameButFields(Feed(judge, FreshReader(logged), Lines(Wire(bs[m..])[..cut])),
                          DeliverAll(judge, FreshReader(logged), ParseAll(bs)[m..q]))
  {
    var p := CutDeliversPrefix(judge, logged, bs[m..], cut);
    q := m + p;
    assert ParseAll(bs[m..])[..p] == ParseAll(bs)[m..q];
  }

  /** One connection delivers a run of the host's list, beginning at the resume point. */
  lemma ConnectDelivers(judge: Judge, bs: seq<Block>, s: Session, c: Connection) returns (q: nat)
    requires AreBlocks(bs)
    requires s.outcome == Reconnecting
    ensures var es := ParseAll(bs); var m := Resume(es, s.lastId);
      && m <= q <= |es|
      && Connect(judge, bs, s, c) == Absorb(s, DeliverAll(judge, FreshReader(s.logged), es[m..q]), c.status)
      && (c.cut >= |Wire(bs[m..])| ==> q == |es|)
  {
    var m := Resume(ParseAll(bs), s.lastId);
    var text := Wire(bs[m..]);
    q := SuffixDelivers(judge, s.logged, bs, m, Min(c.cut, |text|));
    assert text[..|text|] == text;
    AbsorbIgnoresFields(s, Feed(judge, FreshReader(s.logged), Lines(Body(bs, s.lastId, c.cut))),
                        DeliverAll(judge, FreshReader(s.logged), ParseAll(bs)[m..q]), c.status);
  }

  lemma ReachableFrom(judge: Judge, es: seq<Event>, m: nat, q: nat)
    requires m <= q <= |es| && m <= Reachable(judge, es)
    ensures var n := Reachable(judge, es);
      Reachable(judge, es[m..q]) == (if q <= n then q else n) - m
  {
    var n := Reachable(judge, es);
    var part, k := es[m..q], (if q <= n then q else n) - m;
    forall i | 0 <= i < k
      ensures !IsRaising(judge, part[i])
    {
      assert part[i] == es[m + i];
    }
    assert k < |part| ==> part[k] == es[m + k] && m + k == n;
    ReachableIs(judge, part, k);
  }

  /** While the loop runs, the log is exactly what precedes the resume point. */
  ghost predicate SessionInv(judge: Judge, es: seq<Event>, s: Session) {
    if s.outcome == Crashed then IsPrefixLog(judge, es, s.logged)
    else
      && Resume(es, s.lastId) <= Reachable(judge, es)
      && s.logged == HandledIn(judge, es[..Resume(es, s.lastId)])
  }

  /** Delivery of es[m..q]; n is where handling raised, if it did. */
  lemma DeliveryRange(judge: Judge, es: seq<Event>, logged: seq<string>, m: nat, q: nat) returns (n: nat)
    requires m <= q <= |es| && m <= Reachable(judge, es)
    ensures m <= n <= q && n == if q <= Reachable(judge, es) then q else Reachable(judge, es)
    ensures var d := DeliverAll(judge, FreshReader(logged), es[m..q]);
      && d.logged == logged + HandledIn(judge, es[m..n])
      && d.raised == (n < q)
      && (n == q ==> Reachable(judge, es[m..q]) == q - m)
  {
    DeliveryLogs(judge, FreshReader(logged), es[m..q]);
    ReachableFrom(judge, es, m, q);
    n := m + Reachable(judge, es[m..q]);
    assert es[m..q][..n - m] == es[m..n];
  }

  /** The same on top of a log that covers es[..m]. */
  lemma DeliveryExtends(judge: Judge, es: seq<Event>, logged: seq<string>, m: nat, q: nat) returns (n: nat)
    requires m <= q <= |es| && m <= Reachable(judge, es)
    requires logged == HandledIn(judge, es[..m])
    ensures m <= n <= q && n <= Reachable(judge, es)
    ensures var d := DeliverAll(judge, FreshReader(logged), es[m..q]);
      && d.logged == HandledIn(judge, es[..n])
      && d.raised == (n < q)
      && (n == q ==> Reachable(judge, es[m..q]) == q - m)
  {
    n := DeliveryRange(judge, es, logged, m, q);
    HandledMonotone(judge, es, m, n);
  }

  lemma AbsorbKeepsInv(judge: Judge, es: seq<Event>, s: Session, q: nat, status: Status)
    requires UniqueIds(es) && LoggableHaveIds(judge, es)
    requires SessionInv(judge, es, s) && s.outcome == Reconnecting
    requires Resume(es, s.lastId) <= q <= |es|
    ensures SessionInv(judge, es,
      Absorb(s, DeliverAll(judge, FreshReader(s.logged), es[Resume(es, s.lastId)..q]), status))
  {
    var m := Resume(es, s.lastId);
    var d := DeliverAll(judge, FreshReader(s.logged), es[m..q]);
    var n := DeliveryExtends(judge, es, s.logged, m, q);
    if n == q {
      var h := DeliveryCursor(judge, FreshReader(s.logged), es[m..q], s.lastId);
      CursorKeepsPace(judge, es, m, q, h, s.lastId, if d.cursorUpdated then d.lastId else s.lastId);
    }
  }

  lemma ConnectKeepsInv(judge: Judge, bs: seq<Block>, s: Session, c: Connection)
    requires AreBlocks(bs)
    requires UniqueIds(ParseAll(bs)) && LoggableHaveIds(judge, ParseAll(bs))
    requires SessionInv(judge, ParseAll(bs), s)
    ensures SessionInv(judge, ParseAll(bs), Connect(judge, bs, s, c))
  {
    if s.outcome == Reconnecting {
      var q := ConnectDelivers(judge, bs, s, c);
      AbsorbKeepsInv(judge, ParseAll(bs), s, q, c.status);
    }
  }

  /** Wherever the cursor now points, nothing loggable lies between it and the end of the stream. */
  lemma CursorKeepsPace(judge: Judge, es: seq<Event>, m: nat, q: nat, h: nat, was: Option<string>, next: Option<string>)
    requires UniqueIds(es) && LoggableHaveIds(judge, es)
    requires m == Resume(es, was) && m <= q <= Reachable(judge, es)
    requires CursorMoved(judge, es[m..q], h, was, next)
    ensures Resume(es, next) <= q && HandledIn(judge, es[..q]) == HandledIn(judge, es[..Resume(es, next)])
  {
    var part := es[m..q];
    if h < |part| && IsHandled(judge, part[h]) && part[h].hasId {
      ResumeAt(es, m + h);
      SkipPart(judge, es, m, m + h + 1, q);
    } else {
      SkipPart(judge, es, m, m, q);
    }
  }

  lemma SkipPart(judge: Judge, es: seq<Event>, m: nat, k: nat, q: nat)
    requires m <= k <= q <= |es| && forall i :: k - m <= i < q - m ==> !IsHandled(judge, es[m..q][i])
    ensures HandledIn(judge, es[..q]) == HandledIn(judge, es[..k])
  {
    forall i | k <= i < q
      ensures !IsHandled(judge, es[i])
    {
      assert es[m..q][i - m] == es[i];
    }
    SkipUnhandled(judge, es, k, q);
  }

  lemma SkipUnhandled(judge: Judge, es: seq<Event>, k: nat, q: nat)
    requires k <= q <= |es| && forall i :: k <= i < q ==> !IsHandled(judge, es[i])
    ensures HandledIn(judge, es[..q]) == HandledIn(judge, es[..k])
  {
    NothingHandled(judge, es[k..q]);
    HandledMonotone(judge, es, k, q);
  }

  lemma {:induction false} ConnectAllKeepsInv(judge: Judge, bs: seq<Block>, cs: seq<Connection>)
    requires AreBlocks(bs)
    requires UniqueIds(ParseAll(bs)) && LoggableHaveIds(judge, ParseAll(bs))
    ensures SessionInv(judge, ParseAll(bs), ConnectAll(judge, bs, StartSession([]), cs))
  {
    if cs == [] {
      assert ParseAll(bs)[..0] == [];
    } else {
      ConnectAllKeepsInv(judge, bs, cs[..|cs| - 1]);
      ConnectKeepsInv(judge, bs, ConnectAll(judge, bs, StartSession([]), cs[..|cs| - 1]), cs[|cs| - 1]);
    }
  }

  /** Over any number of connections, cut anywhere: the payloads of a prefix, once each, in order. */
  lemma ExactlyOnce(judge: Judge, bs: seq<Block>, cs: seq<Connection>)
    requires AreBlocks(bs)
    requires UniqueIds(ParseAll(bs)) && LoggableHaveIds(judge, ParseAll(bs))
    ensures IsPrefixLog(judge, ParseAll(bs), ConnectAll(judge, bs, StartSession([]), cs).logged)
  {
    ConnectAllKeepsInv(judge, bs, cs);
  }

  /** If the last stream was not cut and nothing raised, every well-formed payload has been logged. */
  lemma CompleteStreamLogsAll(judge: Judge, bs: seq<Block>, cs: seq<Connection>, last: Connection)
    requires AreBlocks(bs)
    requires UniqueIds(ParseAll(bs)) && LoggableHaveIds(judge, ParseAll(bs))
    requires var s := ConnectAll(judge, bs, StartSession([]), cs);
      && s.outcome == Reconnecting
      && last.cut >= |Wire(bs[Resume(ParseAll(bs), s.lastId)..])|
      && Connect(judge, bs, s, last).outcome != Crashed
    ensures ConnectAll(judge, bs, StartSession([]), cs + [last]).logged == HandledIn(judge, ParseAll(bs))
  {
    var s := ConnectAll(judge, bs, StartSession([]), cs);
    ConnectAllSnoc(judge, bs, StartSession([]), cs, last);
    ConnectAllKeepsInv(judge, bs, cs);
    var q := ConnectDelivers(judge, bs, s, last);
    FullDeliveryLogsAll(judge, ParseAll(bs), s, q, last.status);
  }

  lemma FullDeliveryLogsAll(judge: Judge, es: seq<Event>, s: Session, q: nat, status: Status)
    requires SessionInv(judge, es, s) && s.outcome == Reconnecting && q == |es|
    requires Absorb(s, DeliverAll(judge, FreshReader(s.logged), es[Resume(es, s.lastId)..q]), status).outcome != Crashed
    ensures Absorb(s, DeliverAll(judge, FreshReader(s.logged), es[Resume(es, s.lastId)..q]), status).logged
         == HandledIn(judge, es)
  {
    var n := DeliveryExtends(judge, es, s.logged, Resume(es, s.lastId), q);
    assert es[..q] == es;
  }

  /** Two connections: one that ends right after event k, then a full one. */
  function CutAfter(bs: seq<Block>, k: nat): seq<Connection>
    requires k < |bs|
  {
    [Connection(|Wire(bs[..k + 1])|, Running), Connection(|Wire(bs)|, Running)]
  }

  /** A loggable event without an id is logged again by the next full stream. */
  lemma MissingIdRepeats(judge: Judge, bs: seq<Block>, k: nat)
    requires AreBlocks(bs) && UniqueIds(ParseAll(bs))
    requires var es := ParseAll(bs);
      k < Reachable(judge, es) && IsHandled(judge, es[k]) && !(es[k].hasId && es[k].id.Some?)
    ensures !IsPrefixLog(judge, ParseAll(bs), ConnectAll(judge, bs, StartSession([]), CutAfter(bs, k)).logged)
  {
    var es := ParseAll(bs);
    var f := Reachable(judge, es);
    var s1 := FirstOfCutAfter(judge, bs, k);
    var m := Resume(es, s1.lastId);
    var first, second := CutAfter(bs, k)[..1], CutAfter(bs, k)[1];
    assert CutAfter(bs, k) == first + [second];
    ConnectAllSnoc(judge, bs, StartSession([]), first, second);
    WireSuffix(bs, m);
    var q := ConnectDelivers(judge, bs, s1, second);
    SecondLogs(judge, es, s1, second.status);
    RepeatIsLonger(judge, es, m, k, f);
  }

  lemma SecondLogs(judge: Judge, es: seq<Event>, s: Session, status: Status)
    requires Resume(es, s.lastId) <= Reachable(judge, es)
    ensures var m := Resume(es, s.lastId);
      Absorb(s, DeliverAll(judge, FreshReader(s.logged), es[m..|es|]), status).logged
      == s.logged + HandledIn(judge, es[m..Reachable(judge, es)])
  {
    var n := DeliveryRange(judge, es, s.logged, Resume(es, s.lastId), |es|);
  }

  lemma {:induction false} WireSuffix(bs: seq<Block>, m: nat)
    requires m <= |bs|
    ensures |Wire(bs[m..])| <= |Wire(bs)|
  {
    FlatConcat(bs[..m], bs[m..]);
    assert bs[..m] + bs[m..] == bs;
    UnlinesSuffix(Flat(bs[..m]), Flat(bs[m..]));
  }

  lemma {:induction false} UnlinesSuffix(a: seq<string>, b: seq<string>)
    ensures Unlines(a + b) == Unlines(a) + Unlines(b)
  {
    if a == [] {
      assert a + b == b;
    } else {
      UnlinesSuffix(a[1..], b);
      assert (a + b)[1..] == a[1..] + b;
    }
  }

  /** After the first of the two streams the cursor is not beyond event k, yet k has been logged. */
  lemma FirstOfCutAfter(judge: Judge, bs: seq<Block>, k: nat) returns (s1: Session)
    requires AreBlocks(bs) && UniqueIds(ParseAll(bs))
    requires var es := ParseAll(bs);
      k < Reachable(judge, es) && IsHandled(judge, es[k]) && !(es[k].hasId && es[k].id.Some?)
    ensures var es := ParseAll(bs);
      && s1 == ConnectAll(judge, bs, StartSession([]), CutAfter(bs, k)[..1])
      && s1.outcome == Reconnecting && s1.logged == HandledIn(judge, es[..k + 1])
      && Resume(es, s1.lastId) <= k
  {
    var s0 := StartSession([]);
    var c := CutAfter(bs, k)[0];
    ConnectAllSnoc(judge, bs, s0, [], c);
    assert CutAfter(bs, k)[..1] == [] + [c];
    s1 := Connect(judge, bs, s0, c);
    FullPrefixDelivered(judge, bs, k + 1);
    assert bs[0..] == bs;
    AbsorbIgnoresFields(s0, Feed(judge, FreshReader([]), Lines(Body(bs, None, c.cut))),
                        DeliverAll(judge, FreshReader([]), ParseAll(bs)[..k + 1]), Running);
    CursorStaysBefore(judge, ParseAll(bs), k);
  }

  lemma CursorStaysBefore(judge: Judge, es: seq<Event>, k: nat)
    requires UniqueIds(es) && k < Reachable(judge, es) && IsHandled(judge, es[k]) && !(es[k].hasId && es[k].id.Some?)
    ensures var d := DeliverAll(judge, FreshReader([]), es[..k + 1]);
      && !d.raised && d.logged == HandledIn(judge, es[..k + 1])
      && (d.cursorUpdated ==> Resume(es, d.lastId) <= k)
  {
    var part := es[..k + 1];
    DeliveryLogs(judge, FreshReader([]), part);
    ReachableIs(judge, part, k + 1);
    assert part[..k + 1] == part;
    var h := DeliveryCursor(judge, FreshReader([]), part, None);
    if h < k && es[h].id.Some? {
      ResumeAt(es, h);
    }
  }

  lemma FullPrefixDelivered(judge: Judge, bs: seq<Block>, n: nat)
    requires AreBlocks(bs) && n <= |bs|
    ensures |Wire(bs[..n])| <= |Wire(bs)|
    ensures SameButFields(Feed(judge, FreshReader([]), Lines(Wire(bs)[..|Wire(bs[..n])|])),
                          DeliverAll(judge, FreshReader([]), ParseAll(bs)[..n]))
  {
    FlatConcat(bs[..n], bs[n..]);
    assert bs[..n] + bs[n..] == bs;
    UnlinesSuffix(Flat(bs[..n]), Flat(bs[n..]));
    var text := Wire(bs[..n]);
    assert Wire(bs)[..|text|] == text == text[..|text|];
    var q := CutDeliversPrefix(judge, [], bs[..n], |text|);
    assert ParseAll(bs[..n])[..n] == ParseAll(bs)[..n];
  }

  lemma RepeatIsLonger(judge: Judge, es: seq<Event>, m: nat, k: nat, f: nat)
    requires m <= k < f == Reachable(judge, es) && IsHandled(judge, es[k])
    ensures !IsPrefixLog(judge, es, HandledIn(judge, es[..k + 1]) + HandledIn(judge, es[m..f]))
  {
    RepeatCount(judge, es, m, k, f);
    forall n | 0 <= n <= f
      ensures |HandledIn(judge, es[..n])| <= |HandledIn(judge, es[..f])|
    {
      HandledMonotone(judge, es, n, f);
    }
  }

  lemma RepeatCount(judge: Judge, es: seq<Event>, m: nat, k: nat, f: nat)
    requires m <= k < f <= |es| && IsHandled(judge, es[k])
    ensures |HandledIn(judge, es[..f])| < |HandledIn(judge, es[..k + 1])| + |HandledIn(judge, es[m..f])|
  {
    HandledMonotone(judge, es, k + 1, f);
    var again := es[m..k + 1];
    assert es[m..f] == again + es[k + 1..f];
    HandledConcat(judge, again, es[k + 1..f]);
    assert again[|again| - 1] == es[k];
  }

  /** Exactly once over every run, if and only if every event that can be logged carries a non-empty id. */
  lemma ExactlyOnceIff(judge: Judge, bs: seq<Block>)
    requires AreBlocks(bs) && UniqueIds(ParseAll(bs))
    ensures LoggableHaveIds(judge, ParseAll(bs))
       <==> forall cs :: IsPrefixLog(judge, ParseAll(bs), ConnectAll(judge, bs, StartSession([]), cs).logged)
  {
    var es := ParseAll(bs);
    if LoggableHaveIds(judge, es) {
      forall cs
        ensures IsPrefixLog(judge, es, ConnectAll(judge, bs, StartSession([]), cs).logged)
      {
        ExactlyOnce(judge, bs, cs);
      }
    } else {
      var k :| 0 <= k < Reachable(judge, es) && IsHandled(judge, es[k]) && !(es[k].hasId && es[k].id.Some?);
      MissingIdRepeats(judge, bs, k);
    }
  }

  // ---------------------------------------------------------------------------------------------
  // Reconnect delays
  // ---------------------------------------------------------------------------------------------

  /** The delay after a number of consecutive streams that logged nothing. */
  function Backoff(silent: nat): (d: nat)
    ensures SSE_RECONNECT_DELAY <= d <= SSE_RECONNECT_MAX_DELAY
  {
    if silent == 0 then SSE_RECONNECT_DELAY else Min(Backoff(silent - 1) * 2, SSE_RECONNECT_MAX_DELAY)
  }

  function TrailingSilent(productive: seq<bool>): nat {
    if productive == [] || productive[|productive| - 1] then 0
    else 1 + TrailingSilent(productive[..|productive| - 1])
  }

  ghost predicate BacksOff(s: Session) {
    && |s.slept| == |s.productive|
    && s.delay == Backoff(TrailingSilent(s.productive))
    && forall n :: 0 <= n < |s.slept| ==> s.slept[n] == Backoff(TrailingSilent(s.productive[..n]))
  }

  lemma AbsorbBacksOff(s: Session, r: Reader, status: Status)
    requires BacksOff(s)
    ensures BacksOff(Absorb(s, r, status))
  {
    var s' := Absorb(s, r, status);
    if |s'.slept| > |s.slept| {
      assert s'.productive[..|s.productive|] == s.productive;
      forall n | 0 <= n < |s.slept|
        ensures s'.slept[n] == Backoff(TrailingSilent(s'.productive[..n]))
      {
        assert s'.productive[..n] == s.productive[..n];
      }
    }
  }

  lemma {:induction false} FeedEmits(judge: Judge, r: Reader, lines: seq<string>)
    ensures |Feed(judge, r, lines).logged| - |r.logged| == Feed(judge, r, lines).emitted - r.emitted
  {
    if lines != [] {
      FeedEmits(judge, r, lines[..|lines| - 1]);
    }
  }

  /** The n-th stream added something to the log. */
  predicate LogsIn(judge: Judge, bs: seq<Block>, logged: seq<string>, cs: seq<Connection>, n: nat)
    requires AreBlocks(bs) && n < |cs|
  {
    var start := StartSession(logged);
    |ConnectAll(judge, bs, start, cs[..n + 1]).logged| > |ConnectAll(judge, bs, start, cs[..n]).logged|
  }

  ghost predicate CountsProductive(judge: Judge, bs: seq<Block>, logged: seq<string>, cs: seq<Connection>, s: Session)
    requires AreBlocks(bs)
  {
    && |s.productive| <= |cs| && (s.outcome == Reconnecting ==> |s.productive| == |cs|)
    && forall n :: 0 <= n < |s.productive| ==> s.productive[n] == LogsIn(judge, bs, logged, cs, n)
  }

  lemma ConnectProductive(judge: Judge, bs: seq<Block>, s: Session, c: Connection)
    requires AreBlocks(bs)
    ensures var t := Connect(judge, bs, s, c);
      if t.outcome == Reconnecting then
        s.outcome == Reconnecting && t.productive == s.productive + [|t.logged| > |s.logged|]
      else t.productive == s.productive
  {
    FeedEmits(judge, FreshReader(s.logged), Lines(Body(bs, s.lastId, c.cut)));
  }

  lemma LogsInSnoc(judge: Judge, bs: seq<Block>, logged: seq<string>, cs: seq<Connection>, c: Connection)
    requires AreBlocks(bs)
    ensures forall n :: 0 <= n < |cs| ==>
      LogsIn(judge, bs, logged, cs + [c], n) == LogsIn(judge, bs, logged, cs, n)
    ensures LogsIn(judge, bs, logged, cs + [c], |cs|)
         == (|ConnectAll(judge, bs, StartSession(logged), cs + [c]).logged|
             > |ConnectAll(judge, bs, StartSession(logged), cs).logged|)
  {
    assert (cs + [c])[..|cs| + 1] == cs + [c] && (cs + [c])[..|cs|] == cs;
    forall n | 0 <= n < |cs|
      ensures LogsIn(judge, bs, logged, cs + [c], n) == LogsIn(judge, bs, logged, cs, n)
    {
      assert (cs + [c])[..n] == cs[..n] && (cs + [c])[..n + 1] == cs[..n + 1];
    }
  }

  lemma ProductiveNext(judge: Judge, bs: seq<Block>, logged: seq<string>, cs: seq<Connection>, c: Connection)
    requires AreBlocks(bs)
    requires CountsProductive(judge, bs, logged, cs, ConnectAll(judge, bs, StartSession(logged), cs))
    ensures CountsProductive(judge, bs, logged, cs + [c], ConnectAll(judge, bs, StartSession(logged), cs + [c]))
  {
    var s := ConnectAll(judge, bs, StartSession(logged), cs);
    ConnectAllSnoc(judge, bs, StartSession(logged), cs, c);
    ConnectProductive(judge, bs, s, c);
    LogsInSnoc(judge, bs, logged, cs, c);
  }

  /** The pause after stream n depends on the streams before it: stream n itself counts for the next one. */
  lemma {:induction false} DelaysBackOff(judge: Judge, bs: seq<Block>, logged: seq<string>, cs: seq<Connection>)
    requires AreBlocks(bs)
    ensures var s := ConnectAll(judge, bs, StartSession(logged), cs);
      BacksOff(s) && CountsProductive(judge, bs, logged, cs, s)
  {
    if cs != [] {
      var init, c := cs[..|cs| - 1], cs[|cs| - 1];
      var s := ConnectAll(judge, bs, StartSession(logged), init);
      DelaysBackOff(judge, bs, logged, init);
      assert cs == init + [c];
      ProductiveNext(judge, bs, logged, init, c);
      if s.outcome == Reconnecting {
        AbsorbBacksOff(s, Feed(judge, FreshReader(s.logged), Lines(Body(bs, s.lastId, c.cut))), c.status);
      }
    }
  }
}
