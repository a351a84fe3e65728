/**
 The secrets store in a document database, against a map whose entries vanish when they expire.

 The database may refuse or lose any operation, and removes expired documents whenever it likes; encryption
 may fail.
 */
module SecretsStore {
  import opened Basics

  // ---------------------------------------------------------------------------------------------
  // Collection names
  // ---------------------------------------------------------------------------------------------

  function Replace(s: string, c: char, text: string): string {
    if s == [] then [] else (if s[0] == c then text else [s[0]]) + Replace(s[1..], c, text)
  }

  function NormalizeNamespace(ns: string): string {
    Replace(Replace(Replace(ns, '@', "_at_"), '.', "_dot_"), '$', "_dollar_")
  }

  function Code(c: char): string {
    match c
    case '@' => "_at_"
    case '.' => "_dot_"
    case '$' => "_dollar_"
    case _ => [c]
  }

  function Coded(s: string): string {
    if s == [] then [] else Code(s[0]) + Coded(s[1..])
  }

  lemma {:induction false} ReplaceConcat(a: string, b: string, c: char, text: string)
    ensures Replace(a + b, c, text) == Replace(a, c, text) + Replace(b, c, text)
  {
    if a == [] {
      assert a + b == b;
    } else {
      assert (a + b)[0] == a[0] && (a + b)[1..] == a[1..] + b;
      ReplaceConcat(a[1..], b, c, text);
    }
  }

  lemma {:induction false} ReplaceNothing(s: string, c: char, text: string)
    requires c !in s
    ensures Replace(s, c, text) == s
  {
    if s != [] {
      ReplaceNothing(s[1..], c, text);
    }
  }

  /** The replacements do not disturb each other. */
  lemma {:induction false} NormalizeIsCoded(ns: string)
    ensures NormalizeNamespace(ns) == Coded(ns)
  {
    if ns != [] {
      var c, rest := ns[0], ns[1..];
      NormalizeIsCoded(rest);
      var at := if c == '@' then "_at_" else [c];
      var ats := Replace(rest, '@', "_at_");
      var dots := Replace(ats, '.', "_dot_");
      ReplaceConcat(at, ats, '.', "_dot_");
      ReplaceConcat(Replace(at, '.', "_dot_"), dots, '$', "_dollar_");
      CodeOne(c);
    }
  }

  lemma CodeOne(c: char)
    ensures Replace(Replace(if c == '@' then "_at_" else [c], '.', "_dot_"), '$', "_dollar_") == Code(c)
  {
    if c == '@' {
      ReplaceNothing("_at_", '.', "_dot_");
      ReplaceNothing("_at_", '$', "_dollar_");
    } else {
      ReplaceOne(c, '.', "_dot_");
      ReplaceOne(c, '$', "_dollar_");
      ReplaceNothing("_dot_", '$', "_dollar_");
    }
  }

  lemma ReplaceOne(d: char, c: char, text: string)
    ensures Replace([d], c, text) == if d == c then text else [d]
  {
    assert [d][1..] == [];
  }

  /** Without underscores, a name can be read back from its code. */
  lemma {:induction false} CodedInjective(s: string, t: string)
    requires '_' !in s && '_' !in t && Coded(s) == Coded(t)
    ensures s == t
  {
    if s == [] || t == [] {
      assert |Coded(s)| == |Coded(t)|;
    } else {
      var x, y := Code(s[0]), Code(t[0]);
      var sr, tr := Coded(s[1..]), Coded(t[1..]);
      SameCode(s[0], sr, t[0], tr);
      assert (x + sr)[|x|..] == sr && (y + tr)[|y|..] == tr;
      CodedInjective(s[1..], t[1..]);
    }
  }

  lemma SameCode(c: char, a: string, d: char, b: string)
    requires c != '_' && d != '_' && Code(c) + a == Code(d) + b
    ensures c == d
  {
    var x, y := Code(c), Code(d);
    assert (x + a)[0] == x[0] && (y + b)[0] == y[0];
    assert |x| > 3 ==> (x + a)[1] == x[1] && (x + a)[3] == x[3];
    assert |y| > 3 ==> (y + b)[1] == y[1] && (y + b)[3] == y[3];
  }

  /** Two names without underscores share a collection only if they are the same. */
  lemma NormalizeInjective(s: string, t: string)
    requires '_' !in s && '_' !in t
    ensures NormalizeNamespace(s) == NormalizeNamespace(t) <==> s == t
  {
    NormalizeIsCoded(s);
    NormalizeIsCoded(t);
    if NormalizeNamespace(s) == NormalizeNamespace(t) {
      CodedInjective(s, t);
    }
  }

  lemma NormalizeChars()
    ensures NormalizeNamespace("@") == "_at_" && NormalizeNamespace(".") == "_dot_"
    ensures NormalizeNamespace("$") == "_dollar_"
  {
    CodeOne('@');
    CodeOne('.');
    CodeOne('$');
    ReplaceOne('@', '@', "_at_");
    ReplaceOne('.', '@', "_at_");
    ReplaceOne('$', '@', "_at_");
  }

  predicate Plain(s: string) { '@' !in s && '.' !in s && '$' !in s }

  lemma {:induction false} CodedPlain(s: string)
    requires Plain(s)
    ensures Coded(s) == s
  {
    if s != [] {
      CodedPlain(s[1..]);
    }
  }

  lemma {:induction false} CodedIsPlain(s: string)
    ensures Plain(Coded(s))
  {
    if s != [] {
      CodedIsPlain(s[1..]);
      assert Plain(Code(s[0]));
    }
  }

  /** A name with a replaced character shares its collection with the name that spells the replacement out. */
  lemma NormalizeCollides(s: string)
    ensures NormalizeNamespace(NormalizeNamespace(s)) == NormalizeNamespace(s)
    ensures Plain(s) <==> NormalizeNamespace(s) == s
  {
    NormalizeIsCoded(s);
    NormalizeIsCoded(Coded(s));
    CodedIsPlain(s);
    CodedPlain(Coded(s));
    if Plain(s) {
      CodedPlain(s);
    }
  }

  // ---------------------------------------------------------------------------------------------
  // The store
  // ---------------------------------------------------------------------------------------------

  datatype Doc = Doc(value: string, ephemeral: bool, expireAt: Option<int>)

  type Id = (string, string)

  /** The documents by collection and key, and the collections that have an expiry index. */
  datatype State = State(docs: map<Id, Doc>, indexed: set<string>)

  predicate Expired(d: Doc, now: int) { d.expireAt.Some? && d.expireAt.value < now }

  /** How the database answers an operation; a lost one may have been applied. */
  datatype Fault = Works | Refused | Lost(applied: bool)

  datatype Env = Env(now: int, find: Fault, cipherWorks: bool, index: Fault, change: Fault)

  datatype Error = AccessError | StoreError

  function ErrorOf(f: Fault): Error { if f.Refused? then AccessError else StoreError }

  predicate Applied(f: Fault) { f.Works? || (f.Lost? && f.applied) }

  datatype Op = Read | Write(value: string, expireAfter: Option<int>, ephemeral: bool) | Delete | Exists

  datatype Reply = Value(value: string) | Failed(error: Error) | Written(expireAt: Option<int>) | Deleted
                 | Answer(yes: bool)

  datatype Outcome = Outcome(state: State, reply: Reply)

  function ExpireAt(expireAfter: Option<int>, ephemeral: bool, now: int): Option<int> {
    if !ephemeral && expireAfter.Some? then Some(now + expireAfter.value) else None
  }

  function Without(m: map<Id, Doc>, id: Id): map<Id, Doc> { m - {id} }

  function MongoStep(s: State, ns: string, key: string, op: Op, env: Env): Outcome {
    var c := NormalizeNamespace(ns);
    var id := (c, key);
    match op
    case Read =>
      if !env.find.Works? then Outcome(s, Failed(ErrorOf(env.find)))
      else if id !in s.docs || Expired(s.docs[id], env.now) then Outcome(s, Failed(AccessError))
      else if !env.cipherWorks then Outcome(s, Failed(StoreError))
      else if !s.docs[id].ephemeral then Outcome(s, Value(s.docs[id].value))
      else
        Outcome(if Applied(env.change) then s.(docs := Without(s.docs, id)) else s,
                if env.change.Works? then Value(s.docs[id].value) else Failed(ErrorOf(env.change)))
    case Write(value, expireAfter, ephemeral) =>
      var expireAt := ExpireAt(expireAfter, ephemeral, env.now);
      if !env.cipherWorks then Outcome(s, Failed(StoreError))
      else if expireAt.Some? && c !in s.indexed && !env.index.Works? then Outcome(s, Failed(ErrorOf(env.index)))
      else
        var t := if expireAt.Some? then s.(indexed := s.indexed + {c}) else s;
        Outcome(if Applied(env.change) then t.(docs := t.docs[id := Doc(value, ephemeral, expireAt)]) else t,
                if env.change.Works? then Written(expireAt) else Failed(ErrorOf(env.change)))
    case Delete =>
      Outcome(if Applied(env.change) then s.(docs := Without(s.docs, id)) else s,
              if env.change.Works? then Deleted else Failed(ErrorOf(env.change)))
    case Exists =>
      Outcome(s, Answer(env.find.Works? && id in s.docs
                        && (s.docs[id].expireAt.None? || s.docs[id].expireAt.value > env.now)))
  }

  /** Expired documents at these places go. */
  function Cleaned(docs: map<Id, Doc>, gone: set<Id>, now: int): map<Id, Doc> {
    map id | id in docs && !(id in gone && Expired(docs[id], now)) :: docs[id]
  }

  class MongoStore {
    var docs: map<Id, Doc>
    var ttlIndexInitializedNamespaces: set<string>

    function View(): State reads this { State(docs, ttlIndexInitializedNamespaces) }

    /** What can expire is where expired documents are removed. */
    ghost predicate Valid() reads this {
      forall id :: id in docs && docs[id].expireAt.Some? ==> id.0 in ttlIndexInitializedNamespaces
    }

    constructor ()
      ensures View() == State(map[], {}) && Valid()
    {
      docs, ttlIndexInitializedNamespaces := map[], {};
    }

    method EnsureTtlIndex(ns: string, env: Env) returns (error: Option<Error>)
      requires Valid()
      modifies this`ttlIndexInitializedNamespaces
      ensures Valid()
      ensures var c := NormalizeNamespace(ns);
        if c !in old(ttlIndexInitializedNamespaces) && !env.index.Works? then
          error == Some(ErrorOf(env.index)) && View() == old(View())
        else
          error == None && ttlIndexInitializedNamespaces == old(ttlIndexInitializedNamespaces) + {c}
    {
      var c := NormalizeNamespace(ns);
      if c in ttlIndexInitializedNamespaces {
        return None;
      }
      if !env.index.Works? {
        return Some(ErrorOf(env.index));
      }
      ttlIndexInitializedNamespaces := ttlIndexInitializedNamespaces + {c};
      return None;
    }

    method Read(ns: string, key: string, env: Env) returns (r: Reply)
      requires Valid()
      modifies this`docs
      ensures Valid() && Outcome(View(), r) == MongoStep(old(View()), ns, key, Op.Read, env)
    {
      var id := (NormalizeNamespace(ns), key);
      if !env.find.Works? {
        return Failed(ErrorOf(env.find));
      }
      if id !in docs {
        return Failed(AccessError);
      }
      var doc := docs[id];
      if doc.expireAt.Some? && doc.expireAt.value < env.now {
        return Failed(AccessError);
      }
      if !env.cipherWorks {
        return Failed(StoreError);
      }
      if doc.ephemeral {
        r := Delete(ns, key, env);
        if r.Failed? {
          return;
        }
      }
      return Value(doc.value);
    }

    method Write(ns: string, key: string, value: string, expireAfter: Option<int>, ephemeral: bool, env: Env)
      returns (r: Reply)
      requires Valid()
      modifies this
      ensures Valid()
      ensures Outcome(View(), r) == MongoStep(old(View()), ns, key, Op.Write(value, expireAfter, ephemeral), env)
    {
      if !env.cipherWorks {
        return Failed(StoreError);
      }
      var expireAt := None;
      if !ephemeral && expireAfter.Some? {
        var error := EnsureTtlIndex(ns, env);
        if error.Some? {
          return Failed(error.value);
        }
        expireAt := Some(env.now + expireAfter.value);
      }
      if Applied(env.change) {
        docs := docs[(NormalizeNamespace(ns), key) := Doc(value, ephemeral, expireAt)];
      }
      if !env.change.Works? {
        return Failed(ErrorOf(env.change));
      }
      return Written(expireAt);
    }

    method Delete(ns: string, key: string, env: Env) returns (r: Reply)
      requires Valid()
      modifies this`docs
      ensures Valid() && Outcome(View(), r) == MongoStep(old(View()), ns, key, Op.Delete, env)
    {
      if Applied(env.change) {
        docs := Without(docs, (NormalizeNamespace(ns), key));
      }
      r := if env.change.Works? then Deleted else Failed(ErrorOf(env.change));
    }

    method Exists(ns: string, key: string, env: Env) returns (r: Reply)
      ensures Outcome(View(), r) == MongoStep(View(), ns, key, Op.Exists, env)
    {
      if !env.find.Works? {
        return Answer(false);
      }
      var id := (NormalizeNamespace(ns), key);
      r := Answer(id in docs && (docs[id].expireAt.None? || docs[id].expireAt.value > env.now));
    }
  }

  // ---------------------------------------------------------------------------------------------
  // The map that the store implements
  // ---------------------------------------------------------------------------------------------

  /** What has not expired. */
  function Live(m: map<Id, Doc>, now: int): map<Id, Doc> {
    map id | id in m && !Expired(m[id], now) :: m[id]
  }

  /** The same operations on a map by namespace and key, from which entries vanish as soon as they expire. */
  function MapStep(s: State, ns: string, key: string, op: Op, env: Env): Outcome {
    var id := (ns, key);
    var m := Live(s.docs, env.now);
    var live := s.(docs := m);
    var removed := if Applied(env.change) then s.(docs := m - {id}) else live;
    match op
    case Read =>
      if !env.find.Works? then Outcome(live, Failed(ErrorOf(env.find)))
      else if id !in m then Outcome(live, Failed(AccessError))
      else if !env.cipherWorks then Outcome(live, Failed(StoreError))
      else if !m[id].ephemeral then Outcome(live, Value(m[id].value))
      else Outcome(removed, if env.change.Works? then Value(m[id].value) else Failed(ErrorOf(env.change)))
    case Write(value, expireAfter, ephemeral) =>
      var timed := !ephemeral && expireAfter.Some?;
      if !env.cipherWorks then Outcome(live, Failed(StoreError))
      else if timed && ns !in s.indexed && !env.index.Works? then Outcome(live, Failed(ErrorOf(env.index)))
      else
        var expireAt := if timed then Some(env.now + expireAfter.value) else None;
        var n := if Applied(env.change) then m[id := Doc(value, ephemeral, expireAt)] else m;
        Outcome(State(n, if timed then s.indexed + {ns} else s.indexed),
                if env.change.Works? then Written(expireAt) else Failed(ErrorOf(env.change)))
    case Delete => Outcome(removed, if env.change.Works? then Deleted else Failed(ErrorOf(env.change)))
    case Exists => Outcome(live, Answer(env.find.Works? && id in m && m[id].expireAt != Some(env.now)))
  }

  datatype Event = Request(ns: string, key: string, op: Op, env: Env) | Cleanup(gone: set<Id>, now: int)

  function Time(e: Event): int { if e.Request? then e.env.now else e.now }

  datatype Answered = Answered(state: State, replies: seq<Reply>)

  function MongoRun(s: State, es: seq<Event>): Answered {
    if es == [] then Answered(s, [])
    else
      var a := MongoRun(s, es[..|es| - 1]);
      match es[|es| - 1]
      case Request(ns, key, op, env) =>
        var o := MongoStep(a.state, ns, key, op, env);
        Answered(o.state, a.replies + [o.reply])
      case Cleanup(gone, now) => a.(state := a.state.(docs := Cleaned(a.state.docs, gone, now)))
  }

  function MapRun(s: State, es: seq<Event>): Answered {
    if es == [] then Answered(s, [])
    else
      var a := MapRun(s, es[..|es| - 1]);
      match es[|es| - 1]
      case Request(ns, key, op, env) =>
        var o := MapStep(a.state, ns, key, op, env);
        Answered(o.state, a.replies + [o.reply])
      case Cleanup(_, _) => a
  }

  function Look(m: map<Id, Doc>, id: Id, now: int): Option<Doc> {
    if id in m && !Expired(m[id], now) then Some(m[id]) else None
  }

  /** At time `now` the store and the map show the same for each name without underscores. */
  ghost predicate Agree(s: State, m: State, now: int) {
    && (forall ns: string, key: string :: '_' !in ns ==>
          Look(s.docs, (NormalizeNamespace(ns), key), now) == Look(m.docs, (ns, key), now))
    && (forall ns: string :: '_' !in ns ==> (NormalizeNamespace(ns) in s.indexed <==> ns in m.indexed))
  }

  lemma AgreeLater(s: State, m: State, now: int, later: int)
    requires Agree(s, m, now) && now <= later
    ensures Agree(s, m, later)
  {
    forall ns: string, key: string | '_' !in ns
      ensures Look(s.docs, (NormalizeNamespace(ns), key), later) == Look(m.docs, (ns, key), later)
    {
      var id, jd := (NormalizeNamespace(ns), key), (ns, key);
      assert Look(s.docs, id, now) == Look(m.docs, jd, now);
      LookLater(s.docs, id, now, later);
      LookLater(m.docs, jd, now, later);
    }
  }

  lemma LookLater(m: map<Id, Doc>, id: Id, now: int, later: int)
    requires now <= later
    ensures var d := Look(m, id, now);
      Look(m, id, later) == if d.Some? && Expired(d.value, later) then None else d
  {
  }

  lemma LookAgrees(s: State, m: State, ns: string, key: string, op: Op, env: Env, ns2: string, key2: string)
    requires Agree(s, m, env.now) && '_' !in ns && '_' !in ns2
    ensures Look(MongoStep(s, ns, key, op, env).state.docs, (NormalizeNamespace(ns2), key2), env.now)
         == Look(MapStep(m, ns, key, op, env).state.docs, (ns2, key2), env.now)
  {
    assert Look(s.docs, (NormalizeNamespace(ns), key), env.now) == Look(m.docs, (ns, key), env.now);
    assert Look(s.docs, (NormalizeNamespace(ns2), key2), env.now) == Look(m.docs, (ns2, key2), env.now);
    assert NormalizeNamespace(ns) in s.indexed <==> ns in m.indexed;
    NormalizeInjective(ns, ns2);
  }

  lemma IndexAgrees(s: State, m: State, ns: string, key: string, op: Op, env: Env, ns2: string)
    requires Agree(s, m, env.now) && '_' !in ns && '_' !in ns2
    ensures NormalizeNamespace(ns2) in MongoStep(s, ns, key, op, env).state.indexed
            <==> ns2 in MapStep(m, ns, key, op, env).state.indexed
  {
    assert NormalizeNamespace(ns) in s.indexed <==> ns in m.indexed;
    assert NormalizeNamespace(ns2) in s.indexed <==> ns2 in m.indexed;
    NormalizeInjective(ns, ns2);
  }

  /** One request: the same reply, and the same is shown afterwards. */
  lemma StepAgrees(s: State, m: State, ns: string, key: string, op: Op, env: Env)
    requires Agree(s, m, env.now) && '_' !in ns
    ensures var o, p := MongoStep(s, ns, key, op, env), MapStep(m, ns, key, op, env);
      o.reply == p.reply && Agree(o.state, p.state, env.now)
  {
    assert Look(s.docs, (NormalizeNamespace(ns), key), env.now) == Look(m.docs, (ns, key), env.now);
    assert NormalizeNamespace(ns) in s.indexed <==> ns in m.indexed;
    var o, p := MongoStep(s, ns, key, op, env), MapStep(m, ns, key, op, env);
    assert o.reply == p.reply;
    assert Agree(o.state, p.state, env.now) by {
      forall ns2: string, key2: string | '_' !in ns2
        ensures Look(o.state.docs, (NormalizeNamespace(ns2), key2), env.now)
             == Look(p.state.docs, (ns2, key2), env.now)
      {
        LookAgrees(s, m, ns, key, op, env, ns2, key2);
      }
      forall ns2: string | '_' !in ns2
        ensures NormalizeNamespace(ns2) in o.state.indexed <==> ns2 in p.state.indexed
      {
        IndexAgrees(s, m, ns, key, op, env, ns2);
      }
    }
  }

  /** The removal of expired documents is never seen. */
  lemma CleanupAgrees(s: State, m: State, gone: set<Id>, now: int)
    requires Agree(s, m, now)
    ensures Agree(s.(docs := Cleaned(s.docs, gone, now)), m, now)
  {
    forall id: Id
      ensures Look(Cleaned(s.docs, gone, now), id, now) == Look(s.docs, id, now)
    {
    }
  }

  ghost predicate Timely(es: seq<Event>, start: int) {
    && (forall i :: 0 <= i < |es| ==> start <= Time(es[i]))
    && (forall i, j :: 0 <= i < j < |es| ==> Time(es[i]) <= Time(es[j]))
  }

  ghost predicate NoUnderscores(es: seq<Event>) {
    forall i :: 0 <= i < |es| && es[i].Request? ==> '_' !in es[i].ns
  }

  function LastTime(es: seq<Event>, start: int): int { if es == [] then start else Time(es[|es| - 1]) }

  /** Whatever is asked, whatever fails, whenever expired documents are removed: the replies are the map's. */
  lemma {:induction false} StoreIsMap(s: State, m: State, start: int, es: seq<Event>)
    requires Agree(s, m, start) && Timely(es, start) && NoUnderscores(es)
    ensures MongoRun(s, es).replies == MapRun(m, es).replies
    ensures Agree(MongoRun(s, es).state, MapRun(m, es).state, LastTime(es, start))
  {
    if es != [] {
      var n := |es| - 1;
      var init := es[..n];
      StoreIsMap(s, m, start, init);
      var a, b := MongoRun(s, init), MapRun(m, init);
      AgreeLater(a.state, b.state, LastTime(init, start), Time(es[n]));
      match es[n] {
        case Request(ns, key, op, env) => StepAgrees(a.state, b.state, ns, key, op, env);
        case Cleanup(gone, now) => CleanupAgrees(a.state, b.state, gone, now);
      }
    }
  }

  predicate WritesTo(e: Event, id: Id) {
    e.Request? && e.op.Write? && (NormalizeNamespace(e.ns), e.key) == id
  }

  lemma {:induction false} StaysAway(s: State, id: Id, es: seq<Event>)
    requires id !in s.docs && forall i :: 0 <= i < |es| ==> !WritesTo(es[i], id)
    ensures id !in MongoRun(s, es).state.docs
  {
    if es != [] {
      StaysAway(s, id, es[..|es| - 1]);
    }
  }

  /** Once an ephemeral secret was handed out, nobody reads it until it is written again. */
  lemma EphemeralReadOnce(s: State, ns: string, key: string, env: Env, es: seq<Event>, env2: Env)
    requires var id := (NormalizeNamespace(ns), key);
      && id in s.docs && s.docs[id].ephemeral
      && MongoStep(s, ns, key, Read, env).reply.Value?
      && forall i :: 0 <= i < |es| ==> !WritesTo(es[i], id)
    ensures !MongoStep(MongoRun(MongoStep(s, ns, key, Read, env).state, es).state, ns, key, Read, env2).reply.Value?
  {
    StaysAway(MongoStep(s, ns, key, Read, env).state, (NormalizeNamespace(ns), key), es);
  }

  /** What is refused changes nothing and is an access error; what is lost is a store error, applied or not. */
  lemma FaultsTold(s: State, ns: string, key: string, op: Op, env: Env)
    requires env.cipherWorks && env.index.Works?
    ensures var o := MongoStep(s, ns, key, op, env);
      && (op.Read? && env.find == Refused ==> o == Outcome(s, Failed(AccessError)))
      && (op.Read? && env.find.Lost? ==> o == Outcome(s, Failed(StoreError)))
      && ((op.Write? || op.Delete?) && env.change == Refused ==>
            o.state.docs == s.docs && o.reply == Failed(AccessError))
      && ((op.Write? || op.Delete?) && env.change == Lost(false) ==>
            o.state.docs == s.docs && o.reply == Failed(StoreError))
      && ((op.Write? || op.Delete?) && env.change == Lost(true) ==>
            && o.reply == Failed(StoreError)
            && o.state.docs == MongoStep(s, ns, key, op, env.(change := Works)).state.docs)
      && (op.Exists? && !env.find.Works? ==> o == Outcome(s, Answer(false)))
  {
  }

  /** What exists can be read at that instant; what can be read and does not exist is just expiring. */
  lemma ReadIffExists(s: State, ns: string, key: string, env: Env)
    requires env.find.Works? && env.cipherWorks && env.change.Works?
    ensures var id := (NormalizeNamespace(ns), key);
      MongoStep(s, ns, key, Read, env).reply.Value?
      <==> MongoStep(s, ns, key, Exists, env).reply == Answer(true)
           || (id in s.docs && s.docs[id].expireAt == Some(env.now))
  {
  }
}
