/**
 Metrics ports of the agents on one host, kept in the service files that the charm rewrites on every
 update.

 Whether a port can be bound changes all the time; a service file may be unreadable; an update may
 run out of ports half way, after the old files are gone.  An agent that has a port keeps it; a new
 one gets the lowest of the range that no other agent has and that can be bound.
 */
module Ports {
  import opened Basics

  const FIRST_PORT := 8000
  const END_PORT := 10000

  type Files = map<string, nat>

  /** For each agent in turn, the ports that can be bound at that moment. */
  type Bindable = nat -> nat -> bool

  /** The lowest free port at or above `port`. */
  function FindFrom(used: set<nat>, bind: nat -> bool, port: nat): (p: Option<nat>)
    decreases END_PORT - port
  {
    if port >= END_PORT then None
    else if port !in used && bind(port) then Some(port)
    else FindFrom(used, bind, port + 1)
  }

  lemma {:induction false} FindFromMeans(used: set<nat>, bind: nat -> bool, port: nat)
    requires FIRST_PORT <= port
    ensures match FindFrom(used, bind, port)
      case Some(p) => port <= p < END_PORT && p !in used && bind(p)
                      && forall q :: port <= q < p ==> q in used || !bind(q)
      case None => forall q :: port <= q < END_PORT ==> q in used || !bind(q)
    decreases END_PORT - port
  {
    if port < END_PORT && (port in used || !bind(port)) {
      FindFromMeans(used, bind, port + 1);
    }
  }

  method FindAvailablePort(used: set<nat>, bind: nat -> bool) returns (port: Option<nat>)
    ensures port == FindFrom(used, bind, FIRST_PORT)
  {
    for p := FIRST_PORT to END_PORT
      invariant FindFrom(used, bind, FIRST_PORT) == FindFrom(used, bind, p)
    {
      if p !in used && bind(p) {
        return Some(p);
      }
    }
    return None;
  }

  method AssignMetricsPort(agent: string, configured: Files, used: set<nat>, bind: nat -> bool)
    returns (port: Option<nat>)
    ensures port == Assigned(agent, configured, used, bind)
  {
    if agent in configured {
      return Some(configured[agent]);
    }
    port := FindAvailablePort(used, bind);
  }

  function Assigned(agent: string, configured: Files, used: set<nat>, bind: nat -> bool): Option<nat> {
    if agent in configured then Some(configured[agent]) else FindFrom(used, bind, FIRST_PORT)
  }

  /** The files written so far, the ports taken, and whether every agent so far got one. */
  datatype Written = Written(files: Files, used: set<nat>, ok: bool)

  function Write(configured: Files, agents: seq<string>, bind: Bindable): Written {
    if agents == [] then Written(map[], configured.Values, true)
    else
      var n := |agents| - 1;
      var w := Write(configured, agents[..n], bind);
      if !w.ok then w
      else
        match Assigned(agents[n], configured, w.used, bind(n))
        case None => w.(ok := false)
        case Some(p) => Written(w.files[agents[n] := p], w.used + {p}, true)
  }

  function Readable(files: Files, readable: set<string>): Files {
    map a | a in files && a in readable :: files[a]
  }

  datatype Outcome = Exits | Blocked | Done

  datatype Update = Update(agents: Option<seq<string>>, readable: set<string>, bind: Bindable)

  /** Without a directory of agents nothing is touched. */
  function Apply(files: Files, u: Update): Files {
    if u.agents.None? || u.agents.value == [] then files
    else Write(Readable(files, u.readable), u.agents.value, u.bind).files
  }

  ghost predicate Distinct(files: Files) {
    forall a, b :: a in files && b in files && files[a] == files[b] ==> a == b
  }

  class AgentHostCharm {
    /** The service files: one per agent, with its port. */
    var files: Files

    ghost predicate Valid() reads this { Distinct(files) }

    constructor ()
      ensures Valid() && files == map[]
    {
      files := map[];
    }

    method WriteSupervisorServiceFiles(u: Update) returns (outcome: Outcome)
      requires Valid()
      modifies this
      ensures Valid() && files == Apply(old(files), u)
      ensures outcome == Done <==> u.agents.Some? && u.agents.value != []
                                   && Write(Readable(old(files), u.readable), u.agents.value, u.bind).ok
      ensures outcome == Exits <==> u.agents.None? || u.agents.value == []
    {
      ApplyDistinct(files, u);
      if u.agents.None? || u.agents.value == [] {
        return Exits;
      }
      var agents := u.agents.value;
      var configured := Readable(files, u.readable);
      var used := configured.Values;
      files := map[];
      for i := 0 to |agents|
        invariant Write(configured, agents[..i], u.bind) == Written(files, used, true)
      {
        assert agents[..i + 1][..i] == agents[..i];
        var port := AssignMetricsPort(agents[i], configured, used, u.bind(i));
        if port.None? {
          WriteStops(configured, agents, u.bind, i + 1);
          return Blocked;
        }
        used := used + {port.value};
        files := files[agents[i] := port.value];
      }
      assert agents[..|agents|] == agents;
      return Done;
    }
  }

  /** After ports have run out nothing more is written. */
  lemma {:induction false} WriteStops(configured: Files, agents: seq<string>, bind: Bindable, i: nat)
    requires i <= |agents| && !Write(configured, agents[..i], bind).ok
    ensures Write(configured, agents, bind) == Write(configured, agents[..i], bind)
    decreases |agents|
  {
    var n := |agents| - 1;
    if i <= n {
      assert agents[..n][..i] == agents[..i];
      WriteStops(configured, agents[..n], bind, i);
    } else {
      assert agents[..i] == agents;
    }
  }

  predicate InRange(p: nat) { FIRST_PORT <= p < END_PORT }

  /** Old ports are kept, new ones come from the range and are nobody's old port. */
  ghost predicate Faithful(configured: Files, files: Files) {
    forall a <- files ::
      if a in configured then files[a] == configured[a] else InRange(files[a]) && files[a] !in configured.Values
  }

  ghost predicate Covers(used: set<nat>, files: Files) { forall a <- files :: files[a] in used }

  lemma {:induction false} WriteKeeps(configured: Files, agents: seq<string>, bind: Bindable)
    requires Distinct(configured)
    ensures var w := Write(configured, agents, bind);
      && Distinct(w.files) && Faithful(configured, w.files)
      && Covers(w.used, w.files) && Covers(w.used, configured)
      && (forall a <- w.files :: a in agents)
      && (w.ok ==> forall a <- agents :: a in w.files)
  {
    if agents != [] {
      var n := |agents| - 1;
      var w := Write(configured, agents[..n], bind);
      WriteKeeps(configured, agents[..n], bind);
      assert agents == agents[..n] + [agents[n]];
      if w.ok && agents[n] !in configured {
        FindFromMeans(w.used, bind(n), FIRST_PORT);
        assert forall p <- configured.Values :: p in w.used;
      }
    }
  }

  lemma ReadableDistinct(files: Files, readable: set<string>)
    requires Distinct(files)
    ensures Distinct(Readable(files, readable))
  {
  }

  /** No update gives two agents the same port, not even one that fails half way. */
  lemma ApplyDistinct(files: Files, u: Update)
    requires Distinct(files)
    ensures Distinct(Apply(files, u))
  {
    ReadableDistinct(files, u.readable);
    if u.agents.Some? {
      WriteKeeps(Readable(files, u.readable), u.agents.value, u.bind);
    }
  }

  function Run(us: seq<Update>): Files {
    if us == [] then map[] else Apply(Run(us[..|us| - 1]), us[|us| - 1])
  }

  /** Over any updates, failed ones included, ports stay distinct and in range. */
  lemma {:induction false} PortsDistinct(us: seq<Update>)
    ensures Distinct(Run(us)) && forall a <- Run(us) :: InRange(Run(us)[a])
  {
    if us != [] {
      var files, u := Run(us[..|us| - 1]), us[|us| - 1];
      PortsDistinct(us[..|us| - 1]);
      ApplyDistinct(files, u);
      ReadableDistinct(files, u.readable);
      if u.agents.Some? {
        WriteKeeps(Readable(files, u.readable), u.agents.value, u.bind);
      }
    }
  }

  predicate Succeeds(files: Files, u: Update) {
    u.agents.Some? && u.agents.value != [] && Write(Readable(files, u.readable), u.agents.value, u.bind).ok
  }

  /** A successful update configures exactly the agents that are there, each at the port it had. */
  lemma SuccessKeepsPorts(files: Files, u: Update)
    requires Distinct(files) && Succeeds(files, u)
    ensures forall a :: a in Apply(files, u) <==> a in u.agents.value
    ensures forall a :: a in files && a in u.readable && a in u.agents.value ==> Apply(files, u)[a] == files[a]
    ensures forall a <- Apply(files, u) :: !(a in files && a in u.readable) ==>
      InRange(Apply(files, u)[a])
      && forall b :: b in files && b in u.readable ==> Apply(files, u)[a] != files[b]
  {
    var configured := Readable(files, u.readable);
    ReadableDistinct(files, u.readable);
    WriteKeeps(configured, u.agents.value, u.bind);
    forall b | b in files && b in u.readable
      ensures files[b] in configured.Values
    {
      assert b in configured && configured[b] == files[b];
    }
  }

  /** The place of the agent for which no port was left. */
  function FailsAt(configured: Files, agents: seq<string>, bind: Bindable): (k: nat)
    requires !Write(configured, agents, bind).ok
    ensures k < |agents|
  {
    var n := |agents| - 1;
    if Write(configured, agents[..n], bind).ok then n else FailsAt(configured, agents[..n], bind)
  }

  /**
   A failed update stops at an agent without a port, when every port of the range was taken or could not be bound.
   It keeps the agents before it, and drops the others with their ports.
   */
  lemma {:induction false} FailureKeepsFirst(configured: Files, agents: seq<string>, bind: Bindable)
    requires Distinct(configured) && !Write(configured, agents, bind).ok
    ensures var k := FailsAt(configured, agents, bind);
      var w := Write(configured, agents, bind);
      && agents[k] !in configured
      && (forall p :: InRange(p) ==> p in w.used || !bind(k)(p))
      && (forall a :: a in w.files <==> a in agents[..k])
      && Faithful(configured, w.files)
  {
    var n := |agents| - 1;
    WriteKeeps(configured, agents, bind);
    var w := Write(configured, agents[..n], bind);
    if w.ok {
      WriteKeeps(configured, agents[..n], bind);
      FindFromMeans(w.used, bind(n), FIRST_PORT);
    } else {
      FailureKeepsFirst(configured, agents[..n], bind);
      assert agents[..n][..FailsAt(configured, agents, bind)] == agents[..FailsAt(configured, agents, bind)];
    }
  }
}
