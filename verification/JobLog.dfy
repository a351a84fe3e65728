/**
 A job as it writes its two logs: phase by phase, the cleanup last, and then the final outcome.

 The live output and the serial log have a handler each, with numbers of its own.  Any post may be lost.  Others
 change the job's state at any time, but only the agent calls it complete.
 */
module JobLog {
  import opened Basics
  import opened LogStream
  import opened LogDelivery

  datatype LogType = StandardOutput | SerialOutput

  /** What a phase writes: pieces of output while it runs, then a serial log.  Without a command it is skipped. */
  datatype PhaseLog = Skipped | Ran(pieces: seq<string>, serial: string)

  datatype World = World(
    log: Phase -> PhaseLog, endsJob: Phase -> bool, stateLands: Phase -> bool, outcomeLands: bool,
    cancelledIn: Phase -> bool)

  const CHUNK_SIZE := 1024 * 1024

  function LogText(log: PhaseLog, t: LogType): string {
    match log
    case Skipped => ""
    case Ran(pieces, serial) => if t == StandardOutput then JoinAll(pieces) else serial
  }

  /** Is the k-th phase run: did none before it end the job? */
  predicate IsReached(w: World, k: nat)
    requires k <= |TEST_PHASES|
    ensures IsReached(w, k) <==> forall i :: 0 <= i < k ==> !w.endsJob(TEST_PHASES[i])
  {
    k == 0 || (IsReached(w, k - 1) && !w.endsJob(TEST_PHASES[k - 1]))
  }

  /** What the first k phases write to one of the logs. */
  function PhasesText(w: World, t: LogType, k: nat): string
    requires k <= |TEST_PHASES|
  {
    if k == 0 then ""
    else
      PhasesText(w, t, k - 1)
      + if IsReached(w, k - 1) then LogText(w.log(TEST_PHASES[k - 1]), t) else ""
  }

  lemma {:induction false} NothingAfterTheEnd(w: World, k: nat, n: nat)
    requires k <= n <= |TEST_PHASES| && !IsReached(w, k)
    ensures !IsReached(w, n) && forall t: LogType :: PhasesText(w, t, n) == PhasesText(w, t, k)
    decreases n
  {
    if k < n {
      NothingAfterTheEnd(w, k, n - 1);
    }
  }

  /** Each phase that is reached has its text in the log, after that of the phases before it. */
  lemma {:induction false} PhaseInText(w: World, t: LogType, k: nat, n: nat) returns (rest: string)
    requires k < n <= |TEST_PHASES| && IsReached(w, k)
    ensures var log := w.log(TEST_PHASES[k]);
      && (log.Ran? && t == StandardOutput ==>
            PhasesText(w, t, n) == PhasesText(w, t, k) + JoinAll(log.pieces) + rest)
      && (log.Ran? && t == SerialOutput ==> PhasesText(w, t, n) == PhasesText(w, t, k) + log.serial + rest)
      && (log.Skipped? ==> PhasesText(w, t, n) == PhasesText(w, t, k) + rest)
      && PhasesText(w, t, n) == PhasesText(w, t, k + 1) + rest
    decreases n
  {
    rest := "";
    if n > k + 1 {
      var last := if IsReached(w, n - 1) then LogText(w.log(TEST_PHASES[n - 1]), t) else "";
      var before := PhaseInText(w, t, k, n - 1);
      rest := before + last;
      var log := w.log(TEST_PHASES[k]);
      var own := LogText(log, t);
      Assoc(PhasesText(w, t, k) + own, before, last);
      Assoc(PhasesText(w, t, k), before, last);
      Assoc(PhasesText(w, t, k + 1), before, last);
    }
  }

  function JobText(w: World, t: LogType): string { PhasesText(w, t, |TEST_PHASES|) + LogText(w.log(Cleanup), t) }

  function Stores(fs: seq<Fragment>): seq<Write> {
    seq(|fs|, i requires 0 <= i < |fs| => StoreFragment(fs[i]))
  }

  lemma {:induction false} StoresFragments(w: seq<Write>, fs: seq<Fragment>)
    ensures Fragments(w + Stores(fs)) == Fragments(w) + fs
  {
    if fs == [] {
      assert w + Stores(fs) == w;
    } else {
      var n := |fs| - 1;
      StoresFragments(w, fs[..n]);
      assert (w + Stores(fs))[..|w| + n] == w + Stores(fs[..n]);
      assert fs == fs[..n] + [fs[n]];
      Assoc(Fragments(w), fs[..n], [fs[n]]);
    }
  }

  lemma AddsText(fs: seq<Fragment>, f: Fragment)
    ensures Text(fs + [f]) == Text(fs) + f.data
  {
    assert (fs + [f])[..|fs|] == fs;
  }

  lemma StateHasNoFragment(w: seq<Write>, s: JobState)
    ensures Fragments(w + [SetState(s)]) == Fragments(w)
  {
    assert (w + [SetState(s)])[..|w|] == w;
  }

  /** The server has the handler's fragments; the job is not complete. */
  ghost predicate Records(server: seq<Write>, handler: EndpointLogHandler)
    reads handler
  {
    && handler.Valid()
    && Fragments(server) == handler.stored
    && SetState(Complete) !in server
  }

  /** A handler of which no post is lost has written this text. */
  ghost predicate HasWritten(handler: EndpointLogHandler, text: string)
    reads handler
  {
    (forall n :: handler.lands(n)) ==> Text(handler.stored) == text
  }

  class TestflingerJob {
    const liveOutputHandler: EndpointLogHandler
    const serialOutputHandler: EndpointLogHandler
    const world: World
    /** What the server records of the job, in order, with the fragments of one log each. */
    ghost var output: seq<Write>
    ghost var serial: seq<Write>

    ghost predicate Valid()
      reads this, liveOutputHandler, serialOutputHandler
    {
      && liveOutputHandler != serialOutputHandler
      && Records(output, liveOutputHandler)
      && Records(serial, serialOutputHandler)
      && liveOutputHandler.phase == serialOutputHandler.phase
    }

    /** With nothing lost, these are the texts of the two logs. */
    ghost predicate HasTexts(outputText: string, serialText: string)
      reads this, liveOutputHandler, serialOutputHandler
    {
      HasWritten(liveOutputHandler, outputText) && HasWritten(serialOutputHandler, serialText)
    }

    ghost predicate IsFresh()
      reads this, liveOutputHandler, serialOutputHandler
    {
      liveOutputHandler.stored == serialOutputHandler.stored == [] && liveOutputHandler.phase == Setup
    }

    constructor (world: World, outputLands: nat -> bool, serialLands: nat -> bool)
      ensures Valid() && IsFresh() && fresh(liveOutputHandler) && fresh(serialOutputHandler)
      ensures this.world == world
      ensures liveOutputHandler.lands == outputLands && serialOutputHandler.lands == serialLands
    {
      this.world := world;
      liveOutputHandler := new EndpointLogHandler(outputLands);
      serialOutputHandler := new EndpointLogHandler(serialLands);
      output, serial := [], [];
    }

    method PostState(state: JobState, lands: bool)
      requires Valid() && state != Complete
      modifies this
      ensures Valid()
    {
      if lands {
        StateHasNoFragment(output, state);
        StateHasNoFragment(serial, state);
        output, serial := output + [SetState(state)], serial + [SetState(state)];
      }
    }

    /** A piece of live output: to the server, if the post arrives. */
    method Log(data: string)
      requires Valid()
      modifies this`output, liveOutputHandler
      ensures Valid() && liveOutputHandler.phase == old(liveOutputHandler.phase)
      ensures HasWritten(liveOutputHandler, Text(old(liveOutputHandler.stored)) + data)
    {
      ghost var h := liveOutputHandler;
      ghost var before := h.stored;
      ghost var added := if h.lands(h.fragmentNumber) then [Fragment(h.phase, h.fragmentNumber, data)] else [];
      liveOutputHandler.Write(data);
      AddsText(before, Fragment(h.phase, old(h.fragmentNumber), data));
      StoresFragments(output, added);
      output := output + Stores(added);
    }

    /** The serial log, once the phase is over. */
    method LogSerial(contents: string)
      requires Valid()
      modifies this`serial, serialOutputHandler
      ensures Valid() && serialOutputHandler.phase == old(serialOutputHandler.phase)
      ensures HasWritten(serialOutputHandler, Text(old(serialOutputHandler.stored)) + contents)
    {
      ghost var h := serialOutputHandler;
      ghost var before := h.stored;
      ghost var added := Posted(h.lands, h.phase, h.fragmentNumber, Chunks(contents, CHUNK_SIZE));
      if forall n :: h.lands(n) {
        ChunksSpellContents(h.lands, h.phase, h.fragmentNumber, contents, CHUNK_SIZE);
      }
      serialOutputHandler.WriteFromFile(contents, CHUNK_SIZE);
      TextConcat(before, added);
      StoresFragments(serial, added);
      serial := serial + Stores(added);
    }

    method RunTestPhase(phase: Phase)
      requires Valid() && PhaseIndex(liveOutputHandler.phase) <= PhaseIndex(phase)
      modifies this, liveOutputHandler, serialOutputHandler
      ensures Valid()
      ensures liveOutputHandler.phase == if world.log(phase).Skipped? then old(liveOutputHandler.phase) else phase
      ensures HasTexts(Text(old(liveOutputHandler.stored)) + LogText(world.log(phase), StandardOutput),
                       Text(old(serialOutputHandler.stored)) + LogText(world.log(phase), SerialOutput))
      ensures match world.log(phase)
        case Skipped => liveOutputHandler.stored == old(liveOutputHandler.stored)
                        && serialOutputHandler.stored == old(serialOutputHandler.stored)
        case Ran(pieces, text) => HasTexts(Text(old(liveOutputHandler.stored)) + JoinAll(pieces),
                                           Text(old(serialOutputHandler.stored)) + text)
    {
      var log := world.log(phase);
      if log.Skipped? {
        return;
      }
      liveOutputHandler.SetPhase(phase);
      serialOutputHandler.SetPhase(phase);
      LogOutput(log.pieces);
      LogSerial(log.serial);
    }

    method LogOutput(pieces: seq<string>)
      requires Valid()
      modifies this`output, liveOutputHandler
      ensures Valid() && liveOutputHandler.phase == old(liveOutputHandler.phase)
      ensures HasWritten(liveOutputHandler, Text(old(liveOutputHandler.stored)) + JoinAll(pieces))
    {
      ghost var before := Text(liveOutputHandler.stored);
      assert pieces[..0] == [] && before + "" == before;
      for i := 0 to |pieces|
        invariant Valid() && liveOutputHandler.phase == old(liveOutputHandler.phase)
        invariant HasWritten(liveOutputHandler, before + JoinAll(pieces[..i]))
      {
        Log(pieces[i]);
        JoinAllSnoc(pieces[..i], pieces[i]);
        assert pieces[..i + 1] == pieces[..i] + [pieces[i]];
        Assoc(before, JoinAll(pieces[..i]), pieces[i]);
      }
      assert pieces[..|pieces|] == pieces;
    }

    /** The phases up to the one that ends the job. */
    method RunPhases()
      requires Valid() && IsFresh()
      modifies this, liveOutputHandler, serialOutputHandler
      ensures Valid() && PhaseIndex(liveOutputHandler.phase) <= |TEST_PHASES|
      ensures HasTexts(PhasesText(world, StandardOutput, |TEST_PHASES|), PhasesText(world, SerialOutput, |TEST_PHASES|))
    {
      var k, goesOn := 0, true;
      while k < |TEST_PHASES| && goesOn
        invariant 0 <= k <= |TEST_PHASES| && goesOn == IsReached(world, k)
        invariant Valid() && PhaseIndex(liveOutputHandler.phase) <= k
        invariant HasTexts(PhasesText(world, StandardOutput, k), PhasesText(world, SerialOutput, k))
      {
        var phase := TEST_PHASES[k];
        assert PhaseIndex(phase) == k;
        PostState(Other, world.stateLands(phase));
        PostState(Cancelled, world.cancelledIn(phase));
        RunTestPhase(phase);
        k, goesOn := k + 1, !world.endsJob(phase);
      }
      if !goesOn {
        NothingAfterTheEnd(world, k, |TEST_PHASES|);
      }
    }

    /** The phases, the cleanup in any case, then the outcome. */
    method Run()
      requires Valid() && IsFresh()
      modifies this, liveOutputHandler, serialOutputHandler
      ensures AgentHistory(output) && Fragments(output) == liveOutputHandler.stored
      ensures AgentHistory(serial) && Fragments(serial) == serialOutputHandler.stored
      ensures world.outcomeLands ==> StateOf(output) == StateOf(serial) == Complete
      ensures HasTexts(JobText(world, StandardOutput), JobText(world, SerialOutput))
    {
      RunPhases();
      RunTestPhase(Cleanup);
      PostOutcome();
    }

    method PostOutcome()
      requires Valid()
      modifies this
      ensures AgentHistory(output) && Fragments(output) == liveOutputHandler.stored
      ensures AgentHistory(serial) && Fragments(serial) == serialOutputHandler.stored
      ensures world.outcomeLands ==> StateOf(output) == StateOf(serial) == Complete
    {
      ghost var outcome := if world.outcomeLands then [SetState(Complete)] else [];
      AgentRunIsHistory(output, outcome);
      AgentRunIsHistory(serial, outcome);
      output, serial := output + outcome, serial + outcome;
    }
  }
}
