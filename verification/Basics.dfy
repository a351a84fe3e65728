/** Vocabulary shared by the models: optional values and the seven job phases. */
module Basics {

  datatype Option<+T> = None | Some(value: T)

  lemma Assoc<T>(a: seq<T>, b: seq<T>, c: seq<T>)
    ensures (a + b) + c == a + (b + c)
  {
  }

  function Min(a: int, b: int): int { if a < b then a else b }

  /** The test phases, in the order in which the server enumerates them and the agent runs them. */
  datatype Phase = Setup | Provision | FirmwareUpdate | Test | Allocate | Reserve | Cleanup

  const PHASES: seq<Phase> := [Setup, Provision, FirmwareUpdate, Test, Allocate, Reserve, Cleanup]

  /** All but the cleanup, which an agent runs however the others end. */
  const TEST_PHASES: seq<Phase> := [Setup, Provision, FirmwareUpdate, Test, Allocate, Reserve]

  function PhaseIndex(p: Phase): (i: nat)
    ensures i < |PHASES| && PHASES[i] == p
  {
    match p
    case Setup => 0
    case Provision => 1
    case FirmwareUpdate => 2
    case Test => 3
    case Allocate => 4
    case Reserve => 5
    case Cleanup => 6
  }
}
