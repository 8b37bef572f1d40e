/**
 * What the verification game sees of the memory-manager game: the names of
 * the states it tests for, the decoded context it reads, and the reactor it
 * hands control to. The memory-manager reactor itself is not part of this model.
 */
module MemoryManager {
  import opened Wrappers
  import opened Errors
  import opened EthTypes
  import opened Dispatcher

  datatype State = WaitingProofs | WaitingReplay | FinishedReplay | Other(name: string)

  const KNOWN_STATES: set<string> := {"WaitingProofs", "WaitingReplay", "FinishedReplay"}

  function Name(state: State): string {
    match state
    case WaitingProofs => "WaitingProofs"
    case WaitingReplay => "WaitingReplay"
    case FinishedReplay => "FinishedReplay"
    case Other(name) => name
  }

  /** The state named by a `current_state` string; any name the code does not test for is Other. */
  function ParseState(s: string): (state: State)
    ensures Name(state) == s
    ensures state.Other? <==> s !in KNOWN_STATES
  {
    if s == "WaitingProofs" then WaitingProofs
    else if s == "WaitingReplay" then WaitingReplay
    else if s == "FinishedReplay" then FinishedReplay
    else Other(s)
  }

  /** Parsing a state's name gives the state back, for every state whose Other name is not a known one. */
  lemma ParseName(state: State)
    requires state.Other? ==> state.name !in KNOWN_STATES
    ensures ParseState(Name(state)) == state
  {
  }

  /** MMCtx, reduced to the field the verification game reads. */
  datatype Ctx = Ctx(currentState: string)

  /** serde_json decoding of a memory-manager instance's json_data, then From<MMCtxParsed>. */
  type Decoder = string -> Result<Ctx, Error>

  /** MM::react(instance, archive, &divergence_time). */
  type Reactor<-A> = (Instance, A, U256) -> Result<Reaction, Error>
}
