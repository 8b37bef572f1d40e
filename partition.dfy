/**
 * What the verification game sees of the partition game: the names of the
 * states it tests for, the decoded context it reads, and the reactor it
 * hands control to. The partition reactor itself is not part of this model.
 */
module Partition {
  import opened Wrappers
  import opened Errors
  import opened Dispatcher

  datatype State = ChallengerWon | ClaimerWon | DivergenceFound | Other(name: string)

  const KNOWN_STATES: set<string> := {"ChallengerWon", "ClaimerWon", "DivergenceFound"}

  function Name(state: State): string {
    match state
    case ChallengerWon => "ChallengerWon"
    case ClaimerWon => "ClaimerWon"
    case DivergenceFound => "DivergenceFound"
    case Other(name) => name
  }

  /** The state named by a `current_state` string; any name the code does not test for is Other. */
  function ParseState(s: string): (state: State)
    ensures Name(state) == s
    ensures state.Other? <==> s !in KNOWN_STATES
  {
    if s == "ChallengerWon" then ChallengerWon
    else if s == "ClaimerWon" then ClaimerWon
    else if s == "DivergenceFound" then DivergenceFound
    else Other(s)
  }

  /** Parsing a state's name gives the state back, for every state whose Other name is not a known one. */
  lemma ParseName(state: State)
    requires state.Other? ==> state.name !in KNOWN_STATES
    ensures ParseState(Name(state)) == state
  {
  }

  /** PartitionCtx, reduced to the field the verification game reads. */
  datatype Ctx = Ctx(currentState: string)

  /** serde_json decoding of a partition instance's json_data, then From<PartitionCtxParsed>. */
  type Decoder = string -> Result<Ctx, Error>

  /** Partition::react(instance, archive, &()). */
  type Reactor<-A> = (Instance, A) -> Result<Reaction, Error>
}
