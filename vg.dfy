/**
 * The verification-game reactor (`VG::react`): given a snapshot of one VG
 * instance and its sub-instances, decide what the local party must do next:
 * nothing, one contract call, or whatever the partition or memory-manager
 * reactor decides for sub-instance 0.
 */
module Vg {
  import opened Wrappers
  import opened Errors
  import opened EthTypes
  import opened Dispatcher
  import Partition
  import MemoryManager

  const NEITHER_PARTY: string := "User is neither claimer nor challenger"
  const NO_PARTITION: string := "There is no partition instance "
  const NO_MEMORY_MANAGER: string := "There is no memory manager instance "
  const UNKNOWN_STATE: string := "Unknown current state "
  const VG_PARSE_FAILURE: string := "Could not parse vg instance json_data: "
  const PARTITION_PARSE_FAILURE: string := "Could not parse partition instance json_data: "
  const MM_PARSE_FAILURE: string := "Could not parse mm instance json_data: "

  const WIN_BY_PARTITION_TIMEOUT: string := "winByPartitionTimeout"
  const START_MACHINE_RUN_CHALLENGE: string := "startMachineRunChallenge"
  const SETTLE_VERIFICATION_GAME: string := "settleVerificationGame"

  datatype State =
    | WaitPartition
    | WaitMemoryProveValues
    | FinishedClaimerWon
    | FinishedChallengerWon
    | Other(name: string)
  {
    predicate IsFinished() {
      FinishedClaimerWon? || FinishedChallengerWon?
    }
  }

  const KNOWN_STATES: set<string> :=
    {"WaitPartition", "WaitMemoryProveValues", "FinishedClaimerWon", "FinishedChallengerWon"}

  function Name(state: State): string {
    match state
    case WaitPartition => "WaitPartition"
    case WaitMemoryProveValues => "WaitMemoryProveValues"
    case FinishedClaimerWon => "FinishedClaimerWon"
    case FinishedChallengerWon => "FinishedChallengerWon"
    case Other(name) => name
  }

  /** The state named by a `current_state` string; any name the code does not test for is Other. */
  function ParseState(s: string): (state: State)
    ensures Name(state) == s
    ensures state.Other? <==> s !in KNOWN_STATES
  {
    if s == "WaitPartition" then WaitPartition
    else if s == "WaitMemoryProveValues" then WaitMemoryProveValues
    else if s == "FinishedClaimerWon" then FinishedClaimerWon
    else if s == "FinishedChallengerWon" then FinishedChallengerWon
    else Other(s)
  }

  /** Parsing a state's name gives the state back, for every state whose Other name is not a known one. */
  lemma ParseName(state: State)
    requires state.Other? ==> state.name !in KNOWN_STATES
    ensures ParseState(Name(state)) == state
  {
  }

  /** U256Array6: the six uint fields of a VG contract, in storage order. */
  type U256Array6 = s: seq<U256> | |s| == 6 witness [0, 0, 0, 0, 0, 0]

  /** VGCtxParsed: the decoded json_data of a VG instance, field for field in the contract's order. */
  datatype VGCtxParsed = VGCtxParsed(
    challenger: Address,
    claimer: Address,
    machine: Address,
    initialHash: H256,
    claimedFinalHash: H256,
    hashBeforeDivergence: H256,
    hashAfterDivergence: H256,
    currentState: string,
    uintValues: U256Array6)

  /** VGCtx: the same fields, with the uint array spread into named values. */
  datatype VGCtx = VGCtx(
    challenger: Address,
    claimer: Address,
    machine: Address,
    initialHash: H256,
    claimerFinalHash: H256,
    hashBeforeDivergence: H256,
    hashAfterDivergence: H256,
    currentState: string,
    roundDuration: U256,
    finalTime: U256,
    timeOfLastMove: U256,
    mmInstance: U256,
    partitionInstance: U256,
    divergenceTime: U256)

  /** The layout of VGCtxParsed rebuilt from a VGCtx. */
  function ToParsed(ctx: VGCtx): VGCtxParsed {
    VGCtxParsed(ctx.challenger, ctx.claimer, ctx.machine, ctx.initialHash, ctx.claimerFinalHash,
                ctx.hashBeforeDivergence, ctx.hashAfterDivergence, ctx.currentState,
                [ctx.roundDuration, ctx.finalTime, ctx.timeOfLastMove,
                 ctx.mmInstance, ctx.partitionInstance, ctx.divergenceTime])
  }

  /**
   * From<VGCtxParsed> for VGCtx: total and lossless. The uint array is read
   * in order as round duration, final time, time of last move, memory-manager
   * instance, partition instance and divergence time.
   */
  function FromParsed(parsed: VGCtxParsed): (ctx: VGCtx)
    ensures ToParsed(ctx) == parsed
    ensures ctx.challenger == parsed.challenger && ctx.claimer == parsed.claimer
    ensures ctx.currentState == parsed.currentState
    ensures [ctx.roundDuration, ctx.finalTime, ctx.timeOfLastMove,
             ctx.mmInstance, ctx.partitionInstance, ctx.divergenceTime] == parsed.uintValues
  {
    var v := parsed.uintValues;
    VGCtx(parsed.challenger, parsed.claimer, parsed.machine, parsed.initialHash, parsed.claimedFinalHash,
          parsed.hashBeforeDivergence, parsed.hashAfterDivergence, parsed.currentState,
          v[0], v[1], v[2], v[3], v[4], v[5])
  }

  lemma FromToParsed(ctx: VGCtx)
    ensures FromParsed(ToParsed(ctx)) == ctx
  {
  }

  datatype Role = Claimer | Challenger

  /** The role of the viewing user: the claimer test comes first, so a user who is both is the claimer. */
  function ClassifyRole(user: Address, ctx: VGCtx): (r: Result<Role, Error>)
    ensures r == Ok(Claimer) <==> user == ctx.claimer
    ensures r == Ok(Challenger) <==> user != ctx.claimer && user == ctx.challenger
    ensures r.Err? <==> user != ctx.claimer && user != ctx.challenger
    ensures r.Err? ==> r.error == InvalidContractState(NEITHER_PARTY)
  {
    if user == ctx.claimer then Ok(Claimer)
    else if user == ctx.challenger then Ok(Challenger)
    else Err(InvalidContractState(NEITHER_PARTY))
  }

  /** The contract calls each role may propose on its own account. */
  function MovesOf(role: Role): set<string> {
    match role
    case Claimer => {WIN_BY_PARTITION_TIMEOUT, START_MACHINE_RUN_CHALLENGE}
    case Challenger => {SETTLE_VERIFICATION_GAME}
  }

  /** The call `name([index])` on the instance's contract, with no value, submitted the simplest way. */
  function CallOn(instance: Instance, name: string): (reaction: Reaction)
    ensures reaction.Transaction?
    ensures reaction.request.concern == instance.concern
    ensures reaction.request.value == 0
    ensures reaction.request.functionName == name
    ensures reaction.request.data == [Uint(instance.index)]
    ensures reaction.request.strategy == Simplest
  {
    Transaction(TransactionRequest(instance.concern, 0, name, [Uint(instance.index)], Simplest))
  }

  /** The collaborators of the reactor: the JSON decoders and the two nested reactors. */
  datatype Collaborators<!A> = Collaborators(
    decodeVg: string -> Result<VGCtxParsed, Error>,
    decodePartition: Partition.Decoder,
    decodeMM: MemoryManager.Decoder,
    partitionReact: Partition.Reactor<A>,
    mmReact: MemoryManager.Reactor<A>)

  /** The result is exactly what a nested reactor returned for sub-instance 0. */
  predicate Delegated<A>(instance: Instance, ctx: VGCtx, archive: A, env: Collaborators<A>,
                         r: Result<Reaction, Error>)
  {
    && |instance.subInstances| > 0
    && (|| r == env.partitionReact(instance.subInstances[0], archive)
        || r == env.mmReact(instance.subInstances[0], archive, ctx.divergenceTime))
  }

  /**
   * The decision of VG::react once the instance's state is decoded: the
   * terminal check, the role, then the table of role and state.
   */
  function Decide<A>(instance: Instance, ctx: VGCtx, archive: A, env: Collaborators<A>): (r: Result<Reaction, Error>)
    // a finished game needs nothing, whoever asks and whatever the sub-instances are
    ensures ParseState(ctx.currentState).IsFinished() ==> r == Ok(Idle)
    // a user who is neither party gets an error and never a transaction
    ensures (&& !ParseState(ctx.currentState).IsFinished()
             && instance.concern.userAddress != ctx.claimer
             && instance.concern.userAddress != ctx.challenger) ==>
      r == Err(InvalidContractState(NEITHER_PARTY))
    // the claimer
    ensures (&& instance.concern.userAddress == ctx.claimer
             && ParseState(ctx.currentState) == WaitPartition) ==>
      if |instance.subInstances| == 0 then
        r == Err(InvalidContractState(NO_PARTITION + ctx.currentState))
      else
        var sub := instance.subInstances[0];
        match env.decodePartition(sub.jsonData)
        case Err(e) => r == Err(Chained(PARTITION_PARSE_FAILURE + instance.jsonData, e))
        case Ok(partition) =>
          var state := Partition.ParseState(partition.currentState);
          && (state.ChallengerWon? || state.ClaimerWon? ==> r == Ok(CallOn(instance, WIN_BY_PARTITION_TIMEOUT)))
          && (state.DivergenceFound? ==> r == Ok(CallOn(instance, START_MACHINE_RUN_CHALLENGE)))
          && (state.Other? ==> r == env.partitionReact(sub, archive))
    ensures (&& instance.concern.userAddress == ctx.claimer
             && ParseState(ctx.currentState) == WaitMemoryProveValues) ==>
      r == Ok(Idle)
    ensures instance.concern.userAddress == ctx.claimer && ParseState(ctx.currentState).Other? ==>
      r == Err(InvalidContractState(UNKNOWN_STATE + ctx.currentState))
    // the challenger
    ensures (&& instance.concern.userAddress != ctx.claimer
             && instance.concern.userAddress == ctx.challenger
             && ParseState(ctx.currentState) == WaitPartition) ==>
      if |instance.subInstances| == 0 then
        r == Err(InvalidContractState(NO_PARTITION + ctx.currentState))
      else
        r == env.partitionReact(instance.subInstances[0], archive)
    ensures (&& instance.concern.userAddress != ctx.claimer
             && instance.concern.userAddress == ctx.challenger
             && ParseState(ctx.currentState) == WaitMemoryProveValues) ==>
      if |instance.subInstances| == 0 then
        r == Err(InvalidContractState(NO_MEMORY_MANAGER + ctx.currentState))
      else
        var sub := instance.subInstances[0];
        match env.decodeMM(sub.jsonData)
        case Err(e) => r == Err(Chained(MM_PARSE_FAILURE + instance.jsonData, e))
        case Ok(mm) =>
          var state := MemoryManager.ParseState(mm.currentState);
          && (state.WaitingProofs? ==> r == env.mmReact(sub, archive, ctx.divergenceTime))
          && (state.WaitingReplay? ==> r == Ok(CallOn(instance, SETTLE_VERIFICATION_GAME)))
          && (state.FinishedReplay? || state.Other? ==> r == Ok(Idle))
    ensures (&& instance.concern.userAddress != ctx.claimer
             && instance.concern.userAddress == ctx.challenger
             && ParseState(ctx.currentState).Other?) ==>
      r == Err(InvalidContractState(UNKNOWN_STATE + ctx.currentState))
    // a transaction the reactor builds itself is one of the moves of the user's role
    ensures r.Ok? && r.value.Transaction? && !Delegated(instance, ctx, archive, env, r) ==>
      && ClassifyRole(instance.concern.userAddress, ctx).Ok?
      && r.value.request.functionName in MovesOf(ClassifyRole(instance.concern.userAddress, ctx).value)
      && r.value == CallOn(instance, r.value.request.functionName)
  {
    var state := ParseState(ctx.currentState);
    if state.IsFinished() then
      Ok(Idle)
    else
      match ClassifyRole(instance.concern.userAddress, ctx)
      case Err(e) => Err(e)
      case Ok(Claimer) =>
        (match state
         case WaitPartition =>
           (match SubInstance(instance, 0).OkOr(InvalidContractState(NO_PARTITION + ctx.currentState))
            case Err(e) => Err(e)
            case Ok(sub) =>
              match env.decodePartition(sub.jsonData)
              case Err(e) => Err(Chained(PARTITION_PARSE_FAILURE + instance.jsonData, e))
              case Ok(partition) =>
                var partitionState := Partition.ParseState(partition.currentState);
                if partitionState.ChallengerWon? || partitionState.ClaimerWon? then
                  Ok(CallOn(instance, WIN_BY_PARTITION_TIMEOUT))
                else if partitionState.DivergenceFound? then
                  Ok(CallOn(instance, START_MACHINE_RUN_CHALLENGE))
                else
                  env.partitionReact(sub, archive))
         case WaitMemoryProveValues =>
           Ok(Idle)
         case _ =>
           Err(InvalidContractState(UNKNOWN_STATE + ctx.currentState)))
      case Ok(Challenger) =>
        match state
        case WaitPartition =>
          (match SubInstance(instance, 0).OkOr(InvalidContractState(NO_PARTITION + ctx.currentState))
           case Err(e) => Err(e)
           case Ok(sub) => env.partitionReact(sub, archive))
        case WaitMemoryProveValues =>
          (match SubInstance(instance, 0).OkOr(InvalidContractState(NO_MEMORY_MANAGER + ctx.currentState))
           case Err(e) => Err(e)
           case Ok(sub) =>
             match env.decodeMM(sub.jsonData)
             case Err(e) => Err(Chained(MM_PARSE_FAILURE + instance.jsonData, e))
             case Ok(mm) =>
               var mmState := MemoryManager.ParseState(mm.currentState);
               if mmState.WaitingProofs? then
                 env.mmReact(sub, archive, ctx.divergenceTime)
               else if mmState.WaitingReplay? then
                 Ok(CallOn(instance, SETTLE_VERIFICATION_GAME))
               else
                 Ok(Idle))
        case _ =>
          Err(InvalidContractState(UNKNOWN_STATE + ctx.currentState))
  }

  /**
   * VG::react: decode the instance's json_data (a failure is reported with
   * the raw data), convert it to a VGCtx and decide.
   */
  function React<A>(instance: Instance, archive: A, env: Collaborators<A>): (r: Result<Reaction, Error>)
    ensures env.decodeVg(instance.jsonData).Err? ==>
      r == Err(Chained(VG_PARSE_FAILURE + instance.jsonData, env.decodeVg(instance.jsonData).error))
    ensures env.decodeVg(instance.jsonData).Ok? ==>
      r == Decide(instance, FromParsed(env.decodeVg(instance.jsonData).value), archive, env)
    // the terminal check reads only the decoded state name
    ensures (&& env.decodeVg(instance.jsonData).Ok?
             && ParseState(env.decodeVg(instance.jsonData).value.currentState).IsFinished()) ==>
      r == Ok(Idle)
  {
    match env.decodeVg(instance.jsonData)
    case Err(e) => Err(Chained(VG_PARSE_FAILURE + instance.jsonData, e))
    case Ok(parsed) => Decide(instance, FromParsed(parsed), archive, env)
  }

  /**
   * The decision reads nothing of the context but the two parties, the state
   * and the divergence time, and nothing of the instance but its index, its
   * concern, its json_data (for messages) and sub-instance 0.
   */
  lemma DecisionReadsOnly<A>(i1: Instance, i2: Instance, c1: VGCtx, c2: VGCtx, archive: A, env: Collaborators<A>)
    requires i1.index == i2.index && i1.concern == i2.concern && i1.jsonData == i2.jsonData
    requires |i1.subInstances| == 0 <==> |i2.subInstances| == 0
    requires |i1.subInstances| > 0 ==> i1.subInstances[0] == i2.subInstances[0]
    requires c1.claimer == c2.claimer && c1.challenger == c2.challenger
    requires c1.currentState == c2.currentState && c1.divergenceTime == c2.divergenceTime
    ensures Decide(i1, c1, archive, env) == Decide(i2, c2, archive, env)
  {
  }
}
