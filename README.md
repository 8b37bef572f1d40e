# Verification-game dispatcher: a Dafny model

This project models two parts of an off-chain agent that plays an on-chain
dispute protocol, the *verification game* (VG). In that game a *claimer*
asserts the result of a computation and a *challenger* disputes it.

- **The VG reactor** (`Vg`, from `compute/src/vg.rs`). It takes one observed
  snapshot of a VG instance and decodes the instance's `json_data` into a
  context. It returns `Idle` when the game is finished. Otherwise it works out
  whether the local user is the claimer or the challenger, then applies a
  table keyed by role and state. Each entry either proposes one contract call
  (`winByPartitionTimeout`, `startMachineRunChallenge` or
  `settleVerificationGame`, each with the instance index as its only
  argument), returns `Idle`, fails with `InvalidContractState`, or hands
  sub-instance 0 to the partition or memory-manager reactor and returns that
  reactor's result unchanged.
- **Configuration merging** (`Configuration`, from
  `configuration/src/lib.rs`). Settings come from the command line, the
  environment and the configuration file. Each setting is taken from the first
  source that has it, in that order, and falls back to a default or fails.
  A main concern given as three strings must have all three parts or none.
  The list of concerns is the file's concerns followed by the main concern.
  The ABI table maps each concern to its ABI path, and later entries overwrite
  earlier ones. A `Concern` also has a fixed 40-byte encoding.

The supporting modules are small. `Dispatcher` holds the instance tree, the
reaction and the transaction request. `Partition` and `MemoryManager` hold
the state names the VG reactor tests for. `Wrappers` holds Option and Result,
`Errors` the error kinds, and `EthTypes` the fixed-width values
(`Address` is 20 bytes, `H256` is 32 bytes, `U256`, `u64`).

Collaborators whose code is not part of this model become parameters:

- the JSON decoders of the three contexts;
- the partition and memory-manager reactors;
- the hex address parser.

The `Archive` handle is a type parameter that the reactor only passes on.
`Vg.Decide` and `Vg.React` are pure functions, as the source's single nested
`match` is. The loop that builds the concern list and the ABI table is a
method (`Configuration.CollectConcerns`) proved to build exactly
`Configuration.ConcernsOf` and `Configuration.AbisOf` of its input. The method
`Configuration.CombineConfig`, which runs that loop inside combine_config's
early returns, is proved equal to its specification `Configuration.Combined`.

Behaviour of the source worth noting, which the model keeps:

- When a partition or memory-manager sub-instance cannot be decoded, the
  error message carries the *parent* instance's `json_data`
  (compute/src/vg.rs:128-132 and 211-215), not the sub-instance's. The model
  does the same.
- Unknown VG state names are not rejected while decoding. They become
  `State.Other` and are rejected only by the role dispatch. A user who is
  neither party therefore gets the "neither claimer nor challenger" error
  even when the state is unknown.
- A user who is both claimer and challenger is treated as the claimer, with
  no error.
- An unexpected memory-manager state gives `Idle`, not an error.

## Model

| member | source | states |
|---|---|---|
| Vg.ParseState | compute/src/vg.rs:95-116 | a state string maps to the named VG state, or to `Other(s)` exactly when it is none of the four names the reactor tests; the state's name gives back the string |
| Vg.ParseName | compute/src/vg.rs:95-116 | parsing the name of any state whose `Other` name is not a known one gives the same state back |
| Partition.ParseState | compute/src/vg.rs:136-153 | the partition states the reactor tests (`ChallengerWon`, `ClaimerWon`, `DivergenceFound`) and `Other(s)` for every other name; the name round-trips |
| Partition.ParseName | compute/src/vg.rs:136-153 | the partition state names round-trip the other way |
| MemoryManager.ParseState | compute/src/vg.rs:219-250 | the memory-manager states the reactor tests (`WaitingProofs`, `WaitingReplay`, `FinishedReplay`) and `Other(s)` for every other name; the name round-trips |
| MemoryManager.ParseName | compute/src/vg.rs:219-250 | the memory-manager state names round-trip the other way |
| Vg.FromParsed | compute/src/vg.rs:56-75 | the conversion is total and lossless (`ToParsed` rebuilds the parsed tuple); the uint array is read in order as round duration, final time, time of last move, memory-manager instance, partition instance, divergence time |
| Vg.FromToParsed | compute/src/vg.rs:56-75 | converting a context to the parsed layout and back gives the same context |
| Vg.ClassifyRole | compute/src/vg.rs:103-111 | the user is the claimer iff equal to `claimer`; the challenger iff not the claimer and equal to `challenger` (so a tie goes to the claimer); an `InvalidContractState` "neither" error iff equal to neither |
| Dispatcher.SubInstance | compute/src/vg.rs:118-124 | `sub_instances.get(i)` is present iff `i` is in range, and is then the i-th sub-instance |
| Vg.CallOn | compute/src/vg.rs:139-150 | every call the reactor builds itself is a transaction on the instance's concern with value 0, data `[Uint(index)]` and strategy `Simplest` |
| Vg.Decide | compute/src/vg.rs:93-259 | a finished game gives `Idle` whatever the role and sub-instances; a user who is neither party gets the error and never a transaction; the full claimer and challenger tables, including the missing sub-instance errors, the sub-instance decode errors, the three calls, `Idle` for the claimer in `WaitMemoryProveValues` and for unexpected memory-manager states, "Unknown current state" errors, and delegation to the partition reactor or to the memory-manager reactor with `divergence_time`; a transaction the reactor builds itself is one of the moves of the user's role |
| Vg.React | compute/src/vg.rs:77-100 | a decode failure of the VG `json_data` is a chained error carrying that data; otherwise the result is the decision on the converted context, and `Idle` for a decoded terminal state |
| Vg.DecisionReadsOnly | compute/src/vg.rs:114-258 | the decision depends only on the two parties, the state, the divergence time, and the instance's index, concern, `json_data` and sub-instance 0 |
| Configuration.Concern.ToBytes | configuration/src/lib.rs:81-86 | the encoding is exactly 40 bytes: the contract address in bytes 0-19 and the user address in bytes 20-39 |
| Configuration.CopyTo | configuration/src/lib.rs:83-84 | `copy_to` writes the 20 address bytes at the given offset and leaves every other byte unchanged |
| Configuration.ToConcern | configuration/src/lib.rs:49-56 | a concern keeps the contract and user addresses of the full concern |
| Configuration.ToConcernIgnoresAbi | configuration/src/lib.rs:49-56 | two full concerns give the same concern iff their addresses agree: the ABI is dropped |
| Configuration.FirstPresent | configuration/src/lib.rs:263-266 | the command-line value if present, else the environment's, else the file's; absent iff all three are absent |
| Configuration.ConfigPath | configuration/src/lib.rs:180-185 | the configuration path comes from the command line, else the environment, else `config.yaml` |
| Configuration.TrimHexPrefix | configuration/src/lib.rs:234 | the result is a suffix of the input, what was removed is only repeated `0x`, and the result does not start with `0x` |
| Configuration.ValidateConcern | configuration/src/lib.rs:222-254 | `Ok(None)` iff all three parts are absent; success iff none or all are present and both addresses parse; the concern then holds the parsed addresses and the ABI; otherwise the error names the first missing field or the first address that fails to parse, in the order contract, user, abi |
| Configuration.ResolveMainConcern | configuration/src/lib.rs:301-324 | the command line's, then the environment's concern settings (`ConcernSettings`, validate_concern on that source's three main-concern fields, lib.rs:302-313) are validated and their errors returned; the main concern is the first present of command line, environment and file; none present is an `InvalidConfig` error |
| Configuration.ConcernsOf | configuration/src/lib.rs:338 | the concern list has the same length as the full-concern list and holds each one's concern in order |
| Configuration.AbisOfKeys | configuration/src/lib.rs:326-347 | the ABI table (`AbisOf`, the reference definition: an empty map into which each full concern's ABI is inserted in list order) has a key for exactly the concerns of the list |
| Configuration.AbisOfLastWins | configuration/src/lib.rs:330-347 | a concern's entry is the ABI of its last occurrence in the list |
| Configuration.LastOccurrenceExists | configuration/src/lib.rs:330-347 | every concern in the list has a last occurrence, so the entry of every key is determined |
| Configuration.Combined | configuration/src/lib.rs:257-360 | errors in order: no url, no working path, a concern-settings error, no main concern; success iff none of these; url, working path, testing, maximal and warning delay follow the precedence with defaults `false`, 500 and 100; the concern list is the file's concerns in order then the main concern, with length file count plus 1; the ABI table has a key for each listed concern, the main concern's ABI for the main concern, and each concern's last ABI |
| Configuration.CollectConcerns | configuration/src/lib.rs:326-348 | the loop over the file's concerns, then the push of the main concern, builds exactly `ConcernsOf` and `AbisOf` of the file's concerns followed by the main concern |
| Configuration.CombineConfig | configuration/src/lib.rs:257-360 | combine_config, written with the source's early returns and loop, returns exactly `Combined` |
| Configuration.CheckDelays | configuration/src/lib.rs:209-216 | an `InvalidConfig` error iff the maximal delay is below the warning delay; otherwise the configuration unchanged |
| Configuration.New | configuration/src/lib.rs:205-216 | a merge error is returned as is; a merged configuration is then checked for its delays, so a returned configuration has warning delay at most maximal delay |

## Left out

- JSON decoding of the VG, partition and memory-manager `json_data` (serde_json) is a parameter, a function that may fail. The partition and memory-manager contexts carry only `current_state`, the one field the VG reactor reads.
- The partition and memory-manager reactors are parameters, because their code is not part of this model. The `Archive` is a type parameter that is only passed on to them.
- The address hex parser is a parameter. A PathBuf is its text, since parsing a PathBuf from a string cannot fail.
- Configuration::new's file open and read, the YAML decoding, the structopt command-line parsing and the envy environment reading are I/O and library code. `New` takes the three decoded sources as inputs.
- The `db_key::Key` implementation of `Concern` is left out. It reinterprets the struct's memory with `transmute`, and the struct's layout is not guaranteed. `ToBytes` covers the defined layout.
- Configuration.Combined: delays are kept as their u64 numbers of seconds. The source converts them in combine_config with `Duration::seconds(d as i64)`: a value of 2^63 or more wraps to a negative number of seconds (2^64 - 1 becomes -1), and the call panics for more than `i64::MAX / 1000` seconds in either direction. The model captures neither the wrap nor the panic; the same holds for Configuration.CombineConfig, which returns exactly `Combined`.
- Configuration.New: because the delays are not wrapped, the delay check compares the u64 values. Where the source's wrapped durations would compare differently (a maximal delay of 2^64 - 1 and a warning delay of 100 is an `InvalidConfig` error in the source, `Ok` in the model), the model differs; every such input has a delay of 2^63 seconds or more.
- `ethabi::Token` has only the `Uint` kind and `Strategy` only `Simplest`, the ones the modelled code emits.
- Logging (`trace!`, `info!`, `warn!`, the `println!` in Configuration::new) and the `Display` formatting are not modelled.
- The dispatcher crate (web3 connection, transaction manager, ABI encoding) and the hasher service are network and I/O plumbing, outside this model.
