/**
 * The values the reactors exchange: the observed instance tree (the `state`
 * crate), the reaction a reactor returns, and the transaction request it may
 * propose (the `dispatcher` and `transaction` crates).
 */
module Dispatcher {
  import opened Wrappers
  import opened EthTypes
  import Configuration

  /** ethabi::Token, restricted to the one kind the modelled code emits. */
  datatype Token = Uint(value: U256)

  /** transaction::Strategy: how the transaction manager submits a request. */
  datatype Strategy = Simplest

  /** A contract call proposed to the transaction manager. */
  datatype TransactionRequest = TransactionRequest(
    concern: Configuration.Concern,
    value: U256,
    functionName: string,
    data: seq<Token>,
    strategy: Strategy)

  datatype Reaction = Idle | Transaction(request: TransactionRequest)

  /** state::Instance: one on-chain protocol instance, its encoded state and its sub-instances. */
  datatype Instance = Instance(
    index: U256,
    concern: Configuration.Concern,
    jsonData: string,
    subInstances: seq<Instance>)

  /** `sub_instances.get(i)` */
  function SubInstance(instance: Instance, i: nat): (r: Option<Instance>)
    ensures r.Some? <==> i < |instance.subInstances|
    ensures r.Some? ==> r.value == instance.subInstances[i]
  {
    if i < |instance.subInstances| then Some(instance.subInstances[i]) else None
  }
}
