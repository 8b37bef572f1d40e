/** The error kinds of the repository's shared `error` crate that the modelled code raises. */
module Errors {

  datatype Error =
      /** ErrorKind::InvalidContractState: the on-chain state is not one the logic can act on. */
    | InvalidContractState(message: string)
      /** ErrorKind::InvalidConfig: the merged configuration is incomplete or inconsistent. */
    | InvalidConfig(message: string)
      /** `chain_err`: a context message wrapped around the error that caused it. */
    | Chained(context: string, cause: Error)
}
