/** Optional values and results with an error, standing for TypeScript's
    optional fields (`x?: T`, `T | null`) and for thrown exceptions. */
module Wrappers {

  datatype Option<+T> = None | Some(value: T)

  datatype Result<+R, +E> = Success(value: R) | Failure(error: E)

  /** How an awaited promise settled: the simulated delays and the embedding
      call are asynchronous steps that either resolve or reject. */
  datatype Settled = Fulfilled | Rejected(reason: string)
}
