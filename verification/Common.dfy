/** Small types shared by every module. */
module Common {

  datatype Option<+T> = None | Some(value: T) {
    function GetOr(default: T): T {
      if Some? then value else default
    }
  }

  /** The error classes the controller distinguishes in API replies. */
  datatype ApiError = NotFound | Conflict | Other

  /** What an API call answers. */
  datatype Reply<+T> = Ok(value: T) | Err(error: ApiError)

  /** The controller's own errors, as far as some branch looks at them. */
  datatype ControllerError =
    | ApiDiscoveryError
    | ClusterScopedResource
    | DestinationRemovalError
    | KubeApi(error: ApiError)

  datatype Result<+T> = Success(value: T) | Failure(error: ControllerError)

  /** For definitions that proofs should not unfold unasked: the definition takes an
      extra argument `i` and is wrapped in a quantifier over it with the trigger
      `Unfold(i)`; `assert Unfold(0)` asks for it. */
  predicate Unfold(i: int) {
    true
  }

  /** The same for definitions made of such definitions. */
  predicate Unseal(i: int) {
    true
  }
}
