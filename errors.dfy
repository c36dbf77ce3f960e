/** Go error values as far as the handler inspects them: errors.Is against the sentinels of the
    context package. */
module Errors {
  /** The identity of one error value in a wrapping chain. */
  datatype Sentinel = DeadlineExceeded | Canceled | Opaque(id: nat)

  /** An error value: `chain` lists the error itself followed by what successive Unwrap calls
      return; `message` is the text its Error method gives (the detail that is only logged). */
  datatype Error = Error(chain: seq<Sentinel>, message: string)

  /** The meaning of errors.Is(err, target): some error along the Unwrap chain is `target`. */
  predicate Wraps(err: Error, target: Sentinel) {
    target in err.chain
  }

  /** errors.Is: compares each error of the chain with `target`, unwrapping until the chain
      ends. */
  method Is(err: Error, target: Sentinel) returns (found: bool)
    ensures found <==> Wraps(err, target)
  {
    var i := 0;
    while i < |err.chain|
      invariant 0 <= i <= |err.chain|
      invariant target !in err.chain[..i]
    {
      if err.chain[i] == target {
        return true;
      }
      i := i + 1;
    }
    assert err.chain[..i] == err.chain;
    return false;
  }
}
