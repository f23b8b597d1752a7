// Types shared by the models of the codecs, the store, the relay and the watcher.
module Common {
  datatype Option<+T> = None | Some(value: T)

  datatype Result<+T, +E> = Ok(value: T) | Err(error: E)

  type Byte = b: int | 0 <= b < 256

  function Max(a: int, b: int): int {
    if a < b then b else a
  }

  // What a push provider answers for one notification.
  datatype Outcome = Delivered | TokenInvalid | Transient

  lemma {:induction false} SubsetSize<T>(a: set<T>, b: set<T>)
    requires a <= b
    ensures |a| <= |b|
  {
    if a == {} {
    } else {
      var x :| x in a;
      SubsetSize(a - {x}, b - {x});
    }
  }
}
