/** Types shared by several components. */
module Basics {

  newtype byte = b: int | 0 <= b < 256

  datatype Option<+T> = None | Some(value: T)

  function One(b: bool): nat {
    if b then 1 else 0
  }

  lemma Regroup<T>(a: seq<T>, b: seq<T>, c: seq<T>)
    ensures a + (b + c) == a + b + c
  {
  }
}

module ConnectionStates {

  /** The states of a TcpConnection. */
  datatype StateE = Connecting | Connected | Disconnecting | Disconnected
}
