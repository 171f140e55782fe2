/** The two result shapes the other modules share. */
module Wrappers {
  datatype Option<+T> = None | Some(value: T)
  datatype Result<+R, +E> = Ok(value: R) | Err(error: E)

  /** The kinds of failure the repository tells apart (sdk and core errors use one list here). */
  datatype Error =
    | Network | Timeout
    | NotFound | Forbidden | Corrupt | OutOfOrder(expected: nat) | ServerOther
    | Protocol | Integrity | Usage | Io | AccountBusy
}
