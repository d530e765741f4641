/** Stock result types used by every other module. */
module Results {

  datatype Option<+T> = None | Some(value: T) {
    function GetOr(default: T): T {
      if Some? then value else default
    }
  }

  /** A Go function's (value, error) pair: exactly one of the two is meaningful. */
  datatype Result<+T, +E> = Ok(value: T) | Err(error: E)

  /** What happens to a call to an API server: it is answered, refused, or carried out and the reply lost. */
  datatype Fault = Answered | Refused | ReplyLost

  function FirstFault(faults: seq<Fault>): Fault {
    if faults == [] then Answered else faults[0]
  }

  function LaterFaults(faults: seq<Fault>): seq<Fault> {
    if faults == [] then [] else faults[1..]
  }

}
