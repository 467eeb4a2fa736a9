/** The object reference: a result that is set once. */
module ObjectRefs {
  import opened Base
  import opened Client

  datatype Status = Pending | Finished | Failed

  const NOT_FAILED := Error("", "")
  const TIMED_OUT := Error("TimeoutError", "remote call timed out")

  class ObjectRef {
    const callId: string
    var status: Status
    var result: Value
    var error: Error

    constructor (callId: string)
      ensures this.callId == callId && View() == Waiting
    {
      this.callId := callId;
      status, result, error := Pending, Null, NOT_FAILED;
    }

    /** The reference as the rest of the model sees it. */
    function View(): RefState
      reads this
    {
      match status
      case Pending => Waiting
      case Finished => Done(Returned(result))
      case Failed => Done(Raised(error))
    }

    method Ready() returns (ready: bool)
      ensures ready <==> View().Done?
    {
      ready := status != Pending;
    }

    /** Sets the result if nothing has been set; else it raises, and the reference keeps what it has. */
    method SetResult(value: Value) returns (ok: bool)
      modifies this
      ensures ok <==> old(View()) == Waiting
      ensures View() == Completed(old(View()), Returned(value))
    {
      if status != Pending {
        return false;
      }
      result := value;
      status := Finished;
      ok := true;
    }

    method SetError(kind: string, message: string) returns (ok: bool)
      modifies this
      ensures ok <==> old(View()) == Waiting
      ensures View() == Completed(old(View()), Raised(Error(kind, message)))
    {
      if status != Pending {
        return false;
      }
      error := Error(kind, message);
      status := Failed;
      ok := true;
    }

    /** The result, or why there is none. A waiting reference releases its lock until another thread completes it, which
        `meanwhile` tells, or until the time is over. */
    method Get(meanwhile: Option<Outcome>) returns (r: Result<Value, Error>)
      modifies this
      ensures View() == if old(View()) == Waiting && meanwhile.Some? then Done(meanwhile.value) else old(View())
      ensures r == match View()
        case Waiting => Err(TIMED_OUT)
        case Done(Returned(value)) => Ok(value)
        case Done(Raised(e)) => Err(e)
    {
      if status == Pending {
        match meanwhile {
          case None =>
          case Some(Returned(value)) => var done := SetResult(value);
          case Some(Raised(e)) => var done := SetError(e.kind, e.message);
        }
      }
      if status == Pending {
        return Err(TIMED_OUT);
      }
      if status == Failed {
        return Err(error);
      }
      r := Ok(result);
    }
  }

  /** A reference after attempts to complete it, one after the other. */
  function Attempted(state: RefState, outcomes: seq<Outcome>): RefState {
    if outcomes == [] then state else Completed(Attempted(state, outcomes[..|outcomes| - 1]), outcomes[|outcomes| - 1])
  }

  /** The first completion wins: however many threads try, the reference ends with the first outcome, and only
      the first attempt found it waiting. */
  lemma {:induction false} FirstCompletionWins(outcomes: seq<Outcome>, k: nat)
    requires k < |outcomes|
    ensures Attempted(Waiting, outcomes) == Done(outcomes[0])
    ensures Attempted(Waiting, outcomes[..k]) == Waiting <==> k == 0
  {
    if |outcomes| > 1 {
      FirstCompletionWins(outcomes[..|outcomes| - 1], 0);
    }
    if 0 < k {
      if k < |outcomes| - 1 {
        assert outcomes[..|outcomes| - 1][..k] == outcomes[..k];
        FirstCompletionWins(outcomes[..|outcomes| - 1], k);
      } else {
        FirstCompletionWins(outcomes[..k], 0);
      }
    }
  }
}
