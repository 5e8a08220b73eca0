/** Failure-carrying wrappers used by every operation of the model. */
module Results {

  /** An optional value: `None` stands for "absent". */
  datatype Option<+T> = None | Some(value: T)

  /** The outcome of an operation that raises instead of returning in the
      failure case: `Err` carries what would have been raised. */
  datatype Result<+T, +E> = Ok(value: T) | Err(error: E) {

    predicate IsFailure() {
      Err?
    }

    function PropagateFailure<U>(): Result<U, E>
      requires Err?
    {
      Err(error)
    }

    function Extract(): T
      requires Ok?
    {
      value
    }
  }

  /** Running a sequence of steps in order: the value of every step in
      place, or the error of the first step that fails. */
  function Collect<T, E>(outs: seq<Result<T, E>>): (r: Result<seq<T>, E>)
    ensures r.Ok? <==> forall i :: 0 <= i < |outs| ==> outs[i].Ok?
    ensures r.Ok? ==> |r.value| == |outs| && forall i :: 0 <= i < |outs| ==> outs[i] == Ok(r.value[i])
    ensures r.Err? ==> exists i :: 0 <= i < |outs| && outs[i] == Err(r.error) &&
                                   forall k :: 0 <= k < i ==> outs[k].Ok?
  {
    if outs == [] then Ok([])
    else if outs[0].Err? then Err(outs[0].error)
    else
      var rest := Collect(outs[1..]);
      assert forall i :: 1 <= i < |outs| ==> outs[1..][i - 1] == outs[i];
      if rest.Err? then Err(rest.error)
      else Ok([outs[0].value] + rest.value)
  }
}
