/** Option and Result, the two failure-carrying shapes used across the model. */
module Wrappers {

  datatype Option<+T> = None | Some(value: T) {
    function GetOr(default: T): T {
      match this
      case Some(v) => v
      case None => default
    }
  }

  /** `Err` stands for a raised exception carrying its message or error value. */
  datatype Result<+T, +E> = Ok(value: T) | Err(error: E) {
    predicate IsFailure() {
      Err?
    }

    function PropagateFailure<U>(): Result<U, E>
      requires Err?
    {
      Err(error)
    }

    function Extract(): T
      requires Ok?
    {
      value
    }
  }

  /**
   * `items.map(f)` where `f` may raise: the first raising item ends the
   * mapping with its error; otherwise each position holds `f` of the item
   * there.
   */
  function MapResults<A, B>(f: A -> Result<B, string>, items: seq<A>): (r: Result<seq<B>, string>)
    ensures r.Ok? <==> forall i :: 0 <= i < |items| ==> f(items[i]).Ok?
    ensures r.Ok? ==> |r.value| == |items| && forall i :: 0 <= i < |items| ==> f(items[i]) == Ok(r.value[i])
    ensures r.Err? ==> exists k :: 0 <= k < |items| && f(items[k]) == Err(r.error) && forall i :: 0 <= i < k ==> f(items[i]).Ok?
  {
    if items == [] then Ok([])
    else
      match f(items[0])
      case Err(e) => Err(e)
      case Ok(first) =>
        match MapResults(f, items[1..])
        case Err(e) =>
          var k :| 0 <= k < |items[1..]| && f(items[1..][k]) == Err(e) && forall i :: 0 <= i < k ==> f(items[1..][i]).Ok?;
          assert forall i :: 1 <= i < k + 1 ==> items[i] == items[1..][i - 1];
          assert items[k + 1] == items[1..][k];
          Err(e)
        case Ok(rest) =>
          var all := [first] + rest;
          assert forall i :: 1 <= i < |items| ==> items[i] == items[1..][i - 1] && all[i] == rest[i - 1];
          Ok(all)
  }

  /** When every item maps to the output at its position, the mapping succeeds with that output. */
  lemma MapResultsAll<A, B>(f: A -> Result<B, string>, items: seq<A>, out: seq<B>)
    requires |out| == |items| && forall i :: 0 <= i < |items| ==> f(items[i]) == Ok(out[i])
    ensures MapResults(f, items) == Ok(out)
  {
    var r := MapResults(f, items);
    assert r.Ok?;
    assert forall i :: 0 <= i < |items| ==> r.value[i] == out[i];
    assert r.value == out;
  }
}
