/** Diagnostics a lifecycle function hands back to Terraform, and the
    error aggregation (`multierror.Append`) the read functions use. */
module Diag {

  datatype Option<+T> = None | Some(value: T)

  /** One failure: a remote call that failed, or an attribute write
      that the schema refused. */
  datatype Error =
    | ApiError(message: string)
    | AttributeError(key: string)

  /** What a lifecycle function returns. `Report([])` is success (a nil
      `diag.Diagnostics`); `IndexOutOfRange` is the Go runtime panic of
      indexing past the end of a slice. */
  datatype Diagnostics =
    | Report(errors: seq<Error>)
    | IndexOutOfRange
  {
    predicate Succeeded() {
      Report? && errors == []
    }
  }

  /** `multierror.Append(e1, ..., en).ErrorOrNil()`: the non-nil errors, in
      the order they were produced; empty exactly when all were nil. */
  function Append(results: seq<Option<Error>>): (r: seq<Error>)
    ensures r == [] <==> forall i | 0 <= i < |results| :: results[i].None?
    ensures |r| <= |results|
    decreases |results|
  {
    if results == [] then []
    else
      var rest := Append(results[1..]);
      assert results == [results[0]] + results[1..];
      match results[0]
      case None => rest
      case Some(e) => [e] + rest
  }

  /** The errors kept are exactly the non-nil results. */
  lemma {:induction false} AppendMembers(results: seq<Option<Error>>)
    ensures forall e :: e in Append(results) <==> Some(e) in results
    decreases |results|
  {
    if results != [] {
      AppendMembers(results[1..]);
      assert results == [results[0]] + results[1..];
    }
  }

  /** Aggregation keeps order: the errors of two runs of results are the
      first run's errors followed by the second run's. */
  lemma {:induction false} AppendConcat(a: seq<Option<Error>>, b: seq<Option<Error>>)
    ensures Append(a + b) == Append(a) + Append(b)
    decreases |a|
  {
    if a == [] {
      assert a + b == b;
    } else {
      AppendConcat(a[1..], b);
      assert (a + b)[1..] == a[1..] + b;
    }
  }

  /** `Append` one result at a time from the front. */
  lemma AppendCons(x: Option<Error>, rest: seq<Option<Error>>)
    ensures Append([x] + rest) == (if x.Some? then [x.value] else []) + Append(rest)
  {
    assert ([x] + rest)[1..] == rest;
  }
}
