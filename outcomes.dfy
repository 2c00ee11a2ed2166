/** Failure-carrying results shared by the likelihood engine and the greedy decoder.
    Every exception the engine can raise is one `Error` value; an exception aborts the
    whole call, so a call yields either all of its results or the first error met. */
module Outcomes {

  datatype Option<T> = None | Some(value: T)

  /** The exceptions raised inside the core. */
  datatype Error =
    | AssertionFailed   // a sanity assert on an encoded request fails
    | IndexOutOfRange   // a log-prob row is sliced or gathered outside its bounds
    | StopListEmpty     // `until[0]` on an empty stop list
    | StopNotOneToken   // `(primary_until,) = ...` on a stop string that is not exactly one token
    | EmptySeparator    // `str.split("")`

  datatype Result<T> = Success(value: T) | Failure(error: Error)

  /** Runs a sequence of steps in order and stops at the first failure:
      all the values when every step succeeds, otherwise the error of the first failing step. */
  function Collect<T>(rs: seq<Result<T>>): (r: Result<seq<T>>)
    ensures r.Success? <==> forall i :: 0 <= i < |rs| ==> rs[i].Success?
    ensures r.Success? ==> |r.value| == |rs| && forall i :: 0 <= i < |rs| ==> r.value[i] == rs[i].value
    ensures r.Failure? ==>
              exists i :: 0 <= i < |rs| && rs[i] == Failure(r.error) && forall j :: 0 <= j < i ==> rs[j].Success?
  {
    if rs == [] then Success([])
    else
      var init := rs[..|rs| - 1];
      assert forall i :: 0 <= i < |init| ==> init[i] == rs[i];
      match Collect(init)
      case Failure(e) => Failure(e)
      case Success(vs) =>
        match rs[|rs| - 1]
        case Failure(e) => Failure(e)
        case Success(v) => Success(vs + [v])
  }

  /** Running two stretches of steps one after the other. */
  lemma CollectConcat<T>(a: seq<Result<T>>, b: seq<Result<T>>)
    ensures Collect(a + b).Success? <==> Collect(a).Success? && Collect(b).Success?
    ensures Collect(a + b).Success? ==> Collect(a + b).value == Collect(a).value + Collect(b).value
  {
    if Collect(a).Success? && Collect(b).Success? {
      forall i | 0 <= i < |a + b| ensures (a + b)[i].Success? {
        if i >= |a| { assert (a + b)[i] == b[i - |a|]; }
      }
    }
    if Collect(a + b).Success? {
      forall i | 0 <= i < |a| ensures a[i].Success? { assert (a + b)[i] == a[i]; }
      forall i | 0 <= i < |b| ensures b[i].Success? { assert (a + b)[|a| + i] == b[i]; }
    }
  }

  /** One more step of a loop that keeps `acc == s[..k]`. */
  lemma PrefixStep<T>(s: seq<T>, k: nat, x: T)
    requires k < |s| && x == s[k]
    ensures s[..k] + [x] == s[..k + 1]
  {
  }

  /** One more successful step of a loop that keeps `Collect(rs[..k]) == Success(vs)`. */
  lemma CollectStep<T>(rs: seq<Result<T>>, k: nat, vs: seq<T>, v: T)
    requires k < |rs| && Collect(rs[..k]) == Success(vs) && rs[k] == Success(v)
    ensures Collect(rs[..k + 1]) == Success(vs + [v])
  {
    assert rs[..k + 1][..k] == rs[..k];
  }

  /** A loop that has run the first `k` steps successfully stops at step `k` with its error. */
  lemma CollectStopsAt<T>(rs: seq<Result<T>>, k: nat)
    requires k < |rs| && Collect(rs[..k]).Success? && rs[k].Failure?
    ensures Collect(rs) == Failure(rs[k].error)
  {
    assert forall i :: 0 <= i < k ==> rs[..k][i] == rs[i];
  }
}
