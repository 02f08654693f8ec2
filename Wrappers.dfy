/** Optional values and results with an error message, the shapes the
    ticket-alert code uses for `None` returns and raised exceptions. */
module Wrappers {

  datatype Option<T> = None | Some(value: T)
  {
    predicate IsSome() { Some? }

    function GetOr(default: T): (r: T)
      ensures Some? ==> r == value
      ensures None? ==> r == default
    {
      match this
      case Some(v) => v
      case None => default
    }
  }

  /** A computation that either yields a value or raises an error. */
  datatype Result<T> = Ok(value: T) | Err(error: string)
  {
    predicate IsFailure() { Err? }
  }

  /** The values of `rs` in order, or the first error among them: a loop
      that stops at the first raised exception. */
  function Collect<T>(rs: seq<Result<T>>): Result<seq<T>>
  {
    if rs == [] then Ok([])
    else match rs[0]
      case Err(e) => Err(e)
      case Ok(x) =>
        match Collect(rs[1..])
        case Err(e) => Err(e)
        case Ok(xs) => Ok([x] + xs)
  }

  /** `Collect` succeeds exactly when every element does, with their values
      in order. */
  lemma {:induction false} CollectAllOk<T>(rs: seq<Result<T>>)
    ensures Collect(rs).Ok? <==> forall i :: 0 <= i < |rs| ==> rs[i].Ok?
    ensures Collect(rs).Ok? ==>
              |Collect(rs).value| == |rs| && forall i :: 0 <= i < |rs| ==> Collect(rs).value[i] == rs[i].value
  {
    if rs != [] {
      CollectAllOk(rs[1..]);
      assert forall j :: 0 <= j < |rs[1..]| ==> rs[1..][j] == rs[j + 1];
    }
  }

  /** Otherwise it fails with the first error. */
  lemma {:induction false} CollectFirstErr<T>(rs: seq<Result<T>>, i: nat)
    requires i < |rs| && rs[i].Err? && forall j :: 0 <= j < i ==> rs[j].Ok?
    ensures Collect(rs) == Err(rs[i].error)
  {
    if i > 0 {
      assert forall j :: 0 <= j < i - 1 ==> rs[1..][j] == rs[j + 1];
      CollectFirstErr(rs[1..], i - 1);
    }
  }

  /** Python's `xs[:n]`: a negative `n` counts from the end, and the bound
      is clamped to the sequence. */
  function Take<T>(xs: seq<T>, n: int): (r: seq<T>)
    ensures |r| <= |xs| && r == xs[..|r|]
    ensures 0 <= n <= |xs| ==> |r| == n
    ensures n > |xs| ==> r == xs
    ensures n < 0 ==> |r| == if |xs| + n > 0 then |xs| + n else 0
  {
    var k := if n >= 0 then (if n <= |xs| then n else |xs|) else (if |xs| + n > 0 then |xs| + n else 0);
    xs[..k]
  }
}
