/** Option and Result, and the "run each step in order, stop at the first failure" fold
    that the coordinator's batch loops follow. */
module Wrappers {

  datatype Option<+T> = None | Some(value: T)

  datatype Result<+T, +E> = Ok(value: T) | Err(error: E)

  /** Applies `f` to every element of `xs` in order and collects the results; the first
      failure aborts the whole fold. This is the shape of a loop that pushes one result per
      element and throws as soon as one element fails. */
  function Traverse<A, B, E>(xs: seq<A>, f: A -> Result<B, E>): Result<seq<B>, E>
  {
    if xs == [] then Ok([])
    else
      match Traverse(xs[..|xs| - 1], f)
      case Err(e) => Err(e)
      case Ok(ys) =>
        match f(xs[|xs| - 1])
        case Err(e) => Err(e)
        case Ok(y) => Ok(ys + [y])
  }

  /** The fold succeeds exactly when every step does, and then it holds one result per
      element, in the elements' order. */
  lemma {:induction false} TraverseOk<A, B, E>(xs: seq<A>, f: A -> Result<B, E>)
    ensures Traverse(xs, f).Ok? <==> forall k :: 0 <= k < |xs| ==> f(xs[k]).Ok?
    ensures Traverse(xs, f).Ok? ==>
              |Traverse(xs, f).value| == |xs| &&
              forall k :: 0 <= k < |xs| ==> f(xs[k]) == Ok(Traverse(xs, f).value[k])
  {
    if xs != [] {
      var n := |xs| - 1;
      TraverseOk(xs[..n], f);
      assert forall k :: 0 <= k < n ==> xs[..n][k] == xs[k];
    }
  }

  /** A failing fold reports the error of the first element whose step fails. */
  lemma {:induction false} TraverseFirstErr<A, B, E>(xs: seq<A>, f: A -> Result<B, E>, k: nat)
    requires k < |xs| && f(xs[k]).Err?
    requires forall j :: 0 <= j < k ==> f(xs[j]).Ok?
    ensures Traverse(xs, f) == Err(f(xs[k]).error)
  {
    var n := |xs| - 1;
    assert forall j :: 0 <= j < n ==> xs[..n][j] == xs[j];
    if k == n {
      TraverseOk(xs[..n], f);
    } else {
      TraverseFirstErr(xs[..n], f, k);
    }
  }

  /** Whatever error a failing fold reports is the error of one of its steps. */
  lemma {:induction false} TraverseErr<A, B, E>(xs: seq<A>, f: A -> Result<B, E>)
    ensures Traverse(xs, f).Err? ==>
              exists k :: 0 <= k < |xs| && f(xs[k]) == Err(Traverse(xs, f).error)
  {
    if xs != [] {
      var n := |xs| - 1;
      TraverseErr(xs[..n], f);
      if Traverse(xs[..n], f).Err? {
        var k :| 0 <= k < n && f(xs[..n][k]) == Err(Traverse(xs[..n], f).error);
        assert xs[..n][k] == xs[k];
      } else if f(xs[n]).Err? {
        assert f(xs[n]) == Err(Traverse(xs, f).error);
      }
    }
  }

  /** The step a loop takes when element `i` fails after every earlier one succeeded. */
  lemma TraverseStep<A, B, E>(xs: seq<A>, f: A -> Result<B, E>, i: nat)
    requires i < |xs| && Traverse(xs[..i], f).Ok? && f(xs[i]).Err?
    ensures Traverse(xs, f) == Err(f(xs[i]).error)
  {
    TraverseOk(xs[..i], f);
    assert forall j :: 0 <= j < i ==> xs[..i][j] == xs[j];
    TraverseFirstErr(xs, f, i);
  }
}
