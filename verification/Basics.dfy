/** Small datatypes shared by the models. */
module Basics {
  datatype Option<+T> = None | Some(value: T)

  /** A serialized payload; its bytes do not matter here. */
  type Payload(!new, ==)

  /** Why a future, an activation or a codec call failed. Error texts are reduced to a tag. */
  datatype Fault =
    | InvalidRequest | EncodingFailed
    | MissingResult | OperationFailed | OperationCancelled | BackoffUnsupported | NoStatus
    | StartFailed | StartCancelled
    | CoroutinePanicked | UserFault(code: nat)

  /** What a workflow future can hold. */
  datatype Value =
    | NilValue
    | PayloadValue(payload: Option<Payload>)
    | ChildStarted(workflowId: WorkflowId, childRunId: string)
    | SignalValue(input: seq<Payload>)
    | UserValue(user: Payload)

  /** A child workflow ID is either given by the caller or derived from run ID and sequence number. */
  datatype WorkflowId = GivenId(id: string) | DerivedId(runId: string, sequence: nat)

  datatype Outcome = Outcome(value: Value, fault: Option<Fault>)

  const UNSET := Outcome(NilValue, None)

  /** The first `n` numbers. */
  ghost function Below(n: nat): (s: set<nat>)
    ensures |s| == n && forall i: nat :: i in s <==> i < n
  {
    if n == 0 then {} else Below(n - 1) + {n - 1}
  }

  /** A sum of weights. */
  function Weigh<T>(xs: seq<T>, f: T -> nat): nat {
    if xs == [] then 0 else Weigh(xs[..|xs| - 1], f) + f(xs[|xs| - 1])
  }

  lemma {:induction false} WeighUpdate<T>(xs: seq<T>, i: nat, x: T, f: T -> nat)
    requires i < |xs|
    ensures Weigh(xs[i := x], f) + f(xs[i]) == Weigh(xs, f) + f(x)
  {
    var init := xs[..|xs| - 1];
    if i < |init| {
      WeighUpdate(init, i, x, f);
      assert xs[i := x][..|xs| - 1] == init[i := x];
    } else {
      assert xs[i := x][..|xs| - 1] == init;
    }
  }

  lemma WeighAppend<T>(xs: seq<T>, x: T, f: T -> nat)
    ensures Weigh(xs + [x], f) == Weigh(xs, f) + f(x)
  {
    assert (xs + [x])[..|xs + [x]| - 1] == xs;
  }
}
