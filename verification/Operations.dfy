/** The life of one operation, and the lifecycle tables it and the connections obey. */
module Operations {
  import opened Bytes
  import opened Frames

  datatype ConnectionState = Created | Connecting | Accepting | Active | Draining | Closing | Closed

  predicate CanTransition(from: ConnectionState, to: ConnectionState) {
    match from
    case Created => to.Connecting? || to.Accepting?
    case Connecting => to.Active?
    case Accepting => to.Active?
    case Active => to.Draining? || to.Closing? || to.Closed?
    case Draining => to.Closing? || to.Closed?
    case Closing => to.Closed?
    case Closed => false
  }

  /** ConnectionLifecycle::transition: an illegal move leaves the state alone. */
  function Transition(from: ConnectionState, to: ConnectionState): ConnectionState {
    if CanTransition(from, to) then to else from
  }

  /** Neither new requests nor new handlers are taken on. */
  predicate ShuttingDown(state: ConnectionState) {
    state.Draining? || state.Closing? || state.Closed?
  }

  datatype OperationState = OpCreated | OpActive | OpCompleted | OpFailed | OpCancelled

  predicate CanTransitionOp(from: OperationState, to: OperationState) {
    match from
    case OpCreated => to.OpActive?
    case OpActive => to.OpCompleted? || to.OpFailed? || to.OpCancelled?
    case _ => false
  }

  datatype Op = Op(
    state: OperationState, result: Option<StatusCode>, cancellationRequested: bool, timedOut: bool)
  {
    predicate Terminal() {
      state.OpCompleted? || state.OpFailed? || state.OpCancelled?
    }
  }

  const FRESH_OP := Op(OpActive, None, false, false)

  function Finish(op: Op, terminal: OperationState, status: StatusCode): (Op, bool) {
    if CanTransitionOp(op.state, terminal) then (op.(state := terminal, result := Some(status)), true)
    else (op, false)
  }

  function Complete(op: Op): (Op, bool) {
    Finish(op, OpCompleted, Ok)
  }

  function Fail(op: Op, status: StatusCode): (Op, bool) {
    if status.Ok? then (op, false) else Finish(op, OpFailed, status)
  }

  function RequestCancellation(op: Op): (Op, bool) {
    if op.Terminal() then (op, false) else (op.(cancellationRequested := true), true)
  }

  function Cancel(op: Op): (Op, bool) {
    var (requested, ok) := RequestCancellation(op);
    if !ok then (op, false) else Finish(requested, OpCancelled, Cancelled)
  }

  function Timeout(op: Op): (Op, bool) {
    var (finished, did) := Finish(op, OpFailed, TimeoutError);
    (finished.(timedOut := op.timedOut || did), did)
  }

  /** What every operation that was activated satisfies: a result exactly when terminal, of the kind
      the terminal state says, and a deadline recorded only with its own failure. */
  predicate Coherent(op: Op) {
    && !op.state.OpCreated?
    && (op.Terminal() <==> op.result.Some?)
    && (op.state.OpCompleted? ==> op.result == Some(Ok))
    && (op.state.OpFailed? ==> op.result.Some? && !op.result.value.Ok?)
    && (op.state.OpCancelled? ==> op.result == Some(Cancelled) && op.cancellationRequested)
    && (op.timedOut ==> op.state.OpFailed? && op.result == Some(TimeoutError))
  }

  datatype OpEvent = DoComplete | DoFail(status: StatusCode) | DoCancel | DoTimeout | DoRequestCancellation

  function ApplyOp(op: Op, e: OpEvent): (Op, bool) {
    match e
    case DoComplete => Complete(op)
    case DoFail(s) => Fail(op, s)
    case DoCancel => Cancel(op)
    case DoTimeout => Timeout(op)
    case DoRequestCancellation => RequestCancellation(op)
  }

  function RunOp(op: Op, es: seq<OpEvent>): Op
    decreases es
  {
    if es == [] then op else RunOp(ApplyOp(op, es[0]).0, es[1..])
  }

  /** The first terminal event wins: after it no sequence of events changes the operation. */
  lemma {:induction false} FirstResultIsFinal(op: Op, es: seq<OpEvent>)
    requires Coherent(op)
    ensures Coherent(RunOp(op, es))
    ensures op.Terminal() ==> RunOp(op, es) == op
    decreases es
  {
    if es != [] {
      FirstResultIsFinal(ApplyOp(op, es[0]).0, es[1..]);
    }
  }

  /** An operation that refuses to complete is left exactly as it was. */
  lemma RefusedUnchanged(op: Op)
    ensures !Complete(op).1 ==> Complete(op).0 == op
  {
  }

  /** The operation object shared by a request, its handle and its timer. */
  class Operation {
    const stream: u64
    var state: OperationState
    var result: Option<StatusCode>
    var cancellationRequested: bool
    var timedOut: bool

    ghost function View(): Op
      reads this
    {
      Op(state, result, cancellationRequested, timedOut)
    }

    /** Constructed and activated. */
    constructor (stream: u64)
      ensures View() == FRESH_OP && this.stream == stream
    {
      this.stream := stream;
      state, result := OpActive, None;
      cancellationRequested, timedOut := false, false;
    }

    predicate IsTerminal()
      reads this
      ensures IsTerminal() == View().Terminal()
    {
      state.OpCompleted? || state.OpFailed? || state.OpCancelled?
    }

    method FinishWith(terminal: OperationState, status: StatusCode) returns (ok: bool)
      modifies this
      ensures (View(), ok) == Finish(old(View()), terminal, status)
    {
      if !CanTransitionOp(state, terminal) {
        return false;
      }
      state := terminal;
      result := Some(status);
      ok := true;
    }

    method CompleteOp() returns (ok: bool)
      modifies this
      ensures (View(), ok) == Complete(old(View()))
    {
      ok := FinishWith(OpCompleted, Ok);
    }

    method FailOp(status: StatusCode) returns (ok: bool)
      modifies this
      ensures (View(), ok) == Fail(old(View()), status)
    {
      if status.Ok? {
        return false;
      }
      ok := FinishWith(OpFailed, status);
    }

    method RequestCancel() returns (ok: bool)
      modifies this
      ensures (View(), ok) == RequestCancellation(old(View()))
    {
      if IsTerminal() {
        return false;
      }
      cancellationRequested := true;
      ok := true;
    }

    method CancelOp() returns (ok: bool)
      modifies this
      ensures (View(), ok) == Cancel(old(View()))
    {
      ok := RequestCancel();
      if ok {
        ok := FinishWith(OpCancelled, Cancelled);
      }
    }

    method TimeoutOp() returns (did: bool)
      modifies this
      ensures (View(), did) == Timeout(old(View()))
    {
      did := FinishWith(OpFailed, TimeoutError);
      timedOut := timedOut || did;
    }
  }
}
