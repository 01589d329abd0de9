/** The mutex-guarded lifecycle of the symbolizer worker.

  The transitions are written once as functions on the state; the class below is the
  object the worker, the clients and the handle share, and each of its methods is one
  critical section proved against the corresponding function.
*/
module SymbolizerLifecycle {
  import opened Common

  datatype SymbolizeError =
    | NotFound
    | NoSymbolFile
    | Backend
    | QueueFull
    | Timeout
    | WorkerStopped
    | WorkerPanic
    | ShutdownTimeout

  /** The name an error has in a degradation. */
  function Kind(error: SymbolizeError): string {
    match error
    case NotFound => "not_found"
    case NoSymbolFile => "no_symbol_file"
    case Backend => "backend"
    case QueueFull => "queue_full"
    case Timeout => "timeout"
    case WorkerStopped => "worker_stopped"
    case WorkerPanic => "worker_panic"
    case ShutdownTimeout => "shutdown_timeout"
  }

  datatype WorkerState = Running | Executing | ShutdownRequested | Stopped | Panicked

  /** The error a caller is told when it looks at a lifecycle that takes no more requests. */
  function TerminalError(state: WorkerState): Option<SymbolizeError> {
    match state
    case Running | Executing => None
    case ShutdownRequested | Stopped => Some(WorkerStopped)
    case Panicked => Some(WorkerPanic)
  }

  /** What `begin_request` decides; Impossible is its `unreachable!` arm. */
  datatype BeginDecision = Begun | Refused(error: SymbolizeError) | BeginImpossible

  function BeginRequest(state: WorkerState): BeginDecision {
    match state
    case Running => Begun
    case ShutdownRequested | Stopped => Refused(WorkerStopped)
    case Panicked => Refused(WorkerPanic)
    case Executing => BeginImpossible
  }

  /** What `finish_request` decides; Impossible is its `unreachable!` arm. */
  datatype FinishDecision = KeepServing | StopServing | FinishImpossible

  function FinishRequest(state: WorkerState): FinishDecision {
    match state
    case Executing => KeepServing
    case ShutdownRequested | Stopped | Panicked => StopServing
    case Running => FinishImpossible
  }

  /** Only a second request at once, or an end without a beginning, would be impossible; in every other state both
      decisions follow the terminal error. */
  lemma ImpossibleOnlyOutOfTurn(state: WorkerState)
    ensures BeginRequest(state).BeginImpossible? <==> state.Executing?
    ensures FinishRequest(state).FinishImpossible? <==> state.Running?
    ensures TerminalError(state).Some? ==>
              BeginRequest(state) == Refused(TerminalError(state).value) && FinishRequest(state).StopServing?
  {}

  predicate AcceptsShutdown(state: WorkerState) {
    state.Running? || state.Executing?
  }

  function RequestShutdown(state: WorkerState): WorkerState {
    if AcceptsShutdown(state) then ShutdownRequested else state
  }

  predicate ShutdownObserved(state: WorkerState) {
    state.ShutdownRequested? || state.Stopped?
  }

  function MarkStopped(state: WorkerState): WorkerState {
    if state.Panicked? then state else Stopped
  }

  class WorkerLifecycle {
    var state: WorkerState

    constructor ()
      ensures state == Running
    {
      state := Running;
    }

    method CheckTerminal() returns (error: Option<SymbolizeError>)
      ensures error == TerminalError(state)
      ensures error.None? <==> AcceptsShutdown(state)
    {
      match state {
        case Running => error := None;
        case Executing => error := None;
        case ShutdownRequested => error := Some(WorkerStopped);
        case Stopped => error := Some(WorkerStopped);
        case Panicked => error := Some(WorkerPanic);
      }
    }

    /** The only caller is the worker, which never holds two requests at once. */
    method Begin() returns (refusal: Option<SymbolizeError>)
      requires !BeginRequest(state).BeginImpossible?
      modifies this
      ensures match BeginRequest(old(state))
              case Refused(error) => refusal == Some(error) && state == old(state)
              case _ => refusal == None && state == Executing
      ensures refusal == TerminalError(old(state))
    {
      match state {
        case Running =>
          state := Executing;
          refusal := None;
        case ShutdownRequested => refusal := Some(WorkerStopped);
        case Stopped => refusal := Some(WorkerStopped);
        case Panicked => refusal := Some(WorkerPanic);
        case Executing => assert false;
      }
    }

    method Finish() returns (stop: bool)
      requires !FinishRequest(state).FinishImpossible?
      modifies this
      ensures stop <==> FinishRequest(old(state)).StopServing?
      ensures state == if stop then old(state) else Running
      ensures stop <==> TerminalError(old(state)).Some?
    {
      match state {
        case Executing =>
          state := Running;
          stop := false;
        case ShutdownRequested => stop := true;
        case Stopped => stop := true;
        case Panicked => stop := true;
        case Running => assert false;
      }
    }

    method RequestStop() returns (accepted: bool)
      modifies this
      ensures state == RequestShutdown(old(state))
      ensures accepted <==> TerminalError(old(state)).None?
      ensures TerminalError(state).Some?
      ensures !accepted ==> state == old(state)
    {
      if state.Running? || state.Executing? {
        state := ShutdownRequested;
        accepted := true;
      } else {
        accepted := false;
      }
    }

    /** A panic is never overwritten by an orderly stop. */
    method RecordStopped()
      modifies this
      ensures state == MarkStopped(old(state))
      ensures state.Panicked? <==> old(state).Panicked?
    {
      if state != Panicked {
        state := Stopped;
      }
    }

    method RecordPanicked()
      modifies this
      ensures state == Panicked
    {
      state := Panicked;
    }
  }
}
