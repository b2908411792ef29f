/** The legal life of a node: the transition table and the terminal statuses. */
module NodeMachine {
  import opened Wrappers

  datatype Status =
    | Planned | Ready | Running | Waiting | Verifying | Completed | Failed | Retrying
    | Compensating | RolledBack | Quarantined | Cancelled | Skipped

  datatype NodeEvent =
    | Prepare | Start | Wait | Approve | Deny | Verify | Complete | Fail | Retry | Resume
    | Compensate | Rollback | Quarantine | Cancel | Skip

  /** The table lookup; `None` where the program throws an illegal-transition error. */
  function Transition(from: Status, event: NodeEvent): Option<Status> {
    match (from, event)
    case (Planned, Prepare) => Some(Ready)
    case (Planned, Cancel) => Some(Cancelled)
    case (Planned, Skip) => Some(Skipped)
    case (Ready, Start) => Some(Running)
    case (Ready, Cancel) => Some(Cancelled)
    case (Running, Wait) => Some(Waiting)
    case (Running, Verify) => Some(Verifying)
    case (Running, Fail) => Some(Failed)
    case (Running, Cancel) => Some(Cancelled)
    case (Waiting, Approve) => Some(Running)
    case (Waiting, Deny) => Some(Failed)
    case (Waiting, Cancel) => Some(Cancelled)
    case (Verifying, Complete) => Some(Completed)
    case (Verifying, Fail) => Some(Failed)
    case (Failed, Retry) => Some(Retrying)
    case (Failed, Compensate) => Some(Compensating)
    case (Failed, Quarantine) => Some(Quarantined)
    case (Failed, Cancel) => Some(Cancelled)
    case (Retrying, Resume) => Some(Running)
    case (Compensating, Rollback) => Some(RolledBack)
    case _ => None
  }

  predicate Terminal(s: Status) {
    (s == Completed || s == Failed || s == RolledBack || s == Quarantined || s == Cancelled || s == Skipped)
  }

  /** Statuses that nothing in the table leaves. */
  predicate Final(s: Status) {
    forall e :: Transition(s, e).None?
  }

  /** Terminal and final are not the same notion: a failed node may still be retried or undone. */
  lemma TerminalVersusFinal(s: Status)
    ensures Final(s) <==> Terminal(s) && s != Failed
  {
    match s
    case Planned => assert Transition(s, Prepare).Some?;
    case Ready => assert Transition(s, Start).Some?;
    case Running => assert Transition(s, Wait).Some?;
    case Waiting => assert Transition(s, Approve).Some?;
    case Verifying => assert Transition(s, Complete).Some?;
    case Failed => assert Transition(s, Retry).Some?;
    case Retrying => assert Transition(s, Resume).Some?;
    case Compensating => assert Transition(s, Rollback).Some?;
    case _ =>
  }
}
