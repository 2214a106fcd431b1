/** The durable record of one mutating operation of an Instance Manager, and
    the ends an operation is settled with. */
module Operations {

  datatype Option<+T> = None | Some(value: T)

  datatype Kind = Backup | Restore | HABootstrap

  datatype State =
    | Pending | RunningBackup | Uploading | Downloading | Restoring
    | Creating | Starting | Completed | Failed | CleaningUp
  {
    predicate IsTerminal() {
      Completed? || Failed?
    }
  }

  datatype Artifact = Artifact(manifestURI: string, database: string, cubridVersion: string)

  /** Times are left out: nothing decides by them. */
  datatype Operation = Operation(
    id: string, kind: Kind, key: string, hash: string, database: string,
    state: State, reason: string, artifact: Option<Artifact>, restored: Option<Artifact>, stagingDir: string)

  /** The fields admission matches on; no change of a record touches them. */
  predicate SameIdentity(a: Operation, b: Operation) {
    a.id == b.id && a.kind == b.kind && a.key == b.key && a.hash == b.hash && a.database == b.database
  }

  /** How an operation ended, as its worker hands it to Settle. */
  datatype End = EndFailed(reason: string) | EndCompleted(artifact: Option<Artifact>)

  function Ended(op: Operation, end: End): Operation {
    match end
    case EndFailed(reason) => op.(state := Failed, reason := reason)
    case EndCompleted(None) => op.(state := Completed)
    case EndCompleted(Some(a)) => op.(state := Completed, artifact := Some(a))
  }

  const ReasonRestarted := "manager restarted while operation was in progress"

  function Interrupted(op: Operation): Operation {
    op.(state := Failed, reason := ReasonRestarted)
  }

  /** What a running operation changes in its own record. */
  datatype Change = SetState(state: State) | SetRestored(artifact: Artifact) | SetStaging(dir: string)

  function Changed(op: Operation, change: Change): Operation {
    match change
    case SetState(state) => op.(state := state)
    case SetRestored(a) => op.(restored := Some(a))
    case SetStaging(dir) => op.(stagingDir := dir)
  }

  /** A running operation does not declare its own end by a change; it settles. */
  predicate Progress(change: Change) {
    change.SetState? ==> !change.state.IsTerminal()
  }

  predicate IsHexDigit(c: char) {
    '0' <= c <= '9' || 'a' <= c <= 'f'
  }

  predicate IsValidId(id: string) {
    && |id| == 35
    && id[..3] == "op-"
    && forall i :: 3 <= i < |id| ==> IsHexDigit(id[i])
  }
}
