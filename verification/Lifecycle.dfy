/** The transaction entity: lifecycle states, the reconciliation detour and the version counter. */
module Lifecycle {
  import opened Results
  import Text

  datatype Status = CREATED | AUTHORIZED | DECLINED | CAPTURED | REFUNDED | PENDING_RECONCILIATION | FAILED

  datatype PendingOperation = AUTHORIZATION | CAPTURE | REFUND

  datatype DomainError =
    | InvalidInvariant
    | InvalidStateTransition(current: Status, attempted: Status)
    | ReconciliationState
    | InvalidReconciliationOperation(current: Status, operation: PendingOperation)
    | InvalidReconciliationResolution(pending: PendingOperation, attempted: Status)

  // ---------- The constant tables ----------

  const TERMINAL := {DECLINED, FAILED, REFUNDED}

  function Ordinary(s: Status): set<Status> {
    match s
    case CREATED => {AUTHORIZED, DECLINED, FAILED}
    case AUTHORIZED => {CAPTURED}
    case CAPTURED => {REFUNDED}
    case _ => {}
  }

  function Entry(s: Status): Option<PendingOperation> {
    match s
    case CREATED => Some(AUTHORIZATION)
    case AUTHORIZED => Some(CAPTURE)
    case CAPTURED => Some(REFUND)
    case _ => None
  }

  function Resolutions(op: PendingOperation): set<Status> {
    match op
    case AUTHORIZATION => {AUTHORIZED, DECLINED, FAILED}
    case CAPTURE => {CAPTURED, AUTHORIZED}
    case REFUND => {REFUNDED, CAPTURED}
  }

  // ---------- What one operation does, on values ----------

  datatype Snapshot = Snapshot(id: string, status: Status, version: int, pending: Option<PendingOperation>)

  datatype Operation = TransitionTo(target: Status) | MarkPending(operation: PendingOperation) | Resolve(target: Status)

  predicate NonBlank(id: string) {
    Text.Strip(id) != ""
  }

  /** The constructor's checks. */
  predicate WellFormed(t: Snapshot) {
    && NonBlank(t.id)
    && t.version >= 0
    && (t.status == PENDING_RECONCILIATION <==> t.pending.Some?)
  }

  function Moved(t: Snapshot, status: Status, pending: Option<PendingOperation>): Snapshot {
    t.(status := status, pending := pending, version := t.version + 1)
  }

  function Apply(t: Snapshot, op: Operation): Result<Snapshot, DomainError> {
    match op
    case TransitionTo(target) =>
      if t.status == PENDING_RECONCILIATION then Err(ReconciliationState)
      else if target !in Ordinary(t.status) then Err(InvalidStateTransition(t.status, target))
      else Ok(Moved(t, target, t.pending))
    case MarkPending(operation) =>
      if t.status == PENDING_RECONCILIATION then Err(ReconciliationState)
      else if Entry(t.status) != Some(operation) then Err(InvalidReconciliationOperation(t.status, operation))
      else Ok(Moved(t, PENDING_RECONCILIATION, Some(operation)))
    case Resolve(target) =>
      if t.status != PENDING_RECONCILIATION then Err(ReconciliationState)
      else if t.pending.None? then Err(InvalidInvariant)
      else if target !in Resolutions(t.pending.value) then Err(InvalidReconciliationResolution(t.pending.value, target))
      else Ok(Moved(t, target, None))
  }

  // ---------- The entity ----------

  class Transaction {
    var id: string
    var status: Status
    var version: int
    var pending: Option<PendingOperation>

    function View(): Snapshot
      reads this
    {
      Snapshot(id, status, version, pending)
    }

    predicate Valid()
      reads this
    {
      WellFormed(View())
    }

    constructor (t: Snapshot)
      ensures View() == t
    {
      id, status, version, pending := t.id, t.status, t.version, t.pending;
    }

    /** Creates an entity, or raises when an initial invariant is broken. */
    static method Create(t: Snapshot) returns (r: Result<Transaction, DomainError>)
      ensures r.Ok? <==> WellFormed(t)
      ensures r.Ok? ==> fresh(r.value) && r.value.View() == t && r.value.Valid()
      ensures r.Err? ==> r.error == InvalidInvariant
    {
      if !NonBlank(t.id) {
        return Err(InvalidInvariant);
      }
      if t.version < 0 {
        return Err(InvalidInvariant);
      }
      if t.status == PENDING_RECONCILIATION {
        if t.pending.None? {
          return Err(InvalidInvariant);
        }
      } else {
        if t.pending.Some? {
          return Err(InvalidInvariant);
        }
      }
      var entity := new Transaction(t);
      return Ok(entity);
    }

    method TransitionTo(target: Status) returns (e: Option<DomainError>)
      requires Valid()
      modifies this
      ensures Valid()
      ensures match e
              case None => Apply(old(View()), Operation.TransitionTo(target)) == Ok(View())
              case Some(x) => Apply(old(View()), Operation.TransitionTo(target)) == Err(x) && View() == old(View())
    {
      if status == PENDING_RECONCILIATION {
        return Some(ReconciliationState);
      }
      if target == PENDING_RECONCILIATION {
        return Some(InvalidStateTransition(status, target));
      }
      var allowed := Ordinary(status);
      if target !in allowed {
        return Some(InvalidStateTransition(status, target));
      }
      status := target;
      version := version + 1;
      return None;
    }

    method MarkPendingReconciliation(operation: PendingOperation) returns (e: Option<DomainError>)
      requires Valid()
      modifies this
      ensures Valid()
      ensures match e
              case None => Apply(old(View()), MarkPending(operation)) == Ok(View())
              case Some(x) => Apply(old(View()), MarkPending(operation)) == Err(x) && View() == old(View())
    {
      if status == PENDING_RECONCILIATION {
        return Some(ReconciliationState);
      }
      var expected := Entry(status);
      if expected.None? || expected.value != operation {
        return Some(InvalidReconciliationOperation(status, operation));
      }
      status := PENDING_RECONCILIATION;
      pending := Some(operation);
      version := version + 1;
      return None;
    }

    method ResolveReconciliation(target: Status) returns (e: Option<DomainError>)
      requires Valid()
      modifies this
      ensures Valid()
      ensures match e
              case None => Apply(old(View()), Resolve(target)) == Ok(View())
              case Some(x) => Apply(old(View()), Resolve(target)) == Err(x) && View() == old(View())
    {
      hide NonBlank;
      if status != PENDING_RECONCILIATION {
        return Some(ReconciliationState);
      }
      if pending.None? {
        return Some(InvalidInvariant);
      }
      var allowed := Resolutions(pending.value);
      if target !in allowed {
        return Some(InvalidReconciliationResolution(pending.value, target));
      }
      status := target;
      pending := None;
      version := version + 1;
      return None;
    }

    /** Whether the transaction has reached an irreversible end: no operation will ever be accepted. */
    method IsTerminal() returns (b: bool)
      requires Valid()
      ensures b <==> forall op :: Apply(View(), op).Err?
    {
      TerminalIff(View());
      b := status in TERMINAL;
    }
  }

  /** A state is terminal exactly when every operation on it is rejected. */
  lemma TerminalIff(t: Snapshot)
    requires WellFormed(t)
    ensures t.status in TERMINAL <==> forall op :: Apply(t, op).Err?
  {
    if t.status !in TERMINAL {
      var op := if t.status == PENDING_RECONCILIATION
                then Resolve(if t.pending.value == REFUND then CAPTURED else AUTHORIZED)
                else MarkPending(Entry(t.status).value);
      assert Apply(t, op).Ok?;
    }
  }
}
