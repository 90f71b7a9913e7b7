/** Whole runs of the lifecycle machine: any sequence of operations, accepted or rejected. */
module LifecycleRuns {
  import opened Results
  import opened Lifecycle

  /** A rejected operation leaves the transaction as it was. */
  function Next(t: Snapshot, op: Operation): Snapshot {
    match Apply(t, op)
    case Ok(u) => u
    case Err(_) => t
  }

  function Run(t: Snapshot, ops: seq<Operation>): Snapshot {
    if ops == [] then t else Next(Run(t, ops[..|ops| - 1]), ops[|ops| - 1])
  }

  /** The statuses a run goes through. */
  function Trace(t: Snapshot, ops: seq<Operation>): (tr: seq<Status>)
    ensures |tr| == |ops| + 1
  {
    if ops == [] then [t.status] else Trace(t, ops[..|ops| - 1]) + [Run(t, ops).status]
  }

  /** A trace without its PENDING_RECONCILIATION entries. */
  function Erase(tr: seq<Status>): seq<Status> {
    if tr == [] then []
    else
      var before := Erase(tr[..|tr| - 1]);
      if tr[|tr| - 1] == PENDING_RECONCILIATION then before else before + [tr[|tr| - 1]]
  }

  predicate OrdinaryPath(path: seq<Status>) {
    forall i :: 0 <= i < |path| - 1 ==> path[i + 1] == path[i] || path[i + 1] in Ordinary(path[i])
  }

  /** The stable status a transaction is in, or was in when it entered reconciliation. */
  function Origin(op: PendingOperation): (s: Status)
    ensures forall u :: Entry(u) == Some(op) <==> u == s
  {
    match op
    case AUTHORIZATION => CREATED
    case CAPTURE => AUTHORIZED
    case REFUND => CAPTURED
  }

  function StableStatus(t: Snapshot): Status {
    if t.pending.Some? then Origin(t.pending.value) else t.status
  }

  /** One operation keeps the constructor's checks and moves the stable status along the ordinary table. */
  lemma OneStep(t: Snapshot, op: Operation)
    requires WellFormed(t)
    ensures var u := Next(t, op);
            && WellFormed(u) && u.id == t.id
            && (u.status != PENDING_RECONCILIATION ==> StableStatus(u) == u.status)
            && (u.status == PENDING_RECONCILIATION ==> StableStatus(u) == StableStatus(t))
            && (StableStatus(u) == StableStatus(t) || StableStatus(u) in Ordinary(StableStatus(t)))
  {
  }

  lemma {:induction false} RunWellFormed(t: Snapshot, ops: seq<Operation>)
    requires WellFormed(t)
    ensures WellFormed(Run(t, ops)) && Run(t, ops).id == t.id
  {
    if ops != [] {
      RunWellFormed(t, ops[..|ops| - 1]);
      OneStep(Run(t, ops[..|ops| - 1]), ops[|ops| - 1]);
    }
  }

  /** Reconciliation is invisible: with the pending entries erased, every run is a path of the ordinary
      lifecycle, and the pending operation names the stable state the path has reached. */
  lemma {:induction false} StutteringRefinement(t: Snapshot, ops: seq<Operation>)
    requires WellFormed(t) && t.status != PENDING_RECONCILIATION
    ensures var path := Erase(Trace(t, ops));
            && path != [] && path[0] == t.status
            && OrdinaryPath(path)
            && path[|path| - 1] == StableStatus(Run(t, ops))
  {
    var tr := Trace(t, ops);
    if ops == [] {
      assert tr[..0] == [];
      assert Erase(tr[..0]) == [];
      assert Erase(tr) == [t.status];
    } else {
      var before := ops[..|ops| - 1];
      StutteringRefinement(t, before);
      RunWellFormed(t, before);
      assert tr[..|tr| - 1] == Trace(t, before);
      OneStep(Run(t, before), ops[|ops| - 1]);
    }
  }

  // ---------- What is accepted ----------

  /** A pending operation can be resolved to every ordinary successor of the state it was entered from and, unless it
      is the authorization, to that state; and to nothing else. */
  lemma ResolveIff(t: Snapshot, target: Status)
    requires WellFormed(t) && t.pending.Some?
    ensures Apply(t, Resolve(target)).Ok?
       <==> target in Ordinary(StableStatus(t)) || (target == StableStatus(t) && t.pending != Some(AUTHORIZATION))
  {
  }

  /** Reconciliation can be entered exactly from the three states with a successor, each with its own operation. */
  lemma EntryIff(t: Snapshot, op: PendingOperation)
    requires WellFormed(t)
    ensures Apply(t, MarkPending(op)).Ok? <==> t.pending.None? && t.status == Origin(op)
    ensures t.pending.None? ==> (Ordinary(t.status) != {} <==> exists o :: Apply(t, MarkPending(o)).Ok?)
  {
    if t.pending.None? && Ordinary(t.status) != {} {
      assert Apply(t, MarkPending(Entry(t.status).value)).Ok?;
    }
  }

  /** Every move of the ordinary table can be made directly, at the price of one version, and through reconciliation, at
      the price of two. */
  lemma BothWays(t: Snapshot, target: Status) returns (op: PendingOperation)
    requires WellFormed(t) && t.status != PENDING_RECONCILIATION && target in Ordinary(t.status)
    ensures Run(t, [TransitionTo(target)]) == t.(status := target, version := t.version + 1)
    ensures Run(t, [MarkPending(op), Resolve(target)]) == t.(status := target, version := t.version + 2)
  {
    op := Entry(t.status).value;
    assert [TransitionTo(target)][..0] == [] && [MarkPending(op), Resolve(target)][..1] == [MarkPending(op)];
    assert [MarkPending(op)][..0] == [];
  }

  /** The runs of a new transaction to its ends: declined, failed, and captured and refunded. */
  lemma NewRuns(id: string)
    ensures var t := Snapshot(id, CREATED, 0, None);
            && Run(t, [TransitionTo(DECLINED)]) == Snapshot(id, DECLINED, 1, None)
            && Run(t, [TransitionTo(FAILED)]) == Snapshot(id, FAILED, 1, None)
            && Run(t, [MarkPending(AUTHORIZATION), Resolve(DECLINED)]) == Snapshot(id, DECLINED, 2, None)
            && Run(t, [MarkPending(AUTHORIZATION), Resolve(FAILED)]) == Snapshot(id, FAILED, 2, None)
  {
    var t := Snapshot(id, CREATED, 0, None);
    forall end: Status | end == DECLINED || end == FAILED
      ensures Run(t, [TransitionTo(end)]) == Snapshot(id, end, 1, None)
      ensures Run(t, [MarkPending(AUTHORIZATION), Resolve(end)]) == Snapshot(id, end, 2, None)
    {
      assert [TransitionTo(end)][..0] == [] && [MarkPending(AUTHORIZATION), Resolve(end)][..1] == [MarkPending(AUTHORIZATION)];
      assert [MarkPending(AUTHORIZATION)][..0] == [];
    }
  }

  lemma DirectRefund(id: string)
    ensures Run(Snapshot(id, CREATED, 0, None), [TransitionTo(AUTHORIZED), TransitionTo(CAPTURED), TransitionTo(REFUNDED)])
         == Snapshot(id, REFUNDED, 3, None)
  {
    var t := Snapshot(id, CREATED, 0, None);
    var ops := [TransitionTo(AUTHORIZED), TransitionTo(CAPTURED), TransitionTo(REFUNDED)];
    assert ops[..2][..1] == ops[..1] && ops[..1][..0] == [];
    assert Run(t, ops[..1]) == Snapshot(id, AUTHORIZED, 1, None);
    assert Run(t, ops[..2]) == Snapshot(id, CAPTURED, 2, None);
  }

  lemma ReconciledRefund(id: string)
    ensures Run(Snapshot(id, CREATED, 0, None),
                [MarkPending(AUTHORIZATION), Resolve(AUTHORIZED)] + [MarkPending(CAPTURE), Resolve(CAPTURED)]
                + [MarkPending(REFUND), Resolve(REFUNDED)])
         == Snapshot(id, REFUNDED, 6, None)
  {
    var t := Snapshot(id, CREATED, 0, None);
    var first := [MarkPending(AUTHORIZATION), Resolve(AUTHORIZED)];
    TwoMore(t, [], MarkPending(AUTHORIZATION), Resolve(AUTHORIZED));
    assert [] + first == first;
    TwoMore(t, first, MarkPending(CAPTURE), Resolve(CAPTURED));
    TwoMore(t, first + [MarkPending(CAPTURE), Resolve(CAPTURED)], MarkPending(REFUND), Resolve(REFUNDED));
  }

  // ---------- Progress ----------

  /** How many of authorize, capture and refund have been decided. */
  function Level(s: Status): nat {
    match s
    case CREATED => 0
    case AUTHORIZED => 1
    case DECLINED => 1
    case FAILED => 1
    case CAPTURED => 2
    case REFUNDED => 3
    case PENDING_RECONCILIATION => 0
  }

  function LevelOf(t: Snapshot): nat {
    Level(StableStatus(t))
  }

  datatype Kind = Rejected | Direct | Entered | Reconciled | Reverted

  function KindOf(t: Snapshot, op: Operation): Kind {
    if Apply(t, op).Err? then Rejected
    else
      match op
      case TransitionTo(_) => Direct
      case MarkPending(_) => Entered
      case Resolve(target) => if target == StableStatus(t) then Reverted else Reconciled
  }

  function Count(t: Snapshot, ops: seq<Operation>, kind: Kind): nat {
    if ops == [] then 0
    else
      var before := ops[..|ops| - 1];
      Count(t, before, kind) + if KindOf(Run(t, before), ops[|ops| - 1]) == kind then 1 else 0
  }

  function PendingBit(t: Snapshot): nat {
    if t.pending.Some? then 1 else 0
  }

  lemma CountStep(t: Snapshot, op: Operation)
    requires WellFormed(t)
    ensures var u := Next(t, op);
            && LevelOf(u) == LevelOf(t) + (if KindOf(t, op) in {Direct, Reconciled} then 1 else 0)
            && u.version + PendingBit(t) == t.version + PendingBit(u)
               + (match KindOf(t, op) case Direct => 1 case Reconciled => 2 case Reverted => 2 case _ => 0)
  {
  }

  /** Exact accounting of version and level over any run, from any well-formed state. */
  lemma {:induction false} Accounting(t: Snapshot, ops: seq<Operation>)
    requires WellFormed(t)
    ensures Run(t, ops).version + PendingBit(t)
         == t.version + Count(t, ops, Direct) + 2 * Count(t, ops, Reconciled) + 2 * Count(t, ops, Reverted)
            + PendingBit(Run(t, ops))
    ensures LevelOf(Run(t, ops)) == LevelOf(t) + Count(t, ops, Direct) + Count(t, ops, Reconciled)
  {
    if ops != [] {
      var before := ops[..|ops| - 1];
      Accounting(t, before);
      RunWellFormed(t, before);
      CountStep(Run(t, before), ops[|ops| - 1]);
    }
  }

  /** The stable level never falls between any two points of a run. */
  lemma {:induction false} LevelNeverFalls(t: Snapshot, ops: seq<Operation>, i: nat)
    requires WellFormed(t) && i <= |ops|
    ensures LevelOf(Run(t, ops[..i])) <= LevelOf(Run(t, ops))
  {
    if i < |ops| {
      var before := ops[..|ops| - 1];
      LevelNeverFalls(t, before, i);
      assert before[..i] == ops[..i];
      RunWellFormed(t, before);
      CountStep(Run(t, before), ops[|ops| - 1]);
    } else {
      assert ops[..i] == ops;
    }
  }

  /** A transaction created by a request has a version of at most six plus twice its reverts. */
  lemma VersionBound(id: string, ops: seq<Operation>)
    requires WellFormed(Snapshot(id, CREATED, 0, None))
    ensures var t := Snapshot(id, CREATED, 0, None);
            Run(t, ops).version <= 6 + 2 * Count(t, ops, Reverted)
  {
    Accounting(Snapshot(id, CREATED, 0, None), ops);
  }

  function Repeat(n: nat, ops: seq<Operation>): seq<Operation> {
    if n == 0 then [] else Repeat(n - 1, ops) + ops
  }

  /** A run with `n` reverted captures whose version reaches the bound. */
  function LongestRun(n: nat): seq<Operation> {
    [MarkPending(AUTHORIZATION), Resolve(AUTHORIZED)] + Repeat(n, [MarkPending(CAPTURE), Resolve(AUTHORIZED)])
    + [MarkPending(CAPTURE)] + [Resolve(CAPTURED)] + [MarkPending(REFUND)] + [Resolve(REFUNDED)]
  }

  lemma Snoc(t: Snapshot, ops: seq<Operation>, op: Operation)
    ensures Run(t, ops + [op]) == Next(Run(t, ops), op)
    ensures forall k :: Count(t, ops + [op], k) == Count(t, ops, k) + if KindOf(Run(t, ops), op) == k then 1 else 0
  {
    assert (ops + [op])[..|ops|] == ops;
  }

  lemma TwoMore(t: Snapshot, ops: seq<Operation>, first: Operation, second: Operation)
    ensures Run(t, ops + [first, second]) == Next(Next(Run(t, ops), first), second)
    ensures Count(t, ops + [first, second], Reverted) == Count(t, ops, Reverted)
              + (if KindOf(Run(t, ops), first) == Reverted then 1 else 0)
              + (if KindOf(Next(Run(t, ops), first), second) == Reverted then 1 else 0)
  {
    hide Run, Count, Next;
    Snoc(t, ops, first);
    Snoc(t, ops + [first], second);
    assert ops + [first, second] == ops + [first] + [second];
  }

  lemma RevertedCapture(t: Snapshot)
    requires t.status == AUTHORIZED && t.pending.None?
    ensures Next(Next(t, MarkPending(CAPTURE)), Resolve(AUTHORIZED)) == t.(version := t.version + 2)
    ensures KindOf(t, MarkPending(CAPTURE)) != Reverted
    ensures KindOf(Next(t, MarkPending(CAPTURE)), Resolve(AUTHORIZED)) == Reverted
  {
  }

  lemma {:induction false} RepeatedReverts(t: Snapshot, n: nat, start: seq<Operation>, loop: seq<Operation>)
    requires t == Snapshot(t.id, CREATED, 0, None)
    requires start == [MarkPending(AUTHORIZATION), Resolve(AUTHORIZED)]
    requires loop == [MarkPending(CAPTURE), Resolve(AUTHORIZED)]
    ensures Run(t, start + Repeat(n, loop)) == Snapshot(t.id, AUTHORIZED, 2 + 2 * n, None)
    ensures Count(t, start + Repeat(n, loop), Reverted) == n
  {
    if n == 0 {
      TwoMore(t, [], start[0], start[1]);
      assert start + Repeat(0, loop) == [] + start;
    } else {
      RepeatedReverts(t, n - 1, start, loop);
      hide Run, Count, Next, KindOf;
      var before := start + Repeat(n - 1, loop);
      RevertedCapture(Run(t, before));
      TwoMore(t, before, loop[0], loop[1]);
      assert start + Repeat(n, loop) == before + loop;
    }
  }

  /** The bound is reached for every number of reverts, so runs and versions are unbounded. */
  lemma VersionBoundTight(id: string, n: nat)
    ensures var t := Snapshot(id, CREATED, 0, None);
            Count(t, LongestRun(n), Reverted) == n && Run(t, LongestRun(n)).version == 6 + 2 * n
  {
    var t := Snapshot(id, CREATED, 0, None);
    var start := [MarkPending(AUTHORIZATION), Resolve(AUTHORIZED)];
    var loop := [MarkPending(CAPTURE), Resolve(AUTHORIZED)];
    RepeatedReverts(t, n, start, loop);
    var r := start + Repeat(n, loop);
    CaptureAndRefund(t, r);
  }

  lemma CaptureAndRefund(t: Snapshot, r: seq<Operation>)
    requires Run(t, r).status == AUTHORIZED && Run(t, r).pending.None?
    ensures var last := r + [MarkPending(CAPTURE)] + [Resolve(CAPTURED)] + [MarkPending(REFUND)] + [Resolve(REFUNDED)];
            && Run(t, last).version == Run(t, r).version + 4
            && Count(t, last, Reverted) == Count(t, r, Reverted)
  {
    hide Run, Count;
    Snoc(t, r, MarkPending(CAPTURE));
    var r1 := r + [MarkPending(CAPTURE)];
    Snoc(t, r1, Resolve(CAPTURED));
    var r2 := r1 + [Resolve(CAPTURED)];
    Snoc(t, r2, MarkPending(REFUND));
    Snoc(t, r2 + [MarkPending(REFUND)], Resolve(REFUNDED));
  }

  // ---------- Effects ----------

  /** The statuses reached by direct or reconciled advances, in order. */
  function Effects(t: Snapshot, ops: seq<Operation>): seq<Status> {
    if ops == [] then []
    else
      var before := ops[..|ops| - 1];
      var kind := KindOf(Run(t, before), ops[|ops| - 1]);
      Effects(t, before) + if kind == Direct || kind == Reconciled then [Run(t, ops).status] else []
  }

  /** The effects of a run are a path of the ordinary lifecycle from the stable state it starts in to the one it ends
      in, without repetition. */
  ghost predicate EffectPath(from: Status, effects: seq<Status>, to: Status) {
    && (effects != [] ==> effects[0] in Ordinary(from))
    && (forall i :: 0 < i < |effects| ==> effects[i] in Ordinary(effects[i - 1]))
    && to == if effects == [] then from else effects[|effects| - 1]
  }

  lemma PathStep(from: Status, effects: seq<Status>, to: Status, next: Status)
    requires EffectPath(from, effects, to) && next in Ordinary(to)
    ensures EffectPath(from, effects + [next], next)
  {
  }

  /** An accepted advance is one move of the ordinary table; any other operation leaves the stable status. */
  lemma EffectStep(t: Snapshot, op: Operation)
    requires WellFormed(t)
    ensures var u := Next(t, op);
            if KindOf(t, op) in {Direct, Reconciled}
            then u.status == StableStatus(u) && u.status in Ordinary(StableStatus(t))
            else StableStatus(u) == StableStatus(t)
  {
  }

  /** Authorize, capture and refund take effect in this order and each at most once, from any well-formed state. */
  lemma {:induction false} EffectsInOrder(t: Snapshot, ops: seq<Operation>)
    requires WellFormed(t)
    ensures EffectPath(StableStatus(t), Effects(t, ops), StableStatus(Run(t, ops)))
    ensures |Effects(t, ops)| == LevelOf(Run(t, ops)) - LevelOf(t)
    ensures forall i :: 0 <= i < |Effects(t, ops)| ==> Level(Effects(t, ops)[i]) == LevelOf(t) + i + 1
  {
    if ops != [] {
      var before := ops[..|ops| - 1];
      EffectsInOrder(t, before);
      RunWellFormed(t, before);
      EffectStep(Run(t, before), ops[|ops| - 1]);
      CountStep(Run(t, before), ops[|ops| - 1]);
      if KindOf(Run(t, before), ops[|ops| - 1]) in {Direct, Reconciled} {
        PathStep(StableStatus(t), Effects(t, before), StableStatus(Run(t, before)), Run(t, ops).status);
      }
    }
  }

  /** A new transaction is authorized, captured and refunded, as far as it gets, or declined, or failed. */
  lemma NewEffects(id: string, ops: seq<Operation>)
    requires WellFormed(Snapshot(id, CREATED, 0, None))
    ensures var e := Effects(Snapshot(id, CREATED, 0, None), ops);
            e <= [AUTHORIZED, CAPTURED, REFUNDED] || e == [DECLINED] || e == [FAILED]
  {
    var t := Snapshot(id, CREATED, 0, None);
    var e := Effects(t, ops);
    EffectsInOrder(t, ops);
    if |e| >= 2 {
      assert e[1] in Ordinary(e[0]);
    }
    if |e| >= 3 {
      assert e[2] in Ordinary(e[1]);
    }
  }
}
