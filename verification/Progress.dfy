/** No deadlock, and bounded work for each request. */
module Progress {
  import opened CanonicalJson
  import opened Schema
  import opened Authorization
  import opened PaymentNetwork
  import opened Store
  import opened Protocol
  import opened Invariant
  import opened Steps
  import opened Commits
  import opened Safety
  import opened Changes

  // ---------- Waiting ----------

  /** Both operations take the transaction row first and the key row second; a holder of a key row only commits. */
  function Rank(pc: Pc): nat {
    match pc
    case InsertingRecord => 1
    case UpdatingRecord(_) => 1
    case CommittingReserve => 2
    case CommittingFinish(_) => 2
    case _ => 0
  }

  lemma HolderRank(env: Env, L: Ledger, q: nat, pr: Proc)
    requires ProcOk(env, L, q, pr)
    ensures pr.txns != map[] ==> Rank(pr.pc) >= 1 && pr.txns.Keys == {Id(pr)}
    ensures pr.recs != map[] ==> Rank(pr.pc) == 2
  {
    hide GoodRequest, ResultHolds, TransactionFree, RecordFree, InsertFits, Owns, FinishError, AnswerHolds, Carries;
    hide CreatedRow, UpdatedRow, NewRecord, CompletedRecord;
  }

  lemma HolderStandsHigher(s: State, p: nat, q: nat)
    requires WaitsFor(s, p, q)
    requires s.procs[q].txns != map[] ==> Rank(s.procs[q].pc) >= 1
    requires s.procs[q].recs != map[] ==> Rank(s.procs[q].pc) == 2
    ensures Rank(s.procs[p].pc) < Rank(s.procs[q].pc)
  {
  }

  /** Who waits stands lower than whom it waits for. */
  lemma WaitsUpwards(env: Env, s: State, p: nat, q: nat)
    requires WaitsFor(s, p, q)
    requires HashShape(env.sha) && Reachable(env, s)
    ensures Rank(s.procs[p].pc) < Rank(s.procs[q].pc)
  {
    hide HashShape, Reachable, Inv, ProcOk, LinOk, Rank, HoldsTransaction, HoldsRecord;
    Safe(env, s);
    GetProc(env, s, q, s.procs[q]);
    HolderRank(env, s.ledger, q, s.procs[q]);
    HolderStandsHigher(s, p, q);
  }

  /** The wait-for graph has no cycle, and no chain of more than two waits. */
  lemma {:induction false} NoWaitCycle(env: Env, s: State, path: seq<nat>)
    requires |path| >= 2
    requires forall i :: 0 <= i < |path| - 1 ==> WaitsFor(s, path[i], path[i + 1])
    requires HashShape(env.sha) && Reachable(env, s)
    ensures path[0] in s.procs && path[|path| - 1] in s.procs
    ensures Rank(s.procs[path[0]].pc) + |path| - 1 <= Rank(s.procs[path[|path| - 1]].pc)
    ensures path[0] != path[|path| - 1] && |path| <= 3
  {
    hide HashShape, Reachable;
    var n := |path|;
    assert WaitsFor(s, path[n - 2], path[n - 1]);
    WaitsUpwards(env, s, path[n - 2], path[n - 1]);
    if n > 2 {
      var front := path[..n - 1];
      forall i | 0 <= i < |front| - 1
        ensures WaitsFor(s, front[i], front[i + 1])
      {
        assert WaitsFor(s, path[i], path[i + 1]);
      }
      NoWaitCycle(env, s, front);
    }
  }

  /** The next action of a request that is not over; the network's answer is up to the environment. */
  function NextAction(p: nat, pc: Pc, h: HttpOutcome): Action
    requires !IsOver(pc)
  {
    match pc
    case SelectingKey => SelectKey(p)
    case InsertingTransaction => InsertTransaction(p)
    case InsertingRecord => InsertRecord(p)
    case CommittingReserve => CommitReserve(p, true)
    case RequeryingKey => RequeryKey(p)
    case RequeryingTransaction => RequeryTransaction(p)
    case Calling => Call(p)
    case Awaiting => Return(p, h)
    case UpdatingTransaction(_) => UpdateTransaction(p)
    case UpdatingRecord(_) => UpdateRecord(p)
    case CommittingFinish(_) => CommitFinish(p, true)
    case Replying(_) => SendReply(p)
  }

  /** While some request is unfinished, some unfinished request can take its own next step. */
  lemma NoDeadlock(env: Env, s: State, p: nat, h: HttpOutcome) returns (q: nat)
    requires p in s.procs && !IsOver(s.procs[p].pc)
    requires HashShape(env.sha) && Reachable(env, s)
    ensures q in s.procs && !IsOver(s.procs[q].pc) && Enabled(s, NextAction(q, s.procs[q].pc, h))
  {
    hide HashShape, Reachable, ValidPayload, MatchesTransaction, MatchesRecord;
    q := p;
    if Waiting(s, p) {
      q :| WaitsFor(s, p, q);
      WaitsUpwards(env, s, p, q);
      if Waiting(s, q) {
        var r :| WaitsFor(s, q, r);
        WaitsUpwards(env, s, q, r);
        q := r;
      }
    }
    assert Rank(s.procs[q].pc) == 2 ==> forall r :: !WaitsFor(s, q, r);
  }

  /** What an update waits for. */
  lemma WaitedRow(s: State, p: nat, q: nat)
    requires WaitsFor(s, p, q) && (s.procs[p].pc.UpdatingTransaction? || s.procs[p].pc.UpdatingRecord?)
    requires s.procs[p].pc.c.txn.id == Id(s.procs[p])
    ensures Id(s.procs[p]) in s.procs[q].txns || s.procs[p].req.keyHash in s.procs[q].recs
  {
    hide MatchesTransaction, MatchesRecord;
  }

  /** Nobody else holds a row of a pair that is owned. */
  lemma OwnedIsUnheld(env: Env, L: Ledger, procs: map<nat, Proc>, p: nat, q: nat)
    requires p in procs && q in procs && p != q && Owns(L, p, procs[p].req)
    requires ProcOk(env, L, q, procs[q]) && LedgerOk(env, L, procs)
    ensures Id(procs[p]) !in procs[q].txns && procs[p].req.keyHash !in procs[q].recs
  {
    hide ProcOk, LedgerOk, Owns;
    HolderRank(env, L, q, procs[q]);
    HolderOwns(env, L, q, procs[q]);
    OwnedRows(L, p, procs[p].req);
    if Owns(L, q, procs[q].req) {
      OwnersDiffer(env, L, procs, p, q);
    }
  }

  /** A request that completes never waits: nobody else can hold its rows. */
  lemma OwnerNeverWaits(env: Env, s: State, p: nat, pr: Proc)
    requires p in s.procs && s.procs[p] == pr && (pr.pc.UpdatingTransaction? || pr.pc.UpdatingRecord?)
    requires HashShape(env.sha) && Reachable(env, s)
    ensures !Waiting(s, p)
  {
    hide HashShape, Reachable, Inv, ProcOk, LinOk, LedgerOk, LocksOk, Owns, WaitsFor;
    Safe(env, s);
    GetProc(env, s, p, pr);
    GetLedger(env, s);
    UpdaterOwns(env, s.ledger, p, pr);
    forall q | WaitsFor(s, p, q)
      ensures false
    {
      WaitedOther(s, p, q);
      GetProc(env, s, q, s.procs[q]);
      WaitedRow(s, p, q);
      OwnedIsUnheld(env, s.ledger, s.procs, p, q);
    }
  }

  lemma WaitedOther(s: State, p: nat, q: nat)
    requires WaitsFor(s, p, q)
    ensures p in s.procs && q in s.procs && p != q
  {
    hide MatchesTransaction, MatchesRecord;
  }

  lemma UpdaterOwns(env: Env, L: Ledger, p: nat, pr: Proc)
    requires ProcOk(env, L, p, pr) && (pr.pc.UpdatingTransaction? || pr.pc.UpdatingRecord?)
    ensures Owns(L, p, pr.req) && pr.pc.c.txn.id == Id(pr)
  {
    hide GoodRequest, ResultHolds, Owns, Storable, CreatedRow, UpdatedRow, GoodTransaction;
    StorableVersion(Id(pr), pr.pc.c);
  }

  lemma OwnedRows(L: Ledger, p: nat, req: Request)
    requires Owns(L, p, req)
    ensures req.payload.transactionId in L.db.txns && req.keyHash in L.db.recs
  {
    hide InsertFits, InsertChecks, CreatedRow, NewRecord;
  }

  /** A session that holds rows either owns its pair or is inserting a new one. */
  lemma HolderOwns(env: Env, L: Ledger, q: nat, pr: Proc)
    requires ProcOk(env, L, q, pr)
    ensures pr.txns != map[] ==> Owns(L, q, pr.req) || Id(pr) !in L.db.txns
    ensures pr.recs != map[] ==> pr.recs.Keys == {pr.req.keyHash} && (Owns(L, q, pr.req) || pr.req.keyHash !in L.db.recs)
  {
    hide GoodRequest, ResultHolds, InsertFits, InsertChecks, Owns, FinishError, AnswerHolds, Carries;
    hide CreatedRow, UpdatedRow, NewRecord, CompletedRecord, TransactionFits, TransactionChecks;
  }

  // ---------- Work ----------

  /** How many more steps a request can take, its own and the environment's against it. */
  function Left(pc: Pc): nat {
    match pc
    case SelectingKey => 10
    case InsertingTransaction => 9
    case InsertingRecord => 8
    case CommittingReserve => 7
    case RequeryingKey => 7
    case RequeryingTransaction => 6
    case Calling => 6
    case Awaiting => 5
    case UpdatingTransaction(_) => 4
    case UpdatingRecord(_) => 3
    case CommittingFinish(_) => 2
    case Replying(_) => 1
    case Replied => 0
    case Crashed => 0
  }

  function LeftOf(s: State, p: nat): nat {
    if p in s.procs then Left(s.procs[p].pc) else 11
  }

  function Taken(acts: seq<Action>, p: nat): nat {
    if acts == [] then 0
    else Taken(acts[..|acts| - 1], p) + if acts[|acts| - 1].p == p then 1 else 0
  }

  lemma MovesLower(a: Action, log: seq<Event>, pr: Proc, next: Proc)
    requires Moves(a, log, pr, next)
    ensures Left(next.pc) < Left(pr.pc)
  {
    hide FinishOf;
  }

  /** A step brings its own request closer to the end and leaves the others where they are. */
  lemma StepUses(env: Env, s: State, a: Action, p: nat)
    requires Enabled(s, a)
    ensures LeftOf(Step(env, s, a), p) + (if a.p == p then 1 else 0) <= LeftOf(s, p)
  {
    hide Enabled, Step, Moves, Pipeline;
    StepHasShape(env, s, a);
    if !a.Start? {
      MovesLower(a, Step(env, s, a).log, s.procs[a.p], Step(env, s, a).procs[a.p]);
    }
  }

  /** No request ever takes more than eleven steps, whatever the others and the environment do. */
  lemma {:induction false} BoundedWork(env: Env, acts: seq<Action>, p: nat)
    requires IsRun(env, acts)
    ensures Taken(acts, p) + LeftOf(Exec(env, acts), p) <= 11
  {
    hide Step, Enabled, LeftOf;
    if acts == [] {
      NotStarted(p);
    } else {
      var before := acts[..|acts| - 1];
      BoundedWork(env, before, p);
      StepUses(env, Exec(env, before), acts[|acts| - 1], p);
    }
  }

  lemma NotStarted(p: nat)
    ensures LeftOf(INITIAL, p) == 11
  {
  }
}
