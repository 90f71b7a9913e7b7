/** Every step of the protocol keeps the invariant: commits, calls, replies and new requests. */
module Commits {
  import opened Results
  import opened CanonicalJson
  import opened Envelopes
  import opened Schema
  import opened Authorization
  import opened Store
  import opened Protocol
  import opened Invariant
  import opened Steps

  /** Everything a result or a reply relies on stays. */
  ghost predicate LedgerGrows(a: Ledger, b: Ledger) {
    && Grows(a.db, b.db)
    && (forall k :: k in a.owner ==> k in b.owner && b.owner[k] == a.owner[k])
    && (forall t :: t in a.db.txns && t in a.keyOf ==> t in b.keyOf && b.keyOf[t] == a.keyOf[t])
  }

  lemma ResultLasts(a: Ledger, b: Ledger, p: nat, req: Request, r: Reservation)
    requires LedgerGrows(a, b) && ResultHolds(a, p, req, r)
    ensures ResultHolds(b, p, req, r)
  {
    hide Classify;
  }

  lemma AnswerLasts(a: Ledger, b: Ledger, p: nat, req: Request, x: Answer)
    requires LedgerGrows(a, b) && AnswerHolds(a, p, req, x)
    ensures AnswerHolds(b, p, req, x)
  {
    if x.Refused? {
      hide LedgerGrows, ResultHolds;
      ResultLasts(a, b, p, req, x.reservation);
    } else {
      hide ResultHolds, Storable, Persisted, NewRecord;
    }
  }

  lemma RepliesLast(a: Ledger, b: Ledger, procs: map<nat, Proc>, replies: seq<Reply>)
    requires LedgerGrows(a, b) && RepliesOk(a, procs, replies)
    ensures RepliesOk(b, procs, replies)
  {
    forall i | 0 <= i < |replies|
      ensures ReplyOk(b, procs, replies[i])
    {
      hide AnswerHolds, LedgerGrows;
      assert ReplyOk(a, procs, replies[i]);
      AnswerLasts(a, b, replies[i].pid, procs[replies[i].pid].req, replies[i].answer);
    }
  }

  lemma CallsLast(a: Ledger, b: Ledger, procs: map<nat, Proc>, calls: seq<nat>)
    requires LedgerGrows(a, b) && CallsOk(a, procs, calls)
    ensures CallsOk(b, procs, calls)
  {
    forall i | 0 <= i < |calls|
      ensures CallOk(b, procs, calls[i])
    {
      hide Uncalled;
      assert CallOk(a, procs, calls[i]);
    }
  }

  // ---------- A commit and the requests it does not concern ----------

  /** The ledger may grow, but not by the rows request `q` is inserting, and not in the rows it owns. */
  ghost predicate Undisturbed(L: Ledger, M: Ledger, q: nat, other: Proc) {
    && (Id(other) in other.txns && Id(other) !in L.db.txns ==> Id(other) !in M.db.txns)
    && (other.req.keyHash in other.recs && other.req.keyHash !in L.db.recs ==> other.req.keyHash !in M.db.recs)
    && (Owns(L, q, other.req) ==> Owns(M, q, other.req))
  }

  lemma InserterStays(L: Ledger, M: Ledger, q: nat, other: Proc)
    requires other.pc == InsertingRecord || other.pc == CommittingReserve
    requires Undisturbed(L, M, q, other) && PcOk(L, q, other)
    ensures PcOk(M, q, other)
  {
    hide TransactionFits, TransactionChecks, InsertFits, InsertChecks, CreatedRow, NewRecord, Owns;
  }

  lemma UpdaterStays(L: Ledger, M: Ledger, q: nat, other: Proc, c: Completion)
    requires other.pc == UpdatingRecord(c)
    requires Owns(L, q, other.req) && Owns(M, q, other.req) && PcOk(L, q, other)
    ensures PcOk(M, q, other)
  {
    hide InsertFits, InsertChecks, CreatedRow, NewRecord, UpdatedRow, Storable, TransactionFits, TransactionChecks;
    StorableVersion(Id(other), c);
  }

  lemma FinisherStays(L: Ledger, M: Ledger, q: nat, other: Proc, c: Completion)
    requires other.pc == CommittingFinish(c)
    requires Owns(L, q, other.req) && Owns(M, q, other.req) && PcOk(L, q, other)
    ensures PcOk(M, q, other)
  {
    hide InsertFits, InsertChecks, CreatedRow, NewRecord, UpdatedRow, CompletedRecord, Storable;
    hide TransactionFits, TransactionChecks, RecordFits, RecordChecks;
    StorableVersion(Id(other), c);
  }

  lemma CallerStays(L: Ledger, M: Ledger, q: nat, other: Proc)
    requires other.pc == Calling || other.pc == Awaiting || other.pc.UpdatingTransaction?
    requires Undisturbed(L, M, q, other) && PcOk(L, q, other)
    ensures PcOk(M, q, other)
  {
    hide Owns, Carries;
  }

  lemma OwnsWhileUpdating(L: Ledger, q: nat, other: Proc)
    requires other.pc.UpdatingRecord? || other.pc.CommittingFinish?
    requires PcOk(L, q, other)
    ensures Owns(L, q, other.req)
  {
    hide Owns, Carries, FinishError, CreatedRow, NewRecord, UpdatedRow, CompletedRecord, GoodTransaction;
  }

  lemma RequeryStays(L: Ledger, M: Ledger, q: nat, other: Proc)
    requires LedgerGrows(L, M)
    requires other.pc in {SelectingKey, InsertingTransaction, RequeryingKey, Replied, Crashed}
    requires PcOk(L, q, other)
    ensures PcOk(M, q, other)
  {
    hide InsertFits;
  }

  lemma PcStays(L: Ledger, M: Ledger, q: nat, other: Proc)
    requires LedgerGrows(L, M) && Undisturbed(L, M, q, other) && PcOk(L, q, other)
    ensures PcOk(M, q, other)
  {
    match other.pc
    case Replying(a) =>
      hide LedgerGrows, AnswerHolds, Undisturbed;
      AnswerLasts(L, M, q, other.req, a);
    case RequeryingTransaction =>
      hide LedgerGrows, ResultHolds, Undisturbed;
      ResultLasts(L, M, q, other.req, TransactionIdConflict);
    case UpdatingRecord(c) =>
      hide PcOk, LedgerGrows, Owns;
      OwnsWhileUpdating(L, q, other);
      UpdaterStays(L, M, q, other, c);
    case CommittingFinish(c) =>
      hide PcOk, LedgerGrows, Owns;
      OwnsWhileUpdating(L, q, other);
      FinisherStays(L, M, q, other, c);
    case InsertingRecord =>
      hide PcOk, LedgerGrows, Undisturbed;
      InserterStays(L, M, q, other);
    case CommittingReserve =>
      hide PcOk, LedgerGrows, Undisturbed;
      InserterStays(L, M, q, other);
    case Calling =>
      hide PcOk, LedgerGrows, Undisturbed;
      CallerStays(L, M, q, other);
    case Awaiting =>
      hide PcOk, LedgerGrows, Undisturbed;
      CallerStays(L, M, q, other);
    case UpdatingTransaction(_) =>
      hide PcOk, LedgerGrows, Undisturbed;
      CallerStays(L, M, q, other);
    case _ =>
      hide PcOk, LedgerGrows, Undisturbed;
      RequeryStays(L, M, q, other);
  }

  // ---------- Committing a reservation ----------

  function Reserving(L: Ledger, p: nat, req: Request): Ledger {
    Ledger(Inserted(L.db, req), L.owner[req.keyHash := p], L.keyOf[req.payload.transactionId := req.keyHash])
  }

  ghost predicate FreshPair(L: Ledger, req: Request) {
    req.keyHash !in L.db.recs && req.payload.transactionId !in L.db.txns
  }

  lemma ReservingGrows(L: Ledger, p: nat, req: Request)
    requires FreshPair(L, req) && req.keyHash !in L.owner
    ensures LedgerGrows(L, Reserving(L, p, req))
  {
    hide CreatedRow, NewRecord;
  }

  /** Another request is not disturbed by a reservation whose rows it does not hold. */
  lemma OtherAfterReserve(env: Env, L: Ledger, p: nat, req: Request, q: nat, other: Proc)
    requires FreshPair(L, req) && LedgerGrows(L, Reserving(L, p, req))
    requires req.payload.transactionId !in other.txns && req.keyHash !in other.recs
    requires ProcOk(env, L, q, other)
    ensures ProcOk(env, Reserving(L, p, req), q, other)
  {
    var M := Reserving(L, p, req);
    if other.result.Some? {
      ResultLasts(L, M, q, other.req, other.result.value) by {
        hide LedgerGrows, ResultHolds, PcOk, GoodRequest;
      }
    }
    OtherPcAfterReserve(L, p, req, q, other) by {
      hide LedgerGrows, ResultHolds, PcOk, GoodRequest;
    }
    hide PcOk, ResultHolds, GoodRequest, LedgerGrows, Reserving;
  }

  lemma OtherPcAfterReserve(L: Ledger, p: nat, req: Request, q: nat, other: Proc)
    requires FreshPair(L, req) && LedgerGrows(L, Reserving(L, p, req))
    requires req.payload.transactionId !in other.txns && req.keyHash !in other.recs
    requires PcOk(L, q, other)
    ensures PcOk(Reserving(L, p, req), q, other)
  {
    assert Undisturbed(L, Reserving(L, p, req), q, other) by {
      hide PcOk, LedgerGrows, InsertFits, InsertChecks, CreatedRow, NewRecord;
    }
    hide PcOk, LedgerGrows, Reserving, Undisturbed;
    PcStays(L, Reserving(L, p, req), q, other);
  }

  lemma OthersAfterReserve(env: Env, L: Ledger, procs: map<nat, Proc>, p: nat, pr: Proc)
    requires p in procs && procs[p] == pr && FreshPair(L, pr.req) && LedgerGrows(L, Reserving(L, p, pr.req))
    requires Id(pr) in pr.txns && pr.req.keyHash in pr.recs
    requires LocksOk(procs) && ProcsOk(env, L, procs)
    ensures forall q :: q in procs && q != p ==> ProcOk(env, Reserving(L, p, pr.req), q, procs[q])
  {
    forall q | q in procs && q != p
      ensures ProcOk(env, Reserving(L, p, pr.req), q, procs[q])
    {
      assert Apart(pr, procs[q]);
      hide ProcOk, LedgerGrows, FreshPair, Reserving;
      OtherAfterReserve(env, L, p, pr.req, q, procs[q]);
    }
  }

  lemma RecordStays(env: Env, L: Ledger, M: Ledger, procs: map<nat, Proc>, p: nat, next: Proc, k: string)
    requires p in procs && next.req == procs[p].req && next.completion == procs[p].completion
    requires RecordOk(env, L, procs, k)
    requires var id := Id(procs[L.owner[k]]);
             && k in M.db.recs && M.db.recs[k] == L.db.recs[k] && k in M.owner && M.owner[k] == L.owner[k]
             && id in M.db.txns && M.db.txns[id] == L.db.txns[id] && id in M.keyOf && M.keyOf[id] == L.keyOf[id]
    ensures RecordOk(env, M, procs[p := next], k)
  {
    hide GoodRequest, InsertFits, InsertChecks, Storable, CreatedRow, NewRecord, UpdatedRow, CompletedRecord;
  }

  lemma OldRecordAfterReserve(env: Env, L: Ledger, procs: map<nat, Proc>, p: nat, next: Proc, k: string)
    requires p in procs && next.req == procs[p].req && next.completion == procs[p].completion
    requires FreshPair(L, next.req) && k in L.db.recs && RecordOk(env, L, procs, k) && next.req.keyHash !in L.owner
    ensures RecordOk(env, Reserving(L, p, next.req), procs[p := next], k)
  {
    hide GoodRequest, InsertFits, InsertChecks, Storable, CreatedRow, UpdatedRow, CompletedRecord, NewRecord;
    RecordStays(env, L, Reserving(L, p, next.req), procs, p, next, k);
  }

  lemma NewRecordAfterReserve(env: Env, L: Ledger, procs: map<nat, Proc>, p: nat, next: Proc)
    requires GoodRequest(env, next.req) && InsertFits(next.req) && InsertChecks(next.req)
    ensures RecordOk(env, Reserving(L, p, next.req), procs[p := next], next.req.keyHash)
    ensures TransactionOk(Reserving(L, p, next.req), Id(next))
  {
    hide GoodRequest, InsertFits, InsertChecks, Storable, CreatedRow, UpdatedRow, CompletedRecord, NewRecord;
    NewRecordOf(next.req);
  }

  lemma RecordsAfterReserve(env: Env, L: Ledger, procs: map<nat, Proc>, p: nat, next: Proc)
    requires p in procs && next.req == procs[p].req && next.completion == procs[p].completion
    requires FreshPair(L, next.req) && GoodRequest(env, next.req) && InsertFits(next.req) && InsertChecks(next.req)
    requires LedgerOk(env, L, procs) && next.req.keyHash !in L.owner
    ensures LedgerOk(env, Reserving(L, p, next.req), procs[p := next])
  {
    var M := Reserving(L, p, next.req);
    hide GoodRequest, InsertFits, InsertChecks, RecordOk, CreatedRow, NewRecord;
    NewRecordAfterReserve(env, L, procs, p, next);
    forall k | k in M.db.recs
      ensures RecordOk(env, M, procs[p := next], k)
    {
      if k != next.req.keyHash {
        OldRecordAfterReserve(env, L, procs, p, next, k);
      }
    }
    forall t | t in M.db.txns
      ensures TransactionOk(M, t)
    {
      if t != Id(next) {
        assert TransactionOk(L, t);
      }
    }
  }

  lemma NewRecordOf(req: Request)
    ensures NewRecord(req).transactionId == req.payload.transactionId
  {
  }

  /** What is known at the commit of a reservation. */
  lemma ReserveCommits(env: Env, L: Ledger, p: nat, pr: Proc)
    requires ProcOk(env, L, p, pr) && pr.pc == CommittingReserve
    ensures Committed(L.db, pr) == Inserted(L.db, pr.req)
    ensures AtomicReserve(L.db, pr.req) == (Inserted(L.db, pr.req), Ok(Acquired))
    ensures FreshPair(L, pr.req) && GoodRequest(env, pr.req) && InsertFits(pr.req) && InsertChecks(pr.req)
    ensures Id(pr) in pr.txns && pr.req.keyHash in pr.recs
  {
    hide GoodRequest, CreatedRow, ResultHolds, TransactionFits, TransactionChecks, RecordFits, RecordChecks;
    hide InsertFits, InsertChecks;
    ChecksParts(pr.req);
  }

  function AfterReserve(pr: Proc, acknowledged: bool, lin: nat): Proc {
    var done := RolledBack(pr, Calling);
    (if acknowledged then Returned(done, Acquired) else Failed(done, DatabaseFailure)).(lin := Some(lin))
  }

  lemma AcquiredOk(env: Env, L: Ledger, p: nat, pr: Proc, acknowledged: bool, lin: nat)
    requires GoodRequest(env, pr.req) && InsertFits(pr.req) && InsertChecks(pr.req)
    requires pr.result.None? && (pr.error.Some? ==> pr.error.value == DatabaseFailure)
    ensures ProcOk(env, Reserving(L, p, pr.req), p, AfterReserve(pr, acknowledged, lin))
    ensures Clean(AfterReserve(pr, acknowledged, lin))
  {
    hide GoodRequest, InsertFits, InsertChecks, CreatedRow;
  }

  lemma LinLater(log: seq<Event>, e: Event, q: nat, pr: Proc)
    requires LinOk(log, q, pr) && (e.Reserved? ==> e.pid != q)
    ensures LinOk(log + [e], q, pr)
  {
  }

  lemma LinNow(log: seq<Event>, p: nat, pr: Proc, next: Proc, r: Reservation)
    requires LinOk(log, p, pr) && pr.lin.None?
    requires next.req == pr.req && next.started == pr.started && next.lin == Some(|log|)
    requires next.result.Some? ==> next.result.value == r
    requires !Unlinearized(next.pc) && next.pc != RequeryingTransaction
    ensures LinOk(log + [Reserved(p, pr.req, r)], p, next)
  {
  }

  lemma CommitLinearizes(pr: Proc, acknowledged: bool, lin: nat)
    requires pr.pc == CommittingReserve
    ensures Unlinearized(pr.pc) && !Unlinearized(AfterReserve(pr, acknowledged, lin).pc)
  {
  }

  lemma LogAfterReserve(s: State, p: nat, pr: Proc, acknowledged: bool)
    requires p in s.procs && s.procs[p] == pr && pr.pc == CommittingReserve
    requires AtomicReserve(s.ledger.db, pr.req) == (Inserted(s.ledger.db, pr.req), Ok(Acquired))
    requires Committed(s.ledger.db, pr) == Inserted(s.ledger.db, pr.req)
    requires LogOk(s)
    ensures LogOk(DoCommitReserve(s, p, pr, acknowledged))
  {
    hide AtomicReserve, Inserted, Committed, Legal, LinOk, Replay, Unlinearized;
    var t := DoCommitReserve(s, p, pr, acknowledged);
    var e := Reserved(p, pr.req, Acquired);
    var next := AfterReserve(pr, acknowledged, |s.log|);
    ReplaySnoc(s.log, e);
    assert t.procs == s.procs[p := next] && t.log == s.log + [e];
    CommitLinearizes(pr, acknowledged, |s.log|);
    NotYetLinearized(s.log, p, pr);
    LinNow(s.log, p, pr, next, Acquired);
    forall q | q in t.procs
      ensures LinOk(t.log, q, t.procs[q])
    {
      if q != p {
        LinLater(s.log, e, q, s.procs[q]);
      }
    }
  }

  lemma CommitReserveKeeps(env: Env, s: State, p: nat, pr: Proc, acknowledged: bool)
    requires p in s.procs && s.procs[p] == pr && pr.pc == CommittingReserve
    requires Inv(env, s)
    ensures Inv(env, DoCommitReserve(s, p, pr, acknowledged))
  {
    var L, M := s.ledger, Reserving(s.ledger, p, pr.req);
    var next := AfterReserve(pr, acknowledged, |s.log|);
    hide ProcOk, LinOk, LocksOk, LogOk, Inserted, Committed, AtomicReserve, GoodRequest, InsertFits, InsertChecks;
    hide LedgerGrows, CallsOk, RepliesOk, FreshPair, RecordOk, TransactionOk, Apart;
    assert ProcsOk(env, L, s.procs) && LedgerOk(env, L, s.procs) && LocksOk(s.procs);
    assert CallsOk(L, s.procs, s.calls) && RepliesOk(L, s.procs, s.replies) && LogOk(s);
    ReserveCommits(env, L, p, pr);
    NoResultYet(env, s, p, pr);
    hide ProcsOk, LedgerOk, SystemOk, Inv;
    KeyUnowned(env, L, s.procs, pr.req);
    ReservingGrows(L, p, pr.req);
    OthersAfterReserve(env, L, s.procs, p, pr);
    AcquiredOk(env, L, p, pr, acknowledged, |s.log|);
    RecordsAfterReserve(env, L, s.procs, p, next);
    CleanApart(s, p, next);
    LocksUnder(s.procs, p, next);
    CallsUnder(L, s.procs, s.calls, p, next);
    CallsLast(L, M, s.procs[p := next], s.calls);
    RepliesUnder(L, s.procs, s.replies, p, next);
    RepliesLast(L, M, s.procs[p := next], s.replies);
    LogAfterReserve(s, p, pr, acknowledged);
    SystemFrom(env, M, s.procs, p, next, s.calls, s.replies);
    var t := DoCommitReserve(s, p, pr, acknowledged);
    assert t.ledger == M && t.procs == s.procs[p := next] && t.calls == s.calls && t.replies == s.replies;
    InvFrom(env, t);
  }

  lemma NoResultYet(env: Env, s: State, p: nat, pr: Proc)
    requires p in s.procs && s.procs[p] == pr && Unlinearized(pr.pc)
    requires Inv(env, s)
    ensures pr.result.None? && (pr.error.Some? ==> pr.error.value == DatabaseFailure)
  {
    hide Inv, ProcOk, LinOk;
    GetProc(env, s, p, pr);
    NotYetLinearized(s.log, p, pr);
    ErrorOk(env, s.ledger, p, pr);
  }

  lemma ErrorOk(env: Env, L: Ledger, p: nat, pr: Proc)
    requires ProcOk(env, L, p, pr)
    ensures pr.error.Some? ==> pr.error.value == DatabaseFailure
  {
    hide GoodRequest, PcOk, ResultHolds;
  }

  lemma KeyUnowned(env: Env, L: Ledger, procs: map<nat, Proc>, req: Request)
    requires LedgerOk(env, L, procs) && FreshPair(L, req)
    ensures req.keyHash !in L.owner
  {
    hide RecordOk, TransactionOk;
  }

  lemma SystemFrom(env: Env, M: Ledger, procs: map<nat, Proc>, p: nat, next: Proc, calls: seq<nat>, replies: seq<Reply>)
    requires forall q :: q in procs && q != p ==> ProcOk(env, M, q, procs[q])
    requires ProcOk(env, M, p, next)
    requires LedgerOk(env, M, procs[p := next]) && LocksOk(procs[p := next])
    requires CallsOk(M, procs[p := next], calls) && RepliesOk(M, procs[p := next], replies)
    ensures SystemOk(env, M, procs[p := next], calls, replies)
  {
    hide ProcOk, LedgerOk, LocksOk, CallsOk, RepliesOk;
  }

  lemma InvFrom(env: Env, t: State)
    requires SystemOk(env, t.ledger, t.procs, t.calls, t.replies) && LogOk(t)
    ensures Inv(env, t)
  {
    hide SystemOk, LogOk;
  }

  // ---------- Committing a completion ----------

  function Finishing(L: Ledger, f: Finish): Ledger {
    L.(db := AtomicFinish(L.db, f))
  }

  lemma FinishingGrows(L: Ledger, f: Finish)
    ensures LedgerGrows(L, Finishing(L, f))
  {
    hide UpdatedRow, CompletedRecord, GoodTransaction, GoodRecord, Grows;
    StepGrows(L.db, Finished(0, f));
  }

  /** What is known at the commit of a completion. */
  lemma FinishCommits(env: Env, L: Ledger, p: nat, pr: Proc, c: Completion)
    requires ProcOk(env, L, p, pr) && pr.pc == CommittingFinish(c)
    ensures FinishError(L.db, FinishOf(pr, c)).None?
    ensures Committed(L.db, pr) == AtomicFinish(L.db, FinishOf(pr, c))
    ensures Owns(L, p, pr.req) && Carries(pr, c) && c.txn.id == Id(pr)
  {
    hide GoodRequest, ResultHolds, Storable, InsertFits, InsertChecks, UpdatedRow, CompletedRecord, NewRecord, CreatedRow;
    hide GoodTransaction, GoodRecord;
    StorableVersion(Id(pr), c);
  }

  /** Two requests that own their pairs own different keys and different transactions. */
  lemma OwnersDiffer(env: Env, L: Ledger, procs: map<nat, Proc>, p: nat, q: nat)
    requires p in procs && q in procs && p != q && LedgerOk(env, L, procs)
    requires Owns(L, p, procs[p].req) && Owns(L, q, procs[q].req)
    ensures procs[p].req.keyHash != procs[q].req.keyHash && Id(procs[p]) != Id(procs[q])
  {
    hide GoodRequest, InsertFits, InsertChecks, Storable, CreatedRow, NewRecord, UpdatedRow, CompletedRecord;
    assert RecordOk(env, L, procs, procs[p].req.keyHash);
    assert RecordOk(env, L, procs, procs[q].req.keyHash);
  }

  /** The rows of the finish are not among those a request works on. */
  ghost predicate Elsewhere(L: Ledger, q: nat, other: Proc, f: Finish) {
    Owns(L, q, other.req) ==> other.req.keyHash != f.keyHash && Id(other) != f.completion.txn.id
  }

  lemma OtherAfterFinish(env: Env, L: Ledger, f: Finish, q: nat, other: Proc)
    requires FinishError(L.db, f).None? && Elsewhere(L, q, other, f)
    requires ProcOk(env, L, q, other)
    ensures ProcOk(env, Finishing(L, f), q, other)
  {
    FinishingGrows(L, f);
    if other.result.Some? {
      ResultLasts(L, Finishing(L, f), q, other.req, other.result.value) by {
        hide LedgerGrows, ResultHolds, PcOk, GoodRequest, FinishError, Elsewhere, Finishing;
      }
    }
    OtherPcAfterFinish(L, f, q, other) by {
      hide LedgerGrows, ResultHolds, PcOk, GoodRequest, FinishError, Elsewhere, Finishing;
    }
    hide PcOk, ResultHolds, GoodRequest, LedgerGrows, Finishing, FinishError, Elsewhere;
  }

  /** The rows a request owns are the same before and after. */
  lemma RowsElsewhere(L: Ledger, f: Finish, key: string, id: string)
    requires FinishError(L.db, f).None? && key != f.keyHash && id != f.completion.txn.id
    ensures var db := Finishing(L, f).db;
            && (key in L.db.recs ==> key in db.recs && db.recs[key] == L.db.recs[key])
            && (id in L.db.txns ==> id in db.txns && db.txns[id] == L.db.txns[id])
    ensures Finishing(L, f).db.recs.Keys == L.db.recs.Keys && Finishing(L, f).db.txns.Keys == L.db.txns.Keys
    ensures Finishing(L, f).owner == L.owner && Finishing(L, f).keyOf == L.keyOf
  {
    hide GoodTransaction, GoodRecord, UpdatedRow, CompletedRecord;
  }

  lemma SameKeys(L: Ledger, f: Finish)
    ensures Finishing(L, f).db.recs.Keys == L.db.recs.Keys && Finishing(L, f).db.txns.Keys == L.db.txns.Keys
    ensures Finishing(L, f).owner == L.owner && Finishing(L, f).keyOf == L.keyOf
  {
    hide GoodTransaction, GoodRecord, UpdatedRow, CompletedRecord;
  }

  lemma OtherPcAfterFinish(L: Ledger, f: Finish, q: nat, other: Proc)
    requires FinishError(L.db, f).None? && Elsewhere(L, q, other, f) && LedgerGrows(L, Finishing(L, f))
    requires PcOk(L, q, other)
    ensures PcOk(Finishing(L, f), q, other)
  {
    var M := Finishing(L, f);
    assert Undisturbed(L, M, q, other) by {
      hide PcOk, LedgerGrows, InsertFits, InsertChecks, CreatedRow, NewRecord, FinishError, Finishing;
      SameKeys(L, f);
      assert Id(other) in M.db.txns.Keys <==> Id(other) in L.db.txns.Keys;
      assert other.req.keyHash in M.db.recs.Keys <==> other.req.keyHash in L.db.recs.Keys;
      if Owns(L, q, other.req) {
        RowsElsewhere(L, f, other.req.keyHash, Id(other));
      }
    }
    hide PcOk, LedgerGrows, Finishing, Undisturbed;
    PcStays(L, M, q, other);
  }

  lemma AnyAfterFinish(env: Env, L: Ledger, procs: map<nat, Proc>, p: nat, f: Finish, q: nat)
    requires p in procs && q in procs && p != q && FinishError(L.db, f).None?
    requires f.keyHash == procs[p].req.keyHash && f.completion.txn.id == Id(procs[p])
    requires Owns(L, p, procs[p].req) && ProcOk(env, L, q, procs[q]) && LedgerOk(env, L, procs)
    ensures ProcOk(env, Finishing(L, f), q, procs[q])
  {
    hide ProcOk, LedgerOk, FinishError, Finishing, Owns;
    if Owns(L, q, procs[q].req) {
      OwnersDiffer(env, L, procs, p, q);
    }
    OtherAfterFinish(env, L, f, q, procs[q]);
  }

  lemma OthersAfterFinish(env: Env, L: Ledger, procs: map<nat, Proc>, p: nat, f: Finish)
    requires p in procs && FinishError(L.db, f).None?
    requires f.keyHash == procs[p].req.keyHash && f.completion.txn.id == Id(procs[p])
    requires Owns(L, p, procs[p].req) && LedgerOk(env, L, procs) && ProcsOk(env, L, procs)
    ensures forall q :: q in procs && q != p ==> ProcOk(env, Finishing(L, f), q, procs[q])
  {
    hide ProcOk, LedgerOk, FinishError, Finishing, Owns;
    forall q | q in procs && q != p
      ensures ProcOk(env, Finishing(L, f), q, procs[q])
    {
      AnyAfterFinish(env, L, procs, p, f, q);
    }
  }

  lemma RecordOwner(env: Env, L: Ledger, procs: map<nat, Proc>, k: string)
    requires RecordOk(env, L, procs, k)
    ensures k in L.db.recs && k in L.owner && L.owner[k] in procs
    ensures Id(procs[L.owner[k]]) in L.db.txns && Id(procs[L.owner[k]]) in L.keyOf
  {
    hide GoodRequest, InsertFits, InsertChecks, Storable, CreatedRow, NewRecord, UpdatedRow, CompletedRecord;
  }

  lemma RecordsAfterFinish(env: Env, L: Ledger, procs: map<nat, Proc>, p: nat, pr: Proc, c: Completion, next: Proc)
    requires p in procs && procs[p] == pr && next.req == pr.req && next.completion == pr.completion
    requires FinishError(L.db, FinishOf(pr, c)).None? && Owns(L, p, pr.req) && Carries(pr, c) && c.txn.id == Id(pr)
    requires LedgerOk(env, L, procs)
    ensures LedgerOk(env, Finishing(L, FinishOf(pr, c)), procs[p := next])
  {
    var f := FinishOf(pr, c);
    var M := Finishing(L, f);
    SameKeys(L, f);
    hide FinishError, RecordOk, TransactionOk, Finishing, Owns, Carries;
    forall k | k in M.db.recs
      ensures RecordOk(env, M, procs[p := next], k)
    {
      assert k in L.db.recs;
      assert RecordOk(env, L, procs, k);
      if k == pr.req.keyHash {
        FinishedRecord(env, L, procs, p, pr, c, next);
      } else {
        RecordOwner(env, L, procs, k);
        assert RecordOk(env, L, procs, pr.req.keyHash) by {
          OwnedRecord(L, p, pr.req);
        }
        OtherRecord(env, L, procs, p, pr, c, k);
        RecordStays(env, L, M, procs, p, next, k);
      }
    }
    forall t | t in M.db.txns
      ensures TransactionOk(M, t)
    {
      assert t in L.db.txns;
      assert TransactionOk(L, t);
      FinishingGrows(L, f);
      TransactionStays(L, M, t);
    }
    forall k | k in M.owner
      ensures k in M.db.recs
    {
      assert k in L.db.recs;
    }
  }

  lemma OwnedRecord(L: Ledger, p: nat, req: Request)
    requires Owns(L, p, req)
    ensures req.keyHash in L.db.recs
  {
    hide InsertFits, InsertChecks, CreatedRow, NewRecord;
  }

  lemma TransactionStays(L: Ledger, M: Ledger, t: string)
    requires TransactionOk(L, t) && LedgerGrows(L, M) && M.keyOf == L.keyOf
    ensures TransactionOk(M, t)
  {
  }

  lemma FinishedRecord(env: Env, L: Ledger, procs: map<nat, Proc>, p: nat, pr: Proc, c: Completion, next: Proc)
    requires p in procs && procs[p] == pr && next.req == pr.req && next.completion == pr.completion
    requires FinishError(L.db, FinishOf(pr, c)).None? && Owns(L, p, pr.req) && Carries(pr, c) && c.txn.id == Id(pr)
    requires RecordOk(env, L, procs, pr.req.keyHash)
    ensures RecordOk(env, Finishing(L, FinishOf(pr, c)), procs[p := next], pr.req.keyHash)
  {
    hide GoodRequest, InsertFits, InsertChecks, Storable, CreatedRow, NewRecord, UpdatedRow, CompletedRecord;
    hide GoodTransaction, GoodRecord;
  }

  lemma OtherRecord(env: Env, L: Ledger, procs: map<nat, Proc>, p: nat, pr: Proc, c: Completion, k: string)
    requires p in procs && procs[p] == pr && k != pr.req.keyHash && k in L.owner && L.owner[k] in procs
    requires Owns(L, p, pr.req) && c.txn.id == Id(pr) && FinishError(L.db, FinishOf(pr, c)).None?
    requires RecordOk(env, L, procs, pr.req.keyHash) && RecordOk(env, L, procs, k)
    ensures var id := Id(procs[L.owner[k]]);
            var M := Finishing(L, FinishOf(pr, c));
            && k in M.db.recs && M.db.recs[k] == L.db.recs[k] && id in M.db.txns && M.db.txns[id] == L.db.txns[id]
  {
    hide GoodRequest, InsertFits, InsertChecks, Storable, CreatedRow, NewRecord, UpdatedRow, CompletedRecord, FinishError;
    hide Finishing;
    RowsElsewhere(L, FinishOf(pr, c), k, Id(procs[L.owner[k]]));
  }

  function AfterFinish(pr: Proc, c: Completion, acknowledged: bool): Proc {
    var done := RolledBack(pr, Replying(Fresh(c)));
    if acknowledged then done else Failed(done, DatabaseFailure)
  }

  lemma StoredNow(L: Ledger, p: nat, pr: Proc, c: Completion)
    requires FinishError(L.db, FinishOf(pr, c)).None? && Owns(L, p, pr.req) && Carries(pr, c)
    ensures Stores(Finishing(L, FinishOf(pr, c)), pr.req, c)
  {
    hide InsertFits, InsertChecks, Storable, CreatedRow, NewRecord, UpdatedRow, CompletedRecord, GoodTransaction, GoodRecord;
  }

  lemma KnownResult(env: Env, L: Ledger, M: Ledger, p: nat, pr: Proc)
    requires ProcOk(env, L, p, pr) && LedgerGrows(L, M)
    ensures GoodRequest(env, pr.req) && (pr.error.Some? ==> pr.error.value == DatabaseFailure)
    ensures pr.result.Some? ==> ResultHolds(M, p, pr.req, pr.result.value)
  {
    hide GoodRequest, PcOk, LedgerGrows, ResultHolds;
    if pr.result.Some? {
      ResultLasts(L, M, p, pr.req, pr.result.value);
    }
  }

  lemma FinishedOk(env: Env, M: Ledger, p: nat, pr: Proc, c: Completion, acknowledged: bool)
    requires GoodRequest(env, pr.req) && (pr.error.Some? ==> pr.error.value == DatabaseFailure)
    requires pr.result.Some? ==> ResultHolds(M, p, pr.req, pr.result.value)
    requires Stores(M, pr.req, c)
    ensures ProcOk(env, M, p, AfterFinish(pr, c, acknowledged)) && Clean(AfterFinish(pr, c, acknowledged))
  {
    hide GoodRequest, Stores, ResultHolds;
  }

  lemma LogAfterFinish(s: State, p: nat, pr: Proc, c: Completion, acknowledged: bool)
    requires p in s.procs && s.procs[p] == pr && pr.pc == CommittingFinish(c)
    requires FinishError(s.ledger.db, FinishOf(pr, c)).None?
    requires Committed(s.ledger.db, pr) == AtomicFinish(s.ledger.db, FinishOf(pr, c))
    requires LogOk(s)
    ensures LogOk(DoCommitFinish(s, p, pr, c, acknowledged))
  {
    hide FinishError, AtomicFinish, Committed, Legal, LinOk, Replay;
    var t := DoCommitFinish(s, p, pr, c, acknowledged);
    var e := Finished(p, FinishOf(pr, c));
    var next := AfterFinish(pr, c, acknowledged);
    ReplaySnoc(s.log, e);
    assert t.procs == s.procs[p := next] && t.log == s.log + [e];
    LinStays(s.log, p, pr, next);
    forall q | q in t.procs
      ensures LinOk(t.log, q, t.procs[q])
    {
      LinLater(s.log, e, q, t.procs[q]);
    }
  }

  lemma CommitFinishKeeps(env: Env, s: State, p: nat, pr: Proc, c: Completion, acknowledged: bool)
    requires p in s.procs && s.procs[p] == pr && pr.pc == CommittingFinish(c)
    requires Inv(env, s)
    ensures Inv(env, DoCommitFinish(s, p, pr, c, acknowledged))
  {
    var f := FinishOf(pr, c);
    var L, M := s.ledger, Finishing(s.ledger, f);
    var next := AfterFinish(pr, c, acknowledged);
    hide ProcOk, LinOk, LocksOk, LogOk, Committed, FinishError, AtomicFinish, Owns, Carries, Stores;
    hide LedgerGrows, CallsOk, RepliesOk, RecordOk, TransactionOk, Apart;
    assert ProcsOk(env, L, s.procs) && LedgerOk(env, L, s.procs) && LocksOk(s.procs);
    assert CallsOk(L, s.procs, s.calls) && RepliesOk(L, s.procs, s.replies) && LogOk(s);
    assert ProcOk(env, L, p, pr);
    FinishCommits(env, L, p, pr, c);
    hide ProcsOk, LedgerOk, SystemOk, Inv;
    FinishingGrows(L, f);
    OthersAfterFinish(env, L, s.procs, p, f);
    StoredNow(L, p, pr, c);
    KnownResult(env, L, M, p, pr);
    hide GoodRequest, ResultHolds;
    FinishedOk(env, M, p, pr, c, acknowledged);
    RecordsAfterFinish(env, L, s.procs, p, pr, c, next);
    CleanApart(s, p, next);
    LocksUnder(s.procs, p, next);
    CallsUnder(L, s.procs, s.calls, p, next);
    CallsLast(L, M, s.procs[p := next], s.calls);
    RepliesUnder(L, s.procs, s.replies, p, next);
    RepliesLast(L, M, s.procs[p := next], s.replies);
    LogAfterFinish(s, p, pr, c, acknowledged);
    SystemFrom(env, M, s.procs, p, next, s.calls, s.replies);
    var t := DoCommitFinish(s, p, pr, c, acknowledged);
    assert t.ledger == M && t.procs == s.procs[p := next] && t.calls == s.calls && t.replies == s.replies;
    InvFrom(env, t);
  }

  // ---------- Calls, replies and new requests ----------

  lemma CallingOk(env: Env, L: Ledger, p: nat, pr: Proc)
    requires ProcOk(env, L, p, pr) && pr.pc == Calling
    ensures ProcOk(env, L, p, pr.(pc := Awaiting)) && Clean(pr) && Owns(L, p, pr.req)
  {
    hide GoodRequest, ResultHolds, Owns;
  }

  lemma CallKeeps(env: Env, s: State, p: nat, pr: Proc)
    requires p in s.procs && s.procs[p] == pr && pr.pc == Calling
    requires Inv(env, s)
    ensures Inv(env, DoCall(s, p, pr))
  {
    var next := pr.(pc := Awaiting);
    hide Inv, ProcOk, LinOk, Owns;
    GetProc(env, s, p, pr);
    CallingOk(env, s.ledger, p, pr);
    CleanApart(s, p, next);
    hide Apart, Clean;
    StepLocally(env, s, p, next);
    CallAdded(env, s, p, pr, next);
  }

  lemma CallAdded(env: Env, s: State, p: nat, pr: Proc, next: Proc)
    requires p in s.procs && s.procs[p] == pr && pr.pc == Calling && next == pr.(pc := Awaiting)
    requires Owns(s.ledger, p, pr.req)
    requires Inv(env, s) && Inv(env, Put(s, p, next))
    ensures Inv(env, DoCall(s, p, pr))
  {
    var t := DoCall(s, p, pr);
    hide ProcsOk, LedgerOk, LocksOk, RepliesOk, LinOk, Replay, Legal, CallOk;
    assert forall i :: 0 <= i < |s.calls| ==> CallOk(s.ledger, s.procs, s.calls[i]);
    assert forall i :: 0 <= i < |s.calls| ==> CallOk(t.ledger, t.procs, s.calls[i]);
    forall i | 0 <= i < |s.calls|
      ensures s.calls[i] != p
    {
      NotCalled(s.ledger, s.procs, s.calls[i], p);
    }
    CallNow(t.ledger, t.procs, p);
  }

  lemma NotCalled(L: Ledger, procs: map<nat, Proc>, q: nat, p: nat)
    requires CallOk(L, procs, q) && p in procs && procs[p].pc == Calling
    ensures q != p
  {
  }

  lemma CallNow(L: Ledger, procs: map<nat, Proc>, p: nat)
    requires p in procs && procs[p].pc == Awaiting && Owns(L, p, procs[p].req)
    ensures CallOk(L, procs, p)
  {
    hide InsertFits, InsertChecks, CreatedRow;
  }

  lemma RepliedOk(env: Env, L: Ledger, p: nat, pr: Proc, a: Answer)
    requires ProcOk(env, L, p, pr) && pr.pc == Replying(a)
    ensures ProcOk(env, L, p, pr.(pc := Replied)) && Clean(pr) && AnswerHolds(L, p, pr.req, a)
  {
    hide GoodRequest, ResultHolds, AnswerHolds;
  }

  lemma SendReplyKeeps(env: Env, s: State, p: nat, pr: Proc, a: Answer)
    requires p in s.procs && s.procs[p] == pr && pr.pc == Replying(a)
    requires Inv(env, s)
    ensures Inv(env, DoSendReply(s, p, pr, a))
  {
    var next := pr.(pc := Replied);
    hide Inv, ProcOk, LinOk, Owns, AnswerHolds;
    GetProc(env, s, p, pr);
    RepliedOk(env, s.ledger, p, pr, a);
    CleanApart(s, p, next);
    hide Apart, Clean;
    StepLocally(env, s, p, next);
    ReplyAdded(env, s, p, pr, next, a);
  }

  lemma ReplyAdded(env: Env, s: State, p: nat, pr: Proc, next: Proc, a: Answer)
    requires p in s.procs && s.procs[p] == pr && next == pr.(pc := Replied)
    requires AnswerHolds(s.ledger, p, pr.req, a)
    requires Inv(env, Put(s, p, next))
    ensures Inv(env, DoSendReply(s, p, pr, a))
  {
    var t := DoSendReply(s, p, pr, a);
    hide ProcsOk, LedgerOk, LocksOk, CallsOk, LinOk, Replay, Legal, AnswerHolds;
    assert forall i :: 0 <= i < |s.replies| ==> ReplyOk(t.ledger, t.procs, s.replies[i]);
  }

  lemma StartOk(env: Env, L: Ledger, s: State, p: nat, key: string, payload: Payload)
    requires HashShape(env.sha) && ValidPayload(payload)
    ensures ProcOk(env, L, p, DoStart(env, s, p, key, payload).procs[p])
  {
    hide ValidPayload, Encode, IsHex64;
  }

  lemma StartSystem(env: Env, s: State, p: nat, pr: Proc)
    requires p !in s.procs && Clean(pr)
    requires ProcOk(env, s.ledger, p, pr)
    requires SystemOk(env, s.ledger, s.procs, s.calls, s.replies)
    ensures SystemOk(env, s.ledger, s.procs[p := pr], s.calls, s.replies)
  {
    CleanApart(s, p, pr);
    hide ProcOk, RecordOk, TransactionOk, ReplyOk, CallOk, Apart, Owns, Clean;
    OwnersExist(env, s.ledger, s.procs);
    LedgerUnder(env, s.ledger, s.procs, p, pr);
    hide LedgerOk;
    LocksUnder(s.procs, p, pr);
    hide LocksOk;
    NewCalls(s.ledger, s.procs, s.calls, p, pr);
    NewReplies(s.ledger, s.procs, s.replies, p, pr);
  }

  lemma StartKeeps(env: Env, s: State, p: nat, key: string, payload: Payload)
    requires HashShape(env.sha) && p !in s.procs && ValidPayload(payload)
    requires Inv(env, s)
    ensures Inv(env, DoStart(env, s, p, key, payload))
  {
    var t := DoStart(env, s, p, key, payload);
    var pr := t.procs[p];
    StartOk(env, s.ledger, s, p, key, payload);
    hide HashShape, ValidPayload, ProcOk, LinOk, Replay, Legal, Encode, SystemOk;
    StartSystem(env, s, p, pr);
    NewLin(s.log, s.procs, p, pr);
    LogUnder(s, p, pr);
  }

  lemma OwnersExist(env: Env, L: Ledger, procs: map<nat, Proc>)
    requires LedgerOk(env, L, procs)
    ensures forall k :: k in L.owner ==> L.owner[k] in procs
  {
    forall k | k in L.owner
      ensures L.owner[k] in procs
    {
      hide GoodRequest, InsertFits, InsertChecks, Storable;
      assert RecordOk(env, L, procs, k);
    }
  }

  lemma NewCalls(L: Ledger, procs: map<nat, Proc>, calls: seq<nat>, p: nat, pr: Proc)
    requires CallsOk(L, procs, calls) && p !in procs
    ensures CallsOk(L, procs[p := pr], calls)
  {
    forall i | 0 <= i < |calls|
      ensures CallOk(L, procs[p := pr], calls[i])
    {
      assert CallOk(L, procs, calls[i]);
    }
  }

  lemma NewReplies(L: Ledger, procs: map<nat, Proc>, replies: seq<Reply>, p: nat, pr: Proc)
    requires RepliesOk(L, procs, replies) && p !in procs
    ensures RepliesOk(L, procs[p := pr], replies)
  {
    forall i | 0 <= i < |replies|
      ensures ReplyOk(L, procs[p := pr], replies[i])
    {
      hide AnswerHolds;
      assert ReplyOk(L, procs, replies[i]);
    }
  }

  lemma NewLin(log: seq<Event>, procs: map<nat, Proc>, p: nat, pr: Proc)
    requires p !in procs && forall i :: 0 <= i < |log| ==> log[i].pid in procs
    requires pr.started == |log| && pr.lin.None? && pr.result.None? && pr.pc == SelectingKey
    ensures LinOk(log, p, pr)
  {
  }
}
