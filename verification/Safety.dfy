/** Safety over every run of the protocol. */
module Safety {
  import opened Results
  import opened CanonicalJson
  import opened Envelopes
  import opened Schema
  import opened Authorization
  import opened Store
  import opened Protocol
  import opened Invariant
  import opened Steps
  import opened Commits
  import Lifecycle

  // ---------- The invariant over runs ----------

  lemma StepKeeps(env: Env, s: State, a: Action)
    requires HashShape(env.sha) && Enabled(s, a)
    requires Inv(env, s)
    ensures Inv(env, Step(env, s, a))
  {
    hide Inv, HashShape, ValidPayload, Waiting, DoStart, DoSelectKey, DoInsertTransaction, DoInsertRecord, DoCommitReserve;
    hide DoRequeryKey, DoRequeryTransaction, DoCall, DoReturn, DoUpdateTransaction, DoUpdateRecord, DoCommitFinish, DoSendReply;
    match a
    case Start(p, key, payload) => StartKeeps(env, s, p, key, payload);
    case SelectKey(p) => SelectKeyKeeps(env, s, p, s.procs[p]);
    case InsertTransaction(p) => InsertTransactionKeeps(env, s, p, s.procs[p]);
    case InsertRecord(p) => InsertRecordKeeps(env, s, p, s.procs[p]);
    case CommitReserve(p, acknowledged) => CommitReserveKeeps(env, s, p, s.procs[p], acknowledged);
    case RequeryKey(p) => RequeryKeyKeeps(env, s, p, s.procs[p]);
    case RequeryTransaction(p) => RequeryTransactionKeeps(env, s, p, s.procs[p]);
    case Call(p) => CallKeeps(env, s, p, s.procs[p]);
    case Return(p, h) => ReturnKeeps(env, s, p, s.procs[p], h);
    case UpdateTransaction(p) => UpdateTransactionKeeps(env, s, p, s.procs[p], s.procs[p].pc.c);
    case UpdateRecord(p) => UpdateRecordKeeps(env, s, p, s.procs[p], s.procs[p].pc.c);
    case CommitFinish(p, acknowledged) => CommitFinishKeeps(env, s, p, s.procs[p], s.procs[p].pc.c, acknowledged);
    case SendReply(p) => SendReplyKeeps(env, s, p, s.procs[p], s.procs[p].pc.answer);
    case Fail(p) => GiveUp(env, s, p, s.procs[p], Replying(ServerError), Some(DatabaseFailure));
    case Crash(p) => GiveUp(env, s, p, s.procs[p], Crashed, s.procs[p].error);
  }

  lemma InitialOk(env: Env)
    ensures Inv(env, INITIAL)
  {
  }

  /** The invariant holds after every run. */
  lemma {:induction false} RunsKeep(env: Env, acts: seq<Action>)
    requires HashShape(env.sha) && IsRun(env, acts)
    ensures Inv(env, Exec(env, acts))
  {
    hide Inv, HashShape, Step, Enabled;
    if acts == [] {
      InitialOk(env);
    } else {
      var before := acts[..|acts| - 1];
      RunsKeep(env, before);
      StepKeeps(env, Exec(env, before), acts[|acts| - 1]);
    }
  }

  /** The states of all runs. */
  ghost predicate Reachable(env: Env, s: State) {
    exists acts :: IsRun(env, acts) && Exec(env, acts) == s
  }

  lemma Safe(env: Env, s: State)
    requires HashShape(env.sha) && Reachable(env, s)
    ensures SystemOk(env, s.ledger, s.procs, s.calls, s.replies) && LogOk(s)
    ensures Inv(env, s)
  {
    hide SystemOk, LogOk, HashShape, IsRun, Exec;
    var acts :| IsRun(env, acts) && Exec(env, acts) == s;
    RunsKeep(env, acts);
  }

  // ---------- Linearizability of reserve ----------

  /** The committed tables are always those of a sequential history of the atomic operations, and every reservation
      that returned has exactly one place in it, inside its own execution and with the answer it returned. */
  lemma Linearizable(env: Env, s: State)
    requires HashShape(env.sha) && Reachable(env, s)
    ensures Legal(s.log) && s.ledger.db == Replay(s.log)
    ensures forall p :: p in s.procs && s.procs[p].result.Some? ==>
              && s.procs[p].lin.Some? && s.procs[p].started <= s.procs[p].lin.value < |s.log|
              && s.log[s.procs[p].lin.value] == Reserved(p, s.procs[p].req, s.procs[p].result.value)
    ensures forall i, j :: 0 <= i < j < |s.log| && s.log[i].Reserved? && s.log[j].Reserved? ==> s.log[i].pid != s.log[j].pid
  {
    hide SystemOk, Reachable, HashShape, Legal, Replay, Inv;
    Safe(env, s);
    forall i, j | 0 <= i < j < |s.log| && s.log[i].Reserved? && s.log[j].Reserved?
      ensures s.log[i].pid != s.log[j].pid
    {
      assert LinOk(s.log, s.log[i].pid, s.procs[s.log[i].pid]);
    }
    forall p | p in s.procs && s.procs[p].result.Some?
      ensures s.procs[p].lin.Some? && s.procs[p].started <= s.procs[p].lin.value < |s.log|
      ensures s.log[s.procs[p].lin.value] == Reserved(p, s.procs[p].req, s.procs[p].result.value)
    {
      assert LinOk(s.log, p, s.procs[p]);
    }
  }

  // ---------- The network is called at most once ----------

  /** At most one call per key and per transaction id, each for a pair that is committed and that the caller reserved. */
  lemma CalledAtMostOnce(env: Env, s: State)
    requires HashShape(env.sha) && Reachable(env, s)
    ensures forall i :: 0 <= i < |s.calls| ==>
              && s.calls[i] in s.procs && s.procs[s.calls[i]].req.keyHash in s.ledger.db.recs
              && s.ledger.db.recs[s.procs[s.calls[i]].req.keyHash].transactionId == Id(s.procs[s.calls[i]])
              && s.procs[s.calls[i]].req.keyHash in s.ledger.owner
              && s.ledger.owner[s.procs[s.calls[i]].req.keyHash] == s.calls[i]
    ensures forall i, j :: 0 <= i < j < |s.calls| ==>
              && s.procs[s.calls[i]].req.keyHash != s.procs[s.calls[j]].req.keyHash
              && Id(s.procs[s.calls[i]]) != Id(s.procs[s.calls[j]])
  {
    hide Reachable, HashShape, Inv, ProcsOk, LocksOk, RepliesOk, LogOk, LedgerOk, Uncalled;
    Safe(env, s);
    assert forall i :: 0 <= i < |s.calls| ==> CallOk(s.ledger, s.procs, s.calls[i]);
    forall i, j | 0 <= i < j < |s.calls|
      ensures s.procs[s.calls[i]].req.keyHash != s.procs[s.calls[j]].req.keyHash
      ensures Id(s.procs[s.calls[i]]) != Id(s.procs[s.calls[j]])
    {
      CallsDiffer(env, s.ledger, s.procs, s.calls[i], s.calls[j]);
    }
  }

  lemma CallsDiffer(env: Env, L: Ledger, procs: map<nat, Proc>, p: nat, q: nat)
    requires p != q && CallOk(L, procs, p) && CallOk(L, procs, q)
    requires LedgerOk(env, L, procs)
    ensures procs[p].req.keyHash != procs[q].req.keyHash && Id(procs[p]) != Id(procs[q])
  {
    hide GoodRequest, InsertFits, InsertChecks, Storable, CreatedRow, NewRecord, UpdatedRow, CompletedRecord, Uncalled;
    assert RecordOk(env, L, procs, procs[p].req.keyHash);
    assert RecordOk(env, L, procs, procs[q].req.keyHash);
  }

  /** When a request is about to call the network its pair is committed, in progress and untouched, and it has not
      called before. */
  lemma CallIsReserved(env: Env, s: State, p: nat, pr: Proc)
    requires p in s.procs && s.procs[p] == pr && pr.pc == Calling
    requires HashShape(env.sha) && Reachable(env, s)
    ensures pr.req.keyHash in s.ledger.db.recs && s.ledger.db.recs[pr.req.keyHash] == NewRecord(pr.req)
    ensures s.ledger.db.recs[pr.req.keyHash].processing == IN_PROGRESS
    ensures s.ledger.db.recs[pr.req.keyHash].transactionId == Id(pr)
    ensures s.ledger.db.recs[pr.req.keyHash].fingerprint == pr.req.fingerprint
    ensures Id(pr) in s.ledger.db.txns && s.ledger.db.txns[Id(pr)] == CreatedRow(pr.req.payload)
    ensures TermsOf(s.ledger.db.txns[Id(pr)], pr.req.payload)
    ensures s.ledger.db.txns[Id(pr)].status == Lifecycle.CREATED && s.ledger.db.txns[Id(pr)].version == 0
    ensures p !in s.calls
  {
    hide Inv, HashShape, Reachable, InsertFits, InsertChecks;
    Safe(env, s);
    OwnedAtCall(env, s, p, pr);
  }

  lemma OwnedAtCall(env: Env, s: State, p: nat, pr: Proc)
    requires p in s.procs && s.procs[p] == pr && pr.pc == Calling
    requires Inv(env, s)
    ensures Owns(s.ledger, p, pr.req) && p !in s.calls
  {
    assert CallsOk(s.ledger, s.procs, s.calls) by {
      hide ProcsOk, LedgerOk, LocksOk, CallsOk, RepliesOk, LogOk;
    }
    GetProc(env, s, p, pr) by {
      hide Inv;
    }
    hide Inv;
    CallingOk(env, s.ledger, p, pr) by {
      hide ProcOk, Owns;
    }
    hide ProcOk, LinOk, Owns;
    forall i | 0 <= i < |s.calls|
      ensures s.calls[i] != p
    {
      assert CallOk(s.ledger, s.procs, s.calls[i]);
    }
  }

  // ---------- The tables ----------

  /** The response code that goes with a stored status. */
  predicate StatusMatches(status: Lifecycle.Status, code: int) {
    match code
    case 201 => status == Lifecycle.AUTHORIZED || status == Lifecycle.DECLINED
    case 202 => status == Lifecycle.PENDING_RECONCILIATION
    case 502 => status == Lifecycle.FAILED
    case 503 => status == Lifecycle.FAILED
    case _ => false
  }

  /** A record and its transaction. */
  predicate RowsAgree(r: RecordRow, t: TransactionRow) {
    PayloadIntegrity(r) &&
    match r.processing
    case IN_PROGRESS => t.status == Lifecycle.CREATED && t.version == 0 && t.pending.None?
    case COMPLETED => t.version == 1 && r.statusCode.Some? && StatusMatches(t.status, r.statusCode.value)
  }

  /** The tables are in bijection through the transaction id, and paired rows agree, in every reachable state. */
  lemma TablesAgree(env: Env, s: State)
    requires HashShape(env.sha) && Reachable(env, s)
    ensures Paired(s.ledger.db)
    ensures forall k :: k in s.ledger.db.recs ==> RowsAgree(s.ledger.db.recs[k], s.ledger.db.txns[s.ledger.db.recs[k].transactionId])
  {
    hide Reachable, HashShape, Inv, ProcsOk, LocksOk, RepliesOk, CallsOk, Legal, LinOk, Paired, RowsAgree;
    Safe(env, s);
    HistoryPaired(s.log);
    assert forall k :: k in s.ledger.db.recs ==> s.ledger.db.recs[k].transactionId in s.ledger.db.txns by {
      PairedRecord(s.ledger.db);
    }
    forall k | k in s.ledger.db.recs
      ensures RowsAgree(s.ledger.db.recs[k], s.ledger.db.txns[s.ledger.db.recs[k].transactionId])
    {
      hide RecordOk;
      assert RecordOk(env, s.ledger, s.procs, k);
      RecordRows(env, s.ledger, s.procs, k);
    }
  }

  /** The stored transaction of a key is about what its owner asked for, in progress and after completion. */
  lemma TermsAreKept(env: Env, s: State, k: string)
    requires k in s.ledger.db.recs
    requires HashShape(env.sha) && Reachable(env, s)
    ensures k in s.ledger.owner && s.ledger.owner[k] in s.procs
    ensures var pr := s.procs[s.ledger.owner[k]];
            && pr.req.keyHash == k && s.ledger.db.recs[k].transactionId == pr.req.payload.transactionId
            && s.ledger.db.recs[k].fingerprint == pr.req.fingerprint
            && pr.req.payload.transactionId in s.ledger.db.txns
            && TermsOf(s.ledger.db.txns[pr.req.payload.transactionId], pr.req.payload)
  {
    hide Reachable, HashShape, Inv, ProcsOk, LocksOk, RepliesOk, CallsOk, LogOk, RecordOk, TermsOf;
    Safe(env, s);
    RecordTerms(env, s.ledger, s.procs, k);
  }

  lemma RecordTerms(env: Env, L: Ledger, procs: map<nat, Proc>, k: string)
    requires RecordOk(env, L, procs, k)
    ensures k in L.db.recs && k in L.owner && L.owner[k] in procs
    ensures var pr := procs[L.owner[k]];
            && pr.req.keyHash == k && L.db.recs[k].transactionId == pr.req.payload.transactionId
            && L.db.recs[k].fingerprint == pr.req.fingerprint
            && pr.req.payload.transactionId in L.db.txns
            && TermsOf(L.db.txns[pr.req.payload.transactionId], pr.req.payload)
  {
    hide GoodRequest, InsertFits, InsertChecks, Storable, Persisted;
  }

  lemma PairedRecord(db: Database)
    requires Paired(db)
    ensures forall k :: k in db.recs ==> db.recs[k].transactionId in db.txns
  {
  }

  /** What a record and its transaction hold. */
  lemma RecordRows(env: Env, L: Ledger, procs: map<nat, Proc>, k: string)
    requires RecordOk(env, L, procs, k)
    ensures L.db.recs[k].transactionId in L.db.txns
    ensures RowsAgree(L.db.recs[k], L.db.txns[L.db.recs[k].transactionId])
  {
    hide GoodRequest, InsertFits, InsertChecks, Persisted;
  }

  /** All check constraints hold of all committed rows. */
  lemma ChecksHold(env: Env, s: State)
    requires HashShape(env.sha) && Reachable(env, s)
    ensures forall k :: k in s.ledger.db.recs ==> RecordChecks(k, s.ledger.db.recs[k])
    ensures forall t :: t in s.ledger.db.txns ==> TransactionChecks(t, s.ledger.db.txns[t])
  {
    hide Reachable, HashShape, Inv, ProcsOk, LocksOk, RepliesOk, CallsOk, LogOk, RecordOk, RecordChecks, TransactionChecks;
    Safe(env, s);
    forall k | k in s.ledger.db.recs
      ensures RecordChecks(k, s.ledger.db.recs[k])
    {
      RowChecks(env, s.ledger, s.procs, k);
    }
    forall t | t in s.ledger.db.txns
      ensures TransactionChecks(t, s.ledger.db.txns[t])
    {
      assert TransactionOk(s.ledger, t);
      RowChecks(env, s.ledger, s.procs, s.ledger.keyOf[t]);
    }
  }

  lemma RowChecks(env: Env, L: Ledger, procs: map<nat, Proc>, k: string)
    requires RecordOk(env, L, procs, k)
    ensures RecordChecks(k, L.db.recs[k])
    ensures L.db.recs[k].transactionId in L.db.txns
    ensures TransactionChecks(L.db.recs[k].transactionId, L.db.txns[L.db.recs[k].transactionId])
  {
    var pr := procs[L.owner[k]];
    hide GoodRequest, InsertFits, RecordChecks, TransactionChecks, Storable, Persisted;
    if L.db.recs[k] != NewRecord(pr.req) || L.db.txns[Id(pr)] != CreatedRow(pr.req.payload) {
      CompletionMeetsChecks(pr.req, pr.completion.value);
    }
  }

  /** No request ever sees an error other than a failing database: the violation is always explained, records can
      always be classified, the version guard never raises and the guarded updates match when they are executed. */
  lemma OnlyDatabaseErrors(env: Env, s: State, p: nat, pr: Proc)
    requires p in s.procs && s.procs[p] == pr
    requires HashShape(env.sha) && Reachable(env, s)
    ensures pr.error.None? || pr.error == Some(DatabaseFailure)
    ensures pr.pc == RequeryingTransaction ==> Id(pr) in s.ledger.db.txns
    ensures pr.pc.UpdatingTransaction? ==> MatchesTransaction(s.ledger.db, FinishOf(pr, pr.pc.c))
    ensures pr.pc.UpdatingRecord? ==> MatchesRecord(s.ledger.db, FinishOf(pr, pr.pc.c))
  {
    hide Reachable, HashShape, Inv, ProcOk, LinOk, MatchesTransaction, MatchesRecord;
    Safe(env, s);
    GetProc(env, s, p, pr);
    ErrorOk(env, s.ledger, p, pr);
    match pr.pc
    case RequeryingTransaction => RefusedForId(env, s.ledger, p, pr);
    case UpdatingTransaction(c) => UpdateTransactionMatches(env, s.ledger, p, pr, c);
    case UpdatingRecord(c) => UpdateRecordMatches(env, s.ledger, p, pr, c);
    case _ =>
  }

  // ---------- Refusals ----------

  /** A request is refused for its transaction id only if another key owns that id; a request with the same key and
      the same transaction id is never acquired, neither before nor after. */
  lemma ConflictIsSound(env: Env, s: State, p: nat, pr: Proc)
    requires p in s.procs && s.procs[p] == pr && pr.result == Some(TransactionIdConflict)
    requires HashShape(env.sha) && Reachable(env, s)
    ensures exists k :: k in s.ledger.db.recs && k != pr.req.keyHash && s.ledger.db.recs[k].transactionId == Id(pr)
    ensures forall i :: 0 <= i < |s.log| && s.log[i].Reserved? && s.log[i].answer == Acquired ==>
              !(s.log[i].req.keyHash == pr.req.keyHash && s.log[i].req.payload.transactionId == Id(pr))
  {
    hide Reachable, HashShape, Inv, ProcOk, LinOk, LedgerOk, LocksOk, RepliesOk, CallsOk, Legal, Replay;
    Safe(env, s);
    assert s.ledger.db == Replay(s.log) && Legal(s.log);
    assert LedgerOk(env, s.ledger, s.procs) && ProcOk(env, s.ledger, p, pr);
    hide SystemOk, LogOk;
    ResultOf(env, s.ledger, p, pr);
    var k := s.ledger.keyOf[Id(pr)];
    OwnerOfId(env, s.ledger, s.procs, Id(pr));
    assert k in s.ledger.db.recs && k != pr.req.keyHash && s.ledger.db.recs[k].transactionId == Id(pr);
    HistoryPaired(s.log);
    forall i | 0 <= i < |s.log| && s.log[i].Reserved? && s.log[i].answer == Acquired
      ensures !(s.log[i].req.keyHash == pr.req.keyHash && s.log[i].req.payload.transactionId == Id(pr))
    {
      AcquiredStays(s.log, i);
    }
  }

  lemma ResultOf(env: Env, L: Ledger, p: nat, pr: Proc)
    requires ProcOk(env, L, p, pr) && pr.result.Some?
    ensures ResultHolds(L, p, pr.req, pr.result.value) && GoodRequest(env, pr.req)
  {
    hide GoodRequest, PcOk, ResultHolds;
  }

  lemma OwnerOfId(env: Env, L: Ledger, procs: map<nat, Proc>, t: string)
    requires LedgerOk(env, L, procs) && t in L.db.txns
    ensures t in L.keyOf && L.keyOf[t] in L.db.recs && L.db.recs[L.keyOf[t]].transactionId == t
  {
    hide RecordOk;
    assert TransactionOk(L, t);
  }

  lemma AcquiredStays(log: seq<Event>, i: nat)
    requires Legal(log) && i < |log| && log[i].Reserved? && log[i].answer == Acquired
    ensures log[i].req.keyHash in Replay(log).recs
    ensures Replay(log).recs[log[i].req.keyHash].transactionId == log[i].req.payload.transactionId
    ensures Replay(log).recs[log[i].req.keyHash].fingerprint == log[i].req.fingerprint
  {
    hide InsertFits, InsertChecks, CreatedRow, AtomicFinish, FinishError, StoredEnvelope;
    assert Explains(Replay(log[..i]), log[i]);
    AcquiredNow(Replay(log[..i]), log[i]);
    AfterEvent(log, i);
    hide After, Explains, Replay, Legal;
    HistoryGrows(log, i + 1, |log|);
    assert log[..|log|] == log;
  }

  lemma AcquiredNow(db: Database, e: Event)
    requires e.Reserved? && e.answer == Acquired && Explains(db, e)
    ensures e.req.keyHash in After(db, e).recs && After(db, e).recs[e.req.keyHash] == NewRecord(e.req)
  {
    hide InsertFits, InsertChecks, CreatedRow, StoredEnvelope;
  }

  /** The payloads of all requests so far. */
  function Payloads(s: State): set<Payload> {
    set p | p in s.procs :: s.procs[p].req.payload
  }

  /** Unless hashes collide, a request is refused for its payload exactly when the payload differs from the one that
      reserved the key, and it gets the state or the response of the key exactly when the payloads are equal. */
  lemma RefusalIsExact(env: Env, s: State, p: nat, pr: Proc, key: string)
    requires p in s.procs && s.procs[p] == pr && pr.req.keyHash == key && pr.result.Some?
    requires pr.result.value != TransactionIdConflict
    requires HashShape(env.sha) && Reachable(env, s) && CollisionFree(env.sha, Payloads(s))
    ensures key in s.ledger.owner && s.ledger.owner[key] in s.procs
    ensures pr.result.value == IdempotencyConflict <==> s.procs[s.ledger.owner[key]].req.payload != pr.req.payload
  {
    hide Reachable, HashShape, Inv, ProcOk, LinOk, LedgerOk, LocksOk, RepliesOk, CallsOk, LogOk, CollisionFree, Encode;
    Safe(env, s);
    assert LedgerOk(env, s.ledger, s.procs) && ProcOk(env, s.ledger, p, pr);
    hide SystemOk;
    ResultOf(env, s.ledger, p, pr);
    ResultFingerprint(s.ledger, p, pr.req, pr.result.value);
    KeyOwner(env, s.ledger, s.procs, key);
    var o := s.ledger.owner[key];
    assert s.procs[o].req.payload in Payloads(s) && pr.req.payload in Payloads(s);
    hide Payloads, GoodRequest;
    FingerprintExact(env.sha, Payloads(s), s.procs[o].req.payload, pr.req.payload);
    GoodFingerprint(env, pr.req);
  }

  lemma GoodFingerprint(env: Env, req: Request)
    requires GoodRequest(env, req)
    ensures req.fingerprint == Fingerprint(env.sha, req.payload)
  {
    hide ValidPayload, Encode;
  }

  lemma ResultFingerprint(L: Ledger, p: nat, req: Request, r: Reservation)
    requires ResultHolds(L, p, req, r) && r != TransactionIdConflict
    ensures req.keyHash in L.db.recs
    ensures r == IdempotencyConflict <==> L.db.recs[req.keyHash].fingerprint != req.fingerprint
  {
    hide StoredEnvelope;
  }

  lemma KeyOwner(env: Env, L: Ledger, procs: map<nat, Proc>, k: string)
    requires LedgerOk(env, L, procs) && k in L.db.recs
    ensures k in L.owner && L.owner[k] in procs
    ensures L.db.recs[k].fingerprint == Fingerprint(env.sha, procs[L.owner[k]].req.payload)
  {
    hide ValidPayload, InsertFits, InsertChecks, Storable, CreatedRow, UpdatedRow, Persisted, Encode;
    assert RecordOk(env, L, procs, k);
  }
}
