/** What every step of the protocol keeps. */
module Invariant {
  import opened Results
  import opened CanonicalJson
  import opened Schema
  import opened Authorization
  import opened Store
  import opened Protocol

  // ---------- One request ----------

  ghost predicate GoodRequest(env: Env, req: Request) {
    && ValidPayload(req.payload)
    && IsHex64(req.keyHash) && IsHex64(req.fingerprint)
    && req.fingerprint == Fingerprint(env.sha, req.payload)
  }

  /** The pair of rows this request inserted is committed and untouched. */
  predicate Owns(L: Ledger, p: nat, req: Request) {
    var id := req.payload.transactionId;
    && req.keyHash in L.owner && L.owner[req.keyHash] == p
    && req.keyHash in L.db.recs && L.db.recs[req.keyHash] == NewRecord(req)
    && id in L.db.txns && L.db.txns[id] == CreatedRow(req.payload)
    && InsertFits(req) && InsertChecks(req)
  }

  /** The session has written nothing. */
  predicate Clean(pr: Proc) {
    pr.txns == map[] && pr.recs == map[]
  }

  predicate TransactionFree(L: Ledger, pr: Proc) {
    Id(pr) !in L.db.txns && TransactionFits(Id(pr), CreatedRow(pr.req.payload))
    && TransactionChecks(Id(pr), CreatedRow(pr.req.payload))
  }

  predicate RecordFree(L: Ledger, pr: Proc) {
    pr.req.keyHash !in L.db.recs && InsertFits(pr.req) && InsertChecks(pr.req)
  }

  /** The stored response of the key is this completion. */
  predicate Stores(L: Ledger, req: Request, c: Completion) {
    && req.keyHash in L.db.recs
    && L.db.recs[req.keyHash] == CompletedRecord(NewRecord(req), c.envelope)
    && Storable(req.payload.transactionId, c)
  }

  /** What a reservation result says about the ledger, now and ever after. */
  predicate ResultHolds(L: Ledger, p: nat, req: Request, r: Reservation) {
    var key := req.keyHash;
    match r
    case Acquired => key in L.db.recs && L.db.recs[key].fingerprint == req.fingerprint
                     && key in L.owner && L.owner[key] == p
    case InProgress => key in L.db.recs && L.db.recs[key].fingerprint == req.fingerprint
    case Completed(e) => key in L.db.recs && L.db.recs[key].processing == COMPLETED
                         && Classify(L.db.recs[key], req.fingerprint) == Ok(r)
    case IdempotencyConflict => key in L.db.recs && L.db.recs[key].fingerprint != req.fingerprint
    case TransactionIdConflict => req.payload.transactionId in L.db.txns && req.payload.transactionId in L.keyOf
                                  && L.keyOf[req.payload.transactionId] != key
  }

  predicate AnswerHolds(L: Ledger, p: nat, req: Request, a: Answer) {
    match a
    case Refused(r) => ResultHolds(L, p, req, r)
    case Fresh(c) => Stores(L, req, c)
    case ServerError => true
  }

  /** Where a request is determines what its session has written and what it knows. */
  predicate PcOk(L: Ledger, p: nat, pr: Proc) {
    match pr.pc
    case SelectingKey => Clean(pr)
    case InsertingTransaction => Clean(pr)
    case InsertingRecord =>
      && TransactionFree(L, pr)
      && pr.txns == map[Id(pr) := CreatedRow(pr.req.payload)] && pr.recs == map[]
    case CommittingReserve =>
      && TransactionFree(L, pr) && RecordFree(L, pr)
      && pr.txns == map[Id(pr) := CreatedRow(pr.req.payload)] && pr.recs == map[pr.req.keyHash := NewRecord(pr.req)]
    case RequeryingKey =>
      Clean(pr) && InsertFits(pr.req) && (pr.req.keyHash in L.db.recs || Id(pr) in L.db.txns)
    case RequeryingTransaction => Clean(pr) && ResultHolds(L, p, pr.req, TransactionIdConflict)
    case Calling => Clean(pr) && Owns(L, p, pr.req)
    case Awaiting => Clean(pr) && Owns(L, p, pr.req)
    case UpdatingTransaction(c) => Clean(pr) && Owns(L, p, pr.req) && Carries(pr, c)
    case UpdatingRecord(c) =>
      && Owns(L, p, pr.req) && Carries(pr, c)
      && MatchesTransaction(L.db, FinishOf(pr, c)) && GoodTransaction(L.db, FinishOf(pr, c))
      && pr.txns == map[Id(pr) := UpdatedRow(CreatedRow(pr.req.payload), c)] && pr.recs == map[]
    case CommittingFinish(c) =>
      && Owns(L, p, pr.req) && Carries(pr, c) && FinishError(L.db, FinishOf(pr, c)).None?
      && pr.txns == map[Id(pr) := UpdatedRow(CreatedRow(pr.req.payload), c)]
      && pr.recs == map[pr.req.keyHash := CompletedRecord(NewRecord(pr.req), c.envelope)]
    case Replying(a) => Clean(pr) && AnswerHolds(L, p, pr.req, a)
    case Replied => Clean(pr)
    case Crashed => Clean(pr)
  }

  predicate Carries(pr: Proc, c: Completion) {
    pr.completion == Some(c) && Storable(Id(pr), c)
  }

  ghost predicate ProcOk(env: Env, L: Ledger, p: nat, pr: Proc) {
    && GoodRequest(env, pr.req)
    && PcOk(L, p, pr)
    && (pr.result.Some? ==> ResultHolds(L, p, pr.req, pr.result.value))
    && (pr.error.Some? ==> pr.error.value == DatabaseFailure)
  }

  ghost predicate ProcsOk(env: Env, L: Ledger, procs: map<nat, Proc>) {
    forall p :: p in procs ==> ProcOk(env, L, p, procs[p])
  }

  // ---------- The tables ----------

  /** A record, its transaction and the request that reserved them agree. */
  ghost predicate RecordOk(env: Env, L: Ledger, procs: map<nat, Proc>, k: string) {
    && k in L.db.recs && k in L.owner && L.owner[k] in procs
    && var pr := procs[L.owner[k]];
    && pr.req.keyHash == k
    && GoodRequest(env, pr.req) && InsertFits(pr.req) && InsertChecks(pr.req)
    && Id(pr) in L.db.txns && Id(pr) in L.keyOf && L.keyOf[Id(pr)] == k
    && (|| (L.db.recs[k] == NewRecord(pr.req) && L.db.txns[Id(pr)] == CreatedRow(pr.req.payload))
        || (&& pr.completion.Some?
            && Storable(Id(pr), pr.completion.value)
            && L.db.recs[k] == CompletedRecord(NewRecord(pr.req), pr.completion.value.envelope)
            && L.db.txns[Id(pr)] == UpdatedRow(CreatedRow(pr.req.payload), pr.completion.value)))
  }

  ghost predicate TransactionOk(L: Ledger, t: string) {
    && t in L.keyOf && L.keyOf[t] in L.db.recs
    && L.db.recs[L.keyOf[t]].transactionId == t
  }

  ghost predicate LedgerOk(env: Env, L: Ledger, procs: map<nat, Proc>) {
    && (forall k :: k in L.owner ==> k in L.db.recs)
    && (forall k :: k in L.db.recs ==> RecordOk(env, L, procs, k))
    && (forall t :: t in L.db.txns ==> TransactionOk(L, t))
  }

  // ---------- Sessions against each other ----------

  predicate Apart(a: Proc, b: Proc) {
    a.txns.Keys !! b.txns.Keys && a.recs.Keys !! b.recs.Keys
  }

  ghost predicate LocksOk(procs: map<nat, Proc>) {
    forall p, q :: p in procs && q in procs && p != q ==> Apart(procs[p], procs[q])
  }

  // ---------- The histories ----------

  /** Before its linearization point a request has none. */
  predicate Unlinearized(pc: Pc) {
    pc in {SelectingKey, InsertingTransaction, InsertingRecord, CommittingReserve, RequeryingKey}
  }

  ghost predicate LinOk(log: seq<Event>, p: nat, pr: Proc) {
    && pr.started <= |log|
    && (pr.lin.Some? ==>
          && pr.started <= pr.lin.value < |log|
          && log[pr.lin.value].Reserved? && log[pr.lin.value].pid == p && log[pr.lin.value].req == pr.req
          && (pr.result.Some? ==> log[pr.lin.value].answer == pr.result.value)
          && (pr.pc == RequeryingTransaction ==> log[pr.lin.value].answer == TransactionIdConflict))
    && (pr.result.Some? || pr.pc == RequeryingTransaction ==> pr.lin.Some?)
    && (Unlinearized(pr.pc) ==> pr.lin.None? && pr.result.None?)
    && (forall i :: 0 <= i < |log| && log[i].Reserved? && log[i].pid == p ==> pr.lin == Some(i))
  }

  ghost predicate LogOk(s: State) {
    && s.ledger.db == Replay(s.log)
    && Legal(s.log)
    && (forall i :: 0 <= i < |s.log| ==> s.log[i].pid in s.procs)
    && (forall p :: p in s.procs ==> LinOk(s.log, p, s.procs[p]))
  }

  /** Before its network call a request has made none. */
  predicate Uncalled(pc: Pc) {
    Unlinearized(pc) || pc == RequeryingTransaction || pc == Calling
  }

  ghost predicate CallOk(L: Ledger, procs: map<nat, Proc>, p: nat) {
    && p in procs && !Uncalled(procs[p].pc)
    && procs[p].req.keyHash in L.db.recs
    && L.db.recs[procs[p].req.keyHash].transactionId == Id(procs[p])
    && procs[p].req.keyHash in L.owner && L.owner[procs[p].req.keyHash] == p
  }

  ghost predicate CallsOk(L: Ledger, procs: map<nat, Proc>, calls: seq<nat>) {
    && (forall i :: 0 <= i < |calls| ==> CallOk(L, procs, calls[i]))
    && (forall i, j :: 0 <= i < j < |calls| ==> calls[i] != calls[j])
  }

  ghost predicate ReplyOk(L: Ledger, procs: map<nat, Proc>, r: Reply) {
    r.pid in procs && AnswerHolds(L, r.pid, procs[r.pid].req, r.answer)
  }

  ghost predicate RepliesOk(L: Ledger, procs: map<nat, Proc>, replies: seq<Reply>) {
    forall i :: 0 <= i < |replies| ==> ReplyOk(L, procs, replies[i])
  }

  /** Everything but the log. */
  ghost predicate SystemOk(env: Env, L: Ledger, procs: map<nat, Proc>, calls: seq<nat>, replies: seq<Reply>) {
    && ProcsOk(env, L, procs)
    && LedgerOk(env, L, procs)
    && LocksOk(procs)
    && CallsOk(L, procs, calls)
    && RepliesOk(L, procs, replies)
  }

  ghost predicate Inv(env: Env, s: State) {
    SystemOk(env, s.ledger, s.procs, s.calls, s.replies) && LogOk(s)
  }

  // ---------- A step of one request that commits nothing ----------

  /** Facts the ledger keeps about other requests when request `p` changes. */
  lemma LedgerUnder(env: Env, L: Ledger, procs: map<nat, Proc>, p: nat, pr: Proc)
    requires LedgerOk(env, L, procs)
    requires p in procs ==> pr.req == procs[p].req && (pr.completion == procs[p].completion || Owns(L, p, pr.req))
    requires p !in procs ==> forall k :: k in L.owner ==> L.owner[k] != p
    ensures LedgerOk(env, L, procs[p := pr])
  {
    hide GoodRequest, InsertFits, InsertChecks, Storable, CreatedRow, UpdatedRow, CompletedRecord, NewRecord;
    forall k | k in L.db.recs
      ensures RecordOk(env, L, procs[p := pr], k)
    {
      assert RecordOk(env, L, procs, k);
    }
    forall t | t in L.db.txns
      ensures TransactionOk(L, t)
    {
    }
  }

  /** The change of one request's own state, with nothing added to the histories. */
  ghost predicate LocalChange(env: Env, s: State, p: nat, pr: Proc) {
    && p in s.procs
    && pr.req == s.procs[p].req && pr.started == s.procs[p].started
    && (pr.completion == s.procs[p].completion || Owns(s.ledger, p, pr.req))
    && ProcOk(env, s.ledger, p, pr)
    && (forall q :: q in s.procs && q != p ==> Apart(pr, s.procs[q]) && Apart(s.procs[q], pr))
    && (!Uncalled(s.procs[p].pc) ==> !Uncalled(pr.pc))
  }

  lemma LocksUnder(procs: map<nat, Proc>, p: nat, pr: Proc)
    requires LocksOk(procs)
    requires forall q :: q in procs && q != p ==> Apart(pr, procs[q]) && Apart(procs[q], pr)
    ensures LocksOk(procs[p := pr])
  {
  }

  lemma LogUnder(s: State, p: nat, pr: Proc)
    requires LogOk(s) && LinOk(s.log, p, pr)
    ensures LogOk(Put(s, p, pr))
  {
    hide LinOk, Replay, Legal;
  }

  lemma CallsUnder(L: Ledger, procs: map<nat, Proc>, calls: seq<nat>, p: nat, pr: Proc)
    requires CallsOk(L, procs, calls) && p in procs && pr.req == procs[p].req
    requires !Uncalled(procs[p].pc) ==> !Uncalled(pr.pc)
    ensures CallsOk(L, procs[p := pr], calls)
  {
    forall i | 0 <= i < |calls|
      ensures CallOk(L, procs[p := pr], calls[i])
    {
      hide Uncalled;
      assert CallOk(L, procs, calls[i]);
    }
  }

  lemma RepliesUnder(L: Ledger, procs: map<nat, Proc>, replies: seq<Reply>, p: nat, pr: Proc)
    requires RepliesOk(L, procs, replies) && p in procs && pr.req == procs[p].req
    ensures RepliesOk(L, procs[p := pr], replies)
  {
    forall i | 0 <= i < |replies|
      ensures ReplyOk(L, procs[p := pr], replies[i])
    {
      hide AnswerHolds;
      assert ReplyOk(L, procs, replies[i]);
    }
  }

  lemma SystemUnder(env: Env, s: State, p: nat, pr: Proc)
    requires Inv(env, s) && LocalChange(env, s, p, pr)
    ensures SystemOk(env, s.ledger, s.procs[p := pr], s.calls, s.replies)
  {
    hide ProcOk, LedgerOk, LocksOk, LogOk, CallsOk, RepliesOk, LinOk, Uncalled, Owns, Apart;
    LedgerUnder(env, s.ledger, s.procs, p, pr);
    LocksUnder(s.procs, p, pr);
    CallsUnder(s.ledger, s.procs, s.calls, p, pr);
    RepliesUnder(s.ledger, s.procs, s.replies, p, pr);
  }

  lemma LocalKeeps(env: Env, s: State, p: nat, pr: Proc)
    requires Inv(env, s) && LocalChange(env, s, p, pr) && LinOk(s.log, p, pr)
    ensures Inv(env, Put(s, p, pr))
  {
    hide SystemOk, LocalChange, LogOk, LinOk;
    SystemUnder(env, s, p, pr);
    LogUnder(s, p, pr);
  }

  /** The log when request `p` takes effect and leaves the tables alone. */
  lemma LogLinearized(s: State, p: nat, pr: Proc, r: Reservation)
    requires LogOk(s) && p in s.procs && pr.req == s.procs[p].req && pr.started == s.procs[p].started
    requires s.procs[p].lin.None? && !Unlinearized(pr.pc)
    requires AtomicReserve(s.ledger.db, pr.req) == (s.ledger.db, Ok(r))
    requires pr.result.Some? ==> pr.result.value == r
    requires pr.pc == RequeryingTransaction ==> r == TransactionIdConflict
    ensures LogOk(Linearized(s, p, pr, r))
  {
    hide AtomicReserve, Unlinearized;
    var e := Reserved(p, pr.req, r);
    var t := Linearized(s, p, pr, r);
    ReplaySnoc(s.log, e);
    forall q | q in t.procs
      ensures LinOk(t.log, q, t.procs[q])
    {
      assert LinOk(s.log, q, s.procs[q]);
    }
  }

  lemma LinIsHistory(env: Env, L: Ledger, p: nat, pr: Proc, lin: Option<nat>)
    requires ProcOk(env, L, p, pr)
    ensures ProcOk(env, L, p, pr.(lin := lin))
  {
    hide GoodRequest, Owns, ResultHolds, AnswerHolds, TransactionFits, TransactionChecks, InsertFits, InsertChecks;
    hide Storable, FinishError, CreatedRow, NewRecord, UpdatedRow, CompletedRecord;
  }

  lemma ChangeIgnoresLin(env: Env, s: State, p: nat, pr: Proc, lin: Option<nat>)
    requires LocalChange(env, s, p, pr)
    ensures LocalChange(env, s, p, pr.(lin := lin))
  {
    hide ProcOk, Owns, Uncalled;
    LinIsHistory(env, s.ledger, p, pr, lin);
  }

  /** The same as LocalKeeps, when the step is also the linearization point of a reservation that leaves the tables
      alone. */
  lemma LinearizeKeeps(env: Env, s: State, p: nat, pr: Proc, r: Reservation)
    requires p in s.procs && s.procs[p].lin.None? && !Unlinearized(pr.pc)
    requires AtomicReserve(s.ledger.db, pr.req) == (s.ledger.db, Ok(r))
    requires pr.result.Some? ==> pr.result.value == r
    requires pr.pc == RequeryingTransaction ==> r == TransactionIdConflict
    requires LocalChange(env, s, p, pr)
    requires Inv(env, s)
    ensures Inv(env, Linearized(s, p, pr, r))
  {
    hide SystemOk, ProcOk, LogOk, Uncalled, Unlinearized, Owns, Apart, AtomicReserve;
    ChangeIgnoresLin(env, s, p, pr, Some(|s.log|));
    SystemUnder(env, s, p, pr.(lin := Some(|s.log|)));
    LogLinearized(s, p, pr, r);
  }
}
