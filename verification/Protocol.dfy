/** Any number of concurrent requests against one database, one SQL statement, commit or network exchange at a time.

    Every request runs `handle_authorization`: reserve, call the network, complete, reply.  A session keeps its
    writes to itself until it commits; selects and unique checks see committed rows; a statement that needs a row
    another session has written but not committed waits.  The environment may fail any statement, lose the
    acknowledgement of a commit, answer a network call in any way, and kill a request at any point. */
module Protocol {
  import opened Results
  import opened CanonicalJson
  import opened PaymentNetwork
  import opened Schema
  import opened Authorization
  import opened Store

  /** The hash and the table of decimal digits, of which next to nothing is assumed. */
  datatype Env = Env(sha: string -> string, digit: char -> int)

  /** What a request is about to tell its client. */
  datatype Answer = Refused(reservation: Refusal) | Fresh(completion: Completion) | ServerError

  datatype Pc =
    | SelectingKey
    | InsertingTransaction
    | InsertingRecord
    | CommittingReserve
    | RequeryingKey
    | RequeryingTransaction
    | Calling
    | Awaiting
    | UpdatingTransaction(c: Completion)
    | UpdatingRecord(c: Completion)
    | CommittingFinish(c: Completion)
    | Replying(answer: Answer)
    | Replied
    | Crashed

  /** One request.  `txns` and `recs` are the uncommitted writes of its open session.  The fields after them are
      history: the idempotency key it came with, where in the log its reservation took effect and with what result, and
      what the network did. */
  datatype Proc = Proc(
    req: Request, pc: Pc, txns: map<string, TransactionRow>, recs: map<string, RecordRow>,
    key: string, started: nat, lin: Option<nat>, result: Option<Reservation>, error: Option<PersistenceError>,
    http: Option<HttpOutcome>, completion: Option<Completion>)

  /** The committed tables; as history, the request that reserved each key and the key of each transaction. */
  datatype Ledger = Ledger(db: Database, owner: map<string, nat>, keyOf: map<string, string>)

  datatype Reply = Reply(pid: nat, answer: Answer)

  /** `log`, `calls` and `replies` are history: effects on the database, network calls and replies, in order. */
  datatype State = State(ledger: Ledger, procs: map<nat, Proc>, log: seq<Event>, calls: seq<nat>, replies: seq<Reply>)

  const INITIAL := State(Ledger(EMPTY, map[], map[]), map[], [], [], [])

  datatype Action =
    | Start(p: nat, key: string, payload: Payload)
    | SelectKey(p: nat)
    | InsertTransaction(p: nat)
    | InsertRecord(p: nat)
    | CommitReserve(p: nat, acknowledged: bool)
    | RequeryKey(p: nat)
    | RequeryTransaction(p: nat)
    | Call(p: nat)
    | Return(p: nat, http: HttpOutcome)
    | UpdateTransaction(p: nat)
    | UpdateRecord(p: nat)
    | CommitFinish(p: nat, acknowledged: bool)
    | SendReply(p: nat)
    | Fail(p: nat)
    | Crash(p: nat)

  // ---------- Locks ----------

  function Id(pr: Proc): string {
    pr.req.payload.transactionId
  }

  /** Session `q` has written the row and not committed. */
  predicate HoldsTransaction(s: State, q: nat, id: string) {
    q in s.procs && id in s.procs[q].txns
  }

  predicate HoldsRecord(s: State, q: nat, key: string) {
    q in s.procs && key in s.procs[q].recs
  }

  /** The next statement of `p` needs a row that `q` holds.  An update waits only for a committed row that its WHERE
      clause selects. */
  predicate WaitsFor(s: State, p: nat, q: nat) {
    && p in s.procs && q in s.procs && p != q
    && var pr := s.procs[p];
    match pr.pc
    case InsertingTransaction => HoldsTransaction(s, q, Id(pr))
    case InsertingRecord => HoldsRecord(s, q, pr.req.keyHash)
    case UpdatingTransaction(c) => MatchesTransaction(s.ledger.db, FinishOf(pr, c)) && HoldsTransaction(s, q, c.txn.id)
    case UpdatingRecord(c) => MatchesRecord(s.ledger.db, FinishOf(pr, c)) && HoldsRecord(s, q, pr.req.keyHash)
    case _ => false
  }

  ghost predicate Waiting(s: State, p: nat) {
    exists q :: WaitsFor(s, p, q)
  }

  // ---------- Pieces of a step ----------

  function Put(s: State, p: nat, pr: Proc): State {
    s.(procs := s.procs[p := pr])
  }

  /** Roll back and carry on at `pc`. */
  function RolledBack(pr: Proc, pc: Pc): Proc {
    pr.(pc := pc, txns := map[], recs := map[])
  }

  /** A PersistenceError reaches the client as a 500. */
  function Failed(pr: Proc, e: PersistenceError): Proc {
    RolledBack(pr, Replying(ServerError)).(error := Some(e))
  }

  /** `reserve` returns to the orchestrator. */
  function Returned(pr: Proc, r: Reservation): Proc {
    pr.(result := Some(r), pc := if r == Acquired then Calling else Replying(Refused(r)))
  }

  /** The reservation takes effect here, with this answer. */
  function Linearized(s: State, p: nat, pr: Proc, r: Reservation): State {
    Put(s, p, pr.(lin := Some(|s.log|))).(log := s.log + [Reserved(p, pr.req, r)])
  }

  /** A select found the record of the key. */
  function Classified(s: State, p: nat, pr: Proc): State
    requires pr.req.keyHash in s.ledger.db.recs
  {
    match Classify(s.ledger.db.recs[pr.req.keyHash], pr.req.fingerprint)
    case Ok(r) => Linearized(s, p, Returned(pr, r), r)
    case Err(e) => Put(s, p, Failed(pr, e))
  }

  function Committed(db: Database, pr: Proc): Database {
    Database(db.txns + pr.txns, db.recs + pr.recs)
  }

  function FinishOf(pr: Proc, c: Completion): Finish {
    Finish(pr.req.keyHash, 0, c)
  }

  // ---------- Steps ----------

  function RequestOf(env: Env, key: string, payload: Payload): Request {
    Request(env.sha(key), Fingerprint(env.sha, payload), payload)
  }

  function DoStart(env: Env, s: State, p: nat, key: string, payload: Payload): State {
    Put(s, p, Proc(RequestOf(env, key, payload), SelectingKey, map[], map[], key, |s.log|, None, None, None, None, None))
  }

  function DoSelectKey(s: State, p: nat, pr: Proc): State {
    if pr.req.keyHash in s.ledger.db.recs then Classified(s, p, pr)
    else Put(s, p, pr.(pc := InsertingTransaction))
  }

  function DoInsertTransaction(s: State, p: nat, pr: Proc): State {
    var row := CreatedRow(pr.req.payload);
    if !TransactionFits(Id(pr), row) then Put(s, p, Failed(pr, DatabaseFailure))
    else if Id(pr) in s.ledger.db.txns || !TransactionChecks(Id(pr), row) then Put(s, p, RolledBack(pr, RequeryingKey))
    else Put(s, p, pr.(pc := InsertingRecord, txns := pr.txns[Id(pr) := row]))
  }

  function DoInsertRecord(s: State, p: nat, pr: Proc): State {
    var key, row := pr.req.keyHash, NewRecord(pr.req);
    if !RecordFits(key, row) then Put(s, p, Failed(pr, DatabaseFailure))
    else if key in s.ledger.db.recs || !RecordChecks(key, row) || (Id(pr) !in s.ledger.db.txns && Id(pr) !in pr.txns)
    then Put(s, p, RolledBack(pr, RequeryingKey))
    else Put(s, p, pr.(pc := CommittingReserve, recs := pr.recs[key := row]))
  }

  function DoCommitReserve(s: State, p: nat, pr: Proc, acknowledged: bool): State {
    var done := RolledBack(pr, Calling);
    var L := s.ledger;
    var ledger := Ledger(Committed(L.db, pr), L.owner[pr.req.keyHash := p], L.keyOf[Id(pr) := pr.req.keyHash]);
    Linearized(s, p, if acknowledged then Returned(done, Acquired) else Failed(done, DatabaseFailure), Acquired)
      .(ledger := ledger)
  }

  function DoRequeryKey(s: State, p: nat, pr: Proc): State {
    var next := pr.(pc := RequeryingTransaction);
    if pr.req.keyHash in s.ledger.db.recs then Classified(s, p, pr)
    else if Id(pr) in s.ledger.db.txns then Linearized(s, p, next, TransactionIdConflict)
    else Put(s, p, next)
  }

  function DoRequeryTransaction(s: State, p: nat, pr: Proc): State {
    Put(s, p, if Id(pr) in s.ledger.db.txns then Returned(pr, TransactionIdConflict) else Failed(pr, UnexplainedViolation))
  }

  function DoCall(s: State, p: nat, pr: Proc): State {
    Put(s, p, pr.(pc := Awaiting)).(calls := s.calls + [p])
  }

  /** The network answers or times out, the service exits, and `complete` checks the version of the transaction. */
  function DoReturn(env: Env, s: State, p: nat, pr: Proc, h: HttpOutcome): State {
    var next := pr.(http := Some(h), completion := Pipeline(env.digit, Id(pr), h));
    match next.completion
    case None => Put(s, p, next.(pc := Crashed))
    case Some(c) =>
      Put(s, p, if c.txn.version != 0 + 1 then Failed(next, VersionMismatch) else next.(pc := UpdatingTransaction(c)))
  }

  function DoUpdateTransaction(s: State, p: nat, pr: Proc, c: Completion): State {
    var f := FinishOf(pr, c);
    if !MatchesTransaction(s.ledger.db, f) then Put(s, p, Failed(pr, TransactionRowCount))
    else if !GoodTransaction(s.ledger.db, f) then Put(s, p, Failed(pr, DatabaseFailure))
    else Put(s, p, pr.(pc := UpdatingRecord(c), txns := pr.txns[c.txn.id := UpdatedRow(s.ledger.db.txns[c.txn.id], c)]))
  }

  function DoUpdateRecord(s: State, p: nat, pr: Proc, c: Completion): State {
    var key, f := pr.req.keyHash, FinishOf(pr, c);
    if !MatchesRecord(s.ledger.db, f) then Put(s, p, Failed(pr, RecordRowCount))
    else if !GoodRecord(s.ledger.db, f) then Put(s, p, Failed(pr, DatabaseFailure))
    else Put(s, p, pr.(pc := CommittingFinish(c), recs := pr.recs[key := CompletedRecord(s.ledger.db.recs[key], c.envelope)]))
  }

  function DoCommitFinish(s: State, p: nat, pr: Proc, c: Completion, acknowledged: bool): State {
    var done := RolledBack(pr, Replying(Fresh(c)));
    Put(s, p, if acknowledged then done else Failed(done, DatabaseFailure))
      .(ledger := s.ledger.(db := Committed(s.ledger.db, pr)), log := s.log + [Finished(p, FinishOf(pr, c))])
  }

  function DoSendReply(s: State, p: nat, pr: Proc, a: Answer): State {
    Put(s, p, pr.(pc := Replied)).(replies := s.replies + [Reply(p, a)])
  }

  // ---------- The machine ----------

  /** A statement or commit is in flight. */
  predicate InDatabase(pc: Pc) {
    match pc
    case Calling => false
    case Awaiting => false
    case Replying(_) => false
    case Replied => false
    case Crashed => false
    case _ => true
  }

  predicate IsOver(pc: Pc) {
    pc == Replied || pc == Crashed
  }

  ghost predicate Enabled(s: State, a: Action) {
    match a
    case Start(p, key, payload) => p !in s.procs && ValidPayload(payload)
    case SelectKey(p) => p in s.procs && s.procs[p].pc == SelectingKey
    case InsertTransaction(p) => p in s.procs && s.procs[p].pc == InsertingTransaction && !Waiting(s, p)
    case InsertRecord(p) => p in s.procs && s.procs[p].pc == InsertingRecord && !Waiting(s, p)
    case CommitReserve(p, _) => p in s.procs && s.procs[p].pc == CommittingReserve
    case RequeryKey(p) => p in s.procs && s.procs[p].pc == RequeryingKey
    case RequeryTransaction(p) => p in s.procs && s.procs[p].pc == RequeryingTransaction
    case Call(p) => p in s.procs && s.procs[p].pc == Calling
    case Return(p, _) => p in s.procs && s.procs[p].pc == Awaiting
    case UpdateTransaction(p) => p in s.procs && s.procs[p].pc.UpdatingTransaction? && !Waiting(s, p)
    case UpdateRecord(p) => p in s.procs && s.procs[p].pc.UpdatingRecord? && !Waiting(s, p)
    case CommitFinish(p, _) => p in s.procs && s.procs[p].pc.CommittingFinish?
    case SendReply(p) => p in s.procs && s.procs[p].pc.Replying?
    case Fail(p) => p in s.procs && InDatabase(s.procs[p].pc)
    case Crash(p) => p in s.procs && !IsOver(s.procs[p].pc)
  }

  ghost function Step(env: Env, s: State, a: Action): State
    requires Enabled(s, a)
  {
    if a.Start? then DoStart(env, s, a.p, a.key, a.payload)
    else
      var pr := s.procs[a.p];
      match a
      case SelectKey(p) => DoSelectKey(s, p, pr)
      case InsertTransaction(p) => DoInsertTransaction(s, p, pr)
      case InsertRecord(p) => DoInsertRecord(s, p, pr)
      case CommitReserve(p, acknowledged) => DoCommitReserve(s, p, pr, acknowledged)
      case RequeryKey(p) => DoRequeryKey(s, p, pr)
      case RequeryTransaction(p) => DoRequeryTransaction(s, p, pr)
      case Call(p) => DoCall(s, p, pr)
      case Return(p, h) => DoReturn(env, s, p, pr, h)
      case UpdateTransaction(p) => DoUpdateTransaction(s, p, pr, pr.pc.c)
      case UpdateRecord(p) => DoUpdateRecord(s, p, pr, pr.pc.c)
      case CommitFinish(p, acknowledged) => DoCommitFinish(s, p, pr, pr.pc.c, acknowledged)
      case SendReply(p) => DoSendReply(s, p, pr, pr.pc.answer)
      case Fail(p) => Put(s, p, Failed(pr, DatabaseFailure))
      case Crash(p) => Put(s, p, RolledBack(pr, Crashed))
  }

  /** `acts` is a run of the machine from empty tables. */
  ghost predicate IsRun(env: Env, acts: seq<Action>)
    decreases |acts|, 0
  {
    acts == [] ||
    (IsRun(env, acts[..|acts| - 1]) && Enabled(Exec(env, acts[..|acts| - 1]), acts[|acts| - 1]))
  }

  ghost function Exec(env: Env, acts: seq<Action>): State
    requires IsRun(env, acts)
    decreases |acts|, 1
  {
    if acts == [] then INITIAL else Step(env, Exec(env, acts[..|acts| - 1]), acts[|acts| - 1])
  }
}
