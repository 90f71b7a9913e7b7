/** `complete` called concurrently with arbitrary arguments, one SQL statement at a time, on tables left by any
    history.  The guards of the two updates make every such run a sequential history of atomic completions. */
module CompletionRace {
  import opened Results
  import opened Schema
  import opened Store

  /** The last one is a call whose commit took effect although its caller saw a database error. */
  datatype Pc = UpdatingTransaction | UpdatingRecord | Committing | Ended(error: Option<PersistenceError>) | Unacknowledged

  /** One call; `txns` and `recs` are its uncommitted writes. */
  datatype Session = Session(finish: Finish, pc: Pc, txns: map<string, TransactionRow>, recs: map<string, RecordRow>)

  datatype State = State(db: Database, sessions: map<nat, Session>, log: seq<Event>)

  datatype Action =
    | Begin(p: nat, finish: Finish)
    | UpdateTransaction(p: nat)
    | UpdateRecord(p: nat)
    | Commit(p: nat, acknowledged: bool)
    | Fail(p: nat)

  function IdOf(f: Finish): string {
    f.completion.txn.id
  }

  /** Another session has written the row and not committed. */
  ghost predicate TransactionHeld(s: State, p: nat, id: string) {
    exists q :: q in s.sessions && q != p && id in s.sessions[q].txns
  }

  ghost predicate RecordHeld(s: State, p: nat, key: string) {
    exists q :: q in s.sessions && q != p && key in s.sessions[q].recs
  }

  predicate IsOver(pc: Pc) {
    pc.Ended? || pc == Unacknowledged
  }

  predicate TookEffect(pc: Pc) {
    pc == Ended(None) || pc == Unacknowledged
  }

  /** An update waits only for a committed row that its WHERE clause selects; if there is none, it fails at once. */
  ghost predicate Enabled(s: State, a: Action) {
    match a
    case Begin(p, _) => p !in s.sessions
    case UpdateTransaction(p) =>
      && p in s.sessions && s.sessions[p].pc == UpdatingTransaction
      && !(MatchesTransaction(s.db, s.sessions[p].finish) && TransactionHeld(s, p, IdOf(s.sessions[p].finish)))
    case UpdateRecord(p) =>
      && p in s.sessions && s.sessions[p].pc == UpdatingRecord
      && !(MatchesRecord(s.db, s.sessions[p].finish) && RecordHeld(s, p, s.sessions[p].finish.keyHash))
    case Commit(p, _) => p in s.sessions && s.sessions[p].pc == Committing
    case Fail(p) => p in s.sessions && !IsOver(s.sessions[p].pc)
  }

  function End(x: Session, e: Option<PersistenceError>): Session {
    Session(x.finish, Ended(e), map[], map[])
  }

  function Done(x: Session, acknowledged: bool): Session {
    Session(x.finish, if acknowledged then Ended(None) else Unacknowledged, map[], map[])
  }

  function Started(f: Finish): Session {
    var x := Session(f, UpdatingTransaction, map[], map[]);
    if f.completion.txn.version != f.expectedVersion + 1 then End(x, Some(VersionMismatch)) else x
  }

  function WithTransaction(db: Database, x: Session): Session {
    if !MatchesTransaction(db, x.finish) then End(x, Some(TransactionRowCount))
    else if !GoodTransaction(db, x.finish) then End(x, Some(DatabaseFailure))
    else x.(pc := UpdatingRecord,
            txns := x.txns[IdOf(x.finish) := UpdatedRow(db.txns[IdOf(x.finish)], x.finish.completion)])
  }

  function WithRecord(db: Database, x: Session): Session {
    if !MatchesRecord(db, x.finish) then End(x, Some(RecordRowCount))
    else if !GoodRecord(db, x.finish) then End(x, Some(DatabaseFailure))
    else x.(pc := Committing,
            recs := x.recs[x.finish.keyHash := CompletedRecord(db.recs[x.finish.keyHash], x.finish.completion.envelope)])
  }

  function Merged(db: Database, x: Session): Database {
    Database(db.txns + x.txns, db.recs + x.recs)
  }

  function Put(s: State, p: nat, x: Session): State {
    s.(sessions := s.sessions[p := x])
  }

  ghost function Step(s: State, a: Action): State
    requires Enabled(s, a)
  {
    match a
    case Begin(p, f) => Put(s, p, Started(f))
    case UpdateTransaction(p) => Put(s, p, WithTransaction(s.db, s.sessions[p]))
    case UpdateRecord(p) => Put(s, p, WithRecord(s.db, s.sessions[p]))
    case Commit(p, acknowledged) =>
      Put(s, p, Done(s.sessions[p], acknowledged))
        .(db := Merged(s.db, s.sessions[p]), log := s.log + [Finished(p, s.sessions[p].finish)])
    case Fail(p) => Put(s, p, End(s.sessions[p], Some(DatabaseFailure)))
  }

  ghost function After(base: seq<Event>, acts: seq<Action>): Option<State> {
    if acts == [] then Some(State(Replay(base), map[], base))
    else
      match After(base, acts[..|acts| - 1])
      case None => None
      case Some(s) => if Enabled(s, acts[|acts| - 1]) then Some(Step(s, acts[|acts| - 1])) else None
  }

  // ---------- Invariant ----------

  predicate SessionOk(db: Database, x: Session) {
    var f := x.finish;
    match x.pc
    case UpdatingTransaction => x.txns == map[] && x.recs == map[] && f.completion.txn.version == f.expectedVersion + 1
    case UpdatingRecord =>
      && f.completion.txn.version == f.expectedVersion + 1
      && MatchesTransaction(db, f) && GoodTransaction(db, f)
      && x.txns == map[IdOf(f) := UpdatedRow(db.txns[IdOf(f)], f.completion)] && x.recs == map[]
    case Committing =>
      && FinishError(db, f).None?
      && x.txns == map[IdOf(f) := UpdatedRow(db.txns[IdOf(f)], f.completion)]
      && x.recs == map[f.keyHash := CompletedRecord(db.recs[f.keyHash], f.completion.envelope)]
    case Ended(_) => x.txns == map[] && x.recs == map[]
    case Unacknowledged => x.txns == map[] && x.recs == map[]
  }

  predicate Apart(x: Session, y: Session) {
    x.txns.Keys !! y.txns.Keys && x.recs.Keys !! y.recs.Keys
  }

  /** A call that took effect has its one event, any other has none. */
  ghost predicate EventsOk(base: seq<Event>, log: seq<Event>, p: nat, x: Session) {
    if TookEffect(x.pc) then
      exists i :: |base| <= i < |log| && log[i] == Finished(p, x.finish)
    else
      forall i :: |base| <= i < |log| ==> log[i].pid != p
  }

  ghost predicate Inv(base: seq<Event>, s: State) {
    && s.db == Replay(s.log) && Legal(s.log) && base <= s.log
    && (forall i :: |base| <= i < |s.log| ==> s.log[i].Finished? && s.log[i].pid in s.sessions)
    && (forall p :: p in s.sessions ==> SessionOk(s.db, s.sessions[p]) && EventsOk(base, s.log, p, s.sessions[p]))
    && (forall p, q :: p in s.sessions && q in s.sessions && p != q ==> Apart(s.sessions[p], s.sessions[q]))
  }

  lemma PutKeeps(base: seq<Event>, s: State, p: nat, x: Session)
    requires Inv(base, s) && SessionOk(s.db, x) && !TookEffect(x.pc)
    requires p in s.sessions ==> !TookEffect(s.sessions[p].pc)
    requires forall q :: q in s.sessions && q != p ==> Apart(x, s.sessions[q]) && Apart(s.sessions[q], x)
    ensures Inv(base, Put(s, p, x))
  {
    hide SessionOk, Legal, Replay, Apart;
    if p in s.sessions {
      assert EventsOk(base, s.log, p, s.sessions[p]);
    }
  }

  lemma EndedOk(db: Database, x: Session, e: Option<PersistenceError>)
    ensures SessionOk(db, End(x, e)) && forall y :: Apart(End(x, e), y) && Apart(y, End(x, e))
  {
  }

  lemma DoneOk(db: Database, x: Session, acknowledged: bool)
    ensures var z := Done(x, acknowledged);
            SessionOk(db, z) && forall y :: Apart(z, y) && Apart(y, z)
  {
  }

  lemma TransactionStep(base: seq<Event>, s: State, p: nat, x: Session)
    requires Enabled(s, UpdateTransaction(p)) && s.sessions[p] == x
    requires Inv(base, s)
    ensures Inv(base, Put(s, p, WithTransaction(s.db, x)))
  {
    hide Legal, Replay, GoodTransaction, UpdatedRow, EventsOk;
    assert SessionOk(s.db, x);
    EndedOk(s.db, x, Some(TransactionRowCount));
    EndedOk(s.db, x, Some(DatabaseFailure));
    var y := WithTransaction(s.db, x);
    hide Inv;
    PutKeeps(base, s, p, y);
  }

  lemma RecordStep(base: seq<Event>, s: State, p: nat, x: Session)
    requires Enabled(s, UpdateRecord(p)) && s.sessions[p] == x
    requires Inv(base, s)
    ensures Inv(base, Put(s, p, WithRecord(s.db, x)))
  {
    hide Legal, Replay, GoodTransaction, GoodRecord, UpdatedRow, CompletedRecord, EventsOk;
    assert SessionOk(s.db, x);
    EndedOk(s.db, x, Some(RecordRowCount));
    EndedOk(s.db, x, Some(DatabaseFailure));
    var y := WithRecord(s.db, x);
    assert forall q :: q in s.sessions && q != p ==> Apart(x, s.sessions[q]) && Apart(s.sessions[q], x);
    hide Inv;
    PutKeeps(base, s, p, y);
  }

  /** Rows another session holds are not touched by a commit. */
  lemma OtherSession(db: Database, f: Finish, y: Session)
    requires FinishError(db, f).None? && IdOf(f) !in y.txns && f.keyHash !in y.recs
    requires SessionOk(db, y)
    ensures SessionOk(AtomicFinish(db, f), y)
  {
    hide UpdatedRow, CompletedRecord, TransactionFits, TransactionChecks, RecordFits, RecordChecks;
    if y.pc.UpdatingRecord? || y.pc.Committing? {
      assert IdOf(y.finish) in y.txns;
    }
  }

  lemma CommitFacts(db: Database, x: Session)
    requires SessionOk(db, x) && x.pc == Committing
    ensures FinishError(db, x.finish).None? && Merged(db, x) == AtomicFinish(db, x.finish)
    ensures x.txns.Keys == {IdOf(x.finish)} && x.recs.Keys == {x.finish.keyHash}
  {
    hide GoodTransaction, GoodRecord, UpdatedRow, CompletedRecord;
  }

  lemma EventsAfter(base: seq<Event>, log: seq<Event>, e: Event, q: nat, y: Session)
    requires |base| <= |log| && EventsOk(base, log, q, y) && e.pid != q
    ensures EventsOk(base, log + [e], q, y)
  {
    if TookEffect(y.pc) {
      var i :| |base| <= i < |log| && log[i] == Finished(q, y.finish);
      assert (log + [e])[i] == log[i];
    }
  }

  lemma EventNow(base: seq<Event>, log: seq<Event>, p: nat, x: Session, acknowledged: bool)
    requires |base| <= |log|
    ensures EventsOk(base, log + [Finished(p, x.finish)], p, Done(x, acknowledged))
  {
    assert (log + [Finished(p, x.finish)])[|log|] == Finished(p, x.finish);
  }

  lemma SessionsAfterCommit(base: seq<Event>, s: State, p: nat, x: Session)
    requires p in s.sessions && s.sessions[p] == x && x.pc == Committing
    requires Inv(base, s)
    ensures var db := AtomicFinish(s.db, x.finish);
            forall q :: q in s.sessions && q != p ==>
              && SessionOk(db, s.sessions[q])
              && EventsOk(base, s.log + [Finished(p, x.finish)], q, s.sessions[q])
  {
    hide Legal, Replay, SessionOk, FinishError, AtomicFinish, EventsOk;
    CommitFacts(s.db, x);
    forall q | q in s.sessions && q != p
      ensures SessionOk(AtomicFinish(s.db, x.finish), s.sessions[q])
      ensures EventsOk(base, s.log + [Finished(p, x.finish)], q, s.sessions[q])
    {
      assert Apart(x, s.sessions[q]);
      OtherSession(s.db, x.finish, s.sessions[q]);
      EventsAfter(base, s.log, Finished(p, x.finish), q, s.sessions[q]);
    }
  }

  lemma CommitStep(base: seq<Event>, s: State, p: nat, x: Session, acknowledged: bool)
    requires p in s.sessions && s.sessions[p] == x && x.pc == Committing
    requires Inv(base, s)
    ensures Inv(base, Put(s, p, Done(x, acknowledged)).(db := Merged(s.db, x), log := s.log + [Finished(p, x.finish)]))
  {
    hide Legal, Replay, SessionOk, FinishError, AtomicFinish, EventsOk, Merged, Apart;
    var y := Done(x, acknowledged);
    assert SessionOk(s.db, x);
    CommitFacts(s.db, x);
    SessionsAfterCommit(base, s, p, x);
    ReplaySnoc(s.log, Finished(p, x.finish));
    EventNow(base, s.log, p, x, acknowledged);
    DoneOk(Merged(s.db, x), x, acknowledged);
  }

  lemma StepKeeps(base: seq<Event>, s: State, a: Action)
    requires Inv(base, s) && Enabled(s, a)
    ensures Inv(base, Step(s, a))
  {
    match a
    case Begin(p, f) =>
      hide Inv;
      PutKeeps(base, s, p, Started(f));
    case UpdateTransaction(p) =>
      hide Inv;
      TransactionStep(base, s, p, s.sessions[p]);
    case UpdateRecord(p) =>
      hide Inv;
      RecordStep(base, s, p, s.sessions[p]);
    case Commit(p, acknowledged) =>
      hide Inv;
      CommitStep(base, s, p, s.sessions[p], acknowledged);
    case Fail(p) =>
      hide Inv;
      EndedOk(s.db, s.sessions[p], Some(DatabaseFailure));
      PutKeeps(base, s, p, End(s.sessions[p], Some(DatabaseFailure)));
  }

  lemma {:induction false} RunsKeep(base: seq<Event>, acts: seq<Action>)
    requires Legal(base) && After(base, acts).Some?
    ensures Inv(base, After(base, acts).value)
  {
    hide Inv, Legal, Step, Enabled;
    if acts == [] {
      InitialOk(base);
    } else {
      RunsKeep(base, acts[..|acts| - 1]);
      StepKeeps(base, After(base, acts[..|acts| - 1]).value, acts[|acts| - 1]);
    }
  }

  lemma InitialOk(base: seq<Event>)
    requires Legal(base)
    ensures Inv(base, State(Replay(base), map[], base))
  {
  }

  /** In every interleaving the tables are those of a sequential history in which a call that took effect stands with
      its own arguments and any other call does not occur; no two effects share a key or a transaction. */
  lemma RaceIsSerial(base: seq<Event>, acts: seq<Action>, s: State)
    requires Legal(base) && After(base, acts) == Some(s)
    ensures base <= s.log && Legal(s.log) && s.db == Replay(s.log)
    ensures forall p :: p in s.sessions && TookEffect(s.sessions[p].pc) ==>
              exists i :: |base| <= i < |s.log| && s.log[i] == Finished(p, s.sessions[p].finish)
    ensures forall i, p :: |base| <= i < |s.log| && p in s.sessions && !TookEffect(s.sessions[p].pc) ==> s.log[i].pid != p
    ensures forall i, j :: |base| <= i < j < |s.log| ==>
              && s.log[i].Finished? && s.log[j].Finished?
              && s.log[i].finish.keyHash != s.log[j].finish.keyHash
              && IdOf(s.log[i].finish) != IdOf(s.log[j].finish)
  {
    hide Legal, Replay, SessionOk, Apart, After;
    RunsKeep(base, acts);
    forall i, j | |base| <= i < j < |s.log|
      ensures s.log[i].Finished? && s.log[j].Finished?
      ensures s.log[i].finish.keyHash != s.log[j].finish.keyHash && IdOf(s.log[i].finish) != IdOf(s.log[j].finish)
    {
      FinishedOnce(s.log, i, j);
    }
    forall p | p in s.sessions && TookEffect(s.sessions[p].pc)
      ensures exists i :: |base| <= i < |s.log| && s.log[i] == Finished(p, s.sessions[p].finish)
    {
      assert EventsOk(base, s.log, p, s.sessions[p]);
    }
    forall i, p | |base| <= i < |s.log| && p in s.sessions && !TookEffect(s.sessions[p].pc)
      ensures s.log[i].pid != p
    {
      assert EventsOk(base, s.log, p, s.sessions[p]);
    }
  }

  // ---------- Waiting ----------

  /** A session that holds a record it can update has the transaction of that record, too. */
  lemma HolderCommits(db: Database, x: Session, key: string)
    requires SessionOk(db, x) && key in x.recs
    ensures x.pc == Committing && key == x.finish.keyHash && IdOf(x.finish) in x.txns
    ensures key in db.recs && db.recs[key].transactionId == IdOf(x.finish)
  {
    hide GoodTransaction, GoodRecord, UpdatedRow, CompletedRecord;
  }

  lemma UpdaterHolds(db: Database, x: Session)
    requires SessionOk(db, x) && x.pc == UpdatingRecord
    ensures IdOf(x.finish) in x.txns
  {
    hide GoodTransaction, UpdatedRow;
  }

  /** Whoever got past its transaction update can go on: nobody else holds the record it is about to update. */
  lemma RecordNeverWaits(base: seq<Event>, acts: seq<Action>, s: State, p: nat)
    requires Legal(base) && After(base, acts) == Some(s)
    requires p in s.sessions && s.sessions[p].pc == UpdatingRecord
    ensures Enabled(s, UpdateRecord(p))
  {
    hide Legal, Replay, After, SessionOk;
    RunsKeep(base, acts);
    var x := s.sessions[p];
    if MatchesRecord(s.db, x.finish) && RecordHeld(s, p, x.finish.keyHash) {
      var q :| q in s.sessions && q != p && x.finish.keyHash in s.sessions[q].recs;
      HolderCommits(s.db, s.sessions[q], x.finish.keyHash);
      UpdaterHolds(s.db, x);
    }
  }

  lemma TransactionHolder(db: Database, x: Session, id: string)
    requires SessionOk(db, x) && id in x.txns
    ensures x.pc == UpdatingRecord || x.pc == Committing
  {
    hide GoodTransaction, GoodRecord, UpdatedRow, CompletedRecord;
  }

  /** Calls with arbitrary arguments cannot block each other: while one is unfinished, some unfinished one can take its
      next statement or commit. */
  lemma NoDeadlock(base: seq<Event>, acts: seq<Action>, s: State, p: nat) returns (a: Action)
    requires Legal(base) && After(base, acts) == Some(s)
    requires p in s.sessions && !IsOver(s.sessions[p].pc)
    ensures a.UpdateTransaction? || a.UpdateRecord? || a == Commit(a.p, true)
    ensures a.p in s.sessions && !IsOver(s.sessions[a.p].pc) && Enabled(s, a)
  {
    hide Legal, Replay, After, SessionOk, MatchesTransaction, MatchesRecord;
    RunsKeep(base, acts);
    var q := p;
    if s.sessions[p].pc == UpdatingTransaction && TransactionHeld(s, p, IdOf(s.sessions[p].finish)) {
      q :| q in s.sessions && q != p && IdOf(s.sessions[p].finish) in s.sessions[q].txns;
      TransactionHolder(s.db, s.sessions[q], IdOf(s.sessions[p].finish));
    }
    if s.sessions[q].pc == UpdatingRecord {
      RecordNeverWaits(base, acts, s, q);
      a := UpdateRecord(q);
    } else if s.sessions[q].pc == Committing {
      a := Commit(q, true);
    } else {
      a := UpdateTransaction(q);
    }
  }
}
