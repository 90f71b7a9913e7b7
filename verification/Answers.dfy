/** Which event of the history stands behind each network call and each reply, over every run of the protocol. */
module Answers {
  import opened Results
  import opened CanonicalJson
  import opened Schema
  import opened Authorization
  import opened Store
  import opened Protocol
  import opened Invariant
  import opened Safety
  import opened Changes

  /** A refusal is the result of the request's reservation; a fresh response is the completion that the request, having
      acquired its key, committed. */
  predicate Backed(log: seq<Event>, p: nat, pr: Proc, a: Answer) {
    match a
    case Refused(r) => pr.result == Some(r)
    case Fresh(c) => pr.result == Some(Acquired) && Finished(p, FinishOf(pr, c)) in log
    case ServerError => true
  }

  /** Only a request that acquired its key gets beyond the reservation. */
  predicate Told(log: seq<Event>, p: nat, pr: Proc) {
    match pr.pc
    case Calling => pr.result == Some(Acquired)
    case Awaiting => pr.result == Some(Acquired)
    case UpdatingTransaction(_) => pr.result == Some(Acquired)
    case UpdatingRecord(_) => pr.result == Some(Acquired)
    case CommittingFinish(_) => pr.result == Some(Acquired)
    case Replying(a) => Backed(log, p, pr, a)
    case _ => true
  }

  ghost predicate ReplyTold(s: State, r: Reply) {
    r.pid in s.procs && s.procs[r.pid].pc == Replied && Backed(s.log, r.pid, s.procs[r.pid], r.answer)
  }

  ghost predicate CallTold(s: State, p: nat) {
    p in s.procs && !Uncalled(s.procs[p].pc) && s.procs[p].result == Some(Acquired)
  }

  ghost predicate AnswersOk(s: State) {
    && (forall p :: p in s.procs ==> Told(s.log, p, s.procs[p]))
    && (forall i :: 0 <= i < |s.replies| ==> ReplyTold(s, s.replies[i]))
    && (forall i, j :: 0 <= i < j < |s.replies| ==> s.replies[i].pid != s.replies[j].pid)
    && (forall i :: 0 <= i < |s.calls| ==> CallTold(s, s.calls[i]))
  }

  /** What a step does to its own request and to the histories of calls and replies. */
  ghost predicate StepTells(s: State, a: Action, t: State) {
    && a.p in t.procs && Told(t.log, a.p, t.procs[a.p])
    && (a.p in s.procs ==>
          && s.procs[a.p].pc != Replied
          && (!Uncalled(s.procs[a.p].pc) ==> !Uncalled(t.procs[a.p].pc) && t.procs[a.p].result == s.procs[a.p].result))
    && (if a.Call? then t.calls == s.calls + [a.p] && CallTold(t, a.p) else t.calls == s.calls)
    && (if a.SendReply? then
          && |t.replies| == |s.replies| + 1 && s.replies <= t.replies
          && t.replies[|s.replies|].pid == a.p && ReplyTold(t, t.replies[|s.replies|])
        else t.replies == s.replies)
  }

  lemma MovesTell(a: Action, before: seq<Event>, log: seq<Event>, pr: Proc, next: Proc)
    requires Moves(a, log, pr, next) && next.req == pr.req && Told(before, a.p, pr) && before <= log
    ensures Told(log, a.p, next) && pr.pc != Replied
    ensures !Uncalled(pr.pc) ==> !Uncalled(next.pc) && next.result == pr.result
    ensures a.Call? ==> !Uncalled(next.pc) && next.result == Some(Acquired)
    ensures a.SendReply? ==> pr.pc.Replying? && next.pc == Replied && Backed(log, a.p, next, pr.pc.answer)
  {
  }

  lemma ToldLasts(log: seq<Event>, later: seq<Event>, p: nat, pr: Proc)
    requires log <= later && Told(log, p, pr)
    ensures Told(later, p, pr)
  {
  }

  /** The request that takes the step is the only one that changes, and the history only grows. */
  ghost predicate OnlyOwn(s: State, a: Action, t: State) {
    a.p in t.procs && t.procs == s.procs[a.p := t.procs[a.p]] && s.log <= t.log
  }

  lemma AllTold(s: State, a: Action, t: State)
    requires AnswersOk(s) && StepTells(s, a, t) && OnlyOwn(s, a, t)
    ensures forall p :: p in t.procs ==> Told(t.log, p, t.procs[p])
  {
    hide Told, ReplyTold, CallTold, Uncalled;
    forall p | p in t.procs
      ensures Told(t.log, p, t.procs[p])
    {
      if p != a.p {
        ToldLasts(s.log, t.log, p, s.procs[p]);
      }
    }
  }

  lemma AllRepliesTold(s: State, a: Action, t: State)
    requires AnswersOk(s) && StepTells(s, a, t) && OnlyOwn(s, a, t)
    ensures forall i :: 0 <= i < |t.replies| ==> ReplyTold(t, t.replies[i])
    ensures forall i, j :: 0 <= i < j < |t.replies| ==> t.replies[i].pid != t.replies[j].pid
  {
    hide Told, CallTold, Uncalled;
    forall i | 0 <= i < |s.replies|
      ensures ReplyTold(t, s.replies[i]) && s.replies[i].pid != a.p
    {
      assert ReplyTold(s, s.replies[i]);
    }
    assert forall i :: 0 <= i < |s.replies| ==> t.replies[i] == s.replies[i];
  }

  lemma AllCallsTold(s: State, a: Action, t: State)
    requires AnswersOk(s) && StepTells(s, a, t) && OnlyOwn(s, a, t)
    ensures forall i :: 0 <= i < |t.calls| ==> CallTold(t, t.calls[i])
  {
    hide Told, ReplyTold, Uncalled;
    forall i | 0 <= i < |s.calls|
      ensures CallTold(t, s.calls[i])
    {
      assert CallTold(s, s.calls[i]);
    }
  }

  lemma AnyTells(env: Env, s: State, a: Action)
    requires Enabled(s, a) && (a.p in s.procs ==> Told(s.log, a.p, s.procs[a.p]))
    ensures StepTells(s, a, Step(env, s, a))
  {
    hide Step, Enabled, Moves, Pipeline, Backed;
    var t := Step(env, s, a);
    StepHasShape(env, s, a);
    if !a.Start? {
      MovesTell(a, s.log, t.log, s.procs[a.p], t.procs[a.p]);
    }
  }

  lemma OwnOnly(env: Env, s: State, a: Action)
    requires Enabled(s, a)
    ensures OnlyOwn(s, a, Step(env, s, a))
  {
    hide Step, Enabled, Pipeline;
    StepChanges(env, s, a);
  }

  lemma OwnTold(s: State, p: nat)
    requires AnswersOk(s)
    ensures p in s.procs ==> Told(s.log, p, s.procs[p])
  {
    hide Told, ReplyTold, CallTold;
  }

  lemma StepKeepsAnswers(env: Env, s: State, a: Action)
    requires Enabled(s, a) && AnswersOk(s)
    ensures AnswersOk(Step(env, s, a))
  {
    hide Step, Enabled, Told, ReplyTold, CallTold, StepTells, AnswersOk, OnlyOwn;
    var t := Step(env, s, a);
    OwnTold(s, a.p);
    AnyTells(env, s, a);
    OwnOnly(env, s, a);
    AllTold(s, a, t);
    AllRepliesTold(s, a, t);
    AllCallsTold(s, a, t);
    AnswersFrom(t);
  }

  lemma AnswersFrom(t: State)
    requires forall p :: p in t.procs ==> Told(t.log, p, t.procs[p])
    requires forall i :: 0 <= i < |t.replies| ==> ReplyTold(t, t.replies[i])
    requires forall i, j :: 0 <= i < j < |t.replies| ==> t.replies[i].pid != t.replies[j].pid
    requires forall i :: 0 <= i < |t.calls| ==> CallTold(t, t.calls[i])
    ensures AnswersOk(t)
  {
    hide Told, ReplyTold, CallTold;
  }

  lemma {:induction false} RunsKeepAnswers(env: Env, acts: seq<Action>)
    requires IsRun(env, acts)
    ensures AnswersOk(Exec(env, acts))
  {
    hide AnswersOk, Step, Enabled;
    if acts == [] {
      NothingAnswered();
    } else {
      RunsKeepAnswers(env, acts[..|acts| - 1]);
      StepKeepsAnswers(env, Exec(env, acts[..|acts| - 1]), acts[|acts| - 1]);
    }
  }

  lemma NothingAnswered()
    ensures AnswersOk(INITIAL)
  {
  }

  lemma AnswersHold(env: Env, s: State)
    requires Reachable(env, s)
    ensures AnswersOk(s)
  {
    hide AnswersOk, IsRun, Exec;
    var acts :| IsRun(env, acts) && Exec(env, acts) == s;
    RunsKeepAnswers(env, acts);
  }

  // ---------- Calls and replies in the sequential history ----------

  /** The reservation of this request stands in the history with this answer. */
  predicate ReservedAs(log: seq<Event>, p: nat, pr: Proc, r: Reservation) {
    pr.lin.Some? && pr.lin.value < |log| && log[pr.lin.value] == Reserved(p, pr.req, r)
  }

  /** Every reply is an entry of the sequential history: a refusal is the answer of the request's reservation, a fresh
      response is that of a request that acquired its key and whose completion took effect; nobody is answered twice. */
  lemma RepliesLinearizable(env: Env, s: State)
    requires HashShape(env.sha) && Reachable(env, s)
    ensures Legal(s.log) && s.ledger.db == Replay(s.log)
    ensures forall i :: 0 <= i < |s.replies| ==>
              && s.replies[i].pid in s.procs
              && var p := s.replies[i].pid;
              match s.replies[i].answer
              case Refused(r) => ReservedAs(s.log, p, s.procs[p], r)
              case Fresh(c) => ReservedAs(s.log, p, s.procs[p], Acquired) && Finished(p, FinishOf(s.procs[p], c)) in s.log
              case ServerError => true
    ensures forall i, j :: 0 <= i < j < |s.replies| ==> s.replies[i].pid != s.replies[j].pid
  {
    hide HashShape, Reachable, Legal, Replay, Told, CallTold, FinishOf;
    Linearizable(env, s);
    AnswersHold(env, s);
    assert forall i :: 0 <= i < |s.replies| ==> ReplyTold(s, s.replies[i]);
  }

  /** The completion behind a fresh response has one place in the history, after the request's own reservation. */
  lemma FreshIsOrdered(env: Env, s: State, i: nat, p: nat, c: Completion) returns (j: nat)
    requires i < |s.replies| && s.replies[i] == Reply(p, Fresh(c)) && p in s.procs
    requires HashShape(env.sha) && Reachable(env, s)
    ensures s.procs[p].lin.Some? && s.procs[p].lin.value < j < |s.log|
    ensures s.log[j] == Finished(p, FinishOf(s.procs[p], c))
    ensures forall n :: 0 <= n < |s.log| && s.log[n].Finished? && s.log[n].finish.keyHash == s.procs[p].req.keyHash ==> n == j
  {
    hide HashShape, Reachable, Legal, Replay;
    RepliesLinearizable(env, s);
    var e := Finished(p, FinishOf(s.procs[p], c));
    j :| 0 <= j < |s.log| && s.log[j] == e;
    FinishedAfter(s.log, s.procs[p].lin.value, j);
    forall n | 0 <= n < |s.log| && s.log[n].Finished? && s.log[n].finish.keyHash == s.procs[p].req.keyHash
      ensures n == j
    {
      if n < j {
        FinishedOnce(s.log, n, j);
      } else if j < n {
        FinishedOnce(s.log, j, n);
      }
    }
  }

  /** A completion needs the record that the reservation inserted. */
  lemma FinishedAfter(log: seq<Event>, i: nat, j: nat)
    requires Legal(log) && i < |log| && j < |log| && log[i].Reserved? && log[i].answer == Acquired && log[j].Finished?
    requires log[i].req.keyHash == log[j].finish.keyHash
    ensures i < j
  {
    assert Explains(Replay(log[..i]), log[i]) && Explains(Replay(log[..j]), log[j]);
    hide FinishError, AtomicReserve, Replay, Legal;
    AcquiredKeyIsNew(Replay(log[..i]), log[i].req);
    FinishMarks(Replay(log[..j]), log[j].finish);
    if j < i {
      HistoryGrows(log, j, i);
    }
  }

  lemma AcquiredKeyIsNew(db: Database, req: Request)
    requires AtomicReserve(db, req).1 == Ok(Acquired)
    ensures req.keyHash !in db.recs
  {
    hide TransactionFits, TransactionChecks, RecordFits, RecordChecks, CreatedRow, NewRecord, StoredEnvelope;
  }

  /** Real time for completions: one whose response was sent before another request started takes effect before that
      request's reservation. */
  lemma FreshPrecedes(env: Env, s: State, t: State, i: nat, p: nat, c: Completion, q: nat) returns (j: nat)
    requires i < |s.replies| && s.replies[i] == Reply(p, Fresh(c)) && p in s.procs
    requires q !in s.procs && q in t.procs && t.procs[q].result.Some?
    requires HashShape(env.sha) && Continues(env, s, t)
    ensures t.procs[q].lin.Some? && j < t.procs[q].lin.value < |t.log|
    ensures t.log[j] == Finished(p, FinishOf(s.procs[p], c))
  {
    hide HashShape, Continues, Reachable, Legal, Replay, FinishOf;
    ContinuesLater(env, s, t);
    j := FreshIsOrdered(env, s, i, p, c);
    Linearizable(env, t);
    assert t.log[j] == s.log[j];
  }

  /** Every call was made by the request whose own reservation acquired the key. */
  lemma CallsAreReserved(env: Env, s: State)
    requires HashShape(env.sha) && Reachable(env, s)
    ensures forall i :: 0 <= i < |s.calls| ==>
              s.calls[i] in s.procs && ReservedAs(s.log, s.calls[i], s.procs[s.calls[i]], Acquired)
  {
    hide HashShape, Reachable, Legal, Replay, Told, ReplyTold, Uncalled;
    Linearizable(env, s);
    AnswersHold(env, s);
    assert forall i :: 0 <= i < |s.calls| ==> CallTold(s, s.calls[i]);
  }

  // ---------- Requests the columns cannot hold ----------

  /** The atomic reservation acquires, or refuses for the transaction id, only what fits. */
  lemma OnlyFittingReserved(db: Database, req: Request)
    ensures match AtomicReserve(db, req).1
            case Ok(Acquired) => TransactionFits(req.payload.transactionId, CreatedRow(req.payload))
            case Ok(TransactionIdConflict) => TransactionFits(req.payload.transactionId, CreatedRow(req.payload))
            case Ok(_) => req.keyHash in db.recs
            case Err(_) => true
  {
    hide TransactionFits, TransactionChecks, RecordFits, RecordChecks, CreatedRow, NewRecord, StoredEnvelope;
  }

  lemma ResultWasExplained(log: seq<Event>, p: nat, pr: Proc, r: Reservation)
    requires Legal(log) && ReservedAs(log, p, pr, r)
    ensures AtomicReserve(Replay(log[..pr.lin.value]), pr.req).1 == Ok(r)
  {
    hide AtomicReserve, Replay;
    assert Explains(Replay(log[..pr.lin.value]), log[pr.lin.value]);
  }

  /** A request whose row the columns cannot hold (`Columns.FitsIff` says which: an amount of 2^63 or more, a currency
      with a final newline, or U+0000 in an id) never reserves anything and never reaches the network: it is told the
      state of a key that another request reserved, or that the database failed. */
  lemma UnfitIsRefused(env: Env, s: State, p: nat, pr: Proc)
    requires p in s.procs && s.procs[p] == pr && !TransactionFits(Id(pr), CreatedRow(pr.req.payload))
    requires HashShape(env.sha) && Reachable(env, s)
    ensures pr.result != Some(Acquired) && pr.result != Some(TransactionIdConflict)
    ensures pr.result.Some? ==> pr.req.keyHash in s.ledger.db.recs
    ensures p !in s.calls
    ensures forall k :: k in s.ledger.owner ==> s.ledger.owner[k] != p
    ensures forall i :: 0 <= i < |s.replies| && s.replies[i].pid == p ==>
              match s.replies[i].answer
              case Refused(r) => r != TransactionIdConflict && pr.req.keyHash in s.ledger.db.recs
              case Fresh(_) => false
              case ServerError => true
  {
    hide HashShape, Reachable, Legal, Replay, Told, AtomicReserve, TransactionFits, CreatedRow, FinishOf, Uncalled;
    Linearizable(env, s);
    AnswersHold(env, s);
    if pr.result.Some? {
      var i := pr.lin.value;
      ResultWasExplained(s.log, p, pr, pr.result.value);
      OnlyFittingReserved(Replay(s.log[..i]), pr.req);
      HistoryGrows(s.log, i, |s.log|);
      assert s.log[..|s.log|] == s.log;
    }
    NeverOwner(env, s, p, pr);
    assert forall i :: 0 <= i < |s.replies| ==> ReplyTold(s, s.replies[i]);
    assert forall i :: 0 <= i < |s.calls| ==> CallTold(s, s.calls[i]);
  }

  lemma NeverOwner(env: Env, s: State, p: nat, pr: Proc)
    requires p in s.procs && s.procs[p] == pr && !TransactionFits(Id(pr), CreatedRow(pr.req.payload))
    requires HashShape(env.sha) && Reachable(env, s)
    ensures forall k :: k in s.ledger.owner ==> s.ledger.owner[k] != p
  {
    hide HashShape, Reachable, Inv, TransactionFits, CreatedRow, LedgerOk, LogOk, ProcsOk, LocksOk, CallsOk, RepliesOk;
    Safe(env, s);
    assert LedgerOk(env, s.ledger, s.procs);
    hide SystemOk;
    OwnersFit(env, s.ledger, s.procs);
  }

  lemma OwnersFit(env: Env, L: Ledger, procs: map<nat, Proc>)
    requires LedgerOk(env, L, procs)
    ensures forall k :: k in L.owner ==>
              && L.owner[k] in procs
              && var pr := procs[L.owner[k]];
              TransactionFits(Id(pr), CreatedRow(pr.req.payload))
  {
    hide GoodRequest, InsertChecks, Storable, TransactionFits, RecordFits, CreatedRow, NewRecord, UpdatedRow, CompletedRecord;
    forall k | k in L.owner
      ensures L.owner[k] in procs
      ensures TransactionFits(Id(procs[L.owner[k]]), CreatedRow(procs[L.owner[k]].req.payload))
    {
      assert RecordOk(env, L, procs, k);
    }
  }
}
