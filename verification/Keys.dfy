/** The same results in terms of the idempotency keys that clients send, of which the database sees only hashes. */
module Keys {
  import opened Results
  import opened CanonicalJson
  import opened Store
  import opened Protocol
  import opened Invariant
  import opened Safety
  import opened Changes
  import opened Answers
  import opened Replies
  import Authorization
  import Envelopes
  import Steps

  /** Every request looks itself up by the hash of its own key and the hash of its own canonical payload. */
  ghost predicate KeysOk(env: Env, s: State) {
    forall p :: p in s.procs ==> s.procs[p].req.keyHash == env.sha(s.procs[p].key)
  }

  lemma StepKeepsKeys(env: Env, s: State, a: Action)
    requires Enabled(s, a) && KeysOk(env, s)
    ensures KeysOk(env, Step(env, s, a))
  {
    hide Enabled, Step, Moves, Authorization.Pipeline;
    StepHasShape(env, s, a);
  }

  lemma {:induction false} RunsKeepKeys(env: Env, acts: seq<Action>)
    requires IsRun(env, acts)
    ensures KeysOk(env, Exec(env, acts))
  {
    if acts != [] {
      hide Enabled, Step, KeysOk;
      RunsKeepKeys(env, acts[..|acts| - 1]);
      StepKeepsKeys(env, Exec(env, acts[..|acts| - 1]), acts[|acts| - 1]);
    }
  }

  /** In every run. */
  lemma KeysAreHashed(env: Env, s: State)
    requires HashShape(env.sha) && Reachable(env, s)
    ensures forall p :: p in s.procs ==>
              && s.procs[p].req.keyHash == env.sha(s.procs[p].key)
              && s.procs[p].req.fingerprint == env.sha(Encode(s.procs[p].req.payload))
  {
    hide IsRun, Exec, Inv, HashShape;
    var acts :| IsRun(env, acts) && Exec(env, acts) == s;
    RunsKeepKeys(env, acts);
    hide Reachable;
    Safe(env, s);
    forall p | p in s.procs
      ensures s.procs[p].req.fingerprint == env.sha(Encode(s.procs[p].req.payload))
    {
      GetGood(env, s, p);
    }
  }

  /** The hash does not collide on these texts. */
  ghost predicate Distinct(sha: string -> string, texts: set<string>) {
    forall a, b :: a in texts && b in texts && sha(a) == sha(b) ==> a == b
  }

  /** The keys of all requests so far. */
  function KeysOf(s: State): set<string> {
    set p | p in s.procs :: s.procs[p].key
  }

  lemma KeyHashExact(env: Env, s: State, p: nat, q: nat)
    requires p in s.procs && q in s.procs
    requires HashShape(env.sha) && Reachable(env, s) && Distinct(env.sha, KeysOf(s))
    ensures s.procs[p].req.keyHash == s.procs[q].req.keyHash <==> s.procs[p].key == s.procs[q].key
  {
    hide HashShape, Reachable;
    KeysAreHashed(env, s);
    assert s.procs[p].key in KeysOf(s) && s.procs[q].key in KeysOf(s);
  }

  /** Two network calls never come from requests with the same key, collisions or not. */
  lemma CalledOncePerKey(env: Env, s: State)
    requires HashShape(env.sha) && Reachable(env, s)
    ensures forall i :: 0 <= i < |s.calls| ==> s.calls[i] in s.procs
    ensures forall i, j :: 0 <= i < j < |s.calls| ==> s.procs[s.calls[i]].key != s.procs[s.calls[j]].key
  {
    hide HashShape, Reachable;
    KeysAreHashed(env, s);
    CalledAtMostOnce(env, s);
  }

  /** All final replies to one key are the same response. */
  lemma OneResponsePerKey(env: Env, s: State, i: nat, j: nat, p: nat, q: nat)
    requires i < |s.replies| && j < |s.replies| && p == s.replies[i].pid && q == s.replies[j].pid
    requires p in s.procs && q in s.procs && s.procs[p].key == s.procs[q].key
    requires Final(EnvelopeOf(s.replies[i].answer).status) && Final(EnvelopeOf(s.replies[j].answer).status)
    requires HashShape(env.sha) && Reachable(env, s)
    ensures Envelopes.SameResponse(EnvelopeOf(s.replies[i].answer), EnvelopeOf(s.replies[j].answer))
  {
    hide HashShape, Reachable, EnvelopeOf, Final;
    KeysAreHashed(env, s);
    StableReplies(env, s, i, j, p, q);
  }

  /** A request that is told about a key is told about its own key. */
  lemma AnsweredFromOwnKey(env: Env, s: State, p: nat, pr: Proc)
    requires p in s.procs && s.procs[p] == pr && pr.result.Some? && pr.result.value != TransactionIdConflict
    requires HashShape(env.sha) && Reachable(env, s) && Distinct(env.sha, KeysOf(s))
    ensures pr.req.keyHash in s.ledger.db.recs && pr.req.keyHash in s.ledger.owner
    ensures s.ledger.owner[pr.req.keyHash] in s.procs
    ensures s.procs[s.ledger.owner[pr.req.keyHash]].key == pr.key
  {
    hide HashShape, Reachable, Distinct, Inv, ProcOk, LinOk;
    Safe(env, s);
    Steps.GetProc(env, s, p, pr);
    hide ResultHolds, GoodRequest;
    ResultOf(env, s.ledger, p, pr);
    ResultFingerprint(s.ledger, p, pr.req, pr.result.value);
    TermsAreKept(env, s, pr.req.keyHash);
    KeyHashExact(env, s, p, s.ledger.owner[pr.req.keyHash]);
  }

  /** Of two requests with the same key and different payloads at most one gets past the reservation. */
  lemma OnePayloadPerKey(env: Env, s: State, p: nat, q: nat)
    requires p in s.procs && q in s.procs && s.procs[p].key == s.procs[q].key
    requires s.procs[p].req.payload != s.procs[q].req.payload
    requires s.procs[p].result.Some? && s.procs[q].result.Some?
    requires HashShape(env.sha) && Reachable(env, s) && CollisionFree(env.sha, Payloads(s))
    ensures s.procs[p].result.value in {IdempotencyConflict, TransactionIdConflict}
         || s.procs[q].result.value in {IdempotencyConflict, TransactionIdConflict}
  {
    hide HashShape, Reachable, CollisionFree;
    KeysAreHashed(env, s);
    if s.procs[p].result.value != TransactionIdConflict && s.procs[q].result.value != TransactionIdConflict {
      RefusalIsExact(env, s, p, s.procs[p], s.procs[p].req.keyHash);
      RefusalIsExact(env, s, q, s.procs[q], s.procs[q].req.keyHash);
    }
  }

  /** With different keys, at most one of two requests with the same payload gets past the reservation. */
  lemma OneKeyPerPayload(env: Env, s: State, p: nat, q: nat)
    requires p in s.procs && q in s.procs && s.procs[p].key != s.procs[q].key
    requires s.procs[p].req.payload == s.procs[q].req.payload
    requires s.procs[p].result.Some? && s.procs[q].result.Some?
    requires HashShape(env.sha) && Reachable(env, s)
    requires Distinct(env.sha, KeysOf(s)) && CollisionFree(env.sha, Payloads(s))
    ensures s.procs[p].result.value in {IdempotencyConflict, TransactionIdConflict}
         || s.procs[q].result.value in {IdempotencyConflict, TransactionIdConflict}
  {
    hide HashShape, Reachable, CollisionFree, Distinct;
    if s.procs[p].result.value !in {IdempotencyConflict, TransactionIdConflict}
       && s.procs[q].result.value !in {IdempotencyConflict, TransactionIdConflict} {
      RecordOfOwn(env, s, p);
      RecordOfOwn(env, s, q);
      PairedOnce(env, s, s.procs[p].req.keyHash, s.procs[q].req.keyHash);
      KeyHashExact(env, s, p, q);
    }
  }

  /** The record a request gets past the reservation with is that of its own transaction. */
  lemma RecordOfOwn(env: Env, s: State, p: nat)
    requires p in s.procs && s.procs[p].result.Some?
    requires s.procs[p].result.value !in {IdempotencyConflict, TransactionIdConflict}
    requires HashShape(env.sha) && Reachable(env, s) && CollisionFree(env.sha, Payloads(s))
    ensures s.procs[p].req.keyHash in s.ledger.db.recs
    ensures s.ledger.db.recs[s.procs[p].req.keyHash].transactionId == Id(s.procs[p])
  {
    hide HashShape, Reachable, CollisionFree, Inv, ProcOk, LinOk;
    Safe(env, s);
    Steps.GetProc(env, s, p, s.procs[p]);
    hide ResultHolds, GoodRequest;
    ResultOf(env, s.ledger, p, s.procs[p]);
    ResultFingerprint(s.ledger, p, s.procs[p].req, s.procs[p].result.value);
    RefusalIsExact(env, s, p, s.procs[p], s.procs[p].req.keyHash);
    TermsAreKept(env, s, s.procs[p].req.keyHash);
  }

  lemma PairedOnce(env: Env, s: State, j: string, k: string)
    requires j in s.ledger.db.recs && k in s.ledger.db.recs
    requires s.ledger.db.recs[j].transactionId == s.ledger.db.recs[k].transactionId
    requires HashShape(env.sha) && Reachable(env, s)
    ensures j == k
  {
    hide HashShape, Reachable, RowsAgree;
    TablesAgree(env, s);
  }
}
