# Verification of the idempotent transaction platform

This project models how the transaction platform authorizes a payment at most once, and proves what clients, the
payment network and the two database tables can rely on.

An authorization request carries an idempotency key and a payload.  The orchestrator reserves the key and the
transaction id in one database transaction, calls the payment network, and completes both rows in another one.  Any
number of requests do this at the same time against one PostgreSQL database, processes crash, statements fail, commits
succeed without being acknowledged, and clients retry.

## Structure

| modules | subject |
|---|---|
| `Text`, `Decimal`, `RetryAfter` | stripping, decimal printing, the sanitised Retry-After value |
| `CanonicalJson` | the JSON text that is hashed into the request fingerprint, and its decoder |
| `Lifecycle`, `LifecycleRuns` | the transaction entity, and all runs of its operations |
| `PaymentNetwork`, `Authorization`, `Envelopes`, `Schema` | from an HTTP response to a transaction, an envelope and two rows |
| `Store` | reservation and completion as atomic steps, and the laws of every sequence of them |
| `Columns` | which requests and which outcomes the columns of the two tables can hold |
| `Coordinator` | the coordinator and the orchestrator as the code runs them, statement by statement |
| `Protocol`, `Invariant`, `Steps`, `Commits` | the machine of concurrent requests and its inductive invariant |
| `Safety`, `Changes`, `Answers`, `Replies`, `Keys`, `Progress`, `Drain`, `Abandoned` | what holds in all runs of the machine |
| `Alone` | a request that runs alone in the machine does what the sequential orchestrator does |
| `CompletionRace` | concurrent completions with arbitrary arguments |

`Protocol` has one action per SQL statement, commit, network call and reply.  Every session keeps its uncommitted
writes to itself; a select sees committed rows; an insert of a key that another session has written waits, and so does
an update of a committed row that its WHERE clause selects and another session has written; a uniqueness violation is
raised against committed rows only.  The environment may crash a request at any point, fail any statement or commit,
and lose the acknowledgement of a commit that took effect.  The state carries three histories, of effects, network
calls and replies, which no step reads.

SHA-256 is a parameter.  Its outputs are assumed to be 64 lower-case hexadecimal digits; freedom from collisions is an
explicit hypothesis, on the payloads of the run only, of the lemmas that need it.

## Model

| member | source | states |
|---|---|---|
| `Safety.Linearizable` | src/transaction_platform/infrastructure/idempotency_coordinator.py:80-152 | In every reachable state the tables are the replay of a legal sequential history of atomic reservations and completions; every reservation that returned stands in it exactly once, after its own start and with exactly its result |
| `Answers.RepliesLinearizable` | src/transaction_platform/application/idempotent_orchestrator.py:122-154 | Every reply is an entry of that history: a refusal sent is the answer at the request's own place, a fresh response belongs to an acquired reservation and a completion that took effect, and no request is answered twice |
| `Changes.RealTimeOrder` | src/transaction_platform/infrastructure/idempotency_coordinator.py:80-152 | A reservation that returned before another request started takes effect before it, so the sequential order is one an outside observer could have seen |
| `Safety.CalledAtMostOnce` | src/transaction_platform/application/idempotent_orchestrator.py:113-162 | Over every run, two network calls never share a key hash or a transaction id, and every call is for a committed pair whose key its own request reserved |
| `Answers.FreshIsOrdered` | src/transaction_platform/application/idempotent_orchestrator.py:190-200 | The completion behind a fresh response is the only one of its key in the history and comes after the request's own reservation |
| `Answers.FreshPrecedes` | src/transaction_platform/application/idempotent_orchestrator.py:190-200 | A completion whose response was sent before another request started takes effect before that request's reservation |
| `Answers.CallsAreReserved` | src/transaction_platform/application/idempotent_orchestrator.py:156-162 | Behind every network call stands the caller's own acquired reservation in the sequential history |
| `Safety.CallIsReserved` | src/transaction_platform/application/idempotent_orchestrator.py:156-162 | When a request is about to call the network, both its rows are committed, in progress and at version 0, hold what it asked for, and it has not called before |
| `Safety.TablesAgree` | src/transaction_platform/infrastructure/idempotency_coordinator.py:92-117 | In every reachable state records and transactions are in bijection, IN_PROGRESS goes with CREATED at version 0 and nothing stored, COMPLETED with version 1 and the status that belongs to the stored response code |
| `Safety.TermsAreKept` | src/transaction_platform/infrastructure/idempotency_coordinator.py:94-117 | In every reachable state, in progress and after completion, the row of a key holds the merchant, the amount and the currency its owner asked for, and the record its fingerprint and transaction id |
| `Safety.ChecksHold` | src/transaction_platform/infrastructure/models.py:35-119 | Every check constraint of both tables holds in every reachable state, starting from validated commands only |
| `Safety.OnlyDatabaseErrors` | src/transaction_platform/infrastructure/idempotency_coordinator.py:150-152 | The only error a request of any run meets is a failing statement: the unexplained violation, the version guard and both row counts never raise, and both guarded updates find their row |
| `Safety.ConflictIsSound` | src/transaction_platform/infrastructure/idempotency_coordinator.py:139-147 | A request told TRANSACTION_ID_CONFLICT: another key owns that id, and no request with its own key and transaction id was ever acquired, whatever committed between the violation and the two re-queries |
| `Safety.RefusalIsExact` | src/transaction_platform/infrastructure/idempotency_coordinator.py:45-46 | If the hash has no collision among the payloads of the run, a request whose key is known is refused as IDEMPOTENCY_CONFLICT if and only if its payload differs from the one that reserved the key |
| `Safety.RunsKeep` | src/transaction_platform/infrastructure/idempotency_coordinator.py:80-252 | The inductive invariant behind these results holds after every run: any interleaving, with crashes, failing statements and lost commit acknowledgements at every point |
| `Changes.RowsOnlyAdvance` | src/transaction_platform/infrastructure/idempotency_coordinator.py:227-242 | From any state to any later one: rows are never removed, fingerprint and transaction of a record never change, a completed record never changes at all, versions never fall, calls and replies are never taken back |
| `Changes.RepeatedRequest` | src/transaction_platform/infrastructure/idempotency_coordinator.py:45-68 | The same request repeated later in a run: in progress for a while, then one and the same replay for ever; a refused payload is never served |
| `Replies.StableReplies` | src/transaction_platform/application/idempotent_orchestrator.py:122-124 | All replies with status 201, 202, 502 or 503 for one key, over a whole run and whoever asked, are equal in status, body, headers and media type |
| `Replies.ReplayedForEver` | src/transaction_platform/application/idempotent_orchestrator.py:122-124 | Once such a reply has been sent, the same request started later gets exactly that response with the replay flag set: never in progress again, never a refusal |
| `Replies.DurableBeforeSent` | src/transaction_platform/application/idempotent_orchestrator.py:190-200 | Before such a reply is sent, the completed record of its key is committed and reads back as that very response |
| `Keys.KeysAreHashed` | src/transaction_platform/common/idempotency.py:30-66 | In every run a request looks itself up by the hash of the key it was sent with and the hash of its own canonical payload |
| `Keys.KeyHashExact` | src/transaction_platform/common/idempotency.py:30-39 | Among keys without a hash collision, key hashes are equal if and only if keys are |
| `Keys.CalledOncePerKey` | src/transaction_platform/application/idempotent_orchestrator.py:104-162 | Two network calls never come from requests with the same idempotency key |
| `Keys.OneResponsePerKey` | src/transaction_platform/application/idempotent_orchestrator.py:104-124 | All final replies to one idempotency key are the same response |
| `Keys.AnsweredFromOwnKey` | src/transaction_platform/application/idempotent_orchestrator.py:104-145 | What a request is told about a key is about the key it was sent with, unless keys of the run collide |
| `Keys.OnePayloadPerKey` | src/transaction_platform/application/idempotent_orchestrator.py:104-135 | Of two answered requests with the same key and different payloads at least one is refused |
| `Keys.OneKeyPerPayload` | src/transaction_platform/application/idempotent_orchestrator.py:146-154 | Of two answered requests with the same payload and different keys at least one is refused |
| `Replies.EndToEnd` | src/transaction_platform/application/idempotent_orchestrator.py:161-200 | Every completed key was completed with what the pipeline makes of the one response its owner received, in the transaction row, in the record and in the replayed envelope |
| `Replies.StoredStatusIff` | src/transaction_platform/adapters/http_payment_network.py:93-170 | In every run, for every HTTP status and body: the stored row is FAILED exactly for 400 to 499 except 408, DECLINED exactly for a conforming decline, AUTHORIZED exactly for a conforming approval, and otherwise PENDING_RECONCILIATION of the authorization |
| `Replies.ResultsAreCarried` | src/transaction_platform/adapters/http_payment_network.py:112-136 | In every run a stored authorization or decline was given by a conforming 200 with exactly the stripped reference and codes that are in the row, and the stored body tells id, status, version, reference and codes of the row as it is |
| `Replies.RefusalKind` | src/transaction_platform/application/idempotent_orchestrator.py:126-154 | A refusal is a 409 and never a final reply, exactly one refusal has each problem type, and exactly the in-progress one carries Retry-After |
| `Replies.RefusalResponses` | src/transaction_platform/application/idempotent_orchestrator.py:126-154 | The two conflict responses, member by member |
| `Replies.TroubleResponses` | src/transaction_platform/application/idempotent_orchestrator.py:137-144 | The in-progress response with its delay of one second, and the 500, member by member |
| `Progress.NoDeadlock` | src/transaction_platform/infrastructure/idempotency_coordinator.py:94-117 | While some request is unfinished, some unfinished request can take its own next step |
| `Progress.NoWaitCycle` | src/transaction_platform/infrastructure/idempotency_coordinator.py:197-243 | No chain of waits returns to where it began, and none has more than two waits |
| `Progress.OwnerNeverWaits` | src/transaction_platform/infrastructure/idempotency_coordinator.py:197-243 | A request that completes its own reservation never waits for a row |
| `Progress.BoundedWork` | src/transaction_platform/application/idempotent_orchestrator.py:113-200 | A request takes at most eleven steps, whatever the other requests and the environment do |
| `Drain.MaximalRunsFinish` | src/transaction_platform/application/idempotent_orchestrator.py:113-200 | Without new requests every run is at most as long as the work that was left, and a run that cannot be prolonged has brought every request to its end |
| `Drain.EveryoneFinishes` | src/transaction_platform/application/idempotent_orchestrator.py:113-200 | From every reachable state, whatever the network answers, some continuation without new requests brings every request to its end |
| `Abandoned.AbandonedStaysBlocked` | README.md:129 | Once the request that reserved a key has stopped with the key in progress, the record stays as it is and no call is ever made for the key |
| `CompletionRace.RaceIsSerial` | src/transaction_platform/infrastructure/idempotency_coordinator.py:177-252 | Any interleaving of `complete` calls with arbitrary arguments, on tables left by any history, is a sequential history of exactly the calls whose commit took effect; no two of them share a key or a transaction, and any other call left no trace |
| `CompletionRace.RecordNeverWaits` | src/transaction_platform/infrastructure/idempotency_coordinator.py:227-243 | A call that got past its transaction update never waits for the record, whatever the arguments of the others |
| `CompletionRace.NoDeadlock` | src/transaction_platform/infrastructure/idempotency_coordinator.py:193-252 | While one of these calls is unfinished, some unfinished one can take its next statement or commit |
| `Store.AcquiredOnce` | src/transaction_platform/infrastructure/idempotency_coordinator.py:107-122 | In any sequential history at most one reservation is acquired per key and per transaction id |
| `Store.AnswersOverTime` | src/transaction_platform/infrastructure/idempotency_coordinator.py:45-68 | Which answers can follow which: acquired or in progress is followed by in progress or one replay, a replay and a payload conflict only by themselves |
| `Store.RefusalIsFinal` | src/transaction_platform/infrastructure/idempotency_coordinator.py:139-147 | A request refused for its transaction id gets that refusal or a payload conflict ever after, provided no other payload has its fingerprint |
| `Store.RecordOrigin` | src/transaction_platform/infrastructure/idempotency_coordinator.py:94-117 | Every record was written by an acquired reservation of the history and still has its fingerprint and transaction id, and the transaction row still has its merchant, amount and currency |
| `Store.HistoryGrows` | src/transaction_platform/infrastructure/idempotency_coordinator.py:197-242 | Between any two points of any history rows only advance, and no row changes its merchant, amount or currency |
| `Store.HistoryPaired` | src/transaction_platform/infrastructure/idempotency_coordinator.py:92-117 | After any history, completions with arbitrary arguments included, the tables are paired one to one and the row version is 0 in progress and 1 completed |
| `Store.FinishedOnce` | src/transaction_platform/infrastructure/idempotency_coordinator.py:226-252 | At most one completion ever succeeds per key and per transaction |
| `Store.FinishEffect` | src/transaction_platform/infrastructure/idempotency_coordinator.py:197-242 | A completion raises the version of its row by exactly one and touches no other row |
| `Store.ClassifyCases` | src/transaction_platform/infrastructure/idempotency_coordinator.py:45-68 | What a record is answered with in each case, and that only a record the check constraint forbids is answered with an error |
| `Replies.OutcomesAreFinal` | src/transaction_platform/application/idempotent_orchestrator.py:161-200 | Every outcome of a call is reported by one of the four final status codes |
| `Schema.TransactionColumnsRefuse` | src/transaction_platform/infrastructure/models.py:23-32 | What the column types of transactions refuse |
| `Schema.RecordColumnsRefuse` | src/transaction_platform/infrastructure/models.py:77-88 | What the column types of records refuse |
| `Text.SpacesListed` | src/transaction_platform/adapters/http_payment_network.py:39 | The characters that count as white space, one by one |
| `Store.ReplayRoundTrip` | src/transaction_platform/infrastructure/idempotency_coordinator.py:51-66 | A stored response is read back as it was sent, up to the replay flag, with the media type computed from its status code |
| `Store.InsertMeetsChecks` | src/transaction_platform/infrastructure/models.py:35-119 | The two rows written for a validated request that fit the columns satisfy every check constraint, so none causes the integrity error handled in `reserve` |
| `Columns.AcquiredIff` | src/transaction_platform/infrastructure/idempotency_coordinator.py:80-122 | A validated request is acquired if and only if its key and its transaction id are free, its amount is below 2^63, its currency has three characters and neither id contains U+0000 |
| `Columns.FitsIff` | src/transaction_platform/infrastructure/models.py:20-29 | The exact condition under which the columns hold a validated payload: the amount is below 2^63, the currency has three characters, and neither the transaction id nor the merchant id contains U+0000 |
| `Columns.NewlineDoesNotFit` | src/transaction_platform/api/schemas.py:56-61 | For every otherwise valid payload the currency USD with a final newline passes validation and does not fit the column |
| `Columns.NulDoesNotFit` | src/transaction_platform/api/schemas.py:27-38 | For every otherwise valid payload a transaction id with U+0000 inside passes validation and does not fit the column |
| `Columns.UnholdableWitnesses` | src/transaction_platform/api/schemas.py:19-70 | Three concrete payloads that are valid and do not fit: a currency with a final newline, an id with U+0000, an amount of 2^63 |
| `Columns.CompletedIff` | src/transaction_platform/infrastructure/idempotency_coordinator.py:193-252 | Right after a reservation the outcome of the call can be stored if and only if the reference and the codes have at most 128 characters and no U+0000; otherwise the completion fails and changes nothing |
| `Columns.KeepableIff` | src/transaction_platform/adapters/http_payment_network.py:112-136 | The same condition on the response: whatever it approves or declines must fit |
| `Columns.OverlongWitness` | src/transaction_platform/adapters/http_payment_network.py:112-125 | A conforming approval whose reference has 129 characters does not meet it |
| `Columns.HistoryFits` | src/transaction_platform/infrastructure/models.py:20-88 | After any history all rows fit their columns |
| `Replies.UnkeepableNeverCompletes` | src/transaction_platform/infrastructure/idempotency_coordinator.py:193-252 | In every run the key of a request that received a verdict the columns cannot hold stays in progress |
| `Answers.UnfitIsRefused` | src/transaction_platform/infrastructure/idempotency_coordinator.py:92-122 | In every run a request whose row does not fit is never acquired, never refused for its transaction id, owns no key and makes no call; what it is told is the state of a key another request reserved, or a database failure |
| `Store.CompletionMeetsChecks` | src/transaction_platform/infrastructure/models.py:64-119 | The two rows written on completion satisfy every check constraint, including the reconciliation pairing and the payload integrity |
| `Coordinator.SqlCoordinator.Reserve` | src/transaction_platform/infrastructure/idempotency_coordinator.py:80-164 | For every set of failing statements: ACQUIRED means that exactly the two new rows were added, column by column those of the request; any result is that of the atomic reservation; an error leaves both tables untouched unless only the commit's acknowledgement was lost |
| `Coordinator.SqlCoordinator.Complete` | src/transaction_platform/infrastructure/idempotency_coordinator.py:177-258 | For every set of failing statements: success means that exactly the named columns of the two rows were updated and both guards held; an error leaves both tables untouched unless only the commit's acknowledgement was lost, and without faults the error is the one predicted |
| `Coordinator.HandleAuthorization` | src/transaction_platform/application/idempotent_orchestrator.py:98-200 | For one request on a working database, looked up by the hash of its key and of its payload, the tables, the reply and whether the network is called are those of the specification function on the old tables |
| `Coordinator.ReuseIsRefused` | src/transaction_platform/application/idempotent_orchestrator.py:126-154 | After a request that reached the network, the same transaction id under another key and another payload under the same key are refused, each with its own conflict, and call nobody |
| `Coordinator.RetryIsSafe` | src/transaction_platform/application/idempotent_orchestrator.py:113-200 | A retry, whatever the network would answer it, changes no row and calls nobody; it repeats a refusal, replays the stored response, or is in progress when the first outcome could not be stored |
| `Alone.AloneIsHandled` | src/transaction_platform/application/idempotent_orchestrator.py:98-200 | From any reachable state without uncommitted rows, a new request that runs alone in the concurrent machine leaves exactly the tables, sends exactly the reply and makes exactly the call of the sequential orchestrator, for every request and every outcome of the network |
| `Authorization.Execute` | src/transaction_platform/application/authorize_transaction.py:76-139 | Driving the transaction through its own guarded methods ends in the exit specified for each answer; no guard raises after a valid creation |
| `Authorization.PipelineStorable` | src/transaction_platform/application/authorize_transaction.py:88-139 | Every exit of `execute`, normal or raised, carries a transaction of version 1 with the command's id, a legal status and pending pair, a response code that goes with the status, and headers that survive storage |
| `Authorization.StatusIff` | src/transaction_platform/application/authorize_transaction.py:99-139 | Which stored status, both ways, for every transport outcome, status integer and body: FAILED for 400 to 499 except 408, 503 exactly for 429, everything without a verdict waits for reconciliation, and only a result stores a reference or a code |
| `Authorization.ResultIff` | src/transaction_platform/adapters/http_payment_network.py:112-136 | The row becomes AUTHORIZED with this reference and code if and only if the response is a 200 of whose fields exactly these are left when white space is cut off their ends, and DECLINED with this code if and only if it is such a decline; the body sent carries the same values |
| `Authorization.AnswerByResponse` | src/transaction_platform/adapters/http_payment_network.py:82-170 | Which response is a timeout, a rejection, a rate limit, an unavailable network, an approval or a decline, each both ways |
| `Authorization.FailureResponses` | src/transaction_platform/application/idempotent_orchestrator.py:169-186 | The 503 and the 502 response, member by member |
| `Authorization.BodyTellsTransaction` | src/transaction_platform/application/idempotent_orchestrator.py:59-96 | Every body sent names id, status, version and codes of the transaction, or the problem type that goes with its status code, under the right media type |
| `Authorization.RateLimitDelay` | src/transaction_platform/application/idempotent_orchestrator.py:169-177 | After a 429 the client gets one Retry-After header that parses to the delay parsed from the network; a printed delay from 1 to 60 is passed on unchanged, a missing one becomes 1 |
| `Envelopes.FilterHeaders` | src/transaction_platform/infrastructure/idempotency_coordinator.py:183-191 | The loop keeps at most one header, Retry-After, with the value of the last name that matches in any letter case |
| `Envelopes.AnyCase` | src/transaction_platform/infrastructure/idempotency_coordinator.py:186 | The names that match are those spelled retry-after letter by letter in either case, and no others |
| `Envelopes.AllowlistIdempotent` | src/transaction_platform/infrastructure/idempotency_coordinator.py:183-191 | Filtering what was filtered changes nothing |
| `Envelopes.HeadersRoundTrip` | src/transaction_platform/infrastructure/idempotency_coordinator.py:55-62 | Headers come back from the nullable column as they went in if and only if there are none or just Retry-After |
| `CanonicalJson.RoundTrip` | src/transaction_platform/common/idempotency.py:53-65 | A decoder recovers all five fields from the canonical text, for every payload |
| `CanonicalJson.Injective` | src/transaction_platform/common/idempotency.py:53-65 | Two payloads have the same canonical text if and only if they are equal |
| `CanonicalJson.EncodeIsObject` | src/transaction_platform/common/idempotency.py:53-65 | The text is the JSON object of the five named members in ascending order, without white space |
| `CanonicalJson.QuoteDenotes` | src/transaction_platform/common/idempotency.py:60-65 | Between its quotes every quoted string stands, character by character as section 7 of RFC 8259 reads it, for the original |
| `CanonicalJson.EscapeForm` | src/transaction_platform/common/idempotency.py:60-65 | Visible ASCII stands for itself, seven characters have their short escape, everything else is written by code or surrogate pair |
| `CanonicalJson.StringRoundTrip` | src/transaction_platform/common/idempotency.py:60-65 | An escaped string followed by anything is read back with exactly that rest, surrogate pairs included (section 7 of RFC 8259) |
| `CanonicalJson.IntRoundTrip` | src/transaction_platform/common/idempotency.py:60-65 | A printed integer of any size and sign is read back, whatever non-digit follows |
| `CanonicalJson.PrintableAscii` | src/transaction_platform/common/idempotency.py:60-65 | The text consists of printable ASCII, so encoding it as UTF-8 loses nothing |
| `CanonicalJson.FingerprintExact` | src/transaction_platform/common/idempotency.py:42-66 | Among payloads without a hash collision, fingerprints are equal if and only if payloads are |
| `RetryAfter.ParseRetryAfter` | src/transaction_platform/adapters/http_payment_network.py:22-44 | The result lies between 1 and 60 for every header text |
| `RetryAfter.PrintedDelay` | src/transaction_platform/adapters/http_payment_network.py:36-44 | Printed delays from 1 to 60 are honoured as they are, 0 is 1, more is 60, and a number of more than 4300 digits is 1 |
| `RetryAfter.PrintedIsHonouredIff` | src/transaction_platform/adapters/http_payment_network.py:38-44 | A printed delay is honoured within these limits if and only if it has at most 4300 digits |
| `RetryAfter.PaddedDelay` | src/transaction_platform/adapters/http_payment_network.py:39 | White space around a number makes no difference |
| `RetryAfter.SignedDelay` | src/transaction_platform/adapters/http_payment_network.py:39 | Nor does a plus sign before it |
| `RetryAfter.MonotoneIff` | src/transaction_platform/adapters/http_payment_network.py:38-44 | Exactly when a longer delay is not answered by a shorter one |
| `RetryAfter.NotMonotone` | src/transaction_platform/adapters/http_payment_network.py:38-44 | The witness: 60 is answered by 60, ten to the power 4300 by 1 |
| `RetryAfter.FixedPoint` | src/transaction_platform/adapters/http_payment_network.py:22-44 | Printing the result and parsing it again gives the result |
| `RetryAfter.NegativeIsDefault` | src/transaction_platform/adapters/http_payment_network.py:40-41 | Every printed negative number gives the default |
| `RetryAfter.NoDigitIsDefault` | src/transaction_platform/adapters/http_payment_network.py:43-44 | Every text without a decimal digit gives the default |
| `Text.TrimIff` | src/transaction_platform/adapters/http_payment_network.py:39 | Trimming yields exactly the one cut whose ends are kept and outside which everything is dropped |
| `Decimal.Digits` | src/transaction_platform/application/idempotent_orchestrator.py:176 | The ten printed digits in order |
| `Decimal.NoLeadingZero` | src/transaction_platform/application/idempotent_orchestrator.py:176 | Printed numbers have no leading zero |
| `Schema.ValidIff` | src/transaction_platform/api/schemas.py:27-70 | The payloads a command can carry are exactly the results of validation and are left alone by it |
| `Schema.ValidateIff` | src/transaction_platform/api/schemas.py:27-70 | Exactly which requests are accepted and as what: names cut of surrounding white space to 1 to 128 characters, the token prefix, a positive amount, three capitals with or without a final newline |
| `Schema.TransactionChecksRefuse` | src/transaction_platform/infrastructure/models.py:35-68 | Each constraint on transactions keeps out the rows it is there to keep out |
| `Schema.RecordChecksRefuse` | src/transaction_platform/infrastructure/models.py:91-119 | Each constraint on records keeps out the rows it is there to keep out |
| `Lifecycle.Transaction.Create` | src/transaction_platform/domain/transaction.py:116-161 | Creation succeeds exactly for a non-blank id, a version of at least 0 and a matching status and pending pair |
| `Lifecycle.Transaction.TransitionTo` | src/transaction_platform/domain/transaction.py:183-223 | The new state is the one the table allows, and a rejected call raises the specified error and changes nothing |
| `Lifecycle.Transaction.MarkPendingReconciliation` | src/transaction_platform/domain/transaction.py:225-253 | As above for entering reconciliation, with exactly the operation that belongs to the state |
| `Lifecycle.Transaction.ResolveReconciliation` | src/transaction_platform/domain/transaction.py:255-292 | As above for leaving it; the pending operation is cleared |
| `Lifecycle.Transaction.IsTerminal` | src/transaction_platform/domain/transaction.py:179-181 | The answer is yes if and only if no operation will be accepted |
| `Lifecycle.TerminalIff` | src/transaction_platform/domain/transaction.py:47-51 | A state is terminal if and only if every operation on it is rejected |
| `LifecycleRuns.StutteringRefinement` | src/transaction_platform/domain/transaction.py:53-101 | In any run from a stable state, erasing the pending entries leaves a path of the ordinary transitions that ends in the state the pending operation names |
| `LifecycleRuns.ResolveIff` | src/transaction_platform/domain/transaction.py:77-101 | A pending operation can be resolved to exactly the ordinary successors of the state it was entered from and, unless it is the authorization, to that state |
| `LifecycleRuns.EntryIff` | src/transaction_platform/domain/transaction.py:71-75 | Reconciliation is entered exactly from the states that have a successor, each with its own operation |
| `LifecycleRuns.BothWays` | src/transaction_platform/domain/transaction.py:183-292 | Every ordinary move can be made directly, for one version, and through reconciliation, for two |
| `LifecycleRuns.NewRuns` | src/transaction_platform/domain/transaction.py:53-58 | A new transaction can be declined and can fail, directly and through reconciliation |
| `LifecycleRuns.DirectRefund` | src/transaction_platform/domain/transaction.py:59-64 | The run to a refund by direct transitions |
| `LifecycleRuns.ReconciledRefund` | src/transaction_platform/domain/transaction.py:71-100 | The run to a refund with every step reconciled |
| `LifecycleRuns.Accounting` | src/transaction_platform/domain/transaction.py:221-292 | Exact accounting over any run: version gain is direct advances plus twice the reconciled advances plus twice the reverts plus the pending bit; level gain is the number of advances |
| `LifecycleRuns.LevelNeverFalls` | src/transaction_platform/domain/transaction.py:53-101 | The stable level never falls between any two points of a run |
| `LifecycleRuns.EffectsInOrder` | src/transaction_platform/domain/transaction.py:53-101 | From any well-formed state the effects of a run are a path of the ordinary transitions, from the stable state it starts in to the one it ends in, one level at a time |
| `LifecycleRuns.NewEffects` | src/transaction_platform/domain/transaction.py:53-101 | A new transaction is authorized, captured and refunded in this order, as far as it gets and each at most once, or declined, or failed, and nothing else |
| `LifecycleRuns.VersionBound` | src/transaction_platform/domain/transaction.py:221-292 | A new transaction never has a version above 6 plus twice its reverts |
| `LifecycleRuns.VersionBoundTight` | src/transaction_platform/domain/transaction.py:90-100 | For every number of reverts there is a run that reaches that bound |

## Where the code and an expectation differ

* A longer delay in a Retry-After header should not lead to a shorter wait.  `parse_retry_after` does not guarantee it:
  Python's `int` raises `ValueError` for more than 4300 digits, and the result is then the default of one second.
  `RetryAfter.NotMonotone` is the witness and `RetryAfter.MonotoneIff` the exact condition.
* A validated request should be one the tables can hold.  The schema bounds the amount from below only; `^[A-Z]{3}$`
  also accepts a currency with a final newline, which the three-character column refuses; and U+0000 inside a
  transaction or merchant id is neither white space nor too long, but no PostgreSQL character type holds it.
  `Columns.UnholdableWitnesses`, `Columns.NewlineDoesNotFit` and `Columns.NulDoesNotFit` are the witnesses,
  `Columns.FitsIff` the exact condition, and `Answers.UnfitIsRefused` what such a request can meet with in any run.
* An approval by the network should be stored.  One whose reference or code has more than 128 characters, or contains
  U+0000, is not: `Columns.OverlongWitness` is the witness, `Columns.CompletedIff` with `Columns.KeepableIff` the exact
  condition, and by `Replies.UnkeepableNeverCompletes` the key then stays in progress in every run.

## Left out

- Abandoned records: recovery and a reconciliation worker do not exist in the repository (README.md:129-130); the model shows that such records block further calls, and no more.
- FastAPI routes, middleware, dependency providers, correlation ids and the rendering of error documents: plumbing; a persistence error is the 500 reply.
- The HTTPX transport and its timeouts: the outcome of a call is any of timeout, transport error and response, chosen by the environment; any other exception is a crash of the request.
- SQLAlchemy, asyncpg and PostgreSQL internals: the machine keeps committed tables, private writes, waiting, violation and rollback; timestamps and indexes have no behaviour here, and a lost connection releases its rows at once.
- Unbounded waiting: a request that waits may wait as long as the holder of the row is not scheduled; freedom from deadlock and the bound on a request's own steps are proved, fairness is not modelled.
- Lone surrogates: strings are sequences of Unicode scalar values.
- Python's limit of 4300 digits when integers are printed or parsed as JSON: the limit is modelled in `RetryAfter` only; amounts are of any size in `CanonicalJson`.
- JSON bodies: the model keeps the fields of an object as a map; the order of keys and the byte form of a replay are not part of it.
- Trailing blanks beyond the length of a column, which PostgreSQL cuts off instead of refusing: no value that reaches the tables through the orchestrator ends in a blank, and in a direct call of `complete` the model has the statement fail.
- Parameters of the WHERE clauses: an id with U+0000 given to a direct call of `complete` fails in the first statement; the model has it match no row, which leaves the tables alone in the same way but names another error.
- Header names beyond ASCII: no non-ASCII letter lower-cases to a letter of `retry-after`, so the comparison is on ASCII letters.
- A completed record without its status code or body: the check constraint rules it out (`Safety.ChecksHold`), the model answers it with a persistence error, and the code would fail in a comparison or hand out an empty body.
- Run-time type checks and the defensive branches behind them: the types settle them.
- The emulator, settings, the Alembic scripts (they repeat the table definitions) and field-name sanitising: little state.
- Coordinator.SqlCoordinator.Reserve: one request with the database to itself, where the re-query cannot find the key; that branch is in `Protocol.DoRequeryKey`; concurrent runs are proved on values because they interleave statements of different sessions, and `Alone.AloneIsHandled` ties the two models together.
- Coordinator.HandleAuthorization: states the reply on a working database; failing statements are in the two methods it calls and in `Protocol`, and a transaction the domain refuses to create, which validated requests rule out, is answered like a persistence error.
- Safety.RefusalIsExact: says nothing about a request refused for its transaction id; `Safety.ConflictIsSound` does.
- Store.InsertMeetsChecks: assumes the rows fit the columns, because otherwise the statement fails before any constraint is looked at.
