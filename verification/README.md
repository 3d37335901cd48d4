# HookGuard: a verified model of admission, queue and decision

HookGuard accepts signed payment events over HTTP, puts each accepted event into a Redis stream, and has any
number of risk workers score the entries and publish one decision for each. Two Lua scripts hold this together:
the gateway's admission script and the worker's completion script. Each of them checks a marker key with a
retention time, sets it, appends to a stream, and takes the marker back when the append fails. Everything else
may go wrong at any point: replies are lost, pipelines stop half way, workers crash, entries are handed to a
second worker while the first still holds them, and markers expire.

The project models this as one state machine over the shared Redis state and proves what holds in every state any
interleaving can reach. Underneath it proves the contract between the Go gateway and the Rust worker on what an
event is, and on top of it that one undisturbed worker clears any backlog, with the exact number of rounds.

## Layout

| file | content |
|---|---|
| `Wrappers`, `Decimal`, `Ordered` | option and result, decimal text, reading a set of identifiers in order |
| `Json`, `Event`, `Ingress`, `Canonical` | tokens and text, the ten-field event, the gateway's decoder, canonical bytes and the worker's parser |
| `Scoring` | features, linear score, calibration, threshold, over exact reals |
| `Keys` | marker key families, identifier text, stream names |
| `Protocol` | shared state, both scripts and the group commands as functions, steps and runs |
| `Ledger`, `Refinement` | a system without markers, ownership or cursor, and the proof that the protocol refines it |
| `Deployment` | the configuration with the real codec and score meets what the protocol assumes |
| `Commands` | what each script and command does, said of the states before and after it with keys, times and limits spelled out |
| `Safety`, `OwnDecision`, `Lease`, `Batches` | what holds of all runs: loss, repetition, conflicts, retention, leases, repeated and reordered batches |
| `Cycle`, `Recovery` | the worker's loop as a function of what the network, the clock and everybody else do, and how it drains a backlog |
| `Fleets`, `Counting` | any number of workers at once, their commands and scripts interleaved one by one; what their counters add up to and how often an entry is finished |
| `Store`, `Workers`, `Gateways` | the objects that are updated in place: Redis, the worker, the admitter and the handler, each method tied to a function above |

`Protocol.Step` has one case for each atomic thing anybody can do. `Complete(ticket, fault)` runs the completion
script for any delivery that was ever made, at any later time and any number of times; this covers crashed, slow
and stale workers, abandoned pipelines and lost replies, so that worker memory is no part of the state. The
workers themselves are modelled in two ways. `Cycle.Round` and the class `Workers.Worker` are the loop as it is
written, with arbitrary steps of anybody else, the passing of time included, between any two of its commands and
scripts. `Fleets.Fleet` holds the memories and places in the loop of any number of workers, which move one command
or script at a time. `Fleets.RoundSchedule` shows that the loop is a schedule of a fleet, and `Fleets.FleetIsRun`
that whatever a fleet does is a run of the protocol's steps.

The `Ledger` decides what counts as a repeat by looking at its logs; the protocol decides it by markers that
expire. `Refinement.StepRefines` is the forward simulation between the two, and the safety results are read off
the ledger.

## What the model shows about the code

* Accepted events are not lost, and two decisions for one event id are at least the worker's retention time apart.
* An accepted event need not get a decision of its own. A completion marker outlives the entry it was set for, so
  a later event admitted under the same id can be completed as a repeat without being scored. If every entry is
  handled within d milliseconds and only gateways write to the stream, this is impossible exactly when the gateway's
  retention time is at least the worker's plus d (`OwnDecision.NeverSwallowsExactly`). A readable entry that no
  gateway wrote swallows a later event under its id whatever the two times are (`OwnDecision.ForgedSwallows`). Both services read the same environment setting, so the two
  times are equal when they are deployed alike, and the condition then fails for every d > 0 (`OwnDecision.EqualWindowsSwallow`).
* The startup check that the two stream names differ does not keep the key space apart: input `risk:dead` with
  result `risk` makes the dead-letter stream the input stream (`Keys.CheckedNamesMayCollide`).
  `Keys.NamesSafeExactly` gives a check on the two names that does.
* The two parsers differ on two things (`Canonical.ParsersDifferExactly`). A zero written as `-0` is accepted by the
  gateway, while serde_json takes it for a floating-point number; canonical re-encoding keeps that harmless
  (`Canonical.WorkerReadsCanonical`). And a top-level array of the ten values in the order of the struct is refused
  by the gateway, while the worker's derived parser scores it like the event (`Canonical.ArrayIsScored`); only an
  entry that no gateway wrote can carry one.
* When two entries share an event id, the order in which workers reach Redis decides which one is scored, and it
  is irrelevant exactly when both would publish the same line (`Batches.SharedKeyOrder`).
* The queue limit bounds admitted work. It bounds the stream length as long as only the gateway writes to the
  stream (`Safety.AdmittedWorkBounded`).

## Assumptions

* Redis keeps its data and evicts nothing (docker-compose.yml:4).
* The input key holds a stream or nothing, and the stream names are distinct and clear of the marker families, in
  the sense of `Keys.NamesSafe`.
* A key is visible while the clock is before its expiry; expiry is a whole number of seconds after SET.
* Stream identifiers are the 128-bit numbers behind `ms-seq`; XADD gives the clock, or one past the last
  identifier when the clock is not ahead of it.
* The digest is injective, and the signature check and the sigmoid are parameters; of the sigmoid only that it is
  strictly increasing.
* serde_json reads the literal `-0` as a float and therefore refuses it for an integer field.
* A derived Deserialize reads a struct from an object or from an array of its fields in order.
* The clock never runs backwards, and all of Redis and the workers see the same one.
* Strings are byte strings, one character a byte.

## Model

| member | source | states |
|---|---|---|
| Json.MembersIffRender | apps/gateway/internal/model/event.go:70-102 | a token list is one object without trailing input exactly when it is the one rendering of its members |
| Json.LexSpaced | apps/gateway/internal/model/event.go:70-102 | insignificant whitespace anywhere between tokens leaves the tokens read unchanged |
| Ingress.UniqueFields | apps/gateway/internal/model/event.go:70-102 | the loop over the decoder succeeds exactly for one flat object with no key twice and nothing after it, and then returns its fields |
| Ingress.CheckRanges | apps/gateway/internal/model/event.go:42-65 | the early-return checks report the first failing range check, or none |
| Ingress.Decode | apps/gateway/internal/model/event.go:24-66 | outcome and error of decoding, in the order required, count, type, range |
| Ingress.DecodeErrors | apps/gateway/internal/model/event.go:26-41 | which document gets which refusal: not one object with distinct keys, the first field that is absent or null, more than ten fields, a field of the wrong type or width |
| Ingress.RangeErrors | apps/gateway/internal/model/event.go:42-64 | each range error is reported exactly for events that break that range and none checked before it |
| Ingress.GatewayAcceptsExactly | apps/gateway/internal/model/event.go:24-66 | a document is accepted as e exactly when e is valid and the members are a permutation of e's canonical ones, -0 standing for 0 |
| Json.ElementsIffRender | apps/risk-worker/src/main.rs:321-325 | a token list is one array exactly when it is the one rendering of its elements |
| Canonical.WorkerAcceptsExactly | apps/risk-worker/src/main.rs:321-325 | the worker reads a document as e exactly when e is valid and the document is an object whose members are a permutation of e's canonical ones, or the array of e's ten values in order |
| Canonical.ArrayIsScored | apps/risk-worker/src/model.rs:4-17 | the array of a valid event's values, however spaced, is read by the worker as that event and refused by the gateway |
| Ingress.CheckIffWorkerValid | apps/risk-worker/src/model.rs:20-37 | the gateway's range checks and the worker's validity test accept the same events |
| Canonical.ParsersDifferExactly | apps/gateway/internal/server/server.go:93-95 | of the documents the gateway accepts, the worker would refuse exactly those with a -0 and read the others as the same event; of those the worker accepts, the gateway refuses exactly the arrays |
| Canonical.OrderIrrelevant | apps/gateway/internal/model/event.go:24-102 | permuting the members changes nothing about the outcome, errors included |
| Canonical.LayoutReadsBack | apps/gateway/internal/server/server.go:95 | a flat object written out with any whitespace is read back to the same members |
| Canonical.WorkerReadsCanonical | apps/gateway/internal/server/server.go:93-102 | the worker reads from the canonical bytes exactly the event the gateway decoded |
| Canonical.MarshalShows | apps/gateway/internal/model/event.go:10-21 | the canonical payload character by character: field names, their order, quotes and punctuation |
| Canonical.MarshalInjective | apps/gateway/internal/server/server.go:93-102 | canonical bytes are equal exactly when all ten fields are |
| Canonical.FormattingIrrelevant | apps/gateway/internal/model/event.go:24-66 | however a valid event's members are ordered and spaced, the gateway decodes that event |
| Deployment.DeployedMeetsContract | apps/risk-worker/src/main.rs:321-346 | the real codec round-trips every event the gateway admits, and the worker accepts valid events only |
| Deployment.PublishedScores | apps/risk-worker/src/main.rs:321-346 | end to end: each decision published for an entry that a gateway appended is the embedded model's score of the event whose canonical bytes the entry carries |
| Scoring.VerdictExactly | apps/risk-worker/src/model.rs:116-121 | an event is risky exactly when its score reaches the threshold, and the decision names the event and the model |
| Scoring.ScoreWithinLimits | apps/risk-worker/src/model.rs:90-115 | within the clipping limits the score is the sigmoid of the weighted sum with every unit spelled out, night being 23 to 5 |
| Scoring.EmbeddedVerdicts | apps/risk-worker/src/model.rs:126-149 | the embedded model clears a small daytime card payment and flags it with a large amount and five declines |
| Scoring.EmbeddedResponse | apps/risk-worker/model/model.json:14-25 | the embedded model's answer to one event and to one change of each of its features, to six decimals |
| Scoring.ScoreFollowsRisk | apps/risk-worker/src/model.rs:90-122 | with no negative weight on a count, more amount, velocity or declines never lowers the score or clears a risky verdict, and raises the score exactly if a count that carries weight changes within the clipping limits |
| Scoring.FollowsRiskExactly | apps/risk-worker/src/model.rs:106-122 | with a positive slope the score follows the risk on all valid events exactly for the models in which no count has a negative weight |
| Scoring.SaturatedAlike | apps/risk-worker/src/model.rs:90-122 | events that agree once clipped get the same score and verdict |
| Scoring.EmbeddedModelIsUpward | apps/risk-worker/model/model.json:14-26 | the embedded artifact is such a model, all its weights are positive and its threshold is 0.474 |
| Keys.FamiliesInjective | apps/gateway/internal/admission/redis.go:55 | within a marker family, different ids have different keys |
| Keys.FamiliesDisjoint | apps/risk-worker/src/main.rs:326-346 | no key belongs to two marker families, whatever colons the ids contain |
| Keys.IdTextInjective | apps/risk-worker/src/main.rs:343-345 | the text of a stream identifier determines it |
| Keys.IdTextShows | apps/risk-worker/src/main.rs:343-345 | the text of an identifier is its milliseconds, a hyphen and its sequence number |
| Keys.KeyTexts | apps/gateway/internal/admission/redis.go:55 | the marker keys and the dead-letter stream name as they appear in Redis |
| Keys.NamesSafeExactly | apps/risk-worker/src/main.rs:112-114 | a check on the two stream names that holds exactly when no stream shares a name with another or with a marker |
| Keys.CheckedNamesMayCollide | apps/gateway/internal/config/config.go:48-50 | names that pass the startup check and collide |
| Commands.AdmitReplies | apps/gateway/internal/admission/redis.go:31-45 | each reply of the admission script, exactly when it is given, and that nothing but an admission changes anything |
| Commands.AdmitAdds | apps/gateway/internal/admission/redis.go:38-44 | an admission names the new identifier under which its entry now is, at or after the clock, and sets the marker for the configured seconds |
| Commands.AskSays | apps/risk-worker/src/main.rs:326-346 | key, event id and body of a completion request, for a readable entry and for a dead letter |
| Commands.FinishReplies | apps/risk-worker/src/main.rs:52-71 | each code of the completion script, exactly when it is given |
| Commands.FinishPublishes | apps/risk-worker/src/main.rs:57-66 | the entry taken out, the key marked for the configured seconds and the line published, at the first completion only |
| Commands.RejectionsSay | apps/risk-worker/src/main.rs:339-346 | every line of the dead-letter stream carries the identifier of its entry and the event id that entry claims, or the identifier again |
| Commands.DecisionsSay | apps/risk-worker/src/main.rs:327-338 | every line of the decision stream is the score of the event in the entry it came from |
| Commands.ReadExactly | apps/risk-worker/src/main.rs:253-265 | a read hands over the lowest entries above the group's position, as many as asked for or all, to this owner and now, and moves the position |
| Commands.ClaimExactly | apps/risk-worker/src/main.rs:236-245 | a claim hands over exactly the idle ones of the entries it looks at, and where it stops and leaves the cursor |
| Ledger.DoKeeps | apps/risk-worker/src/main.rs:52-71 | every deed of the marker-free system keeps spacing, balance, authenticity, the bound, and that nothing leaves undecided |
| Refinement.NextAgrees | apps/risk-worker/src/main.rs:57-63 | under every step, the live markers stay exactly what the logs call recent, values and expiry included |
| Refinement.NextConserves | apps/risk-worker/src/main.rs:65-66 | under every step, the pending list stays the part of the stream at or below the last delivered identifier |
| Refinement.StepRefines | apps/gateway/internal/admission/redis.go:31-45 | forward simulation: every step of anybody is one deed of the ledger or a stutter |
| Refinement.RunRefines | apps/risk-worker/src/main.rs:230-300 | every run of gateways, workers, clock and faults does what the ledger does, and keeps the coupling |
| Safety.LiveUnexpired | apps/risk-worker/src/main.rs:61 | in every reachable state only keys that have not expired are visible |
| Safety.NoAcceptedEventLost | apps/risk-worker/src/main.rs:52-71 | an accepted entry is unchanged in the stream, or left it when a decision for its id was at most the worker window old |
| Safety.OneDecisionPerWindow | apps/risk-worker/src/main.rs:52-71 | two decisions for one event id are at least the worker window apart |
| Safety.OneAdmissionPerWindow | apps/gateway/internal/admission/redis.go:31-45 | two admissions of one event id are at least the admission window apart |
| Safety.AdmittedNeverDeadLettered | apps/risk-worker/src/main.rs:339-346 | the dead-letter stream holds only entries that admission did not append |
| Safety.AdmittedWorkBounded | apps/gateway/internal/admission/redis.go:37 | admitted unfinished work never exceeds the limit, nor does the stream when only gateways write to it |
| Safety.StreamIsUnfinishedWork | apps/risk-worker/src/main.rs:65-66 | the stream is the disjoint union of undelivered and pending entries, and with the removed ones it is all that was appended |
| Safety.GroupNeverReset | apps/risk-worker/src/main.rs:204-228 | once created, the group's position only advances, and creating the group again changes nothing |
| Safety.RetryAnswered | apps/gateway/internal/admission/redis.go:32-36 | within the window a submission under the id of an accepted event changes nothing and is a duplicate exactly when all ten fields agree, a conflict otherwise, even with a full queue or failing Redis |
| Safety.RetryAnsweredThroughout | apps/gateway/internal/server/server.go:100-117 | from acceptance on, through every run inside the window, a retry is a duplicate and adds nothing |
| Safety.AcceptedExactly | apps/gateway/internal/admission/redis.go:31-45 | an event is newly accepted exactly when its id was not admitted within the window, the queue has room and no command fails |
| Safety.DeadLettersDoNotInterfere | apps/risk-worker/src/main.rs:326-346 | dead-lettering leaves every event's markers with value and expiry, every decision and every other entry as they were; completing an event leaves every rejection marker, idempotency marker, other event's marker and other entry |
| OwnDecision.PublishesOwnExactly | apps/risk-worker/src/main.rs:52-71 | a completion publishes the entry's own decision exactly when its id has none within the window, and removes the entry either way |
| OwnDecision.RememberedLongEnough | apps/gateway/internal/admission/redis.go:38 | with the gateway remembering d longer than the workers, every finished entry has a decision computed from it |
| OwnDecision.DecidedExactlyOnce | apps/risk-worker/src/main.rs:52-71 | exactly once: when only gateways write, ids are remembered long enough and workers keep to the reclaim time, every finished entry has one decision computed from it and one only |
| OwnDecision.NeverSwallowsExactly | apps/risk-worker/src/main.rs:57-67 | no accepted event is finished without its own decision, in all runs in which only gateways write and each entry is handled within d, exactly when worker window + d <= admission window |
| OwnDecision.EqualWindowsSwallow | apps/risk-worker/src/main.rs:108 | with one retention setting for both services and any delay, an accepted event can go unscored |
| OwnDecision.ForgedSwallows | apps/risk-worker/src/main.rs:57-67 | whatever the two windows, an event accepted after a readable foreign entry under its id can be completed at once and never be scored |
| Lease.LeaseExclusive | apps/risk-worker/src/main.rs:235-252 | an entry is delivered again only a full reclaim time after each earlier delivery |
| Lease.FinishedFromOneDelivery | apps/risk-worker/src/main.rs:235-268 | if completions run within the reclaim time, no entry is finished from two deliveries |
| Lease.DecidedOncePerEntry | apps/risk-worker/src/main.rs:52-71 | if workers finish within the reclaim time, no entry is ever decided twice |
| Batches.LostReplyHarmless | apps/risk-worker/src/main.rs:314-362 | a prefix of a batch and then the whole batch again within the window leaves the stream, pending list, markers and log lines of sending it once |
| Batches.OrderIsIrrelevant | apps/risk-worker/src/main.rs:347-362 | any orders, timings and repetitions of the same scripts within the window leave the same stream and pending list, and log lines that agree on whatever one key determines |
| Batches.DecidedEventsConfluent | apps/risk-worker/src/main.rs:52-71 | which events are decided or rejected, and how often, does not depend on the order |
| Batches.DecisionsConfluent | apps/risk-worker/src/main.rs:52-71 | when no two entries share a key, the decisions themselves do not depend on it either |
| Batches.SharedKeyOrder | apps/risk-worker/src/main.rs:326-338 | two scripts for one event id leave the same stream and pending list in either order, and the same log lines exactly when they would publish the same one |
| Batches.MovesAreSteps | apps/risk-worker/src/main.rs:347-362 | the schedules compared above are runs of the protocol |
| Cycle.BatchAccounted | apps/risk-worker/src/main.rs:361-377 | in an answered batch decisions, duplicates, dead letters and failures add up to the batch |
| Cycle.PipelineRuns | apps/risk-worker/src/main.rs:318-362 | an answered pipeline ran completely and is counted; of any other exactly a prefix ran, and nothing is counted |
| Cycle.RepliesCount | apps/risk-worker/src/main.rs:364-377 | which counter each reply of the completion script adds to |
| Cycle.BatchSucceedsExactly | apps/risk-worker/src/main.rs:362-384 | processing a batch succeeds exactly when it is empty, or answered without a negative code |
| Cycle.ClaimRoundExactly | apps/risk-worker/src/main.rs:235-252 | no claim until a second after the last; cursor and reclaimed count move with the answer, the time of the last claim only once the batch went well |
| Cycle.ReadRoundExactly | apps/risk-worker/src/main.rs:253-268 | the reading part leaves cursor, claim time and readiness alone, and does nothing without a group |
| Cycle.RoundReports | apps/risk-worker/src/main.rs:271-296 | whatever happens around it, a round leaves the worker ready exactly after success, counts one error otherwise and has the group recreated, and reads nothing when its claiming part failed |
| Fleets.FreshStarts | apps/risk-worker/src/main.rs:231-232 | a worker starts at 0-0 with nothing counted and its first claim due at once |
| Fleets.FleetIsRun | apps/risk-worker/src/main.rs:230-300 | any number of workers, interleaved command by command and script by script with each other and with anything else, crashes and restarts included, do a run of atomic steps |
| Fleets.RoundSchedule | apps/risk-worker/src/main.rs:234-297 | a round of the loop is what a worker of a fleet does when it moves in order and everybody else does what surrounds the round |
| Fleets.RoundsSchedule | apps/risk-worker/src/main.rs:230-300 | and so is the whole loop |
| Fleets.RoundIsRun | apps/risk-worker/src/main.rs:230-300 | whatever the network, the clock and everybody else do within it, a round of the loop is a run of atomic steps |
| Fleets.RoundsStayLive | apps/risk-worker/src/main.rs:230-300 | any series of such rounds keeps the store in a reachable state |
| Counting.CountersFollowLogs | apps/risk-worker/src/main.rs:361-377 | the decision and dead-letter counters of all workers, summed, grow by at most what the two streams grow by, in every interleaving, and by exactly that when every reply is heard |
| Counting.HeldTwice | apps/risk-worker/src/main.rs:235-268 | an entry is in the batches of two workers of a fleet only if the later delivery came a full reclaim time after the earlier |
| Counting.DeliveryFinishedOnce | apps/risk-worker/src/main.rs:314-362 | a fleet never finishes one delivery twice, not even when scripts of an abandoned pipeline arrive late |
| Counting.EntryFinishedOnce | apps/risk-worker/src/main.rs:235-268 | when its workers' scripts run within the reclaim time, a fleet never finishes one entry twice, however often it is delivered |
| Recovery.BatchCountIsCeiling | apps/risk-worker/src/main.rs:243 | the number of batches of b that n entries need is n / b rounded up |
| Recovery.ScanAllIdle | apps/risk-worker/src/main.rs:236-246 | with everything idle, a claim takes the lowest entries from the cursor and leaves the cursor at the next one, or wrapped |
| Recovery.CalmRound | apps/risk-worker/src/main.rs:234-270 | an undisturbed round, however long its commands and scripts take, takes one off the claims needed when a claim is due, and a batch off the undelivered entries |
| Recovery.CalmClaimTakes | apps/risk-worker/src/main.rs:235-252 | an undisturbed claiming part does nothing until a second after the last claim, and then takes out exactly the idle entries from the cursor up to where it stops |
| Recovery.ClaimsNeededBound | apps/risk-worker/src/main.rs:235-252 | the claims needed from any cursor are at most one more than the pending batches, and none exactly when nothing is pending |
| Recovery.SlowRoundsAllDue | apps/risk-worker/src/main.rs:235-251 | undisturbed rounds at least a second apart all find a claim due, however long each of them takes |
| Recovery.DrainsExactly | apps/risk-worker/src/main.rs:230-268 | undisturbed rounds, with any delays between and within them, empty the stream exactly when those that find a claim due cover the claims needed and all cover the undelivered entries |
| Recovery.DrainsByPauses | apps/risk-worker/src/main.rs:230-268 | the same for rounds that take no time, with the number of due claims read off the pauses |
| Recovery.RecoversFromAnything | apps/risk-worker/src/main.rs:246-296 | after any past and from any cursor, 1 + ceil(p/b) or ceil(u/b) undisturbed rounds, whichever is more, empty the stream, however long they take |
| Store.Redis.CreateGroup | apps/risk-worker/src/main.rs:213-228 | creates the group at 0, or answers busy and changes nothing |
| Store.Redis.ReadNew | apps/risk-worker/src/main.rs:253-265 | hands over the lowest undelivered entries and advances the group; the error without a group changes nothing |
| Store.Redis.ClaimIdle | apps/risk-worker/src/main.rs:236-245 | the scan from the cursor over a bounded number of pending entries, the idle ones handed over, and the next cursor |
| Store.Redis.AdmitScript | apps/gateway/internal/admission/redis.go:31-45 | the script command by command has the reply and effect of the specification, and a failed append leaves everything as before |
| Store.Redis.AckAndDelete | apps/risk-worker/src/main.rs:65-66 | takes the entry out of pending list and stream |
| Store.Redis.FinishScript | apps/risk-worker/src/main.rs:52-71 | the script command by command has the code and effect of the specification, and a negative code means nothing changed |
| Workers.Worker.constructor | apps/risk-worker/src/main.rs:230-232 | the cursor starts at 0-0, nothing is counted, and the first claim is due |
| Workers.Worker.Count | apps/risk-worker/src/main.rs:363-377 | the counters grow by what the replies say, and failure is reported exactly when some reply was negative |
| Workers.Worker.Prepare | apps/risk-worker/src/main.rs:320-360 | one completion request for each entry in order, and which of them are dead letters |
| Workers.Worker.ProcessBatch | apps/risk-worker/src/main.rs:314-385 | effect on Redis and counters for a batch of which any prefix may run and whose reply may be lost, with anything else happening between its scripts |
| Workers.Worker.ClaimRound | apps/risk-worker/src/main.rs:235-252 | the cursor moves before the batch is processed, the claim clock only after it succeeded |
| Workers.Worker.ReadRound | apps/risk-worker/src/main.rs:253-268 | the reading part of a round |
| Workers.Worker.RunCycle | apps/risk-worker/src/main.rs:234-297 | one turn of the loop with its failure branch, with anything else happening between its commands |
| Workers.Worker.Consume | apps/risk-worker/src/main.rs:230-300 | the loop until it is told to stop, with anything else happening before each turn, not ready afterwards |
| Gateways.RedisAdmitter.Admit | apps/gateway/internal/admission/redis.go:53-83 | the script's codes become accepted, duplicate, conflict, full or unavailable; a lost reply is unavailable although the script ran |
| Gateways.App.AdmitEvent | apps/gateway/internal/server/server.go:93-117 | answer, store and counters of a submission |
| Gateways.App.HandleEvent | apps/gateway/internal/server/server.go:69-118 | the step order body, signature, decoding, admission, status, and what each early return leaves unchanged |
| Gateways.OnlyAuthenticChanges | apps/gateway/internal/server/server.go:83-102 | a request that changes anything was signed, the very bytes that were signed decode to a valid event, and it amounts to one submission step |
| Gateways.RefusedExactly | apps/gateway/internal/server/server.go:73-91 | 413, 401 and 400, each exactly for its cause, with nothing else in the answer and the store as before |
| Gateways.UnansweredRetries | apps/gateway/internal/server/server.go:102-112 | a submission without an answer is a 503 to be retried, whether or not the script ran |
| Gateways.HandlingStaysLive | apps/gateway/internal/server/server.go:69-118 | handling any request keeps the store in a reachable state |
| Gateways.AcceptedExactlyWhenBacked | apps/gateway/internal/server/server.go:102-117 | 202 is answered exactly when the reply arrived, the request was authentic, and its event is remembered with this payload and was appended with it less than the window ago |
| Gateways.AnswersExactly | apps/gateway/internal/server/server.go:102-117 | which of 202, 202 duplicate, 409 and 503 an authentic request gets, in terms of what was admitted before |
| Gateways.ReformattedAlike | apps/gateway/internal/server/server.go:93-102 | signed requests whose documents hold the same members in any order are handled alike |
| Gateways.LaidOutAlike | apps/gateway/internal/server/server.go:83-102 | on the bytes of the bodies: whatever the order of the members and the insignificant whitespace, signed requests with the same members are handled alike |

## Left out

- Canonical.WorkerAcceptsExactly: covers flat objects and arrays without escapes; escapes in strings, fractions, exponents and nested values are read as text outside the lexer or as one token that no field accepts. The case-insensitive field matching of Go's decoder cannot occur, since exactly the ten required names pass.
- Ingress.Decode: works on the decoder's tokens, a nested value being one token.
- Canonical.ParsersDifferExactly: rests on the two assumptions about serde stated above; the Rust libraries are not part of this model.
- Store.Redis.AddOutput: does not trim; MAXLEN ~ 1000000 on the two output streams only drops old lines, and history properties are about the complete logs.
- Store.Redis.ClaimIdle: the branch of XAUTOCLAIM for pending identifiers that are no longer in the stream never arises, because the two scripts remove from both (`Safety.StreamIsUnfinishedWork`).
- Scoring.ScoreFollowsRisk: exact reals instead of doubles, and the sigmoid as any strictly increasing function; rounding is not modelled.
- Scoring.EmbeddedModelIsUpward: the checks of schema, feature version and feature names at load time are not modelled.
- Lease.FinishedFromOneDelivery: does not bound how often one delivery is completed, because `Protocol.Step` allows any repetition; `Counting.EntryFinishedOnce` does for workers that send each script once, and `Batches.LostReplyHarmless` is about a pipeline that is sent again.
- Recovery.RecoversFromAnything: undisturbed means that nobody else acts; time may pass anywhere.
- Deployment.DeployedMeetsContract: the decode it is about reads text without escapes only, as said for `Canonical.WorkerAcceptsExactly`.
- Fleets.RoundIsRun: the check whether a claim is due and the claim itself are one moment, since being due does not pass; XREADGROUP's blocking wait is part of what happens before the read.
- Workers.Worker.Count: negative replies are counted in a ghost field, where apps/risk-worker/src/main.rs logs them.
- Gateways.RedisAdmitter.Admit: a client-side retry of the script is a second call; malformed replies of Redis are not modelled.
- Gateways.App.HandleEvent: request duration, response headers other than the two named in the response, and error texts are not modelled.
- HTTP serving, time limits as wall-clock time, connection pools, reconnecting and shutdown: present only as a command that is not sent, a reply that is lost, or a worker that stops.
- Loss of persisted data and eviction: excluded by assumption.
- SHA-256 and HMAC internals: parameters.
- Environment parsing apart from the name check, metrics text, health, readiness and score endpoints, the operator page: no hard properties.
- The offline prediction mode and the Python tools for data, training and load: would only add easy members.
