# Verified model of the mailing backend

The program keeps a list of newsletter subscribers with double opt-in, queues their mails in a database table, and
delivers them with a pool of worker loops. This project models the parts whose correctness depends on many steps
together, and proves what they guarantee over whole runs.

* **The notification queue** (`NotificationQueries`, `QueueProtocol`). The tables `notifications` and `email_log`, the
  worker loops, the mail provider and the clock form one transition system. A step is one atomic action; a claim is two
  steps, the locking read and the committed update, so that `SKIP LOCKED` has something to do. `QueueInvariant` proves
  the global invariant; `QueueTheorems`, `DailyCap`, `CapTightness`, `QueueProgress`, `DrainTightness`, `QueueTiming` and
  `BackoffSafety` hold results on the tables, `QueueDelivery`, `QueueVolume` and `MailVolume` on the mails that really go
  out. `QueueRuns` holds witness runs.
* **The worker loop** (`Worker`). The loop as the program runs it, in place on the tables, with arbitrary steps of
  others before each of its actions. Every method is proved to take only steps of the protocol.
* **The opt-in flow** (`SubscriberQueries`, `OptInProtocol`). The subscriber table, the requests in flight and the queue
  as one transition system, with the statements of different requests interleaved. `OptInInvariant` proves the
  invariant and that the queue inside the flow is a queue of the queue protocol, so the queue's theorems carry over;
  `OptInTheorems`, `OptInThrottle` and `OptInOverlap` hold the results on runs, `OptInOutcomes` what each statement does
  exactly, `OptInRuns` witness runs; `OptInService` runs the handlers statement by statement.
* **The signed tokens** (`Base64Url`, `Tokens`), **the retry delay** (`Backoff`), **the admin cache** (`AdminCache`) and
  **the client address** (`ClientIp`).

Throughout, `Exec(c, s, tr)` is the state a run `tr` leads to (`Runs` has what is common to all runs), and
`Reachable(c, s)` says that some run from the empty start leads to `s`. Times are nanoseconds.

## Where the code and its documentation disagree

The model follows the code.

* Comments say that the lease makes an abandoned row available again (internal/notifications/worker.go:233-236,
  internal/db/dbq/notifications.sql.go:48-50). The claim only takes `pending` rows, so an abandoned `sending` row is
  never touched again: `QueueTheorems.FrozenForever`, `QueueTheorems.CrashOutcome`.
* The clamp at 30 is said to prevent overflow (internal/notifications/worker.go:351-353). It bounds the shift only; the
  product overflows from attempt 29 on and the loop panics. The worker is safe exactly for attempt limits up to 29:
  `BackoffSafety.SafeExactlyUpTo29`.
* docs/ENDPOINTS.md:41 calls the confirmation idempotent. A request is refused exactly if, at its lookup, its secret's
  hash is not the current one of the pending row it was stored for (`OptInTheorems.LookupFindsCurrent`), and once no row
  holds the hash that is so for ever (`OptInTheorems.SecretIsUsedUp`). A second request that looked up before the first
  one's update is answered "confirmed" too: `OptInRuns.SameTokenConfirmsTwice`.
* The confirmation answers "confirmed" without looking at the number of updated rows. Exactly if the row was
  unsubscribed since the lookup, nothing was confirmed: `OptInTheorems.ConfirmTakesEffect`, and
  `OptInRuns.ConfirmCanMiss` for a run where that happens.
* SECURITY.md:41 says unsubscribe tokens never expire; they expire, after a year by default
  (internal/subscribers/service.go:76-78, 487-491). `OptInTheorems.UnsubscribeLinkIsOwn` has the exact time.
* The throttle is described as a defence against repeated requests (internal/subscribers/service.go:130-135).
  `OptInOverlap.ThrottleExactly` has the exact condition under which it is one: at most one request in flight can still
  mail the address, and that one passed the throttle a window after every live mail. `OptInOverlap.BeginExactly` says
  what that means for a new request, `OptInOverlap.OverlapDefeatsThrottle` has a run that defeats every window.
* The idempotency key is said to prevent a second mail (internal/email/resend.go:97-99,
  internal/notifications/worker.go:235-236), and the provider to forget it after a while. Then at most one mail for each
  notification goes out in every run exactly if no notification is ever tried twice:
  `QueueDelivery.OneMailPerRowExactly`.
* The daily cap (internal/notifications/worker.go:30) counts rows marked as sent. The rows mailed in a day exceed its
  bound by those that nobody marked (`QueueVolume.DailyVolume`), and nothing bounds these
  (`QueueVolume.CapDoesNotBoundMails`). The mails are no more than these rows in every run exactly if the provider
  remembers a key for a day or more, or no notification is ever tried twice: `MailVolume.VolumeBoundedExactly`. Else one
  row can stand for several mails of a day: `MailVolume.OneMailTooMany`, `MailVolume.OneRowManyMails`.
* The admin cache is meant to let a revocation take effect promptly (internal/auth/middleware.go:22-24). The minute runs
  from when an answer is stored, not from when it was given, so the promise holds exactly if no request holds a positive
  answer that it has yet to store: `AdminCache.RevocationTakesEffect`.

## Assumptions

* A transaction is atomic, and an error means that it had no effect.
* Go and the database share one clock that never runs backwards. The `now()` of a transaction is a parameter that may
  lie before the moment its effect is seen, and within one request it does not run backwards.
* The provider accepts a request or not; one it accepts may look like a retryable failure to the worker
  (internal/email/resend.go:103-106, 129-131), never like a permanent one. It delivers an accepted request unless it
  remembers having delivered one with the same key.
* The transactions of one loop or request start after what it did before: the `now()` of a mark is not earlier than the
  verdict it records.
* The MAC is some function with 32-byte results; SHA-256 is some function; a new secret never has the hash of an earlier
  one; reading a row id back from its text gives the id.
* Addresses reach the tables already in lower case. All loops share one configuration, with the defaults of
  internal/notifications/worker.go:39-62 already applied.

## Model

| member | source | states |
|---|---|---|
| Backoff.DelayRange | internal/notifications/worker.go:358-367 | the delays that can be drawn are exactly those from the ideal doubling delay up to a quarter more, below 37.5 minutes, and there are none from attempt 29 on |
| Backoff.Backoff | internal/notifications/worker.go:354-368 | the clamped, wrapping int64 computation gives the ideal delay plus jitter, and panics exactly where the specification has no delay |
| Backoff.OverflowIsNegative | internal/notifications/worker.go:358-361 | after clamping at 29 or 30 the wrapped product is negative |
| Backoff.GrowsWhateverTheJitter | internal/notifications/worker.go:361-367 | delay i is below delay i+1 under every jitter if and only if i is at most 5 |
| BackoffSafety.SafeExactlyUpTo29 | internal/notifications/worker.go:171-172 | no reachable worker can panic computing a delay if and only if the attempt limit is at most 29 |
| NotificationQueries.SelectDue | internal/db/dbq/notifications.sql.go:14-24 | taking the earliest unlocked due row repeatedly yields an admissible selection: distinct due rows, at most the limit, none earlier left out |
| QueueTheorems.ClaimTakesRows | internal/db/dbq/notifications.sql.go:25-32 | a claim takes exactly the rows it locked, still pending and due when it commits, leases them for the configured time, counts an attempt, puts them into its own loop's hands, and changes no other row |
| QueueInvariant.ReachableInv | internal/notifications/worker.go:99-181 | every reachable state meets the global invariant: rows, calls, audit rows and loops agree, batches are disjoint and held rows are `sending` as claimed, sends plus unspent sends stay within the cap bound |
| DailyCap.DailyCapHolds | internal/notifications/worker.go:99-146 | with cap C and W loops at most C - 1 + 5 W rows are marked as sent in the day ending at any instant, past or present, although a mark may become visible later than its time; under every interleaving |
| DailyCap.LastDayCounts | internal/db/dbq/notifications.sql.go:89-95 | in every reachable state the query counts exactly the rows sent in the 24 hours that end now |
| DailyCap.CapTestExactly | internal/notifications/worker.go:99-119 | a loop passes the test if and only if there is no cap or fewer rows than the cap were sent in the 24 hours that end now |
| DailyCap.CapRecovers | internal/notifications/worker.go:97-98 | whatever has been sent, 24 hours later every idle loop passes the test |
| CapTightness.CapBoundIsReached | internal/notifications/worker.go:99-146 | for every cap and every W some run marks that many rows |
| QueueVolume.DailyVolume | internal/notifications/worker.go:99-169 | the rows for which the provider accepted a request in the last day exceed that bound by no more than those that nobody marked |
| QueueVolume.UncountedWasLost | internal/notifications/worker.go:163-180 | each of these had a reply that was lost, or was abandoned after the acceptance and before the mark |
| MailVolume.VolumeBoundedExactly | internal/email/resend.go:96-101 | in every reachable state the mails delivered in the last day exceed that bound by no more than the unmarked rows, if and only if the provider remembers a key for at least a day or the attempt limit is 1 |
| MailVolume.OneMailTooMany | internal/notifications/worker.go:163-180 | otherwise, for every cap and every W, some run marks every mailed row and delivers C + 5 W mails in a day |
| MailVolume.OneRowManyMails | internal/notifications/worker.go:163-180 | and with a memory below the shortest delay one marked row stands for k mails of a day, for every k up to the attempt limit and 29 |
| QueueVolume.CapDoesNotBoundMails | internal/notifications/worker.go:253-255 | for every cap and every k some run mails k rows in a day and marks none; all of them are abandoned |
| QueueTheorems.WritesHitOwnRow | internal/db/dbq/notifications.sql.go:205-278 | every mark by id alone hits a row that is still `sending` exactly as its writer claimed it and that no other loop holds |
| QueueTheorems.WriteSettlesRow | internal/notifications/worker.go:237-328 | a write ends the lease and the ownership of its row, keeps content and attempts, adds its first and only audit row exactly if the row is finished, and touches no other row or audit trail |
| QueueTheorems.FrozenForever | internal/db/dbq/notifications.sql.go:14-33 | terminal rows, and `sending` rows nobody holds, keep their content, audit rows and calls over every run |
| QueueTheorems.CrashOutcome | internal/notifications/worker.go:139-144 | losing a batch leaves claimed rows abandoned for ever, and makes merely locked rows claimable at once |
| QueueTheorems.AuditExact | internal/notifications/worker.go:237-311 | a finished row has exactly one audit row, with its own status and recipient; an unfinished one has none |
| QueueTheorems.AttemptCeiling | internal/notifications/worker.go:171-180 | attempts never exceed the limit, pending rows are below it, dead rows at it, and a lease sits on exactly the `sending` rows |
| QueueTheorems.CallsPerRow | internal/notifications/worker.go:148-169 | the provider is called at most once per attempt, under a key that only this row has, with its recipient and content; the worker is told of an acceptance at most once, exactly once for a sent row, and never for a pending, failed or dead one |
| QueueDelivery.DeliveriesApart | internal/email/resend.go:96-101 | two mails for one notification are at least the provider's memory of a key apart |
| QueueDelivery.OneMailPerRowExactly | internal/notifications/worker.go:191-219 | at most one mail for each notification goes out in every run if and only if the provider never forgets a key or the attempt limit is 1 |
| QueueDelivery.DeliveredSomething | internal/email/resend.go:96-101 | whether a notification is delivered at all does not depend on what the provider remembers |
| QueueDelivery.ArrivedExactly | internal/notifications/worker.go:163-180 | for each status and number of attempts, whether some reachable row with them was delivered: exactly pending from 1 to 28 below the limit, sending or sent from 1 to 29 up to the limit, failed from 2 to 29 below the limit, dead at a limit up to 29 |
| QueueDelivery.ArrivedUnmarked | internal/email/resend.go:103-106 | a row was delivered if and only if a reply was lost or an acceptance was reported, the latter only for a sent row or one still being sent |
| QueueTheorems.LeaseIsRedundant | internal/db/dbq/notifications.sql.go:18-20 | the lease conjunct never decides a claim |
| QueueTheorems.ConcurrentClaimsDisjoint | internal/db/dbq/notifications.sql.go:23-30 | no row is in two loops' hands |
| QueueTheorems.ChoiceIsUnique | internal/db/dbq/notifications.sql.go:15-24 | without ties any two admissible selections hold the same rows |
| QueueProgress.RunWork | internal/notifications/worker.go:171-180 | over any run, the rows claimed and written plus the work left are at most the work at its start plus twice the attempt limit for each new row |
| QueueProgress.RunDone | internal/notifications/worker.go:136-181 | over any run, the claims and writes are exactly what the rows gained: two for each attempt, one for an attempt that is not settled |
| QueueProgress.QueueDrains | internal/notifications/worker.go:136-181 | n enqueued rows take at most 2 n MaxAttempts claims and writes in any run, and exactly that many if and only if every row has had all its attempts and none is still `sending` |
| DrainTightness.DrainBoundIsReached | internal/notifications/worker.go:136-181 | for every n some run reaches that bound, if and only if the attempt limit is at most 29 |
| QueueTiming.ClaimSpacing | internal/notifications/worker.go:313-328 | claim m+1 of a row comes no earlier than its creation plus the first m ideal delays |
| QueueTiming.PlansExactly | internal/notifications/worker.go:313-367 | after attempt k the retry can be planned for exactly the times from the ideal delay up to a quarter of it later, below 37.5 minutes, and for none above attempt 28 |
| QueueTiming.RetryIsScheduled | internal/db/dbq/notifications.sql.go:260-278 | the row can then be claimed exactly from the planned time on |
| QueueTiming.DeadTakesTime | internal/notifications/worker.go:171-178 | no row is dead before all its delays have passed: 1860 s for six attempts |
| Worker.Cluster.Interlude | internal/notifications/worker.go:65-75 | whatever the other loops do leaves this loop's batch alone |
| Worker.Cluster.CountSendsLastDay | internal/db/dbq/notifications.sql.go:90-95 | counting row by row gives the number of rows sent in the last day |
| Worker.Cluster.WithRetry | internal/notifications/worker.go:333-349 | succeeds if and only if one of at most three tries goes through before cancellation, and then writes the verdict exactly once |
| Worker.Cluster.SendMail | internal/notifications/worker.go:148-180 | one provider call, with the outcome the provider gave, and the decision it leads to are one step of the protocol |
| Worker.Cluster.PlanRetry | internal/notifications/worker.go:171-175 | panics exactly above attempt 28, which stops every loop of the process; otherwise plans the retry after exactly the delay that was drawn, which lies in the range of `DelayRange` |
| Worker.Cluster.Exit | internal/notifications/worker.go:65-75 | the end of a process loses the batches and selections of all its loops and of no other |
| Worker.Cluster.Dispatch | internal/notifications/worker.go:148-181 | a claimed row runs through the protocol to a verdict; without failures it is sent, perhaps planned, and written; a panic needs a limit of 30 or more |
| Worker.Cluster.Claim | internal/notifications/worker.go:121-138 | a claim is a locking read and a commit of the protocol; a failed one gives up its locks and claims nothing |
| Worker.Cluster.CheckCap | internal/notifications/worker.go:99-119 | the cap test is a step of the protocol, and no step at all if and only if there is a cap and the count fails, which ends the tick |
| Worker.Cluster.DrainBatch | internal/notifications/worker.go:139-145 | the batch is worked off row by row, one round for each row when nothing fails, and the loop ends idle |
| Worker.Cluster.Tick | internal/notifications/worker.go:99-146 | a tick is a run of the protocol that leaves the loop idle and reports at most five rows; without failures it is a cap test, a claim, and one round for each claimed row |
| Base64Url.RoundTrip | internal/tokens/tokens.go:67-77 | decoding an encoding gives back the bytes |
| Base64Url.EncodingSpells | internal/tokens/tokens.go:67 | each three bytes are spelt as four characters of the alphabet of section 5 of RFC 4648 that stand for the same 24 bits, a short tail filled up with zero bits |
| Base64Url.DecodesAlike | internal/tokens/tokens.go:74 | exactly which texts decode, and that two of them decode alike if and only if they agree up to line breaks and unused low bits |
| Tokens.PutUint64 | internal/tokens/tokens.go:59-60 | writes eight big-endian bytes in place and nothing else |
| Tokens.Int64RoundTrip | internal/tokens/tokens.go:59-60 | every int64 survives its eight bytes |
| Tokens.Issue | internal/tokens/tokens.go:46-69 | filling the buffer in place produces the specified token, or the error for an unknown purpose |
| Tokens.IssuedVerifies | internal/tokens/tokens.go:46-102 | an issued token verifies for exactly its own purpose and until its expiry second has passed (zero meaning never), and gives back its subject |
| Tokens.IssuedUntil | internal/tokens/tokens.go:98-101 | on the clock: an issued token verifies for its purpose if and only if the second in which it expires has not ended, or the expiry lies in the first second of 1970 |
| Tokens.IssuedLayout | internal/tokens/tokens.go:28-67 | an issued token consists of version 1, purpose 1 or 2, the seconds of issue and expiry as eight big-endian bytes each, the subject, and 32 bytes of MAC over all that |
| Tokens.VerifiedWasIssued | internal/tokens/tokens.go:73-102 | conversely a token that verifies decodes to the bytes of an unexpired token for that purpose and subject |
| Tokens.TokenBytesInjective | internal/tokens/tokens.go:56-67 | tokens with equal bytes agree in purpose, times and subject |
| OptInInvariant.ReachableInv | internal/subscribers/service.go:160-216 | every reachable state meets the invariant: clean unique rows, hashes at home in one row, secrets held by one request, links of every mail |
| OptInInvariant.QueueIsReachable | internal/subscribers/service.go:213-216 | the queue inside the flow is a reachable queue of the queue protocol |
| OptInTheorems.TableStaysClean | migrations/0003_subscribers.sql:22-28 | every reachable row meets the table constraint, and carries a hash and an expiry exactly while it is pending |
| OptInTheorems.LifecycleForward | internal/db/dbq/subscribers.sql.go:14-24 | over every run addresses stay, source and user id stay once set, confirmed never returns to pending, the first confirmation time stays, unsubscribed rows never change |
| OptInOutcomes.StoreExactly | internal/db/dbq/subscribers.sql.go:220-231 | in every reachable state: a new address is entered as given, a pending row gets the new secret and keeps its source and user id if it has any, else takes those given, a settled row ends the request without a trace, and no other row changes |
| OptInOutcomes.ResendExactly | internal/subscribers/service.go:417-431 | a resend replaces the secret of a row that is still pending and leaves its source and user id alone |
| OptInOutcomes.ReadExactly | internal/subscribers/service.go:409-416 | it goes on if and only if the row exists and is pending |
| OptInOutcomes.SecretExactly | internal/subscribers/service.go:160-181 | a secret expires the configured time after it was drawn |
| OptInOutcomes.QueueExactly | internal/db/dbq/notifications.sql.go:106-110 | exactly one new mail, due at once, to the address of the request, with the two links of its row |
| OptInOutcomes.ConfirmExactly | internal/db/dbq/subscribers.sql.go:14-24 | unless it was unsubscribed the row is confirmed, loses its secret, gets the time if it was pending, and nothing else changes |
| OptInOutcomes.UnsubscribeExactly | internal/db/dbq/subscribers.sql.go:198-207 | a row that is not unsubscribed yet is, with the time, loses its secret, and nothing else changes |
| OptInTheorems.ConfirmedWasOptedIn | internal/subscribers/service.go:264-282 | every confirmed row went through, in this order: its hash was stored for it and stayed current, a request that verified a token with that hash found it pending, and that same request, waiting with the row all the time, updated it |
| OptInTheorems.ConfirmTakesEffect | internal/db/dbq/subscribers.sql.go:14-24 | the update confirms the row found if and only if it was not unsubscribed since |
| OptInRuns.ConfirmCanMiss | internal/subscribers/service.go:273-290 | some run unsubscribes by the link of the same mail between lookup and update, and the update then changes nothing |
| OptInRuns.SameTokenConfirmsTwice | internal/subscribers/service.go:273-290 | some run has a second request with the same token updating after the first has used the secret up |
| OptInTheorems.SecretIsUsedUp | internal/db/dbq/subscribers.sql.go:48-54 | a stored secret whose hash no row holds any more, after a confirmation, an unsubscription or a newer secret, finds no row in any later state |
| OptInTheorems.LookupFindsCurrent | internal/db/dbq/subscribers.sql.go:48-54 | a lookup finds a row if and only if the row the hash was stored for is pending with that hash still current |
| OptInTheorems.ExpiryAgrees | internal/subscribers/service.go:160-181 | every token that ever verified for the hash of a pending row expires, to the second, when the row's expiry column says, unless its MAC covers a payload the service never signed |
| OptInTheorems.PendingRowHasToken | internal/subscribers/service.go:160-181 | and for every pending row such a token was issued |
| OptInTheorems.UnsubscribeLinkIsOwn | internal/subscribers/service.go:487-496 | the unsubscribe link of every queued mail names the row of the mail's recipient and no other, until it expires, and never confirms |
| OptInTheorems.ConfirmLinkIsOwn | internal/subscribers/service.go:205-216 | its confirm link carries a secret that is pending on no other row |
| OptInTheorems.ResendHitsItsRow | internal/subscribers/service.go:409-433 | the row a resend upserts is the subscriber it read |
| OptInThrottle.ThrottleSpacing | internal/subscribers/service.go:136-147 | if no request for an address starts while another can still mail it, two live mails they queued for it are at least the window apart |
| OptInOutcomes.ThrottleExactly | internal/subscribers/service.go:136-147 | in every reachable state the test ends a request if and only if the throttle is on and a confirmation to that very address, pending, sending or sent, is younger than the window |
| OptInOutcomes.OthersNeverThrottle | internal/db/dbq/notifications.sql.go:125-133 | two states that agree on these mails decide alike, whatever other addresses, kinds and failed mails they hold |
| OptInOutcomes.WindowInSeconds | internal/subscribers/service.go:136-147 | the window counts in whole seconds, wrapped to an int32 |
| OptInOverlap.ThrottleExactly | internal/subscribers/service.go:136-216 | from any reachable state, everything in flight keeps the mails to an address apart if and only if they are apart, at most one request can still mail it, and that one passed the throttle a window after every live mail |
| OptInOverlap.BeginExactly | internal/subscribers/service.go:136-216 | a new request keeps an address safe if and only if the address is settled or no other request in flight can still mail it |
| OptInOverlap.OverlapDefeatsThrottle | internal/db/dbq/notifications.sql.go:125-133 | two requests that start before either has queued its mail can break every window |
| OptInService.Service.UpsertPendingSubscriber | internal/db/dbq/subscribers.sql.go:220-231 | inserts, refreshes a pending row, or changes nothing and returns no row |
| OptInService.Service.GetSubscriberByConfirmTokenHash | internal/db/dbq/subscribers.sql.go:48-54 | finds a pending row with that hash, or there is none |
| OptInService.Service.ConfirmSubscriberById | internal/db/dbq/subscribers.sql.go:14-24 | the guarded confirmation and the number of rows it hit |
| OptInService.Service.UnsubscribeSubscriberById | internal/db/dbq/subscribers.sql.go:198-207 | the guarded unsubscription and the number of rows it hit |
| OptInService.Service.EnqueueNotification | internal/db/dbq/notifications.sql.go:106-110 | adds one fresh pending row and changes no other |
| OptInService.Service.HandleSubscribe | internal/subscribers/service.go:103-229 | throttle test, secret, upsert and mail are steps of the protocol in this order; the request stops at the throttle, at a row that is not pending, or after its mail, and its answer is the same in all these cases, and differs only if the throttle test or the upsert fails |
| OptInService.Service.HandleConfirmPOST | internal/subscribers/service.go:255-291 | a bad token changes nothing; "confirmed" is answered only after lookup and update, a refusal never updates, and without failures the answer is "confirmed" if and only if a pending row had the hash at the lookup |
| OptInService.Service.HandleUnsubscribePOST | internal/subscribers/service.go:317-357 | a bad token changes nothing; a good one leaves its row unsubscribed, or the database failed |
| OptInService.Service.EnqueueConfirm | internal/subscribers/service.go:395-449 | read, upsert and mail are steps of the protocol in this order; success is answered exactly after the mail, a missing row or one that is not pending is refused, and any failure is reported |
| AdminCache.CacheIsBounded | internal/auth/middleware.go:143-159 | over every run the cache holds at most 1024 entries |
| AdminCache.HitsAgree | internal/auth/middleware.go:106-159 | a hit is what was stored last for that subject, at most a minute before, and that was an earlier answer of the query for it |
| AdminCache.LookupExactly | internal/auth/middleware.go:130-141 | a lookup is served if and only if the subject has an entry whose last fill was at most 60 s ago; else the query is asked and an entry too old is gone |
| AdminCache.FillExactly | internal/auth/middleware.go:143-159 | a fill enters its answer, keeps all other entries below 1024, and at 1024 keeps 512 of them unchanged |
| AdminCache.RevocationTakesEffect | internal/auth/middleware.go:106-128 | no grant is served later than a minute after a revocation if and only if no request holds a grant that it has yet to store |
| AdminCache.Middleware.CacheGet | internal/auth/middleware.go:130-141 | serves an unexpired entry and deletes an expired one |
| AdminCache.Middleware.Evict | internal/auth/middleware.go:147-154 | whatever the order, exactly 512 entries survive, unchanged |
| AdminCache.Middleware.CachePut | internal/auth/middleware.go:143-159 | stores the entry for a minute over what an eviction may leave |
| AdminCache.Middleware.IsAdmin | internal/auth/middleware.go:106-128 | a run of the cache protocol that answers from the cache, or with the query's answer and stores it |
| ClientIp.IpInCidrs | internal/httpx/logging.go:130-137 | true if and only if some network contains the address |
| ClientIp.ClientIP | internal/httpx/logging.go:93-128 | the two loops compute the specified address |
| ClientIp.AppendedHopIsClient | internal/httpx/logging.go:108-119 | on header text: an outside address that a trusted peer appends after a comma, with any spaces or tabs around it, is the client, whatever stands to its left |
| ClientIp.TrimExactly | internal/httpx/logging.go:111 | trimming leaves exactly the text between the spaces around it, which neither starts nor ends with one |
| ClientIp.OutsideExactly | internal/httpx/logging.go:111-118 | a hop counts if and only if, spaces aside, it parses and no trusted network contains it |
| ClientIp.PeerExactly | internal/httpx/logging.go:93-103 | the peer is the host part of the remote address, or all of it without a port, and is trusted if and only if it parses and some network contains it |
| ClientIp.ClientIsRightmostOutsideHop | internal/httpx/logging.go:109-120 | behind a trusted peer the client is the rightmost hop that is, spaces aside, an address outside the trusted networks |
| ClientIp.ClientWithoutOutsideHop | internal/httpx/logging.go:121-127 | without one it is the first hop that is not blank, else the peer |
| ClientIp.HeaderNeedsTrustedPeer | internal/httpx/logging.go:100-103 | the header never matters if and only if the peer is not trusted |
| ClientIp.ForgeryNeedsNoOutsideHop | internal/httpx/logging.go:109-120 | text added on the left of the header can change the result if and only if the peer is trusted and no hop already there is outside the trusted networks |
| ClientIp.SplitConcat | internal/httpx/logging.go:109 | splitting a joined header gives the hops of both parts |

## Left out

* The text of `last_error`, the provider's message id and their truncation: they decide nothing.
* HTTP decoding, templates, routing, CORS, logging, response padding, JWT verification and the rate limiters. A wait
  for the limiter appears only as the point where a loop can be cancelled.
* Row-level security, roles and grants: the policy engine is the database's. Each query is modelled by its text.
* The JSON of a payload: a row holds its links, a broadcast text, or something that does not parse. The URL around a
  token is not modelled.
* A commit that took effect although an error was reported: excluded by the assumption on transactions.
* Timestamps are not rounded to the database's microseconds.
* Validation of addresses and of the `source` text, the confirmation and unsubscription pages, and the read-only
  listings.
* The deletion of old audit rows and of notifications by hand: rows are never deleted in the model.
* Steps of the program that read the clock twice in a row read it once in the model: a confirm token is issued at the
  instant from which its expiry is counted.
* Tokens.VerifiedWasIssued: does not say that the service itself issued the bytes, because nothing is assumed about how
  hard the MAC is to forge.
* OptInTheorems.ExpiryAgrees: excepts a MAC over a payload the service never signed, for the same reason.
* OptInThrottle.ThrottleSpacing: measures the window in whole seconds, as the query does, and does not count the mails
  of EnqueueConfirm, which the code does not throttle.
* Worker.Cluster.Exit: the process does not come back by itself; its loops stay idle until they tick again.
