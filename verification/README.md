# nntppool: a verified model of the pool's state machines

nntppool is a client for several Usenet (NNTP) providers at once. It keeps pipelined
connections to each provider, sends a request to one provider after another until one
serves it, and reports "no such article" only when every provider missed it. This project
models the parts of it that are state machines and proves what they promise. The server,
the network, the clock, the contexts and the native yEnc decoder are not modelled: they
appear as scripts and parameters, and every statement holds for all of them, within the
contracts named below.

| file | component |
|---|---|
| `Basics.dfy` | optional values, minimum and maximum, search for a pair of elements |
| `Errors.dfy` | evidence, its classification, and the final error of a request (errors.go) |
| `Breaker.dfy` | the circuit breaker of a provider (circuit_breaker.go) |
| `Attempts.dfy` | one provider: the attempt and its bounded retries (tryGroup, tryGroupResilient) |
| `Failover.dfy` | all providers: main round, STAT race, backups, verdict (doSendWithRetry, raceCandidates) |
| `Absence.dfy` | absence is concluded from partial evidence exactly if a provider was silent |
| `Testimony.dfy` | the evidence of a response is what the providers said; absence concluded from 451 |
| `RaceRefinement.dfy` | the STAT race against sequential failover |
| `SingleWriter.dfy` | at most one attempt reaches the caller's writer, and exactly when more do |
| `Requests.dfy` | whole requests: absence and the writer over every script, breaker and start index |
| `Pipeline.dfy` | one connection: writer and reader loops interleaved (Run, readerLoop) |
| `Matching.dfy` | replies and the requests they are read for, over all interleavings |
| `Gate.dfy` | the throttled connection gate and its slots (connGate, runConnSlot) |
| `Dispatch.dfy` | weighted choice of the first provider |
| `ReadBuffer.dfy` | the read buffer, the read/feed loop, the drain of abandoned bodies |
| `Decoder.dfy`, `Chunking.dfy`, `LineMode.dfy`, `ResponseReader.dfy` | the response decoder and its independence of how the wire is cut |
| `SortedNames.dfy` | the order of additional headers |
| `Headers.dfy`, `HeaderRoundTrip.dfy` | printing, folding and parsing of article headers |

## Where the code does less than it says

Each of these is kept as the code has it and shown by a lemma with an input on which it
happens; the condition given is exact.

- A STAT race with one eligible candidate sends it the real command and returns whatever
  it says (nntp.go:2396-2402). If that is a soft failure such as 400, no backup is tried,
  although sequential failover would try them. Race and sequential failover agree if and
  only if `RaceRefinement.Shadowed` does not hold.
- A STAT answered with a success code other than 223 is recorded as a success and then
  dropped (nntp.go:2447-2448), and a response channel closed empty because the caller left is
  not recorded at all (nntp.go:2584-2590). A provider asked or called with one of these
  results is `Absence.Silent`. When absence is reported, it is the last word of a provider if
  and only if that provider was not silent.
- A provider removed while its attempt is writing is left without a look at the writer
  (nntp.go:2593-2594, 2928-2931), so a second attempt can write. Two attempts write if and
  only if `Requests.WritesAfterRemoval`: a provider was removed in the middle of an attempt
  that wrote, and a later call wrote.
- The first 451 alone is said never to complete a provider's conclusion (nntp.go:2684-2686).
  If the retry's channel closes empty because the caller left, it does. A reported absence
  whose last word from a provider is a 451 rests on a second 451 if and only if that call or
  probe was given a response (`Testimony.Responded`).
- The evidence gathered is dropped when the engine ends with neither an error nor an absence
  to report (nntp.go:3084-3086): a response carries what all contacted providers said, unless
  every call came back without a response (`Testimony.AllUnanswered`).
- Replies are matched to requests by order. The order is lost when a cancelled request
  other than BODY/ARTICLE is left before its reply is read (nntp.go:1529-1531, 1639-1651),
  and when the writer's clean-up takes a request out of the FIFO while the reader may still
  match the next one (nntp.go:510-533, 914-929, 1410-1416). That sweep follows the closing of
  the socket, so only replies already in the read buffer can then go to the wrong request.
  Some reply is read for a wrong request if and only if `Matching.ReadsLate`: a reply is read
  for a request matched after one of these steps.
- A BODY line that looks uuencoded by its shape alone (reader.go:231-234) sets a state that
  the next call does not continue (reader.go:80-94): the response stalls if the wire is cut
  behind it.
- The back-up over the article terminator (reader.go:308-311) assumes that its three bytes
  came in one call; otherwise the slice index is negative.
- The comment on `foldHeaderLine` (post.go:93-95) promises physical lines of at most 900
  octets; a continuation can have 901, because its tab is not counted, and a piece without
  a blank is not folded. The limit is broken if and only if some field is
  `HeaderRoundTrip.Overlong`: unfolded and longer than 900, or folded with 900 characters or
  more behind its last fold.

## What is assumed

- No connection builds an error that carries "article not found" next to a higher-ranked class
  (`Attempts.LegalError`); the absence and retry theorems rest on that. From such an error
  the code makes evidence whose cause tests as "not found" although its outcome is another
  (errors.go:167-195).
- A context, once done, stays done (`Requests.GoneStaysGone`): a response channel is closed
  empty only when the request's context is done (nntp.go:1434-1441, 1472-1480, 1613-1620),
  and a command submitted after that is failed before it is written (nntp.go:745-752,
  974-981, 1287-1293). The writer theorem over scripts rests on that.
- The native yEnc decoder meets `Decoder.Contract`.

## Model

| member | source | states |
|---|---|---|
| `Errors.BuildEvidence` | nntp.go:2608-2670 | evidence carries a cause exactly when it is not a success, and an error code without an error is never a success |
| `Errors.BuiltEvidenceUnambiguous` | errors.go:167-195 | evidence built from a reply and an error is genuine, so that its cause tests as "not found" only under hard absence, for every operation and 451 policy, except exactly when the error carries "not found" next to a higher-ranked class; `Attempts.LegalError` assumes that error away for the absence and retry theorems |
| `Errors.AnErrorCanBeAmbiguous` | errors.go:167-195 | an error of that kind: a missing article reported next to a cancellation gives evidence of a cancellation that tests as "not found" |
| `Errors.ClassifyFailures` | errors.go:204-230 | the loop over three flags computes a function of the *set* of failure outcomes: Cancellation if present, the unique outcome if there is one, else Inconclusive; and `mixed` holds exactly when two outcomes differ and none is a cancellation |
| `Errors.ChooseMixedCause` | errors.go:234-244 | the backward scan finds the last cause of an attempt that is neither success nor absence |
| `Errors.ChooseRepresentative` | errors.go:245-261 | the backward scan finds the last attempt of the aggregate kind |
| `Errors.NewTransportError` | errors.go:204-275 | the method computes the aggregate defined on the set of failures |
| `Errors.MixedCauseFinds` | errors.go:234-244 | if any failure is not an absence, as in every mixed set, the chosen cause comes from an attempt that failed otherwise than by absence |
| `Errors.AbsentIffUniformAbsence` | errors.go:204-292 | for genuine evidence, the final error tests as "article not found" if and only if hard absence is the only failure |
| `Errors.SummaryIsCoherent` | errors.go:232-275 | a uniform result takes provider, code and cause from one attempt of that kind; a mixed one names no provider and no code |
| `Errors.WithClassification` | errors.go:106-111 | the added category is found by errors.Is, and no sentinel match is gained or lost |
| `Breaker.ProviderBreaker.constructor` | circuit_breaker.go:110-123 | a new breaker is closed with no failures and generation zero |
| `Breaker.ProviderBreaker.Acquire` | circuit_breaker.go:128-155 | admitted exactly when closed, or when the cooldown is over and no probe is out; an admission while open is a probe; a refusal changes nothing and names the retry time |
| `Breaker.ProviderBreaker.Complete` | circuit_breaker.go:157-199 | whole new state for every lease, outcome and pair of clock readings |
| `Breaker.ProviderBreaker.PruneLocked` | circuit_breaker.go:201-211 | shifting the slice in place leaves exactly the failures from the first recent one on |
| `Breaker.ProviderBreaker.OpenLocked` | circuit_breaker.go:213-219 | opening clears failures and the probe, sets the cooldown's end and starts a generation |
| `Breaker.ProviderBreaker.TakeSnapshot` | circuit_breaker.go:230-253 | what a snapshot shows, and that it changes no more than the pruning of old failures |
| `Breaker.ProbesAreExclusive` | circuit_breaker.go:128-228 | over all interleavings with each lease completed at most once: a probe is in flight exactly when one uncompleted current-generation probe lease exists, there is never a second, an open breaker has no current-generation ordinary lease, and a request is refused only while the cooldown runs or that probe is out |
| `Breaker.BreakerShowsHistory` | circuit_breaker.go:157-253 | with a non-decreasing clock the breaker refines an unpruned log of its history, whatever snapshots and stale completions are interleaved |
| `Breaker.OpensExactlyOnThirdRecentFailure` | circuit_breaker.go:188-219 | closed becomes open exactly on a current-generation failure with two earlier ones in the last 30 seconds, and the cooldown is that of min(4, failed probes since the opening) |
| `Attempts.TryGroupResilient` | nntp.go:2761-2857 | the retry loop with its breaker: run of the loop function, exactly one acquire, exactly one completion once an admitted call returns, and no effect at all on a disabled breaker |
| `Attempts.TryGroupEvidence` | nntp.go:2524-2599 | one attempt yields at most one piece of evidence, about its own provider and genuine; a transport refused as too old yields none and writes nothing; a demand for a fresh transport is honoured |
| `Attempts.RetriesAreBounded` | nntp.go:2771-2856 | every run, whatever the network does, yields at most four pieces of evidence, keeps a mapped 451 in the last two, and returns an answer whose last evidence agrees with its code and error |
| `Attempts.FreshAfter451` | nntp.go:2785-2832 | every attempt served after a 451 ran on a connection created no earlier than that attempt was submitted |
| `Attempts.CallConfirms451` | nntp.go:2785-2832 | over every run, an uncancelled answer that ends in a 451 taken for absence has seen two of them in a row if and only if it came with a response; otherwise the retry's channel closed empty |
| `Attempts.LiveCallsInform` | nntp.go:2761-2857 | with live contexts every returned answer carries evidence, none of it a cancellation |
| `Attempts.AbsenceNeverTrips` | circuit_breaker.go:255-297 | a call that was cancelled, came back empty, ended in absence or took a 451 for absence leaves the breaker of an ordinary lease as it was and only gives a probe back, over every run of the retry loop |
| `Attempts.OnlyServiceCounts` | circuit_breaker.go:255-297 | over every run, the breaker is told of a success exactly for a served request in which no 451 was taken for absence |
| `Failover.FilterCandidates` | nntp.go:2354-2363 | over-quota candidates are dropped with evidence, the others kept in order |
| `Failover.CollectProbes` | nntp.go:2405-2454 | probe results arriving in any order fold to the same state as in configured order |
| `Failover.TryWinners` | nntp.go:2460-2500 | the STAT-positive candidates get the real command in configured order until one settles the request |
| `Failover.RaceCandidates` | nntp.go:2343-2501 | the race: filter, lone candidate, probes, winners |
| `Failover.TryMains` | nntp.go:2910-2996 | the main round visits the rotation from the start index and turns to the race at the first absence |
| `Failover.WalkBackups` | nntp.go:3009-3073 | the sequential backup round |
| `Failover.DoSendWithRetry` | nntp.go:2859-3087 | the engine computes the send function on the rotated providers, for every start index |
| `Failover.SendContactsMembers` | nntp.go:2859-3087 | whatever is skipped, asked or called is a configured provider, in every round and mode |
| `Absence.AbsenceIsSound` | nntp.go:2859-3087 | if the caller sees "not found", nobody contributed any other failure, and hard absence is the last word of a main or backup if and only if that provider was not silent; for all lists of providers with distinct ids (nntp.go:2195-2200), raced or sequential |
| `Absence.ReliableAbsenceIsSound` | nntp.go:2859-3087 | if moreover every call leaves evidence and every STAT is answered 223 or with an error, a reported absence is the last word of every provider |
| `Absence.OtherStatSuccessHidesAProvider` | nntp.go:2447-2448 | a STAT answered with another 2xx makes the pool report absence without that provider |
| `Absence.AnOddStatReplyHidesTheArticle` | nntp.go:2447-2448 | concretely: three providers, the second has the article and answers its STAT with 200, and absence is reported |
| `Absence.ClosedChannelHidesAProvider` | nntp.go:2584-2590 | a channel closed empty makes the pool report absence although that provider never spoke, or not to the end |
| `Absence.AClosedChannelHidesB` | nntp.go:2584-2590 | concretely: an attempt whose channel closes empty, behind a provider answering 430 |
| `Testimony.EvidenceIsConserved` | nntp.go:2859-3087 | in every round and mode the response carries exactly what the contacted providers said, in the order of the contacts, unless all calls came back without a response, when it carries nothing |
| `Testimony.ARemovalLosesEvidence` | nntp.go:3075-3087 | a request whose only provider is removed under way is answered without the evidence gathered |
| `Testimony.Second451Concludes` | nntp.go:2684-2696 | if the last word of a provider in a reported absence is a 451, one call or probe gave it, and that saw a second 451 if and only if it was given a response |
| `Testimony.AFirst451CanConclude` | nntp.go:2684-2696 | concretely: a 451 whose retry's channel closes empty stands alone in a reported absence |
| `RaceRefinement.RaceRefinesWalkUnlessShadowed` | nntp.go:2954-3073 | with probes that agree with the real command, racing and sequential failover deliver the same provider's response or the same failure kind if and only if the request is not shadowed |
| `RaceRefinement.ARaceCanShadowABackup` | nntp.go:2396-2402 | two mains answering 430 and 400 and a backup that has the article: the modes differ |
| `RaceRefinement.AbsenceIsComplete` | nntp.go:2859-3087 | if every provider misses the article the request fails as hard absence in both modes |
| `RaceRefinement.RaceSummary` | nntp.go:2343-2501 | unless its only eligible candidate fails softly, a race delivers the first provider that would settle the request and otherwise adds exactly the failures a walk would add |
| `SingleWriter.AtMostOneWriter` | nntp.go:2932-2943 | over everything the engine calls, two or more attempts write to the caller's writer if and only if a call that wrote came back without a response, uncancelled, and a later call wrote |
| `Requests.AbsenceOverScripts` | nntp.go:2761-3087 | absence soundness, exactly, for everything connections, breakers, contexts and the start index may do: retry loops, race, mains and backups in one statement |
| `Requests.LiveAbsenceIsSound` | nntp.go:2761-3087 | with live contexts and STATs answered 223 or with an error, a reported absence is the last word of every provider |
| `Requests.Second451OverScripts` | nntp.go:2684-2696 | the second 451 over scripts, breakers and start index; with live contexts a last word of 451 in a reported absence is always a second one |
| `Requests.OneWriterOverScripts` | nntp.go:2761-3087 | counting every attempt of every retry loop, winner, main and backup: more than one writes if and only if a writing call without a response is followed by another writing call; and, since a done context stays done, if and only if a provider was removed in the middle of an attempt that wrote and a later call wrote, so at most one if no provider is removed so |
| `Requests.ARemovalWritesTwice` | nntp.go:2928-2931 | a removal during a writing attempt lets the next provider write too, without any caller having left |
| `Requests.SuchPlansExist` | nntp.go:2524-2599 | for every provider there is a script whose one attempt is removed while writing, and one whose attempt serves |
| `Pipeline.SizeWindows` | nntp.go:2041-2061 | whatever the settings, every window admits a command and ordinary STATs leave the priority headroom free |
| `Pipeline.Invariant` | nntp.go:914-1667 | ownership and windows together are kept by every step of writer, reader, sweep and environment |
| `Pipeline.RequestsAreOwned` | nntp.go:914-1399 | in every reachable state an accepted request is in exactly one place or answered once; the deferred place is never overwritten; when both loops have ended all are answered |
| `Pipeline.WindowsHold` | nntp.go:858-902 | pushing to the FIFO never blocks; bodies and ordinary STATs in flight stay within their windows; a parked writer has a full window, a wake token or a release under way |
| `Matching.WireInvariant` | nntp.go:914-1667 | in every reachable state, while the reader reads on and has read none late: the replies still owed are those of the head and the FIFO in order or, once an exchange was left, the next reply for a request matched since is a stale one; and a reply was read late exactly when the log holds a wrong one |
| `Matching.RepliesMatchRequests` | nntp.go:1401-1667 | over all interleavings, every reply read is the reply to the request it was read for if and only if none was read for a request matched after an exchange had been left; in particular if none is left |
| `Matching.ShutReadsTheBuffer` | readBuffer.go:134-202 | from the closing of the socket on, the replies read are at most those in the read buffer at that time |
| `Matching.EachIsReadOnce` | nntp.go:1401-1667 | a request answered with a reply has exactly one reply read for it in the whole run, and exactly two if it is a POST that was let proceed |
| `Matching.AnAbandonedStatShiftsReplies` | nntp.go:1639-1651 | a run from the start, for any two STATs: the first is left at the head before its reply and the second receives that reply |
| `Matching.ASweptStatShiftsReplies` | nntp.go:510-533 | a run from the start, for any three STATs: one read receives all replies, the first is answered, the writer closes the socket and its clean-up pops the second under an idle reader, and the third receives the second's reply |
| `Gate.ConnGate.TryEnter` | nntp.go:593-619 | a slot enters exactly when fewer are held than allowed |
| `Gate.ConnGate.Throttle` | nntp.go:642-658 | the allowance falls to the running connections, at least one, and a restore is pending |
| `Gate.GateIsSafe` | nntp.go:687-834 | for any number of slots and any interleaving: held counts the slots past enter, running those inside Run, 0 <= running <= held <= max, 1 <= allowed <= max, available = allowed - held |
| `Gate.ThrottleHolds` | nntp.go:642-667 | after a throttle the allowance stays at or below the then running connections until the restore timer fires |
| `Dispatch.SpeedScore` | nntp.go:2735-2747 | the score is between 1 and its maximum, and maximal for an unmeasured or fastest provider |
| `Dispatch.SpeedScoreMonotone` | nntp.go:2735-2747 | a faster provider never scores lower |
| `Dispatch.Weights` | nntp.go:2708-2733 | a weight is zero exactly for an over-quota provider |
| `Dispatch.DispatchWeights` | nntp.go:2708-2733 | the loop returns the prefix sums of the weights and their total |
| `Dispatch.SearchInts` | nntp.go:2896-2908 | binary search returns the boundary between smaller and not smaller entries |
| `Dispatch.RoundRobinStart` | nntp.go:2896-2908 | the pick is in range, owns the counter's slot and is never over quota while the total is positive |
| `Dispatch.FifoStart` | nntp.go:2884-2895 | the first provider with room and quota, if there is one |
| `Dispatch.OwnerIsUnique` | nntp.go:2896-2908 | no slot has two owners |
| `Dispatch.DispatchIsProportional` | nntp.go:2896-2908 | any W consecutive counter values choose provider i exactly w_i times, W being the total weight |
| `Dispatch.RotationVisitsEachOnce` | nntp.go:2910-2912 | the rotation is a permutation of the mains that begins at the start index |
| `ReadBuffer.Buffer.constructor` | readBuffer.go:15-23 | an empty window |
| `ReadBuffer.Buffer.Init` | readBuffer.go:25-29 | storage is made without touching the window |
| `ReadBuffer.Buffer.Advance` | readBuffer.go:35-43 | exactly the consumed prefix leaves the window |
| `ReadBuffer.Buffer.Compact` | readBuffer.go:45-52 | the overlapping move keeps the window and puts it at the start |
| `ReadBuffer.Buffer.EnsureWriteSpace` | readBuffer.go:54-84 | the window is kept, and room for a byte is refused if and only if 8 MiB are held unconsumed |
| `ReadBuffer.Buffer.ReadMore` | readBuffer.go:86-106 | what arrives is appended to the window, and overflow is reported if and only if 8 MiB are held |
| `ReadBuffer.Buffer.Feed` | readBuffer.go:159-171 | the feeder takes a prefix no longer than the limit and, whatever it scribbles there, the rest is intact |
| `ReadBuffer.DrainControl.Control` | nntp.go:1472-1499 | the drain begins at the consumption where cancellation is first seen and allows the next feed exactly what is left of the limit |
| `ReadBuffer.DrainBytes` | nntp.go:2132-2135 | the configured limit is always positive |
| `ReadBuffer.FeedUntilDone` | readBuffer.go:134-202 | for every socket, feeder and cancellation: consumed bytes followed by the window are the initial window followed by all bytes read; overflow only with 8 MiB held; after cancellation is seen no more than the limit is consumed |
| `Decoder.YEncMeetsContract` | reader.go:271-315 | a concrete yEnc machine meets the contract asked of the native decoder |
| `ResponseReader.NNTPResponse.constructor` | reader.go:25-55 | a fresh response |
| `ResponseReader.NNTPResponse.DecodeYenc` | reader.go:271-315 | the native call with its back-ups is the body function |
| `ResponseReader.NNTPResponse.DetectFormat` | reader.go:150-236 | format detection updates exactly format, body and the empty-line flag as the function says |
| `ResponseReader.NNTPResponse.HandleLine` | reader.go:103-143 | one line updates the fields as the line function says and stops exactly on completion or desync |
| `ResponseReader.NNTPResponse.DecodeLines` | reader.go:93-147 | the line loop with its entry into the body computes the scan function |
| `ResponseReader.NNTPResponse.DecodeBuffer` | reader.go:80-148 | one decode call computes the feed function, including the state in which nothing is consumed |
| `ResponseReader.NNTPResponse.Feed` | reader.go:64-78 | one Feed, also of a complete response: fields, consumed bytes and completion as the feed function says, completion once reached being kept |
| `Chunking.DecodesInPlace` | reader.go:283-312 | decoded bytes fit in what the call reports as consumed, so decoding in place never overwrites a byte presented again |
| `Chunking.BodySplits` | reader.go:271-315 | a body call followed by a call on what it left equals one call on everything, across the one-, two- and three-byte back-ups, unless the cut falls inside the terminator |
| `Chunking.CutAgrees` | reader.go:64-148 | one cut, exactly: two calls equal one if and only if the cut is neither inside a body terminator nor behind a line taken for uuencoded with a complete line to come |
| `Chunking.ChunksAgree` | reader.go:64-148 | the same for every list of chunks and every starting state between calls |
| `Chunking.ChunkingIndependence` | reader.go:64-148 | for every native decoder within the contract, every byte stream and every chunking, status, lines, header lines, decoded bytes and total consumed are those of one whole feed if and only if every cut is clean |
| `Chunking.LineModeIsOutright` | reader.go:93-147 | a response without a detected binary format ends the same way for every chunking |
| `Chunking.WholeStaysInRange` | reader.go:297-312 | one whole feed never backs up past its start |
| `Chunking.StuckForever` | reader.go:80-94 | a response taken for uuencoded text consumes nothing more, whatever arrives |
| `Chunking.ALineShapedLikeUUStalls` | reader.go:231-234 | a concrete BODY that ends read whole and never ends when cut behind one line |
| `Chunking.ACutTerminatorRunsOutOfRange` | reader.go:308-311 | a concrete BODY, from its status line to the terminator, completes read whole and runs out of range when cut at either place inside the terminator |
| `LineMode.ReadsBack` | reader.go:93-126 | a status line and, for a multi-line code other than 220 and 222, its lines come back as sent, in order, consuming exactly the response, for every chunking |
| `LineMode.GarbageIsDesync` | reader.go:108-114 | a first line that does not begin with a number is a protocol desync for every chunking |
| `Headers.FoldHeaderLine` | post.go:96-119 | the folding loop computes the folded text |
| `Headers.Validate` | post.go:121-162 | headers pass exactly if they are valid; otherwise the first problem of the fixed headers or, in no particular order, one of an additional header is reported |
| `Headers.WriteTo` | post.go:168-236 | nothing is written for invalid headers; otherwise the folded fields in order and a blank line |
| `SortedNames.SortNames` | post.go:212-219 | the keys of the map in strictly ascending order, each once, whatever order they are taken in |
| `SortedNames.ListIsUnique` | post.go:212-219 | there is one such list, so that the output is deterministic |
| `Headers.WriteExtras` | post.go:212-226 | additional headers, every value under its name, names in sorted order |
| `Headers.ParseHeaders` | client.go:326-358 | the parsing loop computes the fold of its line function |
| `HeaderRoundTrip.FoldedIsJoin` | post.go:96-119 | the folded text is its physical lines joined by CRLF |
| `HeaderRoundTrip.ParseField` | client.go:330-355 | a field's physical lines parse to one more value under its name with the same words |
| `HeaderRoundTrip.FieldsRoundTrip` | client.go:326-358 | any fields printed with folding, split at CRLF and parsed give exactly the names written, each with its values in order, word for word |
| `HeaderRoundTrip.PostRoundTrip` | post.go:122-236 | the same for every valid ASCII post |
| `HeaderRoundTrip.LinesAreShort` | post.go:96-119 | no physical line has more than 901 octets if no blank-free run reaches 900 |
| `HeaderRoundTrip.LimitIsKeptUnlessOverlong` | post.go:93-119 | for all fields, every physical line has at most 900 octets if and only if no field is overlong |
| `HeaderRoundTrip.AContinuationCanHave901Octets` | post.go:93-119 | a family of header lines whose continuation has 901 octets |

## Left out

- Dialing, TLS, AUTHINFO, ping and keepalive probes: connection plumbing; errors appear as a small datatype of categories.
- The internals of the native yEnc decoder, CRC-32 and MIME encoding: libraries outside the repository; the decoder appears through a contract, MIME encoding as a parameter.
- Errors of the native decoder and of the caller's writer inside Feed: they end the exchange.
- The values of yEnc metadata and body validation (reader.go:317-469): every field is read from the header lines the model records in order, so only extraction of numbers and names is missing.
- Uuencoded bodies: the repository detects them and decodes nothing.
- Real time: deadlines, stall quanta and the deadline cache of the read buffer; a read timing out is one of the things a script can say.
- Durations and body-validation status in attempt evidence: recorded and never branched on by the modelled code.
- Quota timers, speed averages and races between their atomic fields: quota and speed are inputs.
- Provider removal and reconnection after a 502, and the bias it gives the next start index.
- The start selection of POST in client.go: a fixed array of eight entries, nothing beyond the main dispatch.
- Standalone connections without a priority channel: pipeline statements are about pool connections.
- Wrap-around of the breaker's 64-bit generation and of the dispatch counter, and completing a lease on another provider's breaker.
- speedtest.go, nzb, cmd, metrics.go and stat.go: wrappers, counters and command-line code.
- Dispatch.SpeedScore: is over the reals, so floating-point rounding of the ratio is not modelled.
- Dispatch.SpeedScoreMonotone: likewise over the reals.
- HeaderRoundTrip.PostRoundTrip: is for ASCII headers, for which characters are octets and MIME encoding does nothing.
