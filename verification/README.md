# LabNTP, modelled and proved in Dafny

LabNTP answers NTP from a virtual clock per client and lets operators swap the
configuration live. This project models the parts of it that carry state, order
or arithmetic, and proves what they promise over every input and every run:

- **The change pipeline.** Plan, Apply and Reset as a compare-and-swap over
  immutable snapshots, with every bind outcome open: as functions
  (`Pipeline`), as the object that updates itself in place and is proved to follow
  them (`AppService`), over all runs (`PipelineRuns`), and what an idempotency key
  promises (`Idempotence`, `Retention`, `Agreement`), given the JSON form that is
  fingerprinted (`OperationJson`).
  What each operation does to the document and to the snapshot is `Operations` and
  `Edits`; when a change or a Reset goes through, `Outcomes`; that a Reset starts
  afresh, `FreshReset`; that every active snapshot does as its document says, `Mirror`.
- **The idempotency cache.** A map and a hand-linked list (`IdempotencyCache`)
  that refine a most-recently-used-first sequence (`Recency`), and that sequence
  against a plain table of last uses (`LastUse`).
- **The management rebind, drain and shutdown protocol** (`Drain`): a transition
  system of concurrent goroutines, one step per lock section, channel operation or
  call into the network library, with a measure by which everything started ends
  (`DrainEnds`), what its calls achieve, told by the schedule alone (`DrainTargets`),
  and a schedule that needs its guards (`DrainRaces`).
- **The rate limiter** (`RateLimit`), its rate bound and the unobservability of idle
  eviction (`RateBound`).
- **Virtual clocks and NTP timestamps** (`NtpTime`, `View`, `EpochChain`, and over
  runs of the service `ClockRuns`), the
  48-byte header and the keyed trailer (`Codec`, `Mac`; RFC 5905 sections 6, 7.3
  and 7.4).
- **The packet handler** (`Responder`, `NtpServer`), over runs (`ServerRuns`), octet by
  octet (`OnTheWire`), against the dry run (`Preview`) and against the active document
  (`EndToEnd`).
- **First-match routing and edits** (`Address`, `Snapshot`, `Compiler`,
  `Operations`, `Routing`, `Validate`, `Warnings`, `Model`), **the query ring** (`QueryLog`) and
  **the tree diff** (`JsonDiff`).

Times are integer nanoseconds; a clock reading carries a wall and a monotonic part.
Rates and tokens are reals. The content hash of a document, the fingerprint hash,
the decimal text of a float, the MAC hashes, the wander fraction, the text parsers (prefixes, RFC 3339 times, IP
addresses) and the validators not spelled out are parameters; a hash has its
standard output length and a revision is never empty, and where a lemma needs that
no other document shares the active revision it says so. `Witness` and
`PacketWitness` give one service, document, run and packet that meet the assumptions
of the main results together. Where the code works on objects, a class follows it
and its methods are proved equal to a function of the old state; the laws are lemmas
about those functions.

## What turned out not to hold

Six expectations fail in the code as it stands. Each is proved with the exact
condition under which it fails; `Findings` runs one service into each of the first
five, and `PacketWitness.SetAfterSent` shows the last.

- Dropping an explicit `epoch` key while keeping the rate does not keep the clock:
  it falls through to the default anchor and jumps to the host's wall time
  (`EpochChain.DroppingEpochJumps`), although dropping the key and changing the rate
  together keeps it continuous. ADR 0011 has a changed key jump but does not say
  where to when it is dropped. In `Findings.ClockJumps` a clock that stands at four
  seconds falls to the host's three.
- A request that closes the client allowlist (an empty list) and one that opens it
  (no list) have one fingerprint, because `omitempty` drops the empty list; the second
  under the same key is answered with the result of the first
  (`Idempotence.EmptyAndAbsentCollide`, `Idempotence.EmptyAndAbsentDiffer`,
  `Findings.CloseIsTakenForOpen`). Nothing else collides before the hash
  (`OperationJson.ChangeTellsApart`): short of a hash collision another request under a
  used key is refused if and only if it differs in more than that
  (`Idempotence.ConflictExactly`).
- A Plan repeated under its key is answered from the cache whatever revision it
  expects, so after another commit it reports the old one (`Findings.PlanIsStale`). It
  reports the active revision if and only if the cache holds no plan of another for it
  (`Agreement.PlanSpeaksOfActive`), and what it holds after a run is exactly what no
  request of the run has lost (`Agreement.RepeatedPlan`, `Retention.KeptExactly`).
- A plan is not always the plan of the apply that follows it, even with no commit
  between: a view can come to be clamped in the meantime, and the apply then reports a
  warning the plan did not (`Findings.WarningComes`). All else agrees, and the warnings do
  if and only if the counts of clamped views agree (`Agreement.PlanPredictsApply`).
- A failed Reset can leave the NTP listener somewhere else: if and only if the document
  loads, the tokens pass and the guards of `Displaces` hold
  (`PipelineRuns.ResetAllOrNothing`), which from a state with both listeners in place
  says that both were to move, NTP did, and the management bind and the rollback both
  failed (`PipelineRuns.DisplacesFromPlace`). A later Reset to the old address then
  reports success without moving it back (`PipelineRuns.FailedRollbackStrandsListener`,
  `Findings.ListenerIsStranded`). `PipelineRuns.ResetInstalls` says exactly when a
  successful Reset has the NTP listener at the new address.
- The reference timestamp of a reply is not always at or before its transmit timestamp:
  outside freeze and rate views the wander is added to it twice, so it lies ahead if and
  only if the wander is positive (`OnTheWire.ReferenceAhead`).

## Model

| member | source | states |
|---|---|---|
| NtpTime.ClampServed | internal/ntpwire/time.go:6-16 | every instant is brought into [1900-01-01, 2172-03-15T12:56:32), and one already there is left alone |
| NtpTime.EncodeInRange | internal/ntpwire/time.go:25-47 | the seconds and era give back the whole second, and neither 64-bit product overflows |
| NtpTime.UnixEpochOnWire | internal/ntpwire/types.go:18-52 | 1970 begins 2208988800 seconds on the wire, 25567 days after 1900; range and era boundary in days from it |
| NtpTime.RoundTrip | internal/ntpwire/time.go:34-47 | decoding an encoded in-range instant in its era gives it back, or one nanosecond less; exactly it if and only if 5^9 divides its nanoseconds |
| NtpTime.OutOfRangeEncodesAsClamp | internal/ntpwire/time.go:18-40 | an out-of-range instant is encoded as the nearest end of the range |
| NtpTime.WireStrictlyIncreasing | internal/ntpwire/time.go:25-40 | (era, seconds, fraction) orders in-range instants exactly as time does, so no two collide |
| NtpTime.WireMonotone | internal/ntpwire/time.go:34-40 | for any two instants, in range or not, the earlier is not later on the wire |
| NtpTime.ShortFormats | internal/ntpwire/time.go:49-70 | the 16.16 forms are 65536 units a second, cut towards zero; they saturate at the ends of 32 bits, and agree where both can hold the value |
| View.RateDeltaIs | internal/ntpview/view.go:155-168 | the two guards and the truncation are exactly truncation limited to int64 |
| View.ServedMonotone | internal/ntpview/view.go:42-63 | through saturation and clamp a served clock stays in range and never runs back, except at a negative rate, where it never runs forward |
| View.RateServesRate | internal/ntpview/view.go:57-59 | between any two unclipped readings a rate clock moves by its rate times the real time between, to less than a nanosecond on one side of its anchor and less than two across it |
| View.NegativeRateRewinds | internal/ntpview/view.go:57-59 | at any negative rate a later unclipped reading serves an earlier time as soon as the clock has a whole nanosecond to lose |
| View.ServedAgainstHost | internal/ntpview/view.go:46-63 | unclamped, follow-real serves the host's time, offset that plus the offset, freeze its instant, absolute its instant plus the monotonic time since its anchor |
| View.HostStep | internal/ntpview/view.go:46-63 | a step of the host's wall clock is invisible through absolute, rate and freeze views and passes unchanged through the other two |
| View.ModesCoincide | internal/ntpview/view.go:50-59 | absolute is rate 1 from its instant and rate 0 is a freeze at the epoch, at every reading |
| View.JitterBounded | internal/ntpview/view.go:71-89 | the wander never exceeds the configured jitter in either direction |
| View.WanderSpread | internal/ntpview/view.go:71-89 | the wander is the jitter times the fraction spread over [-1, 1], cut towards zero; both ends are reached |
| View.PollClamped | internal/ntpview/view.go:103-119 | the poll answer fits int8 and is the client's own, or the nearer configured bound when that lies outside |
| View.ReplyOrdered | internal/ntpview/view.go:42-63 | receive not after transmit stays so on the wire in era order, whatever wander is added to both |
| Codec.EncodeParse | internal/ntpwire/codec.go:10-66 | encoding a parsed datagram gives back its first 48 bytes |
| Codec.ParseEncode | internal/ntpwire/codec.go:10-66 | parsing an encoded packet gives it back if and only if LI, VN and Mode fit their bits |
| Codec.OriginateIsTransmit | internal/ntpwire/codec.go:32-60 | copying the parsed transmit time into the originate field copies bytes 40-47 of the request to 24-31 of the reply |
| Codec.PutU32 | internal/ntpwire/codec.go:40-60 | a word takes four bytes, the most significant first |
| Codec.U32RoundTrip | internal/ntpwire/codec.go:32-60 | reading and writing big-endian words undo each other both ways |
| Codec.OctetIn | internal/ntpwire/codec.go:15-44 | the fields read from the first octet put together again are that octet |
| OnTheWire.EncodeLaysOut | internal/ntpwire/codec.go:40-60 | every field of an encoded packet stands at its offset, words most significant octet first |
| Mac.SplitAppend | internal/ntpwire/mac.go:60-86 | splitting undoes appending if and only if the digest is 16, 20 or 32 bytes long |
| Mac.AppendSplit | internal/ntpwire/mac.go:60-86 | appending undoes every split that succeeds and finds a trailer |
| Mac.AuthenticShape | internal/ntpwire/mac.go:69-103 | a packet is authentic exactly when it splits into a header and the digest of key and header |
| Mac.VerifyMAC | internal/ntpwire/mac.go:89-103 | the byte loop accepts exactly the packets made of a header, a key id and the right digest |
| QueryLog.Ring.TryInsert | internal/querylog/ring.go:42-66 | with the lock the sample is appended and the oldest goes at capacity; without it nothing changes but the drop count |
| QueryLog.Ring.List | internal/querylog/ring.go:78-94 | the kept samples newest first; the correction of a negative index is never needed |
| QueryLog.Ring.Reset | internal/querylog/ring.go:96-106 | no sample is left and the capacity stays |
| QueryLog.Ring.Resize | internal/querylog/ring.go:118-145 | the newest samples that fit the clamped size survive in order |
| QueryLog.Ring.Refill | internal/querylog/ring.go:128-145 | writing the newest-first copies back rebuilds the samples oldest first |
| QueryLog.SlotIsMod | internal/querylog/ring.go:48-53 | the slot function of the proofs is the remainder the code indexes with |
| QueryLog.SlotsDiffer | internal/querylog/ring.go:48-53 | fewer than a ring's length apart, two positions never share a slot |
| QueryLog.KeepsNewest | internal/querylog/ring.go:42-145 | after any run the ring holds a suffix of everything inserted since the last wipe, within its capacity |
| QueryLog.DropsOnlyWhenFull | internal/querylog/ring.go:42-145 | if anything is missing, the ring was once exactly full and has lost nothing since |
| QueryLog.FixedCapacity | internal/querylog/ring.go:42-106 | without a resize it shows exactly the last cap samples since the last wipe |
| QueryLog.ShrinkThenGrow | internal/querylog/ring.go:118-145 | growing after shrinking brings nothing back, and shrinking after growing loses nothing more |
| RateLimit.QueryLimiter.Allow | internal/ntpserver/ratelimit.go:54-86 | the in-place update is idle eviction, room for a new key, refill and spend, for some oldest victim; what the refill amounts to is RateBound.CreditGrowth |
| RateLimit.QueryLimiter.SetRate | internal/ntpserver/ratelimit.go:38-52 | rate and burst take their defaults when not positive and every bucket stays |
| RateLimit.QueryLimiter.EvictIdle | internal/ntpserver/ratelimit.go:88-104 | exactly the buckets untouched for longer than the idle time go |
| RateLimit.QueryLimiter.EvictOldest | internal/ntpserver/ratelimit.go:106-120 | one bucket goes and none left is older |
| RateLimit.AlwaysBounded | internal/ntpserver/ratelimit.go:38-120 | over every run, rate changes included, at most 1024 buckets, never the empty key, never negative tokens |
| RateLimit.FreshIsBounded | internal/ntpserver/ratelimit.go:25-36 | a new limiter starts such a run, and no bucket of it exceeds the burst |
| RateBound.RateAndBurst | internal/ntpserver/ratelimit.go:25-52 | new or set anew, the rate is the one asked for or 1, the burst the one asked for or twice the rate |
| RateBound.WhichBucketsStay | internal/ntpserver/ratelimit.go:88-104 | a bucket stays exactly while it has been idle for at most 30 seconds or for no longer than its rate takes to earn four bursts |
| RateBound.WhoIsDropped | internal/ntpserver/ratelimit.go:54-120 | a request leaves all buckets that are not idle as they are, but a new key in a map of 1024 costs one than which none is older; the asking key's reading never goes back |
| RateBound.RequestSpendsCredit | internal/ntpserver/ratelimit.go:54-86 | a request is admitted exactly when its key has a whole token of credit, and spends it |
| RateBound.OthersKeepCredit | internal/ntpserver/ratelimit.go:54-120 | a request changes no other key's credit, unless it evicts that key, which then has the full burst |
| RateBound.CreditGrowth | internal/ntpserver/ratelimit.go:72-79 | between two instants credit grows by at most rate times nanoseconds over 10^9, by exactly that below the burst, and never past the burst |
| RateBound.CreditBalance | internal/ntpserver/ratelimit.go:54-120 | admitted plus left never exceeds what there was plus rate times nanoseconds over 10^9 plus one burst for every time the key was evicted for capacity |
| RateBound.RateBound | internal/ntpserver/ratelimit.go:54-120 | in any window of any run at a fixed rate a key evicted k times for capacity is admitted at most (k + 1) burst + rate times nanoseconds over 10^9 times |
| RateBound.PacedIsAdmitted | internal/ntpserver/ratelimit.go:54-120 | a key with a token whose requests are a gap apart, gap times rate at least 10^9 nanoseconds, is never refused, whatever the others do |
| RateBound.PacedFromTheStart | internal/ntpserver/ratelimit.go:25-86 | so is any key at a new limiter with a burst of at least one token |
| RateBound.IdleIsFull | internal/ntpserver/ratelimit.go:88-104 | a bucket old enough to be dropped has earned at least a full burst |
| RateBound.IdleEvictionUnobservable | internal/ntpserver/ratelimit.go:54-104 | with at most 1024 keys the limiter answers every trace as one that never evicts |
| Address.OverlapsMeansShared | internal/compiler/compile.go:296-305 | two prefixes overlap exactly when some address lies in both |
| Address.DefaultsCover | internal/config/validate.go:244-261 | the two default routes contain exactly the valid zoneless addresses |
| Address.UnmapIs | internal/snapshot/snapshot.go:50-62 | exactly the IPv4-mapped block is unmapped, each address to its last 32 bits |
| Snapshot.Match | internal/snapshot/snapshot.go:50-67 | the first enabled filter with a prefix holding the address or its unmapped form, or none if no filter has one |
| Snapshot.OnlyRoutableHit | internal/snapshot/snapshot.go:55-64 | no prefix matches an invalid or zoned address |
| Snapshot.MappedLikeV4 | internal/snapshot/snapshot.go:50-67 | an IPv4-mapped address is matched as its IPv4 address is, if and only if no enabled filter ahead of the IPv4 match has a prefix holding the mapped form itself |
| Model.NormalizeIdempotent | internal/config/normalize.go:39-109 | materializing defaults twice is doing it once, and no listener address is left blank |
| Model.DefaultsFilledIn | internal/config/normalize.go:39-109 | each default by its value, exactly where the document is blank, and nothing else changes |
| Validate.ValidateFilters | internal/config/validate.go:210-262 | the loop reports exactly the violations of the list, every complaint about every view included, with the first holder of a repeated name |
| Validate.ValidateView | internal/config/validate.go:264-422 | exactly the complaints that hold of the view are made, and none beyond the mode if that is unknown |
| Validate.NothingToComplain | internal/config/validate.go:264-422 | there is none if and only if the view is legal |
| Validate.ValidateName | internal/config/validate.go:218-230 | a name is reported blank, malformed or a duplicate of the first that has it, and recorded otherwise |
| Validate.ValidateCidrs | internal/config/validate.go:234-252 | exactly the unparseable entries are reported and a default route counts only on an enabled filter |
| Validate.NothingToReport | internal/config/validate.go:210-262 | nothing is reported if and only if names are good and unique, prefixes parse, views are legal and both catch-alls are enabled |
| Outcomes.ValidateNtp | internal/config/validate.go:144-208 | the loops report exactly the broken rules of the NTP section, each repeated version and unparseable prefix by its index |
| Outcomes.NothingBroken | internal/config/validate.go:144-208 | nothing is reported if and only if the section is valid |
| Compiler.BuildPrefixes | internal/compiler/compile.go:118-126 | the loop parses every entry in order, or fails if one does not parse |
| Compiler.BuildFilters | internal/compiler/compile.go:114-140 | the loop compiles the list filter by filter in order and collects the warnings of each view, or fails if one fails |
| Compiler.PrefixesOverlap | internal/compiler/compile.go:296-305 | true exactly when some pair of the two lists overlaps |
| Compiler.OverlapWarnings | internal/compiler/compile.go:274-294 | the loops warn, in order, of exactly the pairs of enabled filters that compete for some address |
| Mirror.CompileMirrors | internal/compiler/compile.go:41-235 | whatever compiles lets in, admits, restricts and answers as its document says, field by field: an address is let in if and only if a listed prefix holds it, and an absolute or frozen view carries the instant its text names |
| Mirror.CompileWarnsExactly | internal/compiler/compile.go:28-96 | what a compile warns of, told by the document before its defaults were filled in and by the snapshot |
| Mirror.EveryRunAsWritten | internal/compiler/compile.go:41-235 | the same of the active snapshot and document over every run |
| Mirror.EveryRunLegal | internal/config/validate.go:144-208 | over every run the limits are positive, versions are 3 and 4 or one of them without repeats, the restriction is one of the three and the log size legal |
| Outcomes.CompilesExactly | internal/compiler/compile.go:28-96 | a document compiles if and only if its normal form is valid, its key file could be read and every rate clock can be anchored; else the error of the first that fails |
| Warnings.OverlapsAre | internal/compiler/compile.go:274-305 | an overlap is warned of if and only if some address lies in both filters |
| Warnings.WarnedExactly | internal/compiler/compile.go:215-296 | a compile warns of exactly these: an allowlist left out, a view whose time is clamped, one unsynchronized at a stratum other than 16, and pairs of enabled filters that share an address |
| Warnings.WarningsAlike | internal/compiler/compile.go:42-47 | two compiles of a list with unique names warn alike, paths and all, if and only if no view's served time is clamped at the instant of one of them only |
| Warnings.NoticesAlike | internal/app/mutate.go:287-296 | without the paths, as a plan shows them, they are alike if and only if the counts of clamped views agree at every view that warns of its stratum and at the end |
| EpochChain.ApplyKeepsClock | internal/compiler/compile.go:168-188 | an unchanged rate leaves the served time identical at every instant; a changed one is continuous at the compile instant |
| EpochChain.EveryRateCompile | internal/compiler/compile.go:168-189 | what a compiled rate clock serves, whatever was there before: unchanged rate and key keep the old clock, else a key sets it to its instant, else a changed rate continues it, else it starts at the wall time |
| EpochChain.DroppingEpochJumps | internal/compiler/compile.go:168-188 | to a rate view with no epoch key the clock carries over, except that it jumps to wall time exactly when the rate stayed and a key was dropped |
| EpochChain.ChainOnIdeal | internal/compiler/compile.go:168-188 | over any chain of changes the anchor lies on the clock that sums each rate times its real time |
| EpochChain.ServedSumsRates | internal/compiler/compile.go:142-210 | while nothing clips, the served time is the first wall time plus each rate times the time under it, within a nanosecond per stretch |
| ClockRuns.CommitCompiles | internal/app/mutate.go:177-217 | a commit installs what the result of its operations compiles to on top of the snapshot it replaces |
| ClockRuns.RunSumsRates | internal/compiler/compile.go:142-210 | over every run from a boot in which the filter stays a rate clock with no epoch key, the served time at any unclipped instant is the boot's wall time plus every committed rate times the time under it, within a nanosecond per stretch |
| Operations.UpsertFilter | internal/app/operations.go:84-92 | the loop replaces the first filter of that name, or appends |
| Operations.RemoveFilter | internal/app/operations.go:94-106 | the in-place compaction leaves exactly the other filters in order, touches nothing behind them, and says whether the name was there |
| Operations.OperationsKeepFixed | internal/app/operations.go:10-146 | no list of operations touches what only a Reset may change, so the check on the result never fires |
| Operations.FixedSurvivesNormalize | internal/config/normalize.go:39-93 | normalizing such a result leaves that part as it was |
| Operations.UniqueNamesKept | internal/app/operations.go:84-106 | upsert and remove keep names unique, and an upsert keeps every other filter |
| Operations.OperationRefused | internal/app/operations.go:24-82 | which operations are refused, and with which code, each exactly when its payload is missing or its name is unknown |
| Operations.ReplacesItsPart | internal/app/operations.go:33-82 | each replace operation sets its own part to its payload and leaves the rest of the document |
| Operations.RemovesTheNamed | internal/app/operations.go:44-51 | a removal keeps exactly the filters of another name, by position and in order, and the rest of the document |
| Operations.UpsertsTheFilter | internal/app/operations.go:38-43 | an upsert replaces the first filter of its name or appends, and leaves every other position and the rest of the document |
| Operations.OneAfterAnother | internal/app/operations.go:10-22 | operations take effect in order, each on the result of those before, and one refused refuses them all |
| Edits.CommitInstalls | internal/app/mutate.go:73-120 | a commit installs the normalized result of its operations, compiled as that document says, and the query log takes its size |
| Edits.LastEditStands | internal/app/operations.go:24-106 | after a commit the payload of its last operation is what the snapshot answers with: limits, restriction, allowlist, log size, HTTP limits, filters; a removed name is gone and matches no address |
| Edits.SoleEditOnly | internal/app/operations.go:24-106 | a commit of one operation leaves every other part of the active document as it was; removal and upsert keep the other filters |
| Edits.RemovedStaysAway | internal/app/operations.go:44-106 | over every run without a Reset or an operation that brings its name back, no address is matched by a filter once removed |
| Routing.CompilePreservesMatch | internal/compiler/compile.go:114-140 | the compiled filter that answers an address is the document's first enabled filter meant for it |
| Routing.ValidListMatchesAll | internal/config/validate.go:244-261 | on a validated list exactly the addresses whose unmapped form is valid and zoneless have a match |
| Routing.UpsertExisting | internal/app/operations.go:84-92 | replacing filter i keeps every match before i, takes what is meant for it, sends the rest behind it, and changes nothing for an address meant for neither version |
| Routing.UpsertNewIsInert | internal/app/operations.go:84-92 | upserting a new name changes the match of no address |
| JsonDiff.WalkDiff | internal/app/diff.go:47-102 | the recursive walk appends exactly the entries of the difference, each once, under its path |
| JsonDiff.WalkStep | internal/app/diff.go:62-98 | one key or index yields an addition, a removal or the difference below it |
| JsonDiff.EntriesAreTrue | internal/app/diff.go:47-102 | every entry reports what lies at its path on both sides, and the sides differ there |
| JsonDiff.PrefixFree | internal/app/diff.go:47-102 | no entry's path is a prefix of another's |
| JsonDiff.EmptyIffEqual | internal/app/diff.go:47-50 | there is nothing to report if and only if the trees are equal |
| JsonDiff.PatchYieldsAfter | internal/app/diff.go:47-102 | applying the entries in any order to the before tree gives exactly the after tree |
| Recency.IndexOf | internal/app/idempotency.go:40-55 | where a key first stands in the order of use, or the length if nowhere |
| Recency.StepKeeps | internal/app/idempotency.go:40-140 | every operation keeps the keys distinct and the size within max |
| Recency.RunKeeps | internal/app/idempotency.go:40-163 | so does every run |
| Recency.PushKeeps | internal/app/idempotency.go:107-124 | the entry just inserted is first and is never the one evicted |
| Recency.StoreEvictsLast | internal/app/idempotency.go:107-124 | a new key at capacity costs exactly the last entry, and below capacity none |
| Recency.StepSpares | internal/app/idempotency.go:40-140 | an operation moves a stored answer back by no more than the keys touched since |
| Recency.FewKeysKeepAnswer | internal/app/idempotency.go:40-163 | while fewer than max keys are in play a stored answer cannot be lost to capacity |
| LastUse.StepInOrder | internal/app/idempotency.go:40-163 | each operation keeps the entries those of a plain table that stamps every use of a key, and in order of last use |
| LastUse.RunInOrder | internal/app/idempotency.go:40-163 | so does every run |
| LastUse.AnswersAsTable | internal/app/idempotency.go:40-163 | after every run from an empty cache a lookup answers as the table does, and the entries stand in order of last use |
| LastUse.NewKeyCostsStalest | internal/app/idempotency.go:107-124 | a new key in a full cache costs exactly the key used longest ago |
| IdempotencyCache.Cache.constructor | internal/app/idempotency.go:30-38 | an empty cache, of 256 entries when the size is not positive |
| IdempotencyCache.Cache.Unlink | internal/app/idempotency.go:150-163 | the node leaves the list, head, tail and both mirror-image chains intact |
| IdempotencyCache.Cache.LinkFront | internal/app/idempotency.go:112-120 | a detached node becomes the head |
| IdempotencyCache.Cache.Remove | internal/app/idempotency.go:142-148 | the entry leaves map and list alike |
| IdempotencyCache.Cache.MoveFront | internal/app/idempotency.go:126-140 | the entry comes first and the others keep their order |
| IdempotencyCache.Cache.InsertFront | internal/app/idempotency.go:107-124 | the new entry replaces any of its key, comes first, and the last one goes at capacity |
| IdempotencyCache.Cache.TrimTail | internal/app/idempotency.go:121-123 | the eviction loop cuts the list to max from the back |
| IdempotencyCache.Cache.Lookup | internal/app/idempotency.go:40-55 | a hit comes first; a miss or a fingerprint mismatch moves nothing |
| IdempotencyCache.Cache.StorePlan | internal/app/idempotency.go:57-69 | the same request's entry gains the plan, any other is replaced |
| IdempotencyCache.Cache.StoreApply | internal/app/idempotency.go:71-83 | the same request's entry gains the outcome, any other is replaced |
| IdempotencyCache.Cache.Evict | internal/app/idempotency.go:85-94 | exactly that key goes |
| IdempotencyCache.Cache.Clear | internal/app/idempotency.go:96-105 | nothing is left |
| IdempotencyCache.Cache.DistinctKeys | internal/app/idempotency.go:22-28 | map and list hold the same entries, no key twice |
| AppService.Service.constructor | internal/app/svc.go:78-143 | the state the process starts serving with |
| AppService.Service.Plan | internal/app/mutate.go:36-54 | the in-place Plan is the Plan step of the state before |
| AppService.Service.Apply | internal/app/mutate.go:73-121 | the in-place Apply is the Apply step of the state before |
| AppService.Service.Commit | internal/app/mutate.go:89-120 | resize, swap, count, audit and store are one commit |
| AppService.Service.Rebind | internal/app/reset.go:49-94 | NTP first, management second, and NTP back on failure |
| AppService.Service.LoadBootstrap | internal/app/reset.go:138-177 | the reread file, or else the bootstrap snapshot, compiled afresh without a previous snapshot |
| AppService.Service.Install | internal/app/reset.go:95-135 | wipe, resize, swap, clear and audit are one installation |
| AppService.Service.Reset | internal/app/reset.go:34-136 | the in-place Reset is the Reset step of the state before |
| PipelineRuns.CompiledOk | internal/compiler/compile.go:28-96 | a snapshot holds a valid normalized document, its hash and its own filters |
| PipelineRuns.CandidateIs | internal/app/mutate.go:177-217 | a candidate is the normalized result of exactly these operations on the active document at the expected revision |
| PipelineRuns.ApplyCases | internal/app/mutate.go:73-121 | an apply that does not commit touches only the cache and the error count |
| PipelineRuns.PlanTouchesCacheOnly | internal/app/mutate.go:36-54 | a plan touches only the cache |
| PipelineRuns.RebindOutcome | internal/app/reset.go:75-94 | a failed rebind leaves the NTP listener elsewhere if and only if Displaces holds, and where then; a successful one has management in place, and NTP if and only if its address changed or it was there |
| PipelineRuns.DisplacesFromPlace | internal/app/reset.go:75-94 | with both listeners in place Displaces says that both were to move, NTP did, and the management bind and the rollback failed |
| PipelineRuns.ResetAllOrNothing | internal/app/reset.go:34-94 | a failed Reset changes nothing but the place of the NTP listener, and that if and only if the document loads, the tokens pass and Displaces holds |
| PipelineRuns.DisplacedResetFails | internal/app/reset.go:75-94 | whenever the document loads and Displaces holds the Reset fails |
| PipelineRuns.ResetInstalls | internal/app/reset.go:95-136 | a successful one installs the reread document, clears log and cache and has management at its address; NTP is at its own if and only if the address differs from the old snapshot's or the listener was there |
| FreshReset.CompileStamped | internal/compiler/compile.go:142-235 | with no snapshot before it a compile depends on the generation in nothing but the stamp |
| FreshReset.ResetIsBoot | internal/app/reset.go:34-177 | a successful Reset leaves the snapshot, log and cache that booting its document at that instant would, up to the generation; history goes on |
| FreshReset.UnbootableResetFails | internal/app/reset.go:138-177 | a document that would not boot does not load, with the same error and nothing changed |
| FreshReset.BootIsFresh | internal/compiler/compile.go:151-189 | after a boot every clock is set at its instant: a rate clock without an epoch key serves the wall time there, one with a key the instant it names, the other modes what they say at every instant |
| FreshReset.ResetIsFresh | internal/app/reset.go:138-177 | so is every clock after a successful Reset, whatever it had been before |
| FreshReset.ResetReports | internal/app/reset.go:46-136 | the answer to a Reset: old and new revision, no operations, no drift, the warnings, the audit number, and a diff that patches the old tree into the new |
| FreshReset.OverrideWins | internal/app/svc.go:330-354 | an override decides where a listener goes, and turns management off if it says so with any spaces and case; without one the document decides |
| Outcomes.ResetsExactly | internal/app/reset.go:34-94 | a Reset succeeds if and only if its document loads, the tokens pass and each listener that has to move can be bound; else the error of the first that fails |
| PipelineRuns.FailedRollbackStrandsListener | internal/app/reset.go:75-94 | after a lost rollback the next Reset to the old address succeeds with the listener elsewhere |
| PipelineRuns.RunKeepsInv | internal/app/mutate.go:36-121 | every run of plans, applies, resets and queries keeps the invariant |
| PipelineRuns.EveryRun | internal/app/mutate.go:73-252 | over every run generation counts the commits, each commit replaced the revision the one before installed and the first the one booted with, the revision is the document's hash, and reset-only settings are as in the bootstrap document |
| PipelineRuns.EveryClientMatched | internal/snapshot/snapshot.go:50-67 | in every reachable snapshot exactly the routable clients match, and with the document's first filter meant for them |
| PipelineRuns.StepKeepsNtp | internal/app/reset.go:75-94 | one request leaves the NTP listener where the active snapshot says if and only if it is not a Reset that displaces it |
| PipelineRuns.NtpFollowsSnapshot | internal/app/reset.go:75-94 | all through a run the NTP listener is where the active snapshot says if and only if no Reset of the run displaces it |
| Idempotence.ApplyCommits | internal/app/mutate.go:73-121 | a committed apply had expected the revision it replaced and installs the normalized operations applied to that state |
| Idempotence.CommitRecords | internal/app/mutate.go:88-118 | a commit adds one audit event from the old revision to the new with the request's reason, counts one success and keeps the newest log entries that fit; its plan shows operations, warnings and drift |
| Idempotence.RefusalCounts | internal/app/mutate.go:73-92 | a refused apply counts one failure and has the error of the build, unless its key belongs to another request, which changes nothing |
| Outcomes.BuildsExactly | internal/app/mutate.go:177-217 | a candidate is built if and only if it names the active revision, its operations are accepted and their result compiles; else the error of the first that fails |
| Outcomes.CommitsExactly | internal/app/mutate.go:73-92 | an apply commits if and only if its key is not taken by another request, no outcome is remembered for it and its candidate can be built |
| Idempotence.ReportedDiffIsPatch | internal/app/mutate.go:206-209 | the diff it reports patches the old tree into the new one |
| Idempotence.DiffIsPatch | internal/app/diff.go:15-28 | so does the diff of any two documents, and it is empty only between equal trees |
| Idempotence.RememberedIsReplayed | internal/app/mutate.go:73-82 | repeating a remembered apply returns the stored outcome with no swap, generation, audit event or hook |
| Idempotence.OtherRequestRejected | internal/app/idempotency.go:50-52 | another fingerprint under the key is refused and changes nothing |
| Idempotence.EmptyAndAbsentCollide | internal/app/idempotency.go:165-180 | requests that differ only in empty against absent client lists are answered with each other's stored result, whichever came first |
| Idempotence.FingerprintsAgree | internal/app/idempotency.go:165-180 | unless the hash collides two requests have one fingerprint if and only if they are the same but for such lists |
| Idempotence.ConflictExactly | internal/app/idempotency.go:40-55 | under a key that remembers an outcome another request is refused, by Plan and by Apply, if and only if it differs in more than that; otherwise Apply answers with the outcome |
| Idempotence.BuildNeverConflicts | internal/app/mutate.go:177-217 | building a candidate never reports an idempotency conflict, so a conflict always comes from the cache |
| OperationJson.DecimalTellsApart | internal/model/operation.go:25-43 | different integers are written differently |
| OperationJson.FieldsTellApart | internal/model/operation.go:25-43 | an object tells which of its fields were omitted and what the others hold |
| OperationJson.OperationTellsApart | internal/model/operation.go:25-43 | two operations have one JSON form if and only if they are the same, or the same but for an empty client list against none |
| OperationJson.SameChangeLooksAlike | internal/app/idempotency.go:165-176 | changes that are the same in that sense are marshalled alike, whatever the text of floats |
| OperationJson.ChangeTellsApart | internal/app/idempotency.go:165-176 | and no others are |
| Idempotence.EmptyAndAbsentDiffer | internal/app/operations.go:59-64 | yet on every document one of the two admits every client and the other none |
| Idempotence.CacheFollows | internal/app/mutate.go:36-121 | every request does to the cache exactly the operations listed for it |
| Retention.ConflictMeansStale | internal/app/mutate.go:177-192 | a candidate fails with a revision conflict exactly when another revision is active |
| Retention.PushForgets | internal/app/idempotency.go:107-124 | a push loses another key's outcome exactly when that was last in a full cache and the pushed key is new |
| Retention.LostOnlyBy | internal/app/mutate.go:36-121 | a cached outcome or plan is lost if and only if a Reset succeeds, a new key with a candidate crowds it out of last place, or a Plan or Apply of the same request is stale and not answered from the cache |
| Retention.KeptExactly | internal/app/mutate.go:36-121 | an answer is kept all through a run if and only if no request of it does that |
| Retention.FewKeysLoseNothing | internal/app/idempotency.go:107-124 | in a run that uses fewer than max keys nothing is lost to capacity |
| Retention.RetryIsReplayed | internal/app/mutate.go:73-121 | after a commit under a key a retry has the first outcome after any run that does not lose it, and while fewer than max keys are used only a successful Reset or a stale Plan of the same request loses it |
| Agreement.SameActiveSamePlan | internal/app/mutate.go:177-252 | the same request on the same active snapshot has at any instant the same plan but for its warnings; the whole plan if and only if the counts of clamped views agree, and so if no view is clamped at one instant only |
| Agreement.CompilesWarnAlike | internal/compiler/compile.go:28-96 | two compiles of a document on one snapshot differ in the anchors of its clocks and, when a view is clamped at one of the instants only, in their warnings |
| Agreement.SetViewsClampAlike | internal/compiler/compile.go:215-222 | an absolute or frozen view is clamped by its own instant, at every compile alike |
| Agreement.RunKeepsTrue | internal/app/mutate.go:36-121 | over every run each cached plan is the true plan, warnings included, of its operations on some document at some instant |
| Agreement.PlanSpeaksOfActive | internal/app/mutate.go:36-54 | a Plan that succeeds reports the active revision if and only if the cache does not hold a plan of another revision for it |
| Agreement.PlanPredictsApply | internal/app/mutate.go:36-121 | with no commit between, an apply after a plan that was made goes through unless answered; its plan is the one given, but for warnings, if and only if that was made, or recalled from the active revision for the same operations; the warnings of a made one agree if and only if the counts of clamped views do |
| Agreement.EveryPlanPredicts | internal/app/mutate.go:36-121 | all of that in every reachable state, with any requests between that leave the active snapshot |
| Agreement.RecalledPlan | internal/app/mutate.go:41-45 | a cached plan answers whatever revision is expected |
| Agreement.RepeatedPlan | internal/app/mutate.go:36-54 | after any run that does not lose it a Plan asked for again has the first answer, right if and only if the first revision is active; while fewer than max keys are used only a successful Reset or a stale unanswered Apply of the request loses it |
| Agreement.RecalledPlanIsStale | internal/app/mutate.go:41-45 | after any run that leaves the plan cached and ends at another revision, the Plan repeated at that revision still reports the old one |
| Drain.RemoveDrain | internal/control/rest/server.go:327-332 | the loop removes the first occurrence of the channel and nothing else |
| Drain.Always | internal/control/rest/server.go:229-388 | the protocol's invariant holds after every schedule |
| Drain.DrainsListedOnce | internal/control/rest/server.go:229-335 | an unfinished drain is in the slice exactly once until it is over and nothing else is; no channel, done or ready, is closed twice |
| Drain.HookFires | internal/control/rest/server.go:299-304 | a shutdown hook leaves its channel closed, whether it fires or finds that it has fired |
| DrainRaces.HookRunsAgain | internal/control/rest/server.go:287-304 | one schedule in which a Shutdown's call releases the Rebind before its drain has begun and the hook then runs a second time on a closed channel |
| Drain.NoServerLost | internal/control/rest/server.go:256-288 | every server ever installed is the current one or belongs to exactly one drain |
| Drain.RebindClosesOld | internal/control/rest/server.go:292-320 | a Rebind that has swapped and returned did so without an error, and the listener that it found at the swap is closed |
| Drain.NoDeadlock | internal/control/rest/server.go:292-388 | whoever is blocked waits for a channel that another goroutine, the holder of the drain or a hook, can go on to release |
| Drain.QuiescentIsClean | internal/control/rest/server.go:292-335 | once every goroutine has returned the slice is empty, every channel of either kind is closed and every detached server shut down |
| Drain.ShutdownNilMeansDrained | internal/control/rest/server.go:351-388 | when a Shutdown has returned nil, every drain detached before its snapshot is over: its server is shut down and finishDrain has taken its channel out of the slice |
| DrainEnds.EveryStepNearsEnd | internal/control/rest/server.go:229-388 | every step of a goroutine leaves fewer Shutdowns before their snapshot, or as many and fewer steps to take |
| DrainEnds.EveryDrainEnds | internal/control/rest/server.go:292-388 | however a schedule went, letting its goroutines go on brings each of them to its end, with the slice empty, every channel of either kind closed and every drain over |
| Drain.FailedRebindChangesNothing | internal/control/rest/server.go:252-255 | no step of a Rebind that returned an error touched the server, listener, address, closed flag or drains |
| DrainTargets.RebindInstalls | internal/control/rest/server.go:252-280 | over every schedule the swap of a Rebind to an address installs a server never there before on the listener its own net.Listen opened, at the address that was bound, and opens management; the swap of one to no address leaves no server, listener or address, closed |
| DrainTargets.RebindReturns | internal/control/rest/server.go:229-280 | a Rebind that has returned nil has swapped or had found its own non-empty address bound and open; one that has returned an error could not listen |
| DrainTargets.RebindSkips | internal/control/rest/server.go:236-244 | called with the address that is bound and open, its first step is its last |
| DrainTargets.ShutdownTakesDown | internal/control/rest/server.go:351-388 | a Shutdown that has returned had closed management; without an error the server it found is shut down, or the bare listener closed, and an error means its context ended or the server's own Shutdown failed |
| DrainTargets.FailureIsReported | internal/control/rest/server.go:351-388 | no failure is lost: a Shutdown whose server's own Shutdown failed, or whose context ended while it waited for a drain, returns an error |
| DrainTargets.ServeInstalls | internal/control/rest/server.go:174-196 | Serve installs a new server if and only if management is open and has none |
| Responder.NamedKeySigned | internal/ntpserver/handle.go:42-56 | with keys on exactly the packets signed by a configured key pass |
| Responder.OneDecision | internal/ntpserver/handle.go:25-171 | every heard packet yields exactly one decision and a reply exactly for serve and kiss; the unheard ones are the legal sizes with no snapshot or no valid signature |
| Responder.ReplyMirrorsRequest | internal/ntpserver/handle.go:108-187 | a reply is never longer than its request, echoes its transmit field and version, is in server mode and is signed by the same key |
| Responder.NoReplyToReply | internal/ntpserver/handle.go:72-76 | a reply fed back to this or any other server of the kind is never answered |
| OnTheWire.DecisionDrawn | internal/ntpserver/handle.go:14-119 | every heard packet draws the decision its size, version, mode and transmit octets call for, in that order, else the one judged, counted under its version |
| OnTheWire.ServedSays | internal/ntpserver/handle.go:121-171 | the one datagram sent for a served packet says, octet by octet, what the matched view serves: leap, stratum, poll, precision, delays, reference id and the four times; so does the log entry |
| OnTheWire.KissedSays | internal/ntpserver/handle.go:173-196 | a kiss is unsynchronized, stratum 0, code RATE, with no time but the request's transmit time, and logged without a client |
| OnTheWire.ReferenceAhead | internal/ntpserver/handle.go:121-141 | in every mode but freeze and rate the reply claims to have been set after it was sent if and only if the wander is positive |
| EndToEnd.ServedAsConfigured | internal/ntpserver/handle.go:25-171 | after any run of changes from a boot a served client comes from a listed address in a listed version and is told what the first enabled filter of the active document meant for it says |
| Preview.PreviewPredictsAnswer | internal/app/preview.go:13-56 | a served packet is answered by the previewed filter at the previewed time plus exactly the wander, on the wire to a nanosecond and in the log, with receive not after transmit |
| Preview.MappedClientAlike | internal/ntpserver/server.go:347-363 | an IPv4-mapped client is treated in every respect as its IPv4 address, by the handler and by the preview |
| Preview.PreviewDecides | internal/app/preview.go:38-46 | for a good packet within the limits the preview says which decision is taken |
| Preview.PreviewTells | internal/app/preview.go:31-55 | a preview shows the matched filter's name, mode, leap, stratum and reference id, the time it serves and its distance from the host's |
| NtpServer.Server.constructor | internal/ntpserver/server.go:76-104 | three fresh limiters at their built-in rates and nothing sent |
| NtpServer.Server.SyncAdmission | internal/ntpserver/server.go:134-140 | both admission limiters take the snapshot's rates and keep their buckets |
| NtpServer.Server.ScreenPacket | internal/ntpserver/handle.go:42-82 | signature, version, mode and transmit checks in order |
| NtpServer.Server.JudgePacket | internal/ntpserver/handle.go:84-115 | allowlist, global then per-client admission, restriction and match, spending only the tokens reached |
| NtpServer.Server.FinishPacket | internal/ntpserver/handle.go:102-196 | one decision, at most one datagram and at most one log entry |
| NtpServer.Server.Handle | internal/ntpserver/handle.go:25-171 | the in-place handler is the handler function of the state before, for some legal evictions |
| ServerRuns.JudgedByCredit | internal/ntpserver/handle.go:84-119 | each outcome holds exactly under its condition on allowlist, tokens, restriction and match |
| ServerRuns.SpendsInOrder | internal/ntpserver/handle.go:84-95 | a refused packet spends nothing below the check that refused it, and an allowed one exactly one global token if there is one |
| ServerRuns.LimitsFollowSnapshot | internal/ntpserver/server.go:134-140 | before a packet is counted the limits are the snapshot's: as many tokens a second as it says, twice as many at once, every bucket kept |
| ServerRuns.LimitsAfterPacket | internal/ntpserver/handle.go:26-40 | every packet of a legal size that finds a snapshot leaves the limits set to it, heard or not, and any other leaves the limiters as they are |
| ServerRuns.GateBalance | internal/ntpserver/handle.go:91-95 | replies sent plus global credit left never exceed the credit there was plus max times nanoseconds over 10^9 |
| ServerRuns.NeverAmplifies | internal/ntpserver/handle.go:25-196 | over every run, snapshots changing, replies and replying decisions rise together and no more bytes leave than came |
| ServerRuns.ReplyRate | internal/ntpserver/handle.go:91-95 | in any window of any run with a limit of max packets a second, at most 2 max + max times nanoseconds over 10^9 replies leave |
| Witness.AssumptionsAreMet | internal/app/mutate.go:36-121 | a valid service boots a document, plans a change and commits it, meeting every assumption made of service and state |
| Findings.ListenerIsStranded | internal/app/reset.go:49-94 | from a boot at :123 a Reset that cannot move management leaves NTP at :1123, and the next one back to :123 succeeds and leaves it there |
| Findings.PlanIsStale | internal/app/mutate.go:41-45 | a plan made at one revision, a commit, and the plan asked for again at the next revision: it still reports the first |
| Findings.CloseIsTakenForOpen | internal/app/idempotency.go:165-180 | after opening the server to every client, closing it under the same key is answered with the first result and nothing closes; under a fresh key it closes, and a list with a prefix or another operation is refused |
| Findings.ClockJumps | internal/compiler/compile.go:168-188 | a clock that serves four seconds past its epoch serves the host's three once the key is dropped |
| Findings.WarningComes | internal/compiler/compile.go:223-229 | a plan made in the last nanosecond that can be served, and its apply a nanosecond later, which reports one warning more |
| Witness.ChainStarts | internal/compiler/compile.go:28-96 | a document with one rate clock compiles and starts a chain of clock changes |
| PacketWitness.PacketIsServed | internal/ntpserver/handle.go:25-171 | a freshly started server with that document serves a client packet |
| PacketWitness.SetAfterSent | internal/ntpserver/handle.go:121-141 | a follow-real view whose reply is sent eight nanoseconds into 1970 and claims to have been set sixteen into it |

## Left out

- The Validate operation, ListQueries paging, scopes and roles, the audit ring's bound, capability registry, session table and metrics registry: smaller repeats of what is modelled.
- Sockets, HTTP, TLS, signals, flags, logging and the UI are not part of this model; a write of a reply is taken to be attempted and its error ignored, as in the handler.
- YAML and JSON decoding, netip and RFC 3339 parsing are parameters; prefixes are a family with bits, and a zoned address is in no prefix.
- The validators other than those of the filter list and of the NTP section are one parameter predicate.
- Exact float64 rounding and NaN: rates and tokens are reals, truncated toward zero where the code converts.
- RateLimit.QueryLimiter.Allow: does not model the overflow of an idle time beyond int64 nanoseconds, nor saturation of the elapsed time between two uses of one bucket, nor readings of the clock taken before the lock by concurrent handlers.
- View.ModesCoincide: equal in exact reals; the source goes through float64 seconds, which drift from the integers over long spans.
- OperationJson.OperationTellsApart: string escaping and invalid UTF-8 are left out, so texts are compared as they are.
- QueryLog.Ring.TryInsert: whether the lock is obtained in time is a parameter; inserts between the two lock sections of Resize are not modelled.
- NtpServer.Server.Handle: packets are handled one at a time; the eleven atomic counters, the filter-name metric and the in-flight limit are left out, the decision labels are kept.
- Responder.OneDecision: the four octets of a reference id and the text form of an address are parameters.
- Validate.ValidateFilters: the texts of violations and their order are left out; a rate is a real, so that it is finite is not checked.
- Warnings.NoticesAlike: the texts of warnings are left out but for the two names an overlap tells.
- JsonDiff.WalkDiff: paths are structured instead of joined strings, the order of keys is left open, and sorting by joined path is left out.
- Operations.UpsertFilter: on a sequence value; the source edits the backing slice of a private copy of the document.
- AppService.Service.Apply: plans and results are values, so cloning and aliasing are left out; an apply always finds a query log.
- AppService.Service.LoadBootstrap: the stat and read of the file are one parameter outcome, and the content of a key file another.
- AppService.Service.Rebind: the management listener's own resolved address is not modelled; identity is the requested address, as the Reset compares it.
- Agreement.PlanPredictsApply: assumes that no other normalized document shares the revision of the active one, as SHA-256 is taken to ensure.
- Drain.Always: goroutines that serve requests, and the timeout of a drain, are not modelled; a drain's call of Shutdown or Close is one step.
- DrainTargets.ServeInstalls: Serve is one step, so a Shutdown that closes between its two reads of the closed flag is not modelled, nor is the listener it then closes, or closes when it refuses.
- Drain.ShutdownNilMeansDrained: nothing is claimed of what serves after a Shutdown that a Rebind overtakes; requests in flight inside a server are not modelled.
- DrainEnds.EveryDrainEnds: a call into the HTTP server's shutdown is taken to return; how long it takes is not modelled.
- EpochChain.ApplyKeepsClock: absolute views get a fresh elapsed origin at every compile and are not claimed to survive unrelated applies.
