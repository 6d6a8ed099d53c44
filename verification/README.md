# A verified model of the AI gateway's hard parts

AKO's Gateway API component turns Kubernetes objects into load-balancer
configuration. Its AI gateway goes further: it emits Lua scripts that run on Service
Engines, keep token budgets and a usage ledger in a table with expiring entries, and
decide which model tier, tool or agent call is allowed. This project models what
those scripts and the Go code around them do, and proves what they are for.

`dafny verify dfyconfig.toml` checks everything.

| files | component |
|---|---|
| `SeTable`, `TokenCounters`, `UsageParse`, `UsageLedger`, `DrainText` | one Service Engine's table: fixed-window counters, usage parsing, the usage-record ring and its drain |
| `UsageBody`, `RingTerms`, `DrainKeys` | what the parser reads from bodies as backends print them, and the ring's records, lifetimes and answers in plain numbers |
| `CarryProtocol`, `BudgetNames` | native token budgets: per-engine carries charged to one shared limiter by the request script, and the limiters built for a limit |
| `Accounting`, `FleetRun` | all of these on one table, and every run of any number of engines |
| `FleetLedger`, `CarryRun`, `CarryLife`, `Enforcement`, `BoundedOverage`, `OverageReached` | what holds over every run: exactly-once and complete receipts, conservation of tokens, how long a carry lasts, who is admitted and what a response costs, bounded overage and a run that reaches the bound |
| `RouteReconcile`, `GatewaySync`, `SyncRun`, `SyncOutcome` | rebuilding a route's children inside a gateway's model, a whole Gateway sync under a concurrent reader, any sequence of syncs of several gateways, and what a sync leaves behind |
| `ModelRoute`, `ModelDiscovery`, `AccessLists` | policies compiled to constant tables and a script decision |
| `InferenceWeights`, `ScrapeLoop` | pool-member ratios and the loop that publishes them |
| `Base64Url`, `LuaLiteral`, `DedicatedRules`, `Text` | codecs, printed literals, the ordered rule list, strings |

Code that changes things step by step is modelled by methods on objects with the same
state, each proved equal to a function on values; the theorems over runs are about
those functions. A script is one atomic step on its engine's table.

Taken as given about the platform: an insert never overwrites a present key; a lookup
does not extend an entry; a limiter consumes all of a request or none of it, and one
that was never created grants nothing; a model's checksum identifies its contents;
reading a route's child list from the store gives a copy
(`internal/objects/store.go:107-119`); child names are derived from a gateway and a
route, so a name has one owner. The collector is not part of the repository; it is
modelled as the design document describes it (`docs/gateway-api/ai-gateway-token-ledger.md:114-123`),
with one cursor per instance. That it uses a page only if the page starts from the
cursor held for the instance that answered is an assumption; it is the one guard under
which a page neither repeats nor skips (`FleetLedger.GuardExactly`).

## Where the code and its documentation differ

* The ring's instance id contains the first client's address, and the field reducer
  keeps colons. With an IPv6 client the head is read back short by one, the second
  record overwrites the first, and from then on the ring behaves as one under the id
  cut at its colon (`FleetRun.HeadTrueExactly` over runs, `UsageLedger.TwoRecordsKept`
  for two records; `UsageLedger.MintHasColon` says it of the address).
* A response's figures are found by the first occurrence of their key, so a model that
  stands before the usage object and is named like a key takes that key's place: the
  object's first figure is read instead (`UsageBody.FigureReads` is exact about it).
* Engines are read under one id exactly when they mint in the same second for addresses
  that agree as far as the id shows them (`UsageLedger.IdsMeetExactly`; of an IPv6
  address that is its first group); then, and only then, sweeping both rings
  misses records (`FleetLedger.SweepExactly`, at one client in
  `SameClientMissed`).
* A request refused by one native limit has already been charged by the native limits
  before it (`CarryProtocol.RefusedYetCharged`); it leaves everything as it was exactly
  when the first native limit cannot be paid (`UnchangedExactly`).
* Ratios do not always sum to 100 (`InferenceWeights.TotalExactly` is the exact
  condition, `TotalsOff` gives the failing families).
* A publish deferred by the gateway handler is lost exactly when the route lookup
  that follows fails (`GatewaySync.NoLostPublish`).
* The entitlement table mirrors the policy only if rules for one group agree; nothing
  rejects a policy in which they do not (`ModelRoute.TableExact`).
* A2A calls that name no method are denied by the policy's own reading and passed by
  the script unless a method is required (`AccessLists.CallMirroredExactly`).
* Limit names can share counters when one, closed by a colon, starts another
  (`TokenCounters.CounterKeysCollide`), and a limit or epoch named `tkcarry` can put a
  display counter on a carry (`CarryProtocol.CounterMeetsCarry`). The theorems about
  runs assume exactly the complement.
* A group budget that is not positive is named by the script although its limiter is
  never built (`CarryProtocol.ResolvedIsBuilt`).
* In dedicated mode any match on `/`, an exact one included, suppresses the default
  rule, so a request can meet no rule at all (`DedicatedRules.ExactRootGap`, and
  `EveryRequestServed` for exactly when every request meets one).

## Model

| member | source | states |
|---|---|---|
| `FleetRun.AlwaysOk` | `ako-gateway-api/aigateway/datascript.go:134-297` | in every run, on every engine at once, all counters are exact, the ring invariant holds and every record is plain text, although counters, ring and carries share one table |
| `FleetRun.StepKeeps` | `ako-gateway-api/aigateway/datascript.go:134-297` | each script, a refill, a tick and a drain keep that on every engine |
| `FleetRun.CountersRefineSums` | `ako-gateway-api/aigateway/datascript.go:780-798` | in every run, for every engine, limit and identity, the counter a script would look up is the sum of that identity's charges there in the current window |
| `FleetRun.HeadTrueExactly` | `ako-gateway-api/aigateway/usage_ledger.go:231-264` | the head is the id minted with the number of records appended under it if and only if that id has no colon; with a colon it is short by exactly one, the first record |
| `FleetRun.DrainsReadable` | `ako-gateway-api/aigateway/usage_ledger.go:183-195` | in every run, the JSON a drain prints by plain concatenation reads back as the page it answered |
| `UsageLedger.IdsMeetExactly` | `ako-gateway-api/aigateway/usage_ledger.go:246-250` | two lives, on whatever engines, are read under the same id if and only if they began in the same second for client addresses that agree as far as the id shows them (up to the length cap and the first colon) |
| `FleetRun.RingLifetime` | `ako-gateway-api/aigateway/usage_ledger.go:33-56` | in every run, whoever the clients are, a ring without a head exposes no record; otherwise the live records are exactly those of the head's own life younger than their lifetime, the head counts the records kept, and no two lives are read under the same id |
| `FleetLedger.ReceivedExactlyOnce` | `ako-gateway-api/aigateway/usage_ledger.go:129-141` | in every run in which engines are read under different ids, a collector that uses a page only if it starts from the cursor held receives no (instance, number) twice, each receipt is the record that instance kept under that number, and each cursor is exactly delivered + lost + expired |
| `FleetLedger.GuardExactly` | `ako-gateway-api/aigateway/usage_ledger.go:159-175` | that guard is the one there is: a page delivers exactly the numbers after the cursor held if and only if it starts there |
| `FleetLedger.NothingMissed` | `ako-gateway-api/aigateway/usage_ledger.go:44-70` | in every run in which an instance is always polled while what it has beyond the cursor is young and within the scan window, every number up to the cursor has been received |
| `FleetLedger.AllReceived` | `ako-gateway-api/aigateway/usage_ledger.go:44-70` | and once the cursor has reached the head, every record the life kept has been received as it was kept |
| `FleetLedger.PunctualIsYoung` | `ako-gateway-api/aigateway/usage_ledger.go:46-50` | less than a record's lifetime after a moment at which everything kept had been received, everything beyond the cursor is young |
| `FleetLedger.LedgerStep` | `ako-gateway-api/aigateway/usage_ledger.go:129-181` | every step keeps what the collector holds true of the engines |
| `FleetLedger.SweepExactly` | `ako-gateway-api/aigateway/usage_ledger.go:129-141` | two rings swept one after the other are neither double-counted nor missed if and only if they are read under different ids |
| `FleetLedger.SameClientMissed` | `ako-gateway-api/aigateway/usage_ledger.go:246-250` | one client first metered on two engines in the same second: the second engine's record is never received |
| `BoundedOverage.OverageBound` | `ako-gateway-api/aigateway/datascript.go:579-663` | with the rejecting action, ceilings at most B, at most K admitted requests not yet accounted on the engine and at most M a response, an identity's total there in any window is at most B - 1 + K*M in every reachable state |
| `OverageReached.BoundReached` | `ako-gateway-api/aigateway/datascript.go:579-663` | for all B, K, M from 1 up there is a run of that setting that charges exactly B - 1 + K*M in one window |
| `CarryProtocol.UnchangedExactly` | `ako-gateway-api/aigateway/datascript.go:262-278` | told from the state before: a request leaves table and buckets as they were if and only if there is no native limit or the first one cannot be paid |
| `CarryProtocol.RefusedYetCharged` | `ako-gateway-api/aigateway/datascript.go:262-278` | two native limits, the first payable and the second not: the request is refused and the first bucket is down by what was due |
| `CarryProtocol.RefusedYetChargedAt` | `ako-gateway-api/aigateway/datascript.go:262-278` | the same at concrete limits, budgets 5 and 0 |
| `CarryRun.BudgetCovers` | `ako-gateway-api/aigateway/native_token.go:143-236` | in every run, the tokens an identity used under a native limit, over all engines, are at most the sizes of the limit's buckets plus refills plus what is staged plus what expired |
| `CarryRun.SettledWasDrawn` | `ako-gateway-api/aigateway/native_token.go:187-201` | in every run, what was settled for an identity under a limit was drawn from buckets of that limit |
| `CarryRun.BucketsCover` | `ako-gateway-api/aigateway/native_token.go:73-137` | the limiter of the limit, or of its groups and the fallback, are all the buckets its requests can be charged to |
| `SyncRun.AlwaysConsistent` | `ako-gateway-api/nodes/dequeue_ingestion.go:31-198` | from nothing, after any syncs of any gateways in any order, every gateway's children have distinct names and the one shared store covers each under its own route and no other, repeating nothing |
| `SyncRun.StepKeeps` | `ako-gateway-api/nodes/dequeue_ingestion.go:126-198` | a sync of one gateway keeps every other gateway's model consistent with the store |
| `SyncRun.ReconciledInEveryRun` | `ako-gateway-api/nodes/avi_model_l7_translator.go:86-249` | whatever was synced before, rebuilding a route in a gateway comes out exact |
| `SyncRun.NoWindowInEveryRun` | `ako-gateway-api/nodes/dequeue_ingestion.go:348-381` | whatever was synced before, a Gateway key opens no childless window |
| `UsageParse.Scan` | `ako-gateway-api/aigateway/datascript.go:740-743` | either byte loop stops at the first byte of the other kind |
| `DedicatedRules.EveryRequestServed` | `ako-gateway-api/nodes/avi_model_l7_dedicated_translator.go:115-177` | without regular expressions for paths, every request meets a rule if and only if no match has the root path or some prefix match takes every path whatever the headers |
| `SyncOutcome.GatewayOutcome` | `ako-gateway-api/nodes/dequeue_ingestion.go:79-198` | after a Gateway key with its route lookup, for each route the gateway's children are exactly those its last job that did not error asks for: one per rule name with the last such rule's contents, none when the route is gone or has no hosts there; a route without such a job keeps its children in order; names are distinct, the default policy is on, the parent is the one just built; a missing class or a missing gateway the lister knows leaves no model |
| `SyncOutcome.RouteKeyOutcome` | `ako-gateway-api/nodes/dequeue_ingestion.go:126-198` | the same of the part of a route's key that concerns one gateway |
| `SyncOutcome.GatewayOutcomeInEveryRun` | `ako-gateway-api/nodes/dequeue_ingestion.go:79-198` | and it holds whatever was synced before, for any gateways in any order, from nothing |
| `SyncOutcome.RouteKeyOutcomeInEveryRun` | `ako-gateway-api/nodes/dequeue_ingestion.go:126-198` | the same for a route's key |
| `SyncOutcome.SettledInEveryRun` | `ako-gateway-api/nodes/dequeue_ingestion.go:383-406` | between syncs the checksum kept is that of the model kept, in every run |
| `SyncOutcome.RouteKeyPublishes` | `ako-gateway-api/nodes/dequeue_ingestion.go:189-197` | with no route gone, a route's key is published exactly when the model it leaves differs from the one the checksum was taken of |
| `SyncOutcome.GatewayGone` | `ako-gateway-api/nodes/dequeue_ingestion.go:271-346` | a gateway whose class is gone loses its model and its key is published; a missing one does if the lister has an entry, and otherwise nothing changes; a foreign one without a model changes nothing |
| `CarryLife.CarryLasts` | `ako-gateway-api/aigateway/native_token.go:220-236` | after a response each native limit's carry is there in full at every moment of the window that follows, and gone once the window has passed |
| `CarryLife.ExpiryExactly` | `ako-gateway-api/aigateway/native_token.go:220-236` | in every run, a carry that is there lives to exactly one window after the response that last staged into it |
| `CarryLife.YoungNeverExpires` | `ako-gateway-api/aigateway/native_token.go:220-236` | in every run, a tick drops nothing of a carry into which tokens were staged less than a window before |
| `CarryLife.OldIsGone` | `ako-gateway-api/aigateway/native_token.go:220-236` | in every run, a carry not renewed for a window is gone |
| `CarryLife.HeldForAWindow` | `ako-gateway-api/aigateway/native_token.go:143-236` | in every run, what a response staged is there in full until a window later, with all that was staged since, if no request of its consumer came to the engine in between |
| `CarryLife.DueWithinAWindow` | `ako-gateway-api/aigateway/native_token.go:176-201` | so that consumer's next request on that engine within the window is due all of it, and a probe of 1 only if nothing was used |
| `BudgetNames.LimiterHoldsBudget` | `ako-gateway-api/aigateway/native_token.go:73-137` | the limiter a caller's requests are charged to was built with the caller's own budget, cut to 32 bits: the group's if the limit lists it, else the limit's; a budget that is not positive has no limiter, and an unlisted group is refused exactly when the limit has no budget of its own |
| `BudgetNames.BuildLimiters` | `ako-gateway-api/aigateway/native_token.go:73-102` | the builder's loop over the sorted groups builds those limiters |
| `BudgetNames.BuiltIsNames` | `ako-gateway-api/aigateway/native_token.go:73-102` | a name is built exactly if a limiter of that name is in the list |
| `Enforcement.AdmittedExactly` | `ako-gateway-api/aigateway/datascript.go:579-663` | in every run a request is admitted exactly when each limit that is not native, for what was charged so far in the window to the caller or the address, is under its budget, the group's budget, or the budget for unlisted groups; an unlisted group without one is refused even by a limit that only logs |
| `Enforcement.ResponseCounts` | `ako-gateway-api/aigateway/datascript.go:780-798` | in every run a response adds to the counter the next request reads, for its caller or address, the figure the limit counts, and nothing to any other counter |
| `Enforcement.StagingCounts` | `ako-gateway-api/aigateway/native_token.go:220-236` | the native response script does the same for the display counters of native limits |
| `Enforcement.BodyCounts` | `ako-gateway-api/aigateway/datascript.go:712-798` | from the body to the counter, in every run: a usage object that states p, c and t costs a prompt limit p, a completion limit c and a total limit t, or p + c without t |
| `Enforcement.EpochsApart` | `ako-gateway-api/aigateway/datascript.go:473-482` | counters of two epochs never meet, whatever the limits, callers and windows |
| `UsageBody.BodyCosts` | `ako-gateway-api/aigateway/datascript.go:712-776` | the usage object a backend prints, with its keys in any order, other keys beside them, the model before or after it, parses to exactly the prompt, completion, total, cached and reasoning figures it states and to that model; the total is p + c when not stated |
| `UsageBody.FigureReads` | `ako-gateway-api/aigateway/datascript.go:736-746` | each figure is read under its own key and 0 under an absent one, unless the model stands first and bears the key as its name: then, and only then, the object's first figure is read instead |
| `UsageBody.ModelReads` | `ako-gateway-api/aigateway/datascript.go:726-735` | the model is read back for any quote-free name |
| `UsageParse.PenaltyExactly` | `ako-gateway-api/aigateway/datascript.go:758-770` | the penalty is for a metered body in which no figure was read and which was compressed or filled the buffer of 262144 bytes, and for no other |
| `RingTerms.RecordTells` | `ako-gateway-api/aigateway/usage_ledger.go:217-264` | split at its pipes a record gives the second, the caller, model and tier reduced to 96, 64 and 32 allowed characters, the prompt, completion, cached and reasoning figures, the quality and the route, in this order |
| `RingTerms.RecordLasts` | `ako-gateway-api/aigateway/usage_ledger.go:44-56` | a record is read for 300 seconds after it was appended and the head for 86400 |
| `RingTerms.PageSays` | `ako-gateway-api/aigateway/usage_ledger.go:157-175` | to any cursor a drain answers with the live numbers past it that are among the last thousand, in order, up to the head or to as many as asked for, 200 when none or more were asked; the numbers skipped are told; a negative cursor or one past the head counts as 0 |
| `RingTerms.OnePage` | `ako-gateway-api/aigateway/usage_ledger.go:157-175` | and no other page meets the drain's specification |
| `DrainKeys.NumbersUnderKeys` | `ako-gateway-api/aigateway/usage_ledger.go:174-177` | whatever the records hold, a scan of the answer finds the head, the next cursor and the loss under "head", "next" and "lost" |
| `FleetLedger.PollAdvances` | `ako-gateway-api/aigateway/usage_ledger.go:129-141` | a page that starts from the cursor held moves that cursor to its end, further on unless the head was reached, and adds its records to the history in order; other cursors stay |
| `FleetLedger.CatchesUp` | `ako-gateway-api/aigateway/usage_ledger.go:129-141` | polls of an engine with nothing new reach the head, each coming at least one number nearer |
| `ModelDiscovery.DiscoveryExactly` | `ako-gateway-api/aigateway/modelroute_discovery.go:113-200` | an alias is discovered exactly if it is not empty, no glob and not stated by the policy, and some pod that is not terminating claims it for a declared tier; it then has the tier of the claimant created first, the dictionary order of namespace/name deciding among equals |
| `ModelRoute.DecisionIs` | `ako-gateway-api/aigateway/modelroute_types.go:429-487` | the policy's decision in its own terms: the model's exact tier, else the longest glob's, else the default; routed there if the first rule for the group allows it; otherwise refused, or sent to the first declared tier the group may use, refused if there is none |
| `AccessLists.ToolAllowedIff` | `ako-gateway-api/aigateway/mcproute_types.go:203-243` | a role may call a tool exactly when there are no rules, or the tool is named and some entry listed for the role is "*", the tool, or a star behind a beginning of it |
| `AccessLists.CallAllowedIff` | `ako-gateway-api/aigateway/a2aroute_types.go:248-279` | an agent may invoke a method exactly when there are no rules, or the method is named and some entry listed for the agent covers the method or the skill presented |
| `InferenceWeights.KvCounts` | `ako-gateway-api/inference/weights.go:109-113` | the score of a reachable pod strictly falls with cache use above 0.75 when alpha is positive, and cache use counts for nothing otherwise |
| `InferenceWeights.WaitingCounts` | `ako-gateway-api/inference/weights.go:99-104` | it strictly falls with waiting requests once they were seen in two scrapes running and some pod has some, and they count for nothing otherwise |
| `InferenceWeights.RunningCounts` | `ako-gateway-api/inference/weights.go:115-124` | it strictly falls with running requests up to capacity when beta is positive, and they count for nothing otherwise |
| `InferenceWeights.FullLoad` | `ako-gateway-api/inference/weights.go:97-127` | an idle pod has load 0; the longest queue costs exactly 1, a full cache alpha and full capacity beta, and all of them their sum |
| `InferenceWeights.BusierGetsNoMore` | `ako-gateway-api/inference/weights.go:68-152` | a reachable pod at least as busy in every figure scores no more and gets no more of the pool before one ratio is adjusted |
| `InferenceWeights.LessScoreNoMore` | `ako-gateway-api/inference/weights.go:132-152` | of two reachable pods the one that scores less gets no more before that |
| `ScrapeLoop.StoredRatios` | `ako-gateway-api/inference/scraper.go:207-256` | after any ticks the store holds, for each pod of the last cycle and no other, the ratio the weights give to the figures that cycle scraped and to the pod's run of scrapes with requests waiting |
| `DedicatedRules.StrongestAnswers` | `ako-gateway-api/nodes/avi_model_l7_dedicated_translator.go:132-228` | of all matches of all rules that fit a request the one that answers is exact if any fitting one is, is no regular expression if a prefix fits, is longest within its class, and among those as long comes from the earliest rule and place |
| `Base64Url.AlphabetIs` | `ako-gateway-api/aigateway/datascript.go:363-365` | the 64 characters in order: A to Z, a to z, 0 to 9, then - and _ (table 2 in section 5 of RFC 4648) |
| `Base64Url.GroupIsNumber` | `ako-gateway-api/aigateway/datascript.go:369-378` | a group of up to three bytes is encoded as the same number in base 64, most significant digit first, padded with zero bits |
| `RingTerms.RecordMints` | `ako-gateway-api/aigateway/usage_ledger.go:231-253` | the first record of a life mints the ring's id from the second of the response and the caller's address, cut to 40 characters, and is numbered 1 |
| `FleetLedger.DrainAdvances` | `ako-gateway-api/aigateway/usage_ledger.go:129-141` | in every run a drain asked with the cursor held is used in this way |
| `CarryRun.RefillExactly` | `ako-gateway-api/aigateway/native_token.go:27-32` | a refill adds to its bucket up to the bucket's size and changes nothing else |
| `BudgetNames.SanitizeExactly` | `ako-gateway-api/aigateway/native_token.go:44-51` | a part of a limiter's name keeps its length; a space, slash, colon, star or comma becomes a dash and nothing else changes |
| `SyncOutcome.StepLeaves` | `ako-gateway-api/nodes/dequeue_ingestion.go:126-198` | a sync leaves its outcome in the world, and every other gateway's model and log as they were |
| `FleetLedger.CursorWithin` | `ako-gateway-api/aigateway/usage_ledger.go:159-163` | the cursor held for the instance that answers never exceeds its head |
| `Accounting.RespondData` | `ako-gateway-api/aigateway/datascript.go:237-283` | the response-data script on the live table does what the run's response step says: guard, parse, charge every limit of its kind, then record |
| `Accounting.ChargeImpliesRecord` | `ako-gateway-api/aigateway/datascript.go:237-283` | a response that charges any dimension appends exactly one record with the same prompt and completion figures and quality exact or penalty; one that appends none leaves head and every record untouched and charges nothing |
| `Accounting.ChargeLeavesRing` | `ako-gateway-api/aigateway/datascript.go:780-798` | charging any limits changes neither the ring head nor any record |
| `Accounting.AppendLeavesRest` | `ako-gateway-api/aigateway/usage_ledger.go:229-266` | appending a record changes no counter of any limit and no carry |
| `Accounting.ResponseLeavesCarry` | `ako-gateway-api/aigateway/datascript.go:237-283` | the response-data script changes no carry |
| `Accounting.RespondKeeps` | `ako-gateway-api/aigateway/datascript.go:237-283` | a response keeps all counters exact and the ring invariant |
| `Accounting.StagingKeeps` | `ako-gateway-api/aigateway/datascript.go:260-278` | the native response script keeps all counters, display counters included, exact and the ring untouched |
| `Accounting.RequestIsCarryOnly` | `ako-gateway-api/aigateway/datascript.go:262-278` | the native request script changes nothing in the table but carries |
| `BoundedOverage.TickContains` | `ako-gateway-api/aigateway/datascript.go:446-482` | crossing a window boundary keeps the bound: the new window starts at zero and still only K requests can be charged to it |
| `BoundedOverage.AdmitContains` | `ako-gateway-api/aigateway/datascript.go:606-645` | admission keeps the bound because the counter read was below the ceiling |
| `BoundedOverage.ResponseContains` | `ako-gateway-api/aigateway/datascript.go:780-798` | a response moves at most M from pending to charged, whatever window the request was admitted in |
| `BoundedOverage.ChargesSum` | `ako-gateway-api/aigateway/datascript.go:780-798` | one response adds to one limit's sum once, in the window of the moment, for its own identity, and to no other sum |
| `TokenCounters.ChargeAllKeeps` | `ako-gateway-api/aigateway/datascript.go:244-249` | charging the limits one after the other keeps all counters exact after each of them |
| `TokenCounters.ChargeLimits` | `ako-gateway-api/aigateway/datascript.go:244-249` | the sequence of accounting blocks charges every limit that is not native, in order |
| `TokenCounters.Enforce` | `ako-gateway-api/aigateway/datascript.go:200-210` | admits exactly when every limit that is not native passes: known or fallback ceiling and counter below it, or a limit that only logs; an unknown group without fallback is refused even then |
| `UsageLedger.TwoRecordsKept` | `ako-gateway-api/aigateway/usage_ledger.go:231-264` | two records on an empty ring, any time apart that the head survives, are both numbered, 1 and 2, exactly when the minted id has no colon (an IPv6 first client puts one there); otherwise the second overwrites the first |
| `UsageLedger.HeadReads` | `ako-gateway-api/aigateway/usage_ledger.go:231-253` | what a head reads back as, at every length of the log: the id up to its first colon, and the number of records kept |
| `UsageLedger.LiveIdsDiffer` | `ako-gateway-api/aigateway/usage_ledger.go:246-250` | ids minted in different seconds are read back as different ones, whoever the clients were |
| `UsageLedger.IdsNeverRepeat` | `ako-gateway-api/aigateway/usage_ledger.go:34-41` | all ids a ring was ever read under are pairwise different |
| `UsageLedger.AppendKeepsRing` | `ako-gateway-api/aigateway/usage_ledger.go:229-266` | appending keeps the ring invariant for any client address; a new id is minted only when no record of an older life is left |
| `UsageLedger.AppendAdds` | `ako-gateway-api/aigateway/usage_ledger.go:229-266` | the appended record ends the log and is in the ring; the head counts it unless it is the first under an id with a colon |
| `UsageLedger.ExpireKeepsRing` | `ako-gateway-api/aigateway/usage_ledger.go:33-56` | any passage of time keeps the ring invariant: no record outlives its head |
| `UsageLedger.Drain` | `ako-gateway-api/aigateway/usage_ledger.go:143-175` | the drain finds such a page for any cursor and any requested size, including cursors out of range |
| `DrainText.Answer` | `ako-gateway-api/aigateway/usage_ledger.go:143-181` | the drain's body is the text of that page |
| `DrainText.PageRoundTrip` | `ako-gateway-api/aigateway/usage_ledger.go:172-175` | for plain ids and records the text reads back as exactly the page: every number, every record whole, nothing else |
| `CarryProtocol.RequestExact` | `ako-gateway-api/aigateway/datascript.go:262-278` | a request stopped at a native limit has settled or probed exactly the native limits before it: those carries are gone, each bucket is down by exactly what they owed it, the carries of the refusing and all later limits and every other bucket are untouched; admitted, the consumer has no native carry left on the engine |
| `CarryProtocol.StopsWhere` | `ako-gateway-api/aigateway/native_token.go:176-201` | told from the state before the request: the script stops at the first native limit whose bucket cannot pay its due after those of the limits before it, or whose group is unknown, and nowhere else |
| `CarryProtocol.NativeRequest` | `ako-gateway-api/aigateway/datascript.go:262-278` | the loop over the gates on the live table and limiter stops where, and leaves what, the specification says |
| `CarryProtocol.NativeGate` | `ako-gateway-api/aigateway/native_token.go:143-201` | the gate block gives the specified verdict and leaves exactly the specified table and bucket levels |
| `CarryProtocol.NativeConsume` | `ako-gateway-api/aigateway/native_token.go:220-236` | the consume block adds the response's tokens to the carry, renews its lifetime and charges the display counter |
| `CarryProtocol.NativeResponse` | `ako-gateway-api/aigateway/datascript.go:260-278` | one consume block per native limit, in order |
| `CarryProtocol.ConsumedCarry` | `ako-gateway-api/aigateway/native_token.go:220-236` | a response adds its tokens once to the carry of each native limit and to no other consumer's carry; the display counters it also writes never land on a carry |
| `CarryProtocol.RateLimiter.Exceed` | `ako-gateway-api/aigateway/native_token.go:181-185` | a limiter consumes all of a request or none of it |
| `CarryProtocol.CarryKeyInjective` | `ako-gateway-api/aigateway/native_token.go:208-214` | equal carry keys mean equal limit and identity |
| `CarryProtocol.CounterMeetsCarry` | `ako-gateway-api/aigateway/native_token.go:208-236` | a counter can sit on someone's carry if and only if its key prefix opens with the carry namespace |
| `CarryProtocol.ResolvedIsBuilt` | `ako-gateway-api/aigateway/native_token.go:73-137` | every limiter a script can name has been built when all budgets are positive, and only then if the groups' sanitized names stay apart |
| `CarryRun.CarryConserved` | `ako-gateway-api/aigateway/native_token.go:143-236` | in every run over any number of engines sharing one limiter, tokens used equal tokens charged through the carry plus carries still staged plus carries that expired |
| `CarryRun.BucketConserved` | `ako-gateway-api/aigateway/native_token.go:176-201` | in every run, what requests drew from a bucket, refused ones included, plus what is left equals what it held full plus what was refilled, whichever engines they came through |
| `CarryRun.StuckUntilExpiry` | `ako-gateway-api/aigateway/native_token.go:181-185` | once a carry exceeds every bucket size of its limit, it stays above them and every request of that consumer on that engine is refused, at that gate or an earlier one, until the entry expires |
| `CarryRun.GatesMoveCarry` | `ako-gateway-api/aigateway/native_token.go:187-201` | a request takes from the staged tokens of one consumer exactly what it settles, and nothing of any other |
| `GatewaySync.GraphLayer.Handle` | `ako-gateway-api/nodes/dequeue_ingestion.go:271-346` | the gateway handler: gateway missing (republished whenever the lister has an entry, an empty one included), class missing, foreign controller, rebuilt parent with the children carried over and its publish deferred |
| `ModelRoute.PrefixEntries` | `ako-gateway-api/aigateway/modelroute_types.go:409-424` | lists every glob of the policy once and nothing else, longest first and by dictionary among equals, for any order of the map |
| `ModelRoute.ListingUnique` | `ako-gateway-api/aigateway/modelroute_types.go:409-424` | there is one such listing, so the table baked into the script does not depend on the order of the map |
| `ModelDiscovery.SortPods` | `ako-gateway-api/aigateway/modelroute_discovery.go:142-155` | sorts oldest first with the namespace/name tiebreak, a permutation of the pods |
| `InferenceWeights.TotalIs100` | `ako-gateway-api/inference/weights.go:154-165` | adjusting one ratio makes them sum to 100 if and only if they did before, or that ratio is more than 1 and the others total less than 100 |
| `InferenceWeights.TotalExactly` | `ako-gateway-api/inference/weights.go:68-168` | the ratios computed from any sane metrics sum to 100 if and only if the rounded shares already do, or the highest scorer's share is at least 1.5 and the others total less than 100 |
| `DedicatedRules.MostSpecificWins` | `ako-gateway-api/nodes/avi_model_l7_dedicated_translator.go:132-228` | first-match evaluation picks the match that precedes every other fitting one by path type, path length, rule order and match order; the default fires exactly when it was added and nothing else fits |
| `DedicatedRules.ExactRootGap` | `ako-gateway-api/nodes/avi_model_l7_dedicated_translator.go:117-121` | an exact match on the root path alone suppresses the default rule and leaves a request for /a without a rule |
| `DedicatedRules.BuildPolicy` | `ako-gateway-api/nodes/avi_model_l7_dedicated_translator.go:104-177` | the whole pass: collected, ordered, indexed, default rule unless some match has the root path |
| `TokenCounters.CounterKeyInjective` | `ako-gateway-api/aigateway/datascript.go:473-482` | equal counter keys mean equal limit, identity and window, for identities with colons too, when neither limit name closed by a colon starts the other |
| `TokenCounters.CounterKeysCollide` | `ako-gateway-api/aigateway/datascript.go:473-482` | two different limit names can share a counter key if and only if one, closed by a colon, starts the other |
| `TokenCounters.WindowOf` | `ako-gateway-api/aigateway/datascript.go:481-482` | windows partition time |
| `TokenCounters.CounterIsSum` | `ako-gateway-api/aigateway/datascript.go:787-795` | the counter looked up equals the ghost sum of the current window, a missing entry counting as zero |
| `TokenCounters.ExpireKeepsCounter` | `ako-gateway-api/aigateway/datascript.go:790-796` | the lifetime given to a counter outlives its window, so no expiry drops a current sum |
| `TokenCounters.ChargeKeepsCounter` | `ako-gateway-api/aigateway/datascript.go:780-798` | charging one limit adds exactly the amount to its own counter and leaves every other limit's counters exact |
| `TokenCounters.ChargeLimit` | `ako-gateway-api/aigateway/datascript.go:780-798` | look up, remove, insert with the remaining window plus 5 seconds: the table afterwards is the one the specification charges |
| `UsageLedger.SafeField` | `ako-gateway-api/aigateway/usage_ledger.go:196-216` | the reduced field has no pipe, quote or backslash, is never empty, and a value already in the safe set within the cap is unchanged |
| `UsageLedger.HeadRoundTrip` | `ako-gateway-api/aigateway/usage_ledger.go:231-253` | "inst:seq" is read back as written if and only if the instance id has no colon |
| `UsageLedger.HeadCut` | `ako-gateway-api/aigateway/usage_ledger.go:231-253` | with a colon in the id, the sequence number read back is 0 and the id is cut at its first colon |
| `UsageLedger.MintHasColon` | `ako-gateway-api/aigateway/usage_ledger.go:246-250` | the minted id has a colon if and only if the part of the client address that fits in it has one |
| `UsageLedger.LoadHead` | `ako-gateway-api/aigateway/usage_ledger.go:148-156` | the head is split at its first colon; missing or unreadable parts give "" and 0 |
| `UsageLedger.AppendRecord` | `ako-gateway-api/aigateway/usage_ledger.go:229-266` | the record block leaves exactly the specified table: head refreshed, record stored under the next number |
| `UsageLedger.AppendEntries` | `ako-gateway-api/aigateway/usage_ledger.go:251-264` | an append writes the head and one record key, with their own lifetimes, and no other key |
| `UsageLedger.ScanRing` | `ako-gateway-api/aigateway/usage_ledger.go:165-175` | the while loop returns exactly the live records from the scan start to next, in order, stopping at the head or on the record that fills the page |
| `UsageLedger.PageAccounts` | `ako-gateway-api/aigateway/usage_ledger.go:129-181` | next - after is lost + delivered + expired in the scan, records ascend strictly in between, and the cursor moves whenever it is behind the head |
| `UsageLedger.ExactlyOnce` | `ako-gateway-api/aigateway/usage_ledger.go:129-181` | over any chain of polls, each on its own table, delivered numbers ascend strictly and the distance travelled is delivered + lost + expired |
| `UsageLedger.EveryNumberDisposed` | `ako-gateway-api/aigateway/usage_ledger.go:129-181` | each number at or below the cursor met exactly one poll, which delivered it, counted it lost or found it expired, and only one of these |
| `UsageParse.ScanNumber` | `ako-gateway-api/aigateway/datascript.go:736-746` | the two digit scans after a quoted key compute the specified figure |
| `UsageParse.NumAfterReads` | `ako-gateway-api/aigateway/datascript.go:736-746` | if digit-free text and then a numeral follow the first occurrence of the key, the figure read is that number |
| `UsageParse.ParseUsage` | `ako-gateway-api/aigateway/datascript.go:712-776` | the usage block, with its totals, penalty and quality, for any body and flags |
| `UsageParse.QualityDecidesCharge` | `ako-gateway-api/aigateway/datascript.go:712-776` | quality none if and only if all three dimensions are zero; the penalty charges 65536 in every dimension |
| `UsageParse.RecordRoundTrip` | `ako-gateway-api/aigateway/usage_ledger.go:217-264` | splitting a record at its pipes gives back its ten fields, whatever identity, model, tier and route were |
| `SeTable.ServiceEngine.TableInsert` | `ako-gateway-api/aigateway/datascript.go:791-795` | an insert never overwrites a present key |
| `SeTable.ServiceEngine.Advance` | `ako-gateway-api/aigateway/usage_ledger.go:46-56` | time removes exactly the entries whose lifetime has passed |
| `RouteReconcile.ReconcileExact` | `ako-gateway-api/nodes/avi_model_l7_translator.go:86-249` | after the rule loop and the stale deletion a route's children are exactly those its rules name, with the last such rule's contents, and none when it has no hosts; other routes' children keep contents and order, names of children on other gateways stay in the store, and the store still covers every child |
| `RouteReconcile.DeleteEachFacts` | `ako-gateway-api/nodes/dequeue_ingestion.go:426-446` | a deletion pass removes exactly the listed children that are not kept, and exactly their names from the route's entry |
| `RouteReconcile.BuildAllGrows` | `ako-gateway-api/nodes/avi_model_l7_translator.go:104-249` | on a route with hosts, each rule's child is refreshed in place or appended, and nothing else changes |
| `RouteReconcile.BuildAllClears` | `ako-gateway-api/nodes/avi_model_l7_translator.go:104-249` | on a route whose hosts are gone, the rule loop removes all of its children in this gateway and nothing else |
| `RouteReconcile.Graph.RemoveEvhInModel` | `internal/nodes/avi_model_evh_nodes.go:1729-1740` | removes the first child of that name and reports whether there was one |
| `RouteReconcile.Graph.DeleteChildren` | `ako-gateway-api/nodes/dequeue_ingestion.go:482-498` | the deletion loop over a snapshot of the stored names leaves the specified model |
| `RouteReconcile.Graph.BuildChildVS` | `ako-gateway-api/nodes/avi_model_l7_translator.go:104-249` | one rule: no hosts mapped, hosts empty, child present, child new |
| `RouteReconcile.Graph.ProcessL7Routes` | `ako-gateway-api/nodes/avi_model_l7_translator.go:86-102` | the rule loop builds the specified model and reports the names built |
| `RouteReconcile.Graph.ReconcileRoute` | `ako-gateway-api/nodes/dequeue_ingestion.go:161-188` | rule loop then stale deletion leaves the reconciled model |
| `GatewaySync.NoLostPublish` | `ako-gateway-api/nodes/dequeue_ingestion.go:79-198` | after a Gateway key is processed every save has been followed by a publish, except exactly when the route lookup fails right after the rebuilt parent was saved; when the routes were processed the model left is the one last saved |
| `GatewaySync.NoChildlessWindow` | `ako-gateway-api/nodes/dequeue_ingestion.go:348-381` | a child that existed before is in every model the REST layer can read during the sync and at its end, unless a route step of that sync had a reason to remove it |
| `GatewaySync.JobsKeep` | `ako-gateway-api/nodes/dequeue_ingestion.go:161-188` | any sequence of route steps keeps a wanted child in every model readable in between |
| `GatewaySync.DoJobsLog` | `ako-gateway-api/nodes/dequeue_ingestion.go:408-424` | the route steps publish every save of their own |
| `GatewaySync.HandleKeeps` | `ako-gateway-api/nodes/dequeue_ingestion.go:271-381` | rebuilding the parent keeps all children and the route-to-child store |
| `GatewaySync.GraphLayer.SaveAviModel` | `ako-gateway-api/nodes/dequeue_ingestion.go:383-406` | saves and reports a change exactly when there was no model or its checksum differs |
| `GatewaySync.GraphLayer.Run` | `ako-gateway-api/nodes/dequeue_ingestion.go:161-188` | one route step, with the models that become readable as its locks are released |
| `GatewaySync.GraphLayer.Dequeue` | `ako-gateway-api/nodes/dequeue_ingestion.go:79-198` | the whole sync of a Gateway key, in place, is the one the two theorems are about |
| `ModelRoute.CompilationPreserves` | `ako-gateway-api/aigateway/modelroute_datascript.go:67-151` | for every valid policy whose rules for a group agree, every model and every group, the script routes or refuses as ResolveTier, IsAllowed and then Reject or BestAllowedTier do, whatever order maps were walked and rules were emitted in |
| `ModelRoute.TableExact` | `ako-gateway-api/aigateway/modelroute_datascript.go:338-353` | the baked entitlement table says what the policy says, in every order the generator may emit, if and only if rules for the same group agree |
| `ModelRoute.TableAgrees` | `ako-gateway-api/aigateway/modelroute_types.go:452-475` | for agreeing rules a table lookup equals the first-rule reading |
| `ModelRoute.FirstMatchIsLongest` | `ako-gateway-api/aigateway/modelroute_types.go:409-439` | the first match of the sorted globs is the longest matching glob of the policy, and there is none exactly when no glob matches |
| `ModelRoute.LongestGlobUnique` | `ako-gateway-api/aigateway/modelroute_types.go:409-424` | the longest matching glob is unique |
| `ModelRoute.ResolveIsIndependent` | `ako-gateway-api/aigateway/modelroute_types.go:409-439` | two sorted listings of the same globs resolve every model alike |
| `ModelRoute.RunScript` | `ako-gateway-api/aigateway/modelroute_datascript.go:107-151` | the emitted decision with its reassigned tier and its two loops computes the script's decision |
| `ModelRoute.SelectedPoolIsDeclared` | `ako-gateway-api/nodes/avi_model_route.go:67-152` | whatever tier the script routes to is declared by the policy; it selects a pool group exactly when that tier was built, then its own, and the script set declares it |
| `ModelRoute.BuildTierPools` | `ako-gateway-api/nodes/avi_model_route.go:67-135` | the tier loop maps exactly the tiers that were built and declares each of their pool groups |
| `ModelDiscovery.MergeDiscovered` | `ako-gateway-api/aigateway/modelroute_discovery.go:129-195` | each alias goes to the tier of its oldest eligible claimant, and every eligible claim is represented |
| `ModelDiscovery.MergeOrderIndependent` | `ako-gateway-api/aigateway/modelroute_discovery.go:112-195` | for distinct pods the merge does not depend on the order in which they are listed |
| `ModelDiscovery.EffectiveStaysValid` | `ako-gateway-api/aigateway/modelroute_discovery.go:44-90` | a valid policy stays valid after discovery |
| `ModelDiscovery.EffectiveResolves` | `ako-gateway-api/aigateway/modelroute_discovery.go:44-90` | a discovered alias resolves to its discovered tier and never shadows a stated name; every other model resolves as before |
| `AccessLists.Classify` | `ako-gateway-api/aigateway/mcproute_datascript.go:217-237` | every entry of every allow-list sits in exactly the table its shape calls for, and nothing else does |
| `AccessLists.DecideTool` | `ako-gateway-api/aigateway/mcproute_datascript.go:173-196` | the tools/call block computes the table decision |
| `AccessLists.DecideCall` | `ako-gateway-api/aigateway/a2aroute_datascript.go:177-203` | the agent allow-list block computes the table decision |
| `AccessLists.AuthorizeCall` | `ako-gateway-api/aigateway/a2aroute_datascript.go:168-221` | the block with its guard: a request naming no method skips the allow-list and is refused only where a method is required |
| `AccessLists.ToolCompilationPreserves` | `ako-gateway-api/aigateway/mcproute_types.go:203-243` | for every validated policy with a rule, every role and every tool, the script allows what IsToolAllowed allows |
| `AccessLists.CallCompilationPreserves` | `ako-gateway-api/aigateway/a2aroute_types.go:248-279` | for every validated policy with a rule, every agent, skill and named method, the allow-list decides as IsCallAllowed |
| `AccessLists.CallMirroredExactly` | `ako-gateway-api/aigateway/a2aroute_types.go:241-279` | script and policy agree on a call if and only if it names a method or the policy requires one |
| `InferenceWeights.ComputeWeights` | `ako-gateway-api/inference/weights.go:68-168` | the loops compute the specified ratios, pod by pod |
| `InferenceWeights.WeightsPromise` | `ako-gateway-api/inference/weights.go:56-168` | for any pool with sane metrics every ratio is in 1..100; with a reachable pod and reachable * total <= 100 the ratios sum to exactly 100, every pod but the adjusted one is within 1 of its proportional share, and that one within total - 1 |
| `InferenceWeights.RatiosProportional` | `ako-gateway-api/inference/weights.go:132-168` | the same from any scores in (0, 1] for reachable and 0 for unreachable pods |
| `InferenceWeights.RatiosInRange` | `ako-gateway-api/inference/weights.go:139-165` | all ratios are in 1..100 for any scores |
| `InferenceWeights.TotalsOff` | `ako-gateway-api/inference/weights.go:65-68` | the documented claim that ratios always sum to 100 fails: above 100 for more than 100 pods, and equal to the pool size when no pod is reachable |
| `InferenceWeights.ScoresScored` | `ako-gateway-api/inference/weights.go:86-130` | a reachable pod scores in (0, 1], an unreachable one 0 |
| `InferenceWeights.AssignRatios` | `ako-gateway-api/inference/weights.go:132-153` | the second loop hands out rounded, clamped shares, adds them up, and ends on the first pod with the highest score although it skips unreachable ones |
| `InferenceWeights.AdjustBest` | `ako-gateway-api/inference/weights.go:155-165` | one pod absorbs the difference to 100, never below the minimum |
| `ScrapeLoop.StoreIsCurrent` | `ako-gateway-api/inference/scraper.go:207-256` | after any tick that scraped a pod the store holds that tick's weights, although unchanged weights are not passed on |
| `ScrapeLoop.StreakIsTrailingRun` | `ako-gateway-api/inference/scraper.go:373-381` | after any ticks a pod's streak is the length of the run of waiting > 0 that ends its reachable scrapes, unreachable cycles skipped |
| `ScrapeLoop.TrailingRun` | `ako-gateway-api/inference/scraper.go:373-381` | the run is positive throughout, ends the history, and cannot be extended |
| `ScrapeLoop.WeightsEqual` | `ako-gateway-api/inference/scraper.go:411-421` | true exactly for equal lists |
| `ScrapeLoop.PersistSnapshots` | `ako-gateway-api/inference/scraper.go:233-238` | only reachable pods replace their snapshot |
| `ScrapeLoop.Scraper.ScrapeTick` | `ako-gateway-api/inference/scraper.go:207-256` | one tick on the live loop state and store is the specified tick |
| `ScrapeLoop.WeightStore.Set` | `ako-gateway-api/inference/store.go:37-45` | replaces one pool's weights and leaves the other pools |
| `ScrapeLoop.WeightStore.GetRatio` | `ako-gateway-api/inference/store.go:49-58` | the stored ratio, 1 when there is none |
| `ScrapeLoop.WeightStore.Delete` | `ako-gateway-api/inference/store.go:76-80` | forgets one pool |
| `Base64Url.LeftInverse` | `ako-gateway-api/aigateway/datascript.go:362-380` | for every byte string, decoding undoes unpadded base64url encoding (section 5 of RFC 4648, as used in section 2 of RFC 7515) |
| `Base64Url.ForeignCharactersIgnored` | `ako-gateway-api/aigateway/datascript.go:369-378` | characters outside the alphabet, padding included, have no effect anywhere in the input |
| `Base64Url.StepBounded` | `ako-gateway-api/aigateway/datascript.go:371-377` | between characters the buffer holds 0, 2, 4 or 6 bits and a value below 2^bits |
| `Base64Url.DecodeLoop` | `ako-gateway-api/aigateway/datascript.go:362-380` | the loop over buf, bits and out computes the decoding |
| `Base64Url.ReverseTable` | `ako-gateway-api/aigateway/datascript.go:363-365` | the reverse table holds exactly the alphabet |
| `LuaLiteral.LiteralRoundTrip` | `ako-gateway-api/aigateway/modelroute_datascript.go:242-253` | for every string, reading its printed literal as a short literal (section 2.1 of the Lua 5.1 Reference Manual) gives the string back and stops exactly at the literal's end, whatever follows |
| `LuaLiteral.TableRoundTrip` | `ako-gateway-api/aigateway/modelroute_datascript.go:266-279` | a printed list of key-value entries reads back as that list |
| `LuaLiteral.MapRoundTrip` | `ako-gateway-api/aigateway/modelroute_datascript.go:266-279` | a printed string map reads back as the same map, no two keys merged, for any order of its keys |
| `DedicatedRules.Collect` | `ako-gateway-api/nodes/avi_model_l7_dedicated_translator.go:115-130` | collects the entry of every match of every rule, each once, and notices a root path |
| `DedicatedRules.Sort` | `ako-gateway-api/nodes/avi_model_l7_dedicated_translator.go:132-155` | the result is ordered and a permutation of the matches |
| `DedicatedRules.OrderUnique` | `ako-gateway-api/nodes/avi_model_l7_dedicated_translator.go:132-155` | there is only one ordered permutation of the matches |
| `DedicatedRules.BuildRules` | `ako-gateway-api/nodes/avi_model_l7_dedicated_translator.go:159-215` | rule indices are positions, and an added default rule is last |

## Left out

- Avi REST authoring, OAuth and JWT object graphs, informers, work queues, status patching, `ako-clean`: plumbing over libraries that are not part of this model.
- Full Avi node contents (pools, TLS, VIP, hostnames on the parent): a child is its name, its route and an opaque body.
- Full sync, disabled sync, a tenant or mode change in the middle of a sync, the Secret branch, the reconcile of a dedicated gateway, and the clean-up of a route's former gateways.
- Lua numbers: figures are integers of any size and `tonumber` is modelled on digit strings, the only ones these tables hold; fractional `after` and `max` query values are not modelled.
- Parsing of window strings and overflow of a 64-bit window: a window is any number of seconds from 1 up, a budget any integer.
- `header:` counter keys: the response phase reads the header without naming the request.
- Interleaving of two scripts inside one table access, and scrape ticks still running after a pool is deregistered.
- Clock values of 39 digits or more, where the instance id would be cut inside the timestamp.
- A2A task affinity, path authorization, target claims, and the Log action of the MCP and A2A policies.
- Request-rate limits, guardrail expressions and WAF rules, provider and remote-site rewrites, the counters endpoint and the admin gate.
- Floating-point rounding and not-a-number metrics: scores are real numbers; metrics and alpha are not negative.
- Maps that only hold bookkeeping: token rates, jitter, provider and remote tables, discovery warnings, pod-to-pool indexes.
- Slices: those sorted in place are modelled as sequences that are rebuilt, and the child list shared by a replaced parent and the rebuilt one is a value, so aliasing of a backing array is not captured.
- GatewaySync.NoLostPublish: a publish is an entry in the log; the queue behind it and the REST layer's own work are not modelled.
- DedicatedRules.EveryRequestServed: assumes fewer than 55296 matches on a route, because one prefix per character would serve every path too; a path of unknown type is read as a prefix, and a header criterion needs the header to be present.
