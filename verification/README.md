# Governed-write runtime: a verified model

This project models the governed-write runtime of Agent OS (`src/agentos`) in Dafny and proves what it
promises over whole runs. `dafny verify dfyconfig.toml` checks all of it.

The runtime has five stateful parts and the code that ties them together:

* **Write gate** (`Nonce`, `WriteGate`, `GateRuns`, `GateBounds`). Validation issues a signed nonce
  `ts:hash:sig`; a governed write checks it (TTL, replay, signature, data), burns it, validates again and
  commits to the graph database. Check, burn and re-validation are one atomic step, because the code has no
  `await` between them; the commit is a separate step, and everything else interleaves. HMAC-SHA256
  (section 2 of RFC 2104) is an ideal MAC, SHA-256 an injective hash, Python's `int()` any parser that inverts
  printing; `Nonce.IdealCryptoExists` shows that such functions exist. Callers may submit any string; only a
  MAC the gate never handed out is excluded.
* **Write quota** (`AutonomyPolicy`): a session cap and a sliding one-minute window over a pruned list.
* **RDF to Cypher** (`Cypher`): escaping, MERGE texts, and the transactional batch that runs them. A reader of
  such texts stands for the database's own parser.
* **Workflow engine** (`SopSchema`, `SopEngine`, `SopRuns`, `SopCallbacks`, `SopObjects`): a suspend/resume machine
  over a list of steps, with state store, feedback table and approval handlers. `SopRuns` follows one context
  through its life, `SopCallbacks` any number of handlers at once, and `SopObjects` proves the engine's
  in-place code and the handlers against the machine and against a real gate object. `SopGate` composes engine
  and gate, with other users of the gate in between; `SopRacing` adds handlers that race to resume the run.
* **Circuit breaker and billing fuse** (`CircuitBreaker`, `BillingFuse`), driven by the **kernel** (`Kernel`), whose
  message parser is `KernelCommands`. `Overlap` has the breaker under overlapping messages.

Objects whose methods update fields are classes; each method is proved to do what a function says, and the
theorems are about that function over every run. `Text` and `Timeline` hold the string and window lemmas.

## What the proofs assume, and where it matters

* **Clock.** Reads never step back (`AutonomyPolicies.BackwardClockBreaksWindow` shows what one step back does to the
  quota). A write reads the monotonic clock three times: at the TTL check, when pruning
  and when burning. `skew` bounds the delay between the first two; with one read per write it is zero.
* **Replay.** The documentation calls a nonce single-use without exception. The code prunes a burned nonce when its
  entry expires (`<=`), which is when the nonce itself expires (`>`) only if the burn came after the issue tick.
  `WriteGates.ReplayIff` gives the exact condition under which a burned nonce can pass again: it was burned no later
  than `skew` after its truncated tick, and within its TTL. `GateRuns.BoundaryReplay` is a run in which it does. Every
  other run is safe (`Mature`, `NonceIsSingleUse`, `ForgettingIsInvisible`).
* **Nonces are deterministic.** Two validations of the same data and domain in one second give the same nonce, so
  single use is per tick, data and domain.
* **Workflow runs** are started with `run` once and continued with `resume`. The engine's documentation promises that
  replay is safe by run and step id (`sop_engine.py`, line 5); nothing in the code recognises an executed step, and
  `run` starts at the stored position. `SopRuns.RunAgainIff` and `StoredRunRepeatsIff` say exactly when it repeats a
  step: on every context of a run that has begun, unless the position is past the end.
* **The first decision wins** exactly because of the feedback table (`SopCallbacks.OnceIffFeedback`).
* **Exceptions strand a run.** An exception leaves `run` without saving. If it happens after an approval, the store may
  go on showing a suspended run whose row is taken: `SopRuns.RaisingStepStrands`, `ThrownIsStranded`.
* **One feedback row per run.** `trace_id` is unique and is the run id, so a run that suspends a second time can never
  be decided: `SopRuns.SecondWaitNeverEnds`. A completed run has waited at most once.
* **Approval** is any decision other than `"REJECTED"` as far as `resume` is concerned; that it is `"APPROVED"` comes
  from the feedback table or the handlers.
* **Breaker.** The history formula holds when each failure is recorded after a check that found the circuit closed, as
  the kernel does with one message at a time, and when window or threshold is positive
  (`DegenerateConfigGetsStuck` otherwise). Messages are awaited and can overlap: `CircuitBreakers.UncheckedRecordIff`
  and `OverlappingMessages.OverlapDepartsIff` give the exact conditions under which the formula then fails, and
  `OverlapBound` what is left of the retry-storm bound.
* **Fuse.** Exact rationals. It is charged after processing, so it does not prevent the message that trips it.
* **Command parser.** Two keyword tests look at the whole message before the command is recognised, so a governed write
  whose domain, nonce or data mention them never reaches the gate: for a domain such as `it-asset-mgmt`, any data with
  `schema` in it, the usual `rdf-schema#` prefix included. `KernelCommands.CommandRoundTrip` gives the exact condition.

## Model

| member | source | states |
|---|---|---|
| Nonce.ParseInvertsPrint | src/agentos/governance/write_gate.py:262-288 | splitting and integer parsing recover from a printed nonce exactly its tick, data hash and signature |
| Text.PrintNatIsDecimal | src/agentos/governance/write_gate.py:262-268 | the tick is printed in the usual decimal notation |
| Nonce.PrintedFields | src/agentos/governance/write_gate.py:262-268 | a nonce is tick, data hash and the MAC over `tick:hash:domain`, between colons, and splits into these three |
| Nonce.ParsedExactly | src/agentos/governance/write_gate.py:283-288 | a string is read as a nonce iff it has three fields of which the first is an integer, and then is exactly those fields between colons |
| Nonce.PayloadIsUnambiguous | src/agentos/governance/write_gate.py:264-267 | two signed payloads are equal iff tick, hash and domain are, even when domains contain colons |
| Nonce.SignIsInjective | src/agentos/governance/write_gate.py:263-267 | a signature names one tick, one domain and one payload text |
| WriteGates.WriteGate.VerifyShaclCompliance | src/agentos/governance/write_gate.py:118-170 | answer, error or nonce exactly as stage 2 defines them; only the validator cache grows, by the asked domain if known |
| WriteGates.WriteGate.CleanupExpiredNonces | src/agentos/governance/write_gate.py:352-362 | exactly the entries expiring at or before now leave the table |
| WriteGates.WriteGate.CheckNonce | src/agentos/governance/write_gate.py:272-338 | which refusal, if any, in the order format, TTL, replay, signature, data, and the table after pruning |
| WriteGates.WriteGate.ConsumeNonce | src/agentos/governance/write_gate.py:340-350 | the signature is entered with its expiry, nothing else changes |
| WriteGates.WriteGate.ExecuteGovernedWrite | src/agentos/governance/write_gate.py:174-242 | quota, check, burn and re-validation in order; every refusal leaves the graph alone; an authorised write succeeds exactly if no database call of its batch fails, and then adds the image of the parsed data and reports the growth |
| WriteGates.PrintedNonceAcceptedIff | src/agentos/governance/write_gate.py:272-330 | a printed nonce passes iff presented for its own domain and data, within TTL, and not in the table |
| WriteGates.ReplayIff | src/agentos/governance/write_gate.py:287-362 | a burned nonce can pass the pruned table again iff it was burned at most `skew` after its tick and within its TTL |
| WriteGates.ValidationAnswers | src/agentos/governance/write_gate.py:137-170 | which answer stage 2 gives, in terms of what the ontology, the parser and the validator say, each exactly |
| WriteGates.NonceRefusals | src/agentos/governance/write_gate.py:282-338 | which refusal a submitted string gets: malformed, expired, consumed, signature, data, each exactly and in this order |
| WriteGates.PrintedNonceRefusals | src/agentos/governance/write_gate.py:290-328 | a printed nonce is refused as expired iff late, else as consumed iff burned, else by its signature iff for another domain, else by its data iff for other data |
| WriteGates.OverQuotaRefusals | src/agentos/governance/write_gate.py:196-202 | a write over the session cap or the last sixty seconds' limit is refused as exactly that, before its nonce is looked at; every other write is charged to the quota |
| WriteGates.WithoutPolicyNoQuota | src/agentos/governance/write_gate.py:197-198 | without a policy no write is refused by quota |
| WriteGates.AuthorizationAnswers | src/agentos/governance/write_gate.py:200-226 | a granted write gets the nonce's refusal, or after the burn whatever the ontology says of its data under its own format, each exactly |
| GateRuns.PassHasOrigin | src/agentos/governance/write_gate.py:282-328 | whatever string passes was issued for this domain and data, at most TTL earlier, after a validation that held |
| GateRuns.SourcedStep | src/agentos/governance/write_gate.py:196-242 | every gate event keeps: passes have an origin, jobs carry the parsed graph of a conforming pass, one job a pass |
| GateRuns.Provenance | src/agentos/governance/write_gate.py:196-234 | in every reachable state each authorised write has data byte-identical to data validated in its domain at most TTL before, and its graph conforms under the format used at write time |
| GateRuns.PassIsFresh | src/agentos/governance/write_gate.py:297-304 | a signature that passes the pruned table was burned by no earlier pass |
| GateRuns.GuardedStep | src/agentos/governance/write_gate.py:196-362 | every legal event keeps the replay invariant: each pass is remembered or too old, table entries come from passes, no (tick, domain, data) twice |
| GateRuns.NonceIsSingleUse | src/agentos/governance/write_gate.py:196-362 | over every interleaving each (tick, data, domain) passes at most once, if burned more than `skew` after its tick |
| GateRuns.BoundaryReplay | src/agentos/governance/write_gate.py:262-362 | a legal run, burning at the issue tick, in which one nonce passes twice |
| GateRuns.SameVerdict | src/agentos/governance/write_gate.py:297-304 | the pruned table and one that never forgets agree on every write |
| GateRuns.ForgettingIsInvisible | src/agentos/governance/write_gate.py:196-362 | the pruned gate issues, passes, authorises and commits exactly what a gate with perfect memory would, over every such run |
| GateBounds.StoreIsWhatWasCommitted | src/agentos/governance/write_gate.py:222-242 | the graph is the initial one plus the image of the committed writes, and reported counts sum to its growth |
| GateBounds.MeteredStep | src/agentos/governance/write_gate.py:196-202 | every event keeps the passes within what the quota granted, at every window |
| GateBounds.WritesInheritQuota | src/agentos/governance/write_gate.py:196-202 | passing writes obey the session cap in total and the per-minute limit in every half-open minute |
| GateBounds.KeysAreCounted | src/agentos/governance/write_gate.py:340-346 | distinct table entries burned by passes of a window are at most the passes of that window |
| GateBounds.BoundedMemory | src/agentos/governance/write_gate.py:352-362 | with a per-minute quota m and one clock the table never exceeds m times the minutes that cover TTL and the longest write |
| AutonomyPolicies.AutonomyPolicy.CheckWriteQuota | src/agentos/policies/autonomy_policy.py:188-229 | the decision, and the counter and pruned timestamp list after it |
| AutonomyPolicies.QuotaRefinesHistory | src/agentos/policies/autonomy_policy.py:199-229 | one check on the pruned list decides as the full history of granted writes would, and goes on tracking it |
| AutonomyPolicies.QuotaRefusals | src/agentos/policies/autonomy_policy.py:199-218 | session exhaustion iff the cap is reached, else rate refusal iff the last sixty seconds are full, by the whole history |
| AutonomyPolicies.GrantKeepsLimits | src/agentos/policies/autonomy_policy.py:206-229 | one more grant keeps both bounds at every instant, later ones included |
| AutonomyPolicies.MinutesBound | src/agentos/policies/autonomy_policy.py:206-218 | any k minutes hold at most k minutes' worth of grants |
| AutonomyPolicies.SlidingWindow | src/agentos/policies/autonomy_policy.py:197-229 | for every session on a forward clock: at most the session cap in total, at most the per-minute limit in every (w-60, w], and the next check decides as the full history |
| Cypher.SanitizeIsOnePass | src/agentos/governance/write_gate.py:392-406 | the five successive replacements equal one character map |
| Cypher.EscapedLiteralReadsBack | src/agentos/governance/write_gate.py:384-406 | a literal reader stops exactly at the closing quote and returns the value, NUL and CR dropped, LF a space, whatever follows |
| Cypher.SameEscapeIffSameClean | src/agentos/governance/write_gate.py:392-406 | two values get the same text iff they differ only in those control characters |
| Cypher.EscapesWritten | src/agentos/governance/write_gate.py:399-406 | the escapes as written, character by character |
| Cypher.CleanKeeps | src/agentos/governance/write_gate.py:399-406 | the stored value has no NUL, CR or LF and is otherwise the original, LF turned into a space |
| Cypher.CleanDrops | src/agentos/governance/write_gate.py:403-405 | NUL and CR vanish wherever they stand |
| Cypher.LastPartCuts | src/agentos/governance/write_gate.py:379-380 | the label source is what follows the last separator, or the whole string without one |
| Cypher.LabelOfPredicate | src/agentos/governance/write_gate.py:379-382 | the relationship type is made of what follows the predicate's last `#`; without one, of what follows its last `/`; without either, of all of it |
| Cypher.KeptInLabels | src/agentos/governance/write_gate.py:55-56 | of ASCII a label keeps exactly letters, digits and underscore |
| Cypher.LabelConcat | src/agentos/governance/write_gate.py:54-56 | a label is made character by character, also where upper-casing gives several |
| Cypher.SanitizeLabel | src/agentos/governance/write_gate.py:46-56 | every label is made of characters the pattern keeps, so never a backtick |
| Cypher.LabelPointwise | src/agentos/governance/write_gate.py:54-56 | each position of a label is the upper-cased character or an underscore |
| Cypher.StatementReadsBack | src/agentos/governance/write_gate.py:373-388 | every statement reads back as exactly the edge of its own triple: no term changes a statement's shape |
| Cypher.StatementWritten | src/agentos/governance/write_gate.py:384-388 | the statement of a triple written out, with the strings of its own terms |
| Cypher.EdgeOfTerms | src/agentos/governance/write_gate.py:375-388 | its edge goes from the cleaned subject string to the cleaned object string |
| Cypher.RdfToCypherStatements | src/agentos/governance/write_gate.py:364-390 | one statement a triple, in iteration order; `StatementWritten` and `LabelOfPredicate` say which |
| Cypher.Neo4jClient.ExecuteWriteBatch | src/agentos/governance/neo4j_client.py:57-89 | all statements and the commit, with their total, or no change at all |
| Cypher.BlanksAreSkipped | src/agentos/governance/neo4j_client.py:81-87 | blank statements are not sent; a batch of them succeeds with the commit alone |
| Cypher.CreatedIsGrowth | src/agentos/governance/neo4j_client.py:83-86 | the created-record count of a MERGE is the growth of the store |
| Cypher.BatchAddsImage | src/agentos/governance/write_gate.py:229-234 | running the translated batch adds exactly the image of the set of triples in any order and counts its growth; it goes through iff no call of it fails, and else changes nothing |
| Cypher.BatchIsIdempotent | src/agentos/governance/write_gate.py:384-388 | repeating a batch, in any order, adds nothing and reports zero |
| CircuitBreakers.CircuitBreaker.Record | src/agentos/security/circuit_breaker.py:113-163 | buffer, open circuits and answer after a failure: append, prune, count, open |
| CircuitBreakers.CircuitBreaker.Check | src/agentos/security/circuit_breaker.py:165-189 | the answer, and the lazy reset when the last failure is over a window old |
| CircuitBreakers.CircuitBreaker.CountSimilarFailures | src/agentos/security/circuit_breaker.py:277-304 | how many buffered failures have equal or similar parameters |
| CircuitBreakers.CountsSimilar | src/agentos/security/circuit_breaker.py:289-304 | the count is of the failures with equal parameters or parameters the relation calls similar |
| CircuitBreakers.ResetForgets | src/agentos/security/circuit_breaker.py:191-204 | a reset closes a tool's circuit and forgets its failures, and no other tool notices |
| CircuitBreakers.CircuitBreaker.CleanupExpired | src/agentos/security/circuit_breaker.py:306-315 | what is older than a window leaves the tool's buffer; an empty buffer is removed |
| CircuitBreakers.CircuitBreaker.ResetTool | src/agentos/security/circuit_breaker.py:201-204 | a tool's failures and circuit are gone, the others stay |
| CircuitBreakers.CircuitBreaker.ResetAll | src/agentos/security/circuit_breaker.py:197-200 | everything is forgotten |
| CircuitBreakers.Latest | src/agentos/security/circuit_breaker.py:183-183 | the time of some failure, no failure being later |
| CircuitBreakers.CheckMirrors | src/agentos/security/circuit_breaker.py:165-189 | the lazy check answers what the history formula says at its own time |
| CircuitBreakers.RecordMirrors | src/agentos/security/circuit_breaker.py:136-163 | recording on a closed circuit keeps buffer and circuit in step with the whole history |
| CircuitBreakers.UsesAreFaithful | src/agentos/security/circuit_breaker.py:113-204 | after any sequential use every tool's buffer and circuit mirror its history |
| CircuitBreakers.BreakerRefinesHistory | src/agentos/security/circuit_breaker.py:129-189 | a circuit is open at t iff there is a failure, the last one f is at most a window before t, and at least `threshold` failures lie in (f-W, f] |
| CircuitBreakers.RecordKeepsBound | src/agentos/security/circuit_breaker.py:154-163 | a failure recorded on a circuit the history calls closed overfills no window |
| CircuitBreakers.RetryStormBound | src/agentos/security/circuit_breaker.py:113-189 | no half-open window ever holds more than `threshold` failures of a tool, across all openings and automatic resets (explicit resets are not among the uses) |
| CircuitBreakers.DegenerateConfigGetsStuck | src/agentos/security/circuit_breaker.py:154-189 | with neither window nor threshold positive one failure opens a circuit for ever |
| CircuitBreakers.RecordOpensIff | src/agentos/security/circuit_breaker.py:141-163 | whatever was pruned, a recorded failure takes the opening branch iff `threshold` failures of the whole history lie in the window that ends with it |
| CircuitBreakers.UncheckedRecordIff | src/agentos/security/circuit_breaker.py:136-189 | a failure recorded unasked on an open circuit leaves it following the history formula at all later times iff `threshold` failures lie in the window ending with it; with the history behind the buffer, iff the record would itself have opened the circuit |
| CircuitBreakers.UncheckedRecordKeepsOpen | src/agentos/security/circuit_breaker.py:136-189 | an instance of the previous row: a schedule whose third failure keeps a circuit open that the history calls closed |
| OverlappingMessages.FlightIsTracked | src/agentos/security/circuit_breaker.py:113-189 | with any overlap of messages the buffer is still the recent history, a closed circuit has room in its window, and a full window can grow only by the messages under way |
| OverlappingMessages.OverlapBound | src/agentos/kernel/kernel.py:104-206 | with at most c messages of a text under way at once, no window holds more than `threshold` + c - 1 of its failures |
| OverlappingMessages.OverlapBoundIsMet | src/agentos/kernel/kernel.py:104-206 | for every configuration with a positive window, and every c, a run meets that bound |
| OverlappingMessages.OverlapDepartsIff | src/agentos/security/circuit_breaker.py:154-189 | under any overlap the breaker is never more permissive than the history formula, and departs from it iff the circuit is open, the last failure at most a window old, and its window below `threshold` |
| OverlappingMessages.WithoutOverlapNoDeparture | src/agentos/kernel/kernel.py:104-206 | overlap is the cause: with never two messages of one text under way, every circuit is open exactly by the history formula |
| BillingFuses.BillingFuse.Record | src/agentos/security/billing_fuse.py:104-163 | spend, history and trip after a usage, and whether the call raises |
| BillingFuses.BillingFuse.Reset | src/agentos/security/billing_fuse.py:165-170 | spend, history and trip are cleared |
| BillingFuses.BillingFuse.BudgetRemaining | src/agentos/security/billing_fuse.py:179-182 | what is missing to the cap, and zero from the cap on |
| BillingFuses.CostPerMillion | src/agentos/security/billing_fuse.py:196-210 | a usage costs its tokens at its model's listed rates per million, or at the fallback rates if it is not listed |
| BillingFuses.RecordedOrRaised | src/agentos/security/billing_fuse.py:116-163 | a call raises iff it leaves the fuse tripped, and charges unless it found it so |
| BillingFuses.FuseAccounting | src/agentos/security/billing_fuse.py:116-163 | spend is the sum over the history; tripped iff some prefix of the usages goes over the cap; exactly the usages up to the first such are charged; overshoot at most the last one's cost |
| BillingFuses.TripLatches | src/agentos/security/billing_fuse.py:116-122 | once tripped, no further usage changes anything |
| BillingFuses.SixtiethMessageTrips | src/agentos/kernel/kernel.py:118-127 | with default prices and cap the 60th billed message is the first to trip the fuse |
| KernelCommands.CutLine | src/agentos/kernel/kernel.py:261-266 | cutting at the first newline loses nothing and the first part has none |
| KernelCommands.CommandRoundTrip | src/agentos/kernel/kernel.py:242-273 | a command message is parsed back into its own domain, nonce and byte-identical data iff none of its parts triggers the keyword tests; otherwise it is answered as a question |
| KernelCommands.ParsedDataIsByteIdentical | src/agentos/kernel/kernel.py:258-272 | for any text, a parsed write carries everything after the first newline untouched, and second and third word of the first line |
| KernelCommands.MessagePassesGate | src/agentos/cli/cli.py:286-291 | a message built from a nonce of its own domain and data reaches the gate and passes its check iff in time and not burned |
| KernelCommands.MessageText | src/agentos/cli/cli.py:286-291 | the text of a command message |
| Text.StripIs | src/agentos/kernel/kernel.py:85-85 | stripping takes the blanks off both ends, all of them and nothing else |
| Text.AsciiBlanks | src/agentos/kernel/kernel.py:262-262 | which ASCII characters are blanks |
| KernelCommands.Intents | src/agentos/kernel/kernel.py:242-290 | what each message is taken for, by the words its stripped and lower-cased text contains, in the order they are tried |
| KernelCommands.LeadingLineIsBadFormat | src/agentos/kernel/kernel.py:258-275 | a message with a blank first line never reaches the gate |
| Kernels.AgentOSKernel.ProcessMessage | src/agentos/kernel/kernel.py:230-290 | only a parsed governed write touches the gate, exactly as the gate decides, and an authorised one is answered iff no database call fails; quota refusals count as policy violations, other refusals and database failures as errors |
| Kernels.AgentOSKernel.WakeUp | src/agentos/kernel/kernel.py:74-214 | reply, breaker, fuse and session count after a message; intercepted, tripped and blocked messages never reach the gate |
| Kernels.Replies | src/agentos/kernel/kernel.py:100-214 | which reply a message gets, in the order of the hooks, each exactly, and what each leaves in breaker and fuse |
| Kernels.WriteOutcomes | src/agentos/kernel/kernel.py:138-214 | a write's outcome is a policy violation iff refused by quota, and an answer iff authorised and no database call fails |
| Kernels.OverQuotaIsBlocked | src/agentos/kernel/kernel.py:111-147 | a command over the write quota is blocked, and leaves breaker and fuse as asking left them: writing too fast opens no circuit |
| Kernels.ChargedWords | src/agentos/kernel/kernel.py:118-127 | a message is charged for iff its stripped, lower-cased text contains one of four words |
| Kernels.ChargedIntents | src/agentos/kernel/kernel.py:118-127 | validation help, write help and every command are charged for, greetings are not |
| Kernels.KernelDrivesBreaker | src/agentos/kernel/kernel.py:100-214 | any sequence of messages is sequential use of the breaker, and its failure history is the times of error replies |
| Kernels.TrippedByErrors | src/agentos/kernel/kernel.py:104-109 | a message is turned away as tripped iff earlier replies to its stripped text were errors `threshold` times in a window, the last at most a window ago |
| Kernels.ErrorsAreBounded | src/agentos/kernel/kernel.py:182-214 | one message at a time: no window holds more than `threshold` error replies to one text |
| Kernels.KernelChargesFuse | src/agentos/kernel/kernel.py:118-127 | the fuse was charged exactly once for each processed message that mentions one of the four words of `ChargedWords` |
| Kernels.ExhaustedFromSixtieth | src/agentos/kernel/kernel.py:115-127 | by default exactly the charged messages from the 60th on are answered as exhausted, after they were processed |
| SopRuns.StepLeads | src/agentos/workflow/sop_engine.py:146-189 | where a step takes the run, each case exactly: it waits iff a person is asked and the card went out, fails iff the gate does not get or accept what it needs, is left by an exception iff gate, template or sender raise, and goes on otherwise |
| SopRuns.StepLeaves | src/agentos/workflow/sop_engine.py:298-351 | what a step leaves in the data: its nonce under the key's name, the card it asked with, and nothing else |
| SopRuns.StepErrors | src/agentos/workflow/sop_engine.py:282-415 | which error a failing step leaves |
| SopRuns.StepRequests | src/agentos/workflow/sop_engine.py:282-411 | what a step asks of the gate: a validation of its data in its domain, or the write of its data with the nonce kept for it |
| SopRuns.EveryResultIsEarned | src/agentos/workflow/sop_engine.py:154-161 | over every run, each recorded result was earned by the reply its own step got |
| SopRuns.CreatedIsNew | src/agentos/workflow/sop_engine.py:118-127 | a new run has done nothing, and names its procedure |
| SopRuns.RunKeepsItsName | src/agentos/workflow/sop_engine.py:118-123 | in memory and in the store a run keeps its own id and that of the procedure it was created for |
| SopRuns.SoundStep | src/agentos/workflow/sop_engine.py:137-255 | every event of a disciplined run keeps results and executed steps a prefix of the definition, of the length its state and index say, and the stored context in step |
| SopRuns.ExactlyOnceInOrder | src/agentos/workflow/sop_engine.py:111-255 | along create_run, run and resume* no step is skipped or repeated: all steps when COMPLETED, through the approval when SUSPENDED or REJECTED, up to the failing step when FAILED |
| SopRuns.MovesUseUpRemaining | src/agentos/workflow/sop_engine.py:146-189 | every event that moves a run uses up a measure of its remaining steps; the others leave it alone |
| SopRuns.RunsAreFinite | src/agentos/workflow/sop_engine.py:137-255 | however many callbacks arrive, a run of n steps moves at most 2n + 1 times |
| SopRuns.FinalIsForever | src/agentos/workflow/sop_engine.py:213-216 | no decision, reload or answer changes a REJECTED, FAILED or COMPLETED context; calling run on it is the subject of the next rows |
| SopRuns.RunAgainIff | src/agentos/workflow/sop_engine.py:143-148 | calling run on the context at hand keeps steps exactly once and in order iff it is PENDING or positioned past the last step; else the step at its position, executed before, is executed again |
| SopRuns.RunningSuspendedRepeats | src/agentos/workflow/sop_engine.py:143-148 | for a suspended context that step is its approval |
| SopRuns.StoredRunningRepeats | src/agentos/workflow/sop_engine.py:146-182 | the RUNNING context stored after a step still points at that step: run from there executes it again |
| SopRuns.StoredRunRepeatsIff | src/agentos/workflow/sop_engine.py:137-189 | wherever the process is lost, run on the stored context starts at an executed step iff some step was executed and the stored position is not past the last one; a stored state other than PENDING shows a step was executed, PENDING that none was or only a first one that raised |
| SopRuns.RestartIsTransparent | src/agentos/workflow/sop_engine.py:125-189 | reloading the stored context between normal returns gives the same results, gate calls, feedback row and stored context as never leaving memory |
| SopRuns.ApprovalAgreesWithAudit | src/agentos/workflow/sop_engine.py:213-255 | no step behind a suspended approval executes without an APPROVED row; a REJECTED row means nothing executed after that approval; a completed run waited at most once |
| SopRuns.NobodyIsPassedOver | src/agentos/workflow/sop_engine.py:316-376 | no step behind an approval executes unless an APPROVED row is on record, or that approval has a condition that was answered as not triggering |
| SopRuns.DecisionLeaves | src/agentos/workflow/sop_engine.py:218-255 | an accepted decision is on the context, and on record with the approval step as the output it was about; it rejects iff it says so, and else goes on behind the approval |
| SopRuns.SecondWaitNeverEnds | src/agentos/workflow/sop_engine.py:213-236 | a run suspended with a row already recorded stays suspended, whatever is decided |
| SopRuns.RaisingStepStrands | src/agentos/workflow/sop_engine.py:222-255 | after an accepted approval whose next step has run, the store shows SUSPENDED with a row on record iff that step raised or suspended once more |
| SopRuns.ThrownIsStranded | src/agentos/workflow/sop_engine.py:154-168 | a run left by an exception, at any step, is never decided again: every callback on its stored context is refused and nothing more executes |
| SopCallbacks.LinearStep | src/agentos/main/main.py:438-470 | each event of competing handlers is an event of the winner's life, or invisible |
| SopCallbacks.FirstDecisionWins | src/agentos/main/main.py:447-465 | for any interleaving of callbacks, each on its own copy, stores and executed steps are those of one handler alone; at most one decision is accepted and each step runs at most once |
| SopCallbacks.RejectionIsFinal | src/agentos/workflow/sop_engine.py:222-250 | the row is the accepted decision; a recorded rejection is also the stored outcome, with nothing executed after it |
| SopCallbacks.WithoutFeedbackTwoCallbacksRepeat | src/agentos/workflow/sop_engine.py:222-255 | without the feedback table two approvals both execute the next step |
| SopCallbacks.OnceIffFeedback | src/agentos/workflow/sop_engine.py:222-255 | for a suspended run with a step left: no interleaving of callbacks repeats or skips a step iff the feedback table is attached |
| SopGate.CheckIsOk | src/agentos/workflow/sop_engine.py:289-299 | a validation's tick is no earlier than that of any nonce the run has already burned |
| SopGate.WritesNeedFreshCheck | src/agentos/workflow/sop_engine.py:394-411 | between two authorised writes to one domain and key lies a validation of the second's data that issued its nonce, at a later tick if the data is the same |
| SopGate.JoinedStep | src/agentos/workflow/sop_engine.py:259-418 | every event of engine, gate and other users keeps the joint invariant of data, log, results and gate |
| SopGate.RunIsJoined | src/agentos/workflow/sop_engine.py:111-255 | the joint invariant holds in every reachable state of a new run beside a gate in use |
| SopGate.EveryWriteIsFresh | src/agentos/workflow/sop_engine.py:388-418 | every write of every run, a first or only one too: the gate passed its own domain and data on an issue for them at most TTL old, however long the run was suspended; the nonce is that of an earlier validate step of that data, or was in the initial data |
| SopGate.WritesOfOneRun | src/agentos/workflow/sop_engine.py:388-418 | two writes of a run to one domain and key are separated by a validation at a later tick (same data), and the second is checked within TTL of it |
| SopGate.CompletedRunsRevalidate | src/agentos/workflow/sop_engine.py:276-301 | a procedure with two writes to one domain and key completes only if a validate step for them lies between |
| SopGate.EngineSpeaksTurtle | src/agentos/governance/write_gate.py:174-180 | the engine asks the gate with the clock reads of the step, and for Turtle |
| SopGate.LandedStep | src/agentos/workflow/sop_engine.py:404-418 | every joint event keeps: each write step with a result is committed, and the write under way belongs to the step under way |
| SopGate.CompletedWritesAreCommitted | src/agentos/workflow/sop_engine.py:380-418 | for each write step of a completed run a write is committed in the step's domain, of its initial data unless the key is an engine slot, as the graph that data parses to, and conforming |
| SopRacing.RaceStepLed | src/agentos/main/main.py:438-470 | every event of racing handlers and of the gate is one of the winner's run alone at the gate, or invisible to it |
| SopRacing.RacingWritesAreFresh | src/agentos/workflow/sop_engine.py:193-255 | however many handlers race to resume a run, and whoever else uses the gate: no step executes twice, and every write passed the gate for its own data on an issue at most TTL old, its nonce from the initial data or the run's own validation |
| SopRacing.RacingWritesRevalidate | src/agentos/workflow/sop_engine.py:394-411 | two writes of a raced run to one domain and key are separated by a validation for them, the second within TTL of it |
| SopObjects.FeedbackDB.GetByTraceId | src/agentos/database/feedback_db.py:156-170 | a row is found iff one was recorded for the trace |
| SopObjects.FeedbackDB.Insert | src/agentos/database/feedback_db.py:114-154 | accepted iff the decision is known and the trace has no row; only then the table grows, by this row |
| SopObjects.WorkflowStateStore.SaveState | src/agentos/database/state_store.py:52-68 | the run's entry becomes the context's present record, no other entry changes |
| SopObjects.WorkflowStateStore.LoadState | src/agentos/database/state_store.py:70-83 | nothing for an unknown run or an undecodable row, otherwise a new object of its own with the stored record |
| SopObjects.SOPEngine.CreateRun | src/agentos/workflow/sop_engine.py:111-127 | a new context for this procedure with nothing done, stored if there is a store: the beginning of a life |
| SopObjects.SOPEngine.StepValidate | src/agentos/workflow/sop_engine.py:276-301 | context and exit of a validate step, told by the gate's own answer; the gate's state stays |
| SopObjects.SOPEngine.StepHumanApproval | src/agentos/workflow/sop_engine.py:305-376 | auto-approval, suspension with card, or an exception before or after the card is stored, as condition, template and sender of the environment answer |
| SopObjects.SOPEngine.StepAction | src/agentos/workflow/sop_engine.py:380-418 | context and exit of an action; gate and graph change exactly by the write it asked for, which is reported iff it was authorised and no database call failed |
| SopObjects.SOPEngine.StepNotify | src/agentos/workflow/sop_engine.py:422-428 | a notification changes nothing, and raises exactly if the environment could not build its text |
| SopObjects.SOPEngine.RunStep | src/agentos/workflow/sop_engine.py:259-272 | the handler of the step's type, with its effect, told by the environment's and the gate's own answers |
| SopObjects.SOPEngine.Settle | src/agentos/workflow/sop_engine.py:154-182 | what the loop records and saves of a step that returned or failed |
| SopObjects.SOPEngine.Turn | src/agentos/workflow/sop_engine.py:146-182 | one turn of the loop is one step of the life, answered by environment and gate |
| SopObjects.SOPEngine.Run | src/agentos/workflow/sop_engine.py:137-189 | the whole loop, in place, is a life whose every reply is the environment's and the gate's own answer: context, store, gate and graph are those of that life, other runs untouched |
| SopObjects.SOPEngine.RecordDecision | src/agentos/workflow/sop_engine.py:218-240 | the decision is put on the context and on record, or refused leaving the stores alone |
| SopObjects.SOPEngine.Decided | src/agentos/workflow/sop_engine.py:213-254 | refusal, rejection, or entry into the rest of the run, as the machine decides |
| SopObjects.SOPEngine.Resume | src/agentos/workflow/sop_engine.py:193-255 | resuming is one decision of the life followed by its steps, answered by environment and gate; a refusal changes neither stores nor gate |
| SopObjects.AcceptedIff | src/agentos/workflow/sop_engine.py:213-236 | a known decision is accepted iff the run is suspended and, with the table attached, has no row |
| SopObjects.AcceptedIsRecorded | src/agentos/workflow/sop_engine.py:222-236 | the row written on acceptance stays, whatever the steps then do |
| SopObjects.ServiceBootstrap.CreatedRunIsAcceptable | src/agentos/main/main.py:455-465 | every run created for a known procedure can be decided while it is stored as suspended without a row |
| SopObjects.ServiceBootstrap.LoadAndResume | src/agentos/main/main.py:447-465 | takes effect iff the run is stored and decodes, its procedure is known, and it is suspended and undecided; otherwise stores and gate are unchanged, and the reply says which of these failed |
| SopObjects.ServiceBootstrap.ResumeSop | src/agentos/main/main.py:365-400 | the HTTP handler: acceptance condition, which refusal otherwise and no effect, and the one life it carries out; afterwards the row is on record |
| SopObjects.ServiceBootstrap.HandleCardCallback | src/agentos/main/main.py:438-470 | the same for card callbacks, which are ignored without run id or decision |

## Left out

- SHACL and OWL processing: parsing and validation are fixed functions of data, format and domain, the validator cache a set.
- HMAC and SHA-256 internals, timing-safe comparison, and the error text for a submitted signature that is not ASCII (a refusal either way).
- Feature hashing and cosine similarity: "similar" is a given relation; the kernel only compares equal texts.
- Condition expressions, card and notification templates, card sending: an arbitrary answer for each step.
- Context values other than strings; a stored card is a string, and the agent output kept with a feedback row is reduced to the note of the last step.
- SopObjects.SOPEngine.CreateRun: the run id is given; a missing one is drawn at random in the code.
- SOP YAML loading, timeouts of approvals (stored, never enforced by the engine), and the listing and counting queries of the two stores.
- SopObjects.WorkflowStateStore.LoadState: whether a row decodes is the environment's answer, and one that does is taken to round-trip; SQLite errors are not modelled.
- SopObjects.FeedbackDB.Insert: row ids and timestamps are left out.
- SopObjects.ServiceBootstrap.ResumeSop: HTTP status codes are named replies; handlers of different requests interleave in `SopCallbacks`, not here.
- WriteGates.WriteGate.ExecuteGovernedWrite: the gate without a database client, the transaction id and lone surrogates in data are left out; here the commit happens within the call, in `GateRuns` it is a step of its own.
- GateRuns.NonceIsSingleUse: a restart of the gate loses table and clock and is not modelled.
- KernelCommands.CommandRoundTrip: lower-casing is any function that works piecewise between blanks and keeps the command word; `LoweringExists` gives one.
- Kernels.AgentOSKernel.WakeUp: an exception of the firewall scan other than its own intercept, which is recorded without asking the breaker, is not modelled; the firewall, the session and command checks of the policy, and every reply text are oracles or names; telemetry is left out.
- Kernels.ErrorsAreBounded: messages are handled one at a time; overlapping ones are the subject of `OverlappingMessages`, where only the breaker is modelled.
- CircuitBreakers.RetryStormBound: an explicit `reset` forgets the failures before it, and is not among the modelled uses.
- CircuitBreakers.CircuitBreaker.Record: the clock is read once per operation; the code reads it again when pruning and when opening.
- BillingFuses.BillingFuse.Record: floating-point rounding and the revoke callback are left out.
- Cypher.EscapedLiteralReadsBack: the reader knows backslash escapes of one character; the \uXXXX escapes of Cypher are not modelled (a written backslash is always doubled).
- Path checks, command allowlists, the domain list of the quota (logged only), MCP, HTTP, Feishu and CLI plumbing, the WASM sandbox and the UI.
