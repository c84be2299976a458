# Verified model of the attestation proxy

The proxy sits between a client and a language-model provider, signs what passed through it, and hands out
proofs that tie its signing key to a Confidential Space workload. This project models the parts of it whose
correctness is least obvious from reading one function, and proves what they are for. To check all of it:
`dafny verify dfyconfig.toml`.

## The five pieces

**Proof routing** (`internal/proofcache`). Replicas share three tables: write-once proofs, replica liveness and
leased requests. `ProofTables` gives every SQL statement its effect on the tables, and `PostgresStore` is the store
that updates them in place. `RouterMachine` is the whole system as a state machine: one step is one statement, one
token request or one scheduling decision of one thread; the order of steps, the clocks, the answers of the token
provider and the failures of the store (lost, or done but not acknowledged) are all free. `Router` is `Cache.Issue`,
`Resolve`, `run` and `processPending` in the form the source gives them, with the other threads acting between any
two statements; every execution of these methods is proved to be a run of the machine. What is proved of all runs is
in `RouterSafety` (answers, provenance, persistence), `RouterDraining`, `RouterLeases`, `RouterWaiting` and
`RouterOvertaking`; what comes of single calls and batches is in `RouterOutcomes`.

**Path rules** (`internal/mitmproxy/pathrules.go`). `PathPatterns` says what a pattern is, when it matches and which
pattern a path is given. `PathTrie` builds the trie of heap nodes in place, in whatever order the map yields the
patterns, and searches it with backtracking; it is proved to answer exactly as the patterns do.

**Signing** (`internal/attestation/attestation.go`). `Json` and `CanonicalJson` are RFC 8785 for the values the proxy
signs, with a parser that shows the printer injective. `Claims` shows that the signed bytes determine the claims,
`SignedFields` that the list in the header determines the field names, and `Attestation` that what is signed
verifies and what verifies was signed. `SurrogateScanner` is the index loop that refuses unpaired surrogate escapes,
proved exact on the texts of RFC 8259. `GoText` holds the few facts about Go strings and integers they share, and
`Basics` what all the files take from Go.

**Conversations** (`internal/mitmproxy/text_extractors.go`, `docs/verify_response.py`). `StrictScan` is the token
scanner that refuses repeated keys. `Extractors` reduces the three request protocols to one conversation and
`Renderings` shows that whichever way a conversation is written down it comes back the same. `Conversations` makes the
signed fields of a conversation and shows that an accepted signature fixes it. `MessageShapes` says which messages,
requests and responses are accepted, by the members of their objects. `ChatResponses` compares the proxy's
reading of a chat response with the client's.

**Body capture** (`readAndRestore` in `internal/mitmproxy/proxy.go`). `BodyCapture` treats a body as a stream that may
never end and shows what a later reader will see.

## Where the code does less than one might expect

Each of these is proved, with the exact condition under which the code does what is wanted:

- A drain is undone by the next heartbeat of a loop that is still alive: `RouterDraining.DrainFinalIff` and
  `RouterDraining.DrainUndone`.
- Requests with equal times may be claimed in any order, so how long a request waits depends on how many later ones
  are given its time: a number of polls is sure to claim it exactly if, in batches, it exceeds the rows ahead and the
  ties (`RouterOvertaking.BoundIsExact`); no number is, if ties are not bounded (`RouterOvertaking.LeftBehind`).
- Two response content types that are not UTF-8 can be signed as the same bytes: `Claims.ContentTypeCollides`.
- A body limit of 2^63 - 1 wraps around and loses the body: `BodyCapture.ReadAndRestore`.
- What is signed for a domain or fingerprint outside ASCII verifies exactly if its lower case folds to what is expected,
  which the Unicode tables decide: `Attestation.SignThenVerify`.
- The proxy counts the text of a block whose type is null and the client does not: `ChatResponses.AgreeIff` and
  `ChatResponses.NullTypeDisagrees`.

## Idealisations

SHA-256 under base64url is injective, so a digest is represented by what was hashed. Ed25519 with its encoding is a
pair of functions; that it cannot be forged is a hypothesis of the binding lemmas (`Attestation.Unforgeable`), that
the key pair matches one of the round trips (`Attestation.Matching`). Random nonces are arguments. Clocks, database
failures, token replies and row locks are inputs of each step and are not constrained. The wait of `Resolve` ends
after any finite number of ticks, and the events of `run` are any finite list.

## Model

| member | source | states |
|---|---|---|
| ProofTables.RecordRoundTrip | internal/proofcache/postgres.go:345-374 | storing a bundle as a row and reading the row back gives the same bundle |
| PostgresStore.PostgresStore.Find | internal/proofcache/postgres.go:144-156 | the bundle on record under a key, filed under its own two columns, or none |
| PostgresStore.PostgresStore.Insert | internal/proofcache/postgres.go:158-166 | a proof already on record is left as it is |
| PostgresStore.PostgresStore.Put | internal/proofcache/postgres.go:158-168 | whoever comes second gets what the first one stored |
| PostgresStore.PostgresStore.RegisterReplica | internal/proofcache/postgres.go:170-188 | the row of a reference is replaced as a whole |
| PostgresStore.PostgresStore.HeartbeatReplica | internal/proofcache/postgres.go:190-201 | only the row registered under this instance is touched, and its draining flag is cleared |
| PostgresStore.PostgresStore.SetReplicaDraining | internal/proofcache/postgres.go:203-214 | only the row registered under this instance is marked; reports whether there was one |
| PostgresStore.PostgresStore.EnqueueRequest | internal/proofcache/postgres.go:234-246 | a request that is already queued is left as it is |
| PostgresStore.PostgresStore.SelectClaimable | internal/proofcache/postgres.go:248-260 | oldest rows first, pending or with an expired lease, none that is locked or expired, and short only when nothing eligible is left |
| PostgresStore.PostgresStore.LeaseRows | internal/proofcache/postgres.go:261-275 | the update loop leases exactly the selected rows, counting one more attempt each |
| PostgresStore.PostgresStore.ClaimRequests | internal/proofcache/postgres.go:248-286 | the transaction leases a selection of the table as it was and hands out those requests, all the owner's own |
| PostgresStore.PostgresStore.CompleteRequest | internal/proofcache/postgres.go:288-299 | settles one row and changes no other |
| PostgresStore.PostgresStore.FailRequest | internal/proofcache/postgres.go:301-313 | settles one row with a prefix of at most 1024 of the message |
| PostgresStore.PostgresStore.DeleteExpiredRequests | internal/proofcache/postgres.go:329-333 | a row stays exactly if its expiry lies ahead |
| Router.Cache.Issue | internal/proofcache/cache.go:111-136 | with any interference between its statements, the call is a run of the machine that ends with this result |
| Router.Cache.RequestToken | internal/proofcache/cache.go:138-151 | asks for the challenge and this replica's key binding, and passes on only a JWT whose positive expiry lies strictly after the clock reading taken when it came |
| Router.Cache.Put | internal/proofcache/postgres.go:158-168 | the two statements of Put with others in between |
| Router.Router.Start | internal/proofcache/router.go:106-118 | the replica is registered, not draining, before its loop exists |
| Router.Router.Drain | internal/proofcache/router.go:120-122 | marks the row registered under this instance and touches neither proofs nor requests |
| Router.Router.Resolve | internal/proofcache/router.go:124-182 | whatever the other threads do, a successful answer is the proof on record for that name, minted by its owner |
| Router.Router.ResolveForeign | internal/proofcache/router.go:128-182 | find, liveness check, enqueue and polling loop as a run of the machine |
| Router.Router.CheckOwner | internal/proofcache/router.go:134-144 | an absent owner means no proof, a draining or stale one means unavailable |
| Router.Router.Enqueue | internal/proofcache/router.go:146-154 | queues the request with its expiry, once |
| Router.Router.AwaitProof | internal/proofcache/router.go:156-182 | polls until there is a proof, a failure or the end of the wait |
| Router.Router.Poll | internal/proofcache/router.go:161-172 | a proof is an answer, a failed request an error, anything else means waiting on |
| Router.Router.Run | internal/proofcache/router.go:184-207 | the loop ends with a drain write; it reports success only if the row is marked |
| Router.Router.Heartbeat | internal/proofcache/router.go:196-202 | a heartbeat and a clean-up with the same time, whether or not the first succeeds |
| Router.Router.ProcessPending | internal/proofcache/router.go:209-235 | every claimed request is issued and settled in turn before the loop polls again |
| Router.Router.Claim | internal/proofcache/router.go:210-220 | claims at most a batch of the owner's own requests |
| Router.Router.Settle | internal/proofcache/router.go:225-233 | a failed issue fails the request with its message, a successful one completes it |
| RouterSafety.ApplyKeepsSafe | internal/proofcache/router.go:124-235 | every step of every thread keeps the invariant, and proofs and mints are only ever added |
| RouterSafety.RunKeepsSafe | internal/proofcache/router.go:124-235 | so does every run |
| RouterSafety.AnswersAgree | internal/proofcache/cache.go:111-136 | two successful answers for one name, at any two moments of any run, are equal and genuine |
| RouterSafety.RefinesLedger | internal/proofcache/cache.go:29-35 | every step is a step of a write-once map from names to bundles, and every answer is a lookup in it |
| RouterSafety.ProvenanceAndPersistence | internal/proofcache/cache.go:138-192 | in every reachable state a stored proof is, field by field, what its owner makes of a token it was handed for exactly that challenge and its own key, strictly before the token expired; and a completed request has a stored proof |
| RouterSafety.MintsOwnKeyOnly | internal/proofcache/cache.go:138-151 | a token is only ever requested by the process whose key it is bound to |
| RouterSafety.ForeignResolveNeverMints | internal/proofcache/router.go:124-132 | resolving another replica's reference mints nothing and changes no proof, replica or existing request |
| RouterDraining.DrainFinalIff | internal/proofcache/router.go:184-207 | a mark survives every continuation without a new start if and only if no loop registered under that name is alive |
| RouterDraining.DrainingIsFinal | internal/proofcache/router.go:190-195 | once the last loop has exited with its drain write successful, the row stays draining; later callers for it never change the tables, and an answer given while no such proof is on record says that the owner is unavailable or the store failed |
| RouterDraining.DrainUndone | cmd/tap/main.go:130-143 | a replica that has just started and is told to drain is marked, and its next heartbeat clears the mark |
| RouterDraining.StaleOwnerRefused | internal/proofcache/router.go:128-144 | once no loop beats for an owner and none is started, later callers whose clocks are past its last heartbeat by more than staleAfter never change the tables, and without a stored proof are told that the owner is unavailable or the store failed |
| RouterOutcomes.IssueSucceeds | internal/proofcache/cache.go:111-151 | a caller of its own replica whose four turns meet no fault and an unexpired JWT is given the proof on record, whatever all the others do in between |
| RouterOutcomes.MintTells | internal/proofcache/cache.go:115-151 | with no proof on record the launcher is asked once, with the challenge and the binding; a refusal, a token without a positive expiry and an expired one each give their own error, a good token none, and nothing is stored so far |
| RouterOutcomes.BlankRefused | internal/proofcache/cache.go:112-114 | a challenge of blanks and line breaks is refused with nothing looked up or minted |
| RouterOutcomes.AsksExactlyTheLiving | internal/proofcache/router.go:128-154 | without faults a foreign caller is given the stored proof, or asks the owner if its row is unmarked and its last heartbeat not too old, with the expiry reckoned from that look, or is refused without a change |
| RouterOutcomes.PollTells | internal/proofcache/router.go:161-172 | a poll without faults gives the proof on record, reports a failed request with its error, and waits on otherwise |
| RouterOutcomes.WaitTells | internal/proofcache/router.go:173-180 | a tick leads to the next poll, a deadline to the timeout, a cancelled context to its own error |
| RouterOutcomes.HeadCompleted | internal/proofcache/router.go:221-233 | a worker whose turns meet no fault and a good token completes the request at the head of its batch, its proof on record, and goes on to the next, whatever the others do |
| RouterOutcomes.FailureRecorded | internal/proofcache/router.go:225-230 | a failed issue leaves the row failed with its message cut at 1024, and nothing else changed |
| RouterOutcomes.TakesWhatIsDue | internal/proofcache/postgres.go:248-260 | a poll with room takes exactly the unexpired rows of its owner that are pending or whose lease has run out |
| RouterOutcomes.BeatTurns | internal/proofcache/router.go:196-202 | a beat and its clean-up refresh and unmark the replica's own row and keep exactly the requests that have not expired |
| RouterDraining.LateStep | internal/proofcache/router.go:128-144 | a caller who meets a draining row changes nothing and is told the owner is unavailable |
| RouterLeases.ApplyRows | internal/proofcache/postgres.go:234-313 | no step moves a status back, changes an expiry or forgets a claim |
| RouterLeases.LifetimeMovesForward | internal/proofcache/postgres.go:234-313 | the same over a whole lifetime of a row |
| RouterLeases.AttemptsBounded | internal/proofcache/postgres.go:248-286 | claims of one lifetime are more than a lease apart and before the expiry, so attempts minus one leases fit between the first claim and the expiry |
| RouterWaiting.PollsUseUpAhead | internal/proofcache/postgres.go:248-286 | with non-decreasing request times, while a row stays pending each poll uses up a whole batch of the rows at least as old, to which only later rows given the same time are added |
| RouterWaiting.ClaimedInTime | internal/proofcache/router.go:209-220 | a row has been claimed once the polls, in batches, exceed the rows at least as old and the ties, however many ask later |
| RouterWaiting.ClaimedByPoll | internal/proofcache/router.go:209-220 | with no ties and n pending rows at least as old, that is poll n / batch size + 1 |
| RouterWaiting.StaysInHand | internal/proofcache/router.go:209-235 | a lone undisturbed worker has every request it claimed still in its batch |
| RouterWaiting.LoneWorkerSettles | internal/proofcache/router.go:209-235 | so at its next poll whatever it may claim is pending |
| RouterWaiting.LoneRunIsOrderly | internal/proofcache/router.go:184-235 | so in a run of a lone worker every poll finds the earlier claims settled, and the row stays on record until it expires |
| RouterWaiting.ClaimedByLoneWorker | internal/proofcache/router.go:184-235 | the waiting bound for a lone undisturbed worker, with nothing assumed of the rows its polls find |
| RouterOvertaking.LeftBehind | internal/proofcache/postgres.go:248-258 | for every batch size and every number of rows ahead, ties and polls below the bound, a reachable state and a run of a lone worker after which the row is still pending |
| RouterOvertaking.BoundIsExact | internal/proofcache/postgres.go:248-286 | a number of polls is sure to claim a row if and only if, in batches, it exceeds the rows ahead and the ties |
| PathPatterns.SplitJoins | internal/mitmproxy/pathrules.go:134-139 | cutting a path at its slashes loses nothing and leaves no slash in a segment |
| PathPatterns.ParameterSegmentShape | internal/mitmproxy/pathrules.go:141-143 | the counting test holds exactly of a brace-free name between one pair of braces |
| PathPatterns.ValidParameterName | internal/mitmproxy/pathrules.go:145-159 | the index loop accepts exactly the identifiers |
| PathPatterns.ParsePathPattern | internal/mitmproxy/pathrules.go:111-132 | accepts exactly the well-formed patterns, and tells templates from literal paths |
| PathPatterns.WellFormedShape | internal/mitmproxy/pathrules.go:111-159 | a pattern is well formed if and only if it starts with a slash, holds none of ? # CR LF, and each segment is brace-free or an identifier in one pair of braces |
| PathPatterns.PrecedesIsStrict | internal/mitmproxy/pathrules.go:99-108 | static before parameter at the first difference is a strict preference |
| PathPatterns.MatchSpecUnique | internal/mitmproxy/pathrules.go:76-90 | the definition over the pattern list gives each path at most one answer |
| PathTrie.CompiledPathRules.MatchTemplateIsBest | internal/mitmproxy/pathrules.go:92-109 | backtracking finds the preferred matching template below a node, and none only if none matches |
| PathTrie.CompiledPathRules.Match | internal/mitmproxy/pathrules.go:76-90 | the compiled trie answers as the pattern list does: the literal rule, else the preferred matching template, else nothing |
| PathTrie.CompiledPathRules.Len | internal/mitmproxy/pathrules.go:68-74 | the number of configured patterns, which is literal rules plus trie nodes with a rule |
| PathTrie.CompiledPathRules.Child | internal/mitmproxy/pathrules.go:42-57 | the next node for a segment, made if missing; nothing else in the trie changes |
| PathTrie.CompiledPathRules.Descend | internal/mitmproxy/pathrules.go:41-57 | ends at the node of the template's labels, adding only nodes without rules |
| PathTrie.CompiledPathRules.Insert | internal/mitmproxy/pathrules.go:41-63 | refuses exactly if the node already has a rule, naming the first pattern; otherwise adds this rule and no other |
| PathTrie.CompiledPathRules.Add | internal/mitmproxy/pathrules.go:31-63 | one turn of the compile loop: a malformed pattern or a template whose node is taken is reported, a literal or a new template is added and nothing else changes |
| PathTrie.AddAll | internal/mitmproxy/pathrules.go:31-64 | the compile loop over the map in any order |
| PathTrie.CompilePathRules | internal/mitmproxy/pathrules.go:25-66 | succeeds if and only if all patterns are well formed and no two templates are equal up to parameter names; an error names a malformed pattern or two equal templates |
| PathTrie.OrderIndependent | internal/mitmproxy/pathrules.go:25-66 | two compilations of one configuration hold the same rules, whatever order they took |
| Json.ValueRoundTrip | internal/attestation/attestation.go:274-282 | the parser reads back what the printer of RFC 8785 wrote, and stops where it ended |
| Json.PrintInjective | internal/attestation/attestation.go:274-282 | no two values are printed alike |
| CanonicalJson.Utf16Injective | internal/attestation/attestation.go:278-278 | names with equal UTF-16 code units are equal, so their order is one on names |
| CanonicalJson.CodeUnitsMean | internal/attestation/attestation.go:278-278 | the code units of a character are itself below U+10000 and its surrogate pair from there on |
| CanonicalJson.MembersSorted | internal/attestation/attestation.go:278-278 | canonical members are strictly ordered and are the images of the original ones |
| CanonicalJson.CanonicalExists | internal/attestation/attestation.go:278-281 | canonicalization fails exactly on a repeated name |
| CanonicalJson.CanonicalIff | internal/attestation/attestation.go:274-282 | two values have one canonical form exactly if they are equal as JSON |
| GoText.ParseMeans | internal/attestation/attestation.go:422-422 | a text is read as n exactly if it is decimal digits of that value after at most one sign, and n fits int64 |
| GoText.TrimmedMeans | internal/attestation/attestation.go:579-582 | a value has no space at either end exactly if trimming it changes nothing, and is all space exactly if nothing is left |
| GoText.HeaderValueMeans | internal/attestation/attestation.go:579-591 | the ASCII header values are those of printable characters and tabs with neither blank nor tab at either end |
| GoText.ChallengeMeans | internal/attestation/attestation.go:550-560 | a challenge is exactly 10 to 74 ASCII letters, digits, hyphens and underscores |
| GoText.FormatParses | internal/attestation/attestation.go:165-165 | a decimal integer in the header parses back to itself |
| Claims.PayloadIff | internal/attestation/attestation.go:242-283 | two payloads are equal if and only if the claims are, omitted members included and values up to JSON equality |
| Claims.PayloadExists | internal/attestation/attestation.go:274-281 | besides the checks, a payload exists exactly if no field value repeats a member name |
| Claims.PayloadAccepted | internal/attestation/attestation.go:242-283 | exactly which claims have a payload, range by range |
| Claims.PayloadSays | internal/attestation/attestation.go:82-97 | parsing a payload gives an object in order that has each claim under its own name, and the omitted ones nowhere |
| Claims.ContentTypeCollides | internal/attestation/attestation.go:243-272 | content types that are not UTF-8 can share a payload; ones that are never do |
| SignedFields.ValidateFields | internal/attestation/attestation.go:626-650 | accepts exactly non-empty groups of well-named, distinct, canonicalizable fields |
| SignedFields.ValidateGroup | internal/attestation/attestation.go:631-647 | one group of the loop with the shared set of seen keys |
| SignedFields.ValueAccepted | internal/attestation/attestation.go:288-344 | a value can be signed exactly if no object repeats a name and every integer in it is within 2^53 - 1 of zero |
| SignedFields.FieldAccepted | internal/attestation/attestation.go:635-647 | and a field if also its name shows a character, is UTF-8 and has no comma and no line break |
| SignedFields.ListConversation | internal/attestation/attestation.go:606-615 | the comma-joined list of both groups |
| SignedFields.ListUpstream | internal/attestation/attestation.go:617-624 | the comma-joined list of the request group and the observed response |
| SignedFields.SplitJoin | internal/attestation/attestation.go:606-624 | splitting a list at its commas gives back the names |
| SignedFields.ConversationFieldsDetermine | internal/attestation/attestation.go:606-615 | the header determines both ordered lists of names |
| SignedFields.UpstreamFieldsDetermine | internal/attestation/attestation.go:617-624 | so does the request-upstream header |
| SignedFields.ProfilesApart | internal/attestation/attestation.go:606-624 | no conversation header equals a request-upstream header |
| Attestation.Signer.Sign | internal/attestation/attestation.go:122-173 | either an error and untouched headers, or exactly the headers for the signed claims over what was there |
| Attestation.Signer.SignRequestUpstream | internal/attestation/attestation.go:177-240 | likewise, with challenge, status and content type |
| Attestation.SignThenVerify | internal/attestation/attestation.go:387-454 | Verify accepts what Sign wrote into any headers if and only if a domain is expected, the timestamp is at most 30 s ahead of now and at most maxAge behind it, and the lowered domain and fingerprint fold to the expected ones |
| Attestation.SignThenVerifyUpstream | internal/attestation/attestation.go:459-545 | likewise for the request-upstream pair, the decimal status included |
| Attestation.AsciiConditions | internal/attestation/attestation.go:400-421 | for an ASCII domain and fingerprint checked against themselves the casing conditions hold |
| Attestation.AsciiShown | internal/attestation/attestation.go:400-421 | two ASCII values fold together exactly if they have one lower case |
| Attestation.VerifyBinds | internal/attestation/attestation.go:387-454 | what Verify accepts was signed, at most 30 s ahead of now and at most maxAge behind it: same profile, path, timestamp, nonce and key label, same field names in order, JSON-equal values, the expected domain and the header's fingerprint in lower case, and header values that fold to the expected ones; and every attestation header shows what was signed |
| Attestation.VerifyUpstreamBinds | internal/attestation/attestation.go:459-545 | likewise with challenge, status and content type |
| Attestation.ModelBound | internal/attestation/attestation.go:562-577 | fields with the same names and JSON-equal values call for the same model header |
| Attestation.FreshMeans | internal/attestation/attestation.go:426-429 | the window as arithmetic on the arguments: at most 30 s ahead and at most maxAge behind, a difference beyond int64 counting as the largest int64 |
| Attestation.MalformedRefused | internal/attestation/attestation.go:459-465 | whatever the signature, exactly missing or unfit fields are refused as such, and then exactly a challenge that is not 10 to 74 letters, digits, hyphens and underscores |
| Attestation.VerifyMeans | internal/attestation/attestation.go:387-454 | Verify accepts exactly when each documented check passes: the fields, the headers one by one, the window, and a signature good for the claims rebuilt from header and expectation |
| Attestation.VerifyUpstreamMeans | internal/attestation/attestation.go:459-545 | likewise for the request-upstream pair, the status being compared as a number |
| Attestation.HeadersMean | internal/attestation/attestation.go:598-604 | a header is taken as a single one exactly if it is there with one value; the plain lookup gives the first value, or the empty text |
| Attestation.ModelHeaderMeans | internal/attestation/attestation.go:562-577 | the model header is what the first field called model holds, if that is a header-safe string or null |
| Attestation.NoModelHeader | internal/attestation/attestation.go:562-577 | without such a field there is none |
| Attestation.ConversationOneLine | internal/attestation/attestation.go:122-173 | the path, model and field list that Sign writes hold no line break |
| Attestation.UpstreamChecked | internal/attestation/attestation.go:177-196 | only a real status, some content type and a challenge of the public syntax are signed |
| Attestation.UpstreamOneLine | internal/attestation/attestation.go:177-240 | nor do the headers of a request-upstream signature, the content type included |
| SurrogateScanner.PairedFrontIff | internal/attestation/attestation.go:368-379 | reading pairs from the front is the same as every escape having its partner |
| SurrogateScanner.UnitRange | internal/attestation/attestation.go:363-377 | four hexadecimal digits are a high surrogate exactly if they begin D8 to DB, a low one exactly if DC to DF |
| SurrogateScanner.ScanLow | internal/attestation/attestation.go:369-376 | after a high surrogate escape, accepts exactly a low one |
| SurrogateScanner.ScanEscape | internal/attestation/attestation.go:358-379 | one escape or pair, inside the buffer |
| SurrogateScanner.ScanString | internal/attestation/attestation.go:354-381 | accepts exactly the strings whose surrogate escapes are paired |
| SurrogateScanner.ValidateUnicodeScalarEscapes | internal/attestation/attestation.go:349-385 | accepts exactly the texts all of whose strings are paired, never indexing outside |
| SurrogateScanner.ValuePieces | internal/attestation/attestation.go:349-385 | every text of the RFC 8259 grammar is strings and bytes between them |
| SurrogateScanner.PiecesPaired | internal/attestation/attestation.go:349-385 | and its pieces are paired exactly if all its strings and keys are |
| SurrogateScanner.ScanText | internal/attestation/attestation.go:349-385 | on every JSON text, white space included, accepts if and only if in its strings each escape of D8xx to DBxx is followed at once by one of DCxx to DFxx and none of those stands alone |
| StrictScan.ScanJsonValue | internal/mitmproxy/text_extractors.go:530-583 | the recursive scanner consumes exactly what the scan function says |
| StrictScan.ScanObject | internal/mitmproxy/text_extractors.go:540-565 | the object loop with its set of seen keys |
| StrictScan.ScanArray | internal/mitmproxy/text_extractors.go:566-578 | the array loop |
| StrictScan.ScanOnto | internal/mitmproxy/text_extractors.go:530-583 | on the tokens of a value the scan leaves exactly what follows, unless an object repeats a key |
| StrictScan.ScanExact | internal/mitmproxy/text_extractors.go:530-583 | the scan succeeds with a given rest if and only if the tokens are those of a value without repeated keys, then the rest |
| StrictScan.ValidateUniqueJson | internal/mitmproxy/text_extractors.go:512-528 | accepts if and only if the input is valid UTF-8, ends cleanly and is one value without repeated keys |
| Extractors.ExtractContentText | internal/mitmproxy/text_extractors.go:389-433 | the loop over blocks, with its early exits, computes the combination of what the blocks contribute |
| Extractors.BlocksAppend | internal/mitmproxy/text_extractors.go:408-432 | the text of two lists of blocks is the text of one after the other |
| Extractors.NothingDropped | internal/mitmproxy/text_extractors.go:408-432 | a request content is accepted if and only if every block is a text block with a text, and then all of it is kept |
| Extractors.NonTextDropped | internal/mitmproxy/text_extractors.go:408-432 | a response content reads as the content without its other blocks, provided every block decodes |
| Extractors.ExtractItems | internal/mitmproxy/text_extractors.go:315-349 | all the messages in order, or an error if one is unsupported |
| Extractors.ExtractChatRequest | internal/mitmproxy/text_extractors.go:99-113 | the conversation of a Chat request |
| Extractors.ExtractMessagesRequest | internal/mitmproxy/text_extractors.go:132-151 | the conversation of a Messages request, its system text first |
| Extractors.ExtractResponsesRequest | internal/mitmproxy/text_extractors.go:153-205 | the conversation of a Responses request, its instructions first |
| MessageShapes.BlockMeans | internal/mitmproxy/text_extractors.go:410-430 | what one content block contributes, by the members of its object |
| MessageShapes.AcceptedItems | internal/mitmproxy/text_extractors.go:190-203 | an item is taken for a message if and only if it is an object of a supported role that is exactly that text and whose tool_calls and function_call are missing, null or the empty array |
| MessageShapes.AcceptedLists | internal/mitmproxy/text_extractors.go:315-349 | a list of items is accepted exactly if each is, and every message is kept in its place |
| MessageShapes.AcceptedChat | internal/mitmproxy/text_extractors.go:99-113 | exactly which Chat bodies are taken for a conversation, the model from the path included |
| MessageShapes.AcceptedMessages | internal/mitmproxy/text_extractors.go:132-151 | likewise Messages bodies, the system text first |
| MessageShapes.AcceptedResponses | internal/mitmproxy/text_extractors.go:153-205 | likewise Responses bodies, the instructions first |
| MessageShapes.AcceptedResponse | internal/mitmproxy/text_extractors.go:207-224 | exactly which chat responses are taken for a message, text without refusal or refusal without text |
| Renderings.FormReads | internal/mitmproxy/text_extractors.go:389-433 | a text comes back whole from a string or from any non-empty split into text blocks |
| Renderings.MessageReads | internal/mitmproxy/text_extractors.go:334-349 | a written message comes back with its role and text |
| Renderings.RoundTrip | internal/mitmproxy/text_extractors.go:99-205 | a model, an optional system text and any non-empty list of supported messages come back the same from all three protocols |
| Renderings.PromptRoundTrip | internal/mitmproxy/text_extractors.go:172-179 | a string input is one message of the user |
| Renderings.SameRange | internal/mitmproxy/text_extractors.go:99-205 | the three extractors return exactly the same set of conversations |
| Conversations.ExtractedFieldsValid | internal/mitmproxy/text_extractors.go:454-488 | the fields made of any conversation exist and pass validateFields, in either profile |
| Conversations.ConversationFixed | internal/mitmproxy/text_extractors.go:454-464 | two conversations whose fields no signature tells apart are one |
| Conversations.AcceptedConversation | internal/attestation/attestation.go:387-454 | if only extracted conversations are signed, an accepted header was signed for exactly the conversation and reply it is checked against, and for no other, and shows its model |
| Conversations.AcceptedRequest | internal/attestation/attestation.go:459-545 | likewise for the request of a streamed response |
| ChatResponses.ExtractChatResponse | internal/mitmproxy/text_extractors.go:207-224 | the one message of a chat response, content or refusal but not both |
| ChatResponses.ResponseMessages | docs/verify_response.py:102-151 | the client's message, from its loop over the blocks |
| ChatResponses.BlockTexts | docs/verify_response.py:120-134 | the loop of appends and the found flag |
| ChatResponses.ClientSees | docs/verify_response.py:120-134 | the client sees the proxy's text exactly if no block with a null type holds some |
| ChatResponses.AgreeIff | docs/verify_response.py:102-151 | whenever the proxy accepts, the client gets the same message if and only if there is a refusal, a string content, or typed text with no text under a null type |
| ChatResponses.AgreeWithoutNullTypes | docs/verify_response.py:102-151 | without null types they never differ |
| ChatResponses.NullTypeDisagrees | docs/verify_response.py:123-134 | a response on which they do |
| BodyCapture.ReadAllLimited | internal/mitmproxy/proxy.go:200-200 | reads a prefix of the stream, up to the limit, the end or an error |
| BodyCapture.ReadAndRestore | internal/mitmproxy/proxy.go:198-221 | on every exit a later reader sees the original stream, if and only if the limit is below 2^63 - 1 or the body is empty; data is complete only if it is the whole stream within the limit |

## Left out

- Cache without a store, Cache.Find and Preflight: the first never shares anything, the others are one read or one token request.
- Columns no statement reads back (ids, created_at, updated_at, completed_at), and the rounding of timestamps in PostgreSQL.
- Router.Cache.Issue: the context passed to it is not modelled; a cancelled context is a failing statement or a refused token.
- Router.Router.Resolve: the number of ticks before the wait ends is an argument, because no promise is made about time.Ticker.
- Router options: all replicas of a run share one set, in particular one lease duration; RequestTimeout, PollInterval and HeartbeatInterval only decide when steps happen, which is free.
- RouterMachine: the texts of wrapped errors; only the message stored by FailRequest is carried along, as a fixed text for each kind of error.
- PathTrie.CompiledPathRules.Match: the nil receiver, which answers nothing.
- Attestation.SignThenVerify: the Unicode tables behind strings.ToLower and strings.EqualFold are not part of this model; any pair of functions is allowed in their place, and the conditions on them are part of the statement.
- Attestation: nil and empty response fields are the same group; the source never verifies a group it signed as the other, since a conversation needs both groups non-empty and a request-upstream claim always has an empty one.
- Json: numbers are integers; the floating-point printing of section 3.2.2.3 of RFC 8785 is not part of this model, and the proxy signs only strings, message lists and true.
- CanonicalJson: the white space and escapes of a raw field value; a field holds the value they stand for.
- Extractors: Go matches struct field names without regard to case and replaces unpaired surrogates while decoding; bodies here have exactly spelt names and valid text.
- Extractors: requestModel takes the model that the request path names as an argument; the search in the path segments and url.PathUnescape are not part of this model.
- Extractors: the stream field, and the response extractors of the Responses, Anthropic and Bedrock protocols, which wrap the same content and message functions.
- StrictScan: the depth limit of the JSON decoder, and tokens that its own syntax checks would refuse earlier.
- ChatResponses: the client's token, nonce and header checks.
- BodyCapture.ReadAndRestore: a reader that returns no bytes and no error for ever.
- GORM and SQL text, environment and secret handling, certificates, TLS and proxy wiring, HTTP metadata, logging and flags.
