/**
 * Replicas that share one proof store (internal/proofcache/cache.go and router.go), as a state
 * machine. One step is one store statement, one token request or one scheduling decision of one
 * thread; the order of steps, the clocks and the store failures are free. A run is any sequence of
 * actions, an action that its thread is not ready for changes nothing.
 */
module RouterMachine {
  import opened Basics
  import opened ProofTables

  type Outcome<+T> = Result<T, Failure>

  datatype Failure =
    | ChallengeRequired
    | StoreFailed
    | ProviderFailed
    | TokenNotJwt
    | TokenExpired
    | ProofNotFound
    | OwnerUnavailable
    | RequestFailed(message: string)
    | RequestTimeout
    | Cancelled

  /** The router options that decide anything here. NewRouter insists that all are positive. */
  datatype Options = Options(staleAfter: Time, requestTTL: Time, leaseDuration: Time, batchSize: nat)

  predicate ValidOptions(o: Options) {
    o.staleAfter > 0 && o.requestTTL > 0 && o.leaseDuration > 0 && o.batchSize > 0
  }

  /** One process: its key pair, the label it publishes for it, and its token provider's audience. */
  datatype Replica = Replica(publicKey: string, keyID: Label, audience: string)

  function ProofRef(r: Replica): Label {
    ProofRefOf(r.publicKey)
  }

  /** Cache.bundle. */
  function NewBundle(home: Replica, challenge: string, token: Token): Bundle
    requires token.Jwt?
  {
    Bundle("OIDC", token, home.audience, home.keyID, challenge, ProofRef(home), token.exp,
           AttestationKey("ed25519", home.publicKey, BindingOf(home.publicKey)))
  }

  /** Where a call of Cache.Issue stands. */
  datatype IssuePc =
    | IssueFind
    | IssueMint
    | IssueInsert(bundle: Bundle)
    | IssueReread
    | IssueDone(result: Outcome<Bundle>)

  /** Where a call of Router.Resolve stands. */
  datatype ClientPc =
    | OwnIssue(issue: IssuePc)
    | ResolveFind
    | ResolveReplica
    | ResolveEnqueue(now: Time)
    | PollFind
    | PollRequest
    | PollWait
    | Answered(result: Outcome<Bundle>)

  /** Where the goroutine of Router.run stands; `queue` is the rest of the claimed batch. */
  datatype WorkerPc =
    | Selecting
    | Deleting(now: Time)
    | Serving(queue: seq<Key>, issue: IssuePc)
    | Settling(queue: seq<Key>, result: Outcome<Bundle>)
    | Exited(drained: bool)

  datatype Thread =
    | Client(home: Replica, ref: Label, challenge: string, cpc: ClientPc)
    | Worker(home: Replica, instance: string, wpc: WorkerPc)

  /** The launcher handed `token` to the process `home`, which asked for `nonces`; its clock read `at` then. */
  datatype Mint = Mint(home: Replica, nonces: seq<Label>, token: Token, at: Time)

  /** `minted` and `claims` (the claim times in a request row's lifetime) only record history. */
  datatype State = State(
    options: Options,
    tables: Tables,
    threads: map<nat, Thread>,
    minted: set<Mint>,
    claims: map<Key, seq<Time>>
  )

  /** A statement may fail before it takes effect, or take effect and fail to report it. */
  datatype Fault = NoFault | Lost | Unacknowledged

  datatype Reply = Token(token: Token) | Refused

  datatype Input = Input(now: Time, fault: Fault, reply: Reply)

  /** A step in which everything works, and one in which nothing outside the thread does. */
  const FINE := Input(0, NoFault, Refused)
  const DOWN := Input(0, Lost, Refused)

  datatype Wake = Tick | Deadline | Cancel

  datatype Choice = Beat | Poll(locked: set<Key>, selection: seq<Key>) | Stop

  datatype Action =
    | Call(tid: nat, home: Replica, ref: Label, challenge: string)
    | StepClient(tid: nat, input: Input, wake: Wake)
    | Start(tid: nat, home: Replica, instance: string, input: Input)
    | StepWorker(tid: nat, input: Input, choice: Choice)
    | Drain(home: Replica, instance: string, input: Input)

  // ----- Cache.Issue -----------------------------------------------------------------------

  /** strings.TrimSpace(s) == "". */
  predicate Blank(s: string) {
    forall c :: c in s ==> IsSpace(c)
  }

  function IssueStart(challenge: string): IssuePc {
    if Blank(challenge) then IssueDone(Err(ChallengeRequired)) else IssueFind
  }

  /** The table effect of a statement under a fault. */
  function Effect(fault: Fault, before: Tables, after: Tables): Tables {
    if fault == Lost then before else after
  }

  function StepIssue(s: State, home: Replica, challenge: string, pc: IssuePc, input: Input): (State, IssuePc) {
    var k := Key(ProofRef(home), challenge);
    match pc
    case IssueFind =>
      (s, if input.fault != NoFault then IssueDone(Err(StoreFailed))
          else match FindProof(s.tables, k) case Some(b) => IssueDone(Ok(b)) case None => IssueMint)
    case IssueMint =>
      var nonces := [Text(challenge), BindingOf(home.publicKey)];
      (match input.reply
       case Refused => (s, IssueDone(Err(ProviderFailed)))
       case Token(token) =>
         var s' := s.(minted := s.minted + {Mint(home, nonces, token, input.now)});
         if !token.Jwt? || token.exp <= 0 then (s', IssueDone(Err(TokenNotJwt)))
         else if token.exp * SECOND <= input.now then (s', IssueDone(Err(TokenExpired)))
         else (s', IssueInsert(NewBundle(home, challenge, token))))
    case IssueInsert(b) =>
      (s.(tables := Effect(input.fault, s.tables, InsertProof(s.tables, b))),
       if input.fault == NoFault then IssueReread else IssueDone(Err(StoreFailed)))
    case IssueReread =>
      (s, if input.fault != NoFault then IssueDone(Err(StoreFailed))
          else match FindProof(s.tables, k) case Some(b) => IssueDone(Ok(b)) case None => IssueDone(Err(ProofNotFound)))
    case IssueDone(_) => (s, pc)
  }

  // ----- Router.Resolve --------------------------------------------------------------------

  function CallStart(home: Replica, ref: Label, challenge: string): ClientPc {
    if ref == ProofRef(home) then Normal(OwnIssue(IssueStart(challenge))) else ResolveFind
  }

  /** Issue's outcome is Resolve's outcome. */
  function Normal(pc: ClientPc): ClientPc {
    if pc.OwnIssue? && pc.issue.IssueDone? then Answered(pc.issue.result) else pc
  }

  function StepResolve(s: State, c: Thread, input: Input, wake: Wake): (State, ClientPc)
    requires c.Client?
  {
    var k := Key(c.ref, c.challenge);
    var t := s.tables;
    match c.cpc
    case OwnIssue(i) =>
      var (s', i') := StepIssue(s, c.home, c.challenge, i, input);
      (s', Normal(OwnIssue(i')))
    case ResolveFind =>
      (s, if input.fault != NoFault then Answered(Err(StoreFailed))
          else match FindProof(t, k) case Some(b) => Answered(Ok(b)) case None => ResolveReplica)
    case ResolveReplica =>
      (s, if input.fault != NoFault then Answered(Err(StoreFailed))
          else if c.ref !in t.replicas then Answered(Err(ProofNotFound))
          else if t.replicas[c.ref].draining || input.now - t.replicas[c.ref].lastHeartbeat > s.options.staleAfter
          then Answered(Err(OwnerUnavailable))
          else ResolveEnqueue(input.now))
    case ResolveEnqueue(now) =>
      (Enqueued(s, k, input.fault, input.now, now + s.options.requestTTL),
       if input.fault == NoFault then PollFind else Answered(Err(StoreFailed)))
    case PollFind =>
      (s, if input.fault != NoFault then Answered(Err(StoreFailed))
          else match FindProof(t, k) case Some(b) => Answered(Ok(b)) case None => PollRequest)
    case PollRequest =>
      (s, if input.fault != NoFault then Answered(Err(StoreFailed))
          else if k in t.requests && t.requests[k].status == Failed
          then Answered(Err(RequestFailed(t.requests[k].error)))
          else PollWait)
    case PollWait =>
      (s, match wake
          case Tick => PollFind
          case Deadline => Answered(Err(RequestTimeout))
          case Cancel => Answered(Err(Cancelled)))
    case Answered(_) => (s, c.cpc)
  }

  function Enqueued(s: State, k: Key, fault: Fault, requestedAt: Time, expiresAt: Time): State {
    if fault == Lost || k in s.tables.requests then s
    else s.(tables := EnqueueRequest(s.tables, k, requestedAt, expiresAt), claims := s.claims[k := []])
  }

  // ----- Router.run ------------------------------------------------------------------------

  /** The next request of the batch, or back to the select. */
  function Next(queue: seq<Key>): WorkerPc {
    if queue == [] then Selecting else Served(queue, IssueStart(queue[0].challenge))
  }

  function Served(queue: seq<Key>, issue: IssuePc): WorkerPc {
    if issue.IssueDone? then Settling(queue, issue.result) else Serving(queue, issue)
  }

  function Message(f: Failure): string {
    match f
    case ChallengeRequired => "challenge is required"
    case ProviderFailed => "attestation token request failed"
    case TokenNotJwt => "attestation token has no valid exp claim"
    case TokenExpired => "attestation token is already expired"
    case ProofNotFound => "attestation proof not found"
    case RequestFailed(m) => m
    case _ => "proof store failed"
  }

  function Claimed(s: State, sel: seq<Key>, now: Time): State {
    s.(tables := ClaimRequests(s.tables, sel, now + s.options.leaseDuration),
       claims := map k | k in s.claims :: if k in sel then s.claims[k] + [now] else s.claims[k])
  }

  function Deleted(s: State, now: Time): State {
    var t := DeleteExpiredRequests(s.tables, now);
    s.(tables := t, claims := map k | k in s.claims && k in t.requests :: s.claims[k])
  }

  /** One turn of the select: a heartbeat tick, a poll tick or the end of the context. */
  ghost function StepSelect(s: State, w: Thread, input: Input, choice: Choice): (State, WorkerPc)
    requires w.Worker?
  {
    var ref := ProofRef(w.home);
    var fault := input.fault;
    match choice
    case Beat =>
      (s.(tables := Effect(fault, s.tables, HeartbeatReplica(s.tables, ref, w.instance, input.now))),
       Deleting(input.now))
    case Poll(locked, sel) =>
      if !IsSelection(s.tables, ref, input.now, s.options.batchSize, locked, sel) then (s, Selecting)
      else (if fault == Lost then s else Claimed(s, sel, input.now),
            if fault == NoFault then Next(sel) else Selecting)
    case Stop =>
      (s.(tables := Effect(fault, s.tables, SetReplicaDraining(s.tables, ref, w.instance, true))),
       Exited(fault == NoFault && RegisteredAs(s.tables, ref, w.instance)))
  }

  /** Records the outcome of the request at the head of the batch. */
  function Settled(t: Tables, k: Key, result: Outcome<Bundle>): Tables {
    match result
    case Ok(_) => CompleteRequest(t, k)
    case Err(f) => FailRequest(t, k, Message(f))
  }

  ghost function StepRun(s: State, w: Thread, input: Input, choice: Choice): (State, WorkerPc)
    requires w.Worker?
  {
    var fault := input.fault;
    match w.wpc
    case Selecting => StepSelect(s, w, input, choice)
    case Deleting(now) =>
      (if fault == Lost then s else Deleted(s, now), Selecting)
    case Serving(queue, issue) =>
      if queue == [] then (s, w.wpc)
      else
        var (s', issue') := StepIssue(s, w.home, queue[0].challenge, issue, input);
        (s', Served(queue, issue'))
    case Settling(queue, result) =>
      if queue == [] then (s, w.wpc)
      else (s.(tables := Effect(fault, s.tables, Settled(s.tables, queue[0], result))), Next(queue[1..]))
    case Exited(_) => (s, w.wpc)
  }

  /** The row Router.Start registers. */
  function Registration(home: Replica, instance: string, now: Time): ReplicaRow {
    ReplicaRow(home.keyID, instance, now, false)
  }

  // ----- Runs ------------------------------------------------------------------------------

  ghost function Apply(s: State, a: Action): State {
    match a
    case Call(tid, home, ref, challenge) =>
      if tid in s.threads then s
      else s.(threads := s.threads[tid := Client(home, ref, challenge, CallStart(home, ref, challenge))])
    case StepClient(tid, input, wake) =>
      if tid !in s.threads || !s.threads[tid].Client? then s
      else
        var c := s.threads[tid];
        var (s', pc) := StepResolve(s, c, input, wake);
        s'.(threads := s.threads[tid := c.(cpc := pc)])
    case Start(tid, home, instance, input) =>
      if tid in s.threads then s
      else
        var row := Registration(home, instance, input.now);
        var s' := s.(tables := Effect(input.fault, s.tables, RegisterReplica(s.tables, ProofRef(home), row)));
        if input.fault != NoFault then s'
        else s'.(threads := s.threads[tid := Worker(home, instance, Selecting)])
    case StepWorker(tid, input, choice) =>
      if tid !in s.threads || !s.threads[tid].Worker? then s
      else
        var w := s.threads[tid];
        var (s', pc) := StepRun(s, w, input, choice);
        s'.(threads := s.threads[tid := w.(wpc := pc)])
    case Drain(home, instance, input) =>
      s.(tables := Effect(input.fault, s.tables, SetReplicaDraining(s.tables, ProofRef(home), instance, true)))
  }

  ghost function Run(s: State, actions: seq<Action>): State
    decreases |actions|
  {
    if actions == [] then s else Run(Apply(s, actions[0]), actions[1..])
  }

  predicate Initial(s: State) {
    && ValidOptions(s.options)
    && s.tables == Tables(map[], map[], map[])
    && s.threads == map[] && s.minted == {} && s.claims == map[]
  }

  lemma {:induction false} RunAppend(s: State, xs: seq<Action>, ys: seq<Action>)
    ensures Run(s, xs + ys) == Run(Run(s, xs), ys)
    decreases |xs|
  {
    if xs == [] {
      assert xs + ys == ys;
    } else {
      assert (xs + ys)[1..] == xs[1..] + ys;
      RunAppend(Apply(s, xs[0]), xs[1..], ys);
    }
  }

  lemma RunTwo(s: State, a: Action, b: Action)
    ensures Run(s, [a, b]) == Apply(Apply(s, a), b)
  {
    assert [a, b][1..] == [b] && [b][1..] == [];
    assert Run(Apply(s, a), [b]) == Run(Apply(Apply(s, a), b), []);
  }

  lemma ApplyKeepsOptions(s: State, a: Action)
    ensures Apply(s, a).options == s.options
  {
    if a.StepClient? && a.tid in s.threads && s.threads[a.tid].Client? {
      assert StepResolve(s, s.threads[a.tid], a.input, a.wake).0.options == s.options;
    } else if a.StepWorker? && a.tid in s.threads && s.threads[a.tid].Worker? {
      assert StepRun(s, s.threads[a.tid], a.input, a.choice).0.options == s.options;
    }
  }

  lemma {:induction false} RunKeepsOptions(s: State, actions: seq<Action>)
    ensures Run(s, actions).options == s.options
    decreases |actions|
  {
    if actions != [] {
      ApplyKeepsOptions(s, actions[0]);
      RunKeepsOptions(Apply(s, actions[0]), actions[1..]);
    }
  }
}
