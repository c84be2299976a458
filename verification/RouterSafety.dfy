/**
 * What every run of the replicas keeps: proofs are written once and every answer is the stored
 * proof, stored proofs are the owner's own, and a completed request has its proof on record.
 */
module RouterSafety {
  import opened Basics
  import opened ProofTables
  import opened RouterMachine

  // ----- The invariant ---------------------------------------------------------------------

  /** Some character of the challenge is more than ASCII white space. */
  predicate Substantial(challenge: string) {
    exists c :: c in challenge && c !in " \t\n\r"
  }

  /**
   * b is what the process m.home makes of the token m: an unexpired JWT that it was given for exactly
   * the challenge and its own key.
   */
  predicate MadeOf(m: Mint, k: Key, b: Bundle) {
    && m.nonces == [Text(k.challenge), BindingOf(m.home.publicKey)] && Substantial(k.challenge)
    && m.token.Jwt? && m.token.exp > 0 && m.at < m.token.exp * 1_000_000_000
    && k.ref == ProofRefOf(m.home.publicKey)
    && b == Bundle("OIDC", m.token, m.home.audience, m.home.keyID, k.challenge, k.ref, m.token.exp,
                   AttestationKey("ed25519", m.home.publicKey, BindingOf(m.home.publicKey)))
  }

  /** b is such a bundle, of a token that was handed out. */
  predicate Genuine(minted: set<Mint>, k: Key, b: Bundle) {
    exists m :: m in minted && MadeOf(m, k, b)
  }

  ghost predicate ProofsGenuine(s: State) {
    forall k :: k in s.tables.proofs ==> Genuine(s.minted, k, BundleOf(s.tables.proofs[k]))
  }

  predicate Stored(s: State, k: Key, b: Bundle) {
    FindProof(s.tables, k) == Some(b)
  }

  predicate IssueOk(s: State, home: Replica, challenge: string, pc: IssuePc) {
    var k := Key(ProofRef(home), challenge);
    match pc
    case IssueInsert(b) => Genuine(s.minted, k, b)
    case IssueFind => !Blank(challenge)
    case IssueMint => !Blank(challenge)
    case IssueReread => k in s.tables.proofs
    case IssueDone(Ok(b)) => Stored(s, k, b)
    case _ => true
  }

  predicate ClientOk(s: State, c: Thread)
    requires c.Client?
  {
    match c.cpc
    case OwnIssue(i) => c.ref == ProofRef(c.home) && IssueOk(s, c.home, c.challenge, i)
    case Answered(Ok(b)) => Stored(s, Key(c.ref, c.challenge), b)
    case _ => true
  }

  predicate Owned(home: Replica, queue: seq<Key>) {
    queue != [] && forall i :: 0 <= i < |queue| ==> queue[i].ref == ProofRef(home)
  }

  predicate WorkerOk(s: State, w: Thread)
    requires w.Worker?
  {
    match w.wpc
    case Serving(queue, i) => Owned(w.home, queue) && IssueOk(s, w.home, queue[0].challenge, i)
    case Settling(queue, r) => Owned(w.home, queue) && (r.Ok? ==> Stored(s, queue[0], r.value))
    case _ => true
  }

  predicate ThreadOk(s: State, th: Thread) {
    match th
    case Client(_, _, _, _) => ClientOk(s, th)
    case Worker(_, _, _) => WorkerOk(s, th)
  }

  ghost predicate ThreadsOk(s: State) {
    forall tid :: tid in s.threads ==> ThreadOk(s, s.threads[tid])
  }

  ghost predicate CompletionPersisted(t: Tables) {
    forall k :: k in t.requests && t.requests[k].status == Complete ==> k in t.proofs
  }

  ghost predicate Safe(s: State) {
    && ProofsGenuine(s)
    && ThreadsOk(s)
    && CompletionPersisted(s.tables)
  }

  // ----- Growth ----------------------------------------------------------------------------

  /** Proofs and mints are only ever added. */
  ghost predicate Grows(s: State, s': State) {
    && s.minted <= s'.minted
    && forall k :: k in s.tables.proofs ==> k in s'.tables.proofs && s'.tables.proofs[k] == s.tables.proofs[k]
  }

  lemma ThreadOkGrows(s: State, s': State, th: Thread)
    requires ThreadOk(s, th) && Grows(s, s')
    ensures ThreadOk(s', th)
  {
  }

  /** What one statement of one thread promises about the shared state. */
  ghost predicate StepOk(s: State, s': State) {
    && Grows(s, s')
    && ProofsGenuine(s')
    && CompletionPersisted(s'.tables)
  }

  /** Nothing but requests or replicas changed, and what is complete has its proof. */
  lemma SameProofs(s: State, s': State)
    requires ProofsGenuine(s) && s'.minted == s.minted
    requires s'.tables.proofs == s.tables.proofs && CompletionPersisted(s'.tables)
    ensures StepOk(s, s')
  {
  }

  lemma InsertOk(s: State, home: Replica, challenge: string, b: Bundle, input: Input)
    requires ProofsGenuine(s) && CompletionPersisted(s.tables) && IssueOk(s, home, challenge, IssueInsert(b))
    ensures var (s', pc') := StepIssue(s, home, challenge, IssueInsert(b), input);
            StepOk(s, s') && IssueOk(s', home, challenge, pc')
  {
    RecordRoundTrip(b);
  }

  lemma MintOk(s: State, home: Replica, challenge: string, input: Input)
    requires ProofsGenuine(s) && CompletionPersisted(s.tables) && !Blank(challenge)
    ensures var (s', pc') := StepIssue(s, home, challenge, IssueMint, input);
            StepOk(s, s') && IssueOk(s', home, challenge, pc')
  {
  }

  lemma IssueStepOk(s: State, home: Replica, challenge: string, pc: IssuePc, input: Input)
    requires ProofsGenuine(s) && CompletionPersisted(s.tables) && IssueOk(s, home, challenge, pc)
    ensures var (s', pc') := StepIssue(s, home, challenge, pc, input);
            StepOk(s, s') && IssueOk(s', home, challenge, pc')
  {
    match pc {
      case IssueInsert(b) => InsertOk(s, home, challenge, b, input);
      case IssueMint => MintOk(s, home, challenge, input);
      case _ =>
    }
  }

  lemma EnqueueOk(s: State, k: Key, fault: Fault, requestedAt: Time, expiresAt: Time)
    requires ProofsGenuine(s) && CompletionPersisted(s.tables)
    ensures StepOk(s, Enqueued(s, k, fault, requestedAt, expiresAt))
  {
  }

  lemma ClientStepOk(s: State, c: Thread, input: Input, wake: Wake)
    requires c.Client? && ProofsGenuine(s) && CompletionPersisted(s.tables) && ClientOk(s, c)
    ensures var (s', pc) := StepResolve(s, c, input, wake);
            StepOk(s, s') && ClientOk(s', c.(cpc := pc))
  {
    match c.cpc {
      case OwnIssue(issue) => IssueStepOk(s, c.home, c.challenge, issue, input);
      case ResolveEnqueue(now) =>
        EnqueueOk(s, Key(c.ref, c.challenge), input.fault, input.now, now + s.options.requestTTL);
      case _ =>
    }
  }

  lemma ClaimedKeeps(s: State, sel: seq<Key>, now: Time)
    requires CompletionPersisted(s.tables)
    ensures CompletionPersisted(Claimed(s, sel, now).tables)
  {
  }

  lemma PollStepOk(s: State, w: Thread, input: Input, locked: set<Key>, sel: seq<Key>)
    requires w.Worker? && ProofsGenuine(s) && CompletionPersisted(s.tables)
    requires IsSelection(s.tables, ProofRef(w.home), input.now, s.options.batchSize, locked, sel)
    ensures StepOk(s, Claimed(s, sel, input.now)) && WorkerOk(Claimed(s, sel, input.now), w.(wpc := Next(sel)))
  {
    ClaimedKeeps(s, sel, input.now);
    SameProofs(s, Claimed(s, sel, input.now));
    if sel != [] {
      assert Owned(w.home, sel);
    }
  }

  lemma SelectStepOk(s: State, w: Thread, input: Input, choice: Choice)
    requires w.Worker? && ProofsGenuine(s) && CompletionPersisted(s.tables)
    ensures var (s', pc) := StepSelect(s, w, input, choice);
            StepOk(s, s') && WorkerOk(s', w.(wpc := pc))
  {
    SameProofs(s, s);
    match choice {
      case Beat => SameProofs(s, StepSelect(s, w, input, choice).0);
      case Stop => SameProofs(s, StepSelect(s, w, input, choice).0);
      case Poll(locked, sel) =>
        if IsSelection(s.tables, ProofRef(w.home), input.now, s.options.batchSize, locked, sel) {
          PollStepOk(s, w, input, locked, sel);
        }
    }
  }

  lemma SettledKeeps(t: Tables, k: Key, result: Outcome<Bundle>)
    requires CompletionPersisted(t) && (result.Ok? ==> k in t.proofs)
    ensures CompletionPersisted(Settled(t, k, result)) && Settled(t, k, result).proofs == t.proofs
  {
  }

  lemma NextOk(s: State, w: Thread, queue: seq<Key>)
    requires w.Worker? && Owned(w.home, queue)
    ensures WorkerOk(s, w.(wpc := Next(queue[1..])))
  {
    var rest := queue[1..];
    if rest != [] {
      assert Owned(w.home, rest);
    }
  }

  lemma SettleStepOk(s: State, w: Thread, input: Input, choice: Choice)
    requires w.Worker? && w.wpc.Settling? && ProofsGenuine(s) && CompletionPersisted(s.tables) && WorkerOk(s, w)
    ensures var (s', pc) := StepRun(s, w, input, choice);
            StepOk(s, s') && WorkerOk(s', w.(wpc := pc))
  {
    var queue, result := w.wpc.queue, w.wpc.result;
    var t := Effect(input.fault, s.tables, Settled(s.tables, queue[0], result));
    SettledKeeps(s.tables, queue[0], result);
    SameProofs(s, s.(tables := t));
    NextOk(s.(tables := t), w, queue);
  }

  lemma WorkerStepOk(s: State, w: Thread, input: Input, choice: Choice)
    requires w.Worker? && ProofsGenuine(s) && CompletionPersisted(s.tables) && WorkerOk(s, w)
    ensures var (s', pc) := StepRun(s, w, input, choice);
            StepOk(s, s') && WorkerOk(s', w.(wpc := pc))
  {
    match w.wpc {
      case Selecting => SelectStepOk(s, w, input, choice);
      case Serving(queue, issue) => IssueStepOk(s, w.home, queue[0].challenge, issue, input);
      case Settling(_, _) => SettleStepOk(s, w, input, choice);
      case Deleting(_) =>
      case Exited(_) =>
    }
  }

  /** A step of one thread keeps what the other threads know. */
  lemma ThreadStepKeepsSafe(s: State, s': State, tid: nat, th: Thread)
    requires Safe(s) && StepOk(s, s') && ThreadOk(s', th)
    ensures Safe(s'.(threads := s.threads[tid := th]))
  {
    var s'' := s'.(threads := s.threads[tid := th]);
    forall id | id in s''.threads
      ensures ThreadOk(s'', s''.threads[id])
    {
      if id == tid { ThreadOkGrows(s', s'', th); } else { ThreadOkGrows(s, s'', s.threads[id]); }
    }
  }

  lemma ApplyKeepsSafe(s: State, a: Action)
    requires Safe(s)
    ensures Safe(Apply(s, a)) && Grows(s, Apply(s, a))
  {
    match a {
      case Call(tid, home, ref, challenge) =>
        ThreadStepKeepsSafe(s, s, tid, Client(home, ref, challenge, CallStart(home, ref, challenge)));
      case StepClient(tid, input, wake) =>
        if tid in s.threads && s.threads[tid].Client? {
          var (s', pc) := StepResolve(s, s.threads[tid], input, wake);
          ClientStepOk(s, s.threads[tid], input, wake);
          ThreadStepKeepsSafe(s, s', tid, s.threads[tid].(cpc := pc));
        }
      case Start(tid, home, instance, input) =>
        if tid !in s.threads { StartKeepsSafe(s, tid, home, instance, input); }
      case StepWorker(tid, input, choice) =>
        if tid in s.threads && s.threads[tid].Worker? {
          var (s', pc) := StepRun(s, s.threads[tid], input, choice);
          WorkerStepOk(s, s.threads[tid], input, choice);
          ThreadStepKeepsSafe(s, s', tid, s.threads[tid].(wpc := pc));
        }
      case Drain(home, instance, input) =>
        ReplicasOnly(s, Apply(s, a));
    }
  }

  lemma ReplicasOnly(s: State, s': State)
    requires Safe(s) && s'.minted == s.minted && s'.threads == s.threads
    requires s'.tables.proofs == s.tables.proofs && s'.tables.requests == s.tables.requests
    ensures Safe(s') && StepOk(s, s')
  {
    forall id | id in s'.threads
      ensures ThreadOk(s', s'.threads[id])
    {
      ThreadOkGrows(s, s', s.threads[id]);
    }
  }

  lemma StartKeepsSafe(s: State, tid: nat, home: Replica, instance: string, input: Input)
    requires Safe(s) && tid !in s.threads
    ensures var s' := Apply(s, Start(tid, home, instance, input)); Safe(s') && Grows(s, s')
  {
    var row := Registration(home, instance, input.now);
    var s' := s.(tables := Effect(input.fault, s.tables, RegisterReplica(s.tables, ProofRef(home), row)));
    ReplicasOnly(s, s');
    if input.fault == NoFault {
      ThreadStepKeepsSafe(s, s', tid, Worker(home, instance, Selecting));
    }
  }

  lemma {:induction false} RunKeepsSafe(s: State, actions: seq<Action>)
    requires Safe(s)
    ensures Safe(Run(s, actions)) && Grows(s, Run(s, actions))
    decreases |actions|
  {
    if actions != [] {
      ApplyKeepsSafe(s, actions[0]);
      RunKeepsSafe(Apply(s, actions[0]), actions[1..]);
    }
  }

  // ----- Whole runs ------------------------------------------------------------------------

  ghost predicate Reachable(s: State) {
    exists s0, actions :: Initial(s0) && Run(s0, actions) == s
  }

  lemma ReachableIsSafe(s: State)
    requires Reachable(s)
    ensures Safe(s)
  {
    var s0, actions :| Initial(s0) && Run(s0, actions) == s;
    RunKeepsSafe(s0, actions);
  }

  lemma ReachableOnwards(s: State, actions: seq<Action>)
    requires Reachable(s)
    ensures Reachable(Run(s, actions))
  {
    var s0, before :| Initial(s0) && Run(s0, before) == s;
    RunAppend(s0, before, actions);
  }

  lemma ReachableNext(s: State, a: Action)
    requires Reachable(s)
    ensures Reachable(Apply(s, a))
  {
    assert [a][1..] == [];
    assert Run(s, [a]) == Run(Apply(s, a), []);
    ReachableOnwards(s, [a]);
  }

  /** A caller of Issue or Resolve was given b for the proof named k. */
  ghost predicate AnsweredWith(s: State, k: Key, b: Bundle) {
    exists tid ::
      && tid in s.threads && s.threads[tid].Client?
      && Key(s.threads[tid].ref, s.threads[tid].challenge) == k
      && s.threads[tid].cpc == Answered(Ok(b))
  }

  /** Two callers, at any two moments of any run, are never given different proofs for one name. */
  lemma AnswersAgree(s: State, later: seq<Action>, k: Key, b: Bundle, b': Bundle)
    requires Reachable(s)
    requires AnsweredWith(s, k, b) && AnsweredWith(Run(s, later), k, b')
    ensures b == b' && Genuine(s.minted, k, b)
  {
    ReachableIsSafe(s);
    RunKeepsSafe(s, later);
  }

  /** The write-once map the store stands for. */
  function Ledger(s: State): map<Key, Bundle> {
    map k | k in s.tables.proofs :: BundleOf(s.tables.proofs[k])
  }

  /** All a write-once map can do in one step: keep every binding it has, and bind at most one name. */
  ghost predicate LedgerStep(m: map<Key, Bundle>, m': map<Key, Bundle>) {
    && (forall k :: k in m ==> k in m' && m'[k] == m[k])
    && (forall k, k' :: k in m' && k !in m && k' in m' && k' !in m ==> k == k')
  }

  /** Every action is a step of the write-once map, and every answer given so far is a lookup in it. */
  lemma RefinesLedger(s: State, a: Action)
    requires Reachable(s)
    ensures LedgerStep(Ledger(s), Ledger(Apply(s, a)))
    ensures forall k, b :: AnsweredWith(Apply(s, a), k, b) ==> k in Ledger(Apply(s, a)) && Ledger(Apply(s, a))[k] == b
  {
    ReachableIsSafe(s);
    ApplyKeepsSafe(s, a);
    ApplyBindsOne(s, a);
    AnswersAreLookups(Apply(s, a));
  }

  lemma AnswersAreLookups(s: State)
    requires Safe(s)
    ensures forall k, b :: AnsweredWith(s, k, b) ==> k in Ledger(s) && Ledger(s)[k] == b
  {
  }

  lemma ApplyBindsOne(s: State, a: Action)
    ensures BindsOne(s, Apply(s, a))
  {
    match a {
      case StepClient(tid, input, wake) =>
        if tid in s.threads && s.threads[tid].Client? { ClientBindsOne(s, s.threads[tid], input, wake); }
      case StepWorker(tid, input, choice) =>
        if tid in s.threads && s.threads[tid].Worker? { WorkerBindsOne(s, s.threads[tid], input, choice); }
      case Call(_, _, _, _) =>
      case Start(_, _, _, _) =>
      case Drain(_, _, _) =>
    }
  }

  ghost predicate BindsOne(s: State, s': State) {
    forall k, k' ::
      k in s'.tables.proofs && k !in s.tables.proofs && k' in s'.tables.proofs && k' !in s.tables.proofs ==> k == k'
  }

  lemma ClientBindsOne(s: State, c: Thread, input: Input, wake: Wake)
    requires c.Client?
    ensures BindsOne(s, StepResolve(s, c, input, wake).0)
  {
  }

  lemma WorkerBindsOne(s: State, w: Thread, input: Input, choice: Choice)
    requires w.Worker?
    ensures BindsOne(s, StepRun(s, w, input, choice).0)
  {
    if w.wpc.Settling? && w.wpc.queue != [] {
      assert Settled(s.tables, w.wpc.queue[0], w.wpc.result).proofs == s.tables.proofs;
    }
  }

  /** In every reachable state a stored proof is its owner's, and a completed request has one. */
  lemma ProvenanceAndPersistence(s: State)
    requires Reachable(s)
    ensures forall k :: k in s.tables.proofs ==> Genuine(s.minted, k, BundleOf(s.tables.proofs[k]))
    ensures forall k :: k in s.tables.requests && s.tables.requests[k].status == Complete ==> k in s.tables.proofs
  {
    ReachableIsSafe(s);
  }

  /** The process a thread runs in. */
  function Actor(s: State, a: Action): Option<Replica> {
    match a
    case StepClient(tid, _, _) => if tid in s.threads then Some(s.threads[tid].home) else None
    case StepWorker(tid, _, _) => if tid in s.threads then Some(s.threads[tid].home) else None
    case _ => None
  }

  /** A token is only ever requested by the process whose key it is bound to. */
  lemma MintsOwnKeyOnly(s: State, a: Action, m: Mint)
    requires m in Apply(s, a).minted && m !in s.minted
    ensures Actor(s, a).Some?
    ensures m.home == Actor(s, a).value
    ensures |m.nonces| == 2 && m.nonces[1] == BindingOf(m.home.publicKey)
  {
  }

  /** Resolving another replica's reference requests no token, stores no proof and settles no request. */
  lemma ForeignResolveNeverMints(s: State, tid: nat, input: Input, wake: Wake)
    requires Reachable(s)
    requires tid in s.threads && s.threads[tid].Client? && s.threads[tid].ref != ProofRef(s.threads[tid].home)
    ensures var s' := Apply(s, StepClient(tid, input, wake));
            && s'.minted == s.minted
            && s'.tables.proofs == s.tables.proofs
            && s'.tables.replicas == s.tables.replicas
            && forall k :: k in s.tables.requests ==>
                 k in s'.tables.requests && s'.tables.requests[k] == s.tables.requests[k]
  {
    ReachableIsSafe(s);
    assert ThreadOk(s, s.threads[tid]);
  }
}
