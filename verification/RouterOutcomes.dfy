/**
 * What comes of it: a call of Issue that is given a good token ends with the proof on record, a caller
 * at another replica asks the owner exactly when that is alive, hears of a proof or a failure when there
 * is one, and a batch that is served without trouble is completed.
 */
module RouterOutcomes {
  import opened Basics
  import opened ProofTables
  import opened RouterMachine
  import opened RouterSafety

  // ----- Issue under good conditions -------------------------------------------------------

  /** The store works, and the launcher hands out an unexpired JWT with a positive expiry. */
  predicate Good(input: Input) {
    && input.fault == NoFault && input.reply.Token? && input.reply.token.Jwt?
    && input.reply.token.exp > 0 && input.now < input.reply.token.exp * 1_000_000_000
  }

  /** Steps of Issue that are left. */
  function Left(pc: IssuePc): nat {
    match pc
    case IssueFind => 4
    case IssueMint => 3
    case IssueInsert(_) => 2
    case IssueReread => 1
    case IssueDone(_) => 0
  }

  /** Still under way, or done with a proof. */
  predicate Promising(pc: IssuePc) {
    pc.IssueDone? ==> pc.result.Ok?
  }

  lemma GoodStep(s: State, home: Replica, challenge: string, pc: IssuePc, input: Input)
    requires Good(input) && IssueOk(s, home, challenge, pc) && !pc.IssueDone?
    ensures var pc' := StepIssue(s, home, challenge, pc, input).1; Promising(pc') && Left(pc') < Left(pc)
  {
  }

  predicate TurnOf(a: Action, tid: nat) {
    (a.StepClient? || a.StepWorker?) && a.tid == tid
  }

  function InputOf(a: Action): Input
    requires a.StepClient? || a.StepWorker?
  {
    match a
    case StepClient(_, input, _) => input
    case StepWorker(_, input, _) => input
  }

  /** Whatever the others do, tid's own turns go well. */
  ghost predicate GoesWell(actions: seq<Action>, tid: nat) {
    forall i :: 0 <= i < |actions| && TurnOf(actions[i], tid) ==> Good(InputOf(actions[i]))
  }

  /** Only its own turns move a thread. */
  lemma OthersLeave(s: State, a: Action, tid: nat)
    requires tid in s.threads
    requires if s.threads[tid].Client? then !(a.StepClient? && a.tid == tid) else !(a.StepWorker? && a.tid == tid)
    ensures tid in Apply(s, a).threads && Apply(s, a).threads[tid] == s.threads[tid]
  {
  }

  /** A client of its own replica that is being served, or has its proof. */
  predicate PromisingClient(th: Thread) {
    th.Client? && th.ref == ProofRef(th.home)
    && match th.cpc
       case OwnIssue(issue) => Promising(issue) && !issue.IssueDone?
       case Answered(r) => r.Ok?
       case _ => false
  }

  function ClientLeft(th: Thread): nat
    requires PromisingClient(th)
  {
    if th.cpc.OwnIssue? then Left(th.cpc.issue) else 0
  }

  /** th' is th further on, or the same if it was not th's turn. */
  predicate ClientFurther(th: Thread, th': Thread, own: bool) {
    && PromisingClient(th) && PromisingClient(th') && th'.home == th.home && th'.challenge == th.challenge
    && ClientLeft(th') <= ClientLeft(th) && (own && ClientLeft(th) > 0 ==> ClientLeft(th') < ClientLeft(th))
  }

  lemma OwnClientTurn(s: State, th: Thread, input: Input, wake: Wake)
    requires PromisingClient(th) && ClientOk(s, th) && Good(input)
    ensures ClientFurther(th, th.(cpc := StepResolve(s, th, input, wake).1), true)
  {
    if th.cpc.OwnIssue? {
      GoodStep(s, th.home, th.challenge, th.cpc.issue, input);
    }
  }

  lemma ClientTurn(s: State, a: Action, tid: nat)
    requires Safe(s) && tid in s.threads && PromisingClient(s.threads[tid])
    requires TurnOf(a, tid) ==> Good(InputOf(a))
    ensures tid in Apply(s, a).threads
    ensures ClientFurther(s.threads[tid], Apply(s, a).threads[tid], a.StepClient? && a.tid == tid)
  {
    if a.StepClient? && a.tid == tid {
      assert ThreadOk(s, s.threads[tid]);
      OwnClientTurn(s, s.threads[tid], a.input, a.wake);
    } else {
      OthersLeave(s, a, tid);
    }
  }

  function ClientTurns(actions: seq<Action>, tid: nat): nat {
    if actions == [] then 0
    else (if actions[0].StepClient? && actions[0].tid == tid then 1 else 0) + ClientTurns(actions[1..], tid)
  }

  lemma {:induction false} ClientServed(s: State, actions: seq<Action>, tid: nat)
    requires Safe(s) && tid in s.threads && PromisingClient(s.threads[tid]) && GoesWell(actions, tid)
    requires ClientTurns(actions, tid) >= ClientLeft(s.threads[tid])
    ensures var s' := Run(s, actions);
            && Safe(s') && tid in s'.threads && PromisingClient(s'.threads[tid]) && ClientLeft(s'.threads[tid]) == 0
            && s'.threads[tid].home == s.threads[tid].home && s'.threads[tid].challenge == s.threads[tid].challenge
    decreases |actions|
  {
    if actions != [] {
      ClientTurn(s, actions[0], tid);
      ApplyKeepsSafe(s, actions[0]);
      ClientServed(Apply(s, actions[0]), actions[1..], tid);
    }
  }

  /** The challenge shows at least one ASCII character that is not a space. */
  predicate Visible(challenge: string) {
    exists c :: c in challenge && '!' <= c <= '~'
  }

  /**
   * Whoever asks its own replica for a visible challenge, and has four turns that go well, is given the
   * proof that is on record then, whatever all the others do in between.
   */
  lemma IssueSucceeds(s: State, tid: nat, home: Replica, challenge: string, actions: seq<Action>)
    requires Reachable(s) && tid !in s.threads && Visible(challenge)
    requires GoesWell(actions, tid) && ClientTurns(actions, tid) >= 4
    ensures var s' := Run(Apply(s, Call(tid, home, ProofRef(home), challenge)), actions);
            && tid in s'.threads && s'.threads[tid].Client? && s'.threads[tid].cpc.Answered?
            && s'.threads[tid].cpc.result.Ok?
            && FindProof(s'.tables, Key(ProofRef(home), challenge)) == Some(s'.threads[tid].cpc.result.value)
  {
    var call := Call(tid, home, ProofRef(home), challenge);
    ReachableIsSafe(s);
    ApplyKeepsSafe(s, call);
    assert !Blank(challenge);
    ClientServed(Apply(s, call), actions, tid);
    var s' := Run(Apply(s, call), actions);
    assert ThreadOk(s', s'.threads[tid]);
  }

  // ----- A batch under good conditions -----------------------------------------------------

  /** A worker at the head of this batch: being served, or about to record a proof. */
  predicate PromisingWorker(th: Thread, queue: seq<Key>) {
    th.Worker? && queue != []
    && match th.wpc
       case Serving(q, issue) => q == queue && !issue.IssueDone?
       case Settling(q, r) => q == queue && r.Ok?
       case _ => false
  }

  function WorkerLeft(th: Thread, queue: seq<Key>): nat
    requires PromisingWorker(th, queue)
  {
    if th.wpc.Serving? then Left(th.wpc.issue) else 0
  }

  predicate WorkerFurther(th: Thread, th': Thread, queue: seq<Key>, own: bool) {
    && PromisingWorker(th, queue) && PromisingWorker(th', queue)
    && WorkerLeft(th', queue) <= WorkerLeft(th, queue) && (own ==> WorkerLeft(th', queue) < WorkerLeft(th, queue))
  }

  lemma OwnWorkerTurn(s: State, th: Thread, input: Input, choice: Choice, queue: seq<Key>)
    requires PromisingWorker(th, queue) && th.wpc.Serving? && WorkerOk(s, th) && Good(input)
    ensures WorkerFurther(th, th.(wpc := StepRun(s, th, input, choice).1), queue, true)
  {
    GoodStep(s, th.home, queue[0].challenge, th.wpc.issue, input);
  }

  lemma WorkerTurn(s: State, a: Action, tid: nat, queue: seq<Key>)
    requires Safe(s) && tid in s.threads && PromisingWorker(s.threads[tid], queue)
    requires TurnOf(a, tid) ==> Good(InputOf(a))
    requires a.StepWorker? && a.tid == tid ==> s.threads[tid].wpc.Serving?
    ensures tid in Apply(s, a).threads
    ensures WorkerFurther(s.threads[tid], Apply(s, a).threads[tid], queue, a.StepWorker? && a.tid == tid)
  {
    if a.StepWorker? && a.tid == tid {
      assert ThreadOk(s, s.threads[tid]);
      OwnWorkerTurn(s, s.threads[tid], a.input, a.choice, queue);
    } else {
      OthersLeave(s, a, tid);
    }
  }

  /** The row of k, if it is still there, as a completed one: error and lease are cleared, nothing else changed. */
  predicate CompletedRow(t: Tables, t': Tables, k: Key) {
    k in t.requests ==>
      k in t'.requests && t'.requests[k] == t.requests[k].(status := Complete, error := "", leaseUntil := None)
  }

  /** From s to s' the request at the head of the batch is completed, its proof on record, and the rest is next. */
  ghost predicate CompletesHead(s: State, s': State, tid: nat, queue: seq<Key>)
    requires queue != []
  {
    && CompletedRow(s.tables, s'.tables, queue[0]) && queue[0] in s'.tables.proofs
    && tid in s'.threads && s'.threads[tid].Worker? && s'.threads[tid].wpc == Next(queue[1..])
  }

  lemma SettleTurn(s: State, a: Action, tid: nat, queue: seq<Key>)
    requires Safe(s) && tid in s.threads && PromisingWorker(s.threads[tid], queue) && s.threads[tid].wpc.Settling?
    requires a.StepWorker? && a.tid == tid && Good(a.input)
    ensures CompletesHead(s, Apply(s, a), tid, queue)
  {
    assert ThreadOk(s, s.threads[tid]);
  }

  function WorkerTurns(actions: seq<Action>, tid: nat): nat {
    if actions == [] then 0
    else (if actions[0].StepWorker? && actions[0].tid == tid then 1 else 0) + WorkerTurns(actions[1..], tid)
  }

  lemma RunShift(s: State, actions: seq<Action>, n: nat)
    requires n < |actions|
    ensures Run(s, actions[..n + 1]) == Run(Apply(s, actions[0]), actions[1..][..n])
  {
    assert actions[..n + 1][1..] == actions[1..][..n];
  }

  /**
   * A worker whose turns go well completes the request at the head of its batch: within five turns there
   * is a step n after which the proof is on record, the row is complete, and the rest of the batch is next.
   */
  lemma {:induction false} HeadCompleted(s: State, actions: seq<Action>, tid: nat, queue: seq<Key>) returns (n: nat)
    requires Safe(s) && tid in s.threads && PromisingWorker(s.threads[tid], queue) && GoesWell(actions, tid)
    requires WorkerTurns(actions, tid) > WorkerLeft(s.threads[tid], queue)
    ensures n < |actions| && CompletesHead(Run(s, actions[..n]), Run(s, actions[..n + 1]), tid, queue)
    decreases |actions|
  {
    var a, rest := actions[0], actions[1..];
    if a.StepWorker? && a.tid == tid && s.threads[tid].wpc.Settling? {
      n := 0;
      SettleTurn(s, a, tid, queue);
      RunShift(s, actions, 0);
    } else {
      WorkerTurn(s, a, tid, queue);
      ApplyKeepsSafe(s, a);
      var m := HeadCompleted(Apply(s, a), rest, tid, queue);
      n := m + 1;
      RunShift(s, actions, m);
      RunShift(s, actions, m + 1);
    }
  }

  /** The row of k, if there is one, as a failed one, with this message, cut at 1024; nothing else changed. */
  ghost predicate FailedRow(t: Tables, t': Tables, k: Key, message: string) {
    && t'.proofs == t.proofs && t'.replicas == t.replicas && t'.requests.Keys == t.requests.Keys
    && (k in t.requests ==>
          && t'.requests[k].status == Failed && t'.requests[k].leaseUntil == None
          && t'.requests[k].error == (if |message| <= 1024 then message else message[..1024])
          && t'.requests == t.requests[k := t'.requests[k]])
    && (k !in t.requests ==> t'.requests == t.requests)
  }

  /** A worker about to record a failure records it. */
  lemma FailureRecorded(s: State, tid: nat, input: Input, choice: Choice)
    requires Safe(s) && tid in s.threads && s.threads[tid].Worker? && s.threads[tid].wpc.Settling?
    requires s.threads[tid].wpc.result.Err? && input.fault == NoFault
    ensures Owned(s.threads[tid].home, s.threads[tid].wpc.queue)
    ensures FailedRow(s.tables, Apply(s, StepWorker(tid, input, choice)).tables, s.threads[tid].wpc.queue[0],
                      Message(s.threads[tid].wpc.result.error))
  {
    assert ThreadOk(s, s.threads[tid]);
  }

  // ----- Claims ----------------------------------------------------------------------------

  /**
   * A poll that has room takes exactly the rows of its owner that are pending, or were claimed by
   * somebody whose lease has run out, and that have not expired.
   */
  lemma TakesWhatIsDue(t: Tables, ref: Label, now: Time, limit: nat, sel: seq<Key>, k: Key)
    requires IsSelection(t, ref, now, limit, {}, sel) && |sel| < limit
    ensures k in sel <==>
            && k in t.requests && k.ref == ref && now < t.requests[k].expiresAt
            && (|| t.requests[k].status == Pending
                || (t.requests[k].status == Processing && t.requests[k].leaseUntil.Some?
                    && t.requests[k].leaseUntil.value < now))
  {
    assert k in sel <==> Eligible(t, ref, now, {}, k);
  }

  // ----- Beats -----------------------------------------------------------------------------

  /** A beat and the clean-up after it, neither failing: the row is fresh and unmarked, and only live requests stay. */
  lemma BeatTurns(s: State, tid: nat, home: Replica, instance: string, now: Time, later: Time, choice: Choice)
    requires tid in s.threads && s.threads[tid] == Worker(home, instance, Selecting)
    ensures var s' := Run(s, [StepWorker(tid, Input(now, NoFault, Refused), Beat),
                              StepWorker(tid, Input(later, NoFault, Refused), choice)]);
            var ref := ProofRef(home);
            && s'.tables.proofs == s.tables.proofs && tid in s'.threads && s'.threads[tid] == s.threads[tid]
            && (ref in s.tables.replicas && s.tables.replicas[ref].instance == instance ==>
                  s'.tables.replicas ==
                  s.tables.replicas[ref := s.tables.replicas[ref].(lastHeartbeat := now, draining := false)])
            && (ref !in s.tables.replicas || s.tables.replicas[ref].instance != instance ==>
                  s'.tables.replicas == s.tables.replicas)
            && (forall k :: k in s'.tables.requests <==> k in s.tables.requests && s.tables.requests[k].expiresAt > now)
            && forall k :: k in s'.tables.requests ==> s'.tables.requests[k] == s.tables.requests[k]
  {
    var beat := StepWorker(tid, Input(now, NoFault, Refused), Beat);
    RunTwo(s, beat, StepWorker(tid, Input(later, NoFault, Refused), choice));
  }

  // ----- A caller at another replica -------------------------------------------------------

  lemma RunThree(s: State, a: Action, b: Action, c: Action)
    ensures Run(s, [a, b, c]) == Apply(Apply(Apply(s, a), b), c)
  {
    assert [a, b, c][1..] == [b, c] && [b, c][1..] == [c] && [c][1..] == [];
    assert Run(Apply(Apply(s, a), b), [c]) == Run(Apply(Apply(Apply(s, a), b), c), []);
  }

  /** A caller that has just begun to ask another replica's proof. */
  ghost predicate Begins(s: State, tid: nat, k: Key) {
    && tid in s.threads && s.threads[tid].Client? && s.threads[tid].cpc == ResolveFind
    && k == Key(s.threads[tid].ref, s.threads[tid].challenge)
  }

  /** The row of ref shows a live owner to a caller whose clock reads now. */
  predicate Alive(t: Tables, ref: Label, now: Time, staleAfter: Time) {
    ref in t.replicas && !t.replicas[ref].draining && now <= t.replicas[ref].lastHeartbeat + staleAfter
  }

  /** The requests as they were, with one more that asks for k unless there was one already. */
  predicate AskedFor(t: Tables, t': Tables, k: Key, requestedAt: Time, expiresAt: Time) {
    && t'.proofs == t.proofs && t'.replicas == t.replicas && k in t'.requests
    && t'.requests == t.requests[k := t'.requests[k]]
    && t'.requests[k] == if k in t.requests then t.requests[k]
                         else RequestRow(Pending, "", requestedAt, expiresAt, None, 0)
  }

  predicate AnswersWith(s: State, tid: nat, r: Outcome<Bundle>) {
    tid in s.threads && s.threads[tid].Client? && s.threads[tid].cpc == Answered(r)
  }

  /**
   * In three turns without a fault, a caller is given the proof if there is one, asks the owner if that
   * is alive, and is refused otherwise, having changed nothing.
   */
  lemma AsksExactlyTheLiving(s: State, tid: nat, k: Key, read: Time, now: Time, requestedAt: Time, wake: Wake)
    requires Begins(s, tid, k)
    ensures var step := (t: Time) => StepClient(tid, Input(t, NoFault, Refused), wake);
            var s' := Run(s, [step(read), step(now), step(requestedAt)]);
            if k in s.tables.proofs then s'.tables == s.tables && AnswersWith(s', tid, Ok(BundleOf(s.tables.proofs[k])))
            else if k.ref !in s.tables.replicas then s'.tables == s.tables && AnswersWith(s', tid, Err(ProofNotFound))
            else if Alive(s.tables, k.ref, now, s.options.staleAfter)
            then AskedFor(s.tables, s'.tables, k, requestedAt, now + s.options.requestTTL) && Polling(s', tid)
            else s'.tables == s.tables && AnswersWith(s', tid, Err(OwnerUnavailable))
  {
    var step := (t: Time) => StepClient(tid, Input(t, NoFault, Refused), wake);
    RunThree(s, step(read), step(now), step(requestedAt));
  }

  predicate Polling(s: State, tid: nat) {
    tid in s.threads && s.threads[tid].Client? && s.threads[tid].cpc == PollFind
  }

  /** A poll without a fault gives the proof if there is one, reports a failed request, and waits on otherwise. */
  lemma PollTells(s: State, tid: nat, k: Key, input: Input, input': Input, wake: Wake)
    requires Polling(s, tid) && k == Key(s.threads[tid].ref, s.threads[tid].challenge)
    requires input.fault == NoFault && input'.fault == NoFault
    ensures var s' := Run(s, [StepClient(tid, input, wake), StepClient(tid, input', wake)]);
            && s'.tables == s.tables
            && if k in s.tables.proofs then AnswersWith(s', tid, Ok(BundleOf(s.tables.proofs[k])))
               else if k in s.tables.requests && s.tables.requests[k].status == Failed
               then AnswersWith(s', tid, Err(RequestFailed(s.tables.requests[k].error)))
               else tid in s'.threads && s'.threads[tid].Client? && s'.threads[tid].cpc == PollWait
  {
    RunTwo(s, StepClient(tid, input, wake), StepClient(tid, input', wake));
  }

  /** A caller who waits polls again at a tick, and is told why when the wait ends. */
  lemma WaitTells(s: State, tid: nat, input: Input, wake: Wake)
    requires tid in s.threads && s.threads[tid].Client? && s.threads[tid].cpc == PollWait
    ensures var s' := Apply(s, StepClient(tid, input, wake));
            && s'.tables == s.tables
            && (wake == Tick ==> Polling(s', tid)) && (wake == Deadline ==> AnswersWith(s', tid, Err(RequestTimeout)))
            && (wake == Cancel ==> AnswersWith(s', tid, Err(Cancelled)))
  {
  }

  // ----- Why Issue gives no proof ----------------------------------------------------------

  predicate GoodToken(token: Token, now: Time) {
    token.Jwt? && 0 < token.exp && now < token.exp * 1_000_000_000
  }

  /** A call of one's own replica, and the statements that look for a proof and ask the launcher. */
  function AskLauncher(tid: nat, home: Replica, challenge: string, look: Input, ask: Input): seq<Action> {
    [Call(tid, home, ProofRef(home), challenge), StepClient(tid, look, Tick), StepClient(tid, ask, Tick)]
  }

  /**
   * With no proof on record the launcher is asked, once, and each of its answers that is no good token
   * has an error of its own. Nothing is stored either way before a good token is in hand.
   */
  lemma MintTells(s: State, tid: nat, home: Replica, challenge: string, look: Input, ask: Input)
    requires tid !in s.threads && Visible(challenge) && Key(ProofRef(home), challenge) !in s.tables.proofs
    requires look.fault == NoFault
    ensures var s' := Run(s, AskLauncher(tid, home, challenge, look, ask));
            && s'.tables == s.tables
            && (ask.reply == Refused <==> AnswersWith(s', tid, Err(ProviderFailed)))
            && (ask.reply == Refused ==> s'.minted == s.minted)
            && (ask.reply.Token? ==>
                  && var nonces := [Text(challenge), BindingOf(home.publicKey)];
                  && s'.minted == s.minted + {Mint(home, nonces, ask.reply.token, ask.now)}
                  && match ask.reply.token
                     case Malformed(_) => AnswersWith(s', tid, Err(TokenNotJwt))
                     case Jwt(_, exp, _) =>
                       && (exp <= 0 ==> AnswersWith(s', tid, Err(TokenNotJwt)))
                       && (exp > 0 && exp * 1_000_000_000 <= ask.now ==> AnswersWith(s', tid, Err(TokenExpired)))
                       && (GoodToken(ask.reply.token, ask.now) <==>
                           forall f :: !AnswersWith(s', tid, Err(f))))
  {
    RunThree(s, Call(tid, home, ProofRef(home), challenge), StepClient(tid, look, Tick), StepClient(tid, ask, Tick));
    assert !Blank(challenge);
  }

  /** A challenge of spaces alone is refused before anything is looked up or asked for. */
  lemma BlankRefused(s: State, tid: nat, home: Replica, challenge: string)
    requires tid !in s.threads && forall c :: c in challenge ==> c == ' ' || c == '\t' || c == '\n' || c == '\r'
    ensures var s' := Apply(s, Call(tid, home, ProofRef(home), challenge));
            && s'.tables == s.tables && s'.minted == s.minted
            && AnswersWith(s', tid, Err(ChallengeRequired))
  {
    assert Blank(challenge);
  }
}
