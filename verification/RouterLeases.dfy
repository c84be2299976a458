/**
 * The life of one request row: its status only moves forward, its expiry is fixed, a claim comes
 * only after the previous lease has run out and before the row expires, and so the number of
 * attempts is bounded by the time the row has.
 */
module RouterLeases {
  import opened Basics
  import opened ProofTables
  import opened RouterMachine

  function Rank(status: Status): nat {
    match status
    case Pending => 0
    case Processing => 1
    case Complete => 2
    case Failed => 2
  }

  /** Each claim follows the end of the lease before it, and none is made at or after the expiry. */
  ghost predicate Spaced(claims: seq<Time>, lease: Time, expiresAt: Time) {
    && (forall i :: 0 <= i < |claims| ==> claims[i] < expiresAt)
    && (forall i :: 0 < i < |claims| ==> claims[i - 1] + lease < claims[i])
  }

  ghost predicate RowOk(row: RequestRow, claims: seq<Time>, lease: Time) {
    && row.attempts == |claims|
    && Spaced(claims, lease, row.expiresAt)
    && (row.status == Pending ==> claims == [])
    && (row.status == Processing ==> claims != [] && row.leaseUntil == Some(claims[|claims| - 1] + lease))
  }

  ghost predicate RowsOk(s: State) {
    && s.claims.Keys == s.tables.requests.Keys
    && forall k :: k in s.tables.requests ==> RowOk(s.tables.requests[k], s.claims[k], s.options.leaseDuration)
  }

  /** How a row that is there before and after may differ. */
  ghost predicate RowStep(s: State, s': State, k: Key)
    requires k in s.tables.requests && k in s'.tables.requests && k in s.claims && k in s'.claims
  {
    var row, row' := s.tables.requests[k], s'.tables.requests[k];
    && Rank(row.status) <= Rank(row'.status)
    && row'.expiresAt == row.expiresAt && row'.requestedAt == row.requestedAt
    && s.claims[k] <= s'.claims[k]
  }

  ghost predicate RowsStep(s: State, s': State) {
    && RowsOk(s) && RowsOk(s') && s'.options == s.options
    && forall k :: k in s.tables.requests && k in s'.tables.requests ==> RowStep(s, s', k)
  }

  lemma SameRows(s: State, s': State)
    requires RowsOk(s) && s'.tables.requests == s.tables.requests && s'.claims == s.claims && s'.options == s.options
    ensures RowsStep(s, s')
  {
  }

  lemma ClaimStep(s: State, ref: Label, now: Time, locked: set<Key>, sel: seq<Key>)
    requires RowsOk(s) && IsSelection(s.tables, ref, now, s.options.batchSize, locked, sel)
    ensures RowsStep(s, Claimed(s, sel, now))
  {
    var s' := Claimed(s, sel, now);
    forall k | k in s'.tables.requests
      ensures RowOk(s'.tables.requests[k], s'.claims[k], s.options.leaseDuration) && RowStep(s, s', k)
    {
      assert RowOk(s.tables.requests[k], s.claims[k], s.options.leaseDuration);
      if k in sel {
        assert Eligible(s.tables, ref, now, locked, k);
      }
    }
  }

  lemma SettleRows(s: State, k: Key, result: Outcome<Bundle>)
    requires RowsOk(s)
    ensures RowsStep(s, s.(tables := Settled(s.tables, k, result)))
  {
  }

  lemma DeleteRows(s: State, now: Time)
    requires RowsOk(s)
    ensures RowsStep(s, Deleted(s, now))
  {
  }

  /** Issue is about proofs and tokens only. */
  lemma IssueRows(s: State, home: Replica, challenge: string, pc: IssuePc, input: Input)
    ensures var s' := StepIssue(s, home, challenge, pc, input).0;
            s'.tables.requests == s.tables.requests && s'.claims == s.claims && s'.options == s.options
  {
  }

  lemma SelectRows(s: State, w: Thread, input: Input, choice: Choice)
    requires w.Worker? && RowsOk(s)
    ensures RowsStep(s, StepSelect(s, w, input, choice).0)
  {
    if choice.Poll? && input.fault != Lost
       && IsSelection(s.tables, ProofRef(w.home), input.now, s.options.batchSize, choice.locked, choice.selection) {
      ClaimStep(s, ProofRef(w.home), input.now, choice.locked, choice.selection);
    } else {
      SameRows(s, StepSelect(s, w, input, choice).0);
    }
  }

  lemma WorkerRows(s: State, w: Thread, input: Input, choice: Choice)
    requires w.Worker? && RowsOk(s)
    ensures RowsStep(s, StepRun(s, w, input, choice).0)
  {
    var s' := StepRun(s, w, input, choice).0;
    match w.wpc {
      case Selecting => SelectRows(s, w, input, choice);
      case Deleting(now) =>
        DeleteRows(s, now);
        SameRows(s, s);
        assert s' == s || s' == Deleted(s, now);
      case Serving(queue, issue) =>
        if queue != [] { IssueRows(s, w.home, queue[0].challenge, issue, input); }
        SameRows(s, s');
      case Settling(queue, result) =>
        SameRows(s, s);
        if queue != [] {
          SettleRows(s, queue[0], result);
          assert s' == s || s' == s.(tables := Settled(s.tables, queue[0], result));
        }
      case Exited(_) => SameRows(s, s);
    }
  }

  lemma EnqueueRows(s: State, k: Key, fault: Fault, requestedAt: Time, expiresAt: Time)
    requires RowsOk(s)
    ensures RowsStep(s, Enqueued(s, k, fault, requestedAt, expiresAt))
  {
  }

  /** Everything else a client does leaves the requests alone. */
  lemma ClientKeepsRows(s: State, c: Thread, input: Input, wake: Wake)
    requires c.Client? && !c.cpc.ResolveEnqueue?
    ensures var s' := StepResolve(s, c, input, wake).0;
            s'.tables.requests == s.tables.requests && s'.claims == s.claims && s'.options == s.options
  {
    if c.cpc.OwnIssue? {
      IssueRows(s, c.home, c.challenge, c.cpc.issue, input);
    }
  }

  lemma ClientEnqueues(s: State, c: Thread, input: Input, wake: Wake)
    requires c.Client? && c.cpc.ResolveEnqueue?
    ensures StepResolve(s, c, input, wake).0 ==
            Enqueued(s, Key(c.ref, c.challenge), input.fault, input.now, c.cpc.now + s.options.requestTTL)
  {
  }

  lemma ClientRows(s: State, c: Thread, input: Input, wake: Wake)
    requires c.Client? && RowsOk(s)
    ensures RowsStep(s, StepResolve(s, c, input, wake).0)
  {
    var s' := StepResolve(s, c, input, wake).0;
    if c.cpc.ResolveEnqueue? {
      ClientEnqueues(s, c, input, wake);
      EnqueueRows(s, Key(c.ref, c.challenge), input.fault, input.now, c.cpc.now + s.options.requestTTL);
    } else {
      ClientKeepsRows(s, c, input, wake);
      SameRows(s, s');
    }
  }

  lemma ApplyRows(s: State, a: Action)
    requires RowsOk(s)
    ensures RowsStep(s, Apply(s, a))
  {
    match a {
      case StepClient(tid, input, wake) =>
        if tid in s.threads && s.threads[tid].Client? {
          ClientRows(s, s.threads[tid], input, wake);
          SameRows(StepResolve(s, s.threads[tid], input, wake).0, Apply(s, a));
        }
      case StepWorker(tid, input, choice) =>
        if tid in s.threads && s.threads[tid].Worker? {
          WorkerRows(s, s.threads[tid], input, choice);
          SameRows(StepRun(s, s.threads[tid], input, choice).0, Apply(s, a));
        }
      case Call(_, _, _, _) =>
      case Start(_, _, _, _) =>
      case Drain(_, _, _) =>
    }
  }

  lemma {:induction false} RunRows(s: State, actions: seq<Action>)
    requires RowsOk(s)
    ensures RowsOk(Run(s, actions)) && Run(s, actions).options == s.options
    decreases |actions|
  {
    if actions != [] {
      ApplyRows(s, actions[0]);
      RunRows(Apply(s, actions[0]), actions[1..]);
    }
  }

  /** The row of k is not deleted on the way: it lives one lifetime. */
  ghost predicate Lives(s: State, actions: seq<Action>, k: Key)
    decreases |actions|
  {
    k in s.tables.requests && (actions != [] ==> Lives(Apply(s, actions[0]), actions[1..], k))
  }

  /** Within one lifetime the status never moves back, the expiry is fixed and claims only accumulate. */
  lemma {:induction false} LifetimeMovesForward(s: State, actions: seq<Action>, k: Key)
    requires RowsOk(s) && Lives(s, actions, k)
    ensures k in Run(s, actions).tables.requests && RowsOk(Run(s, actions))
    ensures RowStep(s, Run(s, actions), k)
    decreases |actions|
  {
    if actions != [] {
      ApplyRows(s, actions[0]);
      LifetimeMovesForward(Apply(s, actions[0]), actions[1..], k);
    }
  }

  lemma {:induction false} ClaimsSpread(claims: seq<Time>, lease: Time, expiresAt: Time, i: nat)
    requires Spaced(claims, lease, expiresAt) && i < |claims|
    ensures claims[0] + i * lease <= claims[i]
  {
    if i > 0 {
      ClaimsSpread(claims, lease, expiresAt, i - 1);
      assert i * lease == (i - 1) * lease + lease;
    }
  }

  /** In every reachable state: claims are a lease apart and before the expiry, so attempts are bounded. */
  lemma AttemptsBounded(s0: State, actions: seq<Action>, k: Key)
    requires Initial(s0) && k in Run(s0, actions).tables.requests
    ensures var s := Run(s0, actions);
            var row := s.tables.requests[k];
            && k in s.claims && row.attempts == |s.claims[k]|
            && Spaced(s.claims[k], s.options.leaseDuration, row.expiresAt)
            && (row.attempts > 0 ==>
                  (row.attempts - 1) * s.options.leaseDuration < row.expiresAt - s.claims[k][0])
  {
    RunRows(s0, actions);
    var s := Run(s0, actions);
    if s.claims[k] != [] {
      ClaimsSpread(s.claims[k], s.options.leaseDuration, s.tables.requests[k].expiresAt, |s.claims[k]| - 1);
    }
  }
}
