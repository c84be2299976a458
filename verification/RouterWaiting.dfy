/**
 * How long a request can wait. Claims take the oldest rows first, so a pending row is overtaken by
 * nobody who asked later, and each poll that leaves it behind uses up a whole batch of older rows.
 */
module RouterWaiting {
  import opened Basics
  import opened ProofTables
  import opened RouterMachine

  /** The pending rows for the same owner that are at least as old as k's. */
  function Ahead(t: Tables, k: Key): set<Key>
    requires k in t.requests
  {
    set q | q in t.requests && q != k && q.ref == k.ref && t.requests[q].status == Pending
            && t.requests[q].requestedAt <= t.requests[k].requestedAt
  }

  /** a is a poll for ref whose claim takes effect. */
  ghost predicate IsPoll(s: State, a: Action, ref: Label) {
    && a.StepWorker? && a.tid in s.threads && s.threads[a.tid].Worker?
    && ProofRef(s.threads[a.tid].home) == ref && s.threads[a.tid].wpc.Selecting?
    && a.choice.Poll? && a.input.fault != Lost
    && IsSelection(s.tables, ref, a.input.now, s.options.batchSize, a.choice.locked, a.choice.selection)
  }

  predicate IsEnqueue(s: State, a: Action, ref: Label) {
    a.StepClient? && a.tid in s.threads && s.threads[a.tid].Client? && s.threads[a.tid].ref == ref
    && s.threads[a.tid].cpc.ResolveEnqueue?
  }

  /** a adds a row for k's owner that is as old as k's, though it comes later. */
  ghost predicate Ties(s: State, a: Action, k: Key) {
    && k in s.tables.requests && IsEnqueue(s, a, k.ref) && a.input.fault != Lost
    && Key(k.ref, s.threads[a.tid].challenge) !in s.tables.requests
    && a.input.now == s.tables.requests[k].requestedAt
  }

  ghost function CountTies(s: State, actions: seq<Action>, k: Key): nat
    decreases |actions|
  {
    if actions == [] then 0
    else (if Ties(s, actions[0], k) then 1 else 0) + CountTies(Apply(s, actions[0]), actions[1..], k)
  }

  /**
   * What the bound asks of one step. Whoever asks from now on has no earlier request time; and a poll
   * comes before k expires, meets no locked rows, and finds every earlier claim settled or still leased.
   */
  ghost predicate Orderly(s: State, a: Action, k: Key)
    requires k in s.tables.requests
  {
    && (IsEnqueue(s, a, k.ref) ==> a.input.now >= s.tables.requests[k].requestedAt)
    && (IsPoll(s, a, k.ref) ==>
          && a.choice.locked == {}
          && a.input.now < s.tables.requests[k].expiresAt
          && forall q :: Eligible(s.tables, k.ref, a.input.now, {}, q) ==> s.tables.requests[q].status == Pending)
  }

  ghost predicate OrderlyRun(s: State, actions: seq<Action>, k: Key)
    decreases |actions|
  {
    && k in s.tables.requests
    && (actions != [] ==> Orderly(s, actions[0], k) && OrderlyRun(Apply(s, actions[0]), actions[1..], k))
  }

  ghost function Polls(s: State, actions: seq<Action>, ref: Label): nat
    decreases |actions|
  {
    if actions == [] then 0
    else (if IsPoll(s, actions[0], ref) then 1 else 0) + Polls(Apply(s, actions[0]), actions[1..], ref)
  }

  lemma {:induction false} DistinctCount(xs: seq<Key>)
    requires forall i, j :: 0 <= i < j < |xs| ==> xs[i] != xs[j]
    ensures |set x | x in xs| == |xs|
  {
    if xs != [] {
      DistinctCount(xs[1..]);
      assert (set x | x in xs) == (set x | x in xs[1..]) + {xs[0]};
      assert xs[0] !in xs[1..];
    }
  }

  lemma Shrinks(xs: set<Key>, ys: set<Key>)
    requires xs <= ys
    ensures |xs| <= |ys|
  {
    assert ys == xs + (ys - xs);
  }

  /** A poll takes k or a whole batch of the rows ahead of it. */
  lemma PollTakesBatch(s: State, now: Time, sel: seq<Key>, k: Key)
    requires k in s.tables.requests && s.tables.requests[k].status == Pending
    requires now < s.tables.requests[k].expiresAt
    requires IsSelection(s.tables, k.ref, now, s.options.batchSize, {}, sel)
    requires forall q :: Eligible(s.tables, k.ref, now, {}, q) ==> s.tables.requests[q].status == Pending
    requires k !in sel
    ensures |Ahead(Claimed(s, sel, now).tables, k)| + s.options.batchSize <= |Ahead(s.tables, k)|
  {
    var taken := set q | q in sel;
    var t' := Claimed(s, sel, now).tables;
    assert Eligible(s.tables, k.ref, now, {}, k);
    DistinctCount(sel);
    assert taken <= Ahead(s.tables, k);
    assert Ahead(t', k) == Ahead(s.tables, k) - taken;
    assert |Ahead(s.tables, k) - taken| == |Ahead(s.tables, k)| - |taken|;
  }

  /** Rows are only ever added by enqueueing, and never turn pending again. */
  ghost predicate NoNewPending(t: Tables, t': Tables) {
    forall q :: q in t'.requests && t'.requests[q].status == Pending ==>
      q in t.requests && t.requests[q].status == Pending && t'.requests[q].requestedAt == t.requests[q].requestedAt
  }

  lemma AheadShrinks(t: Tables, t': Tables, k: Key)
    requires k in t.requests && k in t'.requests && t'.requests[k].status == Pending
    requires NoNewPending(t, t')
    ensures |Ahead(t', k)| <= |Ahead(t, k)|
  {
    Shrinks(Ahead(t', k), Ahead(t, k));
  }

  lemma EnqueueStep(s: State, a: Action, k: Key)
    requires k in s.tables.requests && IsEnqueue(s, a, k.ref) && Orderly(s, a, k)
    ensures var s' := Apply(s, a);
            && k in s'.tables.requests && s'.tables.requests[k] == s.tables.requests[k]
            && |Ahead(s'.tables, k)| <= |Ahead(s.tables, k)| + if Ties(s, a, k) then 1 else 0
  {
    var s' := Apply(s, a);
    var added := Key(k.ref, s.threads[a.tid].challenge);
    assert s'.tables.requests == s.tables.requests
           || (added !in s.tables.requests && a.input.fault != Lost
               && s'.tables.requests[added].requestedAt == a.input.now
               && s'.tables.requests == s.tables.requests[added := s'.tables.requests[added]]);
    if Ties(s, a, k) {
      Shrinks(Ahead(s'.tables, k), Ahead(s.tables, k) + {added});
    } else {
      Shrinks(Ahead(s'.tables, k), Ahead(s.tables, k));
    }
  }

  /** Enqueueing for somebody else is nothing to k. */
  lemma ElsewhereStep(s: State, a: Action, k: Key)
    requires a.StepClient? && a.tid in s.threads && s.threads[a.tid].Client? && s.threads[a.tid].cpc.ResolveEnqueue?
    requires k in s.tables.requests && s.threads[a.tid].ref != k.ref
    ensures var s' := Apply(s, a);
            && k in s'.tables.requests && s'.tables.requests[k] == s.tables.requests[k]
            && |Ahead(s'.tables, k)| <= |Ahead(s.tables, k)|
  {
    var s' := Apply(s, a);
    Shrinks(Ahead(s'.tables, k), Ahead(s.tables, k));
  }

  lemma ClientKeepsRequests(s: State, c: Thread, input: Input, wake: Wake)
    requires c.Client? && !c.cpc.ResolveEnqueue?
    ensures StepResolve(s, c, input, wake).0.tables.requests == s.tables.requests
  {
  }

  lemma SettledAddsNone(t: Tables, k: Key, result: Outcome<Bundle>)
    ensures NoNewPending(t, Settled(t, k, result))
  {
  }

  lemma SelectAddsNone(s: State, w: Thread, input: Input, choice: Choice)
    requires w.Worker?
    ensures NoNewPending(s.tables, StepSelect(s, w, input, choice).0.tables)
  {
  }

  lemma WorkerAddsNone(s: State, w: Thread, input: Input, choice: Choice)
    requires w.Worker?
    ensures NoNewPending(s.tables, StepRun(s, w, input, choice).0.tables)
  {
    match w.wpc {
      case Selecting => SelectAddsNone(s, w, input, choice);
      case Settling(queue, result) =>
        if queue != [] { SettledAddsNone(s.tables, queue[0], result); }
      case _ =>
    }
  }

  /** What a poll takes off, and what a tie adds. */
  ghost function Taken(s: State, a: Action, k: Key): nat {
    if IsPoll(s, a, k.ref) then s.options.batchSize else 0
  }

  ghost function Added(s: State, a: Action, k: Key): nat {
    if Ties(s, a, k) then 1 else 0
  }

  lemma ClientStepAhead(s: State, a: Action, k: Key)
    requires a.StepClient? && a.tid in s.threads && s.threads[a.tid].Client?
    requires k in s.tables.requests && Orderly(s, a, k)
    requires var s' := Apply(s, a); k in s'.tables.requests && s'.tables.requests[k].status == Pending
    ensures s.tables.requests[k].status == Pending
    ensures |Ahead(Apply(s, a).tables, k)| <= |Ahead(s.tables, k)| + Added(s, a, k)
  {
    var c := s.threads[a.tid];
    if !c.cpc.ResolveEnqueue? {
      ClientKeepsRequests(s, c, a.input, a.wake);
      AheadShrinks(s.tables, Apply(s, a).tables, k);
    } else if c.ref == k.ref {
      EnqueueStep(s, a, k);
    } else {
      ElsewhereStep(s, a, k);
    }
  }

  /** One orderly step, k still pending: at most a tie is added to those ahead, and a poll takes a batch of them. */
  lemma OrderlyStep(s: State, a: Action, k: Key)
    requires k in s.tables.requests && Orderly(s, a, k)
    requires var s' := Apply(s, a); k in s'.tables.requests && s'.tables.requests[k].status == Pending
    ensures s.tables.requests[k].status == Pending
    ensures |Ahead(Apply(s, a).tables, k)| + Taken(s, a, k) <= |Ahead(s.tables, k)| + Added(s, a, k)
  {
    var s' := Apply(s, a);
    if IsPoll(s, a, k.ref) {
      assert s'.tables == Claimed(s, a.choice.selection, a.input.now).tables;
      PollTakesBatch(s, a.input.now, a.choice.selection, k);
    } else if a.StepClient? && a.tid in s.threads && s.threads[a.tid].Client? {
      ClientStepAhead(s, a, k);
    } else {
      if a.StepWorker? && a.tid in s.threads && s.threads[a.tid].Worker? {
        WorkerAddsNone(s, s.threads[a.tid], a.input, a.choice);
      }
      AheadShrinks(s.tables, s'.tables, k);
    }
  }

  /** From s to s', with the polls and ties on the way: what is left ahead of k, and what was taken. */
  ghost predicate UsedUp(s: State, s': State, k: Key, polls: nat, ties: nat) {
    && k in s.tables.requests && k in s'.tables.requests
    && (s'.tables.requests[k].status == Pending ==>
          && s.tables.requests[k].status == Pending
          && |Ahead(s'.tables, k)| + polls * s.options.batchSize <= |Ahead(s.tables, k)| + ties)
  }

  lemma {:induction false} PollsUseUpAhead(s: State, actions: seq<Action>, k: Key)
    requires OrderlyRun(s, actions, k)
    ensures UsedUp(s, Run(s, actions), k, Polls(s, actions, k.ref), CountTies(s, actions, k))
    decreases |actions|
  {
    if actions != [] {
      var a, rest := actions[0], actions[1..];
      var s' := Apply(s, a);
      PollsUseUpAhead(s', rest, k);
      UsedUpBefore(s, a, s', Run(s', rest), k, Polls(s', rest, k.ref), CountTies(s', rest, k));
    }
  }

  lemma UsedUpBefore(s: State, a: Action, s': State, end: State, k: Key, polls: nat, ties: nat)
    requires s' == Apply(s, a) && k in s.tables.requests && Orderly(s, a, k) && UsedUp(s', end, k, polls, ties)
    ensures UsedUp(s, end, k, (if IsPoll(s, a, k.ref) then 1 else 0) + polls, (if Ties(s, a, k) then 1 else 0) + ties)
  {
    if end.tables.requests[k].status == Pending {
      OrderlyStep(s, a, k);
      ApplyKeepsOptions(s, a);
      Distribute(if IsPoll(s, a, k.ref) then 1 else 0, polls, s.options.batchSize);
    }
  }

  lemma Distribute(x: nat, y: nat, b: nat)
    ensures (x + y) * b == x * b + y * b
  {
  }

  /**
   * Bounded waiting: k has been claimed as soon as the polls make up more than the pending rows at least
   * as old as k's and the later rows given the same time, whatever else happens and however many ask later.
   */
  lemma ClaimedInTime(s: State, actions: seq<Action>, k: Key)
    requires OrderlyRun(s, actions, k)
    requires Polls(s, actions, k.ref) * s.options.batchSize > |Ahead(s.tables, k)| + CountTies(s, actions, k)
    ensures k in Run(s, actions).tables.requests && Run(s, actions).tables.requests[k].status != Pending
  {
    PollsUseUpAhead(s, actions, k);
  }

  lemma EnoughBatches(n: nat, p: nat, b: nat)
    requires b > 0 && p >= n / b + 1
    ensures p * b > n
  {
    assert n == n / b * b + n % b;
    assert p * b >= (n / b + 1) * b;
  }

  /** With no ties and n pending rows at least as old, that is the (n / batchSize + 1)-th poll. */
  lemma ClaimedByPoll(s: State, actions: seq<Action>, k: Key)
    requires ValidOptions(s.options)
    requires OrderlyRun(s, actions, k) && CountTies(s, actions, k) == 0
    requires Polls(s, actions, k.ref) >= |Ahead(s.tables, k)| / s.options.batchSize + 1
    ensures k in Run(s, actions).tables.requests && Run(s, actions).tables.requests[k].status != Pending
  {
    EnoughBatches(|Ahead(s.tables, k)|, Polls(s, actions, k.ref), s.options.batchSize);
    ClaimedInTime(s, actions, k);
  }

  // ----- A lone worker settles what it claims ----------------------------------------------

  predicate Holds(th: Thread, q: Key) {
    th.Worker? && (th.wpc.Serving? || th.wpc.Settling?) && q in th.wpc.queue
  }

  /** w holds whatever is being processed for ref. */
  ghost predicate HoldsAll(t: Tables, w: Thread, ref: Label) {
    forall q :: q in t.requests && q.ref == ref && t.requests[q].status == Processing ==> Holds(w, q)
  }

  /** tid is the only run loop of ref, and it has every request it claimed still in its batch. */
  ghost predicate InHand(s: State, tid: nat, ref: Label) {
    && tid in s.threads && s.threads[tid].Worker? && ProofRef(s.threads[tid].home) == ref
    && (forall id :: id in s.threads && id != tid && s.threads[id].Worker? ==> ProofRef(s.threads[id].home) != ref)
    && HoldsAll(s.tables, s.threads[tid], ref)
  }

  /** No second loop is started for ref, and the loop's claims and settlements are not cut off. */
  predicate Undisturbed(s: State, a: Action, tid: nat, ref: Label)
    requires tid in s.threads && s.threads[tid].Worker?
  {
    && !(a.Start? && ProofRef(a.home) == ref)
    && (a.StepWorker? && a.tid == tid ==>
          && (s.threads[tid].wpc.Selecting? && a.choice.Poll? ==> a.input.fault != Unacknowledged)
          && (s.threads[tid].wpc.Settling? ==> a.input.fault != Lost))
  }

  ghost predicate NoNewProcessing(t: Tables, t': Tables, ref: Label) {
    forall q :: q in t'.requests && q.ref == ref && t'.requests[q].status == Processing ==>
      q in t.requests && t.requests[q].status == Processing
  }

  lemma SettledClaimsNone(t: Tables, k: Key, result: Outcome<Bundle>, ref: Label)
    ensures NoNewProcessing(t, Settled(t, k, result), ref)
  {
  }

  lemma OtherSelectClaimsNone(s: State, w: Thread, input: Input, choice: Choice, ref: Label)
    requires w.Worker? && ProofRef(w.home) != ref
    ensures NoNewProcessing(s.tables, StepSelect(s, w, input, choice).0.tables, ref)
  {
  }

  lemma OtherWorkerClaimsNone(s: State, w: Thread, input: Input, choice: Choice, ref: Label)
    requires w.Worker? && ProofRef(w.home) != ref
    ensures NoNewProcessing(s.tables, StepRun(s, w, input, choice).0.tables, ref)
  {
    match w.wpc {
      case Selecting => OtherSelectClaimsNone(s, w, input, choice, ref);
      case Settling(queue, result) =>
        if queue != [] { SettledClaimsNone(s.tables, queue[0], result, ref); }
      case _ =>
    }
  }

  lemma SelectHolds(s: State, w: Thread, input: Input, choice: Choice, ref: Label)
    requires w.Worker? && w.wpc.Selecting? && ProofRef(w.home) == ref && HoldsAll(s.tables, w, ref)
    requires choice.Poll? ==> input.fault != Unacknowledged
    ensures var (s', pc) := StepSelect(s, w, input, choice); HoldsAll(s'.tables, w.(wpc := pc), ref)
  {
  }

  lemma SettleHolds(t: Tables, w: Thread, ref: Label)
    requires w.Worker? && w.wpc.Settling? && w.wpc.queue != [] && HoldsAll(t, w, ref)
    ensures HoldsAll(Settled(t, w.wpc.queue[0], w.wpc.result), w.(wpc := Next(w.wpc.queue[1..])), ref)
  {
    var queue := w.wpc.queue;
    assert queue == [queue[0]] + queue[1..];
    forall q | q in Settled(t, queue[0], w.wpc.result).requests && q.ref == ref
               && Settled(t, queue[0], w.wpc.result).requests[q].status == Processing
      ensures Holds(w.(wpc := Next(queue[1..])), q)
    {
      assert q != queue[0] && Holds(w, q);
    }
  }

  lemma OwnStepKeepsInHand(s: State, w: Thread, input: Input, choice: Choice, ref: Label)
    requires w.Worker? && ProofRef(w.home) == ref && HoldsAll(s.tables, w, ref)
    requires w.wpc.Selecting? && choice.Poll? ==> input.fault != Unacknowledged
    requires w.wpc.Settling? ==> input.fault != Lost
    ensures var (s', pc) := StepRun(s, w, input, choice); HoldsAll(s'.tables, w.(wpc := pc), ref)
  {
    match w.wpc {
      case Selecting => SelectHolds(s, w, input, choice, ref);
      case Settling(queue, result) =>
        if queue != [] { SettleHolds(s.tables, w, ref); }
      case _ =>
    }
  }

  lemma StaysInHand(s: State, a: Action, tid: nat, ref: Label)
    requires InHand(s, tid, ref) && Undisturbed(s, a, tid, ref)
    ensures InHand(Apply(s, a), tid, ref)
  {
    if a.StepWorker? && a.tid in s.threads && s.threads[a.tid].Worker? {
      if a.tid == tid {
        OwnStepKeepsInHand(s, s.threads[tid], a.input, a.choice, ref);
      } else {
        OtherWorkerClaimsNone(s, s.threads[a.tid], a.input, a.choice, ref);
      }
    }
  }

  /** So at its next poll everything it may claim is pending, as Orderly asks. */
  lemma LoneWorkerSettles(s: State, tid: nat, ref: Label, now: Time)
    requires InHand(s, tid, ref) && s.threads[tid].wpc.Selecting?
    ensures forall q :: Eligible(s.tables, ref, now, {}, q) ==> s.tables.requests[q].status == Pending
  {
  }

  // ----- So it need not be assumed ---------------------------------------------------------

  /**
   * What is asked of one step when tid is the only loop of k's owner: it is not disturbed, nobody asks
   * with an earlier time, it meets no locked rows, and neither a poll nor a clean-up comes after k expires.
   */
  ghost predicate Timely(s: State, a: Action, tid: nat, k: Key) {
    k in s.tables.requests && tid in s.threads && s.threads[tid].Worker? ==>
      && Undisturbed(s, a, tid, k.ref)
      && (IsEnqueue(s, a, k.ref) ==> a.input.now >= s.tables.requests[k].requestedAt)
      && (IsPoll(s, a, k.ref) ==> a.choice.locked == {} && a.input.now < s.tables.requests[k].expiresAt)
      && (a.StepWorker? && a.tid in s.threads && s.threads[a.tid].Worker? && s.threads[a.tid].wpc.Deleting? ==>
            s.threads[a.tid].wpc.now < s.tables.requests[k].expiresAt)
  }

  ghost predicate LoneRun(s: State, actions: seq<Action>, tid: nat, k: Key)
    decreases |actions|
  {
    actions != [] ==> Timely(s, actions[0], tid, k) && LoneRun(Apply(s, actions[0]), actions[1..], tid, k)
  }

  lemma WorkerKeepsRow(s: State, w: Thread, input: Input, choice: Choice, k: Key)
    requires w.Worker? && k in s.tables.requests
    requires w.wpc.Deleting? ==> w.wpc.now < s.tables.requests[k].expiresAt
    ensures k in StepRun(s, w, input, choice).0.tables.requests
  {
    if w.wpc.Settling? && w.wpc.queue != [] {
      assert k in Settled(s.tables, w.wpc.queue[0], w.wpc.result).requests;
    }
  }

  lemma RowStays(s: State, a: Action, tid: nat, k: Key)
    requires k in s.tables.requests && tid in s.threads && s.threads[tid].Worker? && Timely(s, a, tid, k)
    ensures k in Apply(s, a).tables.requests
  {
    if a.StepWorker? && a.tid in s.threads && s.threads[a.tid].Worker? {
      WorkerKeepsRow(s, s.threads[a.tid], a.input, a.choice, k);
    } else if a.StepClient? && a.tid in s.threads && s.threads[a.tid].Client? {
      if !s.threads[a.tid].cpc.ResolveEnqueue? {
        ClientKeepsRequests(s, s.threads[a.tid], a.input, a.wake);
      }
    }
  }

  lemma TimelyIsOrderly(s: State, a: Action, tid: nat, k: Key)
    requires k in s.tables.requests && InHand(s, tid, k.ref) && Timely(s, a, tid, k)
    ensures Orderly(s, a, k)
  {
    if IsPoll(s, a, k.ref) {
      assert a.tid == tid;
      LoneWorkerSettles(s, tid, k.ref, a.input.now);
    }
  }

  /** A lone worker's run is orderly: k stays on record and every poll finds the earlier claims settled. */
  lemma {:induction false} LoneRunIsOrderly(s: State, actions: seq<Action>, tid: nat, k: Key)
    requires k in s.tables.requests && InHand(s, tid, k.ref) && LoneRun(s, actions, tid, k)
    ensures OrderlyRun(s, actions, k)
    decreases |actions|
  {
    if actions != [] {
      TimelyIsOrderly(s, actions[0], tid, k);
      RowStays(s, actions[0], tid, k);
      StaysInHand(s, actions[0], tid, k.ref);
      LoneRunIsOrderly(Apply(s, actions[0]), actions[1..], tid, k);
    }
  }

  /** Bounded waiting with one worker, which needs nothing said about the rows its polls find. */
  lemma ClaimedByLoneWorker(s: State, actions: seq<Action>, tid: nat, k: Key)
    requires k in s.tables.requests && InHand(s, tid, k.ref) && LoneRun(s, actions, tid, k)
    requires Polls(s, actions, k.ref) * s.options.batchSize > |Ahead(s.tables, k)| + CountTies(s, actions, k)
    ensures k in Run(s, actions).tables.requests && Run(s, actions).tables.requests[k].status != Pending
  {
    LoneRunIsOrderly(s, actions, tid, k);
    ClaimedInTime(s, actions, k);
  }
}
