/**
 * When draining is final. Every heartbeat clears the draining flag, so marking a replica as
 * draining lasts exactly if no run loop registered under the same name is still alive; that is so
 * once the last such loop has exited with its own drain write on record.
 */
module RouterDraining {
  import opened Basics
  import opened ProofTables
  import opened RouterMachine
  import opened RouterSafety

  predicate Drained(s: State, ref: Label) {
    ref in s.tables.replicas && s.tables.replicas[ref].draining
  }

  /** th is a run loop whose heartbeats reach the row of ref. */
  predicate BeatsFor(s: State, ref: Label, th: Thread) {
    && th.Worker? && !th.wpc.Exited?
    && ProofRef(th.home) == ref && RegisteredAs(s.tables, ref, th.instance)
  }

  ghost predicate Quiet(s: State, ref: Label) {
    forall tid :: tid in s.threads ==> !BeatsFor(s, ref, s.threads[tid])
  }

  predicate Starts(a: Action, ref: Label) {
    a.Start? && ProofRef(a.home) == ref
  }

  ghost predicate NoStart(actions: seq<Action>, ref: Label) {
    forall i :: 0 <= i < |actions| ==> !Starts(actions[i], ref)
  }

  // ----- Quiet and drained is kept ---------------------------------------------------------

  /** The row of ref is the same, or differs in being marked as draining. */
  predicate RowKept(t: Tables, t': Tables, ref: Label) {
    ref in t.replicas && ref in t'.replicas
    && (t'.replicas[ref] == t.replicas[ref] || t'.replicas[ref] == t.replicas[ref].(draining := true))
  }

  lemma SelectKeepsRow(s: State, ref: Label, w: Thread, input: Input, choice: Choice)
    requires w.Worker? && w.wpc.Selecting? && ref in s.tables.replicas && !BeatsFor(s, ref, w)
    ensures RowKept(s.tables, StepSelect(s, w, input, choice).0.tables, ref)
  {
  }

  lemma ApplyKeepsRow(s: State, a: Action, ref: Label)
    requires ref in s.tables.replicas && Quiet(s, ref) && !Starts(a, ref)
    ensures RowKept(s.tables, Apply(s, a).tables, ref)
  {
    match a {
      case StepWorker(tid, input, choice) =>
        if tid in s.threads && s.threads[tid].Worker? && s.threads[tid].wpc.Selecting? {
          SelectKeepsRow(s, ref, s.threads[tid], input, choice);
        }
      case StepClient(tid, input, wake) =>
      case Call(_, _, _, _) =>
      case Start(_, _, _, _) =>
      case Drain(_, _, _) =>
    }
  }

  lemma ApplyKeepsQuiet(s: State, a: Action, ref: Label)
    requires ref in s.tables.replicas && Quiet(s, ref) && !Starts(a, ref)
    ensures Quiet(Apply(s, a), ref)
  {
    ApplyKeepsRow(s, a, ref);
    var s' := Apply(s, a);
    forall tid | tid in s'.threads
      ensures !BeatsFor(s', ref, s'.threads[tid])
    {
      if tid in s.threads {
        assert !BeatsFor(s, ref, s.threads[tid]);
      }
    }
  }

  lemma {:induction false} RunKeepsDrained(s: State, actions: seq<Action>, ref: Label)
    requires Drained(s, ref) && Quiet(s, ref) && NoStart(actions, ref)
    ensures Drained(Run(s, actions), ref) && Quiet(Run(s, actions), ref)
    decreases |actions|
  {
    if actions != [] {
      assert !Starts(actions[0], ref);
      ApplyKeepsRow(s, actions[0], ref);
      ApplyKeepsQuiet(s, actions[0], ref);
      RunKeepsDrained(Apply(s, actions[0]), actions[1..], ref);
    }
  }

  // ----- A live loop undoes the mark -------------------------------------------------------

  function Rank(pc: WorkerPc): nat {
    match pc
    case Serving(queue, _) => 2 * |queue| + 1
    case Settling(queue, _) => 2 * |queue|
    case Deleting(_) => 1
    case _ => 0
  }

  /** Through failures alone, a live loop gets back to its select with the tables as they are. */
  lemma {:induction false} Unwind(s: State, tid: nat) returns (actions: seq<Action>)
    requires Safe(s) && tid in s.threads && s.threads[tid].Worker? && !s.threads[tid].wpc.Exited?
    ensures forall i :: 0 <= i < |actions| ==> actions[i].StepWorker?
    ensures var s' := Run(s, actions);
            && s'.tables == s.tables && tid in s'.threads
            && s'.threads[tid] == s.threads[tid].(wpc := Selecting)
    decreases Rank(s.threads[tid].wpc)
  {
    var w := s.threads[tid];
    if w.wpc.Selecting? {
      actions := [];
    } else {
      assert ThreadOk(s, w);
      var a := StepWorker(tid, DOWN, Stop);
      var s' := Apply(s, a);
      ApplyKeepsSafe(s, a);
      var rest := Unwind(s', tid);
      actions := [a] + rest;
      assert actions[1..] == rest;
    }
  }

  /** The mark on ref survives every continuation without a new start if and only if no loop beats for it. */
  lemma DrainFinalIff(s: State, ref: Label)
    requires Reachable(s) && Drained(s, ref)
    ensures Quiet(s, ref) <==> forall actions :: NoStart(actions, ref) ==> Drained(Run(s, actions), ref)
  {
    if Quiet(s, ref) {
      forall actions | NoStart(actions, ref)
        ensures Drained(Run(s, actions), ref)
      {
        RunKeepsDrained(s, actions, ref);
      }
    } else {
      var tid :| tid in s.threads && BeatsFor(s, ref, s.threads[tid]);
      ReachableIsSafe(s);
      var unwind := Unwind(s, tid);
      var beat := StepWorker(tid, Input(0, NoFault, Refused), Beat);
      RunAppend(s, unwind, [beat]);
      var s' := Run(s, unwind);
      assert Run(s', [beat]) == Apply(s', beat) by {
        assert [beat][1..] == [];
      }
      assert NoStart(unwind + [beat], ref);
      assert !Drained(Run(s, unwind + [beat]), ref);
    }
  }

  // ----- After the last loop has gone ------------------------------------------------------

  /** A Resolve that began after the mark: it never gets as far as asking the owner. */
  predicate LateClient(th: Thread)
    requires th.Client?
  {
    match th.cpc
    case ResolveFind => true
    case ResolveReplica => true
    case Answered(r) => r.Ok? || r.error == OwnerUnavailable || r.error == StoreFailed
    case _ => false
  }

  predicate Foreign(th: Thread, ref: Label) {
    th.Client? && th.ref == ref && ProofRef(th.home) != ref
  }

  ghost predicate LateClientsOnly(s: State, early: set<nat>, ref: Label) {
    forall tid :: tid in s.threads && tid !in early && Foreign(s.threads[tid], ref) ==> LateClient(s.threads[tid])
  }

  /** What a caller whose clock reads now must take for an owner that is gone. */
  predicate Gone(s: State, ref: Label, now: Time) {
    && ref in s.tables.replicas
    && (s.tables.replicas[ref].draining || now > s.tables.replicas[ref].lastHeartbeat + s.options.staleAfter)
  }

  lemma LateStep(s: State, c: Thread, ref: Label, input: Input, wake: Wake)
    requires Foreign(c, ref) && LateClient(c) && Gone(s, ref, input.now)
    ensures var (s', pc) := StepResolve(s, c, input, wake);
            && s' == s && LateClient(c.(cpc := pc))
            && (c.cpc.ResolveReplica? && input.fault == NoFault ==> pc == Answered(Err(OwnerUnavailable)))
  {
  }

  /** If a is a step of a late caller, the tables stay as they are. */
  ghost predicate LateStepSilent(s: State, a: Action, early: set<nat>, ref: Label) {
    a.StepClient? && a.tid in s.threads && a.tid !in early && Foreign(s.threads[a.tid], ref) ==>
      Apply(s, a).tables == s.tables
  }

  lemma ApplyKeepsLate(s: State, a: Action, early: set<nat>, ref: Label)
    requires LateClientsOnly(s, early, ref)
    requires a.StepClient? && a.tid !in early ==> Gone(s, ref, a.input.now)
    ensures LateClientsOnly(Apply(s, a), early, ref) && LateStepSilent(s, a, early, ref)
  {
    if a.StepClient? && a.tid in s.threads && a.tid !in early && Foreign(s.threads[a.tid], ref) {
      LateStep(s, s.threads[a.tid], ref, a.input, a.wake);
    }
    var s' := Apply(s, a);
    forall tid | tid in s'.threads && tid !in early && Foreign(s'.threads[tid], ref)
      ensures LateClient(s'.threads[tid])
    {
      if tid in s.threads && s'.threads[tid] == s.threads[tid] {
        assert Foreign(s.threads[tid], ref);
      }
    }
  }

  /** The row of ref is marked, or every late caller's clock is past its last heartbeat by more than staleAfter. */
  ghost predicate Closed(s: State, actions: seq<Action>, early: set<nat>, ref: Label) {
    && ref in s.tables.replicas
    && (|| s.tables.replicas[ref].draining
        || forall i :: 0 <= i < |actions| && actions[i].StepClient? && actions[i].tid !in early ==>
             actions[i].input.now > s.tables.replicas[ref].lastHeartbeat + s.options.staleAfter)
  }

  /** Nobody beats for ref or starts as ref any more, and it is closed to late callers. */
  ghost predicate Abandoned(s: State, actions: seq<Action>, early: set<nat>, ref: Label) {
    Quiet(s, ref) && NoStart(actions, ref) && Closed(s, actions, early, ref)
  }

  lemma AbandonedStays(s: State, actions: seq<Action>, early: set<nat>, ref: Label)
    requires actions != [] && Abandoned(s, actions, early, ref)
    ensures Abandoned(Apply(s, actions[0]), actions[1..], early, ref)
    ensures actions[0].StepClient? && actions[0].tid !in early ==> Gone(s, ref, actions[0].input.now)
  {
    assert !Starts(actions[0], ref);
    ApplyKeepsRow(s, actions[0], ref);
    ApplyKeepsQuiet(s, actions[0], ref);
    ApplyKeepsOptions(s, actions[0]);
  }

  lemma {:induction false} RunKeepsLate(s: State, actions: seq<Action>, early: set<nat>, ref: Label)
    requires Abandoned(s, actions, early, ref) && LateClientsOnly(s, early, ref)
    ensures LateClientsOnly(Run(s, actions), early, ref)
    decreases |actions|
  {
    if actions != [] {
      AbandonedStays(s, actions, early, ref);
      ApplyKeepsLate(s, actions[0], early, ref);
      RunKeepsLate(Apply(s, actions[0]), actions[1..], early, ref);
    }
  }

  lemma {:induction false} PrefixStays(s: State, actions: seq<Action>, i: nat, early: set<nat>, ref: Label)
    requires i < |actions|
    requires Abandoned(s, actions, early, ref) && LateClientsOnly(s, early, ref)
    ensures LateStepSilent(Run(s, actions[..i]), actions[i], early, ref)
    decreases i
  {
    AbandonedStays(s, actions, early, ref);
    ApplyKeepsLate(s, actions[0], early, ref);
    if i > 0 {
      PrefixStays(Apply(s, actions[0]), actions[1..], i - 1, early, ref);
      assert actions[..i][1..] == actions[1..][..i - 1];
    }
  }

  /** th asked another replica for a proof of ref's that is not on record, and has its answer. */
  predicate AnsweredInVain(s: State, th: Thread, ref: Label) {
    Foreign(th, ref) && th.cpc.Answered? && Key(ref, th.challenge) !in s.tables.proofs
  }

  lemma LateAnswers(s: State, early: set<nat>, ref: Label)
    requires Safe(s) && LateClientsOnly(s, early, ref)
    ensures forall id :: id in s.threads && id !in early && AnsweredInVain(s, s.threads[id], ref) ==>
              s.threads[id].cpc.result in {Err(OwnerUnavailable), Err(StoreFailed)}
  {
    forall id | id in s.threads && id !in early && AnsweredInVain(s, s.threads[id], ref)
      ensures s.threads[id].cpc.result in {Err(OwnerUnavailable), Err(StoreFailed)}
    {
      assert ThreadOk(s, s.threads[id]) && LateClient(s.threads[id]);
    }
  }

  /** No caller that is not in `early` changes the tables, on any step of the run. */
  ghost predicate LateSilent(s: State, actions: seq<Action>, early: set<nat>, ref: Label) {
    forall i :: 0 <= i < |actions| ==> LateStepSilent(Run(s, actions[..i]), actions[i], early, ref)
  }

  /** And whoever of them has an answer, with no proof on record, was told one of two things. */
  ghost predicate LateRefused(s: State, early: set<nat>, ref: Label) {
    forall id :: id in s.threads && id !in early && AnsweredInVain(s, s.threads[id], ref) ==>
      s.threads[id].cpc.result in {Err(OwnerUnavailable), Err(StoreFailed)}
  }

  lemma AbandonedRefuses(s: State, actions: seq<Action>, early: set<nat>, ref: Label)
    requires Reachable(s) && s.threads.Keys <= early && Abandoned(s, actions, early, ref)
    ensures LateSilent(s, actions, early, ref) && LateRefused(Run(s, actions), early, ref)
    ensures LateClientsOnly(Run(s, actions), early, ref)
  {
    RunKeepsLate(s, actions, early, ref);
    forall i | 0 <= i < |actions|
      ensures LateStepSilent(Run(s, actions[..i]), actions[i], early, ref)
    {
      PrefixStays(s, actions, i, early, ref);
    }
    ReachableIsSafe(s);
    RunKeepsSafe(s, actions);
    LateAnswers(Run(s, actions), early, ref);
  }

  /**
   * The owner of ref has gone without a word: no loop beats for its row and none is started. Whoever
   * comes to ask for one of its proofs, with a clock past the last heartbeat by more than staleAfter,
   * never changes the tables, and if there is no such proof on record when the answer is in, the answer
   * is that the owner is unavailable or that the store failed.
   */
  lemma StaleOwnerRefused(s: State, actions: seq<Action>, ref: Label)
    requires Reachable(s) && ref in s.tables.replicas && Quiet(s, ref) && NoStart(actions, ref)
    requires forall i :: 0 <= i < |actions| && actions[i].StepClient? && actions[i].tid !in s.threads ==>
               actions[i].input.now > s.tables.replicas[ref].lastHeartbeat + s.options.staleAfter
    ensures LateSilent(s, actions, s.threads.Keys, ref) && LateRefused(Run(s, actions), s.threads.Keys, ref)
  {
    AbandonedRefuses(s, actions, s.threads.Keys, ref);
  }

  /** The step by which the last loop of its name exits, its drain write on record. */
  ghost predicate LastExit(s: State, tid: nat, input: Input) {
    && tid in s.threads && s.threads[tid].Worker? && s.threads[tid].wpc.Selecting?
    && Apply(s, StepWorker(tid, input, Stop)).threads[tid].wpc == Exited(true)
    && forall id :: id in s.threads && id != tid ==> !BeatsFor(s, ProofRef(s.threads[tid].home), s.threads[id])
  }

  lemma LastExitQuiet(s: State, tid: nat, input: Input, ref: Label)
    requires LastExit(s, tid, input) && ref == ProofRef(s.threads[tid].home)
    ensures var s' := Apply(s, StepWorker(tid, input, Stop));
            Drained(s', ref) && Quiet(s', ref) && s'.threads.Keys == s.threads.Keys
  {
    var s' := Apply(s, StepWorker(tid, input, Stop));
    forall id | id in s'.threads
      ensures !BeatsFor(s', ref, s'.threads[id])
    {
      if id != tid { assert !BeatsFor(s, ref, s.threads[id]); }
    }
    assert s'.threads.Keys == s.threads.Keys;
  }

  /**
   * A loop exits with its drain write successful, and no other loop is registered under its name.
   * In every continuation without a new start for its reference the row stays draining. Whoever
   * comes to ask another replica for one of its proofs never changes the tables, and if there is no
   * such proof on record when the answer is in, the answer is that the owner is unavailable or that
   * the store failed.
   */
  lemma DrainingIsFinal(s: State, tid: nat, input: Input, actions: seq<Action>)
    requires Reachable(s) && LastExit(s, tid, input)
    requires NoStart(actions, ProofRef(s.threads[tid].home))
    ensures var ref := ProofRef(s.threads[tid].home);
            var s1 := Apply(s, StepWorker(tid, input, Stop));
            && Drained(Run(s1, actions), ref) && LateClientsOnly(Run(s1, actions), s.threads.Keys, ref)
            && LateSilent(s1, actions, s.threads.Keys, ref) && LateRefused(Run(s1, actions), s.threads.Keys, ref)
  {
    var ref := ProofRef(s.threads[tid].home);
    var exit := StepWorker(tid, input, Stop);
    var s1 := Apply(s, exit);
    LastExitQuiet(s, tid, input, ref);
    RunKeepsDrained(s1, actions, ref);
    ReachableNext(s, exit);
    AbandonedRefuses(s1, actions, s.threads.Keys, ref);
  }

  // ----- A drain that is not final ---------------------------------------------------------

  /** Drain called on a replica that has just started: the row is marked, and the next heartbeat clears it. */
  lemma DrainUndone(s0: State, home: Replica, instance: string) returns (actions: seq<Action>)
    requires Initial(s0)
    ensures Drained(Run(s0, actions), ProofRef(home)) && !Quiet(Run(s0, actions), ProofRef(home))
    ensures Reachable(Run(s0, actions))
    ensures !Drained(Apply(Run(s0, actions), StepWorker(0, FINE, Beat)), ProofRef(home))
  {
    var start, drain := Start(0, home, instance, FINE), Drain(home, instance, FINE);
    actions := [start, drain];
    RunTwo(s0, start, drain);
    var s := Run(s0, actions);
    assert BeatsFor(s, ProofRef(home), s.threads[0]);
  }
}
