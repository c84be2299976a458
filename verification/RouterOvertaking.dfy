/**
 * The bound on waiting is exact. Requests with equal times are claimed in whatever order the database
 * likes, so a row can be left behind by exactly as many polls as there are rows ahead of it, and rows
 * given its time later, to fill them: whenever the bound is not reached there is a run, of a lone worker
 * that nothing disturbs, at whose end the row is still waiting.
 */
module RouterOvertaking {
  import opened Basics
  import opened ProofTables
  import opened RouterMachine
  import opened RouterSafety
  import opened RouterWaiting

  // ----- The players -----------------------------------------------------------------------

  const OWNER := Replica("owner", Text("owner"), "")
  const ASKER := Replica("asker", Text("asker"), "")
  const REF: Label := ProofRef(OWNER)

  /** A challenge for the m-th request, longer than all before it. */
  function Name(m: nat): string {
    seq(m + 1, i => 'x')
  }

  const K: Key := Key(REF, Name(0))

  /** A row as it is enqueued here: everybody asks at the same moment. */
  const FRESH := RequestRow(Pending, "", 0, 1, None, 0)

  // ----- Stretches of a run ----------------------------------------------------------------

  /** The actions lead from s to s', undisturbed, with so many ties for K and so many polls for its owner. */
  ghost predicate Leg(s: State, actions: seq<Action>, s': State, ties: nat, polls: nat) {
    && Run(s, actions) == s' && LoneRun(s, actions, 0, K)
    && CountTies(s, actions, K) == ties && Polls(s, actions, REF) == polls
  }

  lemma LegNone(s: State)
    ensures Leg(s, [], s, 0, 0)
  {
  }

  lemma LegFirst(s: State, a: Action, actions: seq<Action>, s': State, ties: nat, polls: nat)
    requires Timely(s, a, 0, K) && Leg(Apply(s, a), actions, s', ties, polls)
    ensures Leg(s, [a] + actions, s', (if Ties(s, a, K) then 1 else 0) + ties,
                (if IsPoll(s, a, REF) then 1 else 0) + polls)
  {
    assert ([a] + actions)[1..] == actions;
  }

  lemma {:induction false} LegThen(s: State, xs: seq<Action>, s': State, ties: nat, polls: nat,
                                   ys: seq<Action>, s'': State, ties': nat, polls': nat)
    requires Leg(s, xs, s', ties, polls) && Leg(s', ys, s'', ties', polls')
    ensures Leg(s, xs + ys, s'', ties + ties', polls + polls')
    decreases |xs|
  {
    if xs == [] {
      assert xs + ys == ys;
    } else {
      var a, rest := xs[0], xs[1..];
      var next := Apply(s, a);
      LegThen(next, rest, s', CountTies(next, rest, K), Polls(next, rest, REF), ys, s'', ties', polls');
      LegFirst(s, a, rest + ys, s'', CountTies(next, rest, K) + ties', Polls(next, rest, REF) + polls');
      assert [a] + (rest + ys) == xs + ys;
    }
  }

  // ----- The scene -------------------------------------------------------------------------

  /** The owner is alive, its only worker works on the batch, and no proof has ever been stored. */
  ghost predicate Scene(s: State, queue: seq<Key>, m: nat) {
    && s.options == Options(1, 1, 1, s.options.batchSize) && s.options.batchSize > 0
    && s.tables.proofs == map[]
    && REF in s.tables.replicas && s.tables.replicas[REF] == ReplicaRow(OWNER.keyID, "", 0, false)
    && 0 in s.threads && s.threads[0] == Worker(OWNER, "", Next(queue))
    && (forall id :: id in s.threads ==> id <= m && (id != 0 ==> s.threads[id].Client?))
  }

  ghost predicate RowFits(q: Key, row: RequestRow, queue: seq<Key>, m: nat) {
    && q.ref == REF && !Blank(q.challenge) && |q.challenge| <= m
    && (row.status == Pending ==> row == FRESH)
    && (row.status == Processing <==> q in queue)
  }

  /** K waits, the batch is being worked on, and everybody else who waits asked at the same moment. */
  ghost predicate Waiting(t: Tables, queue: seq<Key>, m: nat) {
    && K in t.requests && t.requests[K] == FRESH
    && (forall q :: q in t.requests ==> RowFits(q, t.requests[q], queue, m))
    && (forall i :: 0 <= i < |queue| ==> queue[i] in t.requests)
    && (forall i, j :: 0 <= i < j < |queue| ==> queue[i] != queue[j])
  }

  ghost predicate Stage(s: State, queue: seq<Key>, n: nat, m: nat) {
    Scene(s, queue, m) && Waiting(s.tables, queue, m) && |Ahead(s.tables, K)| == n
  }

  lemma RefsDiffer()
    ensures ProofRef(ASKER) != REF
  {
    assert "owner"[0] != "asker"[0];
  }

  lemma StageInHand(s: State, queue: seq<Key>, n: nat, m: nat)
    requires Stage(s, queue, n, m)
    ensures InHand(s, 0, REF)
  {
    forall q | q in s.tables.requests && q.ref == REF && s.tables.requests[q].status == Processing
      ensures Holds(s.threads[0], q)
    {
      assert RowFits(q, s.tables.requests[q], queue, m);
      assert queue[0] in s.tables.requests;
      assert RowFits(queue[0], s.tables.requests[queue[0]], queue, m);
    }
  }

  // ----- Somebody asks ---------------------------------------------------------------------

  /** The m-th asker stands at pc. */
  function Asking(s: State, m: nat, pc: ClientPc): State {
    s.(threads := s.threads[m + 1 := Client(ASKER, REF, Name(m), pc)])
  }

  /** The m-th asker has enqueued its request. */
  function Arrived(s: State, m: nat): State {
    var k := Key(REF, Name(m));
    Asking(s, m, PollFind).(tables := s.tables.(requests := s.tables.requests[k := FRESH]), claims := s.claims[k := []])
  }

  function Arrival(m: nat): seq<Action> {
    var step := StepClient(m + 1, FINE, Tick);
    [Call(m + 1, ASKER, REF, Name(m)), step, step, step]
  }

  ghost predicate MayArrive(s: State, m: nat) {
    && s.options == Options(1, 1, 1, s.options.batchSize)
    && s.tables.proofs == map[] && m + 1 !in s.threads && Key(REF, Name(m)) !in s.tables.requests
    && REF in s.tables.replicas && s.tables.replicas[REF] == ReplicaRow(OWNER.keyID, "", 0, false)
  }

  lemma ArrivalSteps(s: State, m: nat)
    requires MayArrive(s, m)
    ensures var step := StepClient(m + 1, FINE, Tick);
            && Apply(s, Call(m + 1, ASKER, REF, Name(m))) == Asking(s, m, ResolveFind)
            && Apply(Asking(s, m, ResolveFind), step) == Asking(s, m, ResolveReplica)
            && Apply(Asking(s, m, ResolveReplica), step) == Asking(s, m, ResolveEnqueue(0))
            && Apply(Asking(s, m, ResolveEnqueue(0)), step) == Arrived(s, m)
  {
    RefsDiffer();
    AskingTwice(s, m, ResolveFind, ResolveReplica);
    AskingTwice(s, m, ResolveReplica, ResolveEnqueue(0));
    AskingTwice(s, m, ResolveEnqueue(0), PollFind);
  }

  lemma AskingTwice(s: State, m: nat, pc: ClientPc, pc': ClientPc)
    ensures Asking(Asking(s, m, pc), m, pc') == Asking(s, m, pc')
  {
  }

  lemma RunArrival(s: State, m: nat)
    requires MayArrive(s, m)
    ensures Run(s, Arrival(m)) == Arrived(s, m)
  {
    ArrivalSteps(s, m);
    var step := StepClient(m + 1, FINE, Tick);
    var actions := Arrival(m);
    assert actions[1..] == [step, step, step] && [step, step, step][1..] == [step, step];
    assert [step, step][1..] == [step] && [step][1..] == [];
    assert Run(Arrived(s, m), []) == Arrived(s, m);
    assert Run(Asking(s, m, ResolveEnqueue(0)), [step]) == Arrived(s, m);
    assert Run(Asking(s, m, ResolveReplica), [step, step]) == Arrived(s, m);
    assert Run(Asking(s, m, ResolveFind), [step, step, step]) == Arrived(s, m);
  }

  lemma AskingQuietly(s: State, n: nat, m: nat, pc: ClientPc)
    requires Stage(s, [], n, m) && MayArrive(s, m)
    ensures Timely(Asking(s, m, pc), StepClient(m + 1, FINE, Tick), 0, K)
    ensures !IsPoll(Asking(s, m, pc), StepClient(m + 1, FINE, Tick), REF)
    ensures Ties(Asking(s, m, pc), StepClient(m + 1, FINE, Tick), K) <==> pc.ResolveEnqueue?
  {
  }

  lemma CallingQuietly(s: State, n: nat, m: nat)
    requires Stage(s, [], n, m)
    ensures var a := Call(m + 1, ASKER, REF, Name(m)); Timely(s, a, 0, K) && !IsPoll(s, a, REF) && !Ties(s, a, K)
  {
  }

  lemma ArriveLeg(s: State, n: nat, m: nat)
    requires Stage(s, [], n, m) && MayArrive(s, m)
    ensures Leg(s, Arrival(m), Arrived(s, m), 1, 0)
  {
    ArrivalSteps(s, m);
    var step, s' := StepClient(m + 1, FINE, Tick), Arrived(s, m);
    AskingQuietly(s, n, m, ResolveEnqueue(0));
    AskingQuietly(s, n, m, ResolveReplica);
    AskingQuietly(s, n, m, ResolveFind);
    CallingQuietly(s, n, m);
    LegNone(s');
    LegFirst(Asking(s, m, ResolveEnqueue(0)), step, [], s', 0, 0);
    LegFirst(Asking(s, m, ResolveReplica), step, [step], s', 1, 0);
    LegFirst(Asking(s, m, ResolveFind), step, [step, step], s', 1, 0);
    LegFirst(s, Call(m + 1, ASKER, REF, Name(m)), [step, step, step], s', 1, 0);
    assert [step] + [] == [step] && [step] + [step] == [step, step] && [step] + [step, step] == [step, step, step];
    assert [Call(m + 1, ASKER, REF, Name(m))] + [step, step, step] == Arrival(m);
  }

  lemma StageMayArrive(s: State, n: nat, m: nat)
    requires Stage(s, [], n, m)
    ensures MayArrive(s, m)
  {
    forall q | q in s.tables.requests
      ensures |q.challenge| <= m
    {
      assert RowFits(q, s.tables.requests[q], [], m);
    }
    NameNotBlank(m);
  }

  lemma NameNotBlank(m: nat)
    ensures !Blank(Name(m)) && |Name(m)| == m + 1
  {
    assert 'x' in Name(m) by {
      assert Name(m)[0] == 'x';
    }
  }

  /** One more row that is as old as K's. */
  lemma Arrive(s: State, n: nat, m: nat)
    requires Stage(s, [], n, m)
    ensures Stage(Arrived(s, m), [], n + 1, m + 1) && Leg(s, Arrival(m), Arrived(s, m), 1, 0)
  {
    StageMayArrive(s, n, m);
    ArriveLeg(s, n, m);
    NameNotBlank(m);
    var s', q := Arrived(s, m), Key(REF, Name(m));
    assert q != K;
    assert Ahead(s'.tables, K) == Ahead(s.tables, K) + {q};
    forall r | r in s'.tables.requests
      ensures RowFits(r, s'.tables.requests[r], [], m + 1)
    {
      if r != q { assert RowFits(r, s.tables.requests[r], [], m); }
    }
  }

  lemma {:induction false} ArriveMany(s: State, n: nat, m: nat, ties: nat) returns (actions: seq<Action>, s': State)
    requires Stage(s, [], n, m)
    ensures Stage(s', [], n + ties, m + ties) && Leg(s, actions, s', ties, 0)
    decreases ties
  {
    if ties == 0 {
      LegNone(s);
      actions, s' := [], s;
    } else {
      Arrive(s, n, m);
      var rest;
      rest, s' := ArriveMany(Arrived(s, m), n + 1, m + 1, ties - 1);
      LegThen(s, Arrival(m), Arrived(s, m), 1, 0, rest, s', ties - 1, 0);
      actions := Arrival(m) + rest;
    }
  }

  // ----- The worker polls ------------------------------------------------------------------

  lemma {:induction false} Pick(keys: set<Key>, b: nat) returns (sel: seq<Key>)
    requires b <= |keys|
    ensures |sel| == b && (forall i :: 0 <= i < b ==> sel[i] in keys)
    ensures forall i, j :: 0 <= i < j < b ==> sel[i] != sel[j]
    decreases b
  {
    if b == 0 {
      sel := [];
    } else {
      var q :| q in keys;
      var rest := Pick(keys - {q}, b - 1);
      sel := [q] + rest;
    }
  }

  /** The poll takes these rows, all of them ahead of K. */
  function Polled(s: State, sel: seq<Key>): State {
    Claimed(s, sel, 0).(threads := s.threads[0 := Worker(OWNER, "", Next(sel))])
  }

  ghost predicate TakesAhead(s: State, sel: seq<Key>)
    requires K in s.tables.requests
  {
    && |sel| == s.options.batchSize && (forall i :: 0 <= i < |sel| ==> sel[i] in Ahead(s.tables, K))
    && (forall i, j :: 0 <= i < j < |sel| ==> sel[i] != sel[j])
  }

  lemma PollAllowed(s: State, n: nat, m: nat, sel: seq<Key>)
    requires Stage(s, [], n, m) && TakesAhead(s, sel)
    ensures IsSelection(s.tables, REF, 0, s.options.batchSize, {}, sel)
  {
    forall q | q in s.tables.requests
      ensures RowFits(q, s.tables.requests[q], [], m)
    {
    }
  }

  lemma PolledWaiting(t: Tables, m: nat, sel: seq<Key>)
    requires Waiting(t, [], m)
    requires forall i :: 0 <= i < |sel| ==> sel[i] in Ahead(t, K)
    requires forall i, j :: 0 <= i < j < |sel| ==> sel[i] != sel[j]
    ensures var t' := ClaimRequests(t, sel, 1);
            Waiting(t', sel, m) && |Ahead(t', K)| + |sel| == |Ahead(t, K)|
  {
    var t' := ClaimRequests(t, sel, 1);
    var taken := set q | q in sel;
    forall q | q in t'.requests
      ensures RowFits(q, t'.requests[q], sel, m)
    {
      assert RowFits(q, t.requests[q], [], m);
    }
    DistinctCount(sel);
    assert Ahead(t', K) == Ahead(t, K) - taken;
    assert taken <= Ahead(t, K);
  }

  lemma PollLeg(s: State, left: nat, m: nat, sel: seq<Key>)
    requires Stage(s, [], left + s.options.batchSize, m) && TakesAhead(s, sel)
    ensures Stage(Polled(s, sel), sel, left, m)
    ensures Leg(s, [StepWorker(0, FINE, Poll({}, sel))], Polled(s, sel), 0, 1)
  {
    var a := StepWorker(0, FINE, Poll({}, sel));
    PollAllowed(s, left + s.options.batchSize, m, sel);
    assert Apply(s, a) == Polled(s, sel);
    LegNone(Polled(s, sel));
    LegFirst(s, a, [], Polled(s, sel), 0, 0);
    assert [a] + [] == [a];
    PolledWaiting(s.tables, m, sel);
  }

  // ----- And works on its batch ------------------------------------------------------------

  /** The store is down when the worker looks for the proof, so the request at the head fails. */
  const FAILURE: Outcome<Bundle> := Err(StoreFailed)

  function Failing(s: State, queue: seq<Key>): State {
    s.(threads := s.threads[0 := Worker(OWNER, "", Settling(queue, FAILURE))])
  }

  function FailedHead(s: State, queue: seq<Key>): State
    requires queue != []
  {
    s.(tables := Settled(s.tables, queue[0], FAILURE), threads := s.threads[0 := Worker(OWNER, "", Next(queue[1..]))])
  }

  lemma SettleSteps(s: State, queue: seq<Key>, n: nat, m: nat)
    requires Stage(s, queue, n, m) && queue != []
    ensures Apply(s, StepWorker(0, DOWN, Stop)) == Failing(s, queue)
    ensures Apply(Failing(s, queue), StepWorker(0, FINE, Stop)) == FailedHead(s, queue)
  {
    assert queue[0] in s.tables.requests;
    assert RowFits(queue[0], s.tables.requests[queue[0]], queue, m);
    assert s.threads[0].wpc == Serving(queue, IssueFind);
  }

  lemma FailedWaiting(t: Tables, queue: seq<Key>, m: nat)
    requires Waiting(t, queue, m) && queue != []
    ensures var t' := Settled(t, queue[0], FAILURE);
            Waiting(t', queue[1..], m) && Ahead(t', K) == Ahead(t, K)
  {
    var t', rest := Settled(t, queue[0], FAILURE), queue[1..];
    assert queue == [queue[0]] + rest;
    assert queue[0] in t.requests && RowFits(queue[0], t.requests[queue[0]], queue, m);
    assert RowFits(K, t.requests[K], queue, m);
    forall q | q in t'.requests
      ensures RowFits(q, t'.requests[q], rest, m)
    {
      assert RowFits(q, t.requests[q], queue, m);
    }
  }

  lemma SettlingQuietly(s: State, queue: seq<Key>, n: nat, m: nat)
    requires Stage(s, queue, n, m) && queue != []
    ensures var a := StepWorker(0, DOWN, Stop); Timely(s, a, 0, K) && !IsPoll(s, a, REF) && !Ties(s, a, K)
    ensures var b, s' := StepWorker(0, FINE, Stop), Failing(s, queue);
            Timely(s', b, 0, K) && !IsPoll(s', b, REF) && !Ties(s', b, K)
  {
    assert queue[0] in s.tables.requests;
    assert RowFits(queue[0], s.tables.requests[queue[0]], queue, m);
    assert s.threads[0].wpc.Serving?;
  }

  lemma FailHead(s: State, queue: seq<Key>, n: nat, m: nat)
    requires Stage(s, queue, n, m) && queue != []
    ensures Leg(s, [StepWorker(0, DOWN, Stop), StepWorker(0, FINE, Stop)], FailedHead(s, queue), 0, 0)
  {
    var a, b := StepWorker(0, DOWN, Stop), StepWorker(0, FINE, Stop);
    SettleSteps(s, queue, n, m);
    SettlingQuietly(s, queue, n, m);
    LegNone(FailedHead(s, queue));
    LegFirst(Failing(s, queue), b, [], FailedHead(s, queue), 0, 0);
    assert [b] + [] == [b] && [a] + [b] == [a, b];
    LegFirst(s, a, [b], FailedHead(s, queue), 0, 0);
  }

  lemma FailHeadStage(s: State, queue: seq<Key>, n: nat, m: nat)
    requires Stage(s, queue, n, m) && queue != []
    ensures Stage(FailedHead(s, queue), queue[1..], n, m)
  {
    FailedWaiting(s.tables, queue, m);
  }

  lemma {:induction false} FailBatch(s: State, queue: seq<Key>, n: nat, m: nat)
    returns (actions: seq<Action>, s': State)
    requires Stage(s, queue, n, m)
    ensures Stage(s', [], n, m) && Leg(s, actions, s', 0, 0) && s'.options == s.options
    decreases |queue|
  {
    if queue == [] {
      LegNone(s);
      actions, s' := [], s;
    } else {
      var head := [StepWorker(0, DOWN, Stop), StepWorker(0, FINE, Stop)];
      FailHead(s, queue, n, m);
      FailHeadStage(s, queue, n, m);
      var rest;
      rest, s' := FailBatch(FailedHead(s, queue), queue[1..], n, m);
      LegThen(s, head, FailedHead(s, queue), 0, 0, rest, s', 0, 0);
      actions := head + rest;
    }
  }

  /** A poll that leaves K behind, and the batch it takes. */
  lemma PollRound(s: State, left: nat, m: nat) returns (actions: seq<Action>, s': State)
    requires Stage(s, [], left + s.options.batchSize, m)
    ensures Stage(s', [], left, m) && Leg(s, actions, s', 0, 1) && s'.options == s.options
  {
    var sel := Pick(Ahead(s.tables, K), s.options.batchSize);
    PollLeg(s, left, m, sel);
    var poll := [StepWorker(0, FINE, Poll({}, sel))];
    var settle;
    settle, s' := FailBatch(Polled(s, sel), sel, left, m);
    LegThen(s, poll, Polled(s, sel), 0, 1, settle, s', 0, 0);
    actions := poll + settle;
  }

  /** So many polls, each of which finds a whole batch of other rows to take. */
  lemma {:induction false} PollMany(s: State, n: nat, m: nat, polls: nat)
    returns (actions: seq<Action>, s': State, left: nat)
    requires Stage(s, [], n, m) && polls * s.options.batchSize <= n
    ensures Stage(s', [], left, m) && Leg(s, actions, s', 0, polls)
    decreases polls
  {
    if polls == 0 {
      LegNone(s);
      actions, s', left := [], s, n;
    } else {
      Distribute(1, polls - 1, s.options.batchSize);
      var poll, s1 := PollRound(s, n - s.options.batchSize, m);
      var rest;
      rest, s', left := PollMany(s1, n - s.options.batchSize, m, polls - 1);
      LegThen(s, poll, s1, 0, 1, rest, s', 0, polls - 1);
      actions := poll + rest;
    }
  }

  // ----- From the start --------------------------------------------------------------------

  function Empty(b: nat): State {
    State(Options(1, 1, 1, b), Tables(map[], map[], map[]), map[], {}, map[])
  }

  function Opened(b: nat): State {
    var s := Empty(b);
    s.(tables := s.tables.(replicas := map[REF := ReplicaRow(OWNER.keyID, "", 0, false)]),
       threads := map[0 := Worker(OWNER, "", Selecting)])
  }

  lemma Open(b: nat)
    requires b > 0
    ensures Initial(Empty(b)) && Apply(Empty(b), Start(0, OWNER, "", FINE)) == Opened(b)
    ensures MayArrive(Opened(b), 0) && Stage(Arrived(Opened(b), 0), [], 0, 1)
  {
    var s := Arrived(Opened(b), 0);
    NameNotBlank(0);
    assert s.tables.requests == map[K := FRESH];
    assert Ahead(s.tables, K) == {};
  }

  lemma FirstWaits(b: nat)
    requires b > 0
    ensures Reachable(Arrived(Opened(b), 0)) && Stage(Arrived(Opened(b), 0), [], 0, 1)
  {
    Open(b);
    RunArrival(Opened(b), 0);
    var actions := [Start(0, OWNER, "", FINE)] + Arrival(0);
    assert actions[1..] == Arrival(0);
    assert Run(Empty(b), actions) == Arrived(Opened(b), 0);
  }

  // ----- The bound is exact ----------------------------------------------------------------

  /** A run of a lone worker from a reachable state, with these numbers about the row of k. */
  ghost predicate Waits(s: State, actions: seq<Action>, tid: nat, k: Key, batch: nat, ahead: nat, ties: nat,
                        polls: nat) {
    && Reachable(s) && s.options.batchSize == batch
    && k in s.tables.requests && InHand(s, tid, k.ref) && LoneRun(s, actions, tid, k)
    && |Ahead(s.tables, k)| == ahead && CountTies(s, actions, k) == ties && Polls(s, actions, k.ref) == polls
  }

  predicate StillPending(s: State, k: Key) {
    k in s.tables.requests && s.tables.requests[k].status == Pending
  }

  /** First everybody asks, then the worker polls. */
  lemma AskAndPoll(s: State, n: nat, m: nat, ties: nat, polls: nat) returns (actions: seq<Action>, s': State)
    requires Stage(s, [], n, m) && polls * s.options.batchSize <= n + ties
    ensures Leg(s, actions, s', ties, polls) && StillPending(s', K)
  {
    var asked, s1 := ArriveMany(s, n, m, ties);
    RunKeepsOptions(s, asked);
    var polled, left;
    polled, s', left := PollMany(s1, n + ties, m + ties, polls);
    LegThen(s, asked, s1, ties, 0, polled, s', 0, polls);
    actions := asked + polled;
  }

  lemma ReachableScene(batch: nat, ahead: nat) returns (s: State)
    requires batch > 0
    ensures Reachable(s) && s.options.batchSize == batch && Stage(s, [], ahead, 1 + ahead)
  {
    FirstWaits(batch);
    var first := Arrived(Opened(batch), 0);
    var before;
    before, s := ArriveMany(first, 0, 1, ahead);
    ReachableOnwards(first, before);
    RunKeepsOptions(first, before);
  }

  /** Below the bound there is a reachable state and a run after which the row is still waiting. */
  lemma LeftBehind(batch: nat, ahead: nat, ties: nat, polls: nat) returns (s: State, actions: seq<Action>)
    requires batch > 0 && polls * batch <= ahead + ties
    ensures Waits(s, actions, 0, K, batch, ahead, ties, polls) && StillPending(Run(s, actions), K)
  {
    s := ReachableScene(batch, ahead);
    var s';
    actions, s' := AskAndPoll(s, ahead, 1 + ahead, ties, polls);
    StageInHand(s, [], ahead, 1 + ahead);
  }

  predicate HasBeenClaimed(s: State, k: Key) {
    k in s.tables.requests && s.tables.requests[k].status != Pending
  }

  /** A number of polls is sure to claim a row exactly if, in batches, it exceeds the rows ahead and the ties. */
  lemma BoundIsExact(batch: nat, ahead: nat, ties: nat, polls: nat)
    requires batch > 0
    ensures polls * batch > ahead + ties <==>
            forall s, actions, tid, k :: Waits(s, actions, tid, k, batch, ahead, ties, polls) ==>
              HasBeenClaimed(Run(s, actions), k)
  {
    if polls * batch > ahead + ties {
      forall s, actions, tid, k | Waits(s, actions, tid, k, batch, ahead, ties, polls)
        ensures HasBeenClaimed(Run(s, actions), k)
      {
        ClaimedByLoneWorker(s, actions, tid, k);
      }
    } else {
      var s, actions := LeftBehind(batch, ahead, ties, polls);
    }
  }
}
