/**
 * Cache.Issue and the methods of Router (internal/proofcache/cache.go and router.go) in the form the
 * source gives them: straight-line code and loops on the shared store, with the other threads of all
 * replicas acting between any two statements. Every execution is a run of RouterMachine, so what is
 * proved about runs holds of what these methods return.
 */
module Router {
  import opened Basics
  import opened ProofTables
  import opened RouterMachine
  import opened RouterSafety
  import opened PostgresStore

  /** The thread that calls Issue: a client of its own replica, or the worker at the head of its batch. */
  datatype Caller = AsClient(tid: nat) | AsWorker(tid: nat, instance: string, queue: seq<Key>)

  /** The thread of a caller of Issue that stands at pc. */
  function Issuing(caller: Caller, home: Replica, challenge: string, pc: IssuePc): Thread {
    match caller
    case AsClient(_) => Client(home, ProofRef(home), challenge, Normal(OwnIssue(pc)))
    case AsWorker(_, instance, queue) => Worker(home, instance, Served(queue, pc))
  }

  predicate Serves(caller: Caller, challenge: string) {
    caller.AsWorker? ==> caller.queue != [] && caller.queue[0].challenge == challenge
  }

  function Turn(caller: Caller, input: Input): Action {
    match caller
    case AsClient(tid) => StepClient(tid, input, Tick)
    case AsWorker(tid, _, _) => StepWorker(tid, input, Stop)
  }

  ghost predicate Stands(s: State, tid: nat, thread: Thread) {
    tid in s.threads && s.threads[tid] == thread
  }

  /** A turn of the caller is a step of Issue. */
  lemma TurnSteps(s: State, caller: Caller, home: Replica, challenge: string, pc: IssuePc, input: Input)
    requires Stands(s, caller.tid, Issuing(caller, home, challenge, pc))
    requires Serves(caller, challenge) && !pc.IssueDone?
    ensures var (s', pc') := StepIssue(s, home, challenge, pc, input);
            Apply(s, Turn(caller, input)) ==
              s'.(threads := s.threads[caller.tid := Issuing(caller, home, challenge, pc')])
  {
  }

  class World {
    const store: PostgresStore
    const options: Options
    ghost const origin: State
    ghost var state: State
    ghost var trace: seq<Action>

    /** The tables are those of a run from an empty store. */
    ghost predicate Valid()
      reads this, store
    {
      && store.Valid() && state.tables == store.Contents()
      && state.options == options && RunsTo(trace, state)
    }

    ghost predicate RunsTo(trace: seq<Action>, state: State) {
      Initial(origin) && origin.options == options && Run(origin, trace) == state
    }

    constructor (options: Options)
      requires ValidOptions(options)
      ensures Valid() && fresh(store) && this.options == options && state.threads == map[]
    {
      store := new PostgresStore();
      this.options := options;
      var empty := State(options, Tables(map[], map[], map[]), map[], {}, map[]);
      origin, state, trace := empty, empty, [];
    }

    /** Notes an action whose statement has just been executed. */
    ghost method Record(a: Action)
      requires store.Valid() && state.options == options && RunsTo(trace, state)
      requires Apply(state, a).tables == store.Contents()
      modifies this`state, this`trace
      ensures Valid() && state == Apply(old(state), a) && trace == old(trace) + [a]
    {
      RunAppend(origin, trace, [a]);
      assert Run(state, [a]) == Apply(state, a) by {
        assert [a][1..] == [];
      }
      ApplyKeepsOptions(state, a);
      state := Apply(state, a);
      trace := trace + [a];
    }

    /**
     * The other threads act, for as long as they like. The contract is all that is known of it: the
     * run has gone on, in any way that leaves thread tid where it stood.
     */
    method Others(ghost tid: nat)
      requires Valid() && tid in state.threads
      modifies this`state, this`trace, store
      ensures Valid() && old(trace) <= trace
      ensures Stands(state, tid, old(state.threads)[tid])
    {
    }

    /** Notes a statement of Issue. */
    ghost method RecordIssue(caller: Caller, home: Replica, challenge: string, pc: IssuePc, input: Input)
      requires store.Valid() && state.options == options && RunsTo(trace, state)
      requires Stands(state, caller.tid, Issuing(caller, home, challenge, pc))
      requires Serves(caller, challenge) && !pc.IssueDone?
      requires StepIssue(state, home, challenge, pc, input).0.tables == store.Contents()
      modifies this`state, this`trace
      ensures Valid() && old(trace) <= trace
      ensures state.minted == StepIssue(old(state), home, challenge, pc, input).0.minted
      ensures Stands(state, caller.tid,
                     Issuing(caller, home, challenge, StepIssue(old(state), home, challenge, pc, input).1))
    {
      TurnSteps(state, caller, home, challenge, pc, input);
      Record(Turn(caller, input));
    }
  }

  class Cache {
    const home: Replica
    const world: World

    constructor (home: Replica, world: World)
      ensures this.home == home && this.world == world
    {
      this.home, this.world := home, world;
    }

    /** Finds the stored proof, or asks for a token and stores the first proof there is. */
    method Issue(challenge: string, ghost caller: Caller) returns (r: Outcome<Bundle>)
      requires world.Valid() && Serves(caller, challenge)
      requires Stands(world.state, caller.tid, Issuing(caller, home, challenge, IssueStart(challenge)))
      modifies world`state, world`trace, world.store
      ensures world.Valid() && old(world.trace) <= world.trace
      ensures Stands(world.state, caller.tid, Issuing(caller, home, challenge, IssueDone(r)))
    {
      if Blank(challenge) {
        return Err(ChallengeRequired);
      }
      world.Others(caller.tid);
      var fault: Fault := *;
      var found := world.store.Find(ProofRef(home), challenge);
      world.RecordIssue(caller, home, challenge, IssueFind, Input(0, fault, Refused));
      if fault != NoFault {
        return Err(StoreFailed);
      }
      if found.Some? {
        return Ok(found.value);
      }
      world.Others(caller.tid);
      var token, _ := RequestToken(challenge, caller);
      if token.Err? {
        return Err(token.error);
      }
      r := Put(challenge, NewBundle(home, challenge, token.value), caller);
    }

    /** The token provider may refuse, or answer with any token at all. */
    method RequestToken(challenge: string, ghost caller: Caller) returns (r: Outcome<Token>, ghost at: Time)
      requires world.Valid() && Serves(caller, challenge)
      requires Stands(world.state, caller.tid, Issuing(caller, home, challenge, IssueMint))
      modifies world`state, world`trace
      ensures world.Valid() && old(world.trace) <= world.trace
      ensures r.Ok? ==> r.value.Jwt? && r.value.exp > 0 && at < r.value.exp * 1_000_000_000
      ensures r.Ok? ==>
                Mint(home, [Text(challenge), BindingOf(home.publicKey)], r.value, at) in world.state.minted
      ensures Stands(world.state, caller.tid,
                     Issuing(caller, home, challenge, match r
                                                      case Ok(token) => IssueInsert(NewBundle(home, challenge, token))
                                                      case Err(e) => IssueDone(Err(e))))
    {
      var reply: Reply := *;
      var now: Time := *;
      at := now;
      world.RecordIssue(caller, home, challenge, IssueMint, Input(now, NoFault, reply));
      match reply {
        case Refused => r := Err(ProviderFailed);
        case Token(token) =>
          if !token.Jwt? || token.exp <= 0 {
            r := Err(TokenNotJwt);
          } else if token.exp * SECOND <= now {
            r := Err(TokenExpired);
          } else {
            r := Ok(token);
          }
      }
    }

    /** PostgresStore.Put: two statements, so others may come between. */
    method Put(challenge: string, bundle: Bundle, ghost caller: Caller) returns (r: Outcome<Bundle>)
      requires world.Valid() && Serves(caller, challenge)
      requires Stands(world.state, caller.tid, Issuing(caller, home, challenge, IssueInsert(bundle)))
      modifies world`state, world`trace, world.store
      ensures world.Valid() && old(world.trace) <= world.trace
      ensures Stands(world.state, caller.tid, Issuing(caller, home, challenge, IssueDone(r)))
    {
      world.Others(caller.tid);
      var fault: Fault := *;
      if fault != Lost {
        world.store.Insert(bundle);
      }
      world.RecordIssue(caller, home, challenge, IssueInsert(bundle), Input(0, fault, Refused));
      if fault != NoFault {
        return Err(StoreFailed);
      }
      world.Others(caller.tid);
      fault := *;
      var found := world.store.Find(ProofRef(home), challenge);
      world.RecordIssue(caller, home, challenge, IssueReread, Input(0, fault, Refused));
      if fault != NoFault {
        return Err(StoreFailed);
      }
      match found {
        case Some(b) => r := Ok(b);
        case None => r := Err(ProofNotFound);
      }
    }
  }

  /** What the select of Router.run yields before its context ends. */
  datatype Event = HeartbeatTick(now: Time) | PollTick(now: Time)

  class Router {
    const cache: Cache
    const world: World
    const instanceName: string
    const options: Options

    ghost predicate Valid()
      reads world, world.store
    {
      cache.world == world && world.options == options && world.Valid()
    }

    constructor (cache: Cache, instanceName: string)
      requires cache.world.Valid()
      ensures Valid() && this.cache == cache && this.instanceName == instanceName
    {
      this.cache, this.instanceName := cache, instanceName;
      world, options := cache.world, cache.world.options;
    }

    /** Registers the replica; its worker exists only if that succeeds. */
    method Start(ghost tid: nat, now: Time) returns (started: bool)
      requires Valid() && tid !in world.state.threads
      modifies world`state, world`trace, world.store
      ensures Valid() && old(world.trace) <= world.trace
      ensures started ==> Stands(world.state, tid, Worker(cache.home, instanceName, Selecting))
      ensures started ==>
                world.store.replicas ==
                old(world.store.replicas)
                [ProofRef(cache.home) := ReplicaRow(cache.home.keyID, instanceName, now, false)]
    {
      var fault: Fault := *;
      if fault != Lost {
        world.store.RegisterReplica(ProofRef(cache.home), Registration(cache.home, instanceName, now));
      }
      world.Record(RouterMachine.Start(tid, cache.home, instanceName, Input(now, fault, Refused)));
      started := fault == NoFault;
    }

    /** Drain, called from outside while the worker may still be beating. */
    method Drain() returns (ok: bool)
      requires Valid()
      modifies world`state, world`trace, world.store
      ensures Valid() && old(world.trace) <= world.trace
      ensures ok ==> ProofRef(cache.home) in world.store.replicas && world.store.replicas[ProofRef(cache.home)].draining
      ensures world.store.proofs == old(world.store.proofs) && world.store.requests == old(world.store.requests)
    {
      var fault: Fault := *;
      var found := false;
      if fault != Lost {
        found := world.store.SetReplicaDraining(ProofRef(cache.home), instanceName, true);
      }
      world.Record(RouterMachine.Drain(cache.home, instanceName, Input(0, fault, Refused)));
      ok := found && fault == NoFault;
    }

    // ----- Resolve -------------------------------------------------------------------------

    ghost function Asking(ref: Label, challenge: string, pc: ClientPc): Thread {
      Client(cache.home, ref, challenge, pc)
    }

    /**
     * Issues the proof if it is this replica's to issue, and otherwise asks its owner and polls, at
     * most `ticks` more times, until the deadline or a cancelled context ends the wait. What it
     * answers is on record, and is the owner's own proof.
     */
    method Resolve(ref: Label, challenge: string, ticks: nat, end: Wake, ghost tid: nat) returns (r: Outcome<Bundle>)
      requires Valid() && tid !in world.state.threads && end != Tick
      modifies world`state, world`trace, world.store
      ensures Valid() && old(world.trace) <= world.trace
      ensures Stands(world.state, tid, Asking(ref, challenge, Answered(r)))
      ensures r.Ok? ==> FindProof(world.store.Contents(), Key(ref, challenge)) == Some(r.value)
      ensures r.Ok? ==> Genuine(world.state.minted, Key(ref, challenge), r.value)
    {
      world.Record(Call(tid, cache.home, ref, challenge));
      if ref == ProofRef(cache.home) {
        r := cache.Issue(challenge, AsClient(tid));
      } else {
        r := ResolveForeign(ref, challenge, ticks, end, tid);
      }
      RunKeepsSafe(world.origin, world.trace);
      assert ThreadOk(world.state, world.state.threads[tid]);
    }

    method ResolveForeign(ref: Label, challenge: string, ticks: nat, end: Wake, ghost tid: nat)
      returns (r: Outcome<Bundle>)
      requires Valid() && Stands(world.state, tid, Asking(ref, challenge, ResolveFind)) && end != Tick
      modifies world`state, world`trace, world.store
      ensures Valid() && old(world.trace) <= world.trace
      ensures Stands(world.state, tid, Asking(ref, challenge, Answered(r)))
    {
      world.Others(tid);
      var fault: Fault := *;
      var found := world.store.Find(ref, challenge);
      world.Record(StepClient(tid, Input(0, fault, Refused), Tick));
      if fault != NoFault {
        return Err(StoreFailed);
      }
      if found.Some? {
        return Ok(found.value);
      }
      var asked := CheckOwner(ref, challenge, tid);
      if asked.Err? {
        return Err(asked.error);
      }
      var queued := Enqueue(ref, challenge, asked.value, tid);
      if !queued {
        return Err(StoreFailed);
      }
      r := AwaitProof(ref, challenge, ticks, end, tid);
    }

    /** The time at which the owner was seen alive and not draining. */
    method CheckOwner(ref: Label, challenge: string, ghost tid: nat) returns (r: Outcome<Time>)
      requires Valid() && Stands(world.state, tid, Asking(ref, challenge, ResolveReplica))
      modifies world`state, world`trace, world.store
      ensures Valid() && old(world.trace) <= world.trace
      ensures Stands(world.state, tid,
                     Asking(ref, challenge, if r.Ok? then ResolveEnqueue(r.value) else Answered(Err(r.error))))
    {
      world.Others(tid);
      var fault: Fault := *;
      var now: Time := *;
      var replica := world.store.FindReplica(ref);
      world.Record(StepClient(tid, Input(now, fault, Refused), Tick));
      if fault != NoFault {
        return Err(StoreFailed);
      }
      if replica.None? {
        return Err(ProofNotFound);
      }
      if replica.value.draining || now - replica.value.lastHeartbeat > options.staleAfter {
        return Err(OwnerUnavailable);
      }
      return Ok(now);
    }

    method Enqueue(ref: Label, challenge: string, now: Time, ghost tid: nat) returns (queued: bool)
      requires Valid() && Stands(world.state, tid, Asking(ref, challenge, ResolveEnqueue(now)))
      modifies world`state, world`trace, world.store
      ensures Valid() && old(world.trace) <= world.trace
      ensures Stands(world.state, tid, Asking(ref, challenge, if queued then PollFind else Answered(Err(StoreFailed))))
    {
      world.Others(tid);
      var fault: Fault := *;
      var requestedAt: Time := *;
      var request := ProofRequest(ref, challenge, Pending, "", now + options.requestTTL);
      if fault != Lost {
        world.store.EnqueueRequest(request, requestedAt);
      }
      world.Record(StepClient(tid, Input(requestedAt, fault, Refused), Tick));
      queued := fault == NoFault;
    }

    /** The polling loop of Resolve. */
    method AwaitProof(ref: Label, challenge: string, ticks: nat, end: Wake, ghost tid: nat) returns (r: Outcome<Bundle>)
      requires Valid() && Stands(world.state, tid, Asking(ref, challenge, PollFind)) && end != Tick
      modifies world`state, world`trace, world.store
      ensures Valid() && old(world.trace) <= world.trace
      ensures Stands(world.state, tid, Asking(ref, challenge, Answered(r)))
    {
      var left := ticks;
      while true
        invariant Valid() && old(world.trace) <= world.trace
        invariant Stands(world.state, tid, Asking(ref, challenge, PollFind))
        decreases left
      {
        var outcome := Poll(ref, challenge, tid);
        if outcome.Some? {
          return outcome.value;
        }
        world.Others(tid);
        var wake := if left == 0 then end else Tick;
        world.Record(StepClient(tid, Input(0, NoFault, Refused), wake));
        match wake {
          case Deadline => return Err(RequestTimeout);
          case Cancel => return Err(Cancelled);
          case Tick => left := left - 1;
        }
      }
    }

    /** One look at the proof and request tables; no outcome means waiting on. */
    method Poll(ref: Label, challenge: string, ghost tid: nat) returns (outcome: Option<Outcome<Bundle>>)
      requires Valid() && Stands(world.state, tid, Asking(ref, challenge, PollFind))
      modifies world`state, world`trace, world.store
      ensures Valid() && old(world.trace) <= world.trace
      ensures Stands(world.state, tid,
                     Asking(ref, challenge, if outcome.Some? then Answered(outcome.value) else PollWait))
    {
      world.Others(tid);
      var fault: Fault := *;
      var found := world.store.Find(ref, challenge);
      world.Record(StepClient(tid, Input(0, fault, Refused), Tick));
      if fault != NoFault {
        return Some(Err(StoreFailed));
      }
      if found.Some? {
        return Some(Ok(found.value));
      }
      world.Others(tid);
      fault := *;
      var queued := world.store.FindRequest(ref, challenge);
      world.Record(StepClient(tid, Input(0, fault, Refused), Tick));
      if fault != NoFault {
        return Some(Err(StoreFailed));
      }
      if queued.Some? && queued.value.status == Failed {
        return Some(Err(RequestFailed(queued.value.error)));
      }
      return None;
    }

    // ----- The worker ----------------------------------------------------------------------

    ghost function Working(pc: WorkerPc): Thread {
      Worker(cache.home, instanceName, pc)
    }

    /** The events of the select one after the other, and the drain when its context ends. */
    method Run(events: seq<Event>, ghost tid: nat) returns (drained: bool)
      requires Valid() && Stands(world.state, tid, Working(Selecting))
      modifies world`state, world`trace, world.store
      ensures Valid() && old(world.trace) <= world.trace
      ensures Stands(world.state, tid, Working(Exited(drained)))
      ensures drained ==>
                ProofRef(cache.home) in world.store.replicas && world.store.replicas[ProofRef(cache.home)].draining
    {
      for i := 0 to |events|
        invariant Valid() && old(world.trace) <= world.trace
        invariant Stands(world.state, tid, Working(Selecting))
      {
        match events[i] {
          case HeartbeatTick(now) => Heartbeat(now, tid);
          case PollTick(now) => ProcessPending(now, tid);
        }
      }
      world.Others(tid);
      var fault: Fault := *;
      var found := false;
      if fault != Lost {
        found := world.store.SetReplicaDraining(ProofRef(cache.home), instanceName, true);
      }
      world.Record(StepWorker(tid, Input(0, fault, Refused), Stop));
      drained := found && fault == NoFault;
    }

    method Heartbeat(now: Time, ghost tid: nat)
      requires Valid() && Stands(world.state, tid, Working(Selecting))
      modifies world`state, world`trace, world.store
      ensures Valid() && old(world.trace) <= world.trace
      ensures Stands(world.state, tid, Working(Selecting))
    {
      world.Others(tid);
      var fault: Fault := *;
      if fault != Lost {
        var _ := world.store.HeartbeatReplica(ProofRef(cache.home), instanceName, now);
      }
      world.Record(StepWorker(tid, Input(now, fault, Refused), Beat));
      world.Others(tid);
      fault := *;
      if fault != Lost {
        world.store.DeleteExpiredRequests(now);
      }
      world.Record(StepWorker(tid, Input(now, fault, Refused), Beat));
    }

    /** Claims a batch, issues a proof for each request in it, and records how that went. */
    method ProcessPending(now: Time, ghost tid: nat)
      requires Valid() && Stands(world.state, tid, Working(Selecting))
      modifies world`state, world`trace, world.store
      ensures Valid() && old(world.trace) <= world.trace
      ensures Stands(world.state, tid, Working(Selecting))
    {
      var requests, failed, sel := Claim(now, tid);
      if failed {
        return;
      }
      for index := 0 to |requests|
        invariant Valid() && old(world.trace) <= world.trace
        invariant Stands(world.state, tid, Working(Next(sel[index..])))
      {
        var issued := cache.Issue(requests[index].challenge, AsWorker(tid, instanceName, sel[index..]));
        Settle(requests[index], issued, tid, sel[index..]);
        assert sel[index..][1..] == sel[index + 1..];
      }
    }

    method Claim(now: Time, ghost tid: nat) returns (requests: seq<ProofRequest>, failed: bool, ghost sel: seq<Key>)
      requires Valid() && Stands(world.state, tid, Working(Selecting))
      modifies world`state, world`trace, world.store
      ensures Valid() && old(world.trace) <= world.trace
      ensures |requests| == |sel| && forall i :: 0 <= i < |sel| ==> requests[i].ref == ProofRef(cache.home)
      ensures forall i :: 0 <= i < |sel| ==> Key(requests[i].ref, requests[i].challenge) == sel[i]
      ensures Stands(world.state, tid, Working(if failed then Selecting else Next(sel)))
    {
      world.Others(tid);
      var fault: Fault := *;
      var locked: set<Key> := *;
      requests, sel := [], [];
      if fault != Lost {
        requests, sel := world.store.ClaimRequests(ProofRef(cache.home), now, now + options.leaseDuration,
                                                   options.batchSize, locked);
      }
      world.Record(StepWorker(tid, Input(now, fault, Refused), RouterMachine.Poll(locked, sel)));
      failed := fault != NoFault;
    }

    method Settle(request: ProofRequest, issued: Outcome<Bundle>, ghost tid: nat, ghost queue: seq<Key>)
      requires Valid() && queue != [] && queue[0] == Key(request.ref, request.challenge)
      requires Stands(world.state, tid, Working(Settling(queue, issued)))
      modifies world`state, world`trace, world.store
      ensures Valid() && old(world.trace) <= world.trace
      ensures Stands(world.state, tid, Working(Next(queue[1..])))
    {
      world.Others(tid);
      var fault: Fault := *;
      if fault != Lost {
        match issued {
          case Err(e) => world.store.FailRequest(request.ref, request.challenge, Message(e));
          case Ok(_) => world.store.CompleteRequest(request.ref, request.challenge);
        }
      }
      world.Record(StepWorker(tid, Input(0, fault, Refused), Stop));
    }
  }
}
