/**
 * The store's operations (internal/proofcache/postgres.go) as methods that update the tables in
 * place, each proved against the effect ProofTables gives it.
 */
module PostgresStore {
  import opened Basics
  import opened ProofTables

  datatype ProofRequest = ProofRequest(ref: Label, challenge: string, status: Status, error: string, expiresAt: Time)

  function RequestFromRow(k: Key, row: RequestRow): ProofRequest {
    ProofRequest(k.ref, k.challenge, row.status, row.error, row.expiresAt)
  }

  class PostgresStore {
    var proofs: map<Key, ProofRecord>
    var replicas: map<Label, ReplicaRow>
    var requests: map<Key, RequestRow>

    /** Every proof row is filed under its own two key columns. */
    ghost predicate Valid()
      reads this
    {
      forall k :: k in proofs ==> KeyOf(BundleOf(proofs[k])) == k
    }

    ghost function Contents(): Tables
      reads this
    {
      Tables(proofs, replicas, requests)
    }

    constructor ()
      ensures Valid() && Contents() == Tables(map[], map[], map[])
    {
      proofs, replicas, requests := map[], map[], map[];
    }

    method Find(ref: Label, challenge: string) returns (r: Option<Bundle>)
      requires Valid()
      ensures r == FindProof(Contents(), Key(ref, challenge))
      ensures r.Some? ==> KeyOf(r.value) == Key(ref, challenge)
    {
      if Key(ref, challenge) in proofs {
        r := Some(BundleOf(proofs[Key(ref, challenge)]));
      } else {
        r := None;
      }
    }

    /** The insert-or-ignore statement of Put. */
    method Insert(b: Bundle)
      requires Valid()
      modifies this`proofs
      ensures Valid() && Contents() == InsertProof(old(Contents()), b)
      ensures var k := Key(b.proofRef, b.challenge);
              var row := ProofRecord(b.proofRef, b.challenge, b.tokenType, b.token, b.audience, b.keyID,
                                     b.key.algorithm, b.key.publicKey, b.key.bindingNonce,
                                     b.expiresAt * 1_000_000_000);
              proofs == if k in old(proofs) then old(proofs) else old(proofs)[k := row]
    {
      RecordRoundTrip(b);
      var record := RecordOf(b);
      var key := Key(record.proofRef, record.challenge);
      if key !in proofs {
        proofs := proofs[key := record];
      }
    }

    /** Whoever comes second is handed what the first one stored. */
    method Put(b: Bundle) returns (r: Option<Bundle>)
      requires Valid()
      modifies this
      ensures Valid() && Contents() == InsertProof(old(Contents()), b)
      ensures r == if KeyOf(b) in old(proofs) then Some(BundleOf(old(proofs)[KeyOf(b)])) else Some(b)
      ensures r == FindProof(Contents(), KeyOf(b))
    {
      RecordRoundTrip(b);
      Insert(b);
      r := Find(b.proofRef, b.challenge);
    }

    method RegisterReplica(ref: Label, row: ReplicaRow)
      modifies this`replicas
      ensures Contents() == ProofTables.RegisterReplica(old(Contents()), ref, row)
    {
      replicas := replicas[ref := row];
    }

    /** Reports whether a row was affected. */
    method HeartbeatReplica(ref: Label, instance: string, now: Time) returns (found: bool)
      modifies this`replicas
      ensures Contents() == ProofTables.HeartbeatReplica(old(Contents()), ref, instance, now)
      ensures found == RegisteredAs(old(Contents()), ref, instance)
      ensures found <==> ref in old(replicas) && old(replicas)[ref].instance == instance
      ensures found ==> !replicas[ref].draining && replicas[ref].lastHeartbeat == now
      ensures !found ==> replicas == old(replicas)
    {
      found := ref in replicas && replicas[ref].instance == instance;
      if found {
        replicas := replicas[ref := replicas[ref].(lastHeartbeat := now, draining := false)];
      }
    }

    method SetReplicaDraining(ref: Label, instance: string, draining: bool) returns (found: bool)
      modifies this`replicas
      ensures Contents() == ProofTables.SetReplicaDraining(old(Contents()), ref, instance, draining)
      ensures found == RegisteredAs(old(Contents()), ref, instance)
      ensures found <==> ref in old(replicas) && old(replicas)[ref].instance == instance
      ensures found ==> replicas[ref].draining == draining
      ensures !found ==> replicas == old(replicas)
    {
      found := ref in replicas && replicas[ref].instance == instance;
      if found {
        replicas := replicas[ref := replicas[ref].(draining := draining)];
      }
    }

    method FindReplica(ref: Label) returns (row: Option<ReplicaRow>)
      ensures row == if ref in replicas then Some(replicas[ref]) else None
    {
      row := if ref in replicas then Some(replicas[ref]) else None;
    }

    method FindRequest(ref: Label, challenge: string) returns (request: Option<ProofRequest>)
      ensures var k := Key(ref, challenge);
              request == if k in requests then Some(RequestFromRow(k, requests[k])) else None
    {
      var key := Key(ref, challenge);
      request := if key in requests then Some(RequestFromRow(key, requests[key])) else None;
    }

    method EnqueueRequest(request: ProofRequest, now: Time)
      modifies this`requests
      ensures Contents() == ProofTables.EnqueueRequest(old(Contents()), Key(request.ref, request.challenge), now,
                                                       request.expiresAt)
      ensures var k := Key(request.ref, request.challenge);
              var row := RequestRow(Pending, "", now, request.expiresAt, None, 0);
              requests == if k in old(requests) then old(requests) else old(requests)[k := row]
    {
      var key := Key(request.ref, request.challenge);
      if key !in requests {
        requests := requests[key := RequestRow(Pending, "", now, request.expiresAt, None, 0)];
      }
    }

    /** One of the oldest of a non-empty set of rows. */
    method Oldest(keys: set<Key>) returns (oldest: Key)
      requires keys != {} && keys <= requests.Keys
      ensures oldest in keys
      ensures forall k :: k in keys ==> requests[oldest].requestedAt <= requests[k].requestedAt
    {
      oldest :| oldest in keys;
      var rest := keys - {oldest};
      while rest != {}
        invariant oldest in keys && rest <= keys
        invariant forall k :: k in keys - rest ==> requests[oldest].requestedAt <= requests[k].requestedAt
        decreases rest
      {
        var k :| k in rest;
        if requests[k].requestedAt < requests[oldest].requestedAt {
          oldest := k;
        }
        rest := rest - {k};
      }
    }

    /** The claim query; `locked` are the rows it must skip. */
    method SelectClaimable(ref: Label, now: Time, limit: nat, locked: set<Key>) returns (sel: seq<Key>)
      ensures IsSelection(Contents(), ref, now, limit, locked, sel)
    {
      var left := set k | k in requests && k.ref == ref && k !in locked && Claimable(requests[k], now);
      sel := [];
      while |sel| < limit && left != {}
        invariant |sel| <= limit && left <= requests.Keys
        invariant forall k :: Eligible(Contents(), ref, now, locked, k) <==> k in left || k in sel
        invariant forall i :: 0 <= i < |sel| ==> sel[i] !in left
        invariant forall i, j :: 0 <= i < j < |sel| ==>
          sel[i] != sel[j] && requests[sel[i]].requestedAt <= requests[sel[j]].requestedAt
        invariant forall i, k :: 0 <= i < |sel| && k in left ==> requests[sel[i]].requestedAt <= requests[k].requestedAt
        decreases left
      {
        var k := Oldest(left);
        sel := sel + [k];
        left := left - {k};
      }
    }

    /** The loop of updates inside the claim transaction. */
    method LeaseRows(records: seq<Key>, leaseUntil: Time) returns (claimed: seq<ProofRequest>)
      requires forall i :: 0 <= i < |records| ==> records[i] in requests
      requires forall i, j :: 0 <= i < j < |records| ==> records[i] != records[j]
      modifies this`requests
      ensures Contents() == ProofTables.ClaimRequests(old(Contents()), records, leaseUntil)
      ensures |claimed| == |records|
      ensures forall i :: 0 <= i < |records| ==>
        claimed[i] == RequestFromRow(records[i], ClaimedRow(old(requests)[records[i]], leaseUntil))
    {
      claimed := [];
      for index := 0 to |records|
        invariant requests.Keys == old(requests).Keys
        invariant forall i :: 0 <= i < index ==>
                  requests[records[i]] == ClaimedRow(old(requests)[records[i]], leaseUntil)
        invariant forall k :: k in requests && (forall i :: 0 <= i < index ==> records[i] != k) ==>
                  requests[k] == old(requests)[k]
        invariant |claimed| == index
        invariant forall i :: 0 <= i < index ==>
          claimed[i] == RequestFromRow(records[i], ClaimedRow(old(requests)[records[i]], leaseUntil))
      {
        var k := records[index];
        var record := requests[k];
        record := record.(status := Processing, leaseUntil := Some(leaseUntil), attempts := record.attempts + 1);
        requests := requests[k := record];
        claimed := claimed + [RequestFromRow(k, record)];
      }
    }

    /** Claims the rows the query returned and hands them out as claimed. */
    method ClaimRequests(ref: Label, now: Time, leaseUntil: Time, limit: nat, locked: set<Key>)
      returns (claimed: seq<ProofRequest>, ghost sel: seq<Key>)
      modifies this`requests
      ensures IsSelection(old(Contents()), ref, now, limit, locked, sel)
      ensures Contents() == ProofTables.ClaimRequests(old(Contents()), sel, leaseUntil)
      ensures |claimed| == |sel| <= limit
      ensures forall i :: 0 <= i < |sel| ==>
        claimed[i] == RequestFromRow(sel[i], requests[sel[i]]) && claimed[i].status == Processing
          && claimed[i].ref == ref
      ensures requests.Keys == old(requests).Keys
      ensures forall k :: k in requests ==>
        var row := old(requests)[k];
        requests[k] == if k in sel
                       then RequestRow(Processing, row.error, row.requestedAt, row.expiresAt, Some(leaseUntil),
                                       row.attempts + 1)
                       else row
    {
      var records := SelectClaimable(ref, now, limit, locked);
      sel := records;
      forall i | 0 <= i < |records|
        ensures records[i] in requests && records[i].ref == ref
      {
        assert Eligible(Contents(), ref, now, locked, records[i]);
      }
      claimed := LeaseRows(records, leaseUntil);
    }

    method CompleteRequest(ref: Label, challenge: string)
      modifies this`requests
      ensures Contents() == ProofTables.CompleteRequest(old(Contents()), Key(ref, challenge))
      ensures requests.Keys == old(requests).Keys
      ensures forall k :: k in requests ==>
        var row := old(requests)[k];
        requests[k] == if k == Key(ref, challenge)
                       then RequestRow(Complete, "", row.requestedAt, row.expiresAt, None, row.attempts)
                       else row
    {
      var key := Key(ref, challenge);
      if key in requests {
        requests := requests[key := requests[key].(status := Complete, error := "", leaseUntil := None)];
      }
    }

    method FailRequest(ref: Label, challenge: string, message: string)
      modifies this`requests
      ensures Contents() == ProofTables.FailRequest(old(Contents()), Key(ref, challenge), message)
      ensures requests.Keys == old(requests).Keys
      ensures forall k :: k in requests && k != Key(ref, challenge) ==> requests[k] == old(requests)[k]
      ensures var k := Key(ref, challenge);
              k in requests ==>
                var row, error := old(requests)[k], requests[k].error;
                && requests[k] == RequestRow(Failed, error, row.requestedAt, row.expiresAt, None, row.attempts)
                && error <= message && (|error| == |message| <= 1024 || |error| == 1024 < |message|)
    {
      var key := Key(ref, challenge);
      var stored := message;
      if |stored| > MAX_ERROR {
        stored := stored[..MAX_ERROR];
      }
      if key in requests {
        requests := requests[key := requests[key].(status := Failed, error := stored, leaseUntil := None)];
      }
    }

    method DeleteExpiredRequests(now: Time)
      modifies this`requests
      ensures Contents() == ProofTables.DeleteExpiredRequests(old(Contents()), now)
      ensures forall k :: k in requests <==> k in old(requests) && old(requests)[k].expiresAt > now
    {
      requests := map k | k in requests && requests[k].expiresAt > now :: requests[k];
    }
  }
}
