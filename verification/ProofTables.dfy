/**
 * The three SQL tables behind the proof cache and the effect each statement has on them.
 *
 * Every function here is one atomic statement (internal/proofcache/postgres.go). Columns that
 * no statement ever reads back (ids, created_at, updated_at, completed_at) are not modelled.
 */
module ProofTables {

  import opened Basics

  /** Nanoseconds since the epoch, as in Go's time.Time. */
  type Time = int

  /**
   * A string column that may hold a digest of a public key. SHA-256 is idealised as injective,
   * so a digest is represented by what was hashed, tagged with the label it is printed under.
   */
  datatype Label = Text(text: string) | Digest(tag: string, publicKey: string)

  function ProofRefOf(publicKey: string): Label {
    Digest("proof-", publicKey)
  }

  function BindingOf(publicKey: string): Label {
    Digest("attestation-ed25519-public-key-v1", publicKey)
  }

  /** A launcher token carries its claims; one that is no JWT, or has no positive exp, is Malformed. */
  datatype Token = Jwt(nonces: seq<Label>, exp: int, serial: nat) | Malformed(raw: string)

  datatype AttestationKey = AttestationKey(algorithm: string, publicKey: string, bindingNonce: Label)

  datatype Bundle = Bundle(
    tokenType: string,
    token: Token,
    audience: string,
    keyID: Label,
    challenge: string,
    proofRef: Label,
    expiresAt: int,
    key: AttestationKey
  )

  datatype ProofRecord = ProofRecord(
    proofRef: Label,
    challenge: string,
    tokenType: string,
    token: Token,
    audience: string,
    keyID: Label,
    algorithm: string,
    publicKey: string,
    bindingNonce: Label,
    expiresAt: Time
  )

  datatype ReplicaRow = ReplicaRow(keyID: Label, instance: string, lastHeartbeat: Time, draining: bool)

  datatype Status = Pending | Processing | Complete | Failed

  datatype RequestRow = RequestRow(
    status: Status,
    error: string,
    requestedAt: Time,
    expiresAt: Time,
    leaseUntil: Option<Time>,
    attempts: nat
  )

  /** The unique index (proof_ref, challenge_nonce) shared by the proof and request tables. */
  datatype Key = Key(ref: Label, challenge: string)

  datatype Tables = Tables(
    proofs: map<Key, ProofRecord>,
    replicas: map<Label, ReplicaRow>,
    requests: map<Key, RequestRow>
  )

  // ----- Proof bundles ---------------------------------------------------------------------

  function KeyOf(b: Bundle): Key {
    Key(b.proofRef, b.challenge)
  }

  function RecordOf(b: Bundle): ProofRecord {
    ProofRecord(b.proofRef, b.challenge, b.tokenType, b.token, b.audience, b.keyID,
                b.key.algorithm, b.key.publicKey, b.key.bindingNonce, b.expiresAt * SECOND)
  }

  function BundleOf(r: ProofRecord): Bundle {
    Bundle(r.tokenType, r.token, r.audience, r.keyID, r.challenge, r.proofRef, r.expiresAt / SECOND,
           AttestationKey(r.algorithm, r.publicKey, r.bindingNonce))
  }

  /** Storing a bundle and reading the row back loses nothing. */
  lemma RecordRoundTrip(b: Bundle)
    ensures BundleOf(RecordOf(b)) == b
  {
    assert b.expiresAt * SECOND / SECOND == b.expiresAt;
  }

  function FindProof(t: Tables, k: Key): Option<Bundle> {
    if k in t.proofs then Some(BundleOf(t.proofs[k])) else None
  }

  /** INSERT ... ON CONFLICT (proof_ref, challenge_nonce) DO NOTHING. */
  function InsertProof(t: Tables, b: Bundle): Tables {
    if KeyOf(b) in t.proofs then t else t.(proofs := t.proofs[KeyOf(b) := RecordOf(b)])
  }

  // ----- Replicas --------------------------------------------------------------------------

  function RegisterReplica(t: Tables, ref: Label, row: ReplicaRow): Tables {
    t.(replicas := t.replicas[ref := row])
  }

  /** The WHERE clause of the heartbeat and drain updates. */
  predicate RegisteredAs(t: Tables, ref: Label, instance: string) {
    ref in t.replicas && t.replicas[ref].instance == instance
  }

  /** A heartbeat also clears the draining flag. */
  function HeartbeatReplica(t: Tables, ref: Label, instance: string, now: Time): Tables {
    if RegisteredAs(t, ref, instance)
    then t.(replicas := t.replicas[ref := t.replicas[ref].(lastHeartbeat := now, draining := false)])
    else t
  }

  function SetReplicaDraining(t: Tables, ref: Label, instance: string, draining: bool): Tables {
    if RegisteredAs(t, ref, instance)
    then t.(replicas := t.replicas[ref := t.replicas[ref].(draining := draining)])
    else t
  }

  // ----- Requests --------------------------------------------------------------------------

  function EnqueueRequest(t: Tables, k: Key, requestedAt: Time, expiresAt: Time): Tables {
    if k in t.requests then t
    else t.(requests := t.requests[k := RequestRow(Pending, "", requestedAt, expiresAt, None, 0)])
  }

  /** The status and expiry part of the claim query; a NULL lease never compares below now. */
  predicate Claimable(row: RequestRow, now: Time) {
    && row.expiresAt > now
    && (|| row.status == Pending
        || (row.status == Processing && row.leaseUntil.Some? && row.leaseUntil.value < now))
  }

  /** Rows the claim query for `ref` may return, leaving out the ones another transaction has locked. */
  predicate Eligible(t: Tables, ref: Label, now: Time, locked: set<Key>, k: Key) {
    k in t.requests && k.ref == ref && k !in locked && Claimable(t.requests[k], now)
  }

  /**
   * The answers SELECT ... ORDER BY requested_at ASC LIMIT n FOR UPDATE SKIP LOCKED may give: ties
   * are broken as the database likes, and the list is short only when nothing eligible is left.
   */
  ghost predicate IsSelection(t: Tables, ref: Label, now: Time, limit: nat, locked: set<Key>, sel: seq<Key>) {
    && |sel| <= limit
    && (forall i :: 0 <= i < |sel| ==> Eligible(t, ref, now, locked, sel[i]))
    && (forall i, j :: 0 <= i < j < |sel| ==>
          sel[i] != sel[j] && t.requests[sel[i]].requestedAt <= t.requests[sel[j]].requestedAt)
    && (forall k :: Eligible(t, ref, now, locked, k) && k !in sel ==>
          |sel| == limit && forall i :: 0 <= i < |sel| ==> t.requests[sel[i]].requestedAt <= t.requests[k].requestedAt)
  }

  function ClaimedRow(row: RequestRow, leaseUntil: Time): RequestRow {
    row.(status := Processing, leaseUntil := Some(leaseUntil), attempts := row.attempts + 1)
  }

  function ClaimRequests(t: Tables, sel: seq<Key>, leaseUntil: Time): Tables {
    t.(requests := map k | k in t.requests :: if k in sel then ClaimedRow(t.requests[k], leaseUntil) else t.requests[k])
  }

  function CompleteRequest(t: Tables, k: Key): Tables {
    if k in t.requests
    then t.(requests := t.requests[k := t.requests[k].(status := Complete, error := "", leaseUntil := None)])
    else t
  }

  const MAX_ERROR := 1024

  function FailRequest(t: Tables, k: Key, message: string): Tables {
    var stored := if |message| > MAX_ERROR then message[..MAX_ERROR] else message;
    if k in t.requests
    then t.(requests := t.requests[k := t.requests[k].(status := Failed, error := stored, leaseUntil := None)])
    else t
  }

  function DeleteExpiredRequests(t: Tables, now: Time): Tables {
    t.(requests := map k | k in t.requests && t.requests[k].expiresAt > now :: t.requests[k])
  }
}
