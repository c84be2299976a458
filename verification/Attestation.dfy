/**
 * Signing a response's headers and verifying them (internal/attestation/attestation.go), for both
 * profiles. Ed25519 with its base64url encoding is one pair of functions: what the private key makes
 * of a payload, and what the public key accepts.
 */
module Attestation {
  import opened Basics
  import opened Json
  import opened GoText
  import opened Claims
  import opened SignedFields

  datatype HeaderName =
    | Algorithm
    | Profile
    | KeyID
    | Domain
    | RequestPath
    | Model
    | Fingerprint
    | Timestamp
    | Nonce
    | SignedFieldList
    | Signature
    | Challenge
    | ResponseStatus
    | ResponseContentType
    | Other(name: string)

  type Headers = map<HeaderName, seq<Text>>

  const ED25519: Text := Lift("ed25519")
  const VERSION: Text := Lift("trusted-ai-proxy-v1")
  const CONVERSATION: Text := Lift("llm-conversation-text-v1")
  const UPSTREAM: Text := Lift("llm-request-upstream-v1")

  /** http.Header.Get: the first value, or nothing. */
  function Get(h: Headers, name: HeaderName): Text {
    if name in h && h[name] != [] then h[name][0] else []
  }

  /** singleHeader. */
  function Single(h: Headers, name: HeaderName): Option<Text> {
    if name in h && |h[name]| == 1 then Some(h[name][0]) else None
  }

  datatype Observation = Observation(
    domain: Text,
    fingerprint: Text,
    path: Text,
    requestFields: seq<Field>,
    challenge: Text,
    status: int,
    contentType: Text
  )

  // ----- The model header ------------------------------------------------------------------

  datatype ModelError = ModelNotString | ModelUnsafe

  /** modelHeader: the first field called model; JSON null unmarshals to the empty string. */
  function ModelHeader(fs: seq<Field>): Result<Option<Text>, ModelError> {
    if fs == [] then Ok(None)
    else if fs[0].name != Lift("model") then ModelHeader(fs[1..])
    else
      match fs[0].value
      case Str(s) => if ValidHeaderValue(Lift(s)) then Ok(Some(Lift(s))) else Err(ModelUnsafe)
      case Null => Ok(Some([]))
      case _ => Err(ModelNotString)
  }

  // ----- Signing ---------------------------------------------------------------------------

  datatype SignError =
    | BadFields
    | BadPath
    | BadModel(model: ModelError)
    | ChallengeSyntax
    | StatusRange
    | ContentTypeInvalid
    | NoPayload(payload: PayloadError)

  function ConversationClaims(k: Casing, keyID: Text, domain: Text, fingerprint: Text, path: Text, request: seq<Field>,
                              response: seq<Field>, timestamp: int, nonce: Text): Claims {
    Claims(VERSION, CONVERSATION, keyID, k.lower(fingerprint), k.lower(domain), path, request, response,
           timestamp, nonce, [], 0, [])
  }

  function UpstreamClaims(k: Casing, keyID: Text, o: Observation, timestamp: int, nonce: Text): Claims {
    Claims(VERSION, UPSTREAM, keyID, k.lower(o.fingerprint), k.lower(o.domain), o.path, o.requestFields, [],
           timestamp, nonce, o.challenge, o.status, o.contentType)
  }

  function PayloadProblem(c: Claims): Option<SignError> {
    match CanonicalPayload(c) case Err(e) => Some(NoPayload(e)) case Ok(_) => None
  }

  /** What keeps Sign from signing c. */
  function ConversationProblem(c: Claims): Option<SignError> {
    if !FieldsValid(c.requestFields, c.responseFields, true) then Some(BadFields)
    else if !ValidHeaderValue(c.path) then Some(BadPath)
    else match ModelHeader(c.requestFields)
         case Err(e) => Some(BadModel(e))
         case Ok(_) => PayloadProblem(c)
  }

  /** What keeps SignRequestUpstream from signing c. */
  function UpstreamProblem(c: Claims): Option<SignError> {
    if !FieldsValid(c.requestFields, [], false) then Some(BadFields)
    else if !ValidChallenge(c.challenge) then Some(ChallengeSyntax)
    else if c.status < 100 || c.status > 599 then Some(StatusRange)
    else if !ValidHeaderValue(c.contentType) || c.contentType == [] then Some(ContentTypeInvalid)
    else if !ValidHeaderValue(c.path) then Some(BadPath)
    else match ModelHeader(c.requestFields)
         case Err(e) => Some(BadModel(e))
         case Ok(_) => PayloadProblem(c)
  }

  function NamedHeaders(h: Headers, c: Claims): Headers {
    h[Algorithm := [ED25519]][Profile := [c.profile]][KeyID := [c.keyID]][Domain := [c.domain]][RequestPath := [c.path]]
  }

  function ModelledHeaders(h: Headers, model: Option<Text>): Headers {
    match model
    case Some(model) => (h - {Model})[Model := [model]]
    case None => h - {Model}
  }

  /** The headers both profiles write for c, over whatever was there. */
  function CommonHeaders(h: Headers, c: Claims, list: Text, signature: Text): Headers
    requires ModelHeader(c.requestFields).Ok?
  {
    ModelledHeaders(NamedHeaders(h, c), ModelHeader(c.requestFields).value)
    [Fingerprint := [c.tls]][Timestamp := [FormatInt(c.timestamp)]][Nonce := [c.nonce]]
    [SignedFieldList := [list]][Signature := [signature]]
  }

  function ConversationHeaders(h: Headers, c: Claims, signature: Text): Headers
    requires ModelHeader(c.requestFields).Ok?
  {
    CommonHeaders(h, c, ConversationFields(c.requestFields, c.responseFields), signature)
    - {Challenge} - {ResponseStatus} - {ResponseContentType}
  }

  function UpstreamHeaders(h: Headers, c: Claims, signature: Text): Headers
    requires ModelHeader(c.requestFields).Ok?
  {
    CommonHeaders(h, c, UpstreamFields(c.requestFields), signature)
    [Challenge := [c.challenge]][ResponseStatus := [FormatInt(c.status)]][ResponseContentType := [c.contentType]]
  }

  class Header {
    var entries: Headers

    method Set(name: HeaderName, value: Text)
      modifies this
      ensures entries == old(entries)[name := [value]]
    {
      entries := entries[name := [value]];
    }

    method Del(name: HeaderName)
      modifies this
      ensures entries == old(entries) - {name}
    {
      entries := entries - {name};
    }
  }

  class Signer {
    const sign: string -> Text
    const keyID: Text
    const casing: Casing

    constructor (sign: string -> Text, keyID: Text, casing: Casing)
      ensures this.sign == sign && this.keyID == keyID && this.casing == casing
    {
      this.sign, this.keyID, this.casing := sign, keyID, casing;
    }

    /** The headers Sign and SignRequestUpstream have in common. */
    method Write(header: Header, c: Claims, model: Option<Text>, list: Text, signature: Text)
      requires ModelHeader(c.requestFields) == Ok(model)
      modifies header
      ensures header.entries == CommonHeaders(old(header.entries), c, list, signature)
    {
      header.Set(Algorithm, ED25519);
      header.Set(Profile, c.profile);
      header.Set(KeyID, c.keyID);
      header.Set(Domain, c.domain);
      header.Set(RequestPath, c.path);
      header.Del(Model);
      if model.Some? {
        header.Set(Model, model.value);
      }
      header.Set(Fingerprint, c.tls);
      header.Set(Timestamp, FormatInt(c.timestamp));
      header.Set(Nonce, c.nonce);
      header.Set(SignedFieldList, list);
      header.Set(Signature, signature);
    }

    /** `now` is in seconds; `nonce` is the encoded random nonce. */
    method Sign(header: Header, domain: Text, fingerprint: Text, path: Text, request: seq<Field>, response: seq<Field>,
                now: int, nonce: Text)
      returns (error: Option<SignError>)
      modifies header
      ensures var c := ConversationClaims(casing, keyID, domain, fingerprint, path, request, response, now, nonce);
              && error == ConversationProblem(c)
              && (error.Some? ==> header.entries == old(header.entries))
              && (error.None? ==>
                    header.entries == ConversationHeaders(old(header.entries), c, sign(CanonicalPayload(c).value)))
    {
      var ok := ValidateFields(request, response, true);
      if !ok {
        return Some(BadFields);
      }
      if !ValidHeaderValue(path) {
        return Some(BadPath);
      }
      var model := ModelHeader(request);
      if model.Err? {
        return Some(BadModel(model.error));
      }
      var claims := ConversationClaims(casing, keyID, domain, fingerprint, path, request, response, now, nonce);
      var payload := CanonicalPayload(claims);
      if payload.Err? {
        return Some(NoPayload(payload.error));
      }
      var list := ListConversation(request, response);
      Write(header, claims, model.value, list, sign(payload.value));
      header.Del(Challenge);
      header.Del(ResponseStatus);
      header.Del(ResponseContentType);
      return None;
    }

    method SignRequestUpstream(header: Header, o: Observation, now: int, nonce: Text) returns (error: Option<SignError>)
      modifies header
      ensures var c := UpstreamClaims(casing, keyID, o, now, nonce);
              && error == UpstreamProblem(c)
              && (error.Some? ==> header.entries == old(header.entries))
              && (error.None? ==>
                    header.entries == UpstreamHeaders(old(header.entries), c, sign(CanonicalPayload(c).value)))
    {
      var ok := ValidateFields(o.requestFields, [], false);
      if !ok {
        return Some(BadFields);
      }
      if !ValidChallenge(o.challenge) {
        return Some(ChallengeSyntax);
      }
      if o.status < 100 || o.status > 599 {
        return Some(StatusRange);
      }
      if !ValidHeaderValue(o.contentType) || o.contentType == [] {
        return Some(ContentTypeInvalid);
      }
      if !ValidHeaderValue(o.path) {
        return Some(BadPath);
      }
      var model := ModelHeader(o.requestFields);
      if model.Err? {
        return Some(BadModel(model.error));
      }
      var claims := UpstreamClaims(casing, keyID, o, now, nonce);
      var payload := CanonicalPayload(claims);
      if payload.Err? {
        return Some(NoPayload(payload.error));
      }
      var list := ListUpstream(o.requestFields);
      Write(header, claims, model.value, list, sign(payload.value));
      header.Set(Challenge, claims.challenge);
      header.Set(ResponseStatus, FormatInt(claims.status));
      header.Set(ResponseContentType, claims.contentType);
      return None;
    }
  }

  // ----- Verifying -------------------------------------------------------------------------

  datatype VerifyError =
    | InvalidFields
    | InvalidChallenge
    | UnsupportedAlgorithm
    | UnsupportedProfile
    | UnexpectedSignedFields
    | DomainMismatch
    | PathMismatch
    | InvalidModel
    | ModelMismatch
    | FingerprintMismatch
    | ChallengeMismatch
    | StatusMismatch
    | ContentTypeMismatch
    | InvalidTimestamp
    | OutsideWindow
    | InvalidClaims
    | BadSignature

  /** time.Time.Sub: a Duration in nanoseconds, which saturates. */
  function Age(now: int, timestamp: int): int {
    var age := now - timestamp * SECOND;
    if age < MIN_INT64 then MIN_INT64 else if age > MAX_INT64 then MAX_INT64 else age
  }

  predicate Fresh(now: int, timestamp: int, maxAge: int) {
    -30 * SECOND <= Age(now, timestamp) <= maxAge
  }

  /** The checks from the algorithm down to the fingerprint, in order. */
  function HeadProblem(k: Casing, h: Headers, profile: Text, list: Text, domain: Text, path: Text, request: seq<Field>,
                       fingerprint: Text): Option<VerifyError> {
    if Get(h, Algorithm) != ED25519 then Some(UnsupportedAlgorithm)
    else if Get(h, Profile) != profile then Some(UnsupportedProfile)
    else if Get(h, SignedFieldList) != list then Some(UnexpectedSignedFields)
    else if domain == [] || !k.fold(Get(h, Domain), domain) then Some(DomainMismatch)
    else if Single(h, RequestPath) != Some(path) then Some(PathMismatch)
    else match ModelHeader(request)
         case Err(_) => Some(InvalidModel)
         case Ok(Some(model)) =>
           if Single(h, Model) != Some(model) then Some(ModelMismatch) else FingerprintProblem(k, h, fingerprint)
         case Ok(None) =>
           if Model in h then Some(ModelMismatch) else FingerprintProblem(k, h, fingerprint)
  }

  function FingerprintProblem(k: Casing, h: Headers, fingerprint: Text): Option<VerifyError> {
    if fingerprint != [] && !k.fold(Get(h, Fingerprint), fingerprint) then Some(FingerprintMismatch) else None
  }

  /** The timestamp, the claims rebuilt from the header and the expectations, and the signature. */
  function TailProblem(accepts: (string, Text) -> bool, h: Headers, c: Claims, now: int,
                       maxAge: int): Option<VerifyError> {
    match ParseInt64(Get(h, Timestamp))
    case None => Some(InvalidTimestamp)
    case Some(timestamp) =>
      if !Fresh(now, timestamp, maxAge) then Some(OutsideWindow)
      else match CanonicalPayload(c.(timestamp := timestamp))
           case Err(_) => Some(InvalidClaims)
           case Ok(payload) => if accepts(payload, Get(h, Signature)) then None else Some(BadSignature)
  }

  /** The claims a conversation header must have been signed for; the timestamp is still to be filled in. */
  function ExpectedConversation(k: Casing, h: Headers, domain: Text, path: Text, request: seq<Field>,
                                response: seq<Field>): Claims {
    ConversationClaims(k, Get(h, KeyID), domain, Get(h, Fingerprint), path, request, response, 0, Get(h, Nonce))
  }

  function ExpectedUpstream(k: Casing, h: Headers, o: Observation): Claims {
    UpstreamClaims(k, Get(h, KeyID), o.(fingerprint := Get(h, Fingerprint)), 0, Get(h, Nonce))
  }

  /** Verify: None when the header is accepted. */
  function Verify(k: Casing, accepts: (string, Text) -> bool, h: Headers, domain: Text, fingerprint: Text, path: Text,
                  request: seq<Field>, response: seq<Field>, now: int, maxAge: int): Option<VerifyError> {
    if !FieldsValid(request, response, true) then Some(InvalidFields)
    else match HeadProblem(k, h, CONVERSATION, ConversationFields(request, response), domain, path, request,
                           fingerprint)
         case Some(e) => Some(e)
         case None => TailProblem(accepts, h, ExpectedConversation(k, h, domain, path, request, response), now, maxAge)
  }

  function ObservedProblem(h: Headers, o: Observation): Option<VerifyError> {
    if Single(h, Challenge) != Some(o.challenge) then Some(ChallengeMismatch)
    else if Single(h, ResponseStatus).None? || ParseInt64(Single(h, ResponseStatus).value) != Some(o.status)
    then Some(StatusMismatch)
    else if Single(h, ResponseContentType) != Some(o.contentType) then Some(ContentTypeMismatch)
    else None
  }

  /** VerifyRequestUpstream. */
  function VerifyRequestUpstream(k: Casing, accepts: (string, Text) -> bool, h: Headers, o: Observation, now: int,
                                 maxAge: int): Option<VerifyError> {
    if !FieldsValid(o.requestFields, [], false) then Some(InvalidFields)
    else if !ValidChallenge(o.challenge) then Some(InvalidChallenge)
    else match HeadProblem(k, h, UPSTREAM, UpstreamFields(o.requestFields), o.domain, o.path, o.requestFields,
                           o.fingerprint)
         case Some(e) => Some(e)
         case None =>
           match ObservedProblem(h, o)
           case Some(e) => Some(e)
           case None => TailProblem(accepts, h, ExpectedUpstream(k, h, o), now, maxAge)
  }

  // ----- What is signed verifies -----------------------------------------------------------

  /**
   * The window for a signature's timestamp, in nanoseconds: at most half a minute ahead of now and at most
   * maxAge behind. A difference of more than the largest int64 counts as the largest one.
   */
  predicate InWindow(now: int, timestamp: int, maxAge: int) {
    var behind := now - timestamp * 1_000_000_000;
    behind >= -30_000_000_000 && (behind <= maxAge || maxAge >= 0x7FFF_FFFF_FFFF_FFFF)
  }

  lemma FreshMeans(now: int, timestamp: int, maxAge: int)
    ensures Fresh(now, timestamp, maxAge) <==> InWindow(now, timestamp, maxAge)
  {
  }

  /** The public key accepts what the private key signed. */
  ghost predicate Matching(sign: string -> Text, accepts: (string, Text) -> bool) {
    forall payload :: accepts(payload, sign(payload))
  }

  /** h has the headers written for c. */
  predicate Carries(h: Headers, c: Claims, list: Text, signature: Text)
    requires ModelHeader(c.requestFields).Ok?
  {
    && Single(h, Algorithm) == Some(ED25519) && Single(h, Profile) == Some(c.profile)
    && Single(h, KeyID) == Some(c.keyID)
    && Single(h, Domain) == Some(c.domain) && Single(h, RequestPath) == Some(c.path)
    && Single(h, Fingerprint) == Some(c.tls)
    && Single(h, Timestamp) == Some(FormatInt(c.timestamp)) && Single(h, Nonce) == Some(c.nonce)
    && Single(h, SignedFieldList) == Some(list) && Single(h, Signature) == Some(signature)
    && match ModelHeader(c.requestFields).value
       case Some(model) => Single(h, Model) == Some(model)
       case None => Model !in h
  }

  lemma NamedCarry(h: Headers, c: Claims, model: Option<Text>)
    ensures var g := ModelledHeaders(NamedHeaders(h, c), model);
            && Single(g, Algorithm) == Some(ED25519) && Single(g, Profile) == Some(c.profile)
            && Single(g, KeyID) == Some(c.keyID)
            && Single(g, Domain) == Some(c.domain) && Single(g, RequestPath) == Some(c.path)
            && match model
               case Some(model) => Single(g, Model) == Some(model)
               case None => Model !in g
  {
  }

  lemma CommonCarries(h: Headers, c: Claims, list: Text, signature: Text)
    requires ModelHeader(c.requestFields).Ok?
    ensures Carries(CommonHeaders(h, c, list, signature), c, list, signature)
  {
    NamedCarry(h, c, ModelHeader(c.requestFields).value);
  }

  lemma RemovingObserved(g: Headers, c: Claims, list: Text, signature: Text)
    requires ModelHeader(c.requestFields).Ok? && Carries(g, c, list, signature)
    ensures Carries(g - {Challenge} - {ResponseStatus} - {ResponseContentType}, c, list, signature)
  {
  }

  lemma SettingObserved(g: Headers, c: Claims, list: Text, signature: Text, x: Text, y: Text, z: Text)
    requires ModelHeader(c.requestFields).Ok? && Carries(g, c, list, signature)
    ensures var signed := g[Challenge := [x]][ResponseStatus := [y]][ResponseContentType := [z]];
            && Carries(signed, c, list, signature)
            && Single(signed, Challenge) == Some(x) && Single(signed, ResponseStatus) == Some(y)
            && Single(signed, ResponseContentType) == Some(z)
  {
  }

  lemma ConversationCarries(h: Headers, c: Claims, signature: Text)
    requires ModelHeader(c.requestFields).Ok?
    ensures Carries(ConversationHeaders(h, c, signature), c, ConversationFields(c.requestFields, c.responseFields),
                    signature)
  {
    var list := ConversationFields(c.requestFields, c.responseFields);
    CommonCarries(h, c, list, signature);
    RemovingObserved(CommonHeaders(h, c, list, signature), c, list, signature);
  }

  lemma UpstreamCarries(h: Headers, c: Claims, signature: Text)
    requires ModelHeader(c.requestFields).Ok?
    ensures var signed := UpstreamHeaders(h, c, signature);
            && Carries(signed, c, UpstreamFields(c.requestFields), signature)
            && Single(signed, Challenge) == Some(c.challenge)
            && Single(signed, ResponseStatus) == Some(FormatInt(c.status))
            && Single(signed, ResponseContentType) == Some(c.contentType)
  {
    var list := UpstreamFields(c.requestFields);
    CommonCarries(h, c, list, signature);
    SettingObserved(CommonHeaders(h, c, list, signature), c, list, signature, c.challenge, FormatInt(c.status),
                    c.contentType);
  }

  lemma HeadAccepts(k: Casing, h: Headers, c: Claims, list: Text, signature: Text, domain: Text, expected: Text)
    requires ModelHeader(c.requestFields).Ok? && Carries(h, c, list, signature)
    ensures HeadProblem(k, h, c.profile, list, domain, c.path, c.requestFields, expected) ==
            if domain == [] || !k.fold(c.domain, domain) then Some(DomainMismatch)
            else if expected != [] && !k.fold(c.tls, expected) then Some(FingerprintMismatch)
            else None
  {
  }

  /** `expected` are c's claims but for the timestamp, which is read from the header. */
  lemma TailAccepts(accepts: (string, Text) -> bool, h: Headers, c: Claims, expected: Claims, list: Text,
                    signature: Text, now: int, maxAge: int)
    requires ModelHeader(c.requestFields).Ok? && Carries(h, c, list, signature)
    requires CanonicalPayload(c).Ok? && accepts(CanonicalPayload(c).value, signature)
    requires expected.(timestamp := c.timestamp) == c
    ensures TailProblem(accepts, h, expected, now, maxAge) ==
            if Fresh(now, c.timestamp, maxAge) then None else Some(OutsideWindow)
  {
    FormatParses(c.timestamp);
  }

  /**
   * Verify accepts what Sign wrote, into any headers, exactly when a domain is expected, the timestamp
   * is inside the window, and what was lowered folds to what is expected.
   */
  lemma SignThenVerify(k: Casing, sign: string -> Text, accepts: (string, Text) -> bool, h: Headers, keyID: Text,
                       domain: Text, fingerprint: Text, expected: Text, path: Text, request: seq<Field>,
                       response: seq<Field>, timestamp: int, nonce: Text, now: int, maxAge: int)
    requires Matching(sign, accepts) && k.lower(k.lower(fingerprint)) == k.lower(fingerprint)
    requires ConversationProblem(
               ConversationClaims(k, keyID, domain, fingerprint, path, request, response, timestamp, nonce)).None?
    ensures var c := ConversationClaims(k, keyID, domain, fingerprint, path, request, response, timestamp, nonce);
            var signed := ConversationHeaders(h, c, sign(CanonicalPayload(c).value));
            Verify(k, accepts, signed, domain, expected, path, request, response, now, maxAge).None?
            <==> && domain != [] && k.fold(k.lower(domain), domain)
                 && (expected == [] || k.fold(k.lower(fingerprint), expected)) && InWindow(now, timestamp, maxAge)
  {
    FreshMeans(now, timestamp, maxAge);
    var c := ConversationClaims(k, keyID, domain, fingerprint, path, request, response, timestamp, nonce);
    var signature := sign(CanonicalPayload(c).value);
    var list := ConversationFields(request, response);
    var signed := ConversationHeaders(h, c, signature);
    ConversationCarries(h, c, signature);
    HeadAccepts(k, signed, c, list, signature, domain, expected);
    TailAccepts(accepts, signed, c, ExpectedConversation(k, signed, domain, path, request, response), list, signature,
                now, maxAge);
  }

  /** Likewise for the request-upstream pair, the decimal status included. */
  lemma SignThenVerifyUpstream(k: Casing, sign: string -> Text, accepts: (string, Text) -> bool, h: Headers,
                               keyID: Text, o: Observation, expected: Text, timestamp: int, nonce: Text,
                               now: int, maxAge: int)
    requires Matching(sign, accepts) && k.lower(k.lower(o.fingerprint)) == k.lower(o.fingerprint)
    requires UpstreamProblem(UpstreamClaims(k, keyID, o, timestamp, nonce)).None?
    ensures var c := UpstreamClaims(k, keyID, o, timestamp, nonce);
            var signed := UpstreamHeaders(h, c, sign(CanonicalPayload(c).value));
            VerifyRequestUpstream(k, accepts, signed, o.(fingerprint := expected), now, maxAge).None?
            <==> && o.domain != [] && k.fold(k.lower(o.domain), o.domain)
                 && (expected == [] || k.fold(k.lower(o.fingerprint), expected)) && InWindow(now, timestamp, maxAge)
  {
    FreshMeans(now, timestamp, maxAge);
    var c := UpstreamClaims(k, keyID, o, timestamp, nonce);
    var signature := sign(CanonicalPayload(c).value);
    var list := UpstreamFields(o.requestFields);
    var signed := UpstreamHeaders(h, c, signature);
    var expectation := o.(fingerprint := expected);
    UpstreamCarries(h, c, signature);
    HeadAccepts(k, signed, c, list, signature, o.domain, expected);
    TailAccepts(accepts, signed, c, ExpectedUpstream(k, signed, expectation), list, signature, now, maxAge);
    FormatParses(o.status);
    assert ObservedProblem(signed, expectation).None?;
  }

  /** For an ASCII domain and fingerprint, checked against themselves, the casing conditions hold. */
  lemma AsciiConditions(k: Casing, domain: Text, fingerprint: Text, expected: Text)
    requires GoCasing(k) && Ascii(domain) && Ascii(fingerprint) && expected in {fingerprint, []}
    ensures k.lower(k.lower(fingerprint)) == k.lower(fingerprint)
    ensures k.fold(k.lower(domain), domain) && (expected == [] || k.fold(k.lower(fingerprint), expected))
  {
    AsciiFolds(k, domain);
    AsciiFolds(k, fingerprint);
  }

  // ----- What verifies was signed ----------------------------------------------------------

  /** Claims that Sign or SignRequestUpstream was willing to sign. */
  predicate Signable(c: Claims) {
    || (c.profile == CONVERSATION && ConversationProblem(c).None?)
    || (c.profile == UPSTREAM && UpstreamProblem(c).None?)
  }

  /** An ideal signature: the public key accepts nothing but the payloads of claims that were signed. */
  ghost predicate Unforgeable(accepts: (string, Text) -> bool, signed: set<Claims>) {
    && (forall c :: c in signed ==> Signable(c))
    && (forall payload, signature :: accepts(payload, signature) ==>
          exists c :: c in signed && CanonicalPayload(c) == Ok(payload))
  }

  ghost predicate FieldsBound(fs: seq<Field>, gs: seq<Field>) {
    |fs| == |gs| && forall i :: 0 <= i < |fs| ==>
         fs[i].name == gs[i].name && CanonicalJson.JsonEqual(fs[i].value, gs[i].value)
  }

  lemma NamesBound(fs: seq<Field>, gs: seq<Field>)
    requires GroupOk(fs) && GroupOk(gs) && FieldsEqual(fs, gs)
    ensures FieldsBound(fs, gs)
  {
    forall i | 0 <= i < |fs|
      ensures fs[i].name == gs[i].name
    {
      assert FieldOk(fs[i]) && FieldOk(gs[i]) && SameName(fs[i], gs[i]);
      DecodedInjective(fs[i].name, gs[i].name);
    }
  }

  lemma SignedGroups(c: Claims)
    requires Signable(c)
    ensures GroupOk(c.requestFields) && (c.profile == CONVERSATION ==> GroupOk(c.responseFields))
  {
    ProfilesDiffer();
  }

  lemma ProfilesDiffer()
    ensures CONVERSATION != UPSTREAM
  {
    assert |CONVERSATION| == 24 && |UPSTREAM| == 23;
  }

  /** An accepted signature leads back to signed claims that no payload tells from the expected ones. */
  lemma TailBinds(accepts: (string, Text) -> bool, signed: set<Claims>, h: Headers, c: Claims, now: int, maxAge: int)
    returns (d: Claims)
    requires Unforgeable(accepts, signed) && TailProblem(accepts, h, c, now, maxAge).None?
    ensures ParseInt64(Get(h, Timestamp)).Some?
    ensures d in signed && SameClaims(d, c.(timestamp := ParseInt64(Get(h, Timestamp)).value))
  {
    var e := c.(timestamp := ParseInt64(Get(h, Timestamp)).value);
    var payload := CanonicalPayload(e).value;
    assert accepts(payload, Get(h, Signature));
    d :| d in signed && CanonicalPayload(d) == Ok(payload);
    PayloadIff(d, e);
  }

  /** The header is there once, with this value. */
  predicate Only(h: Headers, name: HeaderName, value: Text) {
    name in h && h[name] == [value]
  }

  /** The header's first value is this one; a header that is not there counts as empty. */
  predicate First(h: Headers, name: HeaderName, value: Text) {
    if name in h && |h[name]| > 0 then h[name][0] == value else value == []
  }

  lemma HeadersMean(h: Headers, name: HeaderName, value: Text)
    ensures Single(h, name) == Some(value) <==> Only(h, name, value)
    ensures Get(h, name) == value <==> First(h, name, value)
  {
  }

  /** The model header is the one these fields call for. */
  predicate ShowsModel(h: Headers, fs: seq<Field>) {
    match ModelHeader(fs)
    case Ok(Some(model)) => Only(h, Model, model)
    case Ok(None) => Model !in h
    case Err(_) => false
  }

  /** What h shows its reader is what c says. */
  predicate Shows(k: Casing, h: Headers, c: Claims, list: Text) {
    && First(h, Algorithm, ED25519) && First(h, Profile, c.profile) && First(h, KeyID, c.keyID)
    && Only(h, RequestPath, c.path) && ShowsModel(h, c.requestFields)
    && k.lower(Get(h, Fingerprint)) == c.tls && ParseInt64(Get(h, Timestamp)) == Some(c.timestamp)
    && First(h, Nonce, c.nonce) && First(h, SignedFieldList, list)
  }

  lemma HeadBinds(k: Casing, h: Headers, profile: Text, list: Text, domain: Text, path: Text, request: seq<Field>,
                  fingerprint: Text)
    requires HeadProblem(k, h, profile, list, domain, path, request, fingerprint).None?
    ensures Get(h, Algorithm) == ED25519 && Get(h, Profile) == profile && Get(h, SignedFieldList) == list
    ensures domain != [] && k.fold(Get(h, Domain), domain) && Single(h, RequestPath) == Some(path)
    ensures ShowsModel(h, request)
    ensures fingerprint != [] ==> k.fold(Get(h, Fingerprint), fingerprint)
  {
  }

  /** The status header is there once, and is read as this number. */
  ghost predicate ShowsStatus(h: Headers, status: int) {
    exists text :: Only(h, ResponseStatus, text) && ParseInt64(text) == Some(status)
  }

  lemma ObservedMeans(h: Headers, o: Observation)
    ensures ObservedProblem(h, o).None? <==>
            && Only(h, Challenge, o.challenge) && Only(h, ResponseContentType, o.contentType)
            && ShowsStatus(h, o.status)
  {
    if Single(h, ResponseStatus).Some? {
      assert Only(h, ResponseStatus, Single(h, ResponseStatus).value);
    }
  }

  lemma StringBound(v: Json, w: Json)
    requires CanonicalJson.JsonEqual(v, w)
    ensures v.Str? || w.Str? || v.Null? || w.Null? ==> v == w
  {
  }

  /** Fields that are bound to each other call for the same model header. */
  lemma {:induction false} ModelBound(fs: seq<Field>, gs: seq<Field>)
    requires FieldsBound(fs, gs)
    ensures ModelHeader(fs) == ModelHeader(gs)
  {
    if fs != [] {
      assert fs[0].name == gs[0].name;
      StringBound(fs[0].value, gs[0].value);
      assert forall i :: 0 <= i < |fs[1..]| ==> fs[1..][i] == fs[i + 1] && gs[1..][i] == gs[i + 1];
      ModelBound(fs[1..], gs[1..]);
    }
  }

  lemma ListedBound(prefix: string, fs: seq<Field>, gs: seq<Field>)
    requires FieldsBound(fs, gs)
    ensures Listed(prefix, fs) == Listed(prefix, gs)
  {
  }

  /**
   * Signature binding, conversations: what Verify accepts, the signer signed, under this profile, for
   * this path, time stamp and nonce, the same fields in the same order with JSON-equal values, and the
   * domain and fingerprint in lower case. And what the headers show is what was signed.
   */
  lemma VerifyBinds(k: Casing, accepts: (string, Text) -> bool, signed: set<Claims>, h: Headers, domain: Text,
                    fingerprint: Text, path: Text,
                    request: seq<Field>, response: seq<Field>, now: int, maxAge: int) returns (c: Claims)
    requires Unforgeable(accepts, signed)
    requires Verify(k, accepts, h, domain, fingerprint, path, request, response, now, maxAge).None?
    ensures c in signed && c.profile == CONVERSATION == Get(h, Profile)
    ensures c.path == path && Some(c.timestamp) == ParseInt64(Get(h, Timestamp)) && c.nonce == Get(h, Nonce)
            && c.keyID == Get(h, KeyID)
    ensures InWindow(now, c.timestamp, maxAge)
    ensures FieldsBound(c.requestFields, request) && FieldsBound(c.responseFields, response)
    ensures c.domain == k.lower(domain) && domain != [] && k.fold(Get(h, Domain), domain)
    ensures c.tls == k.lower(Get(h, Fingerprint)) && (fingerprint != [] ==> k.fold(Get(h, Fingerprint), fingerprint))
    ensures c.challenge == [] && c.status == 0
    ensures Shows(k, h, c, ConversationFields(c.requestFields, c.responseFields))
  {
    c := TailBinds(accepts, signed, h, ExpectedConversation(k, h, domain, path, request, response), now, maxAge);
    FreshMeans(now, c.timestamp, maxAge);
    HeadBinds(k, h, CONVERSATION, ConversationFields(request, response), domain, path, request, fingerprint);
    SignedGroups(c);
    NamesBound(c.requestFields, request);
    NamesBound(c.responseFields, response);
    ModelBound(c.requestFields, request);
    ListedBound("request.body.", c.requestFields, request);
    ListedBound("response.body.", c.responseFields, response);
  }

  /**
   * Signature binding, request-upstream: also the challenge, the status and the content type are the
   * signed ones, the content type up to stray bytes.
   */
  lemma VerifyUpstreamBinds(k: Casing, accepts: (string, Text) -> bool, signed: set<Claims>, h: Headers,
                            o: Observation, now: int, maxAge: int)
    returns (c: Claims)
    requires Unforgeable(accepts, signed)
    requires VerifyRequestUpstream(k, accepts, h, o, now, maxAge).None?
    ensures c in signed && c.profile == UPSTREAM == Get(h, Profile)
    ensures c.path == o.path && Some(c.timestamp) == ParseInt64(Get(h, Timestamp)) && c.nonce == Get(h, Nonce)
            && c.keyID == Get(h, KeyID)
    ensures InWindow(now, c.timestamp, maxAge)
    ensures FieldsBound(c.requestFields, o.requestFields) && c.responseFields == []
    ensures c.domain == k.lower(o.domain) && o.domain != [] && k.fold(Get(h, Domain), o.domain)
    ensures c.tls == k.lower(Get(h, Fingerprint))
    ensures o.fingerprint != [] ==> k.fold(Get(h, Fingerprint), o.fingerprint)
    ensures c.challenge == o.challenge && c.status == o.status
    ensures Decoded(c.contentType) == Decoded(o.contentType)
    ensures ValidUtf8(c.contentType) && ValidUtf8(o.contentType) ==> c.contentType == o.contentType
    ensures Shows(k, h, c, UpstreamFields(c.requestFields))
    ensures Only(h, Challenge, c.challenge) && Only(h, ResponseContentType, o.contentType)
    ensures ShowsStatus(h, c.status)
  {
    c := TailBinds(accepts, signed, h, ExpectedUpstream(k, h, o), now, maxAge);
    FreshMeans(now, c.timestamp, maxAge);
    HeadBinds(k, h, UPSTREAM, UpstreamFields(o.requestFields), o.domain, o.path, o.requestFields, o.fingerprint);
    SignedGroups(c);
    NamesBound(c.requestFields, o.requestFields);
    ModelBound(c.requestFields, o.requestFields);
    ListedBound("request.body.", c.requestFields, o.requestFields);
    ObservedMeans(h, o);
    if ValidUtf8(c.contentType) && ValidUtf8(o.contentType) {
      DecodedInjective(c.contentType, o.contentType);
    }
  }

  /** The headers name this profile, list and path, and fit the expected domain, fingerprint and request. */
  predicate HeadFits(k: Casing, h: Headers, profile: Text, list: Text, domain: Text, path: Text, request: seq<Field>,
                     fingerprint: Text) {
    && First(h, Algorithm, ED25519) && First(h, Profile, profile) && First(h, SignedFieldList, list)
    && domain != [] && k.fold(Get(h, Domain), domain)
    && Only(h, RequestPath, path) && ShowsModel(h, request)
    && (fingerprint == [] || k.fold(Get(h, Fingerprint), fingerprint))
  }

  /** A timestamp in the window, with which the claims have a payload that the signature is good for. */
  ghost predicate Signed(accepts: (string, Text) -> bool, h: Headers, c: Claims, now: int, maxAge: int) {
    exists timestamp ::
      && ParseInt64(Get(h, Timestamp)) == Some(timestamp) && InWindow(now, timestamp, maxAge)
      && CanonicalPayload(c.(timestamp := timestamp)).Ok?
      && accepts(CanonicalPayload(c.(timestamp := timestamp)).value, Get(h, Signature))
  }

  lemma HeadMeans(k: Casing, h: Headers, profile: Text, list: Text, domain: Text, path: Text, request: seq<Field>,
                  fingerprint: Text)
    ensures HeadProblem(k, h, profile, list, domain, path, request, fingerprint).None? <==>
            HeadFits(k, h, profile, list, domain, path, request, fingerprint)
  {
  }

  lemma TailMeans(accepts: (string, Text) -> bool, h: Headers, c: Claims, now: int, maxAge: int)
    ensures TailProblem(accepts, h, c, now, maxAge).None? <==> Signed(accepts, h, c, now, maxAge)
  {
    if ParseInt64(Get(h, Timestamp)).Some? {
      FreshMeans(now, ParseInt64(Get(h, Timestamp)).value, maxAge);
    }
  }

  /** What Verify accepts: no more than the documented checks ask, and no less. */
  lemma VerifyMeans(k: Casing, accepts: (string, Text) -> bool, h: Headers, domain: Text, fingerprint: Text, path: Text,
                    request: seq<Field>, response: seq<Field>, now: int, maxAge: int)
    ensures Verify(k, accepts, h, domain, fingerprint, path, request, response, now, maxAge).None? <==>
            && request != [] && response != [] && GroupOk(request) && GroupOk(response)
            && HeadFits(k, h, CONVERSATION, ConversationFields(request, response), domain, path, request, fingerprint)
            && Signed(accepts, h, Claims(VERSION, CONVERSATION, Get(h, KeyID), k.lower(Get(h, Fingerprint)),
                                         k.lower(domain), path, request, response, 0, Get(h, Nonce), [], 0, []),
                      now, maxAge)
  {
    HeadMeans(k, h, CONVERSATION, ConversationFields(request, response), domain, path, request, fingerprint);
    TailMeans(accepts, h, ExpectedConversation(k, h, domain, path, request, response), now, maxAge);
  }

  /** Likewise for the request-upstream pair; the status is compared as a number. */
  lemma VerifyUpstreamMeans(k: Casing, accepts: (string, Text) -> bool, h: Headers, o: Observation, now: int,
                            maxAge: int)
    ensures VerifyRequestUpstream(k, accepts, h, o, now, maxAge).None? <==>
            && o.requestFields != [] && GroupOk(o.requestFields) && ValidChallenge(o.challenge)
            && HeadFits(k, h, UPSTREAM, UpstreamFields(o.requestFields), o.domain, o.path, o.requestFields,
                        o.fingerprint)
            && Only(h, Challenge, o.challenge) && Only(h, ResponseContentType, o.contentType)
            && ShowsStatus(h, o.status)
            && Signed(accepts, h,
                      Claims(VERSION, UPSTREAM, Get(h, KeyID), k.lower(Get(h, Fingerprint)), k.lower(o.domain), o.path,
                             o.requestFields, [], 0, Get(h, Nonce), o.challenge, o.status, o.contentType),
                      now, maxAge)
  {
    HeadMeans(k, h, UPSTREAM, UpstreamFields(o.requestFields), o.domain, o.path, o.requestFields, o.fingerprint);
    ObservedMeans(h, o);
    TailMeans(accepts, h, ExpectedUpstream(k, h, o), now, maxAge);
  }

  /** Whatever the headers are signed with, bad fields and then a malformed challenge are what is complained of. */
  lemma MalformedRefused(k: Casing, accepts: (string, Text) -> bool, h: Headers, o: Observation, now: int, maxAge: int)
    ensures var problem := VerifyRequestUpstream(k, accepts, h, o, now, maxAge);
            && (problem == Some(InvalidFields) <==> o.requestFields == [] || !GroupOk(o.requestFields))
            && (problem == Some(InvalidChallenge) <==>
                  && o.requestFields != [] && GroupOk(o.requestFields)
                  && !(10 <= |o.challenge| <= 74
                       && Ascii(o.challenge)
                       && forall g :: g in o.challenge ==>
                            (g.c in "-_" || '0' <= g.c <= '9' || 'A' <= g.c <= 'Z' || 'a' <= g.c <= 'z')))
  {
    ChallengeMeans(o.challenge);
  }

  /** Where header and expectation are ASCII, folding together is having one lower case, which is the signed one. */
  lemma AsciiShown(k: Casing, shown: Text, expected: Text)
    requires GoCasing(k) && Ascii(shown) && Ascii(expected)
    ensures k.fold(shown, expected) <==> k.lower(shown) == k.lower(expected)
  {
  }

  // ----- What the header says of the request -----------------------------------------------

  /** The model header is what the first field called model holds, if that is a header-safe string or null. */
  lemma {:induction false} ModelHeaderMeans(fs: seq<Field>, i: nat)
    requires i < |fs| && fs[i].name == Lift("model") && forall j :: 0 <= j < i ==> fs[j].name != Lift("model")
    ensures match fs[i].value
            case Str(s) => ModelHeader(fs) == if ValidHeaderValue(Lift(s)) then Ok(Some(Lift(s))) else Err(ModelUnsafe)
            case Null => ModelHeader(fs) == Ok(Some([]))
            case _ => ModelHeader(fs) == Err(ModelNotString)
  {
    if i > 0 {
      assert fs[0].name != Lift("model");
      ModelHeaderMeans(fs[1..], i - 1);
    }
  }

  /** Without such a field there is no model header. */
  lemma {:induction false} NoModelHeader(fs: seq<Field>)
    requires forall f :: f in fs ==> f.name != Lift("model")
    ensures ModelHeader(fs) == Ok(None)
  {
    if fs != [] {
      assert fs[0] in fs;
      NoModelHeader(fs[1..]);
    }
  }

  /** A header value that keeps to its line. */
  predicate OneLine(t: Text) {
    Rune('\r') !in t && Rune('\n') !in t
  }

  lemma SafeIsOneLine(t: Text)
    requires ValidHeaderValue(t)
    ensures OneLine(t)
  {
  }

  lemma {:induction false} ModelOneLine(fs: seq<Field>)
    ensures match ModelHeader(fs) case Ok(Some(model)) => OneLine(model) case _ => true
  {
    if fs != [] && fs[0].name != Lift("model") {
      ModelOneLine(fs[1..]);
    }
  }

  lemma {:induction false} JoinOneLine(parts: seq<Text>)
    requires forall i :: 0 <= i < |parts| ==> OneLine(parts[i])
    ensures OneLine(SignedFields.Join(parts))
  {
    if |parts| > 1 {
      JoinOneLine(parts[1..]);
    }
  }

  lemma ListedOneLine(prefix: string, fs: seq<Field>)
    requires GroupOk(fs) && '\r' !in prefix && '\n' !in prefix
    ensures forall i :: 0 <= i < |fs| ==> OneLine(Listed(prefix, fs)[i])
  {
    forall i | 0 <= i < |fs|
      ensures OneLine(Listed(prefix, fs)[i])
    {
      assert FieldOk(fs[i]);
    }
  }

  lemma ConstantsOneLine()
    ensures forall i :: 0 <= i < |ALWAYS| ==> OneLine(ALWAYS[i])
    ensures forall i :: 0 <= i < |OBSERVED| ==> OneLine(OBSERVED[i])
  {
  }

  lemma ConversationListOneLine(request: seq<Field>, response: seq<Field>)
    requires GroupOk(request) && GroupOk(response)
    ensures OneLine(ConversationFields(request, response))
  {
    ListedOneLine("request.body.", request);
    ListedOneLine("response.body.", response);
    ConstantsOneLine();
    JoinOneLine(ConversationList(request, response));
  }

  lemma UpstreamListOneLine(request: seq<Field>)
    requires GroupOk(request)
    ensures OneLine(UpstreamFields(request))
  {
    ListedOneLine("request.body.", request);
    ConstantsOneLine();
    JoinOneLine(UpstreamList(request));
  }

  lemma CarriedOneLine(h: Headers, c: Claims, list: Text, signature: Text)
    requires ModelHeader(c.requestFields).Ok? && Carries(h, c, list, signature)
    requires ValidHeaderValue(c.path) && OneLine(list)
    ensures OneLine(Get(h, RequestPath)) && OneLine(Get(h, Model)) && OneLine(Get(h, SignedFieldList))
  {
    SafeIsOneLine(c.path);
    ModelOneLine(c.requestFields);
  }

  lemma ConversationChecked(c: Claims)
    requires ConversationProblem(c).None?
    ensures ModelHeader(c.requestFields).Ok? && ValidHeaderValue(c.path)
    ensures GroupOk(c.requestFields) && GroupOk(c.responseFields)
  {
  }

  /** Nothing that came with the request can break out of the headers that Sign writes for it. */
  lemma ConversationOneLine(h: Headers, c: Claims, signature: Text)
    requires ConversationProblem(c).None?
    ensures ModelHeader(c.requestFields).Ok?
    ensures var signed := ConversationHeaders(h, c, signature);
            OneLine(Get(signed, RequestPath)) && OneLine(Get(signed, Model)) && OneLine(Get(signed, SignedFieldList))
  {
    ConversationChecked(c);
    ConversationCarries(h, c, signature);
    ConversationListOneLine(c.requestFields, c.responseFields);
    CarriedOneLine(ConversationHeaders(h, c, signature), c, ConversationFields(c.requestFields, c.responseFields),
                   signature);
  }

  /** SignRequestUpstream signs only a real status, some content type and a challenge of the public syntax. */
  lemma UpstreamChecked(c: Claims)
    requires UpstreamProblem(c).None?
    ensures ModelHeader(c.requestFields).Ok? && ValidHeaderValue(c.path) && GroupOk(c.requestFields)
    ensures 100 <= c.status <= 599 && 10 <= |c.challenge| <= 74
    ensures ValidHeaderValue(c.contentType) && c.contentType != []
    ensures forall g :: g in c.challenge ==>
              g.Rune? && ('a' <= g.c <= 'z' || 'A' <= g.c <= 'Z' || '0' <= g.c <= '9' || g.c == '-' || g.c == '_')
  {
  }

  /** And its headers keep to their lines as well. */
  lemma UpstreamOneLine(h: Headers, c: Claims, signature: Text)
    requires UpstreamProblem(c).None?
    ensures ModelHeader(c.requestFields).Ok?
    ensures var signed := UpstreamHeaders(h, c, signature);
            && OneLine(Get(signed, RequestPath)) && OneLine(Get(signed, Model)) && OneLine(Get(signed, SignedFieldList))
            && OneLine(Get(signed, ResponseContentType))
  {
    UpstreamChecked(c);
    UpstreamCarries(h, c, signature);
    UpstreamListOneLine(c.requestFields);
    SafeIsOneLine(c.contentType);
    CarriedOneLine(UpstreamHeaders(h, c, signature), c, UpstreamFields(c.requestFields), signature);
  }
}
