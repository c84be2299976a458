/**
 * The claims the proxy signs and the bytes it signs for them (internal/attestation/attestation.go).
 * The payload determines the claims, up to what JSON itself does not tell apart.
 */
module Claims {
  import opened Basics
  import opened Json
  import opened CanonicalJson
  import opened GoText

  datatype Field = Field(name: Text, value: Json)

  datatype Claims = Claims(
    version: Text,
    profile: Text,
    keyID: Text,
    tls: Text,
    domain: Text,
    path: Text,
    requestFields: seq<Field>,
    responseFields: seq<Field>,
    timestamp: int,
    nonce: Text,
    challenge: Text,
    status: int,
    contentType: Text
  )

  const KEYS: seq<string> := [
    "version", "profile", "key_id", "tls_certificate_sha256", "domain", "request_path", "request_fields",
    "response_fields", "timestamp", "nonce", "challenge", "response_status", "response_content_type"
  ]

  function FieldJson(f: Field): Json {
    Obj([Member("name", Str(Decoded(f.name))), Member("value", f.value)])
  }

  function FieldsJson(fs: seq<Field>): Json {
    Arr(seq(|fs|, i requires 0 <= i < |fs| => FieldJson(fs[i])))
  }

  function ValueOf(c: Claims, i: nat): Json
    requires i < 13
  {
    match i
    case 0 => Str(Decoded(c.version))
    case 1 => Str(Decoded(c.profile))
    case 2 => Str(Decoded(c.keyID))
    case 3 => Str(Decoded(c.tls))
    case 4 => Str(Decoded(c.domain))
    case 5 => Str(Decoded(c.path))
    case 6 => FieldsJson(c.requestFields)
    case 7 => FieldsJson(c.responseFields)
    case 8 => Num(c.timestamp)
    case 9 => Str(Decoded(c.nonce))
    case 10 => Str(Decoded(c.challenge))
    case 11 => Num(c.status)
    case _ => Str(Decoded(c.contentType))
  }

  /** The last three members are omitted when zero. */
  predicate Present(c: Claims, i: nat) {
    match i
    case 10 => c.challenge != []
    case 11 => c.status != 0
    case 12 => c.contentType != []
    case _ => true
  }

  function MembersFrom(c: Claims, i: nat): seq<Member>
    requires i <= 13
    decreases 13 - i
  {
    if i == 13 then []
    else (if Present(c, i) then [Member(KEYS[i], ValueOf(c, i))] else []) + MembersFrom(c, i + 1)
  }

  function ClaimsJson(c: Claims): Json {
    Obj(MembersFrom(c, 0))
  }

  datatype PayloadError =
    | NotUtf8
    | TimestampRange
    | BadChallenge
    | BadStatus
    | BadContentType
    | NotCanonical

  const MAX_SAFE_INTEGER := 0x1F_FFFF_FFFF_FFFF

  /** The checks before anything is encoded, in order. */
  function ClaimProblem(c: Claims): Option<PayloadError> {
    if !(&& ValidUtf8(c.version) && ValidUtf8(c.profile) && ValidUtf8(c.keyID) && ValidUtf8(c.tls)
         && ValidUtf8(c.domain) && ValidUtf8(c.path) && ValidUtf8(c.nonce)) then Some(NotUtf8)
    else if c.timestamp < -MAX_SAFE_INTEGER || c.timestamp > MAX_SAFE_INTEGER then Some(TimestampRange)
    else if c.challenge != [] && !ValidChallenge(c.challenge) then Some(BadChallenge)
    else if c.status != 0 && (c.status < 100 || c.status > 599) then Some(BadStatus)
    else if c.contentType != [] && !ValidHeaderValue(c.contentType) then Some(BadContentType)
    else None
  }

  function CanonicalPayload(c: Claims): Result<string, PayloadError> {
    match ClaimProblem(c)
    case Some(e) => Err(e)
    case None =>
      match Canonical(ClaimsJson(c))
      case None => Err(NotCanonical)
      case Some(v) => Ok(Print(v))
  }

  // ----- What a payload determines ---------------------------------------------------------

  predicate SameName(f: Field, g: Field) {
    Decoded(f.name) == Decoded(g.name)
  }

  ghost predicate FieldsEqual(fs: seq<Field>, gs: seq<Field>) {
    && |fs| == |gs|
    && forall i :: 0 <= i < |fs| ==> SameName(fs[i], gs[i]) && JsonEqual(fs[i].value, gs[i].value)
  }

  /**
   * Claims no payload tells apart. Field values may differ in the order of object members; field
   * names and the content type, which CanonicalPayload does not check for UTF-8, only in stray bytes.
   */
  ghost predicate SameClaims(c: Claims, d: Claims) {
    && c.version == d.version && c.profile == d.profile && c.keyID == d.keyID && c.tls == d.tls
    && c.domain == d.domain && c.path == d.path && c.timestamp == d.timestamp && c.nonce == d.nonce
    && c.challenge == d.challenge && c.status == d.status
    && FieldsEqual(c.requestFields, d.requestFields)
    && FieldsEqual(c.responseFields, d.responseFields)
    && Decoded(c.contentType) == Decoded(d.contentType)
  }

  lemma KeysDistinct(i: nat, j: nat)
    requires i < j < 13
    ensures KEYS[i] != KEYS[j]
  {
    if |KEYS[i]| == |KEYS[j]| {
      assert KEYS[i][0] != KEYS[j][0] || KEYS[i][9] != KEYS[j][9];
    }
  }

  /** Exactly the present members, from the i-th on. */
  lemma {:induction false} MembersFromMeaning(c: Claims, i: nat, m: Member)
    requires i <= 13
    ensures m in MembersFrom(c, i) <==> exists j :: i <= j < 13 && Present(c, j) && m == Member(KEYS[j], ValueOf(c, j))
    decreases 13 - i
  {
    if i < 13 {
      MembersFromMeaning(c, i + 1, m);
    }
  }

  lemma LaterKeysDiffer(c: Claims, i: nat)
    requires i < 13
    ensures !HasKey(MembersFrom(c, i + 1), KEYS[i])
  {
    forall m | m in MembersFrom(c, i + 1)
      ensures m.key != KEYS[i]
    {
      MembersFromMeaning(c, i + 1, m);
      var j :| i + 1 <= j < 13 && Present(c, j) && m == Member(KEYS[j], ValueOf(c, j));
      KeysDistinct(i, j);
    }
  }

  lemma DistinctCons(m: Member, rest: seq<Member>)
    requires DistinctNames(rest) && !HasKey(rest, m.key)
    ensures DistinctNames([m] + rest)
  {
    assert ([m] + rest)[1..] == rest;
    FirstNameDistinct([m] + rest);
  }

  lemma {:induction false} MembersDistinct(c: Claims, i: nat)
    requires i <= 13
    ensures DistinctNames(MembersFrom(c, i))
    decreases 13 - i
  {
    if i < 13 {
      var rest := MembersFrom(c, i + 1);
      MembersDistinct(c, i + 1);
      LaterKeysDiffer(c, i);
      DistinctCons(Member(KEYS[i], ValueOf(c, i)), rest);
      assert [] + rest == rest;
    }
  }

  /** The claims agree member by member, omitted members included. */
  ghost predicate MemberwiseEqual(c: Claims, d: Claims) {
    forall i :: 0 <= i < 13 ==> MemberEqual(c, d, i)
  }

  ghost predicate MemberEqual(c: Claims, d: Claims, i: nat)
    requires i < 13
  {
    && (Present(c, i) <==> Present(d, i))
    && (Present(c, i) ==> JsonEqual(ValueOf(c, i), ValueOf(d, i)))
  }

  lemma NamedMember(c: Claims, i: nat, m: Member)
    requires i < 13 && m in MembersFrom(c, 0) && m.key == KEYS[i]
    ensures Present(c, i) && m.value == ValueOf(c, i)
  {
    MembersFromMeaning(c, 0, m);
    var j :| 0 <= j < 13 && Present(c, j) && m == Member(KEYS[j], ValueOf(c, j));
    if i < j { KeysDistinct(i, j); } else if j < i { KeysDistinct(j, i); }
  }

  lemma HasKeyIffPresent(c: Claims, i: nat)
    requires i < 13
    ensures HasKey(MembersFrom(c, 0), KEYS[i]) <==> Present(c, i)
  {
    if Present(c, i) {
      MembersFromMeaning(c, 0, Member(KEYS[i], ValueOf(c, i)));
    }
    if HasKey(MembersFrom(c, 0), KEYS[i]) {
      var m :| m in MembersFrom(c, 0) && m.key == KEYS[i];
      NamedMember(c, i, m);
    }
  }

  lemma SameKeys(ms: seq<Member>, ns: seq<Member>, key: string)
    requires MembersEqual(ms, ns)
    ensures HasKey(ms, key) <==> HasKey(ns, key)
  {
    if HasKey(ms, key) {
      var m :| m in ms && m.key == key;
      assert HasEqual(m, ns);
    }
    if HasKey(ns, key) {
      var n :| n in ns && n.key == key;
      assert HasKey(ms, n.key);
    }
  }

  /** ms has the i-th member of c exactly if that is present, and nothing else under its name. */
  ghost predicate Lists(ms: seq<Member>, c: Claims, i: nat)
    requires i < 13
  {
    && (HasKey(ms, KEYS[i]) <==> Present(c, i))
    && (forall m :: m in ms && m.key == KEYS[i] ==> m.value == ValueOf(c, i))
  }

  lemma MembersList(c: Claims, i: nat)
    requires i < 13
    ensures Lists(MembersFrom(c, 0), c, i)
  {
    HasKeyIffPresent(c, i);
    forall m | m in MembersFrom(c, 0) && m.key == KEYS[i]
      ensures m.value == ValueOf(c, i)
    {
      NamedMember(c, i, m);
    }
  }

  lemma MemberFromJson(c: Claims, d: Claims, ms: seq<Member>, ns: seq<Member>, i: nat)
    requires i < 13 && Lists(ms, c, i) && Lists(ns, d, i) && MembersEqual(ms, ns)
    ensures MemberEqual(c, d, i)
  {
    SameKeys(ms, ns, KEYS[i]);
    if Present(c, i) {
      var m :| m in ms && m.key == KEYS[i];
      assert HasEqual(m, ns);
      var n :| n in ns && n.key == m.key && JsonEqual(m.value, n.value);
    }
  }

  lemma MemberwiseFromJson(c: Claims, d: Claims)
    requires MembersEqual(MembersFrom(c, 0), MembersFrom(d, 0))
    ensures MemberwiseEqual(c, d)
  {
    forall i | 0 <= i < 13
      ensures MemberEqual(c, d, i)
    {
      MembersList(c, i);
      MembersList(d, i);
      MemberFromJson(c, d, MembersFrom(c, 0), MembersFrom(d, 0), i);
    }
  }

  lemma PresentInBoth(c: Claims, d: Claims, m: Member)
    requires MemberwiseEqual(c, d) && m in MembersFrom(c, 0)
    ensures HasEqual(m, MembersFrom(d, 0))
  {
    MembersFromMeaning(c, 0, m);
    var i :| 0 <= i < 13 && Present(c, i) && m == Member(KEYS[i], ValueOf(c, i));
    assert MemberEqual(c, d, i);
    MembersFromMeaning(d, 0, Member(KEYS[i], ValueOf(d, i)));
  }

  lemma NamedInBoth(c: Claims, d: Claims, n: Member)
    requires MemberwiseEqual(c, d) && n in MembersFrom(d, 0)
    ensures HasKey(MembersFrom(c, 0), n.key)
  {
    MembersFromMeaning(d, 0, n);
    var i :| 0 <= i < 13 && Present(d, i) && n == Member(KEYS[i], ValueOf(d, i));
    assert MemberEqual(c, d, i);
    HasKeyIffPresent(c, i);
  }

  lemma JsonFromMemberwise(c: Claims, d: Claims)
    requires MemberwiseEqual(c, d)
    ensures MembersEqual(MembersFrom(c, 0), MembersFrom(d, 0))
  {
    forall m | m in MembersFrom(c, 0)
      ensures HasEqual(m, MembersFrom(d, 0))
    {
      PresentInBoth(c, d, m);
    }
    forall n | n in MembersFrom(d, 0)
      ensures HasKey(MembersFrom(c, 0), n.key)
    {
      NamedInBoth(c, d, n);
    }
  }

  lemma FieldEqualMeaning(f: Field, g: Field)
    ensures JsonEqual(FieldJson(f), FieldJson(g)) <==> SameName(f, g) && JsonEqual(f.value, g.value)
  {
    assert |"name"| != |"value"|;
    PairEqual("name", "value", Str(Decoded(f.name)), f.value, Str(Decoded(g.name)), g.value);
  }

  lemma FieldsEqualMeaning(fs: seq<Field>, gs: seq<Field>)
    ensures JsonEqual(FieldsJson(fs), FieldsJson(gs)) <==> FieldsEqual(fs, gs)
  {
    var xs, ys := FieldsJson(fs).items, FieldsJson(gs).items;
    if |fs| == |gs| {
      forall i | 0 <= i < |fs|
        ensures JsonEqual(xs[i], ys[i]) <==> SameName(fs[i], gs[i]) && JsonEqual(fs[i].value, gs[i].value)
      {
        FieldEqualMeaning(fs[i], gs[i]);
      }
    }
  }

  lemma TextsEqual(t: Text, u: Text)
    requires ValidUtf8(t) && ValidUtf8(u)
    ensures Decoded(t) == Decoded(u) <==> t == u
  {
    if Decoded(t) == Decoded(u) { DecodedInjective(t, u); }
  }

  ghost predicate SameClaim(c: Claims, d: Claims, i: nat) {
    match i
    case 0 => c.version == d.version
    case 1 => c.profile == d.profile
    case 2 => c.keyID == d.keyID
    case 3 => c.tls == d.tls
    case 4 => c.domain == d.domain
    case 5 => c.path == d.path
    case 6 => FieldsEqual(c.requestFields, d.requestFields)
    case 7 => FieldsEqual(c.responseFields, d.responseFields)
    case 8 => c.timestamp == d.timestamp
    case 9 => c.nonce == d.nonce
    case 10 => c.challenge == d.challenge
    case 11 => c.status == d.status
    case _ => Decoded(c.contentType) == Decoded(d.contentType)
  }

  lemma SameClaimsMeaning(c: Claims, d: Claims)
    ensures SameClaims(c, d) <==> forall i :: 0 <= i < 13 ==> SameClaim(c, d, i)
  {
    if forall i :: 0 <= i < 13 ==> SameClaim(c, d, i) {
      assert SameClaim(c, d, 0) && SameClaim(c, d, 1) && SameClaim(c, d, 2) && SameClaim(c, d, 3) && SameClaim(c, d, 4)
             && SameClaim(c, d, 5) && SameClaim(c, d, 6) && SameClaim(c, d, 7) && SameClaim(c, d, 8)
             && SameClaim(c, d, 9)
             && SameClaim(c, d, 10) && SameClaim(c, d, 11) && SameClaim(c, d, 12);
    }
  }

  /** The texts that have a payload are UTF-8, the content type aside. */
  predicate Checked(c: Claims) {
    && ValidUtf8(c.version) && ValidUtf8(c.profile) && ValidUtf8(c.keyID) && ValidUtf8(c.tls)
    && ValidUtf8(c.domain) && ValidUtf8(c.path) && ValidUtf8(c.nonce) && ValidUtf8(c.challenge)
  }

  lemma PayloadForm(c: Claims)
    requires CanonicalPayload(c).Ok?
    ensures Checked(c) && Canonical(ClaimsJson(c)).Some?
    ensures CanonicalPayload(c).value == Print(Canonical(ClaimsJson(c)).value)
  {
  }

  lemma LeadingMemberMeaning(c: Claims, d: Claims, i: nat)
    requires i < 6 && Checked(c) && Checked(d)
    ensures MemberEqual(c, d, i) <==> SameClaim(c, d, i)
  {
    match i {
      case 0 => TextsEqual(c.version, d.version);
      case 1 => TextsEqual(c.profile, d.profile);
      case 2 => TextsEqual(c.keyID, d.keyID);
      case 3 => TextsEqual(c.tls, d.tls);
      case 4 => TextsEqual(c.domain, d.domain);
      case _ => TextsEqual(c.path, d.path);
    }
  }

  lemma MemberMeaning(c: Claims, d: Claims, i: nat)
    requires i < 13 && Checked(c) && Checked(d)
    ensures MemberEqual(c, d, i) <==> SameClaim(c, d, i)
  {
    if i < 6 {
      LeadingMemberMeaning(c, d, i);
    } else if i < 8 {
      FieldsEqualMeaning(c.requestFields, d.requestFields);
      FieldsEqualMeaning(c.responseFields, d.responseFields);
    } else if i == 9 {
      TextsEqual(c.nonce, d.nonce);
    } else if i == 10 {
      TextsEqual(c.challenge, d.challenge);
    } else if i == 12 {
      EmptyDecoded(c.contentType);
      EmptyDecoded(d.contentType);
    }
  }

  lemma EmptyDecoded(t: Text)
    ensures |Decoded(t)| == |t| && (Decoded(t) == "" <==> t == [])
  {
  }

  lemma MemberwiseMeaning(c: Claims, d: Claims)
    requires Checked(c) && Checked(d)
    ensures MemberwiseEqual(c, d) <==> SameClaims(c, d)
  {
    forall i | 0 <= i < 13
      ensures MemberEqual(c, d, i) <==> SameClaim(c, d, i)
    {
      MemberMeaning(c, d, i);
    }
    SameClaimsMeaning(c, d);
  }

  lemma ClaimsJsonIff(c: Claims, d: Claims)
    requires Checked(c) && Checked(d)
    ensures JsonEqual(ClaimsJson(c), ClaimsJson(d)) <==> SameClaims(c, d)
  {
    if MembersEqual(MembersFrom(c, 0), MembersFrom(d, 0)) { MemberwiseFromJson(c, d); }
    if MemberwiseEqual(c, d) { JsonFromMemberwise(c, d); }
    MemberwiseMeaning(c, d);
  }

  lemma PrintedIff(v: Json, w: Json)
    requires Canonical(v).Some? && Canonical(w).Some?
    ensures Print(Canonical(v).value) == Print(Canonical(w).value) <==> JsonEqual(v, w)
  {
    if Print(Canonical(v).value) == Print(Canonical(w).value) {
      PrintInjective(Canonical(v).value, Canonical(w).value);
    }
    CanonicalIff(v, w);
  }

  /** The bytes signed for two claims are the same exactly if the claims are. */
  lemma PayloadIff(c: Claims, d: Claims)
    requires CanonicalPayload(c).Ok? && CanonicalPayload(d).Ok?
    ensures CanonicalPayload(c) == CanonicalPayload(d) <==> SameClaims(c, d)
  {
    PayloadForm(c);
    PayloadForm(d);
    PrintedIff(ClaimsJson(c), ClaimsJson(d));
    ClaimsJsonIff(c, d);
  }

  ghost predicate FieldValuesUnique(c: Claims) {
    && (forall f :: f in c.requestFields ==> UniqueNames(f.value))
    && (forall f :: f in c.responseFields ==> UniqueNames(f.value))
  }

  lemma ValuesUnique(c: Claims, i: nat)
    requires i < 13
    ensures i == 6 ==> (UniqueNames(ValueOf(c, i)) <==> forall f :: f in c.requestFields ==> UniqueNames(f.value))
    ensures i == 7 ==> (UniqueNames(ValueOf(c, i)) <==> forall f :: f in c.responseFields ==> UniqueNames(f.value))
    ensures i != 6 && i != 7 ==> UniqueNames(ValueOf(c, i))
  {
    if i == 6 { FieldsUnique(c.requestFields); }
    if i == 7 { FieldsUnique(c.responseFields); }
  }

  lemma MembersUnique(c: Claims)
    requires FieldValuesUnique(c)
    ensures forall m :: m in MembersFrom(c, 0) ==> UniqueNames(m.value)
  {
    forall m | m in MembersFrom(c, 0)
      ensures UniqueNames(m.value)
    {
      MembersFromMeaning(c, 0, m);
      var i :| 0 <= i < 13 && Present(c, i) && m == Member(KEYS[i], ValueOf(c, i));
      ValuesUnique(c, i);
    }
  }

  lemma FieldMembersUnique(c: Claims, ms: seq<Member>)
    requires ms == MembersFrom(c, 0) && forall m :: m in ms ==> UniqueNames(m.value)
    ensures FieldValuesUnique(c)
  {
    MembersFromMeaning(c, 0, Member(KEYS[6], ValueOf(c, 6)));
    MembersFromMeaning(c, 0, Member(KEYS[7], ValueOf(c, 7)));
    ValuesUnique(c, 6);
    ValuesUnique(c, 7);
  }

  /** What it takes, besides the checks, to have a payload: no field value repeats a member name. */
  lemma PayloadExists(c: Claims)
    ensures Canonical(ClaimsJson(c)).Some? <==> FieldValuesUnique(c)
  {
    var v := ClaimsJson(c);
    CanonicalExists(v);
    MembersDistinct(c, 0);
    if FieldValuesUnique(c) {
      MembersUnique(c);
    }
    if UniqueNames(v) {
      FieldMembersUnique(c, v.members);
    }
  }

  lemma FieldsUnique(fs: seq<Field>)
    ensures UniqueNames(FieldsJson(fs)) <==> forall f :: f in fs ==> UniqueNames(f.value)
  {
    var xs := FieldsJson(fs).items;
    forall i | 0 <= i < |fs|
      ensures xs[i] in xs && (UniqueNames(xs[i]) <==> UniqueNames(fs[i].value))
    {
      var ms := xs[i].members;
      assert |"name"| != |"value"|;
      assert ms[0] in ms && ms[1] in ms;
      assert forall m :: m in ms ==> m == ms[0] || m == ms[1];
    }
    forall x | x in xs
      ensures exists i :: 0 <= i < |fs| && xs[i] == x
    {
    }
  }

  lemma OtherContentType(c: Claims, t: Text)
    requires CanonicalPayload(c).Ok? && ValidHeaderValue(t)
    ensures CanonicalPayload(c.(contentType := t)).Ok?
  {
    var d := c.(contentType := t);
    assert ClaimProblem(d).None?;
    PayloadExists(c);
    PayloadExists(d);
    assert FieldValuesUnique(c) ==> FieldValuesUnique(d);
  }

  lemma SwapContentType(c: Claims, t: Text, u: Text)
    requires SameClaims(c, c)
    ensures SameClaims(c.(contentType := t), c.(contentType := u)) <==> Decoded(t) == Decoded(u)
  {
  }

  /** Two different bytes, neither the UTF-8 of anything, both acceptable in a header. */
  lemma StrayTexts(t: Text, u: Text)
    requires t == [Stray(0x80)] && u == [Stray(0x81)]
    ensures t != u && Decoded(t) == Decoded(u) && ValidHeaderValue(t) && ValidHeaderValue(u)
  {
    assert Decoded(t) == ['\U{FFFD}'] == Decoded(u);
  }

  /**
   * The content type is the one claim that is not checked for UTF-8, so two different ones, both
   * acceptable as header values, can be signed as the same bytes; with UTF-8 they never are.
   */
  lemma ContentTypeCollides(c: Claims, t: Text, u: Text)
    requires CanonicalPayload(c).Ok? && ValidHeaderValue(t) && ValidHeaderValue(u)
    ensures var x, y := c.(contentType := t), c.(contentType := u);
            && CanonicalPayload(x).Ok? && CanonicalPayload(y).Ok?
            && (CanonicalPayload(x) == CanonicalPayload(y) <==> Decoded(t) == Decoded(u))
    ensures ValidUtf8(t) && ValidUtf8(u) ==> (Decoded(t) == Decoded(u) <==> t == u)
    ensures exists t', u' :: t' != u' && Decoded(t') == Decoded(u') && ValidHeaderValue(t') && ValidHeaderValue(u')
  {
    OtherContentType(c, t);
    OtherContentType(c, u);
    PayloadIff(c, c);
    SwapContentType(c, t, u);
    PayloadIff(c.(contentType := t), c.(contentType := u));
    if ValidUtf8(t) && ValidUtf8(u) { TextsEqual(t, u); }
    StrayTexts([Stray(0x80)], [Stray(0x81)]);
  }

  // ----- What a payload says ---------------------------------------------------------------

  /** ms has this value under this name, or nothing. */
  ghost predicate Named(ms: seq<Member>, key: string, v: Option<Json>) {
    match v
    case Some(x) => Member(key, x) in ms
    case None => !HasKey(ms, key)
  }

  lemma ClaimNamed(c: Claims, all: seq<Member>, ms: seq<Member>, i: nat)
    requires i < 13 && Lists(all, c, i) && Image(all, ms, Canonical)
    ensures Named(ms, KEYS[i], if Present(c, i) then Canonical(ValueOf(c, i)) else None)
  {
    SameNames(all, ms, KEYS[i], Canonical);
    if Present(c, i) {
      var m :| m in all && m.key == KEYS[i];
      assert Imaged(m, ms, Canonical);
      var x :| x in ms && x.key == m.key && Canonical(m.value) == Some(x.value);
      assert x == Member(KEYS[i], x.value);
    }
  }

  ghost predicate SaysWho(ms: seq<Member>, c: Claims) {
    && Named(ms, "version", Some(Str(Decoded(c.version))))
    && Named(ms, "profile", Some(Str(Decoded(c.profile))))
    && Named(ms, "key_id", Some(Str(Decoded(c.keyID))))
    && Named(ms, "tls_certificate_sha256", Some(Str(Decoded(c.tls))))
    && Named(ms, "domain", Some(Str(Decoded(c.domain))))
    && Named(ms, "request_path", Some(Str(Decoded(c.path))))
  }

  ghost predicate SaysWhat(ms: seq<Member>, c: Claims) {
    && Named(ms, "request_fields", Canonical(FieldsJson(c.requestFields)))
    && Named(ms, "response_fields", Canonical(FieldsJson(c.responseFields)))
    && Named(ms, "timestamp", Some(Num(c.timestamp)))
    && Named(ms, "nonce", Some(Str(Decoded(c.nonce))))
  }

  ghost predicate SaysObserved(ms: seq<Member>, c: Claims) {
    && Named(ms, "challenge", if c.challenge == [] then None else Some(Str(Decoded(c.challenge))))
    && Named(ms, "response_status", if c.status == 0 then None else Some(Num(c.status)))
    && Named(ms, "response_content_type", if c.contentType == [] then None else Some(Str(Decoded(c.contentType))))
  }

  ghost predicate ListsAll(all: seq<Member>, c: Claims) {
    forall i :: 0 <= i < 13 ==> Lists(all, c, i)
  }

  lemma MembersSayWho(c: Claims, all: seq<Member>, ms: seq<Member>)
    requires ListsAll(all, c) && Image(all, ms, Canonical)
    ensures SaysWho(ms, c)
  {
    ClaimNamed(c, all, ms, 0);
    ClaimNamed(c, all, ms, 1);
    ClaimNamed(c, all, ms, 2);
    ClaimNamed(c, all, ms, 3);
    ClaimNamed(c, all, ms, 4);
    ClaimNamed(c, all, ms, 5);
  }

  lemma MembersSayWhat(c: Claims, all: seq<Member>, ms: seq<Member>)
    requires ListsAll(all, c) && Image(all, ms, Canonical)
    ensures SaysWhat(ms, c)
  {
    ClaimNamed(c, all, ms, 6);
    ClaimNamed(c, all, ms, 7);
    ClaimNamed(c, all, ms, 8);
    ClaimNamed(c, all, ms, 9);
  }

  lemma MembersSayObserved(c: Claims, all: seq<Member>, ms: seq<Member>)
    requires ListsAll(all, c) && Image(all, ms, Canonical)
    ensures SaysObserved(ms, c)
  {
    ClaimNamed(c, all, ms, 10);
    ClaimNamed(c, all, ms, 11);
    ClaimNamed(c, all, ms, 12);
  }

  /** Whoever parses the payload finds every claim under its own name, and the omitted ones nowhere. */
  lemma PayloadSays(c: Claims) returns (ms: seq<Member>)
    requires CanonicalPayload(c).Ok?
    ensures ParseValue(CanonicalPayload(c).value) == Some((Obj(ms), ""))
    ensures Ordered(ms) && SaysWho(ms, c) && SaysWhat(ms, c) && SaysObserved(ms, c)
  {
    PayloadForm(c);
    var v := Canonical(ClaimsJson(c)).value;
    ms := v.members;
    ValueRoundTrip(v, "");
    var all := MembersFrom(c, 0);
    MembersSorted(all);
    forall i | 0 <= i < 13
      ensures Lists(all, c, i)
    {
      MembersList(c, i);
    }
    MembersSayWho(c, all, ms);
    MembersSayWhat(c, all, ms);
    MembersSayObserved(c, all, ms);
  }

  /** The claims that have a payload: what is checked before signing, and before a signature is. */
  lemma PayloadAccepted(c: Claims)
    ensures CanonicalPayload(c).Ok? <==>
              && ValidUtf8(c.version) && ValidUtf8(c.profile) && ValidUtf8(c.keyID) && ValidUtf8(c.tls)
              && ValidUtf8(c.domain) && ValidUtf8(c.path) && ValidUtf8(c.nonce)
              && -9_007_199_254_740_991 <= c.timestamp <= 9_007_199_254_740_991
              && (c.challenge == [] || ValidChallenge(c.challenge))
              && (c.status == 0 || 100 <= c.status <= 599)
              && (c.contentType == [] || ValidHeaderValue(c.contentType))
              && FieldValuesUnique(c)
  {
    PayloadExists(c);
  }
}
