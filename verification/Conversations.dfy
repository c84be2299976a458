/**
 * From the conversation that was extracted to the one a signature vouches for
 * (internal/mitmproxy/text_extractors.go and internal/attestation/attestation.go): the fields made of a
 * conversation are fit to be signed, and an accepted signature fixes the conversation they were made of.
 */
module Conversations {
  import opened Basics
  import opened Json
  import opened CanonicalJson
  import opened GoText
  import opened Claims
  import opened SignedFields
  import Attestation
  import opened Extractors

  // ----- The fields of a conversation ------------------------------------------------------

  /** NewField: the value in canonical form. */
  function NewField(name: Text, v: Json): Option<Field> {
    if AllSpace(name) || !ValidUtf8(name) then None
    else match CanonicalValue(v)
         case None => None
         case Some(canonical) => Some(Field(name, canonical))
  }

  /** What encoding/json makes of a TextMessage. */
  function MessageJson(m: TextMessage): Json {
    Obj([Member("role", Str(m.role)), Member("text", Str(m.text))])
  }

  function MessagesJson(ms: seq<TextMessage>): Json {
    Arr(seq(|ms|, i requires 0 <= i < |ms| => MessageJson(ms[i])))
  }

  const MODEL: Text := Lift("model")
  const MESSAGES: Text := Lift("messages")
  const STREAM: Text := Lift("stream")

  /** conversationRequestFields. */
  function RequestFields(c: Conversation): Option<seq<Field>> {
    match (NewField(MODEL, Str(c.model)), NewField(MESSAGES, MessagesJson(c.messages)))
    case (Some(model), Some(messages)) => Some([model, messages])
    case _ => None
  }

  /** appendStreamingRequestField, for a request that asks for a stream. */
  function StreamingFields(c: Conversation): Option<seq<Field>> {
    match (RequestFields(c), NewField(STREAM, Bool(true)))
    case (Some(fields), Some(stream)) => Some(fields + [stream])
    case _ => None
  }

  /** conversationResponseFields. */
  function ResponseFields(ms: seq<TextMessage>): Option<seq<Field>> {
    match NewField(MESSAGES, MessagesJson(ms))
    case Some(messages) => Some([messages])
    case None => None
  }

  // ----- They can be signed ----------------------------------------------------------------

  lemma RoleFirst()
    ensures Before("role", "text")
  {
    assert CodeUnits("role"[0]) + Utf16("role"[1..]) == Utf16("role");
    assert CodeUnits("text"[0]) + Utf16("text"[1..]) == Utf16("text");
    assert Utf16("role")[0] == 'r' as int && Utf16("text")[0] == 't' as int;
  }

  lemma MessageCanonical(m: TextMessage)
    ensures Canonical(MessageJson(m)) == Some(MessageJson(m))
  {
    RoleFirst();
    var ms := MessageJson(m).members;
    assert ms[1..] == [ms[1]] && ms[1..][1..] == [];
    assert CanonicalMembers(ms[1..]) == Some([ms[1]]);
    assert "role"[0] != "text"[0];
    assert Insert(ms[0], [ms[1]]) == Some([ms[0]] + [ms[1]]);
    assert [ms[0]] + [ms[1]] == ms;
    assert CanonicalMembers(ms) == Insert(ms[0], [ms[1]]);
  }

  lemma {:induction false} ItemsCanonical(items: seq<Json>)
    requires forall x :: x in items ==> Canonical(x) == Some(x)
    ensures CanonicalItems(items) == Some(items)
  {
    if items != [] {
      ItemsCanonical(items[1..]);
      assert items == [items[0]] + items[1..];
    }
  }

  /** The value of the messages field is in canonical form as it is written. */
  lemma MessagesCanonical(ms: seq<TextMessage>)
    ensures CanonicalValue(MessagesJson(ms)) == Some(MessagesJson(ms))
  {
    forall x | x in MessagesJson(ms).items
      ensures Canonical(x) == Some(x)
    {
      var i :| 0 <= i < |ms| && x == MessageJson(ms[i]);
      MessageCanonical(ms[i]);
    }
    ItemsCanonical(MessagesJson(ms).items);
    forall i | 0 <= i < |ms|
      ensures SafeNumbers(MessagesJson(ms).items[i])
    {
      assert MessagesJson(ms).items[i] == MessageJson(ms[i]);
    }
  }

  lemma NamesOk(name: Text)
    requires name in {MODEL, MESSAGES, STREAM}
    ensures NameOk(name)
  {
    assert name[0] in {Rune('m'), Rune('s')};
    assert !SpaceAt(name[0]);
  }

  lemma FieldsAre(c: Conversation, ms: seq<TextMessage>)
    ensures RequestFields(c) == Some([Field(MODEL, Str(c.model)), Field(MESSAGES, MessagesJson(c.messages))])
    ensures StreamingFields(c) == Some(RequestFields(c).value + [Field(STREAM, Bool(true))])
    ensures ResponseFields(ms) == Some([Field(MESSAGES, MessagesJson(ms))])
  {
    NamesOk(MODEL);
    NamesOk(MESSAGES);
    NamesOk(STREAM);
    MessagesCanonical(c.messages);
    MessagesCanonical(ms);
  }

  /** Whatever was extracted, validateFields has nothing against the fields made of it, in either profile. */
  lemma ExtractedFieldsValid(c: Conversation, ms: seq<TextMessage>)
    ensures RequestFields(c).Some? && StreamingFields(c).Some? && ResponseFields(ms).Some?
    ensures FieldsValid(RequestFields(c).value, ResponseFields(ms).value, true)
    ensures FieldsValid(StreamingFields(c).value, [], false)
  {
    FieldsAre(c, ms);
    NamesOk(MODEL);
    NamesOk(MESSAGES);
    NamesOk(STREAM);
    assert |MODEL| == 5 && |MESSAGES| == 8 && |STREAM| == 6;
    FieldsAre(c, c.messages);
    MessagesCanonical(c.messages);
    MessagesCanonical(ms);
  }

  // ----- They fix the conversation ---------------------------------------------------------

  lemma MessageFixed(m: TextMessage, n: TextMessage)
    requires JsonEqual(MessageJson(m), MessageJson(n))
    ensures m == n
  {
    assert "role"[0] != "text"[0];
    PairEqual("role", "text", Str(m.role), Str(m.text), Str(n.role), Str(n.text));
  }

  lemma MessagesFixed(ms: seq<TextMessage>, ns: seq<TextMessage>)
    requires JsonEqual(MessagesJson(ms), MessagesJson(ns))
    ensures ms == ns
  {
    var xs, ys := MessagesJson(ms).items, MessagesJson(ns).items;
    assert |ms| == |xs| == |ys| == |ns|;
    forall i | 0 <= i < |ms|
      ensures ms[i] == ns[i]
    {
      assert JsonEqual(xs[i], ys[i]);
      MessageFixed(ms[i], ns[i]);
    }
  }

  /** Two conversations whose fields no signature tells apart are one. */
  lemma ConversationFixed(c: Conversation, d: Conversation)
    requires RequestFields(c).Some? && RequestFields(d).Some?
    requires Attestation.FieldsBound(RequestFields(c).value, RequestFields(d).value)
    ensures c == d
  {
    FieldsAre(c, []);
    FieldsAre(d, []);
    var fs, gs := RequestFields(c).value, RequestFields(d).value;
    assert JsonEqual(fs[0].value, gs[0].value) && JsonEqual(fs[1].value, gs[1].value);
    MessagesFixed(c.messages, d.messages);
  }

  lemma StreamingFixed(c: Conversation, d: Conversation)
    requires StreamingFields(c).Some? && StreamingFields(d).Some?
    requires Attestation.FieldsBound(StreamingFields(c).value, StreamingFields(d).value)
    ensures c == d
  {
    FieldsAre(c, []);
    FieldsAre(d, []);
    var fs, gs := StreamingFields(c).value, StreamingFields(d).value;
    assert JsonEqual(fs[0].value, gs[0].value) && JsonEqual(fs[1].value, gs[1].value);
    MessagesFixed(c.messages, d.messages);
  }

  lemma ReplyFixed(ms: seq<TextMessage>, ns: seq<TextMessage>)
    requires ResponseFields(ms).Some? && ResponseFields(ns).Some?
    requires Attestation.FieldsBound(ResponseFields(ms).value, ResponseFields(ns).value)
    ensures ms == ns
  {
    FieldsAre(Conversation("", []), ms);
    FieldsAre(Conversation("", []), ns);
    assert JsonEqual(ResponseFields(ms).value[0].value, ResponseFields(ns).value[0].value);
    MessagesFixed(ms, ns);
  }

  // ----- What an accepted signature says ---------------------------------------------------

  /** Claims that were made of this request and this reply. */
  predicate Speaks(claims: Claims, c: Conversation, reply: seq<TextMessage>) {
    Some(claims.requestFields) == RequestFields(c) && Some(claims.responseFields) == ResponseFields(reply)
  }

  /** The signer signs conversations that were extracted, and nothing else, under this profile. */
  ghost predicate SignsConversations(signed: set<Claims>) {
    forall claims :: claims in signed && claims.profile == Attestation.CONVERSATION ==>
      exists c, reply :: Speaks(claims, c, reply)
  }

  /** An accepted header stands for exactly the conversation that was extracted and signed. */
  lemma AcceptedConversation(k: Casing, accepts: (string, Text) -> bool, signed: set<Claims>, h: Attestation.Headers,
                             domain: Text, fingerprint: Text, path: Text, c: Conversation, reply: seq<TextMessage>,
                             now: int, maxAge: int) returns (claims: Claims)
    requires Attestation.Unforgeable(accepts, signed) && SignsConversations(signed)
    requires RequestFields(c).Some? && ResponseFields(reply).Some?
    requires Attestation.Verify(k, accepts, h, domain, fingerprint, path, RequestFields(c).value,
                                ResponseFields(reply).value, now, maxAge).None?
    ensures claims in signed && claims.profile == Attestation.CONVERSATION && claims.path == path
    ensures Speaks(claims, c, reply) && Attestation.Only(h, Attestation.Model, Lift(c.model))
    ensures forall c', reply' :: Speaks(claims, c', reply') ==> c' == c && reply' == reply
  {
    claims := Attestation.VerifyBinds(k, accepts, signed, h, domain, fingerprint, path, RequestFields(c).value,
                                      ResponseFields(reply).value, now, maxAge);
    forall c', reply' | Speaks(claims, c', reply')
      ensures c' == c && reply' == reply
    {
      ConversationFixed(c', c);
      ReplyFixed(reply', reply);
    }
    var c', reply' :| Speaks(claims, c', reply');
    ModelShown(h, claims.requestFields, c);
  }

  /** The model header is the model of the conversation. */
  lemma ModelShown(h: Attestation.Headers, fields: seq<Field>, c: Conversation)
    requires Some(fields) in {RequestFields(c), StreamingFields(c)} && Attestation.ShowsModel(h, fields)
    ensures Attestation.Only(h, Attestation.Model, Lift(c.model))
  {
    FieldsAre(c, []);
    Attestation.ModelHeaderMeans(fields, 0);
  }

  predicate Asks(claims: Claims, c: Conversation) {
    Some(claims.requestFields) == StreamingFields(c)
  }

  ghost predicate SignsRequests(signed: set<Claims>) {
    forall claims :: claims in signed && claims.profile == Attestation.UPSTREAM ==> exists c :: Asks(claims, c)
  }

  /** And for a streamed response, exactly the request that was extracted and signed. */
  lemma AcceptedRequest(k: Casing, accepts: (string, Text) -> bool, signed: set<Claims>, h: Attestation.Headers,
                        o: Attestation.Observation, c: Conversation, now: int, maxAge: int) returns (claims: Claims)
    requires Attestation.Unforgeable(accepts, signed) && SignsRequests(signed)
    requires StreamingFields(c) == Some(o.requestFields)
    requires Attestation.VerifyRequestUpstream(k, accepts, h, o, now, maxAge).None?
    ensures claims in signed && claims.profile == Attestation.UPSTREAM && claims.challenge == o.challenge
    ensures Attestation.Only(h, Attestation.Model, Lift(c.model))
    ensures Asks(claims, c) && forall c' :: Asks(claims, c') ==> c' == c
  {
    claims := Attestation.VerifyUpstreamBinds(k, accepts, signed, h, o, now, maxAge);
    forall c' | Asks(claims, c')
      ensures c' == c
    {
      StreamingFixed(c', c);
    }
    var c' :| Asks(claims, c');
    ModelShown(h, claims.requestFields, c);
  }
}
