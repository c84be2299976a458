/**
 * Which messages are accepted and what they are taken to say, told by the members of the JSON objects
 * (internal/mitmproxy/text_extractors.go), for the items of a request and for a chat response.
 */
module MessageShapes {
  import opened Basics
  import opened Json
  import opened CanonicalJson
  import opened Extractors
  import opened ChatResponses

  /** Nothing, null or a string. */
  predicate TextOrNothing(v: Option<Json>) {
    v == None || v == Some(Null) || (v.Some? && v.value.Str?)
  }

  predicate Nothing(v: Option<Json>) {
    v == None || v == Some(Null)
  }

  predicate IsString(v: Option<Json>) {
    v.Some? && v.value.Str?
  }

  // ----- Blocks ----------------------------------------------------------------------------

  /** An object, without a repeated name inside, whose three fields have the right types. */
  predicate WellTyped(b: Json) {
    && b.Obj? && UniqueNames(b)
    && TextOrNothing(Lookup(b.members, "type")) && TextOrNothing(Lookup(b.members, "text"))
    && TextOrNothing(Lookup(b.members, "refusal"))
  }

  /** Its type says text, or it has a text and no type. */
  predicate IsAboutText(ms: seq<Member>) {
    var kind := Lookup(ms, "type");
    || kind == Some(Str("text")) || kind == Some(Str("input_text")) || kind == Some(Str("output_text"))
    || kind == Some(Str("refusal"))
    || ((Nothing(kind) || kind == Some(Str(""))) && IsString(Lookup(ms, "text")))
  }

  /** The text it holds: its own, or else, in a refusal, that of the refusal. */
  function Held(ms: seq<Member>): Option<string> {
    if IsString(Lookup(ms, "text")) then Some(Lookup(ms, "text").value.s)
    else if Lookup(ms, "type") == Some(Str("refusal")) && IsString(Lookup(ms, "refusal"))
    then Some(Lookup(ms, "refusal").value.s)
    else None
  }

  lemma BlockMeans(b: Json, rejectNonText: bool)
    ensures BlockContent(b, rejectNonText) ==
            if !WellTyped(b) then None
            else if IsAboutText(b.members)
            then (match Held(b.members) case Some(text) => Some(Content(text, true)) case None => None)
            else if rejectNonText then None else Some(Content("", false))
  {
  }

  predicate TextBlock(b: Json) {
    WellTyped(b) && IsAboutText(b.members) && Held(b.members).Some?
  }

  /** The texts of the text blocks, one after the other. */
  function Texts(blocks: seq<Json>): string {
    if blocks == [] then ""
    else (if TextBlock(blocks[0]) then Held(blocks[0].members).value else "") + Texts(blocks[1..])
  }

  lemma {:induction false} AllTextMeans(blocks: seq<Json>)
    ensures BlocksContent(blocks, true) ==
            if forall b :: b in blocks ==> TextBlock(b) then Some(Content(Texts(blocks), blocks != [])) else None
  {
    if blocks != [] {
      BlockMeans(blocks[0], true);
      AllTextMeans(blocks[1..]);
      assert blocks == [blocks[0]] + blocks[1..];
    }
  }

  /** A block of a response: text that it holds, or something else of the right types. */
  predicate Passable(b: Json) {
    WellTyped(b) && (IsAboutText(b.members) ==> Held(b.members).Some?)
  }

  lemma {:induction false} SomeTextMeans(blocks: seq<Json>)
    ensures BlocksContent(blocks, false) ==
            if forall b :: b in blocks ==> Passable(b)
            then Some(Content(Texts(blocks), exists b :: b in blocks && TextBlock(b))) else None
  {
    if blocks != [] {
      BlockMeans(blocks[0], false);
      SomeTextMeans(blocks[1..]);
      assert blocks == [blocks[0]] + blocks[1..];
      assert "" + Texts(blocks[1..]) == Texts(blocks[1..]);
      assert (exists b :: b in blocks && TextBlock(b)) <==>
             TextBlock(blocks[0]) || exists b :: b in blocks[1..] && TextBlock(b);
      assert (forall b :: b in blocks ==> Passable(b)) <==>
             Passable(blocks[0]) && forall b :: b in blocks[1..] ==> Passable(b);
    }
  }

  // ----- The items of a request ------------------------------------------------------------

  /** Nothing, null or the empty array. */
  predicate NoCalls(v: Option<Json>) {
    v == None || v == Some(Null) || v == Some(Arr([]))
  }

  predicate SupportedRole(v: Option<Json>) {
    v == Some(Str("system")) || v == Some(Str("developer")) || v == Some(Str("user")) || v == Some(Str("assistant"))
  }

  /** For a typed item: nothing, the empty string or "message". */
  predicate MessageType(v: Option<Json>) {
    Nothing(v) || v == Some(Str("")) || v == Some(Str("message"))
  }

  /** The content is this text, as a string or in text blocks and nothing else. */
  predicate ContentIs(v: Option<Json>, text: string) {
    match v
    case Some(Str(s)) => s == text
    case Some(Arr(blocks)) => blocks != [] && (forall b :: b in blocks ==> TextBlock(b)) && Texts(blocks) == text
    case _ => false
  }

  lemma ContentMeans(v: Option<Json>, text: string)
    ensures ContentText(v, true) == Some(Content(text, true)) <==> ContentIs(v, text)
  {
    match v {
      case Some(Arr(blocks)) => AllTextMeans(blocks);
      case _ =>
    }
  }

  /** The object with these members is a message m that calls no tool. */
  predicate ItemIs(ms: seq<Member>, typed: bool, m: TextMessage) {
    && TextOrNothing(Lookup(ms, "type")) && (typed ==> MessageType(Lookup(ms, "type")))
    && SupportedRole(Lookup(ms, "role")) && Lookup(ms, "role") == Some(Str(m.role))
    && TextOrNothing(Lookup(ms, "refusal"))
    && NoCalls(Lookup(ms, "tool_calls")) && NoCalls(Lookup(ms, "function_call"))
    && ContentIs(Lookup(ms, "content"), m.text)
  }

  lemma EnvelopeMeans(ms: seq<Member>)
    ensures EnvelopeOf(ms).Some? <==>
            && TextOrNothing(Lookup(ms, "type"))
            && TextOrNothing(Lookup(ms, "role"))
            && TextOrNothing(Lookup(ms, "refusal"))
  {
  }

  lemma MessageMeans(ms: seq<Member>, e: Envelope, m: TextMessage)
    requires EnvelopeOf(ms) == Some(e)
    ensures RequestMessage(e) == Some(m) <==>
            && SupportedRole(Lookup(ms, "role")) && Lookup(ms, "role") == Some(Str(m.role))
            && NoCalls(Lookup(ms, "tool_calls")) && NoCalls(Lookup(ms, "function_call"))
            && ContentIs(Lookup(ms, "content"), m.text)
  {
    ContentMeans(e.content, m.text);
    assert e.role != "" ==> Lookup(ms, "role") == Some(Str(e.role));
  }

  /** An item of a request is taken for the message m if and only if it is an object that is just that message. */
  lemma AcceptedItems(v: Json, typed: bool, m: TextMessage)
    ensures RequestItem(v, typed) == Some(m) <==> v.Obj? && UniqueNames(v) && ItemIs(v.members, typed, m)
  {
    if v.Obj? && UniqueNames(v) {
      EnvelopeMeans(v.members);
      if EnvelopeOf(v.members).Some? {
        MessageMeans(v.members, EnvelopeOf(v.members).value, m);
      }
    }
  }

  predicate ItemsAre(raw: seq<Json>, typed: bool, ms: seq<TextMessage>) {
    && |ms| == |raw|
    && forall i :: 0 <= i < |raw| ==> raw[i].Obj? && UniqueNames(raw[i]) && ItemIs(raw[i].members, typed, ms[i])
  }

  lemma ShiftedItems(raw: seq<Json>, typed: bool, ms: seq<TextMessage>)
    requires raw != [] && ms != []
    ensures ItemsAre(raw, typed, ms) <==>
            && raw[0].Obj? && UniqueNames(raw[0]) && ItemIs(raw[0].members, typed, ms[0])
            && ItemsAre(raw[1..], typed, ms[1..])
  {
    if ItemsAre(raw[1..], typed, ms[1..]) {
      forall i | 1 <= i < |raw|
        ensures raw[i].Obj? && UniqueNames(raw[i]) && ItemIs(raw[i].members, typed, ms[i])
      {
        assert raw[i] == raw[1..][i - 1] && ms[i] == ms[1..][i - 1];
      }
    }
  }

  /** So a list of items is accepted exactly if each of them is, and then every one is kept, in its place. */
  lemma {:induction false} AcceptedLists(raw: seq<Json>, typed: bool, ms: seq<TextMessage>)
    ensures RequestItems(raw, typed) == Some(ms) <==> ItemsAre(raw, typed, ms)
  {
    if raw != [] && ms != [] {
      AcceptedItems(raw[0], typed, ms[0]);
      AcceptedLists(raw[1..], typed, ms[1..]);
      assert ms == [ms[0]] + ms[1..];
      ShiftedItems(raw, typed, ms);
    }
  }

  // ----- The requests ----------------------------------------------------------------------

  /** The body names the model, or leaves it to the path. */
  predicate ModelIs(v: Option<Json>, pathModel: Option<Name>, model: string) {
    if Nothing(v) || v == Some(Str("")) then pathModel == Some(model) else v == Some(Str(model))
  }

  /** Nothing or an array. */
  predicate ArrayOrNothing(v: Option<Json>) {
    Nothing(v) || (v.Some? && v.value.Arr?)
  }

  /** One message of the system with the text there is, or none. */
  predicate SystemIs(v: Option<Json>, first: seq<TextMessage>) {
    if Nothing(v) || v == Some(Arr([])) then first == []
    else |first| == 1 && first[0].role == "system" && ContentIs(v, first[0].text)
  }

  predicate MessagesAre(v: Option<Json>, typed: bool, rest: seq<TextMessage>) {
    v.Some? && v.value.Arr? && v.value.items != [] && ItemsAre(v.value.items, typed, rest)
  }

  /** The text of one message of the user, or a list of items. */
  predicate InputIs(v: Option<Json>, rest: seq<TextMessage>) {
    if IsString(v) then rest == [TextMessage("user", v.value.s)] else MessagesAre(v, true, rest)
  }

  lemma ModelMeans(ms: seq<Member>, pathModel: Option<Name>, name: Name)
    requires StringField(ms, "model").Some?
    ensures RequestModel(StringField(ms, "model").value, pathModel) == Some(name) <==>
            ModelIs(Lookup(ms, "model"), pathModel, name)
  {
  }

  lemma SystemMeans(v: Option<Json>, first: seq<TextMessage>)
    ensures SystemMessage(v) == Some(first) <==> SystemIs(v, first)
  {
    match v {
      case Some(Arr(blocks)) => AllTextMeans(blocks);
      case _ =>
    }
    if |first| == 1 {
      assert first == [first[0]];
      ContentMeans(v, first[0].text);
    }
  }

  lemma InputMeans(v: Option<Json>, rest: seq<TextMessage>)
    ensures InputMessages(v) == Some(rest) <==> InputIs(v, rest)
  {
    match v {
      case Some(Arr(items)) => AcceptedLists(items, true, rest);
      case _ =>
    }
  }

  /** What all three protocols ask of a body. */
  predicate BodyFits(body: Json) {
    && body.Obj? && UniqueNames(body)
    && TextOrNothing(Lookup(body.members, "model")) && ArrayOrNothing(Lookup(body.members, "messages"))
  }

  lemma BodyMeans(body: Json)
    ensures DecodeRequest(body).Some? <==> BodyFits(body)
    ensures BodyFits(body) ==> DecodeRequest(body).value.0 == body.members
    ensures BodyFits(body) ==> StringField(body.members, "model") == Some(DecodeRequest(body).value.1)
    ensures BodyFits(body) ==> ArrayField(body.members, "messages") == Some(DecodeRequest(body).value.2)
  {
  }

  lemma ListMeans(ms: seq<Member>, rest: seq<TextMessage>)
    requires ArrayField(ms, "messages").Some?
    ensures var items := ArrayField(ms, "messages").value;
            items != [] && RequestItems(items, false) == Some(rest) <==>
            MessagesAre(Lookup(ms, "messages"), false, rest)
  {
    AcceptedLists(ArrayField(ms, "messages").value, false, rest);
  }

  /** A Chat request is taken for c if and only if it names its model and its messages are exactly these. */
  lemma AcceptedChat(body: Json, pathModel: Option<Name>, c: Conversation)
    ensures ChatRequest(body, pathModel) == Some(c) <==>
            && BodyFits(body) && ModelIs(Lookup(body.members, "model"), pathModel, c.model)
            && MessagesAre(Lookup(body.members, "messages"), false, c.messages)
  {
    BodyMeans(body);
    if BodyFits(body) {
      if c.model != "" { ModelMeans(body.members, pathModel, c.model); }
      ListMeans(body.members, c.messages);
      assert forall ms: seq<TextMessage> :: [] + ms == ms;
    }
  }

  lemma SystemsMean(v: Option<Json>)
    ensures forall first :: SystemMessage(v) == Some(first) <==> SystemIs(v, first)
  {
    forall first
      ensures SystemMessage(v) == Some(first) <==> SystemIs(v, first)
    {
      SystemMeans(v, first);
    }
  }

  lemma ListsMean(ms: seq<Member>)
    requires ArrayField(ms, "messages").Some?
    ensures var items := ArrayField(ms, "messages").value;
            forall rest :: items != [] && RequestItems(items, false) == Some(rest) <==>
                           MessagesAre(Lookup(ms, "messages"), false, rest)
  {
    forall rest
      ensures var items := ArrayField(ms, "messages").value;
              items != [] && RequestItems(items, false) == Some(rest) <==>
              MessagesAre(Lookup(ms, "messages"), false, rest)
    {
      ListMeans(ms, rest);
    }
  }

  lemma InputsMean(v: Option<Json>)
    ensures forall rest :: InputMessages(v) == Some(rest) <==> InputIs(v, rest)
  {
    forall rest
      ensures InputMessages(v) == Some(rest) <==> InputIs(v, rest)
    {
      InputMeans(v, rest);
    }
  }

  /** The system text comes first, and then the messages. */
  predicate SystemThen(ms: seq<Member>, key: string, c: Conversation, first: seq<TextMessage>, rest: seq<TextMessage>) {
    c.messages == first + rest && SystemIs(Lookup(ms, key), first)
  }

  /** Likewise a Messages request, whose system text comes first. */
  lemma AcceptedMessages(body: Json, pathModel: Option<Name>, c: Conversation)
    ensures MessagesRequest(body, pathModel) == Some(c) <==>
            && BodyFits(body) && ModelIs(Lookup(body.members, "model"), pathModel, c.model)
            && exists first, rest :: SystemThen(body.members, "system", c, first, rest)
                                     && MessagesAre(Lookup(body.members, "messages"), false, rest)
  {
    BodyMeans(body);
    if BodyFits(body) {
      var ms := body.members;
      if c.model != "" { ModelMeans(ms, pathModel, c.model); }
      SystemsMean(Lookup(ms, "system"));
      ListsMean(ms);
      if MessagesRequest(body, pathModel) == Some(c) {
        var first := SystemMessage(Lookup(ms, "system")).value;
        var rest := RequestItems(ArrayField(ms, "messages").value, false).value;
        assert SystemThen(ms, "system", c, first, rest);
      }
    }
  }

  /** And a Responses request, whose instructions come first. */
  lemma AcceptedResponses(body: Json, pathModel: Option<Name>, c: Conversation)
    ensures ResponsesRequest(body, pathModel) == Some(c) <==>
            && BodyFits(body) && ModelIs(Lookup(body.members, "model"), pathModel, c.model)
            && exists first, rest :: SystemThen(body.members, "instructions", c, first, rest)
                                     && InputIs(Lookup(body.members, "input"), rest)
  {
    BodyMeans(body);
    if BodyFits(body) {
      var ms := body.members;
      if c.model != "" { ModelMeans(ms, pathModel, c.model); }
      SystemsMean(Lookup(ms, "instructions"));
      InputsMean(Lookup(ms, "input"));
      if ResponsesRequest(body, pathModel) == Some(c) {
        var first, rest := SystemMessage(Lookup(ms, "instructions")).value, InputMessages(Lookup(ms, "input")).value;
        assert SystemThen(ms, "instructions", c, first, rest);
      }
    }
  }

  // ----- A chat response -------------------------------------------------------------------

  /** Text in the content and no refusal, or a refusal and no text in the content. */
  predicate ReplyIs(ms: seq<Member>, text: string) {
    var content, refusal := Lookup(ms, "content"), Lookup(ms, "refusal");
    if Nothing(refusal) then
      match content
      case Some(Str(s)) => s == text
      case Some(Arr(blocks)) =>
        && (forall b :: b in blocks ==> Passable(b))
        && (exists b :: b in blocks && TextBlock(b))
        && Texts(blocks) == text
      case _ => false
    else
      && refusal == Some(Str(text))
      && match content
         case Some(Arr(blocks)) => forall b :: b in blocks ==> Passable(b) && !TextBlock(b)
         case _ => Nothing(content)
  }

  lemma ReplyMeans(ms: seq<Member>, e: Envelope, t: TextMessage)
    requires EnvelopeOf(ms) == Some(e)
    ensures ResponseMessage(e) == Some(t) <==>
            Lookup(ms, "role") == Some(Str("assistant")) && t.role == "assistant" && ReplyIs(ms, t.text)
  {
    match e.content {
      case Some(Arr(blocks)) => SomeTextMeans(blocks);
      case _ =>
    }
  }

  /**
   * The proxy takes a chat response for t if and only if it has exactly one choice, with a message of the
   * assistant that says just this, in text or by refusing.
   */
  lemma AcceptedResponse(body: Json, t: TextMessage)
    ensures ChatResponse(body) == Some(t) <==>
            && body.Obj? && UniqueNames(body) && MessageOf(body).Some?
            && var ms := MessageOf(body).value;
               && TextOrNothing(Lookup(ms, "type")) && TextOrNothing(Lookup(ms, "refusal"))
               && Lookup(ms, "role") == Some(Str("assistant")) && t.role == "assistant" && ReplyIs(ms, t.text)
  {
    match MessageOf(body) {
      case Some(ms) =>
        EnvelopeMeans(ms);
        if EnvelopeOf(ms).Some? {
          ReplyMeans(ms, EnvelopeOf(ms).value, t);
        }
      case None =>
    }
  }
}
