/**
 * Two normalisers of one chat response: the proxy signs what extractOpenAIChatResponseConversation makes
 * of it (internal/mitmproxy/text_extractors.go), and a client recomputes that with response_messages
 * (docs/verify_response.py). A signature verifies only if both give the same message.
 */
module ChatResponses {
  import opened Basics
  import opened Json
  import opened CanonicalJson
  import opened Extractors
  import opened Renderings

  // ----- The proxy -------------------------------------------------------------------------

  const ZERO_ENVELOPE := Envelope("", "", None, None, None, None)

  /** A null or missing struct keeps its zero value. */
  function DecodeChoice(v: Json): Option<Envelope> {
    match v
    case Null => Some(ZERO_ENVELOPE)
    case Obj(ms) =>
      var message := Lookup(ms, "message");
      if Absent(message) then Some(ZERO_ENVELOPE)
      else if message.value.Obj? then EnvelopeOf(message.value.members)
      else None
    case _ => None
  }

  function ChatResponse(body: Json): Option<TextMessage> {
    match DecodeObject(body)
    case None => None
    case Some(ms) =>
      match ArrayField(ms, "choices")
      case None => None
      case Some(choices) =>
        if |choices| != 1 then None
        else match DecodeChoice(choices[0])
             case None => None
             case Some(m) => ResponseMessage(m)
  }

  method ExtractChatResponse(body: Json) returns (r: Option<TextMessage>)
    ensures r == ChatResponse(body)
  {
    var ms := DecodeObject(body);
    if ms.None? {
      return None;
    }
    var choices := ArrayField(ms.value, "choices");
    if choices.None? || |choices.value| != 1 {
      return None;
    }
    var m := DecodeChoice(choices.value[0]);
    if m.None? || m.value.role != "assistant" {
      return None;
    }
    var content := ExtractContentText(m.value.content, false);
    if content.None? {
      return None;
    }
    var text, found := content.value.text, content.value.found;
    if m.value.refusal.Some? {
      if found {
        return None;
      }
      text, found := m.value.refusal.value, true;
    }
    r := if found then Some(TextMessage("assistant", text)) else None;
  }

  // ----- The client ------------------------------------------------------------------------

  predicate IsStr(v: Option<Json>) {
    v.Some? && v.value.Str?
  }

  /** One block as the client sees it: a missing type is an empty one, but a null type is neither. */
  function ClientBlock(v: Json): Option<Content> {
    if !v.Obj? then None
    else
      var kind := if Lookup(v.members, "type").None? then Str("") else Lookup(v.members, "type").value;
      var text := Lookup(v.members, "text");
      if kind in [Str("text"), Str("input_text"), Str("output_text"), Str("refusal")]
        || (kind == Str("") && IsStr(text)) then
        var value := if kind == Str("refusal") && Absent(text) then Lookup(v.members, "refusal") else text;
        if IsStr(value) then Some(Content(value.value.s, true)) else None
      else Some(NO_TEXT)
  }

  function ClientBlocks(blocks: seq<Json>): Option<Content> {
    if blocks == [] then Some(NO_TEXT) else Then(ClientBlock(blocks[0]), ClientBlocks(blocks[1..]))
  }

  function ClientContent(content: Option<Json>): Option<Content> {
    if Absent(content) then Some(NO_TEXT)
    else match content.value
         case Str(s) => Some(Content(s, true))
         case Arr(blocks) => ClientBlocks(blocks)
         case _ => None
  }

  function ClientMessage(ms: seq<Member>): Option<TextMessage> {
    if Lookup(ms, "role") != Some(Str("assistant")) then None
    else match ClientContent(Lookup(ms, "content"))
         case None => None
         case Some(c) =>
           var refusal := Lookup(ms, "refusal");
           if Absent(refusal) then if c.found then Some(TextMessage("assistant", c.text)) else None
           else if refusal.value.Str? && !c.found then Some(TextMessage("assistant", c.text + refusal.value.s))
           else None
  }

  /** The message object both sides look at, if the response has one. */
  function MessageOf(body: Json): Option<seq<Member>> {
    if !body.Obj? then None
    else match Lookup(body.members, "choices")
         case Some(Arr(choices)) =>
           if |choices| != 1 || !choices[0].Obj? then None
           else (match Lookup(choices[0].members, "message")
                 case Some(Obj(ms)) => Some(ms)
                 case _ => None)
         case _ => None
  }

  function ClientResponse(body: Json): Option<TextMessage> {
    match MessageOf(body)
    case None => None
    case Some(ms) => ClientMessage(ms)
  }

  /** "".join(texts) */
  function Join(texts: seq<string>): string {
    if texts == [] then "" else Join(texts[..|texts| - 1]) + texts[|texts| - 1]
  }

  lemma JoinAppend(texts: seq<string>, last: string)
    ensures Join(texts + [last]) == Join(texts) + last
  {
    assert (texts + [last])[..|texts|] == texts;
  }

  lemma ThenNothing(c: Option<Content>)
    ensures Then(c, Some(NO_TEXT)) == c && Then(Some(NO_TEXT), c) == c
  {
    if c.Some? {
      assert c.value.text + "" == c.value.text && "" + c.value.text == c.value.text;
    }
  }

  /** The loop over the blocks of a message: the texts it appends, or an error. */
  method BlockTexts(blocks: seq<Json>) returns (ok: bool, texts: seq<string>, found: bool)
    ensures ClientBlocks(blocks) == if ok then Some(Content(Join(texts), found)) else None
  {
    ok, texts, found := true, [], false;
    ThenNothing(ClientBlocks(blocks));
    assert blocks[0..] == blocks;
    for i := 0 to |blocks|
      invariant ok && ClientBlocks(blocks) == Then(Some(Content(Join(texts), found)), ClientBlocks(blocks[i..]))
    {
      var block := blocks[i];
      ghost var sofar := Some(Content(Join(texts), found));
      assert blocks[i..][0] == block && blocks[i..][1..] == blocks[i + 1..];
      ThenAssociates(sofar, ClientBlock(block), ClientBlocks(blocks[i + 1..]));
      ThenNothing(sofar);
      if !block.Obj? {
        return false, [], false;
      }
      var kind := if Lookup(block.members, "type").None? then Str("") else Lookup(block.members, "type").value;
      if kind in [Str("text"), Str("input_text"), Str("output_text"), Str("refusal")]
         || (kind == Str("") && IsStr(Lookup(block.members, "text"))) {
        var value := Lookup(block.members, "text");
        if kind == Str("refusal") && Absent(value) {
          value := Lookup(block.members, "refusal");
        }
        if !IsStr(value) {
          return false, [], false;
        }
        JoinAppend(texts, value.value.s);
        texts := texts + [value.value.s];
        found := true;
      }
    }
    ThenNothing(Some(Content(Join(texts), found)));
  }

  /** The texts of a content value, or an error. */
  method ContentTexts(content: Option<Json>) returns (ok: bool, texts: seq<string>, found: bool)
    ensures ClientContent(content) == if ok then Some(Content(Join(texts), found)) else None
  {
    ok, texts, found := true, [], false;
    if IsStr(content) {
      JoinAppend([], content.value.s);
      ThenNothing(Some(Content(content.value.s, true)));
      texts := texts + [content.value.s];
      found := true;
    } else if content.Some? && content.value.Arr? {
      ok, texts, found := BlockTexts(content.value.items);
    } else if !Absent(content) {
      ok := false;
    }
  }

  method ResponseMessages(body: Json) returns (r: Option<TextMessage>)
    ensures r == ClientResponse(body)
  {
    var message := MessageOf(body);
    if message.None? {
      return None;
    }
    r := NormalizeMessage(message.value);
  }

  method NormalizeMessage(ms: seq<Member>) returns (r: Option<TextMessage>)
    ensures r == ClientMessage(ms)
  {
    if Lookup(ms, "role") != Some(Str("assistant")) {
      return None;
    }
    var ok, texts, found := ContentTexts(Lookup(ms, "content"));
    if !ok {
      return None;
    }
    var refusal := Lookup(ms, "refusal");
    if !Absent(refusal) {
      if !refusal.value.Str? || found {
        return None;
      }
      JoinAppend(texts, refusal.value.s);
      texts := texts + [refusal.value.s];
      found := true;
    }
    r := if found then Some(TextMessage("assistant", Join(texts))) else None;
  }

  // ----- When they agree -------------------------------------------------------------------

  predicate NullTyped(v: Json) {
    v.Obj? && Lookup(v.members, "type") == Some(Null)
  }

  predicate HasText(v: Json) {
    BlockContent(v, false).Some? && BlockContent(v, false).value.found
  }

  /** Some text block has a type other than null. */
  predicate SomeTyped(blocks: seq<Json>) {
    exists b :: b in blocks && HasText(b) && !NullTyped(b)
  }

  /** No block with a null type holds a non-empty text. */
  predicate NullsEmpty(blocks: seq<Json>) {
    forall b :: b in blocks && NullTyped(b) && HasText(b) ==> BlockContent(b, false).value.text == ""
  }

  lemma BlocksDiffer(v: Json)
    requires BlockContent(v, false).Some?
    ensures ClientBlock(v) == if NullTyped(v) then Some(NO_TEXT) else BlockContent(v, false)
  {
  }

  /** The client sees the same text unless a block with a null type holds some. */
  lemma {:induction false} ClientSees(blocks: seq<Json>, c: Content)
    requires BlocksContent(blocks, false) == Some(c)
    ensures ClientBlocks(blocks).Some?
    ensures ClientBlocks(blocks).value.found <==> SomeTyped(blocks)
    ensures |ClientBlocks(blocks).value.text| <= |c.text|
    ensures ClientBlocks(blocks).value.text == c.text <==> NullsEmpty(blocks)
    ensures SomeTyped(blocks) ==> c.found
    ensures !c.found ==> c.text == "" && NullsEmpty(blocks)
  {
    if blocks != [] {
      var first, rest := BlockContent(blocks[0], false).value, BlocksContent(blocks[1..], false).value;
      BlocksDiffer(blocks[0]);
      ClientSees(blocks[1..], rest);
      var here, there := ClientBlock(blocks[0]).value, ClientBlocks(blocks[1..]).value;
      assert blocks == [blocks[0]] + blocks[1..];
      assert first.text + rest.text == c.text;
      if here.text + there.text == c.text {
        assert |here.text| == |first.text| && |there.text| == |rest.text|;
        assert here.text == c.text[..|first.text|] == first.text;
        assert there.text == c.text[|first.text|..] == rest.text;
      }
    }
  }

  /** What a caller can check of a message whose response the proxy accepts. */
  predicate Harmless(ms: seq<Member>) {
    || IsStr(Lookup(ms, "refusal"))
    || match Lookup(ms, "content")
       case Some(Arr(blocks)) => SomeTyped(blocks) && NullsEmpty(blocks)
       case _ => true
  }

  lemma MessagesAgreeIff(ms: seq<Member>, m: Envelope, t: TextMessage)
    requires EnvelopeOf(ms) == Some(m) && ResponseMessage(m) == Some(t)
    ensures ClientMessage(ms) == Some(t) <==> Harmless(ms)
  {
    var c := ContentText(m.content, false).value;
    match Lookup(ms, "content") {
      case Some(Arr(blocks)) => ClientSees(blocks, c);
      case _ =>
    }
    if m.refusal.Some? {
      assert "" + m.refusal.value == m.refusal.value;
    }
  }

  /**
   * Whenever the proxy accepts a chat response, the client comes to the same message if and only if the
   * message carries a refusal, its content is a string, or its blocks hold text under some type that is
   * not null and no text under a null type.
   */
  lemma AgreeIff(body: Json, t: TextMessage)
    requires ChatResponse(body) == Some(t)
    ensures MessageOf(body).Some?
    ensures ClientResponse(body) == Some(t) <==> Harmless(MessageOf(body).value)
  {
    var choices := ArrayField(body.members, "choices").value;
    var m := DecodeChoice(choices[0]).value;
    assert m != ZERO_ENVELOPE;
    MessagesAgreeIff(MessageOf(body).value, m, t);
  }

  /** Without null types the two normalisers never differ. */
  lemma AgreeWithoutNullTypes(body: Json, t: TextMessage)
    requires ChatResponse(body) == Some(t)
    requires MessageOf(body).Some? ==>
               match Lookup(MessageOf(body).value, "content")
               case Some(Arr(blocks)) => forall b :: b in blocks ==> !NullTyped(b)
               case _ => true
    ensures ClientResponse(body) == Some(t)
  {
    AgreeIff(body, t);
    var ms := MessageOf(body).value;
    match Lookup(ms, "content") {
      case Some(Arr(blocks)) =>
        if !IsStr(Lookup(ms, "refusal")) {
          FoundSomewhere(blocks);
        }
      case _ =>
    }
  }

  lemma {:induction false} FoundSomewhere(blocks: seq<Json>)
    requires BlocksContent(blocks, false).Some? && BlocksContent(blocks, false).value.found
    ensures exists b :: b in blocks && HasText(b)
  {
    if !HasText(blocks[0]) {
      FoundSomewhere(blocks[1..]);
      var b :| b in blocks[1..] && HasText(b);
      assert b in blocks;
    }
  }

  // ----- When they do not ------------------------------------------------------------------

  function Wrapped(content: Json): Json {
    Obj([Member("choices", Arr([Obj([Member("message",
                                            Obj([Member("role", Str("assistant")), Member("content", content)]))])]))])
  }

  lemma WrappedLookups(content: Json, ms: seq<Member>)
    requires ms == [Member("role", Str("assistant")), Member("content", content)]
    ensures Lookup(ms, "role") == Some(Str("assistant")) && Lookup(ms, "content") == Some(content)
    ensures Lookup(ms, "type") == None && Lookup(ms, "refusal") == None
    ensures Lookup(ms, "tool_calls") == None && Lookup(ms, "function_call") == None
  {
    forall key: string
      ensures Lookup(ms, key) == if key == "content" then Some(content)
              else if key == "role" then Some(Str("assistant")) else None
    {
      LookupTwo(ms[0], ms[1], key);
    }
  }

  lemma ChoicesDecode(message: seq<Member>)
    requires UniqueNames(Obj(message))
    ensures var body := Obj([Member("choices", Arr([Obj([Member("message", Obj(message))])]))]);
            && MessageOf(body) == Some(message)
            && ChatResponse(body) == match EnvelopeOf(message) case None => None case Some(m) => ResponseMessage(m)
  {
    var inner := Member("message", Obj(message));
    var choice := Obj([inner]);
    var choices := Member("choices", Arr([choice]));
    LookupOne(inner, "message");
    LookupOne(choices, "choices");
    assert UniqueNames(choice);
    assert UniqueNames(choices.value);
    UniqueObject([choices]);
    assert DecodeChoice(choice) == EnvelopeOf(message);
  }

  function NullBlock(text: string): Json {
    Obj([Member("type", Null), Member("text", Str(text))])
  }

  lemma NullBlockReads(text: string)
    ensures UniqueNames(NullBlock(text)) && NullTyped(NullBlock(text))
    ensures BlockContent(NullBlock(text), false) == Some(Content(text, true))
  {
    var ms := NullBlock(text).members;
    forall key: string
      ensures Lookup(ms, key) == if key == "text" then Some(Str(text)) else if key == "type" then Some(Null) else None
    {
      LookupTwo(ms[0], ms[1], key);
    }
    UniqueObject(ms);
  }

  lemma WrappedAnswers(content: Json, c: Content, d: Content)
    requires UniqueNames(content)
    requires ContentText(Some(content), false) == Some(c) && c.found
    requires ClientContent(Some(content)) == Some(d) && d.found
    ensures ChatResponse(Wrapped(content)) == Some(TextMessage("assistant", c.text))
    ensures ClientResponse(Wrapped(content)) == Some(TextMessage("assistant", d.text))
  {
    var message := [Member("role", Str("assistant")), Member("content", content)];
    WrappedLookups(content, message);
    UniqueObject(message);
    ChoicesDecode(message);
  }

  /** A text under a null type, then one under a proper type: the proxy signs both, the client finds only the second. */
  lemma NullTypeDisagrees(hidden: string, shown: string)
    ensures var body := Wrapped(Arr([NullBlock(hidden), RenderPart(Part("text", shown))]));
            && ChatResponse(body) == Some(TextMessage("assistant", hidden + shown))
            && ClientResponse(body) == Some(TextMessage("assistant", shown))
  {
    var a, b := NullBlock(hidden), RenderPart(Part("text", shown));
    NullBlockReads(hidden);
    TypedPartReads(shown);
    BlocksDiffer(a);
    BlocksDiffer(b);
    PairContent(a, b);
    assert "" + shown == shown;
    WrappedAnswers(Arr([a, b]), Content(hidden + shown, true), Content(shown, true));
  }

  lemma PairContent(a: Json, b: Json)
    ensures BlocksContent([a, b], false) == Then(BlockContent(a, false), BlockContent(b, false))
    ensures ClientBlocks([a, b]) == Then(ClientBlock(a), ClientBlock(b))
  {
    assert [a, b][1..] == [b] && [b][1..] == [];
    ThenNothing(BlockContent(b, false));
    ThenNothing(ClientBlock(b));
    assert BlocksContent([b], false) == BlockContent(b, false);
    assert ClientBlocks([b]) == ClientBlock(b);
  }

  lemma TypedPartReads(text: string)
    ensures UniqueNames(RenderPart(Part("text", text))) && !NullTyped(RenderPart(Part("text", text)))
    ensures BlockContent(RenderPart(Part("text", text)), false) == Some(Content(text, true))
  {
    PartReads(Part("text", text));
    var kind, value := Member("type", Str("text")), Member("text", Str(text));
    assert RenderPart(Part("text", text)).members == [kind, value];
    LookupTwo(kind, value, "type");
  }
}
