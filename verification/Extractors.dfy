/**
 * Reducing the request bodies of three chat protocols to one conversation
 * (internal/mitmproxy/text_extractors.go). Bodies are JSON values; a field is looked up by its exact name.
 */
module Extractors {
  import opened Basics
  import opened Json
  import opened CanonicalJson

  datatype TextMessage = TextMessage(role: string, text: string)

  datatype Conversation = Conversation(model: string, messages: seq<TextMessage>)

  // ----- Decoding objects ------------------------------------------------------------------

  /** decodeJSONObject: an object in which no object repeats a name. */
  function DecodeObject(v: Json): Option<seq<Member>> {
    if v.Obj? && UniqueNames(v) then Some(v.members) else None
  }

  /** The value of a field; the last one counts. */
  function Lookup(ms: seq<Member>, key: string): Option<Json> {
    if ms == [] then None
    else
      var later := Lookup(ms[1..], key);
      if later.Some? then later else if ms[0].key == key then Some(ms[0].value) else None
  }

  /** A field that is missing or null keeps its zero value. */
  predicate Absent(v: Option<Json>) {
    v.None? || v.value.Null?
  }

  /** A Go string field: the error is a value of another type. */
  function StringField(ms: seq<Member>, key: string): Option<string> {
    var v := Lookup(ms, key);
    if Absent(v) then Some("") else if v.value.Str? then Some(v.value.s) else None
  }

  /** A Go *string field. */
  function PointerField(ms: seq<Member>, key: string): Option<Option<string>> {
    var v := Lookup(ms, key);
    if Absent(v) then Some(None) else if v.value.Str? then Some(Some(v.value.s)) else None
  }

  /** A Go []json.RawMessage field. */
  function ArrayField(ms: seq<Member>, key: string): Option<seq<Json>> {
    var v := Lookup(ms, key);
    if Absent(v) then Some([]) else if v.value.Arr? then Some(v.value.items) else None
  }

  datatype Block = Block(kind: string, text: Option<string>, refusal: Option<string>)

  function DecodeBlock(v: Json): Option<Block> {
    match DecodeObject(v)
    case None => None
    case Some(ms) =>
      match (StringField(ms, "type"), PointerField(ms, "text"), PointerField(ms, "refusal"))
      case (Some(kind), Some(text), Some(refusal)) => Some(Block(kind, text, refusal))
      case _ => None
  }

  datatype Envelope = Envelope(
    kind: string,
    role: string,
    content: Option<Json>,
    refusal: Option<string>,
    toolCalls: Option<Json>,
    functionCall: Option<Json>
  )

  function EnvelopeOf(ms: seq<Member>): Option<Envelope> {
    match (StringField(ms, "type"), StringField(ms, "role"), PointerField(ms, "refusal"))
    case (Some(kind), Some(role), Some(refusal)) =>
      Some(Envelope(kind, role, Lookup(ms, "content"), refusal, Lookup(ms, "tool_calls"), Lookup(ms, "function_call")))
    case _ => None
  }

  function DecodeEnvelope(v: Json): Option<Envelope> {
    match DecodeObject(v)
    case None => None
    case Some(ms) => EnvelopeOf(ms)
  }

  // ----- The text of a content value -------------------------------------------------------

  /** Found is false when there is no text block at all, which is not the same as an empty text. */
  datatype Content = Content(text: string, found: bool)

  const NO_TEXT := Content("", false)

  predicate IsText(b: Block) {
    || b.kind == "text" || b.kind == "input_text" || b.kind == "output_text" || b.kind == "refusal"
    || (b.kind == "" && b.text.Some?)
  }

  function BlockText(b: Block): Option<string> {
    if b.kind == "refusal" && b.text.None? then b.refusal else b.text
  }

  /** What one block contributes; None is an error. */
  function BlockContent(v: Json, rejectNonText: bool): Option<Content> {
    match DecodeBlock(v)
    case None => None
    case Some(b) =>
      if !IsText(b) then if rejectNonText then None else Some(NO_TEXT)
      else match BlockText(b)
           case None => None
           case Some(text) => Some(Content(text, true))
  }

  function Then(c: Option<Content>, d: Option<Content>): Option<Content> {
    if c.None? || d.None? then None else Some(Content(c.value.text + d.value.text, c.value.found || d.value.found))
  }

  function BlocksContent(blocks: seq<Json>, rejectNonText: bool): Option<Content> {
    if blocks == [] then Some(NO_TEXT)
    else Then(BlockContent(blocks[0], rejectNonText), BlocksContent(blocks[1..], rejectNonText))
  }

  function ContentText(raw: Option<Json>, rejectNonText: bool): Option<Content> {
    if Absent(raw) then Some(NO_TEXT)
    else match raw.value
         case Str(s) => Some(Content(s, true))
         case Arr(blocks) => BlocksContent(blocks, rejectNonText)
         case _ => None
  }

  lemma {:induction false} BlocksAppend(xs: seq<Json>, ys: seq<Json>, rejectNonText: bool)
    ensures BlocksContent(xs + ys, rejectNonText) ==
            Then(BlocksContent(xs, rejectNonText), BlocksContent(ys, rejectNonText))
  {
    if xs == [] {
      assert xs + ys == ys;
      var c := BlocksContent(ys, rejectNonText);
      assert c.Some? ==> "" + c.value.text == c.value.text;
    } else {
      BlocksAppend(xs[1..], ys, rejectNonText);
      assert (xs + ys)[0] == xs[0] && (xs + ys)[1..] == xs[1..] + ys;
      ThenAssociates(BlockContent(xs[0], rejectNonText), BlocksContent(xs[1..], rejectNonText),
                     BlocksContent(ys, rejectNonText));
    }
  }

  lemma ThenAssociates(c: Option<Content>, d: Option<Content>, e: Option<Content>)
    ensures Then(Then(c, d), e) == Then(c, Then(d, e))
  {
    if c.Some? && d.Some? && e.Some? {
      assert (c.value.text + d.value.text) + e.value.text == c.value.text + (d.value.text + e.value.text);
    }
  }

  lemma BlocksUpTo(blocks: seq<Json>, i: nat, rejectNonText: bool)
    requires i < |blocks|
    ensures BlocksContent(blocks[..i + 1], rejectNonText) ==
            Then(BlocksContent(blocks[..i], rejectNonText), BlockContent(blocks[i], rejectNonText))
  {
    assert blocks[..i + 1] == blocks[..i] + [blocks[i]];
    BlocksAppend(blocks[..i], [blocks[i]], rejectNonText);
    assert [blocks[i]][1..] == [];
    var c := BlockContent(blocks[i], rejectNonText);
    assert c.Some? ==> c.value.text + "" == c.value.text;
  }

  predicate IsTextBlock(v: Json) {
    DecodeBlock(v).Some? && IsText(DecodeBlock(v).value)
  }

  /** A request content is accepted only if all of it is text, and then none of it is left out. */
  lemma {:induction false} NothingDropped(blocks: seq<Json>)
    ensures BlocksContent(blocks, true).Some? <==> forall b :: b in blocks ==>
              IsTextBlock(b) && BlockText(DecodeBlock(b).value).Some?
    ensures BlocksContent(blocks, true).Some? ==>
              BlocksContent(blocks, false) == BlocksContent(blocks, true)
                && (BlocksContent(blocks, true).value.found <==> blocks != [])
  {
    if blocks != [] {
      NothingDropped(blocks[1..]);
      assert blocks == [blocks[0]] + blocks[1..];
    }
  }

  function TextOnly(blocks: seq<Json>): seq<Json> {
    if blocks == [] then []
    else if IsTextBlock(blocks[0]) then [blocks[0]] + TextOnly(blocks[1..])
    else TextOnly(blocks[1..])
  }

  /** A response content is read as if the blocks that are not text had never been there, if all blocks decode. */
  lemma {:induction false} NonTextDropped(blocks: seq<Json>)
    ensures BlocksContent(blocks, false) ==
            if forall b :: b in blocks ==> DecodeBlock(b).Some? then BlocksContent(TextOnly(blocks), true) else None
  {
    if blocks != [] {
      NonTextDropped(blocks[1..]);
      assert blocks == [blocks[0]] + blocks[1..];
      var rest := BlocksContent(blocks[1..], false);
      assert rest.Some? ==> "" + rest.value.text == rest.value.text;
      if IsTextBlock(blocks[0]) {
        assert TextOnly(blocks)[1..] == TextOnly(blocks[1..]);
      }
    }
  }

  /** extractContentText appends to a builder block by block and stops at the first error. */
  method ExtractContentText(raw: Option<Json>, rejectNonText: bool) returns (r: Option<Content>)
    ensures r == ContentText(raw, rejectNonText)
  {
    if Absent(raw) {
      return Some(NO_TEXT);
    }
    match raw.value {
      case Str(s) => return Some(Content(s, true));
      case Arr(blocks) =>
        var text, found := "", false;
        for i := 0 to |blocks|
          invariant BlocksContent(blocks[..i], rejectNonText) == Some(Content(text, found))
        {
          BlocksUpTo(blocks, i, rejectNonText);
          BlocksAppend(blocks[..i + 1], blocks[i + 1..], rejectNonText);
          assert blocks[..i + 1] + blocks[i + 1..] == blocks;
          var block := DecodeBlock(blocks[i]);
          if block.None? {
            return None;
          }
          if !IsText(block.value) {
            if rejectNonText {
              return None;
            }
            assert text + "" == text;
            continue;
          }
          var value := block.value.text;
          if block.value.kind == "refusal" && value.None? {
            value := block.value.refusal;
          }
          if value.None? {
            return None;
          }
          found := true;
          text := text + value.value;
        }
        assert blocks[..|blocks|] == blocks;
        return Some(Content(text, found));
      case _ => return None;
    }
  }

  // ----- Messages --------------------------------------------------------------------------

  predicate RequestRole(role: string) {
    role == "system" || role == "developer" || role == "user" || role == "assistant"
  }

  /** rawJSONPresent: anything but null and the empty array. */
  predicate RawPresent(raw: Option<Json>) {
    !Absent(raw) && raw.value != Arr([])
  }

  function RequestMessage(m: Envelope): Option<TextMessage> {
    if !RequestRole(m.role) || RawPresent(m.toolCalls) || RawPresent(m.functionCall) then None
    else match ContentText(m.content, true)
         case None => None
         case Some(c) => if c.found then Some(TextMessage(m.role, c.text)) else None
  }

  function ResponseMessage(m: Envelope): Option<TextMessage> {
    if m.role != "assistant" then None
    else match ContentText(m.content, false)
         case None => None
         case Some(c) =>
           match m.refusal
           case None => if c.found then Some(TextMessage("assistant", c.text)) else None
           case Some(refusal) => if c.found then None else Some(TextMessage("assistant", refusal))
  }

  function RequestItem(v: Json, typed: bool): Option<TextMessage> {
    match DecodeEnvelope(v)
    case None => None
    case Some(m) => if typed && m.kind != "" && m.kind != "message" then None else RequestMessage(m)
  }

  /** All the messages, or an error if one of them is not supported. A typed item must be a message. */
  function RequestItems(raw: seq<Json>, typed: bool): Option<seq<TextMessage>> {
    if raw == [] then Some([])
    else match (RequestItem(raw[0], typed), RequestItems(raw[1..], typed))
         case (Some(m), Some(rest)) => Some([m] + rest)
         case _ => None
  }

  function Joined(ms: Option<seq<TextMessage>>, ns: Option<seq<TextMessage>>): Option<seq<TextMessage>> {
    if ms.None? || ns.None? then None else Some(ms.value + ns.value)
  }

  lemma JoinedAssociates(ms: Option<seq<TextMessage>>, ns: Option<seq<TextMessage>>, os: Option<seq<TextMessage>>)
    ensures Joined(Joined(ms, ns), os) == Joined(ms, Joined(ns, os))
  {
    if ms.Some? && ns.Some? && os.Some? {
      assert (ms.value + ns.value) + os.value == ms.value + (ns.value + os.value);
    }
  }

  lemma ItemsOne(v: Json, typed: bool)
    ensures RequestItems([v], typed) == match RequestItem(v, typed) case Some(m) => Some([m]) case None => None
  {
    assert [v][1..] == [];
    assert RequestItems([], typed) == Some([]);
    assert forall m: TextMessage :: [m] + [] == [m];
  }

  /** The messages of two lists of items are the messages of one after the other. */
  lemma {:induction false} ItemsAppend(xs: seq<Json>, ys: seq<Json>, typed: bool)
    ensures RequestItems(xs + ys, typed) == Joined(RequestItems(xs, typed), RequestItems(ys, typed))
  {
    if xs == [] {
      assert xs + ys == ys;
      var ms := RequestItems(ys, typed);
      assert ms.Some? ==> [] + ms.value == ms.value;
    } else {
      ItemsAppend(xs[1..], ys, typed);
      assert (xs + ys)[0] == xs[0] && (xs + ys)[1..] == xs[1..] + ys;
      var first := match RequestItem(xs[0], typed) case Some(m) => Some([m]) case None => None;
      JoinedAssociates(first, RequestItems(xs[1..], typed), RequestItems(ys, typed));
    }
  }

  lemma ItemsUpTo(raw: seq<Json>, i: nat, typed: bool)
    requires i < |raw|
    ensures RequestItems(raw[..i + 1], typed) == Joined(RequestItems(raw[..i], typed), RequestItems([raw[i]], typed))
    ensures RequestItems(raw, typed) == Joined(RequestItems(raw[..i + 1], typed), RequestItems(raw[i + 1..], typed))
  {
    assert raw[..i + 1] == raw[..i] + [raw[i]];
    ItemsAppend(raw[..i], [raw[i]], typed);
    assert raw == raw[..i + 1] + raw[i + 1..];
    ItemsAppend(raw[..i + 1], raw[i + 1..], typed);
  }

  /** The message loops of extractRequestMessages and of the Responses extractor. */
  method ExtractItems(raw: seq<Json>, typed: bool) returns (r: Option<seq<TextMessage>>)
    ensures r == RequestItems(raw, typed)
  {
    var messages: seq<TextMessage> := [];
    for i := 0 to |raw|
      invariant RequestItems(raw[..i], typed) == Some(messages)
    {
      ItemsUpTo(raw, i, typed);
      ItemsOne(raw[i], typed);
      var item := DecodeEnvelope(raw[i]);
      if item.None? || (typed && item.value.kind != "" && item.value.kind != "message") {
        return None;
      }
      var m := item.value;
      if !RequestRole(m.role) || RawPresent(m.toolCalls) || RawPresent(m.functionCall) {
        return None;
      }
      var content := ExtractContentText(m.content, true);
      if content.None? || !content.value.found {
        return None;
      }
      messages := messages + [TextMessage(m.role, content.value.text)];
    }
    assert raw[..|raw|] == raw;
    return Some(messages);
  }

  // ----- The three request protocols -------------------------------------------------------

  type Name = s: string | s != "" witness "m"

  /** The model in the body, or else the one the request path names, if it names one. */
  function RequestModel(bodyModel: string, pathModel: Option<Name>): Option<Name> {
    if bodyModel != "" then Some(bodyModel) else pathModel
  }

  /** The optional text of a member as a message of its own. */
  function SystemMessage(raw: Option<Json>): Option<seq<TextMessage>> {
    match ContentText(raw, true)
    case None => None
    case Some(c) => Some(if c.found then [TextMessage("system", c.text)] else [])
  }

  function FieldsOf(model: Option<Name>, system: Option<seq<TextMessage>>,
                    messages: Option<seq<TextMessage>>): Option<Conversation> {
    match (model, system, messages)
    case (Some(name), Some(first), Some(rest)) => Some(Conversation(name, first + rest))
    case _ => None
  }

  /** A request body with the types its envelope asks for. */
  function DecodeRequest(body: Json): Option<(seq<Member>, string, seq<Json>)> {
    match DecodeObject(body)
    case None => None
    case Some(ms) =>
      match (StringField(ms, "model"), ArrayField(ms, "messages"))
      case (Some(model), Some(messages)) => Some((ms, model, messages))
      case _ => None
  }

  function ChatRequest(body: Json, pathModel: Option<Name>): Option<Conversation> {
    match DecodeRequest(body)
    case None => None
    case Some((_, model, messages)) =>
      if messages == [] then None
      else FieldsOf(RequestModel(model, pathModel), Some([]), RequestItems(messages, false))
  }

  function MessagesRequest(body: Json, pathModel: Option<Name>): Option<Conversation> {
    match DecodeRequest(body)
    case None => None
    case Some((ms, model, messages)) =>
      if messages == [] then None
      else FieldsOf(RequestModel(model, pathModel), SystemMessage(Lookup(ms, "system")), RequestItems(messages, false))
  }

  /** The input is the text of one user message or a non-empty array of items. */
  function InputMessages(input: Option<Json>): Option<seq<TextMessage>> {
    match input
    case Some(Str(s)) => Some([TextMessage("user", s)])
    case Some(Arr(items)) => if items == [] then None else RequestItems(items, true)
    case _ => None
  }

  function ResponsesRequest(body: Json, pathModel: Option<Name>): Option<Conversation> {
    match DecodeRequest(body)
    case None => None
    case Some((ms, model, _)) =>
      FieldsOf(RequestModel(model, pathModel), SystemMessage(Lookup(ms, "instructions")),
               InputMessages(Lookup(ms, "input")))
  }

  method ExtractChatRequest(body: Json, pathModel: Option<Name>) returns (r: Option<Conversation>)
    ensures r == ChatRequest(body, pathModel)
  {
    var request := DecodeRequest(body);
    if request.None? || request.value.2 == [] {
      return None;
    }
    var messages := ExtractItems(request.value.2, false);
    var model := RequestModel(request.value.1, pathModel);
    if messages.None? || model.None? {
      return None;
    }
    assert [] + messages.value == messages.value;
    return Some(Conversation(model.value, messages.value));
  }

  method ExtractMessagesRequest(body: Json, pathModel: Option<Name>) returns (r: Option<Conversation>)
    ensures r == MessagesRequest(body, pathModel)
  {
    var request := DecodeRequest(body);
    if request.None? || request.value.2 == [] {
      return None;
    }
    var extracted := ExtractItems(request.value.2, false);
    if extracted.None? {
      return None;
    }
    var messages := extracted.value;
    var system := ExtractContentText(Lookup(request.value.0, "system"), true);
    if system.None? {
      return None;
    }
    if system.value.found {
      messages := [TextMessage("system", system.value.text)] + messages;
    }
    var model := RequestModel(request.value.1, pathModel);
    if model.None? {
      return None;
    }
    assert [] + extracted.value == extracted.value;
    return Some(Conversation(model.value, messages));
  }

  method ExtractResponsesRequest(body: Json, pathModel: Option<Name>) returns (r: Option<Conversation>)
    ensures r == ResponsesRequest(body, pathModel)
  {
    var request := DecodeRequest(body);
    if request.None? {
      return None;
    }
    var model := RequestModel(request.value.1, pathModel);
    var input := Lookup(request.value.0, "input");
    if model.None? || input.None? {
      return None;
    }
    var messages: seq<TextMessage> := [];
    var instructions := ExtractContentText(Lookup(request.value.0, "instructions"), true);
    if instructions.None? {
      return None;
    }
    if instructions.value.found {
      messages := messages + [TextMessage("system", instructions.value.text)];
      assert messages == [TextMessage("system", instructions.value.text)];
    }
    assert SystemMessage(Lookup(request.value.0, "instructions")) == Some(messages);
    match input.value {
      case Str(s) =>
        return Some(Conversation(model.value, messages + [TextMessage("user", s)]));
      case Arr(items) =>
        if items == [] {
          return None;
        }
        var rest := ExtractItems(items, true);
        if rest.None? {
          return None;
        }
        return Some(Conversation(model.value, messages + rest.value));
      case _ => return None;
    }
  }
}
