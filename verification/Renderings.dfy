/**
 * The same conversation written for the Chat, Anthropic Messages and Responses protocols: whatever way
 * the text is spread over strings and text blocks, the three extractors give back that conversation.
 */
module Renderings {
  import opened Basics
  import opened Json
  import opened CanonicalJson
  import opened Extractors

  // ----- Writing a conversation down -------------------------------------------------------

  /** A text block; the type may be left out. */
  datatype Part = Part(tag: string, text: string)

  predicate TextTag(tag: string) {
    tag == "" || tag == "text" || tag == "input_text" || tag == "output_text" || tag == "refusal"
  }

  /** A text as one string or as a list of text blocks. */
  datatype Form = Whole(text: string) | Pieces(parts: seq<Part>)

  ghost predicate GoodForm(f: Form) {
    f.Pieces? ==> f.parts != [] && forall p :: p in f.parts ==> TextTag(p.tag)
  }

  function PartsText(parts: seq<Part>): string {
    if parts == [] then "" else parts[0].text + PartsText(parts[1..])
  }

  function FormText(f: Form): string {
    match f
    case Whole(text) => text
    case Pieces(parts) => PartsText(parts)
  }

  function RenderPart(p: Part): Json {
    Obj((if p.tag == "" then [] else [Member("type", Str(p.tag))]) + [Member("text", Str(p.text))])
  }

  function RenderParts(parts: seq<Part>): seq<Json> {
    if parts == [] then [] else [RenderPart(parts[0])] + RenderParts(parts[1..])
  }

  function RenderForm(f: Form): Json {
    match f
    case Whole(text) => Str(text)
    case Pieces(parts) => Arr(RenderParts(parts))
  }

  /** A message with its role; only some clients give items a type. */
  datatype Spoken = Spoken(role: string, form: Form, typed: bool)

  ghost predicate GoodMessages(ms: seq<Spoken>) {
    forall m :: m in ms ==> RequestRole(m.role) && GoodForm(m.form)
  }

  function RenderMessage(m: Spoken): Json {
    Obj((if m.typed then [Member("type", Str("message"))] else [])
        + [Member("role", Str(m.role)), Member("content", RenderForm(m.form))])
  }

  function RenderMessages(ms: seq<Spoken>): seq<Json> {
    if ms == [] then [] else [RenderMessage(ms[0])] + RenderMessages(ms[1..])
  }

  function Meant(ms: seq<Spoken>): seq<TextMessage> {
    if ms == [] then [] else [TextMessage(ms[0].role, FormText(ms[0].form))] + Meant(ms[1..])
  }

  function SystemSpoken(system: Option<Form>): seq<Spoken> {
    match system
    case None => []
    case Some(f) => [Spoken("system", f, false)]
  }

  function OptionalMember(key: string, form: Option<Form>): seq<Member> {
    match form
    case None => []
    case Some(f) => [Member(key, RenderForm(f))]
  }

  function ChatBody(model: string, system: Option<Form>, ms: seq<Spoken>): Json {
    Obj([Member("model", Str(model))] + [Member("messages", Arr(RenderMessages(SystemSpoken(system) + ms)))])
  }

  function MessagesBody(model: string, system: Option<Form>, ms: seq<Spoken>): Json {
    Obj([Member("model", Str(model))] + OptionalMember("system", system)
        + [Member("messages", Arr(RenderMessages(ms)))])
  }

  function ResponsesBody(model: string, system: Option<Form>, ms: seq<Spoken>): Json {
    Obj([Member("model", Str(model))] + OptionalMember("instructions", system)
        + [Member("input", Arr(RenderMessages(ms)))])
  }

  /** A Responses request whose input is just the text of the user. */
  function PromptBody(model: string, system: Option<Form>, prompt: string): Json {
    Obj([Member("model", Str(model))] + OptionalMember("instructions", system) + [Member("input", Str(prompt))])
  }

  // ----- Lookups in what was written -------------------------------------------------------

  lemma {:induction false} LookupAppend(xs: seq<Member>, ys: seq<Member>, key: string)
    ensures Lookup(xs + ys, key) == if Lookup(ys, key).Some? then Lookup(ys, key) else Lookup(xs, key)
  {
    if xs == [] {
      assert xs + ys == ys;
    } else {
      LookupAppend(xs[1..], ys, key);
      assert (xs + ys)[0] == xs[0] && (xs + ys)[1..] == xs[1..] + ys;
    }
  }

  lemma LookupOne(m: Member, key: string)
    ensures Lookup([m], key) == if m.key == key then Some(m.value) else None
  {
    assert [m][1..] == [];
  }

  lemma LookupTwo(m: Member, n: Member, key: string)
    ensures Lookup([m, n], key) ==
            if n.key == key then Some(n.value) else if m.key == key then Some(m.value) else None
  {
    assert [m, n] == [m] + [n];
    LookupAppend([m], [n], key);
    LookupOne(m, key);
    LookupOne(n, key);
  }

  lemma UniqueObject(ms: seq<Member>)
    requires DistinctNames(ms) && forall m :: m in ms ==> UniqueNames(m.value)
    ensures DecodeObject(Obj(ms)) == Some(ms)
  {
  }

  // ----- Reading a text back ---------------------------------------------------------------

  lemma PartReads(p: Part)
    requires TextTag(p.tag)
    ensures UniqueNames(RenderPart(p))
    ensures BlockContent(RenderPart(p), true) == Some(Content(p.text, true))
  {
    var first := if p.tag == "" then [] else [Member("type", Str(p.tag))];
    var last := [Member("text", Str(p.text))];
    UniqueObject(first + last);
    ReadsThree(first, last, "type", "text", "refusal");
    if first != [] {
      LookupOne(first[0], "type");
      LookupOne(first[0], "text");
      LookupOne(first[0], "refusal");
    }
    LookupOne(last[0], "type");
    LookupOne(last[0], "text");
    LookupOne(last[0], "refusal");
  }

  lemma ReadsThree(xs: seq<Member>, ys: seq<Member>, a: string, b: string, c: string)
    ensures Lookup(xs + ys, a) == if Lookup(ys, a).Some? then Lookup(ys, a) else Lookup(xs, a)
    ensures Lookup(xs + ys, b) == if Lookup(ys, b).Some? then Lookup(ys, b) else Lookup(xs, b)
    ensures Lookup(xs + ys, c) == if Lookup(ys, c).Some? then Lookup(ys, c) else Lookup(xs, c)
  {
    LookupAppend(xs, ys, a);
    LookupAppend(xs, ys, b);
    LookupAppend(xs, ys, c);
  }

  lemma {:induction false} PartsRead(parts: seq<Part>)
    requires forall p :: p in parts ==> TextTag(p.tag)
    ensures forall x :: x in RenderParts(parts) ==> UniqueNames(x)
    ensures BlocksContent(RenderParts(parts), true) == Some(Content(PartsText(parts), parts != []))
  {
    if parts != [] {
      PartReads(parts[0]);
      PartsRead(parts[1..]);
      var xs := RenderParts(parts);
      assert xs[0] == RenderPart(parts[0]) && xs[1..] == RenderParts(parts[1..]);
      assert xs == [xs[0]] + xs[1..];
    }
  }

  lemma FormReads(f: Form)
    requires GoodForm(f)
    ensures UniqueNames(RenderForm(f)) && !RenderForm(f).Null?
    ensures ContentText(Some(RenderForm(f)), true) == Some(Content(FormText(f), true))
  {
    if f.Pieces? {
      PartsRead(f.parts);
    }
  }

  // ----- Reading messages back -------------------------------------------------------------

  /** Finds the members of a message that has no others. */
  lemma MessageLookups(m: Spoken, ms: seq<Member>)
    requires RenderMessage(m) == Obj(ms)
    ensures DistinctNames(ms)
    ensures Lookup(ms, "type") == if m.typed then Some(Str("message")) else None
    ensures Lookup(ms, "role") == Some(Str(m.role))
    ensures Lookup(ms, "content") == Some(RenderForm(m.form))
    ensures Lookup(ms, "refusal") == None && Lookup(ms, "tool_calls") == None && Lookup(ms, "function_call") == None
  {
    var first := if m.typed then [Member("type", Str("message"))] else [];
    var role, content := Member("role", Str(m.role)), Member("content", RenderForm(m.form));
    forall key: string
      ensures Lookup(ms, key) ==
              if key == "content" then Some(content.value) else if key == "role" then Some(role.value)
              else if key == "type" && m.typed then Some(Str("message")) else None
    {
      LookupAppend(first, [role, content], key);
      LookupTwo(role, content, key);
      if m.typed {
        LookupOne(first[0], key);
      }
    }
  }

  lemma MessageReads(m: Spoken, typed: bool)
    requires RequestRole(m.role) && GoodForm(m.form)
    ensures UniqueNames(RenderMessage(m))
    ensures RequestItem(RenderMessage(m), typed) == Some(TextMessage(m.role, FormText(m.form)))
  {
    var ms := RenderMessage(m).members;
    MessageLookups(m, ms);
    FormReads(m.form);
    UniqueObject(ms);
  }

  lemma {:induction false} MessagesRead(ms: seq<Spoken>, typed: bool)
    requires GoodMessages(ms)
    ensures forall x :: x in RenderMessages(ms) ==> UniqueNames(x)
    ensures RequestItems(RenderMessages(ms), typed) == Some(Meant(ms))
    ensures |RenderMessages(ms)| == |ms|
  {
    if ms != [] {
      MessageReads(ms[0], typed);
      MessagesRead(ms[1..], typed);
      var xs := RenderMessages(ms);
      assert xs[0] == RenderMessage(ms[0]) && xs[1..] == RenderMessages(ms[1..]);
      assert xs == [xs[0]] + xs[1..];
    }
  }

  lemma {:induction false} MeantAppends(xs: seq<Spoken>, ys: seq<Spoken>)
    ensures Meant(xs + ys) == Meant(xs) + Meant(ys)
  {
    if xs == [] {
      assert xs + ys == ys;
    } else {
      MeantAppends(xs[1..], ys);
      assert (xs + ys)[0] == xs[0] && (xs + ys)[1..] == xs[1..] + ys;
      var first := [TextMessage(xs[0].role, FormText(xs[0].form))];
      assert Meant(xs + ys) == first + (Meant(xs[1..]) + Meant(ys));
      assert Meant(xs) == first + Meant(xs[1..]);
    }
  }

  // ----- Reading bodies back ---------------------------------------------------------------

  /** Finds the members of a body that has no others. */
  lemma BodyLookups(model: string, key: string, form: Option<Form>, last: Member, ms: seq<Member>, wanted: string)
    requires ms == [Member("model", Str(model))] + OptionalMember(key, form) + [last]
    ensures Lookup(ms, wanted) ==
            if last.key == wanted then Some(last.value)
            else if form.Some? && key == wanted then Some(RenderForm(form.value))
            else if wanted == "model" then Some(Str(model)) else None
  {
    var first := Member("model", Str(model));
    LookupAppend([first] + OptionalMember(key, form), [last], wanted);
    LookupAppend([first], OptionalMember(key, form), wanted);
    LookupOne(first, wanted);
    LookupOne(last, wanted);
    if form.Some? {
      LookupOne(Member(key, RenderForm(form.value)), wanted);
    }
  }

  lemma BodyDecodes(model: string, key: string, form: Option<Form>, last: Member, ms: seq<Member>)
    requires ms == [Member("model", Str(model))] + OptionalMember(key, form) + [last]
    requires key != "model" && last.key != "model" && last.key != key && key != "messages"
    requires last.key == "messages" ==> last.value.Arr?
    requires form.Some? ==> GoodForm(form.value)
    requires UniqueNames(last.value)
    ensures DecodeRequest(Obj(ms)) == Some((ms, model, if last.key == "messages" then last.value.items else []))
  {
    if form.Some? {
      FormReads(form.value);
    }
    UniqueObject(ms);
    BodyLookups(model, key, form, last, ms, "model");
    BodyLookups(model, key, form, last, ms, "messages");
  }

  lemma SystemReads(system: Option<Form>, raw: Option<Json>)
    requires system.Some? ==> GoodForm(system.value)
    requires raw == if system.Some? then Some(RenderForm(system.value)) else None
    ensures SystemMessage(raw) == Some(Meant(SystemSpoken(system)))
  {
    if system.Some? {
      FormReads(system.value);
      assert Meant(SystemSpoken(system)) == [TextMessage("system", FormText(system.value))];
    }
  }

  lemma ChatReads(model: Name, ms: seq<Spoken>, pathModel: Option<Name>)
    requires ms != [] && GoodMessages(ms)
    ensures ChatRequest(ChatBody(model, None, ms), pathModel) == Some(Conversation(model, Meant(ms)))
  {
    MessagesRead(ms, false);
    assert SystemSpoken(None) + ms == ms;
    var last := Member("messages", Arr(RenderMessages(ms)));
    var body := ChatBody(model, None, ms).members;
    assert body == [Member("model", Str(model))] + OptionalMember("system", None) + [last];
    BodyDecodes(model, "system", None, last, body);
    assert [] + Meant(ms) == Meant(ms);
  }

  lemma MessagesReads(model: Name, system: Option<Form>, ms: seq<Spoken>, pathModel: Option<Name>)
    requires system.Some? ==> GoodForm(system.value)
    requires ms != [] && GoodMessages(ms)
    ensures MessagesRequest(MessagesBody(model, system, ms), pathModel) ==
            Some(Conversation(model, Meant(SystemSpoken(system)) + Meant(ms)))
  {
    MessagesRead(ms, false);
    var last := Member("messages", Arr(RenderMessages(ms)));
    var body := MessagesBody(model, system, ms).members;
    BodyDecodes(model, "system", system, last, body);
    BodyLookups(model, "system", system, last, body, "system");
    SystemReads(system, Lookup(body, "system"));
  }

  lemma ResponsesReads(model: Name, system: Option<Form>, input: Json, pathModel: Option<Name>)
    requires system.Some? ==> GoodForm(system.value)
    requires UniqueNames(input) && InputMessages(Some(input)).Some?
    ensures ResponsesRequest(Obj([Member("model", Str(model))] + OptionalMember("instructions", system)
                                 + [Member("input", input)]), pathModel) ==
            Some(Conversation(model, Meant(SystemSpoken(system)) + InputMessages(Some(input)).value))
  {
    var last := Member("input", input);
    var body := [Member("model", Str(model))] + OptionalMember("instructions", system) + [last];
    BodyDecodes(model, "instructions", system, last, body);
    BodyLookups(model, "instructions", system, last, body, "input");
    BodyLookups(model, "instructions", system, last, body, "instructions");
    SystemReads(system, Lookup(body, "instructions"));
  }

  /** Every way of writing a conversation down, in any of the three protocols, is read back the same. */
  lemma RoundTrip(model: Name, system: Option<Form>, ms: seq<Spoken>, pathModel: Option<Name>)
    requires system.Some? ==> GoodForm(system.value)
    requires ms != [] && GoodMessages(ms)
    ensures ChatRequest(ChatBody(model, system, ms), pathModel) ==
            MessagesRequest(MessagesBody(model, system, ms), pathModel) ==
            ResponsesRequest(ResponsesBody(model, system, ms), pathModel) ==
            Some(Conversation(model, Meant(SystemSpoken(system)) + Meant(ms)))
  {
    ChatReads(model, SystemSpoken(system) + ms, pathModel);
    assert SystemSpoken(None) + (SystemSpoken(system) + ms) == SystemSpoken(system) + ms;
    MessagesReads(model, system, ms, pathModel);
    MeantAppends(SystemSpoken(system), ms);
    MessagesRead(ms, true);
    ResponsesReads(model, system, Arr(RenderMessages(ms)), pathModel);
  }

  /** A prompt given as a string is one message of the user. */
  lemma PromptRoundTrip(model: Name, system: Option<Form>, prompt: string, pathModel: Option<Name>)
    requires system.Some? ==> GoodForm(system.value)
    ensures ResponsesRequest(PromptBody(model, system, prompt), pathModel) ==
            Some(Conversation(model, Meant(SystemSpoken(system)) + [TextMessage("user", prompt)]))
  {
    ResponsesReads(model, system, Str(prompt), pathModel);
  }

  // ----- What the extractors can return ----------------------------------------------------

  ghost predicate Sayable(c: Conversation) {
    c.model != "" && c.messages != [] && forall m :: m in c.messages ==> RequestRole(m.role)
  }

  lemma {:induction false} ItemsSayable(raw: seq<Json>, typed: bool)
    requires RequestItems(raw, typed).Some?
    ensures |RequestItems(raw, typed).value| == |raw|
    ensures forall m :: m in RequestItems(raw, typed).value ==> RequestRole(m.role)
  {
    if raw != [] {
      ItemsSayable(raw[1..], typed);
    }
  }

  function Plainly(ms: seq<TextMessage>): seq<Spoken> {
    if ms == [] then [] else [Spoken(ms[0].role, Whole(ms[0].text), false)] + Plainly(ms[1..])
  }

  lemma {:induction false} PlainlyMeant(ms: seq<TextMessage>)
    requires forall m :: m in ms ==> RequestRole(m.role)
    ensures Meant(Plainly(ms)) == ms && GoodMessages(Plainly(ms))
  {
    if ms != [] {
      PlainlyMeant(ms[1..]);
      assert Plainly(ms)[1..] == Plainly(ms[1..]);
      assert Plainly(ms) == [Plainly(ms)[0]] + Plainly(ms)[1..];
    }
  }

  /** Each protocol can carry such a conversation and gives it back unchanged. */
  lemma Carries(c: Conversation)
    requires Sayable(c)
    ensures ChatRequest(ChatBody(c.model, None, Plainly(c.messages)), None) == Some(c)
    ensures MessagesRequest(MessagesBody(c.model, None, Plainly(c.messages)), None) == Some(c)
    ensures ResponsesRequest(ResponsesBody(c.model, None, Plainly(c.messages)), None) == Some(c)
  {
    PlainlyMeant(c.messages);
    RoundTrip(c.model, None, Plainly(c.messages), None);
    assert [] + c.messages == c.messages;
  }

  lemma AcceptedSayable(body: Json, pathModel: Option<Name>, c: Conversation)
    requires Some(c) in {ChatRequest(body, pathModel), MessagesRequest(body, pathModel),
                         ResponsesRequest(body, pathModel)}
    ensures Sayable(c)
  {
    var (ms, model, messages) := DecodeRequest(body).value;
    if RequestItems(messages, false).Some? {
      ItemsSayable(messages, false);
    }
    match Lookup(ms, "input") {
      case Some(Arr(items)) =>
        if RequestItems(items, true).Some? {
          ItemsSayable(items, true);
        }
      case _ =>
    }
  }

  ghost predicate Extractable(extract: (Json, Option<Name>) -> Option<Conversation>, c: Conversation) {
    exists body, pathModel :: extract(body, pathModel) == Some(c)
  }

  /** The three extractors have the same range: a model, at least one message, and supported roles only. */
  lemma SameRange(c: Conversation)
    ensures Extractable(ChatRequest, c) <==> Sayable(c)
    ensures Extractable(MessagesRequest, c) <==> Sayable(c)
    ensures Extractable(ResponsesRequest, c) <==> Sayable(c)
  {
    if Sayable(c) {
      Carries(c);
    }
    forall body, pathModel | Some(c) in {ChatRequest(body, pathModel), MessagesRequest(body, pathModel),
                                         ResponsesRequest(body, pathModel)}
      ensures Sayable(c)
    {
      AcceptedSayable(body, pathModel, c);
    }
  }
}
