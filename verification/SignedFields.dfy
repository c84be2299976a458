/**
 * Field groups and the header that lists them (internal/attestation/attestation.go): what
 * validateFields accepts, and that the comma-separated list gives back both groups' names.
 */
module SignedFields {
  import opened Basics
  import opened Json
  import opened CanonicalJson
  import opened GoText
  import opened Claims

  // ----- validateFields --------------------------------------------------------------------

  /** validateIJSONNumbers, for the integers. */
  predicate SafeNumbers(v: Json)
    decreases v
  {
    match v
    case Num(n) => -MAX_SAFE_INTEGER <= n <= MAX_SAFE_INTEGER
    case Arr(items) => forall i :: 0 <= i < |items| ==> SafeNumbers(items[i])
    case Obj(members) => forall i :: 0 <= i < |members| ==> SafeNumbers(members[i].value)
    case _ => true
  }

  /** canonicalizeJSONValue. */
  function CanonicalValue(v: Json): Option<Json> {
    if SafeNumbers(v) then Canonical(v) else None
  }

  predicate NameOk(name: Text) {
    && !AllSpace(name) && ValidUtf8(name)
    && forall i :: 0 <= i < |name| ==> name[i] != Rune(',') && name[i] != Rune('\r') && name[i] != Rune('\n')
  }

  predicate FieldOk(f: Field) {
    NameOk(f.name) && CanonicalValue(f.value).Some?
  }

  predicate GroupOk(fs: seq<Field>) {
    && (forall i :: 0 <= i < |fs| ==> FieldOk(fs[i]))
    && (forall i, j :: 0 <= i < j < |fs| ==> fs[i].name != fs[j].name)
  }

  predicate FieldsValid(request: seq<Field>, response: seq<Field>, requireResponse: bool) {
    request != [] && (requireResponse ==> response != []) && GroupOk(request) && GroupOk(response)
  }

  /** The key a field is remembered under; the two groups' keys never meet. */
  function SeenKey(group: string, f: Field): Text {
    Lift(group) + [Rune('\0')] + f.name
  }

  lemma SeenKeyDistinct(g: string, f: Field, g': string, f': Field)
    requires g in {"request", "response"} && g' in {"request", "response"}
    ensures SeenKey(g, f) == SeenKey(g', f') <==> g == g' && f.name == f'.name
  {
    var k, k' := SeenKey(g, f), SeenKey(g', f');
    assert k[2] == Rune(g[2]) && k'[2] == Rune(g'[2]);
    if k == k' && g == g' {
      assert k[|g| + 1..] == f.name && k'[|g| + 1..] == f'.name;
    }
  }

  /** seen holds what was there before and the keys of the first n fields. */
  ghost predicate Remembers(group: string, fs: seq<Field>, n: nat, before: set<Text>, seen: set<Text>)
    requires n <= |fs|
  {
    forall k :: k in seen <==> k in before || exists i :: 0 <= i < n && k == SeenKey(group, fs[i])
  }

  lemma SeenIff(group: string, fs: seq<Field>, n: nat, before: set<Text>, seen: set<Text>)
    requires group in {"request", "response"} && n < |fs|
    requires Remembers(group, fs, n, before, seen) && SeenKey(group, fs[n]) !in before
    ensures SeenKey(group, fs[n]) in seen <==> Repeats(fs, n)
    ensures Remembers(group, fs, n + 1, before, seen + {SeenKey(group, fs[n])})
  {
    forall i | 0 <= i < n
      ensures SeenKey(group, fs[i]) == SeenKey(group, fs[n]) <==> fs[i].name == fs[n].name
    {
      SeenKeyDistinct(group, fs[i], group, fs[n]);
    }
  }

  ghost predicate OkUpTo(fs: seq<Field>, n: nat)
    requires n <= |fs|
  {
    && (forall i :: 0 <= i < n ==> FieldOk(fs[i]))
    && (forall i, j :: 0 <= i < j < n ==> fs[i].name != fs[j].name)
  }

  ghost predicate Repeats(fs: seq<Field>, n: nat)
    requires n < |fs|
  {
    exists i :: 0 <= i < n && fs[i].name == fs[n].name
  }

  lemma OneMoreOk(fs: seq<Field>, n: nat)
    requires n < |fs| && OkUpTo(fs, n)
    ensures OkUpTo(fs, n + 1) <==> FieldOk(fs[n]) && !Repeats(fs, n)
  {
  }

  lemma OkThroughout(fs: seq<Field>, n: nat)
    requires n <= |fs|
    ensures OkUpTo(fs, |fs|) <==> GroupOk(fs)
    ensures GroupOk(fs) ==> OkUpTo(fs, n)
  {
  }

  /** One group of the loop; `seen` holds the keys of the fields before it. */
  method ValidateGroup(group: string, fs: seq<Field>, before: set<Text>) returns (ok: bool, seen: set<Text>)
    requires group in {"request", "response"}
    requires forall i :: 0 <= i < |fs| ==> SeenKey(group, fs[i]) !in before
    ensures ok <==> GroupOk(fs)
    ensures ok ==> Remembers(group, fs, |fs|, before, seen)
  {
    seen := before;
    for index := 0 to |fs|
      invariant OkUpTo(fs, index)
      invariant Remembers(group, fs, index, before, seen)
    {
      var field := fs[index];
      OneMoreOk(fs, index);
      OkThroughout(fs, index + 1);
      if !NameOk(field.name) {
        return false, seen;
      }
      SeenIff(group, fs, index, before, seen);
      var key := SeenKey(group, field);
      if key in seen {
        return false, seen;
      }
      seen := seen + {key};
      if CanonicalValue(field.value).None? {
        return false, seen;
      }
    }
    OkThroughout(fs, |fs|);
    return true, seen;
  }

  method ValidateFields(request: seq<Field>, response: seq<Field>, requireResponse: bool) returns (ok: bool)
    ensures ok <==> FieldsValid(request, response, requireResponse)
  {
    if request == [] || (requireResponse && response == []) {
      return false;
    }
    var seen;
    ok, seen := ValidateGroup("request", request, {});
    if !ok {
      return;
    }
    forall i | 0 <= i < |response|
      ensures SeenKey("response", response[i]) !in seen
    {
      forall j | 0 <= j < |request|
        ensures SeenKey("response", response[i]) != SeenKey("request", request[j])
      {
        SeenKeyDistinct("response", response[i], "request", request[j]);
      }
    }
    ok, seen := ValidateGroup("response", response, seen);
  }

  // ----- The list in the header ------------------------------------------------------------

  const COMMA: GoChar := Rune(',')

  function Join(parts: seq<Text>): Text {
    if parts == [] then [] else if |parts| == 1 then parts[0] else parts[0] + [COMMA] + Join(parts[1..])
  }

  function SplitCommas(t: Text): (parts: seq<Text>)
    ensures parts != []
  {
    if t == [] then [[]]
    else
      var rest := SplitCommas(t[1..]);
      if t[0] == COMMA then [[]] + rest else [[t[0]] + rest[0]] + rest[1..]
  }

  lemma {:induction false} SplitOne(part: Text)
    requires COMMA !in part
    ensures SplitCommas(part) == [part]
  {
    if part != [] {
      assert COMMA !in part[1..];
      SplitOne(part[1..]);
      assert part == [part[0]] + part[1..];
    }
  }

  lemma {:induction false} SplitFirst(part: Text, rest: Text)
    requires COMMA !in part
    ensures SplitCommas(part + [COMMA] + rest) == [part] + SplitCommas(rest)
  {
    var t := part + [COMMA] + rest;
    if part == [] {
      assert t[1..] == rest;
    } else {
      assert t[1..] == part[1..] + [COMMA] + rest;
      SplitFirst(part[1..], rest);
      assert part == [part[0]] + part[1..];
    }
  }

  lemma {:induction false} SplitJoin(parts: seq<Text>)
    requires parts != [] && forall i :: 0 <= i < |parts| ==> COMMA !in parts[i]
    ensures SplitCommas(Join(parts)) == parts
  {
    if |parts| == 1 {
      SplitOne(parts[0]);
    } else {
      SplitFirst(parts[0], Join(parts[1..]));
      SplitJoin(parts[1..]);
      assert parts == [parts[0]] + parts[1..];
    }
  }

  const ALWAYS: seq<Text> := [Lift("tls_certificate_sha256"), Lift("domain"), Lift("request.path")]
  const OBSERVED: seq<Text> := [Lift("response.status"), Lift("response.content_type"), Lift("challenge")]

  function Listed(prefix: string, fs: seq<Field>): seq<Text> {
    seq(|fs|, i requires 0 <= i < |fs| => Lift(prefix) + fs[i].name)
  }

  function ConversationList(request: seq<Field>, response: seq<Field>): seq<Text> {
    ALWAYS + Listed("request.body.", request) + Listed("response.body.", response)
  }

  function UpstreamList(request: seq<Field>): seq<Text> {
    ALWAYS + Listed("request.body.", request) + OBSERVED
  }

  /** signedFields. */
  function ConversationFields(request: seq<Field>, response: seq<Field>): Text {
    Join(ConversationList(request, response))
  }

  /** requestUpstreamSignedFields. */
  function UpstreamFields(request: seq<Field>): Text {
    Join(UpstreamList(request))
  }

  /** The loop that appends one group's names. */
  method AppendNames(fields: seq<Text>, prefix: string, fs: seq<Field>) returns (longer: seq<Text>)
    ensures longer == fields + Listed(prefix, fs)
  {
    longer := fields;
    for i := 0 to |fs|
      invariant longer == fields + Listed(prefix, fs)[..i]
    {
      longer := longer + [Lift(prefix) + fs[i].name];
    }
  }

  method ListConversation(request: seq<Field>, response: seq<Field>) returns (list: Text)
    ensures list == ConversationFields(request, response)
  {
    var fields := AppendNames(ALWAYS, "request.body.", request);
    fields := AppendNames(fields, "response.body.", response);
    list := Join(fields);
  }

  method ListUpstream(request: seq<Field>) returns (list: Text)
    ensures list == UpstreamFields(request)
  {
    var fields := AppendNames(ALWAYS, "request.body.", request);
    list := Join(fields + OBSERVED);
  }

  predicate SameNames(fs: seq<Field>, gs: seq<Field>) {
    |fs| == |gs| && forall i :: 0 <= i < |fs| ==> fs[i].name == gs[i].name
  }

  lemma NoCommaListed(prefix: string, fs: seq<Field>)
    requires ',' !in prefix && GroupOk(fs)
    ensures forall i :: 0 <= i < |fs| ==> COMMA !in Listed(prefix, fs)[i]
  {
    forall i | 0 <= i < |fs|
      ensures COMMA !in Listed(prefix, fs)[i]
    {
      assert FieldOk(fs[i]);
    }
  }

  lemma ConstantsNoComma()
    ensures forall i :: 0 <= i < |ALWAYS| ==> COMMA !in ALWAYS[i]
    ensures forall i :: 0 <= i < |OBSERVED| ==> COMMA !in OBSERVED[i]
  {
  }

  lemma ConversationSplits(request: seq<Field>, response: seq<Field>)
    requires FieldsValid(request, response, true)
    ensures SplitCommas(ConversationFields(request, response)) == ConversationList(request, response)
  {
    NoCommaListed("request.body.", request);
    NoCommaListed("response.body.", response);
    ConstantsNoComma();
    SplitJoin(ConversationList(request, response));
  }

  lemma UpstreamSplits(request: seq<Field>)
    requires FieldsValid(request, [], false)
    ensures SplitCommas(UpstreamFields(request)) == UpstreamList(request)
  {
    NoCommaListed("request.body.", request);
    ConstantsNoComma();
    SplitJoin(UpstreamList(request));
  }

  lemma ListedName(prefix: string, f: Field, g: Field)
    requires Lift(prefix) + f.name == Lift(prefix) + g.name
    ensures f.name == g.name
  {
    assert (Lift(prefix) + f.name)[|prefix|..] == f.name;
    assert (Lift(prefix) + g.name)[|prefix|..] == g.name;
  }

  lemma ListedNames(prefix: string, fs: seq<Field>, gs: seq<Field>)
    requires Listed(prefix, fs) == Listed(prefix, gs)
    ensures SameNames(fs, gs)
  {
    assert |fs| == |Listed(prefix, fs)| == |gs|;
    forall i | 0 <= i < |fs|
      ensures fs[i].name == gs[i].name
    {
      assert Listed(prefix, fs)[i] == Listed(prefix, gs)[i];
      ListedName(prefix, fs[i], gs[i]);
    }
  }

  /** Request names start differently from response names, so the groups cannot run into each other. */
  lemma NotLonger(fs: seq<Field>, gs: seq<Field>, fs': seq<Field>, gs': seq<Field>)
    requires Listed("request.body.", fs) + Listed("response.body.", gs) ==
             Listed("request.body.", fs') + Listed("response.body.", gs')
    ensures |fs| >= |fs'|
  {
    var requests, responses := Listed("request.body.", fs'), Listed("response.body.", gs);
    assert forall i :: 0 <= i < |requests| ==> requests[i][2] == Rune('q');
    assert forall i :: 0 <= i < |responses| ==> responses[i][2] == Rune('s');
    var l, l' := Listed("request.body.", fs) + responses, requests + Listed("response.body.", gs');
    assert forall i :: 0 <= i < |requests| ==> l'[i] == requests[i];
    assert forall i :: |fs| <= i < |l| ==> l[i] == responses[i - |fs|];
    assert |fs| < |l| ==> l[|fs|][2] == Rune('s');
  }

  lemma SameTail(head: seq<Text>, a: seq<Text>, b: seq<Text>, a': seq<Text>, b': seq<Text>)
    requires head + a + b == head + a' + b'
    ensures a + b == a' + b'
  {
    assert a + b == (head + a + b)[|head|..];
    assert a' + b' == (head + a' + b')[|head|..];
  }

  lemma SameSplit(a: seq<Text>, b: seq<Text>, a': seq<Text>, b': seq<Text>)
    requires a + b == a' + b' && |a| == |a'|
    ensures a == a' && b == b'
  {
    assert a == (a + b)[..|a|] && a' == (a' + b')[..|a|];
    assert b == (a + b)[|a|..] && b' == (a' + b')[|a|..];
  }

  /** The conversation header determines both ordered lists of names. */
  lemma ConversationFieldsDetermine(request: seq<Field>, response: seq<Field>, request': seq<Field>,
                                    response': seq<Field>)
    requires FieldsValid(request, response, true) && FieldsValid(request', response', true)
    requires ConversationFields(request, response) == ConversationFields(request', response')
    ensures SameNames(request, request') && SameNames(response, response')
  {
    ConversationSplits(request, response);
    ConversationSplits(request', response');
    var a, b := Listed("request.body.", request), Listed("response.body.", response);
    var a', b' := Listed("request.body.", request'), Listed("response.body.", response');
    SameTail(ALWAYS, a, b, a', b');
    NotLonger(request, response, request', response');
    NotLonger(request', response', request, response);
    SameSplit(a, b, a', b');
    ListedNames("request.body.", request, request');
    ListedNames("response.body.", response, response');
  }

  /** So does the request-upstream header. */
  lemma UpstreamFieldsDetermine(request: seq<Field>, request': seq<Field>)
    requires FieldsValid(request, [], false) && FieldsValid(request', [], false)
    requires UpstreamFields(request) == UpstreamFields(request')
    ensures SameNames(request, request')
  {
    UpstreamSplits(request);
    UpstreamSplits(request');
    var a, a' := Listed("request.body.", request), Listed("request.body.", request');
    SameTail(ALWAYS, a, OBSERVED, a', OBSERVED);
    assert |a + OBSERVED| == |a' + OBSERVED|;
    SameSplit(a, OBSERVED, a', OBSERVED);
    ListedNames("request.body.", request, request');
  }

  lemma ConversationEnds(request: seq<Field>, response: seq<Field>)
    requires response != []
    ensures var l := ConversationList(request, response); l[|l| - 1] != [] && l[|l| - 1][0] == Rune('r')
  {
    var l := ConversationList(request, response);
    assert l[|l| - 1] == Listed("response.body.", response)[|response| - 1];
    assert Lift("response.body.")[0] == Rune('r');
  }

  lemma UpstreamEnds(request: seq<Field>)
    ensures var l := UpstreamList(request); l[|l| - 1] != [] && l[|l| - 1][0] == Rune('c')
  {
    var l := UpstreamList(request);
    assert l[|l| - 1] == OBSERVED[2] == Lift("challenge");
    assert Lift("challenge")[0] == Rune('c');
  }

  /** And no header of one profile is one of the other. */
  lemma ProfilesApart(request: seq<Field>, response: seq<Field>, request': seq<Field>)
    requires FieldsValid(request, response, true) && FieldsValid(request', [], false)
    ensures ConversationFields(request, response) != UpstreamFields(request')
  {
    ConversationSplits(request, response);
    UpstreamSplits(request');
    ConversationEnds(request, response);
    UpstreamEnds(request');
  }

  // ----- What makes a field valid ----------------------------------------------------------

  /** n stands somewhere in v. */
  ghost predicate Mentions(v: Json, n: int)
    decreases v
  {
    match v
    case Num(m) => m == n
    case Arr(items) => exists x :: x in items && Mentions(x, n)
    case Obj(members) => exists m :: m in members && Mentions(m.value, n)
    case _ => false
  }

  ghost predicate SafeIntegers(v: Json) {
    forall n :: Mentions(v, n) ==> -9_007_199_254_740_991 <= n <= 9_007_199_254_740_991
  }

  lemma ItemsSafe(items: seq<Json>)
    ensures SafeIntegers(Arr(items)) <==> forall i :: 0 <= i < |items| ==> SafeIntegers(items[i])
  {
    var v := Arr(items);
    if SafeIntegers(v) {
      forall i | 0 <= i < |items|
        ensures SafeIntegers(items[i])
      {
        assert items[i] in items;
        assert forall n :: Mentions(items[i], n) ==> Mentions(v, n);
      }
    }
    if forall i :: 0 <= i < |items| ==> SafeIntegers(items[i]) {
      forall n | Mentions(v, n)
        ensures -9_007_199_254_740_991 <= n <= 9_007_199_254_740_991
      {
        var x :| x in items && Mentions(x, n);
        assert SafeIntegers(x);
      }
    }
  }

  lemma MembersSafe(members: seq<Member>)
    ensures SafeIntegers(Obj(members)) <==> forall i :: 0 <= i < |members| ==> SafeIntegers(members[i].value)
  {
    var v := Obj(members);
    if SafeIntegers(v) {
      forall i | 0 <= i < |members|
        ensures SafeIntegers(members[i].value)
      {
        assert members[i] in members;
        assert forall n :: Mentions(members[i].value, n) ==> Mentions(v, n);
      }
    }
    if forall i :: 0 <= i < |members| ==> SafeIntegers(members[i].value) {
      forall n | Mentions(v, n)
        ensures -9_007_199_254_740_991 <= n <= 9_007_199_254_740_991
      {
        var x :| x in members && Mentions(x.value, n);
        assert SafeIntegers(x.value);
      }
    }
  }

  lemma {:induction false} SafeNumbersIff(v: Json)
    ensures SafeNumbers(v) <==> SafeIntegers(v)
    decreases v
  {
    match v {
      case Num(n) => assert Mentions(v, n);
      case Arr(items) =>
        forall i | 0 <= i < |items|
          ensures SafeNumbers(items[i]) <==> SafeIntegers(items[i])
        {
          SafeNumbersIff(items[i]);
        }
        ItemsSafe(items);
      case Obj(members) =>
        forall i | 0 <= i < |members|
          ensures SafeNumbers(members[i].value) <==> SafeIntegers(members[i].value)
        {
          SafeNumbersIff(members[i].value);
        }
        MembersSafe(members);
      case _ =>
    }
  }

  /** A value can be signed exactly if no object repeats a name and every integer is a safe one. */
  lemma ValueAccepted(v: Json)
    ensures CanonicalValue(v).Some? <==> UniqueNames(v) && SafeIntegers(v)
  {
    SafeNumbersIff(v);
    CanonicalExists(v);
  }

  /** And a field, if also its name shows a character, is UTF-8, and has no comma and no line break. */
  lemma FieldAccepted(f: Field)
    ensures FieldOk(f) <==>
              && (exists g :: g in f.name && !SpaceAt(g)) && (forall g :: g in f.name ==> g.Rune?)
              && Rune(',') !in f.name && Rune('\r') !in f.name && Rune('\n') !in f.name
              && UniqueNames(f.value) && SafeIntegers(f.value)
  {
    ValueAccepted(f.value);
    forall g | g in f.name
      ensures exists i :: 0 <= i < |f.name| && f.name[i] == g
    {
    }
  }
}
