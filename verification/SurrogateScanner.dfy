/**
 * The scan for unpaired surrogate escapes (internal/attestation/attestation.go), an index loop over
 * the bytes of a JSON text. Bytes are written as characters; the scan only looks for ASCII ones.
 */
module SurrogateScanner {
  import opened Basics

  // ----- JSON text, as far as strings go ---------------------------------------------------

  /** What a string is made of: section 7 of RFC 8259. */
  datatype Item = Plain(c: char) | Short(c: char) | Escape(hex: string)

  predicate IsHexDigit(c: char) {
    '0' <= c <= '9' || 'a' <= c <= 'f' || 'A' <= c <= 'F'
  }

  predicate IsHex(s: string) {
    forall i :: 0 <= i < |s| ==> IsHexDigit(s[i])
  }

  predicate ItemOk(item: Item) {
    match item
    case Plain(c) => c != '"' && c != '\\'
    case Short(c) => c in "\"\\/bfnrt"
    case Escape(hex) => |hex| == 4 && IsHex(hex)
  }

  /** The first two digits of a code unit from D800 to DBFF: D8 to DB. */
  predicate StartsHigh(first: char, second: char) {
    (first == 'd' || first == 'D') && ('8' <= second <= '9' || 'a' <= second <= 'b' || 'A' <= second <= 'B')
  }

  /** The first two digits of a code unit from DC00 to DFFF: DC to DF. */
  predicate StartsLow(first: char, second: char) {
    (first == 'd' || first == 'D') && ('c' <= second <= 'f' || 'C' <= second <= 'F')
  }

  /** The escape of a high surrogate, U+D800 to U+DBFF. */
  predicate High(item: Item)
    requires ItemOk(item)
  {
    item.Escape? && StartsHigh(item.hex[0], item.hex[1])
  }

  /** The escape of a low surrogate, U+DC00 to U+DFFF. */
  predicate Low(item: Item)
    requires ItemOk(item)
  {
    item.Escape? && StartsLow(item.hex[0], item.hex[1])
  }

  predicate ItemsOk(items: seq<Item>) {
    forall i :: 0 <= i < |items| ==> ItemOk(items[i])
  }

  predicate PairedAt(items: seq<Item>, j: nat)
    requires ItemsOk(items) && j < |items|
  {
    && (High(items[j]) ==> j + 1 < |items| && Low(items[j + 1]))
    && (Low(items[j]) ==> j > 0 && High(items[j - 1]))
  }

  /** High and low surrogate escapes come in adjacent pairs and no other way. */
  predicate Paired(items: seq<Item>)
    requires ItemsOk(items)
  {
    forall j :: 0 <= j < |items| ==> PairedAt(items, j)
  }

  /** A text is strings, and other bytes between them. */
  datatype Piece = Between(c: char) | Quoted(items: seq<Item>)

  predicate PieceOk(p: Piece) {
    match p
    case Between(c) => c != '"'
    case Quoted(items) => ItemsOk(items)
  }

  predicate PiecesOk(ps: seq<Piece>) {
    forall i :: 0 <= i < |ps| ==> PieceOk(ps[i])
  }

  predicate AllPaired(ps: seq<Piece>)
    requires PiecesOk(ps)
  {
    forall i :: 0 <= i < |ps| && ps[i].Quoted? ==> Paired(ps[i].items)
  }

  // Renderings put the text in front of `rest`.

  function RenderItem(item: Item, rest: string): string {
    match item
    case Plain(c) => [c] + rest
    case Short(c) => ['\\', c] + rest
    case Escape(hex) => ['\\', 'u'] + hex + rest
  }

  function RenderItems(items: seq<Item>, rest: string): string {
    if items == [] then ['"'] + rest else RenderItem(items[0], RenderItems(items[1..], rest))
  }

  function Render(ps: seq<Piece>, rest: string): string
    decreases |ps|
  {
    if ps == [] then rest
    else match ps[0]
         case Between(c) => [c] + Render(ps[1..], rest)
         case Quoted(items) => ['"'] + RenderItems(items, Render(ps[1..], rest))
  }

  // ----- The scan --------------------------------------------------------------------------

  function Unit(hex: string): int
    requires |hex| == 4
  {
    HexValue(hex[0]) * 0x1000 + HexValue(hex[1]) * 0x100 + HexValue(hex[2]) * 0x10 + HexValue(hex[3])
  }

  lemma HexDigit(c: char)
    ensures IsHexDigit(c) <==> HexValue(c) >= 0
  {
  }

  /** The code unit is in a surrogate range exactly if the first two digits say so. */
  lemma UnitRange(hex: string)
    requires |hex| == 4 && IsHex(hex)
    ensures 0xD800 <= Unit(hex) <= 0xDBFF <==> StartsHigh(hex[0], hex[1])
    ensures 0xDC00 <= Unit(hex) <= 0xDFFF <==> StartsLow(hex[0], hex[1])
    ensures Unit(hex) >= 0
  {
    assert HexValue(hex[0]) == 13 <==> hex[0] == 'd' || hex[0] == 'D';
  }

  /** strconv.ParseUint(s, 16, 16), for four digits. */
  function ParseUnit(s: string): (n: int)
    requires |s| == 4
    ensures n == if IsHex(s) then Unit(s) else -1
  {
    HexDigit(s[0]);
    HexDigit(s[1]);
    HexDigit(s[2]);
    HexDigit(s[3]);
    if HexValue(s[0]) < 0 || HexValue(s[1]) < 0 || HexValue(s[2]) < 0 || HexValue(s[3]) < 0 then -1 else Unit(s)
  }

  /** Paired, read off from the front one item or one pair at a time. */
  predicate PairedFront(items: seq<Item>)
    requires ItemsOk(items)
    decreases |items|
  {
    if items == [] then true
    else if High(items[0]) then |items| > 1 && Low(items[1]) && PairedFront(items[2..])
    else !Low(items[0]) && PairedFront(items[1..])
  }

  lemma PairedSuffix(items: seq<Item>, n: nat)
    requires ItemsOk(items) && n <= |items|
    requires forall j :: 0 <= j < n ==> PairedAt(items, j)
    requires n > 0 ==> !High(items[n - 1])
    ensures Paired(items) <==> Paired(items[n..])
  {
    var rest := items[n..];
    if Paired(items) {
      forall j | 0 <= j < |rest|
        ensures PairedAt(rest, j)
      {
        assert PairedAt(items, n + j);
      }
    }
    if Paired(rest) {
      forall j | 0 <= j < |items|
        ensures PairedAt(items, j)
      {
        if j >= n { assert PairedAt(rest, j - n); }
      }
    }
  }

  lemma FrontPaired(items: seq<Item>)
    requires ItemsOk(items) && |items| > 1 && High(items[0]) && Low(items[1])
    ensures Paired(items) <==> Paired(items[2..])
  {
    assert PairedAt(items, 0) && PairedAt(items, 1);
    PairedSuffix(items, 2);
  }

  lemma FrontAlone(items: seq<Item>)
    requires ItemsOk(items) && items != [] && !High(items[0]) && !Low(items[0])
    ensures Paired(items) <==> Paired(items[1..])
  {
    assert PairedAt(items, 0);
    PairedSuffix(items, 1);
  }

  lemma FrontUnpaired(items: seq<Item>)
    requires ItemsOk(items) && items != [] && !PairedAt(items, 0)
    ensures !Paired(items)
  {
  }

  /** Both readings of pairing agree. */
  lemma {:induction false} PairedFrontIff(items: seq<Item>)
    requires ItemsOk(items)
    ensures PairedFront(items) <==> Paired(items)
    decreases |items|
  {
    if items != [] {
      if !PairedAt(items, 0) {
        FrontUnpaired(items);
      } else if High(items[0]) {
        PairedFrontIff(items[2..]);
        FrontPaired(items);
      } else {
        PairedFrontIff(items[1..]);
        FrontAlone(items);
      }
    }
  }

  lemma RenderEnd(items: seq<Item>, rest: string)
    ensures RenderItems(items, rest) != []
    ensures items == [] ==> RenderItems(items, rest)[0] == '"' && RenderItems(items, rest)[1..] == rest
  {
  }

  /** What the bytes from i on are, when the items begin there. */
  lemma FrontItem(raw: string, i: nat, items: seq<Item>, rest: string)
    requires ItemsOk(items) && items != [] && i <= |raw| && raw[i..] == RenderItems(items, rest)
    ensures match items[0]
            case Plain(c) => i + 1 < |raw| && raw[i] == c && raw[i + 1..] == RenderItems(items[1..], rest)
            case Short(c) => i + 2 < |raw| && raw[i] == '\\' && raw[i + 1] == c
              && raw[i + 2..] == RenderItems(items[1..], rest)
            case Escape(hex) =>
              && i + 6 < |raw| && raw[i] == '\\' && raw[i + 1] == 'u' && raw[i + 2..i + 6] == hex
              && raw[i + 6..] == RenderItems(items[1..], rest)
  {
    var tail := RenderItems(items[1..], rest);
    RenderEnd(items[1..], rest);
    var text := raw[i..];
    match items[0] {
      case Plain(c) => assert text[1..] == tail && raw[i + 1..] == text[1..];
      case Short(c) => assert text[2..] == tail && raw[i + 2..] == text[2..];
      case Escape(hex) =>
        assert text[6..] == tail && raw[i + 6..] == text[6..];
        assert text[2..6] == hex && raw[i + 2..i + 6] == text[2..6];
    }
  }

  lemma FrontEnd(raw: string, i: nat, rest: string)
    requires i <= |raw| && raw[i..] == RenderItems([], rest)
    ensures i < |raw| && raw[i] == '"' && raw[i + 1..] == rest
  {
    RenderEnd([], rest);
    assert raw[i + 1..] == raw[i..][1..];
  }

  /** The rest of the pair after a high surrogate, whose last byte is at i. */
  method ScanLow(raw: string, i: nat, ghost items: seq<Item>, ghost rest: string) returns (ok: bool)
    requires ItemsOk(items) && i < |raw| && raw[i + 1..] == RenderItems(items, rest)
    ensures ok <==> items != [] && Low(items[0])
    ensures ok ==> i + 6 < |raw| && raw[i + 7..] == RenderItems(items[1..], rest)
  {
    if items == [] {
      FrontEnd(raw, i + 1, rest);
    } else {
      FrontItem(raw, i + 1, items, rest);
    }
    if i + 6 >= |raw| || raw[i + 1] != '\\' || raw[i + 2] != 'u' {
      return false;
    }
    var lowSurrogate := ParseUnit(raw[i + 3..i + 7]);
    if IsHex(raw[i + 3..i + 7]) { UnitRange(raw[i + 3..i + 7]); }
    return 0xDC00 <= lowSurrogate <= 0xDFFF;
  }

  /** The escape whose backslash is at `start`; `end` is its last byte, or that of the pair it begins. */
  method ScanEscape(raw: string, start: nat, ghost items: seq<Item>, ghost rest: string)
    returns (ok: bool, end: nat, ghost left: seq<Item>)
    requires ItemsOk(items) && items != [] && !items[0].Plain?
    requires start < |raw| && raw[start..] == RenderItems(items, rest)
    ensures ItemsOk(left) && (ok ==> start < end < |raw| && raw[end + 1..] == RenderItems(left, rest))
    ensures PairedFront(items) <==> ok && PairedFront(left)
  {
    FrontItem(raw, start, items, rest);
    var i := start + 1;
    left := items[1..];
    if raw[i] != 'u' {
      return true, i, left;
    }
    var codeUnit := ParseUnit(raw[i + 1..i + 5]);
    UnitRange(raw[i + 1..i + 5]);
    assert codeUnit >= 0;  // so the parse error of the original never arises
    i := i + 4;
    ok := true;
    if 0xD800 <= codeUnit <= 0xDBFF {
      ok := ScanLow(raw, i, items[1..], rest);
      i := i + 6;
      left := if ok then items[2..] else items;
      assert ok ==> items[1..][1..] == items[2..];
    } else if 0xDC00 <= codeUnit <= 0xDFFF {
      ok := false;
    }
    end := i;
  }

  /** The inner loop: from after the opening quote, to the closing one or to an error. */
  method ScanString(raw: string, start: nat, ghost items: seq<Item>, ghost rest: string) returns (ok: bool, end: nat)
    requires ItemsOk(items) && start <= |raw| && raw[start..] == RenderItems(items, rest)
    ensures ok <==> Paired(items)
    ensures ok ==> start <= end < |raw| && raw[end] == '"' && raw[end + 1..] == rest
  {
    PairedFrontIff(items);
    var i := start;
    ghost var left := items;
    while i < |raw|
      invariant start <= i <= |raw| && ItemsOk(left)
      invariant raw[i..] == RenderItems(left, rest)
      invariant Paired(items) <==> PairedFront(left)
      decreases |raw| - i
    {
      if left == [] { FrontEnd(raw, i, rest); } else { FrontItem(raw, i, left, rest); }
      if raw[i] == '"' {
        return true, i;
      }
      if raw[i] == '\\' {
        ok, i, left := ScanEscape(raw, i, left, rest);
        if !ok {
          return false, i;
        }
      } else {
        left := left[1..];
      }
      i := i + 1;
    }
    RenderEnd(left, rest);
    assert false;
  }

  /** Accepts exactly the texts whose strings are paired; every index stays inside the text. */
  method ValidateUnicodeScalarEscapes(raw: string, ghost pieces: seq<Piece>) returns (ok: bool)
    requires PiecesOk(pieces) && raw == Render(pieces, "")
    ensures ok <==> AllPaired(pieces)
  {
    var i := 0;
    ghost var k := 0;
    assert raw[0..] == raw && pieces[0..] == pieces;
    while i < |raw|
      invariant i <= |raw| && k <= |pieces|
      invariant raw[i..] == Render(pieces[k..], "")
      invariant forall j :: 0 <= j < k && pieces[j].Quoted? ==> Paired(pieces[j].items)
      decreases |raw| - i
    {
      NextPiece(raw, i, pieces, k);
      if raw[i] == '"' {
        ghost var items := pieces[k].items;
        ok, i := ScanString(raw, i + 1, items, Render(pieces[k + 1..], ""));
        if !ok {
          return false;
        }
      }
      i := i + 1;
      k := k + 1;
    }
    RenderNonEmpty(pieces[k..], "");
    assert k == |pieces|;
    return true;
  }

  lemma RenderNonEmpty(ps: seq<Piece>, rest: string)
    ensures ps != [] ==> Render(ps, rest) != ""
  {
  }

  lemma NextPiece(raw: string, i: nat, pieces: seq<Piece>, k: nat)
    requires PiecesOk(pieces) && i < |raw| && k <= |pieces| && raw[i..] == Render(pieces[k..], "")
    ensures k < |pieces|
    ensures match pieces[k]
            case Between(c) => raw[i] == c && raw[i + 1..] == Render(pieces[k + 1..], "")
            case Quoted(items) => raw[i] == '"' && raw[i + 1..] == RenderItems(items, Render(pieces[k + 1..], ""))
  {
    assert pieces[k..][1..] == pieces[k + 1..];
    var text := raw[i..];
    assert raw[i + 1..] == text[1..];
    match pieces[k] {
      case Between(c) => assert text[1..] == Render(pieces[k + 1..], "");
      case Quoted(items) => assert text[1..] == RenderItems(items, Render(pieces[k + 1..], ""));
    }
  }

  // ----- Every JSON text is made of such pieces --------------------------------------------

  /**
   * The grammar of sections 2 to 7 of RFC 8259, with its white space. A Literal is a number or one of
   * the three names, of which all that matters here is that it holds no quotation mark.
   */
  datatype Value =
    | Literal(text: string)
    | Text(items: seq<Item>)
    | Array(blank: string, elements: seq<Spaced>)
    | Object(blank: string, members: seq<Entry>)

  datatype Spaced = Spaced(before: string, value: Value, after: string)

  datatype Entry = Entry(before: string, key: seq<Item>, after: string, value: Spaced)

  predicate Unquoted(s: string) {
    forall i :: 0 <= i < |s| ==> s[i] != '"'
  }

  predicate ValueOk(v: Value)
    decreases v, 0
  {
    match v
    case Literal(text) => Unquoted(text)
    case Text(items) => ItemsOk(items)
    case Array(blank, elements) => Unquoted(blank) && ElementsOk(elements)
    case Object(blank, members) => Unquoted(blank) && MembersOk(members)
  }

  predicate ElementsOk(es: seq<Spaced>)
    decreases es, 1
  {
    es != [] ==> Unquoted(es[0].before) && Unquoted(es[0].after) && ValueOk(es[0].value) && ElementsOk(es[1..])
  }

  predicate MembersOk(ms: seq<Entry>)
    decreases ms, 1
  {
    ms != [] ==>
      && Unquoted(ms[0].before) && ItemsOk(ms[0].key) && Unquoted(ms[0].after)
      && Unquoted(ms[0].value.before) && Unquoted(ms[0].value.after) && ValueOk(ms[0].value.value)
      && MembersOk(ms[1..])
  }

  /** The text of a value in front of `rest`. */
  function Write(v: Value, rest: string): string
    decreases v, 0
  {
    match v
    case Literal(text) => text + rest
    case Text(items) => ['"'] + RenderItems(items, rest)
    case Array(blank, elements) => ['['] + if elements == [] then blank + ([']'] + rest)
      else WriteElements(elements, rest)
    case Object(blank, members) => ['{'] + if members == [] then blank + (['}'] + rest) else WriteMembers(members, rest)
  }

  function WriteElements(es: seq<Spaced>, rest: string): string
    requires es != []
    decreases es, 1
  {
    es[0].before + Write(es[0].value, es[0].after + if |es| == 1 then [']'] + rest
                         else [','] + WriteElements(es[1..], rest))
  }

  function WriteMembers(ms: seq<Entry>, rest: string): string
    requires ms != []
    decreases ms, 1
  {
    var m := ms[0];
    m.before + (['"'] + RenderItems(m.key, m.after + ([':'] + (m.value.before + Write(m.value.value,
      m.value.after + if |ms| == 1 then ['}'] + rest else [','] + WriteMembers(ms[1..], rest))))))
  }

  function Bytes(s: string): seq<Piece> {
    seq(|s|, i requires 0 <= i < |s| => Between(s[i]))
  }

  function Pieces(v: Value): seq<Piece>
    decreases v, 0
  {
    match v
    case Literal(text) => Bytes(text)
    case Text(items) => [Quoted(items)]
    case Array(blank, elements) => [Between('[')] + if elements == [] then Bytes(blank) + [Between(']')]
      else ElementPieces(elements)
    case Object(blank, members) => [Between('{')] + if members == [] then Bytes(blank) + [Between('}')]
      else MemberPieces(members)
  }

  function ElementPieces(es: seq<Spaced>): seq<Piece>
    requires es != []
    decreases es, 1
  {
    Bytes(es[0].before) + Pieces(es[0].value) + Bytes(es[0].after)
    + if |es| == 1 then [Between(']')] else [Between(',')] + ElementPieces(es[1..])
  }

  function MemberPieces(ms: seq<Entry>): seq<Piece>
    requires ms != []
    decreases ms, 1
  {
    var m := ms[0];
    Bytes(m.before) + ([Quoted(m.key)] + (Bytes(m.after) + ([Between(':')]
    + (Bytes(m.value.before) + Pieces(m.value.value) + Bytes(m.value.after)
       + if |ms| == 1 then [Between('}')] else [Between(',')] + MemberPieces(ms[1..])))))
  }

  lemma {:induction false} RenderConcat(ps: seq<Piece>, qs: seq<Piece>, rest: string)
    ensures Render(ps + qs, rest) == Render(ps, Render(qs, rest))
    decreases |ps|
  {
    if ps == [] {
      assert ps + qs == qs;
    } else {
      assert (ps + qs)[1..] == ps[1..] + qs;
      RenderConcat(ps[1..], qs, rest);
    }
  }

  lemma {:induction false} RenderBytes(s: string, rest: string)
    ensures Render(Bytes(s), rest) == s + rest
  {
    if s != "" {
      assert Bytes(s)[1..] == Bytes(s[1..]);
      RenderBytes(s[1..], rest);
      assert s + rest == [s[0]] + (s[1..] + rest);
    }
  }

  lemma RenderOne(p: Piece, qs: seq<Piece>, rest: string)
    ensures Render([p] + qs, rest) == Render([p], Render(qs, rest))
  {
    RenderConcat([p], qs, rest);
  }

  lemma {:induction false} ValuePieces(v: Value, rest: string)
    requires ValueOk(v)
    ensures PiecesOk(Pieces(v)) && Render(Pieces(v), rest) == Write(v, rest)
    decreases v, 0
  {
    match v {
      case Literal(text) => RenderBytes(text, rest);
      case Text(items) =>
      case Array(blank, elements) =>
        if elements == [] {
          RenderConcat(Bytes(blank), [Between(']')], rest);
          RenderBytes(blank, [']'] + rest);
        } else {
          ElementsPieces(elements, rest);
        }
      case Object(blank, members) =>
        if members == [] {
          RenderConcat(Bytes(blank), [Between('}')], rest);
          RenderBytes(blank, ['}'] + rest);
        } else {
          MembersPieces(members, rest);
        }
    }
  }

  lemma {:induction false} ElementsPieces(es: seq<Spaced>, rest: string)
    requires es != [] && ElementsOk(es)
    ensures PiecesOk(ElementPieces(es)) && Render(ElementPieces(es), rest) == WriteElements(es, rest)
    decreases es, 1
  {
    var e := es[0];
    var tail := if |es| == 1 then [Between(']')] else [Between(',')] + ElementPieces(es[1..]);
    var after := if |es| == 1 then [']'] + rest else [','] + WriteElements(es[1..], rest);
    if |es| > 1 { ElementsPieces(es[1..], rest); }
    assert PiecesOk(tail) && Render(tail, rest) == after;
    ValuePieces(e.value, e.after + after);
    SpacedPieces(e, tail, rest);
    SpacedPaired(e, tail);
  }

  lemma SpacedPieces(e: Spaced, tail: seq<Piece>, rest: string)
    ensures Render(Bytes(e.before) + Pieces(e.value) + Bytes(e.after) + tail, rest)
            == e.before + Render(Pieces(e.value), e.after + Render(tail, rest))
  {
    RenderConcat(Bytes(e.before) + Pieces(e.value) + Bytes(e.after), tail, rest);
    RenderConcat(Bytes(e.before) + Pieces(e.value), Bytes(e.after), Render(tail, rest));
    RenderBytes(e.after, Render(tail, rest));
    RenderConcat(Bytes(e.before), Pieces(e.value), e.after + Render(tail, rest));
    RenderBytes(e.before, Render(Pieces(e.value), e.after + Render(tail, rest)));
  }

  lemma {:induction false} MembersPieces(ms: seq<Entry>, rest: string)
    requires ms != [] && MembersOk(ms)
    ensures PiecesOk(MemberPieces(ms)) && Render(MemberPieces(ms), rest) == WriteMembers(ms, rest)
    decreases ms, 1
  {
    var m := ms[0];
    var tail := if |ms| == 1 then [Between('}')] else [Between(',')] + MemberPieces(ms[1..]);
    var after := if |ms| == 1 then ['}'] + rest else [','] + WriteMembers(ms[1..], rest);
    if |ms| > 1 { MembersPieces(ms[1..], rest); }
    assert PiecesOk(tail) && Render(tail, rest) == after;
    ValuePieces(m.value.value, m.value.after + after);
    var value := Bytes(m.value.before) + Pieces(m.value.value) + Bytes(m.value.after) + tail;
    SpacedPieces(m.value, tail, rest);
    KeyPieces(m, value, rest);
    SpacedPaired(m.value, tail);
    KeyPaired(m, value);
  }

  lemma KeyPieces(m: Entry, value: seq<Piece>, rest: string)
    ensures Render(Bytes(m.before) + ([Quoted(m.key)] + (Bytes(m.after) + ([Between(':')] + value))), rest)
            == m.before + (['"'] + RenderItems(m.key, m.after + ([':'] + Render(value, rest))))
  {
    RenderOne(Between(':'), value, rest);
    RenderConcat(Bytes(m.after), [Between(':')] + value, rest);
    RenderBytes(m.after, [':'] + Render(value, rest));
    RenderOne(Quoted(m.key), Bytes(m.after) + ([Between(':')] + value), rest);
    RenderConcat(Bytes(m.before), [Quoted(m.key)] + (Bytes(m.after) + ([Between(':')] + value)), rest);
    RenderBytes(m.before, Render([Quoted(m.key)] + (Bytes(m.after) + ([Between(':')] + value)), rest));
  }

  /** Every string of v, keys included, has its surrogate escapes in pairs. */
  predicate StringsPaired(v: Value)
    requires ValueOk(v)
    decreases v, 0
  {
    match v
    case Literal(_) => true
    case Text(items) => Paired(items)
    case Array(_, elements) => ElementsPaired(elements)
    case Object(_, members) => MembersPaired(members)
  }

  predicate ElementsPaired(es: seq<Spaced>)
    requires ElementsOk(es)
    decreases es, 1
  {
    es != [] ==> StringsPaired(es[0].value) && ElementsPaired(es[1..])
  }

  predicate MembersPaired(ms: seq<Entry>)
    requires MembersOk(ms)
    decreases ms, 1
  {
    ms != [] ==> Paired(ms[0].key) && StringsPaired(ms[0].value.value) && MembersPaired(ms[1..])
  }

  lemma PairedConcat(ps: seq<Piece>, qs: seq<Piece>)
    requires PiecesOk(ps) && PiecesOk(qs)
    ensures PiecesOk(ps + qs) && (AllPaired(ps + qs) <==> AllPaired(ps) && AllPaired(qs))
  {
    var all := ps + qs;
    assert forall i :: 0 <= i < |qs| ==> all[|ps| + i] == qs[i];
    assert forall i :: 0 <= i < |ps| ==> all[i] == ps[i];
  }

  lemma {:induction false} PiecesPaired(v: Value)
    requires ValueOk(v)
    ensures PiecesOk(Pieces(v)) && (AllPaired(Pieces(v)) <==> StringsPaired(v))
    decreases v, 0
  {
    ValuePieces(v, "");
    match v {
      case Literal(text) =>
      case Text(items) =>
      case Array(blank, elements) =>
        if elements != [] {
          ElementsPairedPieces(elements);
          PairedConcat([Between('[')], ElementPieces(elements));
        }
      case Object(blank, members) =>
        if members != [] {
          MembersPairedPieces(members);
          PairedConcat([Between('{')], MemberPieces(members));
        }
    }
  }

  lemma {:induction false} ElementsPairedPieces(es: seq<Spaced>)
    requires es != [] && ElementsOk(es)
    ensures PiecesOk(ElementPieces(es)) && (AllPaired(ElementPieces(es)) <==> ElementsPaired(es))
    decreases es, 1
  {
    var e := es[0];
    var tail := if |es| == 1 then [Between(']')] else [Between(',')] + ElementPieces(es[1..]);
    PiecesPaired(e.value);
    if |es| > 1 {
      ElementsPairedPieces(es[1..]);
      PairedConcat([Between(',')], ElementPieces(es[1..]));
    }
    SpacedPaired(e, tail);
  }

  lemma SpacedPaired(e: Spaced, tail: seq<Piece>)
    requires Unquoted(e.before) && Unquoted(e.after) && PiecesOk(Pieces(e.value)) && PiecesOk(tail)
    ensures var all := Bytes(e.before) + Pieces(e.value) + Bytes(e.after) + tail;
            PiecesOk(all) && (AllPaired(all) <==> AllPaired(Pieces(e.value)) && AllPaired(tail))
  {
    PairedConcat(Bytes(e.before), Pieces(e.value));
    PairedConcat(Bytes(e.before) + Pieces(e.value), Bytes(e.after));
    PairedConcat(Bytes(e.before) + Pieces(e.value) + Bytes(e.after), tail);
  }

  lemma {:induction false} MembersPairedPieces(ms: seq<Entry>)
    requires ms != [] && MembersOk(ms)
    ensures PiecesOk(MemberPieces(ms)) && (AllPaired(MemberPieces(ms)) <==> MembersPaired(ms))
    decreases ms, 1
  {
    var m := ms[0];
    var tail := if |ms| == 1 then [Between('}')] else [Between(',')] + MemberPieces(ms[1..]);
    PiecesPaired(m.value.value);
    if |ms| > 1 {
      MembersPairedPieces(ms[1..]);
      PairedConcat([Between(',')], MemberPieces(ms[1..]));
    }
    SpacedPaired(m.value, tail);
    var value := Bytes(m.value.before) + Pieces(m.value.value) + Bytes(m.value.after) + tail;
    KeyPaired(m, value);
  }

  lemma KeyPaired(m: Entry, value: seq<Piece>)
    requires Unquoted(m.before) && Unquoted(m.after) && ItemsOk(m.key) && PiecesOk(value)
    ensures var all := Bytes(m.before) + ([Quoted(m.key)] + (Bytes(m.after) + ([Between(':')] + value)));
            PiecesOk(all) && (AllPaired(all) <==> Paired(m.key) && AllPaired(value))
  {
    assert AllPaired([Quoted(m.key)]) <==> Paired([Quoted(m.key)][0].items);
    PairedConcat([Between(':')], value);
    PairedConcat(Bytes(m.after), [Between(':')] + value);
    PairedConcat([Quoted(m.key)], Bytes(m.after) + ([Between(':')] + value));
    PairedConcat(Bytes(m.before), [Quoted(m.key)] + (Bytes(m.after) + ([Between(':')] + value)));
  }

  /** On every JSON text the scan accepts exactly if all surrogate escapes are paired. */
  method ScanText(raw: string, ghost text: Spaced) returns (ok: bool)
    requires Unquoted(text.before) && ValueOk(text.value) && Unquoted(text.after)
    requires raw == text.before + Write(text.value, text.after)
    ensures ok <==> StringsPaired(text.value)
  {
    ghost var pieces := Bytes(text.before) + Pieces(text.value) + Bytes(text.after) + [];
    PiecesPaired(text.value);
    SpacedPaired(text, []);
    SpacedPieces(text, [], "");
    ValuePieces(text.value, text.after);
    assert text.after + "" == text.after;
    ok := ValidateUnicodeScalarEscapes(raw, pieces);
  }
}
