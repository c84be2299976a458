/**
 * JSON values and the text RFC 8785 gives them once their members are in order: no white space, the
 * short escapes of its section 3.2.2.2, integers in decimal. A parser for that text shows that the
 * printer never gives two values the same text.
 */
module Json {

  import opened Basics

  datatype Json =
    | Null
    | Bool(b: bool)
    | Num(n: int)
    | Str(s: string)
    | Arr(items: seq<Json>)
    | Obj(members: seq<Member>)

  datatype Member = Member(key: string, value: Json)

  const NULL := ['n', 'u', 'l', 'l']
  const TRUE := ['t', 'r', 'u', 'e']
  const FALSE := ['f', 'a', 'l', 's', 'e']

  // ----- Printing --------------------------------------------------------------------------

  // Every printer puts the text of its argument in front of `rest`.

  function Digit(d: nat): char
    requires d < 16
  {
    if d < 10 then '0' + d as char else 'a' + (d - 10) as char
  }

  function PrintDigits(n: nat, rest: string): (r: string)
    ensures r != "" && '0' <= r[0] <= '9'
  {
    if n < 10 then [Digit(n)] + rest else PrintDigits(n / 10, [Digit(n % 10)] + rest)
  }

  function PrintInt(n: int, rest: string): string {
    if n < 0 then ['-'] + PrintDigits(-n, rest) else PrintDigits(n, rest)
  }

  function PrintChar(c: char, rest: string): string {
    if c == '"' || c == '\\' then ['\\', c] + rest
    else if c == '\U{8}' then ['\\', 'b'] + rest
    else if c == '\t' then ['\\', 't'] + rest
    else if c == '\n' then ['\\', 'n'] + rest
    else if c == '\U{C}' then ['\\', 'f'] + rest
    else if c == '\r' then ['\\', 'r'] + rest
    else if c < ' ' then ['\\', 'u', '0', '0', Digit(c as int / 16), Digit(c as int % 16)] + rest
    else [c] + rest
  }

  function PrintChars(s: string, rest: string): string {
    if s == "" then ['"'] + rest else PrintChar(s[0], PrintChars(s[1..], rest))
  }

  function PrintString(s: string, rest: string): string {
    ['"'] + PrintChars(s, rest)
  }

  function PrintOnto(v: Json, rest: string): string
    decreases v, 0
  {
    match v
    case Null => NULL + rest
    case Bool(b) => (if b then TRUE else FALSE) + rest
    case Num(n) => PrintInt(n, rest)
    case Str(s) => PrintString(s, rest)
    case Arr(items) => ['['] + if items == [] then [']'] + rest else PrintItems(items, rest)
    case Obj(members) => ['{'] + if members == [] then ['}'] + rest else PrintMembers(members, rest)
  }

  function PrintItems(items: seq<Json>, rest: string): string
    requires items != []
    decreases items, 1
  {
    PrintOnto(items[0], if |items| == 1 then [']'] + rest else [','] + PrintItems(items[1..], rest))
  }

  function PrintMembers(members: seq<Member>, rest: string): string
    requires members != []
    decreases members, 1
  {
    var m := members[0];
    PrintString(m.key, [':'] + PrintOnto(m.value, if |members| == 1 then ['}'] + rest
                                         else [','] + PrintMembers(members[1..], rest)))
  }

  function Print(v: Json): string {
    PrintOnto(v, "")
  }

  // ----- Parsing ---------------------------------------------------------------------------

  // Every parser returns what it read and the text after it. Only text as the standard demands it is
  // accepted: short escapes where there are any, lower-case digits in the others, no leading zeros.

  predicate IsDigit(c: char) {
    '0' <= c <= '9'
  }

  function ParseDigits(s: string, read: nat): (r: (nat, string))
    ensures |r.1| <= |s|
  {
    if s == "" || !IsDigit(s[0]) then (read, s) else ParseDigits(s[1..], 10 * read + (s[0] - '0') as nat)
  }

  function ParseInt(s: string): (r: Option<(int, string)>)
    ensures r.Some? ==> |r.value.1| < |s|
  {
    if s == "" then None
    else if s[0] == '-' then
      if |s| < 2 || !('1' <= s[1] <= '9') then None else var (n: int, rest) := ParseDigits(s[1..], 0); Some((-n, rest))
    else if s[0] == '0' then Some((0, s[1..]))
    else if !IsDigit(s[0]) then None
    else var (n, rest) := ParseDigits(s[1..], (s[0] - '0') as nat); Some((n, rest))
  }

  function ShortEscape(c: char): Option<char> {
    if c == '"' || c == '\\' then Some(c)
    else if c == 'b' then Some('\U{8}')
    else if c == 't' then Some('\t')
    else if c == 'n' then Some('\n')
    else if c == 'f' then Some('\U{C}')
    else if c == 'r' then Some('\r')
    else None
  }

  /** The control characters that section 3.2.2.2 writes in two characters. */
  predicate HasShortEscape(n: int) {
    n == 0x8 || n == 0x9 || n == 0xA || n == 0xC || n == 0xD
  }

  function ParseChar(s: string): (r: Option<(char, string)>)
    ensures r.Some? ==> |r.value.1| < |s|
  {
    if s == "" then None
    else if s[0] != '\\' then if s[0] < ' ' then None else Some((s[0], s[1..]))
    else if |s| < 2 then None
    else if s[1] != 'u' then (match ShortEscape(s[1]) case Some(c) => Some((c, s[2..])) case None => None)
    else if |s| < 6 || s[2] != '0' || s[3] != '0' then None
    else
      var x, y := HexValue(s[4]), HexValue(s[5]);
      if x < 0 || y < 0 || 'A' <= s[4] <= 'F' || 'A' <= s[5] <= 'F' then None
      else if 16 * x + y >= 0x20 || HasShortEscape(16 * x + y) then None
      else Some(((16 * x + y) as char, s[6..]))
  }

  function ParseChars(s: string): (r: Option<(string, string)>)
    ensures r.Some? ==> |r.value.1| < |s|
    decreases |s|
  {
    if s == "" then None
    else if s[0] == '"' then Some(("", s[1..]))
    else match ParseChar(s)
         case None => None
         case Some((c, more)) =>
           match ParseChars(more)
           case None => None
           case Some((cs, rest)) => Some(([c] + cs, rest))
  }

  function ParseString(s: string): (r: Option<(string, string)>)
    ensures r.Some? ==> |r.value.1| < |s|
  {
    if s == "" || s[0] != '"' then None else ParseChars(s[1..])
  }

  function ParseValue(s: string): (r: Option<(Json, string)>)
    ensures r.Some? ==> |r.value.1| < |s|
    decreases |s|, 0
  {
    if s == "" then None
    else if s[0] == 'n' then if NULL <= s then Some((Null, s[4..])) else None
    else if s[0] == 't' then if TRUE <= s then Some((Bool(true), s[4..])) else None
    else if s[0] == 'f' then if FALSE <= s then Some((Bool(false), s[5..])) else None
    else if s[0] == '"' then
      match ParseString(s) case None => None case Some((cs, rest)) => Some((Str(cs), rest))
    else if s[0] == '[' then
      if |s| > 1 && s[1] == ']' then Some((Arr([]), s[2..]))
      else match ParseItems(s[1..]) case None => None case Some((items, rest)) => Some((Arr(items), rest))
    else if s[0] == '{' then
      if |s| > 1 && s[1] == '}' then Some((Obj([]), s[2..]))
      else match ParseMembers(s[1..]) case None => None case Some((ms, rest)) => Some((Obj(ms), rest))
    else match ParseInt(s) case None => None case Some((n, rest)) => Some((Num(n), rest))
  }

  function ParseItems(s: string): (r: Option<(seq<Json>, string)>)
    ensures r.Some? ==> |r.value.1| < |s|
    decreases |s|, 1
  {
    match ParseValue(s)
    case None => None
    case Some((v, more)) =>
      if more == "" then None
      else if more[0] == ']' then Some(([v], more[1..]))
      else match ParseItems(more[1..])
           case None => None
           case Some((vs, rest)) => Some(([v] + vs, rest))
  }

  function ParseMembers(s: string): (r: Option<(seq<Member>, string)>)
    ensures r.Some? ==> |r.value.1| < |s|
    decreases |s|, 1
  {
    match ParseString(s)
    case None => None
    case Some((key, colon)) =>
      if colon == "" then None
      else match ParseValue(colon[1..])
           case None => None
           case Some((v, more)) =>
             if more == "" then None
             else if more[0] == '}' then Some(([Member(key, v)], more[1..]))
             else match ParseMembers(more[1..])
                  case None => None
                  case Some((ms, rest)) => Some(([Member(key, v)] + ms, rest))
  }

  // ----- Parsing undoes printing -----------------------------------------------------------

  lemma {:induction false} DigitsRoundTrip(n: nat, rest: string)
    ensures ParseDigits(PrintDigits(n, rest), 0) == ParseDigits(rest, n)
  {
    if n < 10 {
      assert ([Digit(n)] + rest)[1..] == rest;
    } else {
      DigitsRoundTrip(n / 10, [Digit(n % 10)] + rest);
      assert ([Digit(n % 10)] + rest)[1..] == rest;
    }
  }

  /** A number's text ends where the digits end. */
  predicate Ends(rest: string) {
    rest == "" || !IsDigit(rest[0])
  }

  lemma {:induction false} FirstDigit(n: nat, rest: string)
    requires n > 0
    ensures '1' <= PrintDigits(n, rest)[0] <= '9'
  {
    if n >= 10 {
      FirstDigit(n / 10, [Digit(n % 10)] + rest);
    }
  }

  lemma IntRoundTrip(n: int, rest: string)
    requires Ends(rest)
    ensures ParseInt(PrintInt(n, rest)) == Some((n, rest))
  {
    if n < 0 {
      DigitsRoundTrip(-n, rest);
      FirstDigit(-n, rest);
      assert PrintInt(n, rest)[1..] == PrintDigits(-n, rest);
    } else if n > 0 {
      DigitsRoundTrip(n, rest);
      FirstDigit(n, rest);
    } else {
      assert ([Digit(0)] + rest)[1..] == rest;
    }
  }

  lemma CharRoundTrip(c: char, rest: string)
    ensures ParseChar(PrintChar(c, rest)) == Some((c, rest))
    ensures PrintChar(c, rest) != "" && PrintChar(c, rest)[0] != '"'
  {
    var s := PrintChar(c, rest);
    if s[0] != '\\' {
      assert s[1..] == rest;
    } else if s[1] != 'u' {
      assert s[2..] == rest;
    } else {
      assert s[6..] == rest;
    }
  }

  lemma {:induction false} CharsRoundTrip(s: string, rest: string)
    ensures ParseChars(PrintChars(s, rest)) == Some((s, rest))
  {
    if s == "" {
      assert (['"'] + rest)[1..] == rest;
    } else {
      CharsRoundTrip(s[1..], rest);
      CharRoundTrip(s[0], PrintChars(s[1..], rest));
      assert s == [s[0]] + s[1..];
    }
  }

  lemma StringRoundTrip(s: string, rest: string)
    ensures ParseString(PrintString(s, rest)) == Some((s, rest))
  {
    CharsRoundTrip(s, rest);
    assert PrintString(s, rest)[1..] == PrintChars(s, rest);
  }

  /** No value's text begins with a closing bracket or brace. */
  lemma FirstChar(v: Json, rest: string)
    ensures PrintOnto(v, rest) != "" && PrintOnto(v, rest)[0] != ']' && PrintOnto(v, rest)[0] != '}'
  {
  }

  lemma WordRoundTrip(v: Json, rest: string)
    requires v.Null? || v.Bool?
    ensures ParseValue(PrintOnto(v, rest)) == Some((v, rest))
  {
    assert PrintOnto(v, rest)[if v == Bool(false) then 5 else 4..] == rest;
  }

  lemma {:induction false} ValueRoundTrip(v: Json, rest: string)
    requires Ends(rest)
    ensures ParseValue(PrintOnto(v, rest)) == Some((v, rest))
    decreases v, 0
  {
    var s := PrintOnto(v, rest);
    match v {
      case Null => WordRoundTrip(v, rest);
      case Bool(_) => WordRoundTrip(v, rest);
      case Num(n) => IntRoundTrip(n, rest);
      case Str(cs) => StringRoundTrip(cs, rest);
      case Arr(items) =>
        if items == [] {
          assert s[2..] == rest;
        } else {
          ItemsRoundTrip(items, rest);
          assert s[1..] == PrintItems(items, rest);
        }
      case Obj(members) =>
        if members == [] {
          assert s[2..] == rest;
        } else {
          MembersRoundTrip(members, rest);
          assert s[1..] == PrintMembers(members, rest);
        }
    }
  }

  function AfterItem(items: seq<Json>, rest: string): string
    requires items != []
    decreases items, 2
  {
    if |items| == 1 then [']'] + rest else [','] + PrintItems(items[1..], rest)
  }

  lemma {:induction false} ItemsRoundTrip(items: seq<Json>, rest: string)
    requires items != []
    ensures ParseItems(PrintItems(items, rest)) == Some((items, rest))
    ensures PrintItems(items, rest) != "" && PrintItems(items, rest)[0] != ']'
    decreases items, 1
  {
    var after := AfterItem(items, rest);
    ValueRoundTrip(items[0], after);
    if |items| > 1 {
      ItemsRoundTrip(items[1..], rest);
      assert after[1..] == PrintItems(items[1..], rest);
      assert items == [items[0]] + items[1..];
    } else {
      assert after[1..] == rest;
      assert items == [items[0]];
    }
    FirstItem(items, rest);
  }

  /** Reading the first item, given that the rest reads back. */
  lemma FirstItem(items: seq<Json>, rest: string)
    requires items != []
    requires var after := AfterItem(items, rest);
             ParseValue(PrintOnto(items[0], after)) == Some((items[0], after))
    ensures var s, after := PrintItems(items, rest), AfterItem(items, rest);
            && s != "" && s[0] != ']'
            && ParseItems(s) == if after[0] == ']' then Some(([items[0]], after[1..]))
                                else match ParseItems(after[1..])
                                     case None => None
                                     case Some((vs, rest')) => Some(([items[0]] + vs, rest'))
  {
    FirstChar(items[0], AfterItem(items, rest));
  }

  function AfterMember(members: seq<Member>, rest: string): string
    requires members != []
    decreases members, 2
  {
    if |members| == 1 then ['}'] + rest else [','] + PrintMembers(members[1..], rest)
  }

  lemma {:induction false} MembersRoundTrip(members: seq<Member>, rest: string)
    requires members != []
    ensures ParseMembers(PrintMembers(members, rest)) == Some((members, rest))
    ensures PrintMembers(members, rest) != "" && PrintMembers(members, rest)[0] != '}'
    decreases members, 1
  {
    var m := members[0];
    var after := AfterMember(members, rest);
    ValueRoundTrip(m.value, after);
    if |members| > 1 {
      MembersRoundTrip(members[1..], rest);
      assert after[1..] == PrintMembers(members[1..], rest);
      assert members == [members[0]] + members[1..];
    } else {
      assert after[1..] == rest;
      assert members == [members[0]];
    }
    FirstMember(members, rest);
  }

  /** Reading the first member, given that the rest reads back. */
  lemma FirstMember(members: seq<Member>, rest: string)
    requires members != []
    requires var m, after := members[0], AfterMember(members, rest);
             ParseValue(PrintOnto(m.value, after)) == Some((m.value, after))
    ensures var s, after := PrintMembers(members, rest), AfterMember(members, rest);
            && s != "" && s[0] == '"'
            && ParseMembers(s) == if after[0] == '}' then Some(([members[0]], after[1..]))
                                  else match ParseMembers(after[1..])
                                       case None => None
                                       case Some((ms, rest')) => Some(([members[0]] + ms, rest'))
  {
    var m, after := members[0], AfterMember(members, rest);
    var value := [':'] + PrintOnto(m.value, after);
    StringRoundTrip(m.key, value);
    assert value[1..] == PrintOnto(m.value, after);
  }

  /** Two values with the same text are the same value. */
  lemma PrintInjective(v: Json, w: Json)
    requires Print(v) == Print(w)
    ensures v == w
  {
    ValueRoundTrip(v, "");
    ValueRoundTrip(w, "");
  }
}
