/**
 * Go strings as header values and claims use them: bytes, most of them the UTF-8 of some character.
 * A Text is such a string cut into the characters and the stray bytes that a range loop would find.
 */
module GoText {
  import opened Basics
  import opened Json

  datatype GoChar = Rune(c: char) | Stray(b: nat)

  type Text = seq<GoChar>

  function Lift(s: string): Text {
    seq(|s|, i requires 0 <= i < |s| => Rune(s[i]))
  }

  /** utf8.ValidString. */
  predicate ValidUtf8(t: Text) {
    forall i :: 0 <= i < |t| ==> t[i].Rune?
  }

  /** What encoding/json makes of a string: stray bytes turn into replacement characters. */
  function Decoded(t: Text): string {
    seq(|t|, i requires 0 <= i < |t| => if t[i].Rune? then t[i].c else '\U{FFFD}')
  }

  lemma LiftDecoded(s: string)
    ensures ValidUtf8(Lift(s)) && Decoded(Lift(s)) == s
  {
  }

  lemma DecodedInjective(t: Text, u: Text)
    requires ValidUtf8(t) && ValidUtf8(u) && Decoded(t) == Decoded(u)
    ensures t == u
  {
    forall i | 0 <= i < |t|
      ensures t[i] == u[i]
    {
      assert Decoded(t)[i] == Decoded(u)[i];
    }
  }

  predicate SpaceAt(g: GoChar) {
    g.Rune? && IsSpace(g.c)
  }

  /** strings.TrimSpace(t) == "". */
  predicate AllSpace(t: Text) {
    forall i :: 0 <= i < |t| ==> SpaceAt(t[i])
  }

  /** strings.TrimSpace(t) == t. */
  predicate Trimmed(t: Text) {
    t != [] ==> !SpaceAt(t[0]) && !SpaceAt(t[|t| - 1])
  }

  predicate HeaderSafe(g: GoChar) {
    g.Rune? ==> g.c == '\t' || (g.c >= ' ' && g.c as int != 0x7F)
  }

  /** validHeaderValue. */
  predicate ValidHeaderValue(t: Text) {
    Trimmed(t) && forall i :: 0 <= i < |t| ==> HeaderSafe(t[i])
  }

  predicate IsUrlSafe(g: GoChar) {
    g.Rune? && ('a' <= g.c <= 'z' || 'A' <= g.c <= 'Z' || '0' <= g.c <= '9' || g.c == '-' || g.c == '_')
  }

  /** ValidateChallenge. */
  predicate ValidChallenge(t: Text) {
    10 <= |t| <= 74 && forall i :: 0 <= i < |t| ==> IsUrlSafe(t[i])
  }

  // ----- What the tests on values mean -------------------------------------------------------

  function TrimLeft(t: Text): Text {
    if t != [] && SpaceAt(t[0]) then TrimLeft(t[1..]) else t
  }

  function TrimRight(t: Text): Text {
    if t != [] && SpaceAt(t[|t| - 1]) then TrimRight(t[..|t| - 1]) else t
  }

  /** strings.TrimSpace. */
  function TrimSpace(t: Text): Text {
    TrimRight(TrimLeft(t))
  }

  lemma {:induction false} TrimLeftCuts(t: Text) returns (p: Text)
    ensures AllSpace(p) && t == p + TrimLeft(t)
    ensures TrimLeft(t) != [] ==> !SpaceAt(TrimLeft(t)[0])
    decreases |t|
  {
    p := [];
    if t != [] && SpaceAt(t[0]) {
      var q := TrimLeftCuts(t[1..]);
      p := [t[0]] + q;
      assert t == [t[0]] + t[1..];
    }
  }

  lemma {:induction false} TrimRightCuts(t: Text) returns (q: Text)
    ensures AllSpace(q) && t == TrimRight(t) + q
    ensures TrimRight(t) != [] ==> !SpaceAt(TrimRight(t)[|TrimRight(t)| - 1])
    decreases |t|
  {
    q := [];
    if t != [] && SpaceAt(t[|t| - 1]) {
      var p := TrimRightCuts(t[..|t| - 1]);
      q := p + [t[|t| - 1]];
      assert t == t[..|t| - 1] + [t[|t| - 1]];
    }
  }

  /** The two tests by the ends compare a value with what TrimSpace makes of it. */
  lemma TrimmedMeans(t: Text)
    ensures Trimmed(t) <==> TrimSpace(t) == t
    ensures AllSpace(t) <==> TrimSpace(t) == []
  {
    var p := TrimLeftCuts(t);
    var q := TrimRightCuts(TrimLeft(t));
    if TrimSpace(t) == t {
      assert |p| == 0 && |q| == 0;
      assert TrimLeft(t) == t;
    }
    if TrimSpace(t) == [] {
      assert t == p + q;
    } else {
      assert TrimLeft(t)[0] == t[|p|];
    }
  }

  /**
   * The header values of ASCII characters that the signer writes: printable characters, blanks and tabs
   * between two characters that are neither.
   */
  lemma HeaderValueMeans(t: Text)
    requires Ascii(t)
    ensures ValidHeaderValue(t) <==>
            && (forall g :: g in t ==> g.c == '\t' || ' ' <= g.c <= '~')
            && (t != [] ==> t[0].c != ' ' && t[0].c != '\t' && t[|t| - 1].c != ' ' && t[|t| - 1].c != '\t')
  {
    assert ValidHeaderValue(t) ==> forall g :: g in t ==> HeaderSafe(g);
    if forall g :: g in t ==> g.c == '\t' || ' ' <= g.c <= '~' {
      assert forall i :: 0 <= i < |t| ==> t[i] in t;
    }
  }

  /** A challenge is 10 to 74 letters, digits, hyphens and underscores, and nothing else. */
  lemma ChallengeMeans(t: Text)
    ensures ValidChallenge(t) <==>
            && 10 <= |t| <= 74
            && Ascii(t)
            && forall g :: g in t ==>
                 (g.c in "-_" || '0' <= g.c <= '9' || 'A' <= g.c <= 'Z' || 'a' <= g.c <= 'z')
  {
    forall i | 0 <= i < |t| && t[i].Rune?
      ensures t[i] in t && (t[i].c in "-_" <==> t[i].c == '-' || t[i].c == '_')
    {
    }
  }

  predicate Ascii(t: Text) {
    forall i :: 0 <= i < |t| ==> t[i].Rune? && t[i].c as int < 0x80
  }

  function LowerChar(g: GoChar): GoChar {
    if g.Rune? && 'A' <= g.c <= 'Z' then Rune(g.c - 'A' + 'a') else g
  }

  /** strings.ToLower, on the ASCII letters. */
  function Lower(t: Text): Text {
    seq(|t|, i requires 0 <= i < |t| => LowerChar(t[i]))
  }

  /** strings.EqualFold, on the ASCII letters. */
  predicate EqualFold(t: Text, u: Text) {
    Lower(t) == Lower(u)
  }

  lemma LowerIdempotent(t: Text)
    ensures Lower(Lower(t)) == Lower(t)
  {
  }

  /**
   * strings.ToLower and strings.EqualFold. Beyond ASCII they follow the Unicode tables, which are not
   * part of this model: what is proved holds of any pair of functions, or of any pair as in GoCasing.
   */
  datatype Casing = Casing(lower: Text -> Text, fold: (Text, Text) -> bool)

  /** Lowering twice is lowering once, and on ASCII both functions are the ones above. */
  ghost predicate GoCasing(k: Casing) {
    && (forall t :: k.lower(k.lower(t)) == k.lower(t))
    && (forall t :: Ascii(t) ==> k.lower(t) == Lower(t))
    && (forall t, u :: Ascii(t) && Ascii(u) ==> (k.fold(t, u) <==> EqualFold(t, u)))
  }

  lemma LowerAscii(t: Text)
    requires Ascii(t)
    ensures Ascii(Lower(t))
  {
  }

  /** An ASCII text folds to its lower case. */
  lemma AsciiFolds(k: Casing, t: Text)
    requires GoCasing(k) && Ascii(t)
    ensures k.fold(k.lower(t), t)
  {
    LowerAscii(t);
    LowerIdempotent(t);
  }

  // ----- Integers --------------------------------------------------------------------------

  /** strconv.FormatInt and Itoa. */
  function FormatInt(n: int): Text {
    Lift(PrintInt(n, ""))
  }

  /** strconv.ParseInt(t, 10, 64) and Atoi: one optional sign, then digits only, in range. */
  function ParseInt64(t: Text): Option<int> {
    if t == [] || !ValidUtf8(t) then None
    else
      var s := Decoded(t);
      var digits := if s[0] == '+' || s[0] == '-' then s[1..] else s;
      if digits == "" || !IsDigit(digits[0]) then None
      else
        var (n, rest) := ParseDigits(digits, 0);
        var signed := if s[0] == '-' then -(n as int) else n;
        if rest != "" || !(MIN_INT64 <= signed <= MAX_INT64) then None else Some(signed)
  }

  lemma FormatParses(n: int)
    requires MIN_INT64 <= n <= MAX_INT64
    ensures ParseInt64(FormatInt(n)) == Some(n)
  {
    var s := PrintInt(n, "");
    LiftDecoded(s);
    if n < 0 {
      DigitsRoundTrip(-n, "");
      assert s[1..] == PrintDigits(-n, "");
    } else {
      DigitsRoundTrip(n, "");
    }
  }

  /** At least one decimal digit, and nothing else. */
  predicate Numeral(digits: string) {
    digits != "" && Decimal(digits)
  }

  predicate Decimal(digits: string) {
    forall i :: 0 <= i < |digits| ==> '0' <= digits[i] <= '9'
  }

  function ValueOf(digits: string): int
    requires Decimal(digits)
  {
    var n := |digits| - 1;
    if digits == "" then 0 else 10 * ValueOf(digits[..n]) + (digits[n] - '0') as int
  }

  lemma {:induction false} OneDigitMore(front: string, last: char, read: nat)
    requires '0' <= last <= '9' && Decimal(front)
    ensures ParseDigits(front + [last], read) == (10 * ParseDigits(front, read).0 + (last - '0') as nat, "")
  {
    if front != "" {
      OneDigitMore(front[1..], last, 10 * read + (front[0] - '0') as nat);
      assert (front + [last])[1..] == front[1..] + [last];
    }
  }

  lemma {:induction false} DigitsValue(digits: string)
    requires Decimal(digits)
    ensures ParseDigits(digits, 0) == (ValueOf(digits), "")
  {
    if digits != "" {
      var front, last := digits[..|digits| - 1], digits[|digits| - 1];
      DigitsValue(front);
      OneDigitMore(front, last, 0);
      assert digits == front + [last];
    }
  }

  lemma {:induction false} OnlyDigits(s: string, read: nat)
    requires ParseDigits(s, read).1 == ""
    ensures Decimal(s)
  {
    if s != "" {
      OnlyDigits(s[1..], 10 * read + (s[0] - '0') as nat);
      assert s == [s[0]] + s[1..];
    }
  }

  lemma ParsedIsNumeral(t: Text) returns (digits: string)
    requires ParseInt64(t).Some?
    ensures Numeral(digits)
    ensures var n := ParseInt64(t).value;
            && MIN_INT64 <= n <= MAX_INT64
            && (|| (n == ValueOf(digits) && t in {Lift(digits), Lift("+" + digits)})
                || (n == -ValueOf(digits) && t == Lift("-" + digits)))
  {
    var s := Decoded(t);
    digits := if s[0] == '+' || s[0] == '-' then s[1..] else s;
    OnlyDigits(digits, 0);
    DigitsValue(digits);
    assert t == Lift(s) && s == [s[0]] + s[1..];
  }

  function InRange(n: int): Option<int> {
    if MIN_INT64 <= n <= MAX_INT64 then Some(n) else None
  }

  lemma UnsignedParses(digits: string)
    requires Numeral(digits)
    ensures ParseInt64(Lift(digits)) == InRange(ValueOf(digits))
  {
    DigitsValue(digits);
    LiftDecoded(digits);
  }

  lemma SignedParses(sign: char, digits: string)
    requires (sign == '+' || sign == '-') && Numeral(digits)
    ensures ParseInt64(Lift([sign] + digits)) == InRange(if sign == '-' then -ValueOf(digits) else ValueOf(digits))
  {
    DigitsValue(digits);
    LiftDecoded([sign] + digits);
    assert ([sign] + digits)[1..] == digits;
  }

  /** What is read as n: decimal digits of that value, after at most one sign, if n fits int64. */
  lemma ParseMeans(t: Text, n: int)
    ensures ParseInt64(t) == Some(n) <==>
            && MIN_INT64 <= n <= MAX_INT64
            && exists digits :: Numeral(digits)
                 && (|| (n == ValueOf(digits) && t in {Lift(digits), Lift("+" + digits)})
                     || (n == -ValueOf(digits) && t == Lift("-" + digits)))
  {
    if ParseInt64(t) == Some(n) {
      var digits := ParsedIsNumeral(t);
    }
    forall digits | Numeral(digits)
      ensures ParseInt64(Lift(digits)) == InRange(ValueOf(digits))
      ensures ParseInt64(Lift("+" + digits)) == InRange(ValueOf(digits))
      ensures ParseInt64(Lift("-" + digits)) == InRange(-ValueOf(digits))
    {
      UnsignedParses(digits);
      SignedParses('+', digits);
      SignedParses('-', digits);
    }
  }
}
