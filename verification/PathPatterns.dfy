/**
 * Path patterns and what it means for one to match (internal/mitmproxy/pathrules.go): the plain
 * definitions over the configured patterns, against which the compiled trie is proved.
 */
module PathPatterns {

  import opened Basics

  datatype PathRule = PathRule(extractor: string)

  /** A pattern segment with the parameter's name erased. */
  datatype Label = Static(segment: string) | Parameter

  function Split(s: string): (parts: seq<string>)
    ensures |parts| > 0
  {
    if s == "" then [""]
    else
      var rest := Split(s[1..]);
      if s[0] == '/' then [""] + rest else [[s[0]] + rest[0]] + rest[1..]
  }

  function Join(parts: seq<string>): string
    requires |parts| > 0
  {
    if |parts| == 1 then parts[0] else parts[0] + "/" + Join(parts[1..])
  }

  function SplitPath(path: string): seq<string>
    requires path != "" && path[0] == '/'
  {
    if path == "/" then [] else Split(path[1..])
  }

  lemma ConcatAssociates(a: string, b: string, c: string, d: string)
    ensures (a + b) + c + d == a + (b + c + d)
  {
  }

  lemma JoinPrepend(c: char, parts: seq<string>)
    requires |parts| > 0
    ensures Join([[c] + parts[0]] + parts[1..]) == [c] + Join(parts)
  {
    var longer := [[c] + parts[0]] + parts[1..];
    assert longer[1..] == parts[1..] && longer[0] == [c] + parts[0];
    if |parts| > 1 {
      ConcatAssociates([c], parts[0], "/", Join(parts[1..]));
    }
  }

  /** Cutting a path into segments loses nothing, and no segment holds a slash. */
  lemma {:induction false} SplitJoins(s: string)
    ensures Join(Split(s)) == s
    ensures forall i :: 0 <= i < |Split(s)| ==> '/' !in Split(s)[i]
  {
    if s != "" {
      SplitJoins(s[1..]);
      var rest := Split(s[1..]);
      assert s == [s[0]] + s[1..];
      if s[0] == '/' {
        assert ([""] + rest)[1..] == rest;
        assert Join([""] + rest) == "/" + Join(rest);
      } else {
        JoinPrepend(s[0], rest);
      }
    }
  }

  predicate HasAny(s: string, chars: string) {
    exists i :: 0 <= i < |s| && s[i] in chars
  }

  function Count(s: string, c: char): nat {
    if s == "" then 0 else (if s[0] == c then 1 else 0) + Count(s[1..], c)
  }

  predicate IsParameterSegment(segment: string) {
    && |segment| >= 2 && segment[0] == '{' && segment[|segment| - 1] == '}'
    && Count(segment, '{') == 1 && Count(segment, '}') == 1
  }

  lemma {:induction false} CountConcat(a: string, b: string, c: char)
    ensures Count(a + b, c) == Count(a, c) + Count(b, c)
  {
    if a == "" {
      assert a + b == b;
    } else {
      assert (a + b)[1..] == a[1..] + b;
      CountConcat(a[1..], b, c);
    }
  }

  lemma {:induction false} CountZero(s: string, c: char)
    ensures Count(s, c) == 0 <==> c !in s
  {
    if s != "" {
      CountZero(s[1..], c);
      assert s == [s[0]] + s[1..];
    }
  }

  /** The counting test singles out a brace-free name between one pair of braces. */
  lemma ParameterSegmentShape(segment: string)
    ensures IsParameterSegment(segment) <==>
              |segment| >= 2 && segment == "{" + segment[1..|segment| - 1] + "}"
                && !HasAny(segment[1..|segment| - 1], "{}")
  {
    if |segment| >= 2 && segment[0] == '{' && segment[|segment| - 1] == '}' {
      var name := segment[1..|segment| - 1];
      assert segment == "{" + name + "}";
      CountConcat("{" + name, "}", '{');
      CountConcat("{", name, '{');
      CountConcat("{" + name, "}", '}');
      CountConcat("{", name, '}');
      CountZero(name, '{');
      CountZero(name, '}');
      assert Count("{", '{') == 1 && Count("}", '{') == 0 && Count("{", '}') == 0 && Count("}", '}') == 1;
      if '{' in name || '}' in name {
        assert exists i :: 0 <= i < |name| && name[i] in "{}";
      }
    }
  }

  predicate IsAsciiLetter(c: char) {
    'a' <= c <= 'z' || 'A' <= c <= 'Z'
  }

  predicate IsNameChar(c: char) {
    IsAsciiLetter(c) || '0' <= c <= '9' || c == '_'
  }

  predicate ValidName(name: string) {
    && name != "" && (IsAsciiLetter(name[0]) || name[0] == '_')
    && forall i :: 1 <= i < |name| ==> IsNameChar(name[i])
  }

  method ValidParameterName(name: string) returns (valid: bool)
    ensures valid == ValidName(name)
  {
    if name == "" {
      return false;
    }
    if !IsAsciiLetter(name[0]) && name[0] != '_' {
      return false;
    }
    for index := 1 to |name|
      invariant forall i :: 1 <= i < index ==> IsNameChar(name[i])
    {
      var character := name[index];
      if !IsAsciiLetter(character) && (character < '0' || character > '9') && character != '_' {
        return false;
      }
    }
    return true;
  }

  predicate SegmentOk(segment: string) {
    HasAny(segment, "{}") ==> IsParameterSegment(segment) && ValidName(segment[1..|segment| - 1])
  }

  predicate WellFormed(pattern: string) {
    && pattern != "" && pattern[0] == '/' && !HasAny(pattern, "?#\r\n")
    && forall i :: 0 <= i < |SplitPath(pattern)| ==> SegmentOk(SplitPath(pattern)[i])
  }

  /** A pattern with a parameter in it. */
  predicate IsTemplate(pattern: string)
    requires WellFormed(pattern)
  {
    exists i :: 0 <= i < |SplitPath(pattern)| && HasAny(SplitPath(pattern)[i], "{}")
  }

  datatype Parsed = Parsed(segments: seq<string>, template: bool) | Malformed

  method ParsePathPattern(pattern: string) returns (r: Parsed)
    ensures r.Parsed? <==> WellFormed(pattern)
    ensures r.Parsed? ==> r.segments == SplitPath(pattern) && r.template == IsTemplate(pattern)
  {
    if pattern == "" || pattern[0] != '/' || HasAny(pattern, "?#\r\n") {
      return Malformed;
    }
    var segments := SplitPath(pattern);
    var template := false;
    for index := 0 to |segments|
      invariant forall i :: 0 <= i < index ==> SegmentOk(segments[i])
      invariant template <==> exists i :: 0 <= i < index && HasAny(segments[i], "{}")
    {
      var segment := segments[index];
      var hasBrace := HasAny(segment, "{}");
      if !hasBrace {
        continue;
      }
      if !IsParameterSegment(segment) {
        assert !SegmentOk(SplitPath(pattern)[index]);
        return Malformed;
      }
      var valid := ValidParameterName(segment[1..|segment| - 1]);
      if !valid {
        assert !SegmentOk(SplitPath(pattern)[index]);
        return Malformed;
      }
      template := true;
    }
    return Parsed(segments, template);
  }

  function LabelOf(segment: string): Label {
    if IsParameterSegment(segment) then Parameter else Static(segment)
  }

  function LabelsOf(segments: seq<string>): seq<Label> {
    seq(|segments|, i requires 0 <= i < |segments| => LabelOf(segments[i]))
  }

  function Labels(pattern: string): seq<Label>
    requires WellFormed(pattern)
  {
    LabelsOf(SplitPath(pattern))
  }

  /** Segment by segment; a parameter stands for any non-empty segment. */
  predicate Matches(labels: seq<Label>, segments: seq<string>) {
    && |labels| == |segments|
    && forall i :: 0 <= i < |labels| ==>
         labels[i] == Static(segments[i]) || (labels[i] == Parameter && segments[i] != "")
  }

  /** a is static where it first differs from b. */
  ghost predicate Precedes(a: seq<Label>, b: seq<Label>) {
    exists i :: 0 <= i < |a| && i < |b| && a[..i] == b[..i] && a[i].Static? && b[i].Parameter?
  }

  lemma PrecedesIsStrict(a: seq<Label>, b: seq<Label>)
    requires Precedes(a, b)
    ensures a != b && !Precedes(b, a)
  {
    var i :| 0 <= i < |a| && i < |b| && a[..i] == b[..i] && a[i].Static? && b[i].Parameter?;
    forall j | 0 <= j < |b| && j < |a| && b[..j] == a[..j]
      ensures !(b[j].Static? && a[j].Parameter?)
    {
      if i < j {
        SamePrefix(a, b, i, j);
        assert false;
      } else if j < i {
        SamePrefix(a, b, j, i);
      }
    }
  }

  lemma SamePrefix(a: seq<Label>, b: seq<Label>, i: nat, j: nat)
    requires i < j <= |a| && j <= |b| && a[..j] == b[..j]
    ensures a[i] == b[i]
  {
    assert a[..j][i] == b[..j][i];
  }

  // ----- A set of configured patterns ------------------------------------------------------

  type Config = map<string, PathRule>

  ghost predicate Template(c: Config, pattern: string) {
    pattern in c && WellFormed(pattern) && IsTemplate(pattern)
  }

  /** What CompilePathRules accepts: well-formed patterns, no two of them equal up to parameter names. */
  ghost predicate Compilable(c: Config) {
    && (forall p :: p in c ==> WellFormed(p))
    && (forall p, q :: Template(c, p) && Template(c, q) && Labels(p) == Labels(q) ==> p == q)
  }

  ghost predicate PatternMatches(c: Config, pattern: string, path: string) {
    path != "" && path[0] == '/' && Template(c, pattern) && Matches(Labels(pattern), SplitPath(path))
  }

  /** The pattern whose rule a path is given: itself if configured literally, else the best template. */
  ghost predicate Chosen(c: Config, path: string, pattern: string) {
    && path != "" && path[0] == '/' && pattern in c
    && if path in c && !Template(c, path) then pattern == path
       else && PatternMatches(c, pattern, path)
            && forall q :: PatternMatches(c, q, path) && q != pattern ==> Precedes(Labels(pattern), Labels(q))
  }

  ghost predicate MatchSpec(c: Config, path: string, r: Option<PathRule>) {
    match r
    case Some(rule) => exists p :: Chosen(c, path, p) && c[p] == rule
    case None =>
      path == "" || path[0] != '/' || ((path in c ==> Template(c, path)) && forall p :: !PatternMatches(c, p, path))
  }

  /** The specification leaves no choice. */
  lemma MatchSpecUnique(c: Config, path: string, r: Option<PathRule>, r': Option<PathRule>)
    requires MatchSpec(c, path, r) && MatchSpec(c, path, r')
    ensures r == r'
  {
    if r.Some? && r'.Some? {
      var p :| Chosen(c, path, p) && c[p] == r.value;
      var q :| Chosen(c, path, q) && c[q] == r'.value;
      if p != q {
        PrecedesIsStrict(Labels(p), Labels(q));
      }
    }
  }

  // ----- Patterns by their characters ------------------------------------------------------

  predicate Identifier(name: string) {
    && name != "" && !('0' <= name[0] <= '9')
    && forall c :: c in name ==> 'a' <= c <= 'z' || 'A' <= c <= 'Z' || '0' <= c <= '9' || c == '_'
  }

  lemma IdentifierIff(name: string)
    ensures ValidName(name) <==> Identifier(name)
  {
    if ValidName(name) {
      forall c | c in name
        ensures IsNameChar(c)
      {
        var i :| 0 <= i < |name| && name[i] == c;
      }
    }
    if Identifier(name) {
      forall i | 0 <= i < |name|
        ensures IsNameChar(name[i])
      {
        assert name[i] in name;
      }
    }
  }

  /** A segment without braces, or a name in one pair of braces. */
  ghost predicate SegmentShape(segment: string) {
    ('{' !in segment && '}' !in segment) || exists name :: segment == "{" + name + "}" && Identifier(name)
  }

  lemma BracesIff(s: string)
    ensures HasAny(s, "{}") <==> '{' in s || '}' in s
  {
  }

  lemma SegmentOkIff(segment: string)
    ensures SegmentOk(segment) <==> SegmentShape(segment)
  {
    BracesIff(segment);
    ParameterSegmentShape(segment);
    if SegmentOk(segment) && HasAny(segment, "{}") {
      IdentifierIff(segment[1..|segment| - 1]);
    }
    if SegmentShape(segment) && HasAny(segment, "{}") {
      var name :| segment == "{" + name + "}" && Identifier(name);
      assert segment[1..|segment| - 1] == name;
      BracesIff(name);
      IdentifierIff(name);
    }
  }

  lemma ForbiddenIff(s: string)
    ensures HasAny(s, "?#\r\n") <==> '?' in s || '#' in s || '\r' in s || '\n' in s
  {
  }

  /** Exactly these patterns compile. */
  lemma WellFormedShape(pattern: string)
    ensures WellFormed(pattern) <==>
              && pattern != "" && pattern[0] == '/'
              && '?' !in pattern && '#' !in pattern && '\r' !in pattern && '\n' !in pattern
              && forall i :: 0 <= i < |SplitPath(pattern)| ==> SegmentShape(SplitPath(pattern)[i])
  {
    ForbiddenIff(pattern);
    if pattern != "" && pattern[0] == '/' {
      forall i | 0 <= i < |SplitPath(pattern)|
        ensures SegmentOk(SplitPath(pattern)[i]) <==> SegmentShape(SplitPath(pattern)[i])
      {
        SegmentOkIff(SplitPath(pattern)[i]);
      }
    }
  }
}
