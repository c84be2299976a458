/**
 * The compiled path rules (internal/mitmproxy/pathrules.go): a trie of heap nodes, built in place
 * one pattern at a time in whatever order the map yields them, and searched with backtracking.
 */
module PathTrie {
  import opened Basics
  import opened PathPatterns

  class Node {
    var children: map<string, Node>
    var parameter: Node?
    var rule: Option<PathRule>
    var pattern: string

    constructor ()
      ensures children == map[] && parameter == null && rule == None
    {
      children, parameter, rule, pattern := map[], null, None, "";
    }
  }

  datatype CompileError = MalformedPattern(pattern: string) | SamePaths(first: string, second: string)

  class CompiledPathRules {
    var exact: map<string, PathRule>
    var templates: Node
    const count: nat

    /** Every node of the trie, by the labels on the way to it. */
    ghost var nodes: map<seq<Label>, Node>

    constructor (count: nat)
      ensures Valid() && fresh(this) && forall p :: p in nodes ==> fresh(nodes[p])
      ensures exact == map[] && Rules() == map[] && this.count == count
    {
      exact, this.count := map[], count;
      var root := new Node();
      templates := root;
      nodes := map[[] := root];
    }

    ghost function Footprint(): set<object>
      reads this
    {
      nodes.Values
    }

    ghost function AllLinks(): map<seq<Label>, Links>
      reads this, Footprint()
    {
      map p | p in nodes :: Links(nodes[p].children, nodes[p].parameter)
    }

    ghost predicate Valid()
      reads this, Footprint()
    {
      WellLinked(nodes, AllLinks()) && nodes[[]] == templates
    }

    /** What the trie stands for: template labels to rules. */
    ghost function Rules(): map<seq<Label>, PathRule>
      reads this, Footprint()
    {
      map p | p in nodes && nodes[p].rule.Some? :: nodes[p].rule.value
    }

    /** The pattern each rule was given under. */
    ghost function Patterns(): map<seq<Label>, string>
      reads this, Footprint()
    {
      map p | p in nodes && nodes[p].rule.Some? :: nodes[p].pattern
    }

    lemma {:induction false} PrefixIn(p: seq<Label>, q: seq<Label>)
      requires Valid() && p <= q && q in nodes
      ensures p in nodes
      decreases |q|
    {
      if p != q {
        PrefixIn(p, Parent(q));
      }
    }

    ghost function View(): Compiled
      reads this, Footprint()
    {
      Compiled(exact, Rules(), Patterns())
    }

    /** One turn of the compile loop; on trouble it reports what is wrong with the pattern. */
    method Add(pattern: string, rule: PathRule, ghost kind: Kind) returns (error: Option<CompileError>)
      requires Valid() && kind == KindOf(pattern)
      modifies this`exact, this`nodes, Footprint()
      ensures Valid() && NodesGrown()
      ensures Outcome(old(View()), View(), kind, pattern, rule, error)
    {
      var parsed := ParsePathPattern(pattern);
      if parsed.Malformed? {
        return Some(MalformedPattern(pattern));
      }
      if !parsed.template {
        AddExact(pattern, rule);
        return None;
      }
      assert kind == Templated(LabelsOf(parsed.segments));
      error := AddTemplate(pattern, parsed.segments, rule);
    }

    method AddTemplate(pattern: string, segments: seq<string>, rule: PathRule) returns (error: Option<CompileError>)
      requires Valid()
      modifies this`nodes, Footprint()
      ensures Valid() && NodesGrown()
      ensures Outcome(old(View()), View(), Templated(LabelsOf(segments)), pattern, rule, error)
    {
      var first := Insert(pattern, segments, rule);
      error := if first.Some? then Some(SamePaths(first.value, pattern)) else None;
    }

    method AddExact(pattern: string, rule: PathRule)
      requires Valid()
      modifies this`exact
      ensures Valid() && exact == old(exact)[pattern := rule]
      ensures Rules() == old(Rules()) && Patterns() == old(Patterns())
    {
      exact := exact[pattern := rule];
    }

    // ----- Matching ------------------------------------------------------------------------

    /** matchTemplate; p is where the node sits. */
    function MatchTemplate(node: Node?, ghost p: seq<Label>, segments: seq<string>, index: nat): Option<PathRule>
      requires Valid() && index <= |segments|
      requires node != null ==> p in nodes && nodes[p] == node
      reads this, Footprint()
      decreases |segments| - index
    {
      if node == null then None
      else if index == |segments| then node.rule
      else
        var segment := segments[index];
        assert LinksOk(nodes, AllLinks()[p], p);
        var viaStatic :=
          if segment in node.children
          then MatchTemplate(node.children[segment], p + [Static(segment)], segments, index + 1)
          else None;
        if viaStatic.Some? then viaStatic
        else if segment != "" && node.parameter != null
        then MatchTemplate(node.parameter, p + [Parameter], segments, index + 1)
        else None
    }

    /** The rules at or below the node at p that match the remaining segments. */
    ghost predicate Candidate(p: seq<Label>, rest: seq<string>, l: seq<Label>)
      reads this, Footprint()
    {
      l in Rules() && p <= l && Matches(l[|p|..], rest)
    }

    ghost predicate BestBelow(p: seq<Label>, rest: seq<string>, l: seq<Label>)
      reads this, Footprint()
    {
      && Candidate(p, rest, l)
      && forall l' :: Candidate(p, rest, l') && l' != l ==> Precedes(l, l')
    }

    lemma CandidateBranches(p: seq<Label>, rest: seq<string>, l: seq<Label>)
      requires Valid() && Candidate(p, rest, l) && rest != []
      ensures |l| > |p|
      ensures l[|p|] == Static(rest[0]) ==>
                p + [Static(rest[0])] in nodes && Candidate(p + [Static(rest[0])], rest[1..], l)
      ensures l[|p|] != Static(rest[0]) ==>
                l[|p|] == Parameter && rest[0] != "" && p + [Parameter] in nodes
                  && Candidate(p + [Parameter], rest[1..], l)
    {
      MatchesTail(l[|p|..], rest);
      var q := p + [l[|p|]];
      assert q <= l;
      PrefixIn(q, l);
      assert l[|q|..] == l[|p|..][1..];
    }

    static lemma MatchesTail(labels: seq<Label>, segments: seq<string>)
      requires Matches(labels, segments) && segments != []
      ensures labels != [] && Matches(labels[1..], segments[1..])
      ensures labels[0] == Static(segments[0]) || (labels[0] == Parameter && segments[0] != "")
    {
      assert forall i :: 0 <= i < |labels[1..]| ==>
               labels[1..][i] == labels[i + 1] && segments[1..][i] == segments[i + 1];
    }

    lemma CandidateExtends(p: seq<Label>, rest: seq<string>, first: Label, l: seq<Label>)
      requires rest != [] && Candidate(p + [first], rest[1..], l)
      requires first == Static(rest[0]) || (first == Parameter && rest[0] != "")
      ensures Candidate(p, rest, l) && |l| > |p| && l[|p|] == first && l[..|p|] == p
    {
      assert l[..|p| + 1] == p + [first];
      assert l[|p|] == l[..|p| + 1][|p|];
      var tail := l[|p|..];
      assert tail[1..] == l[|p| + 1..];
      forall i | 0 <= i < |tail|
        ensures tail[i] == Static(rest[i]) || (tail[i] == Parameter && rest[i] != "")
      {
        if i > 0 { assert tail[i] == tail[1..][i - 1] && rest[i] == rest[1..][i - 1]; }
      }
    }

    /** Backtracking finds the best candidate, and none only if there is none. */
    lemma {:induction false} MatchTemplateIsBest(p: seq<Label>, segments: seq<string>, index: nat)
      returns (l: seq<Label>)
      requires Valid() && index <= |segments| && p in nodes
      ensures var r := MatchTemplate(nodes[p], p, segments, index);
              && (r.None? ==> forall l' :: !Candidate(p, segments[index..], l'))
              && (r.Some? ==> BestBelow(p, segments[index..], l) && Rules()[l] == r.value)
      decreases |segments| - index
    {
      var rest := segments[index..];
      l := p;
      if index == |segments| {
        forall l' | Candidate(p, rest, l')
          ensures l' == p && nodes[p].rule.Some?
        {
        }
      } else {
        var s, q := p + [Static(segments[index])], p + [Parameter];
        assert LinksOk(nodes, AllLinks()[p], p);
        assert rest[1..] == segments[index + 1..];
        if s in nodes {
          l := MatchTemplateIsBest(s, segments, index + 1);
          if MatchTemplate(nodes[s], s, segments, index + 1).Some? {
            StaticIsBest(p, rest, l);
            return;
          }
        }
        if segments[index] != "" && q in nodes {
          l := MatchTemplateIsBest(q, segments, index + 1);
        }
        NoStaticCandidate(p, rest, l);
      }
    }

    lemma StaticIsBest(p: seq<Label>, rest: seq<string>, l: seq<Label>)
      requires Valid() && rest != [] && BestBelow(p + [Static(rest[0])], rest[1..], l)
      ensures BestBelow(p, rest, l)
    {
      CandidateExtends(p, rest, Static(rest[0]), l);
      forall l' | Candidate(p, rest, l') && l' != l
        ensures Precedes(l, l')
      {
        CandidateBranches(p, rest, l');
        if l'[|p|] == Parameter {
          assert l[..|p|] == l'[..|p|];
        }
      }
    }

    lemma NoStaticCandidate(p: seq<Label>, rest: seq<string>, l: seq<Label>)
      requires Valid() && rest != []
      requires p + [Static(rest[0])] in nodes ==> forall l' :: !Candidate(p + [Static(rest[0])], rest[1..], l')
      ensures rest[0] != "" && p + [Parameter] in nodes && BestBelow(p + [Parameter], rest[1..], l) ==>
              BestBelow(p, rest, l)
      ensures rest[0] == "" || p + [Parameter] !in nodes || (forall l' :: !Candidate(p + [Parameter], rest[1..], l'))
              ==> forall l' :: !Candidate(p, rest, l')
    {
      forall l' | Candidate(p, rest, l')
        ensures rest[0] != "" && p + [Parameter] in nodes && Candidate(p + [Parameter], rest[1..], l')
      {
        CandidateBranches(p, rest, l');
      }
      if rest[0] != "" && p + [Parameter] in nodes && BestBelow(p + [Parameter], rest[1..], l) {
        CandidateExtends(p, rest, Parameter, l);
      }
    }

    /** The trie holds exactly the rules of the configuration; AllHeld says what that means for the patterns. */
    ghost predicate Represents(c: Config)
      reads this, Footprint()
    {
      Valid() && count == |c| && Holds(View(), c, Kinds(c), c.Keys)
    }

    lemma BestIsChosen(path: string, c: Config, l: seq<Label>)
      requires Represents(c) && path != "" && path[0] == '/' && path !in exact
      requires BestBelow([], SplitPath(path), l)
      ensures exists p :: Chosen(c, path, p) && c[p] == Rules()[l]
    {
      AllHeld(View(), c);
      var p :| Template(c, p) && Labels(p) == l;
      assert l[0..] == l;
      forall q | PatternMatches(c, q, path) && q != p
        ensures Precedes(l, Labels(q))
      {
        assert Labels(q)[0..] == Labels(q);
        assert Candidate([], SplitPath(path), Labels(q));
      }
      assert Chosen(c, path, p);
    }

    lemma NothingMatches(path: string, c: Config)
      requires Represents(c) && path != "" && path[0] == '/'
      requires forall l :: !Candidate([], SplitPath(path), l)
      ensures forall p :: !PatternMatches(c, p, path)
    {
      AllHeld(View(), c);
      forall p
        ensures !PatternMatches(c, p, path)
      {
        if PatternMatches(c, p, path) {
          assert Labels(p)[0..] == Labels(p);
          assert Candidate([], SplitPath(path), Labels(p));
        }
      }
    }

    method Match(path: string, ghost c: Config) returns (r: Option<PathRule>)
      requires Represents(c)
      ensures MatchSpec(c, path, r)
    {
      if path == "" || path[0] != '/' {
        return None;
      }
      AllHeld(View(), c);
      if path in exact {
        assert Chosen(c, path, path);
        return Some(exact[path]);
      }
      var segments := SplitPath(path);
      r := MatchTemplate(templates, [], segments, 0);
      ghost var l := MatchTemplateIsBest([], segments, 0);
      assert segments[0..] == segments;
      if r.Some? {
        BestIsChosen(path, c, l);
      } else {
        NothingMatches(path, c);
      }
    }

    /** Len: one for each exact rule and one for each node with a rule. */
    method Len(ghost c: Config) returns (n: nat)
      requires Represents(c)
      ensures n == |c| == |exact| + |Rules()|
    {
      CountHeld(View(), c, Kinds(c));
      return count;
    }

    // ----- Building ------------------------------------------------------------------------

    /** New nodes have been added, and the old ones are where they were. */
    twostate predicate NodesGrown()
      reads this
    {
      && (forall p :: p in old(nodes) ==> p in nodes && nodes[p] == old(nodes)[p])
      && (forall p :: p in nodes && p !in old(nodes) ==> fresh(nodes[p]))
    }

    /** And the new ones have no rules. */
    twostate predicate OnlyGrown()
      reads this, Footprint()
    {
      && NodesGrown()
      && (forall p :: p in old(nodes) ==>
            nodes[p].rule == old(nodes[p].rule) && nodes[p].pattern == old(nodes[p].pattern))
      && (forall p :: p in nodes && p !in old(nodes) ==> nodes[p].rule.None?)
    }

    /** A new node, hung under the one at p. */
    method Hang(ghost p: seq<Label>, node: Node, at: Label) returns (child: Node)
      requires p in nodes && nodes[p] == node && p + [at] !in nodes
      modifies node`children, node`parameter
      ensures fresh(child) && child.children == map[] && child.parameter == null && child.rule.None?
      ensures Links(node.children, node.parameter) == Extended(old(AllLinks())[p], at, child)
    {
      child := new Node();
      match at {
        case Parameter => node.parameter := child;
        case Static(segment) => node.children := node.children[segment := child];
      }
    }

    method PlaceLeaf(ghost p: seq<Label>, node: Node, at: Label) returns (child: Node)
      requires p in nodes && nodes[p] == node && p + [at] !in nodes
      requires forall r :: r in nodes && r != p ==> nodes[r] != node
      modifies this`nodes, node`children, node`parameter
      ensures fresh(child) && child.rule.None?
      ensures nodes == old(nodes)[p + [at] := child]
      ensures LeafAdded(old(AllLinks()), AllLinks(), p, at, child)
    {
      child := Hang(p, node, at);
      nodes := nodes[p + [at] := child];
    }

    method AddLeaf(ghost p: seq<Label>, node: Node, at: Label) returns (child: Node)
      requires Valid() && p in nodes && nodes[p] == node && p + [at] !in nodes
      modifies this`nodes, node`children, node`parameter
      ensures Valid() && OnlyGrown()
      ensures nodes == old(nodes)[p + [at] := child]
    {
      ghost var links := AllLinks();
      child := PlaceLeaf(p, node, at);
      LeafKeepsLinks(old(nodes), links, AllLinks(), p, at, child);
    }

    /** One turn of the descent: the child for a segment, made if missing. */
    method Child(ghost p: seq<Label>, node: Node, segment: string) returns (child: Node)
      requires Valid() && p in nodes && nodes[p] == node
      modifies this`nodes, node`children, node`parameter
      ensures Valid() && OnlyGrown()
      ensures p + [LabelOf(segment)] in nodes && nodes[p + [LabelOf(segment)]] == child
    {
      assert LinksOk(nodes, AllLinks()[p], p);
      if IsParameterSegment(segment) {
        if node.parameter == null {
          child := AddLeaf(p, node, LabelOf(segment));
        } else {
          child := node.parameter;
        }
      } else if segment !in node.children {
        child := AddLeaf(p, node, LabelOf(segment));
      } else {
        child := node.children[segment];
      }
    }

    /** The descent for one template. */
    method Descend(segments: seq<string>) returns (node: Node)
      requires Valid()
      modifies this`nodes, Footprint()
      ensures Valid() && OnlyGrown()
      ensures LabelsOf(segments) in nodes && nodes[LabelsOf(segments)] == node
    {
      node := templates;
      ghost var p: seq<Label> := [];
      for index := 0 to |segments|
        invariant Valid() && OnlyGrown()
        invariant p == LabelsOf(segments[..index]) && p in nodes && nodes[p] == node
      {
        node := Child(p, node, segments[index]);
        p := p + [LabelOf(segments[index])];
        LabelsUpTo(segments, index);
      }
      assert segments[..|segments|] == segments;
    }

    lemma SameRules(before: map<seq<Label>, PathRule>, names: map<seq<Label>, string>)
      requires forall p :: p in before ==> p in nodes && nodes[p].rule == Some(before[p])
      requires before.Keys == names.Keys && forall p :: p in names ==> p in nodes && nodes[p].pattern == names[p]
      requires forall p :: p in nodes && p !in before ==> nodes[p].rule.None?
      ensures Rules() == before && Patterns() == names
    {
    }

    method SetRule(ghost p: seq<Label>, node: Node, pattern: string, rule: PathRule)
      requires p in nodes && nodes[p] == node && Distinct(nodes)
      modifies node`rule, node`pattern
      ensures AllLinks() == old(AllLinks())
      ensures Rules() == old(Rules())[p := rule] && Patterns() == old(Patterns())[p := pattern]
    {
      ghost var rules, names := Rules(), Patterns();
      node.rule := Some(rule);
      node.pattern := pattern;
      SameRules(rules[p := rule], names[p := pattern]);
    }

    /** The descent for one template and the rule at its end, unless another template got there first. */
    method Insert(pattern: string, segments: seq<string>, rule: PathRule) returns (first: Option<string>)
      requires Valid()
      modifies this`nodes, Footprint()
      ensures Valid() && NodesGrown()
      ensures first.Some? <==> LabelsOf(segments) in old(Rules())
      ensures first.Some? ==> first.value == old(Patterns())[LabelsOf(segments)]
      ensures first.None? ==>
                && Rules() == old(Rules())[LabelsOf(segments) := rule]
                && Patterns() == old(Patterns())[LabelsOf(segments) := pattern]
    {
      var node := Descend(segments);
      SameRules(old(Rules()), old(Patterns()));
      if node.rule.Some? {
        return Some(node.pattern);
      }
      SetRule(LabelsOf(segments), node, pattern, rule);
      return None;
    }
  }

  lemma LabelsUpTo(segments: seq<string>, i: nat)
    requires i < |segments|
    ensures LabelsOf(segments[..i + 1]) == LabelsOf(segments[..i]) + [LabelOf(segments[i])]
  {
  }

  lemma {:induction false} InjectiveSize(m: map<seq<Label>, string>)
    requires forall p, q :: p in m && q in m && m[p] == m[q] ==> p == q
    ensures |m| == |m.Values|
    decreases |m|
  {
    if m != map[] {
      var p :| p in m;
      var rest := m - {p};
      assert rest.Keys == m.Keys - {p};
      InjectiveSize(rest);
      forall b
        ensures b in m.Values <==> b in rest.Values + {m[p]}
      {
        if b in m.Values {
          var q :| q in m && m[q] == b;
          assert q == p || (q in rest && rest[q] == b);
        }
      }
      assert m.Values == rest.Values + {m[p]};
    } else {
      assert m.Values == {};
    }
  }

  /** Where a node's children and parameter fields point. */
  datatype Links = Links(children: map<string, Node>, parameter: Node?)

  function Extended(links: Links, at: Label, child: Node): Links {
    match at
    case Static(segment) => links.(children := links.children[segment := child])
    case Parameter => links.(parameter := child)
  }

  ghost predicate LinksOk(nodes: map<seq<Label>, Node>, links: Links, p: seq<Label>) {
    && (forall segment :: segment in links.children <==> p + [Static(segment)] in nodes)
    && (forall segment :: segment in links.children ==> links.children[segment] == nodes[p + [Static(segment)]])
    && (links.parameter != null <==> p + [Parameter] in nodes)
    && (links.parameter != null ==> links.parameter == nodes[p + [Parameter]])
  }

  function Parent(p: seq<Label>): seq<Label> {
    if p == [] then [] else p[..|p| - 1]
  }

  ghost predicate ParentsIn(nodes: map<seq<Label>, Node>) {
    forall p {:trigger Parent(p)} :: p in nodes ==> Parent(p) in nodes
  }

  ghost predicate Distinct(nodes: map<seq<Label>, Node>) {
    forall p, q :: p in nodes && q in nodes && nodes[p] == nodes[q] ==> p == q
  }

  /** The nodes form a tree under the root: children and parameter lead one label further on. */
  ghost predicate WellLinked(nodes: map<seq<Label>, Node>, links: map<seq<Label>, Links>) {
    && links.Keys == nodes.Keys && [] in nodes
    && ParentsIn(nodes) && Distinct(nodes)
    && (forall p {:trigger LinksOk(nodes, links[p], p)} :: p in nodes ==> LinksOk(nodes, links[p], p))
  }

  ghost predicate LeafAdded(links: map<seq<Label>, Links>, links': map<seq<Label>, Links>, p: seq<Label>, at: Label,
                            child: Node)
    requires p in links
  {
    && links'.Keys == links.Keys + {p + [at]}
    && links'[p + [at]] == Links(map[], null)
    && (p in links' && links'[p] == Extended(links[p], at, child))
    && (forall r :: r in links && r != p && r != p + [at] ==> links'[r] == links[r])
  }

  lemma SnocInjective(r: seq<Label>, l: Label, p: seq<Label>, at: Label)
    requires r + [l] == p + [at]
    ensures r == p && l == at
  {
    assert (r + [l])[..|r|] == (p + [at])[..|p|] && (r + [l])[|r|] == (p + [at])[|p|];
  }

  /** A leaf under p is a new link for p and for nobody else. */
  lemma LeafLinks(nodes: map<seq<Label>, Node>, links: Links, p: seq<Label>, at: Label, child: Node, r: seq<Label>)
    requires LinksOk(nodes, links, r) && p + [at] !in nodes
    ensures LinksOk(nodes[p + [at] := child], if r == p then Extended(links, at, child) else links, r)
  {
    forall l | r + [l] == p + [at]
      ensures r == p && l == at
    {
      SnocInjective(r, l, p, at);
    }
  }

  lemma NothingBelow(nodes: map<seq<Label>, Node>, q: seq<Label>, child: Node)
    requires ParentsIn(nodes) && q !in nodes && q != []
    ensures LinksOk(nodes[q := child], Links(map[], null), q)
  {
    forall l
      ensures q + [l] !in nodes[q := child]
    {
      assert Parent(q + [l]) == q;
    }
  }

  lemma LeafKeepsParents(nodes: map<seq<Label>, Node>, p: seq<Label>, at: Label, child: Node)
    requires ParentsIn(nodes) && Distinct(nodes) && p in nodes && child !in nodes.Values
    ensures ParentsIn(nodes[p + [at] := child]) && (p + [at] !in nodes ==> Distinct(nodes[p + [at] := child]))
  {
    assert Parent(p + [at]) == p;
  }

  lemma LeafKeepsAllLinks(nodes: map<seq<Label>, Node>, links: map<seq<Label>, Links>, links': map<seq<Label>, Links>,
                          p: seq<Label>, at: Label, child: Node, r: seq<Label>)
    requires WellLinked(nodes, links) && p in nodes && p + [at] !in nodes && r in nodes[p + [at] := child]
    requires LeafAdded(links, links', p, at, child)
    ensures LinksOk(nodes[p + [at] := child], links'[r], r)
  {
    if r == p + [at] {
      NothingBelow(nodes, r, child);
    } else {
      assert LinksOk(nodes, links[r], r);
      LeafLinks(nodes, links[r], p, at, child, r);
    }
  }

  /** Hanging a new leaf under p keeps every node in order. */
  lemma LeafKeepsLinks(nodes: map<seq<Label>, Node>, links: map<seq<Label>, Links>, links': map<seq<Label>, Links>,
                       p: seq<Label>, at: Label, child: Node)
    requires WellLinked(nodes, links) && p in nodes && p + [at] !in nodes && child !in nodes.Values
    requires LeafAdded(links, links', p, at, child)
    ensures WellLinked(nodes[p + [at] := child], links')
  {
    LeafKeepsParents(nodes, p, at, child);
    forall r | r in nodes[p + [at] := child]
      ensures LinksOk(nodes[p + [at] := child], links'[r], r)
    {
      LeafKeepsAllLinks(nodes, links, links', p, at, child, r);
    }
  }

  // ----- CompilePathRules ------------------------------------------------------------------

  /** A compiled trie, as values: the literal rules, the template rules, and the patterns they came from. */
  datatype Compiled = Compiled(
    exact: map<string, PathRule>,
    rules: map<seq<Label>, PathRule>,
    names: map<seq<Label>, string>
  )

  datatype Kind = Invalid | Literal | Templated(labels: seq<Label>)

  ghost function KindOf(pattern: string): Kind {
    if !WellFormed(pattern) then Invalid else if IsTemplate(pattern) then Templated(Labels(pattern)) else Literal
  }

  ghost predicate Truthful(kinds: map<string, Kind>) {
    forall p {:trigger KindOf(p)} :: p in kinds ==> kinds[p] == KindOf(p)
  }

  ghost function Kinds(c: Config): map<string, Kind> {
    map p | p in c :: KindOf(p)
  }

  /** t holds exactly the patterns in `done`. */
  ghost predicate Holds(t: Compiled, c: Config, kinds: map<string, Kind>, done: set<string>) {
    && done <= c.Keys == kinds.Keys && t.names.Keys == t.rules.Keys
    && (forall p :: p in done ==> kinds[p] != Invalid)
    && (forall p :: p in t.exact <==> p in done && kinds[p] == Literal)
    && (forall p :: p in t.exact ==> t.exact[p] == c[p])
    && (forall p :: p in done && kinds[p].Templated? ==>
          kinds[p].labels in t.rules && t.rules[kinds[p].labels] == c[p] && t.names[kinds[p].labels] == p)
    && (forall l :: l in t.rules ==> t.names[l] in done && kinds[t.names[l]] == Templated(l))
  }

  /** What one turn of the compile loop does with a pattern of this kind. */
  ghost predicate Outcome(t: Compiled, t': Compiled, kind: Kind, pattern: string, rule: PathRule,
                          error: Option<CompileError>) {
    match kind
    case Invalid => error == Some(MalformedPattern(pattern))
    case Literal => error == None && t' == t.(exact := t.exact[pattern := rule])
    case Templated(labels) =>
      if labels in t.rules then labels in t.names && error == Some(SamePaths(t.names[labels], pattern))
      else error == None && t' == t.(rules := t.rules[labels := rule], names := t.names[labels := pattern])
  }

  lemma OutcomeHolds(t: Compiled, t': Compiled, c: Config, kinds: map<string, Kind>, done: set<string>, p: string,
                     error: Option<CompileError>)
    requires Holds(t, c, kinds, done) && p in c && p !in done && Outcome(t, t', kinds[p], p, c[p], error)
    ensures error.None? ==> Holds(t', c, kinds, done + {p})
    ensures error.Some? ==> Justified(c, kinds, error.value)
  {
    match kinds[p] {
      case Invalid =>
      case Literal => LiteralAdded(t, c, kinds, done, p);
      case Templated(labels) => if labels !in t.rules { TemplateAdded(t, c, kinds, done, p); }
    }
  }

  lemma LiteralAdded(t: Compiled, c: Config, kinds: map<string, Kind>, done: set<string>, p: string)
    requires Holds(t, c, kinds, done) && p in c && p !in done && kinds[p] == Literal
    ensures Holds(t.(exact := t.exact[p := c[p]]), c, kinds, done + {p})
  {
  }

  lemma TemplateAdded(t: Compiled, c: Config, kinds: map<string, Kind>, done: set<string>, p: string)
    requires Holds(t, c, kinds, done) && p in c && p !in done && kinds[p].Templated? && kinds[p].labels !in t.rules
    ensures Holds(t.(rules := t.rules[kinds[p].labels := c[p]], names := t.names[kinds[p].labels := p]), c, kinds,
                  done + {p})
  {
  }

  /** An error that names what is wrong with the configuration. */
  ghost predicate Justified(c: Config, kinds: map<string, Kind>, error: CompileError)
    requires kinds.Keys == c.Keys
  {
    match error
    case MalformedPattern(p) => p in c && kinds[p] == Invalid
    case SamePaths(p, q) => p != q && p in c && q in c && kinds[p].Templated? && kinds[p] == kinds[q]
  }

  lemma JustifiedRefusal(c: Config, error: CompileError)
    requires Justified(c, Kinds(c), error)
    ensures !Compilable(c)
  {
    match error {
      case MalformedPattern(p) => assert Kinds(c)[p] == KindOf(p);
      case SamePaths(p, q) => assert Kinds(c)[p] == KindOf(p) && Kinds(c)[q] == KindOf(q);
    }
  }

  lemma RuleInBoth(t: Compiled, t': Compiled, c: Config, kinds: map<string, Kind>, l: seq<Label>)
    requires Holds(t, c, kinds, c.Keys) && Holds(t', c, kinds, c.Keys) && l in t.rules
    ensures l in t'.rules && t'.rules[l] == t.rules[l]
  {
    var p := t.names[l];
    assert p in c && kinds[p] == Templated(l);
  }

  lemma RulesWithin(t: Compiled, t': Compiled, c: Config, kinds: map<string, Kind>)
    requires Holds(t, c, kinds, c.Keys) && Holds(t', c, kinds, c.Keys)
    ensures forall l :: l in t.rules ==> l in t'.rules && t'.rules[l] == t.rules[l]
  {
    forall l | l in t.rules
      ensures l in t'.rules && t'.rules[l] == t.rules[l]
    {
      RuleInBoth(t, t', c, kinds, l);
    }
  }

  lemma EqualRules(t: Compiled, t': Compiled, c: Config, kinds: map<string, Kind>)
    requires Holds(t, c, kinds, c.Keys) && Holds(t', c, kinds, c.Keys)
    ensures t.rules == t'.rules
  {
    RulesWithin(t, t', c, kinds);
    RulesWithin(t', t, c, kinds);
    assert t.rules.Keys == t'.rules.Keys;
  }

  lemma SameExact(t: Compiled, t': Compiled, c: Config, kinds: map<string, Kind>)
    requires Holds(t, c, kinds, c.Keys) && Holds(t', c, kinds, c.Keys)
    ensures t.exact == t'.exact
  {
    assert t.exact.Keys == t'.exact.Keys;
  }

  lemma DisjointSize(all: set<string>, xs: set<string>, ys: set<string>)
    requires all == xs + ys && xs !! ys
    ensures |all| == |xs| + |ys|
  {
  }

  /** The patterns with a parameter. */
  function Templates(c: Config, kinds: map<string, Kind>): set<string>
    requires kinds.Keys == c.Keys
  {
    set p | p in c && kinds[p].Templated?
  }

  lemma NamesCover(t: Compiled, c: Config, kinds: map<string, Kind>)
    requires Holds(t, c, kinds, c.Keys)
    ensures t.names.Values == Templates(c, kinds)
  {
    forall p | p in Templates(c, kinds)
      ensures p in t.names.Values
    {
      assert kinds[p].labels in t.names && t.names[kinds[p].labels] == p;
    }
    forall p | p in t.names.Values
      ensures p in Templates(c, kinds)
    {
      var l :| l in t.names && t.names[l] == p;
      assert l in t.rules;
    }
  }

  lemma NamesInjective(t: Compiled, c: Config, kinds: map<string, Kind>)
    requires Holds(t, c, kinds, c.Keys)
    ensures |t.names| == |t.names.Values|
  {
    forall l, l' | l in t.names && l' in t.names && t.names[l] == t.names[l']
      ensures l == l'
    {
      assert l in t.rules && l' in t.rules && Templated(l) == Templated(l');
    }
    InjectiveSize(t.names);
  }

  lemma LiteralsApart(t: Compiled, c: Config, kinds: map<string, Kind>)
    requires Holds(t, c, kinds, c.Keys)
    ensures c.Keys == t.exact.Keys + Templates(c, kinds) && t.exact.Keys !! Templates(c, kinds)
  {
  }

  /** Every pattern is a literal rule or the rule of a node of its own. */
  lemma CountHeld(t: Compiled, c: Config, kinds: map<string, Kind>)
    requires Holds(t, c, kinds, c.Keys)
    ensures |c| == |t.exact| + |t.rules|
  {
    NamesCover(t, c, kinds);
    NamesInjective(t, c, kinds);
    LiteralsApart(t, c, kinds);
    DisjointSize(c.Keys, t.exact.Keys, Templates(c, kinds));
    assert |t.names| == |t.names.Keys| == |t.rules.Keys| == |t.rules|;
  }

  lemma KindAt(c: Config, p: string)
    requires p in c && Kinds(c)[p] != Invalid
    ensures WellFormed(p) && Kinds(c)[p] == if IsTemplate(p) then Templated(Labels(p)) else Literal
  {
    assert Kinds(c)[p] == KindOf(p);
  }

  lemma HeldCompilable(t: Compiled, c: Config)
    requires Holds(t, c, Kinds(c), c.Keys)
    ensures Compilable(c)
  {
    forall p | p in c
      ensures WellFormed(p)
    {
      KindAt(c, p);
    }
    forall p, q | Template(c, p) && Template(c, q) && Labels(p) == Labels(q)
      ensures p == q
    {
      KindAt(c, p);
      KindAt(c, q);
      assert t.names[Labels(p)] == p && t.names[Labels(q)] == q;
    }
  }

  lemma HeldTemplates(t: Compiled, c: Config)
    requires Holds(t, c, Kinds(c), c.Keys) && Compilable(c)
    ensures forall p :: Template(c, p) ==> Labels(p) in t.rules && t.rules[Labels(p)] == c[p]
    ensures forall l :: l in t.rules ==> exists p :: Template(c, p) && Labels(p) == l
  {
    forall p | Template(c, p)
      ensures Labels(p) in t.rules && t.rules[Labels(p)] == c[p]
    {
      KindAt(c, p);
    }
    forall l | l in t.rules
      ensures exists p :: Template(c, p) && Labels(p) == l
    {
      KindAt(c, t.names[l]);
      assert Template(c, t.names[l]);
    }
  }

  lemma HeldLiterals(t: Compiled, c: Config)
    requires Holds(t, c, Kinds(c), c.Keys) && Compilable(c)
    ensures forall p :: p in t.exact <==> p in c && !IsTemplate(p)
  {
    forall p | p in c
      ensures p in t.exact <==> !IsTemplate(p)
    {
      KindAt(c, p);
    }
  }

  lemma AllHeld(t: Compiled, c: Config)
    requires Holds(t, c, Kinds(c), c.Keys)
    ensures Compilable(c)
    ensures forall p :: p in t.exact <==> p in c && !IsTemplate(p)
    ensures forall p :: Template(c, p) ==> Labels(p) in t.rules && t.rules[Labels(p)] == c[p]
    ensures forall l :: l in t.rules ==> exists p :: Template(c, p) && Labels(p) == l
  {
    HeldCompilable(t, c);
    HeldLiterals(t, c);
    HeldTemplates(t, c);
  }

  lemma NoneTaken(all: set<string>)
    ensures all - all == {} && all - {} == all
  {
  }

  lemma OneTaken(all: set<string>, remaining: set<string>, p: string)
    requires remaining <= all && p in remaining
    ensures all - (remaining - {p}) == (all - remaining) + {p}
  {
  }

  /** rules holds exactly the patterns in `done`. */
  ghost predicate Progress(rules: CompiledPathRules, c: Config, done: set<string>)
    reads rules, rules.Footprint()
  {
    rules.Valid() && Holds(rules.View(), c, Kinds(c), done)
  }

  /** One turn of the loop of CompilePathRules. */
  method Turn(rules: CompiledPathRules, pattern: string, c: Config, ghost done: set<string>)
    returns (error: Option<CompileError>)
    requires Progress(rules, c, done) && pattern in c && pattern !in done
    modifies rules`exact, rules`nodes, rules.Footprint()
    ensures rules.NodesGrown()
    ensures error.None? ==> Progress(rules, c, done + {pattern})
    ensures error.Some? ==> Justified(c, Kinds(c), error.value)
  {
    ghost var before := rules.View();
    error := rules.Add(pattern, c[pattern], KindOf(pattern));
    OutcomeHolds(before, rules.View(), c, Kinds(c), done, pattern, error);
  }

  /** The loop over the configured patterns, in any order. */
  method AddAll(rules: CompiledPathRules, configured: Config) returns (error: Option<CompileError>)
    requires Progress(rules, configured, {})
    modifies rules`exact, rules`nodes, rules.Footprint()
    ensures error.None? ==> Progress(rules, configured, configured.Keys)
    ensures error.Some? ==> Justified(configured, Kinds(configured), error.value)
  {
    var remaining := configured.Keys;
    NoneTaken(configured.Keys);
    while remaining != {}
      invariant remaining <= configured.Keys && rules.NodesGrown()
      invariant Progress(rules, configured, configured.Keys - remaining)
      decreases remaining
    {
      var pattern :| pattern in remaining;
      error := Turn(rules, pattern, configured, configured.Keys - remaining);
      if error.Some? {
        return;
      }
      OneTaken(configured.Keys, remaining, pattern);
      remaining := remaining - {pattern};
    }
    error := None;
  }

  /** Accepted or refused on the merits of the configuration alone, in whatever order it is taken. */
  method CompilePathRules(configured: Config) returns (compiled: CompiledPathRules?, error: Option<CompileError>)
    ensures compiled != null <==> Compilable(configured)
    ensures compiled != null ==> compiled.Represents(configured) && error.None?
    ensures compiled == null ==> error.Some? && Justified(configured, Kinds(configured), error.value)
  {
    var rules := new CompiledPathRules(|configured|);
    error := AddAll(rules, configured);
    if error.Some? {
      JustifiedRefusal(configured, error.value);
      return null, error;
    }
    AllHeld(rules.View(), configured);
    compiled := rules;
  }

  /** Two compilations of one configuration, whatever order they took, answer every path alike. */
  lemma OrderIndependent(c: Config, one: CompiledPathRules, other: CompiledPathRules)
    requires one.Represents(c) && other.Represents(c)
    ensures one.exact == other.exact && one.Rules() == other.Rules() && one.count == other.count
  {
    EqualRules(one.View(), other.View(), c, Kinds(c));
    SameExact(one.View(), other.View(), c, Kinds(c));
  }
}
