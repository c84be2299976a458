/**
 * The token scanner that refuses JSON with a repeated key (scanJSONValue and validateUniqueJSON,
 * internal/mitmproxy/text_extractors.go), over the tokens a json.Decoder hands out.
 */
module StrictScan {
  import opened Basics
  import opened Json
  import opened CanonicalJson

  type Scalar = v: Json | v.Null? || v.Bool? || v.Num? witness Null

  datatype Token =
    | OpenObj
    | CloseObj
    | OpenArr
    | CloseArr
    | String(s: string)
    | Literal(v: Scalar)

  predicate Closes(t: Token) {
    t.CloseObj? || t.CloseArr?
  }

  // ----- The tokens of a value -------------------------------------------------------------

  /** The tokens of v in front of `rest`. Commas and colons are not tokens. */
  function TokensOnto(v: Json, rest: seq<Token>): seq<Token>
    decreases v, 0
  {
    match v
    case Str(s) => [String(s)] + rest
    case Arr(items) => [OpenArr] + ItemsOnto(items, [CloseArr] + rest)
    case Obj(members) => [OpenObj] + MembersOnto(members, [CloseObj] + rest)
    case _ => [Literal(v)] + rest
  }

  function ItemsOnto(items: seq<Json>, rest: seq<Token>): seq<Token>
    decreases items, 1
  {
    if items == [] then rest else TokensOnto(items[0], ItemsOnto(items[1..], rest))
  }

  function MembersOnto(members: seq<Member>, rest: seq<Token>): seq<Token>
    decreases members, 1
  {
    if members == [] then rest
    else [String(members[0].key)] + TokensOnto(members[0].value, MembersOnto(members[1..], rest))
  }

  function Tokens(v: Json): seq<Token> {
    TokensOnto(v, [])
  }

  lemma {:induction false} OntoAppends(v: Json, rest: seq<Token>, more: seq<Token>)
    ensures TokensOnto(v, rest + more) == TokensOnto(v, rest) + more
    decreases v, 0
  {
    match v {
      case Arr(items) =>
        ItemsOntoAppends(items, [CloseArr] + rest, more);
        assert [CloseArr] + (rest + more) == ([CloseArr] + rest) + more;
      case Obj(members) =>
        MembersOntoAppends(members, [CloseObj] + rest, more);
        assert [CloseObj] + (rest + more) == ([CloseObj] + rest) + more;
      case _ =>
    }
  }

  lemma {:induction false} ItemsOntoAppends(items: seq<Json>, rest: seq<Token>, more: seq<Token>)
    ensures ItemsOnto(items, rest + more) == ItemsOnto(items, rest) + more
    decreases items, 1
  {
    if items != [] {
      ItemsOntoAppends(items[1..], rest, more);
      OntoAppends(items[0], ItemsOnto(items[1..], rest), more);
    }
  }

  lemma {:induction false} MembersOntoAppends(members: seq<Member>, rest: seq<Token>, more: seq<Token>)
    ensures MembersOnto(members, rest + more) == MembersOnto(members, rest) + more
    decreases members, 1
  {
    if members != [] {
      MembersOntoAppends(members[1..], rest, more);
      OntoAppends(members[0].value, MembersOnto(members[1..], rest), more);
    }
  }

  lemma TokensAppend(v: Json, rest: seq<Token>)
    ensures TokensOnto(v, rest) == Tokens(v) + rest
  {
    OntoAppends(v, [], rest);
    assert [] + rest == rest;
  }

  // ----- The scan as a function ------------------------------------------------------------

  /** The tokens after the first value, if that value is complete and repeats no key. */
  function Scan(ts: seq<Token>): (r: Option<seq<Token>>)
    ensures r.Some? ==> |r.value| < |ts|
    decreases |ts|, 0
  {
    if ts == [] || Closes(ts[0]) then None
    else if ts[0].OpenObj? then ScanMembers(ts[1..], {})
    else if ts[0].OpenArr? then ScanItems(ts[1..])
    else Some(ts[1..])
  }

  function ScanItems(ts: seq<Token>): (r: Option<seq<Token>>)
    ensures r.Some? ==> |r.value| < |ts|
    decreases |ts|, 1
  {
    if ts == [] || ts[0].CloseObj? then None
    else if ts[0].CloseArr? then Some(ts[1..])
    else match Scan(ts)
         case None => None
         case Some(rest) => ScanItems(rest)
  }

  function ScanMembers(ts: seq<Token>, seen: set<string>): (r: Option<seq<Token>>)
    ensures r.Some? ==> |r.value| < |ts|
    decreases |ts|, 1
  {
    if ts == [] then None
    else if ts[0].CloseObj? then Some(ts[1..])
    else if !ts[0].String? || ts[0].s in seen then None
    else match Scan(ts[1..])
         case None => None
         case Some(rest) => ScanMembers(rest, seen + {ts[0].s})
  }

  // ----- The scanner -----------------------------------------------------------------------

  /** A json.Decoder: the tokens it has yet to hand out, and whether the input ends cleanly after them. */
  class Decoder {
    var left: seq<Token>
    const clean: bool

    constructor (left: seq<Token>, clean: bool)
      ensures this.left == left && this.clean == clean
    {
      this.left, this.clean := left, clean;
    }

    method Next() returns (t: Option<Token>)
      modifies this
      ensures old(left) == [] ==> t == None && left == []
      ensures old(left) != [] ==> t == Some(old(left)[0]) && left == old(left)[1..]
    {
      if left == [] {
        return None;
      }
      t := Some(left[0]);
      left := left[1..];
    }

    method More() returns (more: bool)
      ensures more <==> left != [] && !Closes(left[0])
    {
      more := left != [] && !Closes(left[0]);
    }
  }

  method ScanJsonValue(d: Decoder) returns (ok: bool)
    modifies d
    ensures Scan(old(d.left)) == if ok then Some(d.left) else None
    ensures |d.left| <= |old(d.left)|
    decreases |d.left|, 1
  {
    var token := d.Next();
    match token {
      case None => return false;
      case Some(CloseObj) => return false;
      case Some(CloseArr) => return false;
      case Some(OpenObj) => ok := ScanObject(d);
      case Some(OpenArr) => ok := ScanArray(d);
      case _ => return true;
    }
  }

  method ScanObject(d: Decoder) returns (ok: bool)
    modifies d
    ensures ScanMembers(old(d.left), {}) == if ok then Some(d.left) else None
    ensures |d.left| <= |old(d.left)|
    decreases |d.left|, 2
  {
    ghost var start := d.left;
    var seen: set<string> := {};
    var more := d.More();
    while more
      invariant more <==> d.left != [] && !Closes(d.left[0])
      invariant ScanMembers(start, {}) == ScanMembers(d.left, seen)
      invariant |d.left| <= |start|
      decreases |d.left|
    {
      var key := d.Next();
      if !key.value.String? || key.value.s in seen {
        return false;
      }
      seen := seen + {key.value.s};
      ok := ScanJsonValue(d);
      if !ok {
        return false;
      }
      more := d.More();
    }
    var closing := d.Next();
    ok := closing == Some(CloseObj);
  }

  method ScanArray(d: Decoder) returns (ok: bool)
    modifies d
    ensures ScanItems(old(d.left)) == if ok then Some(d.left) else None
    ensures |d.left| <= |old(d.left)|
    decreases |d.left|, 2
  {
    ghost var start := d.left;
    var more := d.More();
    while more
      invariant more <==> d.left != [] && !Closes(d.left[0])
      invariant ScanItems(start) == ScanItems(d.left)
      invariant |d.left| <= |start|
      decreases |d.left|
    {
      ok := ScanJsonValue(d);
      if !ok {
        return false;
      }
      more := d.More();
    }
    var closing := d.Next();
    ok := closing == Some(CloseArr);
  }

  /** Accepts exactly the inputs that are one value without a repeated key and nothing more. */
  method ValidateUniqueJson(d: Decoder, validUtf8: bool) returns (ok: bool)
    modifies d
    ensures ok <==> validUtf8 && d.clean && exists v :: UniqueNames(v) && old(d.left) == Tokens(v)
  {
    ScanExact(d.left, []);
    assert forall v :: Tokens(v) + [] == Tokens(v);
    if !validUtf8 {
      return false;
    }
    ok := ScanJsonValue(d);
    if !ok {
      return false;
    }
    var trailing := d.Next();
    ok := trailing == None && d.clean;
  }

  // ----- What the scan accepts -------------------------------------------------------------

  lemma {:induction false} TokensNotClosing(v: Json, rest: seq<Token>)
    ensures TokensOnto(v, rest) != [] && !Closes(TokensOnto(v, rest)[0])
  {
  }

  /** On the tokens of a value the scan stops right after it, unless some object repeats a key. */
  lemma {:induction false} ScanOnto(v: Json, rest: seq<Token>)
    ensures Scan(TokensOnto(v, rest)) == if UniqueNames(v) then Some(rest) else None
    decreases v, 0
  {
    match v {
      case Arr(items) =>
        assert TokensOnto(v, rest)[1..] == ItemsOnto(items, [CloseArr] + rest);
        ScanItemsOnto(items, rest);
      case Obj(members) =>
        assert TokensOnto(v, rest)[1..] == MembersOnto(members, [CloseObj] + rest);
        ScanMembersOnto(members, rest, {});
      case _ =>
        assert TokensOnto(v, rest)[1..] == rest;
    }
  }

  lemma {:induction false} ScanItemsOnto(items: seq<Json>, rest: seq<Token>)
    ensures ScanItems(ItemsOnto(items, [CloseArr] + rest)) ==
            if forall x :: x in items ==> UniqueNames(x) then Some(rest) else None
    decreases items, 1
  {
    if items == [] {
      assert ([CloseArr] + rest)[1..] == rest;
    } else {
      var tail := ItemsOnto(items[1..], [CloseArr] + rest);
      TokensNotClosing(items[0], tail);
      ScanOnto(items[0], tail);
      ScanItemsOnto(items[1..], rest);
      assert items == [items[0]] + items[1..];
    }
  }

  ghost predicate Fresh(members: seq<Member>, seen: set<string>) {
    forall m :: m in members ==> m.key !in seen
  }

  lemma {:induction false} ScanMembersOnto(members: seq<Member>, rest: seq<Token>, seen: set<string>)
    ensures ScanMembers(MembersOnto(members, [CloseObj] + rest), seen) ==
            if DistinctNames(members) && Fresh(members, seen) && forall m :: m in members ==> UniqueNames(m.value)
            then Some(rest) else None
    decreases members, 1
  {
    if members == [] {
      assert ([CloseObj] + rest)[1..] == rest;
    } else {
      var m, tail := members[0], MembersOnto(members[1..], [CloseObj] + rest);
      var ts := MembersOnto(members, [CloseObj] + rest);
      assert ts[0] == String(m.key) && ts[1..] == TokensOnto(m.value, tail);
      ScanOnto(m.value, tail);
      ScanMembersOnto(members[1..], rest, seen + {m.key});
      assert members == [m] + members[1..];
      FreshSplits(members, seen);
    }
  }

  lemma FreshSplits(members: seq<Member>, seen: set<string>)
    requires members != []
    ensures DistinctNames(members) && Fresh(members, seen) <==>
            members[0].key !in seen && DistinctNames(members[1..]) && Fresh(members[1..], seen + {members[0].key})
  {
    var tail := members[1..];
    assert members == [members[0]] + tail;
    if DistinctNames(members) && Fresh(members, seen) {
      forall m | m in tail
        ensures m.key !in seen + {members[0].key}
      {
        var i :| 0 <= i < |tail| && tail[i] == m;
        assert members[i + 1] == m;
      }
    }
    if members[0].key !in seen && DistinctNames(tail) && Fresh(tail, seen + {members[0].key}) {
      forall i, j | 0 <= i < j < |members|
        ensures members[i].key != members[j].key
      {
        assert tail[j - 1] in tail;
        assert i > 0 ==> members[i] == tail[i - 1];
      }
    }
  }

  /** Whatever the scan accepts starts with the tokens of a value. */
  lemma {:induction false} ScanFinds(ts: seq<Token>) returns (v: Json)
    requires Scan(ts).Some?
    ensures ts == TokensOnto(v, Scan(ts).value)
    decreases |ts|, 0
  {
    assert ts == [ts[0]] + ts[1..];
    match ts[0] {
      case OpenObj =>
        var members := ScanMembersFinds(ts[1..], {});
        v := Obj(members);
      case OpenArr =>
        var items := ScanItemsFinds(ts[1..]);
        v := Arr(items);
      case String(s) => v := Str(s);
      case Literal(w) => v := w;
    }
  }

  lemma {:induction false} ScanItemsFinds(ts: seq<Token>) returns (items: seq<Json>)
    requires ScanItems(ts).Some?
    ensures ts == ItemsOnto(items, [CloseArr] + ScanItems(ts).value)
    decreases |ts|, 1
  {
    if ts[0].CloseArr? {
      items := [];
    } else {
      var item := ScanFinds(ts);
      var rest := Scan(ts).value;
      var tail := ScanItemsFinds(rest);
      items := [item] + tail;
      assert items[1..] == tail;
    }
  }

  lemma {:induction false} ScanMembersFinds(ts: seq<Token>, seen: set<string>) returns (members: seq<Member>)
    requires ScanMembers(ts, seen).Some?
    ensures ts == MembersOnto(members, [CloseObj] + ScanMembers(ts, seen).value)
    decreases |ts|, 1
  {
    if ts[0].CloseObj? {
      members := [];
    } else {
      var value := ScanFinds(ts[1..]);
      var rest := Scan(ts[1..]).value;
      var tail := ScanMembersFinds(rest, seen + {ts[0].s});
      members := [Member(ts[0].s, value)] + tail;
      assert members[1..] == tail;
    }
  }

  /** The scan accepts exactly a value without a repeated key, and leaves exactly what follows it. */
  lemma ScanExact(ts: seq<Token>, rest: seq<Token>)
    ensures Scan(ts) == Some(rest) <==> exists v :: UniqueNames(v) && ts == Tokens(v) + rest
  {
    if Scan(ts) == Some(rest) {
      var v := ScanFinds(ts);
      ScanOnto(v, rest);
      TokensAppend(v, rest);
    }
    forall v | UniqueNames(v) && ts == Tokens(v) + rest
      ensures Scan(ts) == Some(rest)
    {
      ScanOnto(v, rest);
      TokensAppend(v, rest);
    }
  }
}
