/**
 * Putting the members of every object in the order of section 3.2.3 of RFC 8785 (by the UTF-16 code
 * units of their names), and what that keeps: two values have the same canonical form exactly if they
 * are equal as JSON, where the order of members does not matter.
 */
module CanonicalJson {
  import opened Basics
  import opened Json

  // ----- The order of member names ---------------------------------------------------------

  function CodeUnits(c: char): (r: seq<int>)
    ensures 1 <= |r| <= 2
  {
    var n := c as int;
    if n < 0x10000 then [n] else [0xD800 + (n - 0x10000) / 0x400, 0xDC00 + (n - 0x10000) % 0x400]
  }

  /** The code units stand for the character: one below U+10000, and a surrogate pair from there on. */
  lemma CodeUnitsMean(c: char)
    ensures var n, u := c as int, CodeUnits(c);
            if n < 0x10000 then u == [n]
            else |u| == 2 && 0xD800 <= u[0] <= 0xDBFF && 0xDC00 <= u[1] <= 0xDFFF
                 && (u[0] - 0xD800) * 0x400 + (u[1] - 0xDC00) + 0x10000 == n
  {
  }

  function Utf16(s: string): seq<int> {
    if s == "" then [] else CodeUnits(s[0]) + Utf16(s[1..])
  }

  predicate Less(a: seq<int>, b: seq<int>) {
    if b == [] then false
    else if a == [] then true
    else a[0] < b[0] || (a[0] == b[0] && Less(a[1..], b[1..]))
  }

  lemma {:induction false} LessTotal(a: seq<int>, b: seq<int>)
    ensures a == b || Less(a, b) || Less(b, a)
    ensures !(Less(a, b) && Less(b, a)) && (Less(a, b) ==> a != b)
  {
    if a != [] && b != [] {
      LessTotal(a[1..], b[1..]);
      if a[0] == b[0] && a[1..] == b[1..] {
        assert a == [a[0]] + a[1..] == b;
      }
    }
  }

  lemma {:induction false} LessTransitive(a: seq<int>, b: seq<int>, c: seq<int>)
    requires Less(a, b) && Less(b, c)
    ensures Less(a, c)
  {
    if a != [] {
      if a[0] == b[0] && b[0] == c[0] {
        LessTransitive(a[1..], b[1..], c[1..]);
      }
    }
  }

  /** Distinct names have distinct code units: the order is one on names. */
  lemma {:induction false} Utf16Injective(a: string, b: string)
    requires Utf16(a) == Utf16(b)
    ensures a == b
  {
    if a != "" && b != "" {
      var x, y := CodeUnits(a[0]), CodeUnits(b[0]);
      assert Utf16(a)[0] == x[0] && Utf16(b)[0] == y[0];
      assert |x| == |y| && a[0] == b[0] by {
        FirstUnit(a[0]);
        FirstUnit(b[0]);
        if |x| == 2 && |y| == 2 {
          assert Utf16(a)[1] == x[1] && Utf16(b)[1] == y[1];
        }
      }
      assert Utf16(a)[|x|..] == Utf16(a[1..]) && Utf16(b)[|y|..] == Utf16(b[1..]);
      Utf16Injective(a[1..], b[1..]);
      assert a == [a[0]] + a[1..] && b == [b[0]] + b[1..];
    }
  }

  lemma FirstUnit(c: char)
    ensures |CodeUnits(c)| == 2 <==> 0xD800 <= CodeUnits(c)[0] < 0xDC00
  {
  }

  predicate Before(a: string, b: string) {
    Less(Utf16(a), Utf16(b))
  }

  lemma BeforeTotal(a: string, b: string)
    ensures a == b || Before(a, b) || Before(b, a)
    ensures !(Before(a, b) && Before(b, a)) && (Before(a, b) ==> a != b)
  {
    LessTotal(Utf16(a), Utf16(b));
    if Utf16(a) == Utf16(b) {
      Utf16Injective(a, b);
    }
  }

  // ----- Canonical form --------------------------------------------------------------------

  ghost predicate Ordered(ms: seq<Member>) {
    forall i, j :: 0 <= i < j < |ms| ==> Before(ms[i].key, ms[j].key)
  }

  /** Puts m in its place; a name that is there already is an error. */
  function Insert(m: Member, ms: seq<Member>): Option<seq<Member>> {
    if ms == [] then Some([m])
    else if m.key == ms[0].key then None
    else if Before(m.key, ms[0].key) then Some([m] + ms)
    else match Insert(m, ms[1..])
         case None => None
         case Some(rest) => Some([ms[0]] + rest)
  }

  function Canonical(v: Json): Option<Json>
    decreases v, 0
  {
    match v
    case Arr(items) => (match CanonicalItems(items) case None => None case Some(xs) => Some(Arr(xs)))
    case Obj(members) => (match CanonicalMembers(members) case None => None case Some(ms) => Some(Obj(ms)))
    case _ => Some(v)
  }

  function CanonicalItems(items: seq<Json>): (r: Option<seq<Json>>)
    ensures r.Some? ==> |r.value| == |items|
    decreases items, 1
  {
    if items == [] then Some([])
    else match (Canonical(items[0]), CanonicalItems(items[1..]))
         case (Some(x), Some(xs)) => Some([x] + xs)
         case _ => None
  }

  function CanonicalMembers(members: seq<Member>): Option<seq<Member>>
    decreases members, 1
  {
    if members == [] then Some([])
    else match (Canonical(members[0].value), CanonicalMembers(members[1..]))
         case (Some(x), Some(ms)) => Insert(Member(members[0].key, x), ms)
         case _ => None
  }

  // ----- Equality as JSON ------------------------------------------------------------------

  /** Arrays agree item by item; objects have the same names, each with equal values. */
  ghost predicate JsonEqual(v: Json, w: Json)
    decreases v, 1
  {
    match (v, w)
    case (Arr(xs), Arr(ys)) => |xs| == |ys| && forall i :: 0 <= i < |xs| ==> JsonEqual(xs[i], ys[i])
    case (Obj(ms), Obj(ns)) => MembersEqual(ms, ns)
    case _ => v == w
  }

  ghost predicate MembersEqual(ms: seq<Member>, ns: seq<Member>)
    decreases ms, 0
  {
    && (forall m {:trigger HasEqual(m, ns)} :: m in ms ==> HasEqual(m, ns))
    && (forall n {:trigger HasKey(ms, n.key)} :: n in ns ==> HasKey(ms, n.key))
  }

  ghost predicate HasEqual(m: Member, ns: seq<Member>)
    decreases m, 0
  {
    exists n :: n in ns && n.key == m.key && JsonEqual(m.value, n.value)
  }

  /** No object in v, at any depth, has two members of one name. */
  predicate UniqueNames(v: Json)
    decreases v
  {
    match v
    case Arr(xs) => forall x :: x in xs ==> UniqueNames(x)
    case Obj(ms) => DistinctNames(ms) && forall m :: m in ms ==> UniqueNames(m.value)
    case _ => true
  }

  predicate DistinctNames(ms: seq<Member>) {
    forall i, j :: 0 <= i < j < |ms| ==> ms[i].key != ms[j].key
  }

  // ----- Sorting ---------------------------------------------------------------------------

  ghost predicate HasKey(ms: seq<Member>, key: string) {
    exists m :: m in ms && m.key == key
  }

  lemma {:induction false} InsertOrdered(m: Member, ms: seq<Member>)
    requires Ordered(ms)
    ensures Insert(m, ms).None? <==> HasKey(ms, m.key)
    ensures Insert(m, ms).Some? ==>
              && Ordered(Insert(m, ms).value)
              && forall x :: x in Insert(m, ms).value <==> x == m || x in ms
  {
    if ms != [] && m.key != ms[0].key {
      BeforeTotal(m.key, ms[0].key);
      assert ms == [ms[0]] + ms[1..];
      if Before(m.key, ms[0].key) {
        forall i | 0 <= i < |ms|
          ensures Before(m.key, ms[i].key) && m.key != ms[i].key
        {
          if i > 0 { LessTransitive(Utf16(m.key), Utf16(ms[0].key), Utf16(ms[i].key)); }
          BeforeTotal(m.key, ms[i].key);
        }
      } else {
        InsertOrdered(m, ms[1..]);
        var r := Insert(m, ms[1..]);
        if r.Some? {
          forall j | 0 <= j < |r.value|
            ensures Before(ms[0].key, r.value[j].key)
          {
            assert r.value[j] in r.value;
          }
        }
      }
    }
  }

  /** Some x in xs has m's name, and m's value in canonical form. */
  ghost predicate Imaged(m: Member, xs: seq<Member>, canon: Json -> Option<Json>) {
    exists x :: x in xs && x.key == m.key && canon(m.value) == Some(x.value)
  }

  ghost predicate Sourced(x: Member, ms: seq<Member>, canon: Json -> Option<Json>) {
    exists m :: m in ms && x.key == m.key && canon(m.value) == Some(x.value)
  }

  /** xs are the members ms with their values in canonical form. */
  ghost predicate Image(ms: seq<Member>, xs: seq<Member>, canon: Json -> Option<Json>) {
    && (forall m {:trigger Imaged(m, xs, canon)} :: m in ms ==> Imaged(m, xs, canon))
    && (forall x {:trigger Sourced(x, ms, canon)} :: x in xs ==> Sourced(x, ms, canon))
  }

  /** The members come out in order, each with its value in canonical form. */
  lemma {:induction false} MembersSorted(members: seq<Member>)
    requires CanonicalMembers(members).Some?
    ensures Ordered(CanonicalMembers(members).value)
    ensures Image(members, CanonicalMembers(members).value, Canonical)
    ensures DistinctNames(members)
  {
    if members != [] {
      var x, rest := Canonical(members[0].value).value, CanonicalMembers(members[1..]).value;
      MembersSorted(members[1..]);
      var m := Member(members[0].key, x);
      InsertOrdered(m, rest);
      SameNames(members[1..], rest, m.key, Canonical);
      FirstNameDistinct(members);
      InsertImage(members, rest, m, Insert(m, rest).value, Canonical);
    }
  }

  lemma InsertImage(members: seq<Member>, rest: seq<Member>, m: Member, all: seq<Member>, canon: Json -> Option<Json>)
    requires members != [] && Image(members[1..], rest, canon)
    requires m.key == members[0].key && canon(members[0].value) == Some(m.value)
    requires forall x :: x in all <==> x == m || x in rest
    ensures Image(members, all, canon)
  {
    assert members == [members[0]] + members[1..];
    forall n | n in members
      ensures Imaged(n, all, canon)
    {
      if n == members[0] {
        assert m in all;
      } else {
        assert Imaged(n, rest, canon);
        var x :| x in rest && x.key == n.key && canon(n.value) == Some(x.value);
        assert x in all;
      }
    }
    forall x | x in all
      ensures Sourced(x, members, canon)
    {
      if x == m {
        assert members[0] in members;
      } else {
        assert Sourced(x, members[1..], canon);
        var n :| n in members[1..] && x.key == n.key && canon(n.value) == Some(x.value);
        assert n in members;
      }
    }
  }

  lemma SameNames(ms: seq<Member>, xs: seq<Member>, key: string, canon: Json -> Option<Json>)
    requires Image(ms, xs, canon)
    ensures HasKey(ms, key) <==> HasKey(xs, key)
  {
    if HasKey(ms, key) {
      var m :| m in ms && m.key == key;
      assert Imaged(m, xs, canon);
    }
    if HasKey(xs, key) {
      var x :| x in xs && x.key == key;
      assert Sourced(x, ms, canon);
    }
  }

  lemma {:induction false} SortedUnique(xs: seq<Member>, ys: seq<Member>)
    requires Ordered(xs) && Ordered(ys) && forall x :: x in xs <==> x in ys
    ensures xs == ys
  {
    assert xs != [] ==> xs[0] in ys;
    assert ys != [] ==> ys[0] in xs;
    if xs != [] {
      if xs[0] != ys[0] {
        var i :| 0 <= i < |ys| && ys[i] == xs[0];
        var j :| 0 <= j < |xs| && xs[j] == ys[0];
        BeforeTotal(xs[0].key, ys[0].key);
        assert false;
      }
      forall x
        ensures x in xs[1..] <==> x in ys[1..]
      {
        HeadIsFirst(xs, x);
        HeadIsFirst(ys, x);
      }
      SortedUnique(xs[1..], ys[1..]);
      assert xs == [xs[0]] + xs[1..] && ys == [ys[0]] + ys[1..];
    }
  }

  lemma HeadIsFirst(xs: seq<Member>, x: Member)
    requires Ordered(xs) && xs != []
    ensures x in xs[1..] <==> x in xs && x != xs[0]
  {
    assert xs == [xs[0]] + xs[1..];
    if x in xs[1..] {
      var i :| 1 <= i < |xs| && xs[i] == x;
      BeforeTotal(xs[0].key, xs[i].key);
    }
  }

  // ----- What canonical form means ---------------------------------------------------------

  /** A canonical form exists exactly if no object repeats a name. */
  lemma {:induction false} CanonicalExists(v: Json)
    ensures Canonical(v).Some? <==> UniqueNames(v)
    decreases v, 1
  {
    match v {
      case Arr(items) => ItemsExist(items);
      case Obj(members) => MembersExist(members);
      case _ =>
    }
  }

  lemma {:induction false} ItemsExist(items: seq<Json>)
    ensures CanonicalItems(items).Some? <==> forall x :: x in items ==> UniqueNames(x)
    decreases items, 0
  {
    if items != [] {
      CanonicalExists(items[0]);
      ItemsExist(items[1..]);
      assert items == [items[0]] + items[1..];
    }
  }

  lemma {:induction false} MembersExist(members: seq<Member>)
    ensures CanonicalMembers(members).Some? <==> DistinctNames(members) && forall m :: m in members ==>
            UniqueNames(m.value)
    decreases members, 0
  {
    if members != [] {
      CanonicalExists(members[0].value);
      MembersExist(members[1..]);
      assert members == [members[0]] + members[1..];
      if CanonicalMembers(members[1..]).Some? && Canonical(members[0].value).Some? {
        var m, rest := Member(members[0].key, Canonical(members[0].value).value), CanonicalMembers(members[1..]).value;
        MembersSorted(members[1..]);
        InsertOrdered(m, rest);
        SameNames(members[1..], rest, m.key, Canonical);
        FirstNameDistinct(members);
      } else if DistinctNames(members) {
        assert DistinctNames(members[1..]);
      }
    }
  }

  lemma FirstNameDistinct(ms: seq<Member>)
    requires ms != []
    ensures DistinctNames(ms) <==> DistinctNames(ms[1..]) && !HasKey(ms[1..], ms[0].key)
  {
    if DistinctNames(ms[1..]) && !HasKey(ms[1..], ms[0].key) {
      forall i, j | 0 <= i < j < |ms|
        ensures ms[i].key != ms[j].key
      {
        assert ms[j] in ms[1..];
        if i > 0 { assert ms[1..][i - 1].key != ms[1..][j - 1].key; }
      }
    }
  }

  /** Two values have the same canonical form exactly if they are equal as JSON. */
  lemma {:induction false} CanonicalIff(v: Json, w: Json)
    requires Canonical(v).Some? && Canonical(w).Some?
    ensures Canonical(v) == Canonical(w) <==> JsonEqual(v, w)
    decreases v, 1
  {
    match (v, w) {
      case (Arr(xs), Arr(ys)) => ItemsIff(xs, ys);
      case (Obj(ms), Obj(ns)) => ObjectsIff(ms, ns);
      case _ =>
    }
  }

  lemma {:induction false} ObjectsIff(ms: seq<Member>, ns: seq<Member>)
    requires CanonicalMembers(ms).Some? && CanonicalMembers(ns).Some?
    ensures CanonicalMembers(ms) == CanonicalMembers(ns) <==> MembersEqual(ms, ns)
    decreases ms, 0
  {
    var equal := (a, b) => JsonEqual(a, b);
    MembersSorted(ms);
    MembersSorted(ns);
    forall m, n | m in ms && n in ns
      ensures Canonical(m.value) == Canonical(n.value) <==> equal(m.value, n.value)
    {
      assert Imaged(m, CanonicalMembers(ms).value, Canonical);
      assert Imaged(n, CanonicalMembers(ns).value, Canonical);
      CanonicalIff(m.value, n.value);
    }
    MembersIff(ms, CanonicalMembers(ms).value, ns, CanonicalMembers(ns).value, Canonical, equal);
    SameMembersMeaning(ms, ns, equal);
  }

  lemma SameMembersMeaning(ms: seq<Member>, ns: seq<Member>, equal: (Json, Json) -> bool)
    requires forall a, b :: equal(a, b) == JsonEqual(a, b)
    ensures MembersEqual(ms, ns) <==> SameMembers(ms, ns, equal)
  {
    assert forall m {:trigger HasEqual(m, ns)} {:trigger Matched(m, ns, equal)} ::
             Matched(m, ns, equal) <==> HasEqual(m, ns);
  }

  lemma {:induction false} ItemsIff(xs: seq<Json>, ys: seq<Json>)
    requires CanonicalItems(xs).Some? && CanonicalItems(ys).Some?
    ensures CanonicalItems(xs) == CanonicalItems(ys) <==> |xs| == |ys| && forall i :: 0 <= i < |xs| ==>
            JsonEqual(xs[i], ys[i])
    decreases xs, 0
  {
    if |xs| == |ys| > 0 {
      CanonicalIff(xs[0], ys[0]);
      ItemsIff(xs[1..], ys[1..]);
      var a, b := CanonicalItems(xs).value, CanonicalItems(ys).value;
      assert a[1..] == CanonicalItems(xs[1..]).value && b[1..] == CanonicalItems(ys[1..]).value;
      assert a == b <==> a[0] == b[0] && a[1..] == b[1..] by {
        assert a == [a[0]] + a[1..] && b == [b[0]] + b[1..];
      }
      assert (forall i :: 0 <= i < |xs| - 1 ==> JsonEqual(xs[1..][i], ys[1..][i]))
             <==> (forall i :: 1 <= i < |xs| ==> JsonEqual(xs[i], ys[i])) by {
        assert forall i :: 1 <= i < |xs| ==> xs[i] == xs[1..][i - 1];
      }
    }
  }

  // The rest of the argument does not depend on what canonical form and equality are, only on their
  // agreeing on the values of the members.

  ghost predicate Matched(m: Member, ns: seq<Member>, equal: (Json, Json) -> bool) {
    exists n :: n in ns && n.key == m.key && equal(m.value, n.value)
  }

  ghost predicate SameMembers(ms: seq<Member>, ns: seq<Member>, equal: (Json, Json) -> bool) {
    && (forall m {:trigger Matched(m, ns, equal)} :: m in ms ==> Matched(m, ns, equal))
    && (forall n {:trigger HasKey(ms, n.key)} :: n in ns ==> HasKey(ms, n.key))
  }

  ghost predicate Agree(ms: seq<Member>, ns: seq<Member>, canon: Json -> Option<Json>, equal: (Json, Json) -> bool) {
    forall m, n :: m in ms && n in ns ==> (canon(m.value) == canon(n.value) <==> equal(m.value, n.value))
  }

  lemma MembersIff(ms: seq<Member>, xs: seq<Member>, ns: seq<Member>, ys: seq<Member>,
                   canon: Json -> Option<Json>, equal: (Json, Json) -> bool)
    requires Ordered(xs) && Image(ms, xs, canon) && Ordered(ys) && Image(ns, ys, canon) && DistinctNames(ns)
    requires Agree(ms, ns, canon, equal)
    ensures xs == ys <==> SameMembers(ms, ns, equal)
  {
    if xs == ys {
      SameImage(ms, ns, xs, canon, equal);
    } else if SameMembers(ms, ns, equal) {
      forall x
        ensures x in xs <==> x in ys
      {
        if x in xs { ImageIncluded(ms, xs, ns, ys, x, canon, equal); }
        if x in ys { ImageCovered(ms, xs, ns, ys, x, canon, equal); }
      }
      SortedUnique(xs, ys);
    }
  }

  lemma SameImage(ms: seq<Member>, ns: seq<Member>, xs: seq<Member>, canon: Json -> Option<Json>,
                  equal: (Json, Json) -> bool)
    requires Image(ms, xs, canon) && Image(ns, xs, canon) && Agree(ms, ns, canon, equal)
    ensures SameMembers(ms, ns, equal)
  {
    forall m | m in ms
      ensures Matched(m, ns, equal)
    {
      assert Imaged(m, xs, canon);
      var x :| x in xs && x.key == m.key && canon(m.value) == Some(x.value);
      assert Sourced(x, ns, canon);
    }
    forall n | n in ns
      ensures HasKey(ms, n.key)
    {
      assert Imaged(n, xs, canon);
      var x :| x in xs && x.key == n.key && canon(n.value) == Some(x.value);
      assert Sourced(x, ms, canon);
    }
  }

  lemma ImageIncluded(ms: seq<Member>, xs: seq<Member>, ns: seq<Member>, ys: seq<Member>, x: Member,
                      canon: Json -> Option<Json>, equal: (Json, Json) -> bool)
    requires Image(ms, xs, canon) && Image(ns, ys, canon) && Agree(ms, ns, canon, equal)
    requires SameMembers(ms, ns, equal) && x in xs
    ensures x in ys
  {
    assert Sourced(x, ms, canon);
    var m :| m in ms && x.key == m.key && canon(m.value) == Some(x.value);
    assert Matched(m, ns, equal);
    var n :| n in ns && n.key == m.key && equal(m.value, n.value);
    assert Imaged(n, ys, canon);
  }

  lemma ImageCovered(ms: seq<Member>, xs: seq<Member>, ns: seq<Member>, ys: seq<Member>, y: Member,
                     canon: Json -> Option<Json>, equal: (Json, Json) -> bool)
    requires Image(ms, xs, canon) && Image(ns, ys, canon) && Agree(ms, ns, canon, equal)
    requires SameMembers(ms, ns, equal) && DistinctNames(ns) && y in ys
    ensures y in xs
  {
    assert Sourced(y, ns, canon);
    var n :| n in ns && y.key == n.key && canon(n.value) == Some(y.value);
    assert HasKey(ms, n.key);
    var m :| m in ms && m.key == n.key;
    assert Matched(m, ns, equal);
    var n' :| n' in ns && n'.key == m.key && equal(m.value, n'.value);
    var i :| 0 <= i < |ns| && ns[i] == n;
    var j :| 0 <= j < |ns| && ns[j] == n';
    assert i == j;
    assert Imaged(m, xs, canon);
  }

  /** Objects with the same two names are equal exactly if both values are. */
  lemma PairEqual(first: string, second: string, a: Json, b: Json, a': Json, b': Json)
    requires first != second
    ensures JsonEqual(Obj([Member(first, a), Member(second, b)]), Obj([Member(first, a'), Member(second, b')])) <==>
            JsonEqual(a, a') && JsonEqual(b, b')
  {
    var ms, ns := [Member(first, a), Member(second, b)], [Member(first, a'), Member(second, b')];
    assert HasEqual(ms[0], ns) <==> JsonEqual(a, a') by {
      assert ns[0] in ns;
    }
    assert HasEqual(ms[1], ns) <==> JsonEqual(b, b') by {
      assert ns[1] in ns;
    }
    assert HasKey(ms, ns[0].key) && HasKey(ms, ns[1].key) by {
      assert ms[0] in ms && ms[1] in ms;
    }
    assert forall m :: m in ms <==> m == ms[0] || m == ms[1];
    assert forall n :: n in ns <==> n == ns[0] || n == ns[1];
    assert MembersEqual(ms, ns) <==> HasEqual(ms[0], ns) && HasEqual(ms[1], ns);
  }
}
