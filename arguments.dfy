/** The shape of a find-many argument list: at most one argument per name,
    names drawn from `where`, `orderBy`, `cursor`, `skip`, `take`, in that
    order, and each one present exactly when its parameter group supplies a
    value. `Emits` states this declaratively; `Canonical` is the one list
    that satisfies it. */
module Arguments {
  import opened Values

  /** `iter.map(f).collect()`: one image per element, in order. */
  function Map<A, B>(f: A -> B, s: seq<A>): (r: seq<B>)
    ensures |r| == |s|
    ensures forall i :: 0 <= i < |s| ==> r[i] == f(s[i])
  {
    if s == [] then [] else [f(s[0])] + Map(f, s[1..])
  }

  /** An option as a sequence of zero or one elements. */
  function Elements<T>(x: Option<T>): seq<T>
  {
    if x.Some? then [x.value] else []
  }

  /** `iter.flatten()` over options: the present values, in order. */
  function Flatten<T>(s: seq<Option<T>>): (r: seq<T>)
    ensures |r| <= |s|
  {
    if s == [] then [] else Elements(s[0]) + Flatten(s[1..])
  }

  /** Flattening five options, as a find-many query does. */
  lemma Flatten5<T>(a: Option<T>, b: Option<T>, c: Option<T>, d: Option<T>, e: Option<T>)
    ensures Flatten([a, b, c, d, e])
         == Elements(a) + (Elements(b) + (Elements(c) + (Elements(d) + Elements(e))))
  {
    assert [e][1..] == [];
    assert Flatten([e]) == Elements(e) + Flatten([]);
    assert [d, e][1..] == [e];
    assert Flatten([d, e]) == Elements(d) + Flatten([e]);
    assert [c, d, e][1..] == [d, e];
    assert Flatten([c, d, e]) == Elements(c) + Flatten([d, e]);
    assert [b, c, d, e][1..] == [c, d, e];
    assert Flatten([b, c, d, e]) == Elements(b) + Flatten([c, d, e]);
    assert [a, b, c, d, e][1..] == [b, c, d, e];
  }

  /** The argument names in their fixed emission order. */
  const ArgumentNames: seq<string> := ["where", "orderBy", "cursor", "skip", "take"]

  /** Position of `key` in `ArgumentNames`, or `|ArgumentNames|` for any other key. */
  function Rank(key: string): (r: nat)
    ensures r <= |ArgumentNames|
    ensures r < |ArgumentNames| <==> key in ArgumentNames
    ensures r < |ArgumentNames| ==> ArgumentNames[r] == key
  {
    if key == "where" then 0
    else if key == "orderBy" then 1
    else if key == "cursor" then 2
    else if key == "skip" then 3
    else if key == "take" then 4
    else 5
  }

  /** Argument names strictly follow the fixed order (so none repeats). */
  ghost predicate Ascending(args: seq<Argument>)
  {
    forall i, j :: 0 <= i < j < |args| ==> Rank(args[i].0) < Rank(args[j].0)
  }

  /** `args` holds an argument named `key` exactly when `v` is present, and
      then with `v`'s value. */
  ghost predicate Holds(args: seq<Argument>, key: string, v: Option<Value>)
  {
    forall x :: (key, x) in args <==> v == Some(x)
  }

  /** `args` is the argument list for the given optional values of
      `where`, `orderBy`, `cursor`, `skip` and `take`: in fixed order,
      holding an argument under a name exactly when that name's value is
      present, and nothing under any other name. */
  ghost predicate Emits(args: seq<Argument>, where: Option<Value>, orderBy: Option<Value>,
                        cursor: Option<Value>, skip: Option<Value>, take: Option<Value>)
  {
    && Ascending(args)
    && (forall a :: a in args ==> Rank(a.0) < |ArgumentNames|)
    && Holds(args, "where", where)
    && Holds(args, "orderBy", orderBy)
    && Holds(args, "cursor", cursor)
    && Holds(args, "skip", skip)
    && Holds(args, "take", take)
  }

  /** The argument named `key`, when `v` is present. */
  function Optional(key: string, v: Option<Value>): seq<Argument>
  {
    if v.Some? then [(key, v.value)] else []
  }

  /** The list `Emits` describes, written out group by group. */
  function Canonical(where: Option<Value>, orderBy: Option<Value>, cursor: Option<Value>,
                     skip: Option<Value>, take: Option<Value>): seq<Argument>
  {
    Optional("where", where) + (Optional("orderBy", orderBy) + (Optional("cursor", cursor)
      + (Optional("skip", skip) + Optional("take", take))))
  }

  /** `Canonical`, grouped from the left, as a list built by appending. */
  lemma CanonicalFromLeft(where: Option<Value>, orderBy: Option<Value>, cursor: Option<Value>,
                          skip: Option<Value>, take: Option<Value>)
    ensures Canonical(where, orderBy, cursor, skip, take)
         == Optional("where", where) + Optional("orderBy", orderBy) + Optional("cursor", cursor)
            + Optional("skip", skip) + Optional("take", take)
  {
  }

  /** The number of values present. */
  function Present(where: Option<Value>, orderBy: Option<Value>, cursor: Option<Value>,
                   skip: Option<Value>, take: Option<Value>): nat
  {
    (if where.Some? then 1 else 0) + (if orderBy.Some? then 1 else 0)
      + (if cursor.Some? then 1 else 0) + (if skip.Some? then 1 else 0)
      + (if take.Some? then 1 else 0)
  }

  /** The names of an argument list, in order. */
  function Keys(args: seq<Argument>): (r: seq<string>)
    ensures |r| == |args|
    ensures forall i :: 0 <= i < |args| ==> r[i] == args[i].0
  {
    Map((a: Argument) => a.0, args)
  }

  /** Every name in `args` ranks in `[lo, hi)`. */
  ghost predicate RanksWithin(args: seq<Argument>, lo: nat, hi: nat)
  {
    forall x :: x in args ==> lo <= Rank(x.0) < hi
  }

  /** A concatenation of an ascending list ranked in `[lo, mid)` and one
      ranked in `[mid, hi)` is ascending and ranked in `[lo, hi)`. */
  lemma AscendingAppend(a: seq<Argument>, b: seq<Argument>, lo: nat, mid: nat, hi: nat)
    requires Ascending(a) && Ascending(b)
    requires lo <= mid <= hi
    requires RanksWithin(a, lo, mid) && RanksWithin(b, mid, hi)
    ensures Ascending(a + b) && RanksWithin(a + b, lo, hi)
  {
    forall i, j | 0 <= i < j < |a + b|
      ensures Rank((a + b)[i].0) < Rank((a + b)[j].0)
    {
      if j < |a| {
        assert (a + b)[i] == a[i] && (a + b)[j] == a[j];
      } else if i >= |a| {
        assert (a + b)[i] == b[i - |a|] && (a + b)[j] == b[j - |a|];
      } else {
        assert (a + b)[i] == a[i] && (a + b)[j] == b[j - |a|];
        assert a[i] in a && b[j - |a|] in b;
      }
    }
    forall x | x in a + b ensures lo <= Rank(x.0) < hi {
      assert x in a || x in b;
    }
  }

  /** The group `Optional(key, v)` is ascending and ranked at `key`'s rank. */
  lemma OptionalNames(key: string, v: Option<Value>)
    ensures Ascending(Optional(key, v))
    ensures RanksWithin(Optional(key, v), Rank(key), Rank(key) + 1)
    ensures forall x :: x in Optional(key, v) ==> x.0 == key
  {
  }

  lemma CanonicalAscending(where: Option<Value>, orderBy: Option<Value>, cursor: Option<Value>,
                           skip: Option<Value>, take: Option<Value>)
    ensures Ascending(Canonical(where, orderBy, cursor, skip, take))
  {
    var w, o, c := Optional("where", where), Optional("orderBy", orderBy), Optional("cursor", cursor);
    var s, t := Optional("skip", skip), Optional("take", take);
    assert Rank("where") == 0 && Rank("orderBy") == 1 && Rank("cursor") == 2;
    assert Rank("skip") == 3 && Rank("take") == 4;
    OptionalNames("where", where);
    OptionalNames("orderBy", orderBy);
    OptionalNames("cursor", cursor);
    OptionalNames("skip", skip);
    OptionalNames("take", take);
    AscendingAppend(s, t, 3, 4, 5);
    AscendingAppend(c, s + t, 2, 3, 5);
    AscendingAppend(o, c + (s + t), 1, 2, 5);
    AscendingAppend(w, o + (c + (s + t)), 0, 1, 5);
  }

  /** The members of the group `Optional(key, v)`. */
  lemma OptionalMember(key: string, v: Option<Value>, k: string, x: Value)
    ensures (k, x) in Optional(key, v) <==> key == k && v == Some(x)
  {
  }

  /** Within `Canonical`, the arguments named `key` come from the one group
      named `key`: a group whose name differs contributes nothing. */
  lemma CanonicalHolds(where: Option<Value>, orderBy: Option<Value>, cursor: Option<Value>,
                       skip: Option<Value>, take: Option<Value>, key: string, v: Option<Value>)
    requires key == "where" ==> v == where
    requires key == "orderBy" ==> v == orderBy
    requires key == "cursor" ==> v == cursor
    requires key == "skip" ==> v == skip
    requires key == "take" ==> v == take
    requires key in ArgumentNames
    ensures Holds(Canonical(where, orderBy, cursor, skip, take), key, v)
  {
    var c := Canonical(where, orderBy, cursor, skip, take);
    forall x ensures (key, x) in c <==> v == Some(x) {
      OptionalMember("where", where, key, x);
      OptionalMember("orderBy", orderBy, key, x);
      OptionalMember("cursor", cursor, key, x);
      OptionalMember("skip", skip, key, x);
      OptionalMember("take", take, key, x);
    }
  }

  /** `Canonical` uses no name outside `ArgumentNames`. */
  lemma CanonicalNames(where: Option<Value>, orderBy: Option<Value>, cursor: Option<Value>,
                       skip: Option<Value>, take: Option<Value>)
    ensures forall a :: a in Canonical(where, orderBy, cursor, skip, take) ==> Rank(a.0) < |ArgumentNames|
  {
    OptionalNames("where", where);
    OptionalNames("orderBy", orderBy);
    OptionalNames("cursor", cursor);
    OptionalNames("skip", skip);
    OptionalNames("take", take);
  }

  /** The written-out list has one argument per present value. */
  lemma CanonicalLength(where: Option<Value>, orderBy: Option<Value>, cursor: Option<Value>,
                        skip: Option<Value>, take: Option<Value>)
    ensures |Canonical(where, orderBy, cursor, skip, take)| == Present(where, orderBy, cursor, skip, take)
  {
  }

  /** The written-out list meets the declarative description. */
  lemma CanonicalEmits(where: Option<Value>, orderBy: Option<Value>, cursor: Option<Value>,
                       skip: Option<Value>, take: Option<Value>)
    ensures Emits(Canonical(where, orderBy, cursor, skip, take), where, orderBy, cursor, skip, take)
  {
    CanonicalAscending(where, orderBy, cursor, skip, take);
    CanonicalNames(where, orderBy, cursor, skip, take);
    CanonicalHolds(where, orderBy, cursor, skip, take, "where", where);
    CanonicalHolds(where, orderBy, cursor, skip, take, "orderBy", orderBy);
    CanonicalHolds(where, orderBy, cursor, skip, take, "cursor", cursor);
    CanonicalHolds(where, orderBy, cursor, skip, take, "skip", skip);
    CanonicalHolds(where, orderBy, cursor, skip, take, "take", take);
  }

  /** Two ascending lists with the same members are the same list. */
  lemma {:induction false} AscendingUnique(a: seq<Argument>, b: seq<Argument>)
    requires Ascending(a) && Ascending(b)
    requires forall x :: x in a <==> x in b
    ensures a == b
    decreases |a|
  {
    if a == [] {
      Inhabited(b);
    } else {
      assert a[0] in b;
      assert b[0] in a;
      var k :| 0 <= k < |b| && b[k] == a[0];
      var m :| 0 <= m < |a| && a[m] == b[0];
      assert Rank(a[0].0) <= Rank(a[m].0);
      assert Rank(b[0].0) <= Rank(b[k].0);
      assert k == 0;
      forall x ensures x in a[1..] <==> x in b[1..] {
        TailMember(a, x);
        TailMember(b, x);
      }
      AscendingUnique(a[1..], b[1..]);
      assert a == [a[0]] + a[1..] && b == [b[0]] + b[1..];
    }
  }

  /** A non-empty list has a member. */
  lemma Inhabited(b: seq<Argument>)
    ensures b != [] ==> exists y :: y in b
  {
    if b != [] {
      assert b[0] in b;
    }
  }

  /** In an ascending list, the tail holds everything but the head. */
  lemma TailMember(a: seq<Argument>, x: Argument)
    requires Ascending(a) && a != []
    ensures x in a[1..] <==> x in a && x != a[0]
  {
    if x in a[1..] {
      var i :| 0 <= i < |a[1..]| && a[1..][i] == x;
      assert x == a[i + 1];
    }
    if x in a && x != a[0] {
      var i :| 0 <= i < |a| && a[i] == x;
      assert a[1..][i - 1] == x;
    }
  }

  /** Every member of one list meeting `Emits` is a member of any other
      list meeting it for the same values. */
  lemma EmitsSubset(a1: seq<Argument>, a2: seq<Argument>, where: Option<Value>, orderBy: Option<Value>,
                    cursor: Option<Value>, skip: Option<Value>, take: Option<Value>)
    requires Emits(a1, where, orderBy, cursor, skip, take)
    requires Emits(a2, where, orderBy, cursor, skip, take)
    ensures forall x :: x in a1 ==> x in a2
  {
    forall x | x in a1 ensures x in a2 {
      var (k, v) := x;
      assert Rank(k) < |ArgumentNames|;
      if k == "where" {
        assert where == Some(v);
      } else if k == "orderBy" {
        assert orderBy == Some(v);
      } else if k == "cursor" {
        assert cursor == Some(v);
      } else if k == "skip" {
        assert skip == Some(v);
      } else {
        assert take == Some(v);
      }
    }
  }

  /** `Emits` determines the argument list completely: whatever builds an
      argument list meeting it builds `Canonical`, so the list's length is
      the number of present values. */
  lemma EmitsIsCanonical(args: seq<Argument>, where: Option<Value>, orderBy: Option<Value>,
                         cursor: Option<Value>, skip: Option<Value>, take: Option<Value>)
    requires Emits(args, where, orderBy, cursor, skip, take)
    ensures args == Canonical(where, orderBy, cursor, skip, take)
    ensures |args| == Present(where, orderBy, cursor, skip, take)
  {
    var c := Canonical(where, orderBy, cursor, skip, take);
    CanonicalEmits(where, orderBy, cursor, skip, take);
    EmitsSubset(args, c, where, orderBy, cursor, skip, take);
    EmitsSubset(c, args, where, orderBy, cursor, skip, take);
    AscendingUnique(args, c);
    CanonicalLength(where, orderBy, cursor, skip, take);
  }

  /** Two argument lists built from the same groups, whose `where` values
      may differ but are present together, have the same names in the same
      order and agree on every argument other than `where`. */
  lemma SameShape(a1: seq<Argument>, a2: seq<Argument>, where1: Option<Value>, where2: Option<Value>,
                  orderBy: Option<Value>, cursor: Option<Value>, skip: Option<Value>, take: Option<Value>)
    requires Emits(a1, where1, orderBy, cursor, skip, take)
    requires Emits(a2, where2, orderBy, cursor, skip, take)
    requires where1.Some? <==> where2.Some?
    ensures Keys(a1) == Keys(a2)
    ensures forall i :: 0 <= i < |a1| && a1[i].0 != "where" ==> a1[i] == a2[i]
  {
    EmitsIsCanonical(a1, where1, orderBy, cursor, skip, take);
    EmitsIsCanonical(a2, where2, orderBy, cursor, skip, take);
    var rest := Optional("orderBy", orderBy) + (Optional("cursor", cursor)
      + (Optional("skip", skip) + Optional("take", take)));
    SwapWhere(where1, where2, rest);
  }

  /** Replacing a present `where` value by another changes no name and no
      other argument. */
  lemma SwapWhere(where1: Option<Value>, where2: Option<Value>, rest: seq<Argument>)
    requires where1.Some? <==> where2.Some?
    ensures Keys(Optional("where", where1) + rest) == Keys(Optional("where", where2) + rest)
    ensures forall i :: 0 <= i < |Optional("where", where1) + rest| && (Optional("where", where1) + rest)[i].0 != "where"
              ==> (Optional("where", where1) + rest)[i] == (Optional("where", where2) + rest)[i]
  {
    var a1, a2 := Optional("where", where1) + rest, Optional("where", where2) + rest;
    assert |a1| == |a2|;
    assert forall i :: 0 <= i < |a1| ==> a1[i].0 == a2[i].0;
    assert Keys(a1) == Keys(a2);
  }
}
