/** The read-many query builder (`src/queries/find_many.rs`): the fluent
    `FindMany` builder, its assembly into one selection, its batch hooks,
    and the nested `ManyArgs` builder that renders only an argument list
    and nested selections. */
module FindManyQuery {
  import opened Values
  import opened Actions
  import opened Arguments

  /** The parameters both builders accumulate. */
  datatype ManyParams<W, Wi, O, C> = ManyParams(
    wheres: seq<W>, withs: seq<Wi>, orderBys: seq<O>, cursors: seq<C>,
    skip: Option<i64>, take: Option<i64>)

  // ----- Argument values -----

  /** Each filter serialized into its field and its converted value, in order. */
  function WherePairs<W, Wi, O, C, SV>(caps: ModelActions<W, Wi, O, C, SV>, wheres: seq<W>): (r: seq<Argument>)
    ensures |r| == |wheres|
    ensures forall i :: 0 <= i < |wheres| ==>
              r[i] == (caps.serialize(wheres[i]).field, caps.whereValue(caps.serialize(wheres[i]).value))
  {
    Map((w: W) => (caps.serialize(w).field, caps.whereValue(caps.serialize(w).value)), wheres)
  }

  /** The `where` value of a find-many query: the serialized filters, merged. */
  function WhereObject<W, Wi, O, C, SV>(caps: ModelActions<W, Wi, O, C, SV>, wheres: seq<W>): (r: Value)
    ensures r.Object?
  {
    Object(caps.mergeFields(WherePairs(caps, wheres)))
  }

  /** The `where` value of a nested argument set: one entry per filter, in
      order, nothing merged. */
  function ManyArgsWhereObject<W, Wi, O, C, SV>(caps: ModelActions<W, Wi, O, C, SV>, wheres: seq<W>): (r: Value)
    ensures r.Object? && |r.entries| == |wheres|
    ensures forall i :: 0 <= i < |wheres| ==> r.entries[i] == caps.serializedArgument(caps.serialize(wheres[i]))
  {
    Object(Map((w: W) => caps.serializedArgument(caps.serialize(w)), wheres))
  }

  /** The `orderBy` value: a list with one single-entry object per ordering,
      in the caller's order (first is the primary sort key). */
  function OrderByList<W, Wi, O, C, SV>(caps: ModelActions<W, Wi, O, C, SV>, orderBys: seq<O>): (r: Value)
    ensures r.List? && |r.items| == |orderBys|
    ensures forall i :: 0 <= i < |orderBys| ==> r.items[i] == Object([caps.orderByArgument(orderBys[i])])
  {
    List(Map((o: O) => Object([caps.orderByArgument(o)]), orderBys))
  }

  /** The `cursor` value: one object with one entry per cursor, each cursor
      serialized and then passed through the equality transform. */
  function CursorObject<W, Wi, O, C, SV>(caps: ModelActions<W, Wi, O, C, SV>, cursors: seq<C>): (r: Value)
    ensures r.Object? && |r.entries| == |cursors|
    ensures forall i :: 0 <= i < |cursors| ==> r.entries[i] == caps.transformEquals(caps.serializeCursor(cursors[i]))
  {
    Object(Map((c: C) => caps.transformEquals(caps.serializeCursor(c)), cursors))
  }

  // ----- What each argument slot holds -----

  function WhereSlot<W, Wi, O, C, SV>(caps: ModelActions<W, Wi, O, C, SV>, wheres: seq<W>): Option<Value>
  {
    if |wheres| > 0 then Some(WhereObject(caps, wheres)) else None
  }

  function ManyArgsWhereSlot<W, Wi, O, C, SV>(caps: ModelActions<W, Wi, O, C, SV>, wheres: seq<W>): Option<Value>
  {
    if |wheres| > 0 then Some(ManyArgsWhereObject(caps, wheres)) else None
  }

  function OrderBySlot<W, Wi, O, C, SV>(caps: ModelActions<W, Wi, O, C, SV>, orderBys: seq<O>): Option<Value>
  {
    if |orderBys| > 0 then Some(OrderByList(caps, orderBys)) else None
  }

  function CursorSlot<W, Wi, O, C, SV>(caps: ModelActions<W, Wi, O, C, SV>, cursors: seq<C>): Option<Value>
  {
    if |cursors| > 0 then Some(CursorObject(caps, cursors)) else None
  }

  function IntSlot(n: Option<i64>): Option<Value>
  {
    if n.Some? then Some(Int(n.value as int)) else None
  }

  // ----- FindMany::to_selection -----

  /** The arguments `to_selection` hands to `base_selection`: one optional
      argument per group, in the fixed order, flattened. */
  function FindManyArguments<W, Wi, O, C, SV>(caps: ModelActions<W, Wi, O, C, SV>, wheres: seq<W>,
                                              orderBys: seq<O>, cursors: seq<C>,
                                              skip: Option<i64>, take: Option<i64>): (r: seq<Argument>)
    ensures |r| <= |ArgumentNames|
  {
    Flatten([
      if |wheres| > 0 then Some(("where", WhereObject(caps, wheres))) else None,
      if |orderBys| > 0 then Some(("orderBy", OrderByList(caps, orderBys))) else None,
      if |cursors| > 0 then Some(("cursor", CursorObject(caps, cursors))) else None,
      if skip.Some? then Some(("skip", Int(skip.value as int))) else None,
      if take.Some? then Some(("take", Int(take.value as int))) else None
    ])
  }

  /** `FindMany::to_selection`: the selection built from the arguments and
      the given child selections. */
  function ToSelection<W, Wi, O, C, SV>(caps: ModelActions<W, Wi, O, C, SV>, wheres: seq<W>,
                                        orderBys: seq<O>, cursors: seq<C>,
                                        skip: Option<i64>, take: Option<i64>,
                                        nested: seq<Selection>): Selection
  {
    caps.baseSelection(FindManyArguments(caps, wheres, orderBys, cursors, skip, take), nested)
  }

  /** The arguments of a find-many query are present exactly for the
      non-empty groups and the set pagination values, in the order
      where, orderBy, cursor, skip, take, with the values above. */
  lemma FindManyArgumentsEmits<W, Wi, O, C, SV>(caps: ModelActions<W, Wi, O, C, SV>, wheres: seq<W>,
                                               orderBys: seq<O>, cursors: seq<C>,
                                               skip: Option<i64>, take: Option<i64>)
    ensures Emits(FindManyArguments(caps, wheres, orderBys, cursors, skip, take),
                  WhereSlot(caps, wheres), OrderBySlot(caps, orderBys), CursorSlot(caps, cursors),
                  IntSlot(skip), IntSlot(take))
    ensures FindManyArguments(caps, wheres, orderBys, cursors, skip, take)
         == Canonical(WhereSlot(caps, wheres), OrderBySlot(caps, orderBys), CursorSlot(caps, cursors),
                      IntSlot(skip), IntSlot(take))
  {
    var w, o, c := WhereSlot(caps, wheres), OrderBySlot(caps, orderBys), CursorSlot(caps, cursors);
    var s, t := IntSlot(skip), IntSlot(take);
    Flatten5(
      if |wheres| > 0 then Some(("where", WhereObject(caps, wheres))) else None,
      if |orderBys| > 0 then Some(("orderBy", OrderByList(caps, orderBys))) else None,
      if |cursors| > 0 then Some(("cursor", CursorObject(caps, cursors))) else None,
      if skip.Some? then Some(("skip", Int(skip.value as int))) else None,
      if take.Some? then Some(("take", Int(take.value as int))) else None);
    assert FindManyArguments(caps, wheres, orderBys, cursors, skip, take) == Canonical(w, o, c, s, t);
    CanonicalEmits(w, o, c, s, t);
  }

  /** A builder with no parameters yields no arguments at all. */
  lemma EmptyFindManyArguments<W, Wi, O, C, SV>(caps: ModelActions<W, Wi, O, C, SV>)
    ensures FindManyArguments(caps, [], [], [], None, None) == []
  {
    FindManyArgumentsEmits(caps, [], [], [], None, None);
    EmitsIsCanonical(FindManyArguments(caps, [], [], [], None, None), None, None, None, None, None);
  }

  /** The nested argument list of `ManyArgs::to_graphql` has the same names,
      in the same order, as the arguments of `FindMany::to_selection` for the
      same parameters, and the same values for every name but `where`. */
  lemma ManyArgsMatchesFindMany<W, Wi, O, C, SV>(caps: ModelActions<W, Wi, O, C, SV>, wheres: seq<W>,
                                                orderBys: seq<O>, cursors: seq<C>,
                                                skip: Option<i64>, take: Option<i64>, args: seq<Argument>)
    requires Emits(args, ManyArgsWhereSlot(caps, wheres), OrderBySlot(caps, orderBys),
                   CursorSlot(caps, cursors), IntSlot(skip), IntSlot(take))
    ensures Keys(args) == Keys(FindManyArguments(caps, wheres, orderBys, cursors, skip, take))
    ensures forall i :: 0 <= i < |args| && args[i].0 != "where" ==>
              args[i] == FindManyArguments(caps, wheres, orderBys, cursors, skip, take)[i]
  {
    FindManyArgumentsEmits(caps, wheres, orderBys, cursors, skip, take);
    SameShape(args, FindManyArguments(caps, wheres, orderBys, cursors, skip, take),
              ManyArgsWhereSlot(caps, wheres), WhereSlot(caps, wheres),
              OrderBySlot(caps, orderBys), CursorSlot(caps, cursors), IntSlot(skip), IntSlot(take));
  }

  // ----- The FindMany builder -----

  /** `FindMany`: accumulates the parameters of a read-many query. */
  class FindMany<W, Wi, O, C> {
    var whereParams: seq<W>
    var withParams: seq<Wi>
    var orderByParams: seq<O>
    var cursorParams: seq<C>
    var skip: Option<i64>
    var take: Option<i64>

    /** The builder's whole state. */
    function Params(): ManyParams<W, Wi, O, C>
      reads this
    {
      ManyParams(whereParams, withParams, orderByParams, cursorParams, skip, take)
    }

    /** `FindMany::new`: the given filters, everything else empty. */
    constructor (whereParams: seq<W>)
      ensures Params() == ManyParams(whereParams, [], [], [], None, None)
    {
      this.whereParams := whereParams;
      withParams := [];
      orderByParams := [];
      cursorParams := [];
      skip := None;
      take := None;
    }

    method With(param: Wi)
      modifies this
      ensures Params() == old(Params()).(withs := old(withParams) + [param])
    {
      withParams := withParams + [param];
    }

    method OrderBy(param: O)
      modifies this
      ensures Params() == old(Params()).(orderBys := old(orderByParams) + [param])
    {
      orderByParams := orderByParams + [param];
    }

    method Cursor(param: C)
      modifies this
      ensures Params() == old(Params()).(cursors := old(cursorParams) + [param])
    {
      cursorParams := cursorParams + [param];
    }

    method Skip(n: i64)
      modifies this
      ensures Params() == old(Params()).(skip := Some(n))
    {
      skip := Some(n);
    }

    method Take(n: i64)
      modifies this
      ensures Params() == old(Params()).(take := Some(n))
    {
      take := Some(n);
    }

    /** `select`: the query whose children are exactly the projection's
        selections; the `with` parameters play no part. */
    method Select<SV>(caps: ModelActions<W, Wi, O, C, SV>, projection: seq<Selection>) returns (op: Operation)
      ensures op == Read(ToSelection(caps, whereParams, orderByParams, cursorParams, skip, take, projection))
    {
      op := Read(ToSelection(caps, whereParams, orderByParams, cursorParams, skip, take, projection));
    }

    /** `include`: as `select`, the children are exactly the projection's
        selections. */
    method Include<SV>(caps: ModelActions<W, Wi, O, C, SV>, projection: seq<Selection>) returns (op: Operation)
      ensures op == Read(ToSelection(caps, whereParams, orderByParams, cursorParams, skip, take, projection))
    {
      op := Read(ToSelection(caps, whereParams, orderByParams, cursorParams, skip, take, projection));
    }

    /** `exec_operation`: the children are the model's scalar selections
        followed by the `with` parameters' selections, in order. */
    method ExecOperation<SV>(caps: ModelActions<W, Wi, O, C, SV>) returns (op: Operation)
      ensures op == Read(ToSelection(caps, whereParams, orderByParams, cursorParams, skip, take,
                                     caps.scalarSelections + Map(caps.withSelection, withParams)))
    {
      var scalarSelections := caps.scalarSelections;
      scalarSelections := scalarSelections + Map(caps.withSelection, withParams);
      op := Read(ToSelection(caps, whereParams, orderByParams, cursorParams, skip, take, scalarSelections));
    }

    /** `BatchQuery::graphql`: exactly the operation `exec_operation` builds. */
    method Graphql<SV>(caps: ModelActions<W, Wi, O, C, SV>) returns (op: Operation)
      ensures op == Read(ToSelection(caps, whereParams, orderByParams, cursorParams, skip, take,
                                     caps.scalarSelections + Map(caps.withSelection, withParams)))
    {
      op := ExecOperation(caps);
    }

    /** `BatchQuery::convert`: the engine's rows are already the result. */
    static function Convert<D>(raw: D): (r: D)
      ensures r == raw
    {
      raw
    }
  }

  // ----- The ManyArgs builder -----

  /** `ManyArgs`: the same parameters, rendered as a nested argument set. */
  class ManyArgs<W, Wi, O, C> {
    var whereParams: seq<W>
    var withParams: seq<Wi>
    var orderByParams: seq<O>
    var cursorParams: seq<C>
    var skip: Option<i64>
    var take: Option<i64>

    function Params(): ManyParams<W, Wi, O, C>
      reads this
    {
      ManyParams(whereParams, withParams, orderByParams, cursorParams, skip, take)
    }

    /** `ManyArgs::new`: the given filters, everything else empty. */
    constructor (whereParams: seq<W>)
      ensures Params() == ManyParams(whereParams, [], [], [], None, None)
    {
      this.whereParams := whereParams;
      withParams := [];
      orderByParams := [];
      cursorParams := [];
      skip := None;
      take := None;
    }

    method With(param: Wi)
      modifies this
      ensures Params() == old(Params()).(withs := old(withParams) + [param])
    {
      withParams := withParams + [param];
    }

    method OrderBy(param: O)
      modifies this
      ensures Params() == old(Params()).(orderBys := old(orderByParams) + [param])
    {
      orderByParams := orderByParams + [param];
    }

    method Cursor(param: C)
      modifies this
      ensures Params() == old(Params()).(cursors := old(cursorParams) + [param])
    {
      cursorParams := cursorParams + [param];
    }

    method Skip(n: i64)
      modifies this
      ensures Params() == old(Params()).(skip := Some(n))
    {
      skip := Some(n);
    }

    method Take(n: i64)
      modifies this
      ensures Params() == old(Params()).(take := Some(n))
    {
      take := Some(n);
    }

    /** `ManyArgs::to_graphql`: the arguments, present exactly for the
        non-empty groups and the set pagination values, in the fixed order,
        with an unmerged `where`; and the nested selections, one per `with`
        parameter, in order (none when there is none). */
    method ToGraphql<SV>(caps: ModelActions<W, Wi, O, C, SV>)
      returns (arguments: seq<Argument>, nestedSelections: seq<Selection>)
      ensures Emits(arguments, ManyArgsWhereSlot(caps, whereParams), OrderBySlot(caps, orderByParams),
                    CursorSlot(caps, cursorParams), IntSlot(skip), IntSlot(take))
      ensures |nestedSelections| == |withParams|
      ensures forall i :: 0 <= i < |withParams| ==> nestedSelections[i] == caps.withSelection(withParams[i])
    {
      ghost var w, o, c := ManyArgsWhereSlot(caps, whereParams), OrderBySlot(caps, orderByParams), CursorSlot(caps, cursorParams);
      ghost var s, t := IntSlot(skip), IntSlot(take);
      // After each conditional push, `arguments` is the concatenation of
      // `Optional(name, slot)` for the groups handled so far; the asserts
      // below record those prefixes.
      arguments, nestedSelections := [], [];
      if |withParams| > 0 {
        nestedSelections := Map(caps.withSelection, withParams);
      }
      if |whereParams| > 0 {
        arguments := arguments + [("where", ManyArgsWhereObject(caps, whereParams))];
      }
      assert arguments == Optional("where", w);
      if |orderByParams| > 0 {
        arguments := arguments + [("orderBy", OrderByList(caps, orderByParams))];
      }
      assert arguments == Optional("where", w) + Optional("orderBy", o);
      if |cursorParams| > 0 {
        arguments := arguments + [("cursor", CursorObject(caps, cursorParams))];
      }
      assert arguments == Optional("where", w) + Optional("orderBy", o) + Optional("cursor", c);
      if skip.Some? {
        arguments := arguments + [("skip", Int(skip.value as int))];
      }
      assert arguments == Optional("where", w) + Optional("orderBy", o) + Optional("cursor", c) + Optional("skip", s);
      if take.Some? {
        arguments := arguments + [("take", Int(take.value as int))];
      }
      assert arguments == Optional("where", w) + Optional("orderBy", o) + Optional("cursor", c) + Optional("skip", s) + Optional("take", t);
      CanonicalFromLeft(w, o, c, s, t);
      CanonicalEmits(w, o, c, s, t);
    }
  }
}
