/** Client code: what callers of the builders can conclude from their
    contracts alone, for the configurations a find-many query is typically
    built with. */
module FindManyClients {
  import opened Values
  import opened Actions
  import opened Arguments
  import opened FindManyQuery

  /** An unfiltered read (`new` with no filters, then execute): no arguments
      at all, and the children are exactly the model's scalar fields. */
  method PlainRead<W, Wi, O, C, SV>(caps: ModelActions<W, Wi, O, C, SV>) returns (op: Operation)
    ensures op == Read(caps.baseSelection([], caps.scalarSelections))
  {
    var query := new FindMany<W, Wi, O, C>([]);
    op := query.ExecOperation(caps);
    EmptyFindManyArguments(caps);
    assert caps.scalarSelections + Map(caps.withSelection, []) == caps.scalarSelections;
  }

  /** The arguments of one ordering, `skip` 5 and `take` 10. */
  lemma OrderedPageArguments<W, Wi, O, C, SV>(caps: ModelActions<W, Wi, O, C, SV>, order: O)
    ensures FindManyArguments(caps, [], [order], [], Some(5), Some(10))
         == [("orderBy", List([Object([caps.orderByArgument(order)])])), ("skip", Int(5)), ("take", Int(10))]
  {
    FindManyArgumentsEmits(caps, [], [order], [], Some(5), Some(10));
    assert OrderByList(caps, [order]) == List([Object([caps.orderByArgument(order)])]);
  }

  /** The arguments of one cursor, `skip` 20 and `take` 5. */
  lemma CursorPageArguments<W, Wi, O, C, SV>(caps: ModelActions<W, Wi, O, C, SV>, position: C)
    ensures FindManyArguments(caps, [], [], [position], Some(20), Some(5))
         == [("cursor", CursorObject(caps, [position])), ("skip", Int(20)), ("take", Int(5))]
  {
    FindManyArgumentsEmits(caps, [], [], [position], Some(20), Some(5));
  }

  /** `order_by(p)`, `skip(5)`, `take(10)`, then execute: the arguments are
      orderBy, skip and take, with no where and no cursor. */
  method OrderedPage<W, Wi, O, C, SV>(caps: ModelActions<W, Wi, O, C, SV>, order: O) returns (op: Operation)
    ensures op == Read(caps.baseSelection(
                  [("orderBy", List([Object([caps.orderByArgument(order)])])), ("skip", Int(5)), ("take", Int(10))],
                  caps.scalarSelections))
  {
    var query := new FindMany<W, Wi, O, C>([]);
    query.OrderBy(order);
    query.Skip(5);
    query.Take(10);
    op := query.ExecOperation(caps);
    OrderedPageArguments(caps, order);
    assert caps.scalarSelections + Map(caps.withSelection, []) == caps.scalarSelections;
  }

  /** `take(5)`, then `skip(10)`, then `skip(20)`, then `cursor(c)`: the
      arguments still come out as cursor, skip, take, and the later `skip`
      wins. */
  method CallOrderIrrelevant<W, Wi, O, C, SV>(caps: ModelActions<W, Wi, O, C, SV>, position: C) returns (op: Operation)
    ensures op == Read(caps.baseSelection(
                  [("cursor", CursorObject(caps, [position])), ("skip", Int(20)), ("take", Int(5))],
                  caps.scalarSelections))
  {
    var query := new FindMany<W, Wi, O, C>([]);
    query.Take(5);
    query.Skip(10);
    query.Skip(20);
    query.Cursor(position);
    op := query.ExecOperation(caps);
    CursorPageArguments(caps, position);
    assert caps.scalarSelections + Map(caps.withSelection, []) == caps.scalarSelections;
  }

  /** A nested argument set with only a relation: no arguments, and the
      relation's selection as the one nested selection. */
  method NestedRelationOnly<W, Wi, O, C, SV>(caps: ModelActions<W, Wi, O, C, SV>, relation: Wi)
    returns (arguments: seq<Argument>, nested: seq<Selection>)
    ensures arguments == [] && nested == [caps.withSelection(relation)]
  {
    var args := new ManyArgs<W, Wi, O, C>([]);
    args.With(relation);
    arguments, nested := args.ToGraphql(caps);
    EmitsIsCanonical(arguments, None, None, None, None, None);
  }
}
