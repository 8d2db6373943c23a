# Read-many query builder, modelled in Dafny

This project models the read-many query builder of prisma-client-rust
(`src/queries/find_many.rs`). The builder collects the parameters of a
"find many" query: filters (`where`), relation inclusions (`with`),
orderings (`orderBy`), cursors, and the pagination values `skip` and
`take`. It then assembles them into one selection node of the query tree.
The node has an ordered argument list and ordered child selections, and is
wrapped in a read `Operation` for the query engine.

The builder is generic over a model's capability set (`Actions:
ModelActions`). Here that is the datatype `Actions.ModelActions<W, Wi, O, C, SV>`.
Its type parameters are the four parameter kinds. Its fields are the
conversions the builder calls but does not define: `WhereInput::serialize`,
`transform_equals`, `merge_fields`, `base_selection`, the `Into`
conversions and `scalar_selections`. Every property is proved for all
choices of these functions.

Files:

- `values.dfy` (`Values`): argument values, selections, operations, `i64`.
- `actions.dfy` (`Actions`): the capability set and `SerializedWhereInput`.
- `arguments.dfy` (`Arguments`): `Map` and `Flatten` (the iterator
  adaptors used by the source), the fixed argument order and `Emits`.
  `Emits` says declaratively what a well-formed argument list is: ascending
  in the order where, orderBy, cursor, skip, take; an argument under a name
  exactly when that group supplies a value; nothing under any other name.
  The lemmas here prove that `Emits` fixes the list completely
  (`EmitsIsCanonical`).
- `find_many.dfy` (`FindManyQuery`): `to_selection` as functions, and the
  `FindMany` and `ManyArgs` builders as classes whose methods update their
  fields in place.
- `clients.dfy` (`FindManyClients`): client methods that build typical
  queries through the builders' contracts alone.

## Model

| member | source | states |
|---|---|---|
| `FindManyQuery.FindMany.constructor` | src/queries/find_many.rs:40-50 | the builder holds the given filters unchanged; `with`, `orderBy` and `cursor` are empty; `skip` and `take` are unset |
| `FindManyQuery.FindMany.With` | src/queries/find_many.rs:52-55 | appends exactly the one parameter at the end of `with`; every other field is unchanged |
| `FindManyQuery.FindMany.OrderBy` | src/queries/find_many.rs:57-60 | appends exactly the one parameter at the end of `orderBy`; every other field is unchanged |
| `FindManyQuery.FindMany.Cursor` | src/queries/find_many.rs:62-65 | appends exactly the one parameter at the end of `cursor`; every other field is unchanged |
| `FindManyQuery.FindMany.Skip` | src/queries/find_many.rs:67-70 | `skip` becomes `Some(n)` whatever it was (the last call wins); nothing else changes |
| `FindManyQuery.FindMany.Take` | src/queries/find_many.rs:72-75 | `take` becomes `Some(n)` whatever it was (the last call wins); nothing else changes |
| `FindManyQuery.WherePairs` | src/queries/find_many.rs:90-95 | one `(field, value)` pair per filter, in order: the serialized field and the converted serialized value |
| `FindManyQuery.WhereObject` | src/queries/find_many.rs:87-98 | the `where` value is one object: `merge_fields` applied to the serialized pairs of `WherePairs`; `merge_fields` is a capability, so nothing is claimed about what merging keeps |
| `FindManyQuery.OrderByList` | src/queries/find_many.rs:100-111 | the `orderBy` value is a list with one element per ordering, in caller order, each a single-entry object wrapping that ordering's pair |
| `FindManyQuery.CursorObject` | src/queries/find_many.rs:113-126 | the `cursor` value is one object with one entry per cursor, in order, each the cursor serialized and then passed through `transform_equals` |
| `Arguments.Flatten` | src/queries/find_many.rs:130-131 | `.into_iter().flatten()` over the five optional arguments keeps the present ones in order, so never more than there are slots; its value on the five slots is given by `Flatten5` and used by `FindManyArgumentsEmits` |
| `FindManyQuery.FindManyArguments` | src/queries/find_many.rs:85-131 | the flattened argument array of `to_selection`, at most one argument per name; its full contract (order, presence, values) is `FindManyArgumentsEmits` |
| `FindManyQuery.ToSelection` | src/queries/find_many.rs:77-134 | `base_selection` applied to `FindManyArguments` and the given child selections, unchanged; the contract of the argument list is `FindManyArgumentsEmits` |
| `FindManyQuery.FindManyArgumentsEmits` | src/queries/find_many.rs:85-132 | the arguments of `to_selection` are in the fixed order where, orderBy, cursor, skip, take; `where`, `orderBy` and `cursor` are present iff their group is non-empty; `skip` and `take` are present iff set; each present argument carries the value stated above (merged filters for `where`) and nothing else appears |
| `FindManyQuery.EmptyFindManyArguments` | src/queries/find_many.rs:85-131 | a builder with no parameters yields an empty argument list |
| `FindManyQuery.FindMany.Select` | src/queries/find_many.rs:136-151 | the read operation whose children are exactly the projection's selections; `with` does not affect it |
| `FindManyQuery.FindMany.Include` | src/queries/find_many.rs:153-168 | the read operation whose children are exactly the projection's selections (no scalar defaults added); `with` does not affect it; apart from its result wrapper the code is the same as `select` |
| `FindManyQuery.FindMany.ExecOperation` | src/queries/find_many.rs:170-186 | the read operation whose children are the model's scalar selections followed by one selection per `with` parameter, in order |
| `FindManyQuery.FindMany.Graphql` | src/queries/find_many.rs:202-204 | exactly the operation `exec_operation` builds |
| `FindManyQuery.FindMany.Convert` | src/queries/find_many.rs:206-208 | the raw engine result is returned unchanged |
| `FindManyQuery.ManyArgs.constructor` | src/queries/find_many.rs:228-237 | the builder holds the given filters unchanged; every other group is empty and pagination is unset |
| `FindManyQuery.ManyArgs.With` | src/queries/find_many.rs:239-242 | appends exactly the one parameter at the end of `with`; nothing else changes |
| `FindManyQuery.ManyArgs.OrderBy` | src/queries/find_many.rs:244-247 | appends exactly the one parameter at the end of `orderBy`; nothing else changes |
| `FindManyQuery.ManyArgs.Cursor` | src/queries/find_many.rs:249-252 | appends exactly the one parameter at the end of `cursor`; nothing else changes |
| `FindManyQuery.ManyArgs.Skip` | src/queries/find_many.rs:254-257 | `skip` becomes `Some(n)`, the last call wins; nothing else changes |
| `FindManyQuery.ManyArgs.Take` | src/queries/find_many.rs:259-262 | `take` becomes `Some(n)`, the last call wins; nothing else changes |
| `FindManyQuery.ManyArgsWhereObject` | src/queries/find_many.rs:271-282 | the nested `where` value is an object with exactly one entry per filter, in order, with no merging |
| `FindManyQuery.ManyArgs.ToGraphql` | src/queries/find_many.rs:264-320 | the arguments meet `Emits` for the nested groups: fixed order, present exactly for non-empty groups and set pagination, unmerged `where`; the nested selections are one per `with` parameter, in order, so none when there is none |
| `FindManyQuery.ManyArgsMatchesFindMany` | src/queries/find_many.rs:271-317 | a nested argument list has the same names in the same order as `to_selection`'s arguments for the same parameters, and the same value under every name but `where` |
| `Arguments.EmitsIsCanonical` | src/queries/find_many.rs:86-131 | the fixed-order, present-iff description determines the argument list uniquely, and its length is the number of present groups |
| `Arguments.SameShape` | src/queries/find_many.rs:86-131 | two argument lists that differ only in the `where` value have the same names in the same order and agree elsewhere |
| `Arguments.Map` | src/queries/find_many.rs:104-108 | `map(...).collect()` gives one image per element, in order |
| `FindManyClients.PlainRead` | src/queries/find_many.rs:170-186 | executing a builder made with no filters gives no arguments and exactly the scalar selections as children |
| `FindManyClients.OrderedPage` | src/queries/find_many.rs:100-128 | `order_by(p)`, `skip(5)`, `take(10)` give exactly the arguments orderBy `[{p}]`, skip 5, take 10 |
| `FindManyClients.OrderedPageArguments` | src/queries/find_many.rs:100-128 | with one ordering, skip 5 and take 10, the argument list is exactly orderBy, skip, take with those values |
| `FindManyClients.CursorPageArguments` | src/queries/find_many.rs:113-128 | with one cursor, skip 20 and take 5, the argument list is exactly cursor, skip, take with those values |
| `FindManyClients.CallOrderIrrelevant` | src/queries/find_many.rs:113-128 | calling `take`, then `skip` twice, then `cursor` still gives the arguments in the order cursor, skip, take, with the later skip |
| `FindManyClients.NestedRelationOnly` | src/queries/find_many.rs:264-269 | a nested argument set with one relation and nothing else has no arguments and that relation's selection as its one nested selection |

## Notes on the source

- `include` forwards only `include.to_selections()`
  (src/queries/find_many.rs:165); unlike `exec_operation` it adds no scalar
  fields.
- `to_graphql` builds `where` without `merge_fields`
  (src/queries/find_many.rs:271-282), unlike `to_selection`
  (src/queries/find_many.rs:90). The model keeps the two `where` values
  apart.

## Left out

- The async `exec` and `client.execute` (src/queries/find_many.rs:188-192):
  these are I/O against the external query engine.
- The `client: &PrismaClientInternals` field and its lifetime: plumbing.
  `exec_operation` here returns only the operation.
- The `Select` and `Include` wrappers: `select` and `include` return the
  operation they wrap. `ModelAction::TYPE` is a type-level marker.
- The bodies of `merge_fields`, `WhereInput::serialize`, `transform_equals`,
  `base_selection`, `scalar_selections` and the `Into` conversions: they are
  defined outside this file. They are fields of `ModelActions`, and nothing
  is assumed about them. So nothing is claimed about merging preserving
  constraints, or about `transform_equals` being idempotent.
- The cursor conversion `.map(Into::into).map(WhereInput::serialize)`: the
  target type of `Into` is not visible. It is one capability,
  `serializeCursor`.
- `with(param: impl Into<With>)`: the conversion happens at the call site.
  The methods take the converted parameter.
- `PrismaValue` and `QueryValue` are one datatype `Value`. The `.into()`
  between them is taken to preserve structure. Its definition is not part
  of this model, so the claims about the entries of an object value hold at
  the `PrismaValue` level only.
- ManyArgsWhereObject: "one entry per filter, no merging" depends on that
  assumption; if the `.into()` at src/queries/find_many.rs:281 built a keyed
  object, entries with the same field would collapse there.
- The `skip as i64` cast is a no-op (the value is already `i64`).
- Consuming `self` and returning it: modelled as methods that update the
  builder in place. The builder is exclusively owned, so no aliasing is lost.
