/** The capability set a query builder is generic over (`Actions: ModelActions`).
    The parameter kinds are the type parameters `W` (Where), `Wi` (With),
    `O` (OrderBy) and `C` (Cursor); `SV` is the value type carried by a
    serialized where input. Every conversion the builder relies on but does
    not define is a field of `ModelActions`, so the model holds for any of them. */
module Actions {
  import opened Values

  /** `SerializedWhereInput`: the field a filter targets and its serialized value. */
  datatype SerializedWhereInput<SV> = SerializedWhereInput(field: string, value: SV)

  datatype ModelActions<!W, !Wi, !O, !C, !SV> = ModelActions(
    /** `Actions::scalar_selections()`: the model's default scalar fields */
    scalarSelections: seq<Selection>,
    /** `Into<Selection>` for a `With` parameter */
    withSelection: Wi -> Selection,
    /** `Into<(String, PrismaValue)>` for an `OrderBy` parameter */
    orderByArgument: O -> Argument,
    /** `WhereInput::serialize` for a `Where` parameter */
    serialize: W -> SerializedWhereInput<SV>,
    /** `Into::into` for a cursor parameter followed by `WhereInput::serialize` */
    serializeCursor: C -> SerializedWhereInput<SV>,
    /** `Into<PrismaValue>` for the value of a serialized where input */
    whereValue: SV -> Value,
    /** `Into<(String, PrismaValue)>` for a whole serialized where input */
    serializedArgument: SerializedWhereInput<SV> -> Argument,
    /** `SerializedWhereInput::transform_equals` */
    transformEquals: SerializedWhereInput<SV> -> Argument,
    /** `merge_fields` */
    mergeFields: seq<Argument> -> seq<Argument>,
    /** `ModelAction::base_selection(arguments, nested_selections)` */
    baseSelection: (seq<Argument>, seq<Selection>) -> Selection
  )
}
