/** Values that the descriptor of a registered function is built from and
    made of: type tokens, value categories, function families, the
    per-parameter record and the error of an out-of-range query. */
module PonderTypes {

  /** Identity of a static C++ type. `VoidType` is `void`; every other type
      is told apart by its name only. */
  datatype TypeTok = VoidType | NamedType(name: string)

  /** The closed set of runtime value categories a type maps to. `None` is
      the enumerator with underlying value 0, so it is what a
      value-initialised category holds. */
  datatype ValueType = None | Boolean | Integer | Real | String | Enum | Array | User

  /** The calling shape of a registered function. The core only tells
      `None` (not a function at all) apart from the rest. */
  datatype FunctionFamily = None | Function | MemberFunction | FunctionWrapper | BindExpression | Lambda

  /** The static type classifier (`mapType<T>()`): one category per type. */
  type Classifier = TypeTok -> ValueType

  /** A `const std::type_info*`: null, or the address of `typeid(T)`. */
  datatype TypeInfoRef = NullTypeInfo | TypeIdOf(tok: TypeTok)

  /** One entry of the parameter table: the type identity and its category. */
  datatype FunctionParamInfo = FunctionParamInfo(typeInfo: TypeInfoRef, valueType: ValueType)

  /** A value-initialised entry: null type identity, category 0. */
  const DefaultParamInfo := FunctionParamInfo(NullTypeInfo, ValueType.None)

  /** What a function's static traits say about it: its family, its return
      type and its ordered parameter type list. */
  datatype FunctionTraits = FunctionTraits(family: FunctionFamily, returnType: TypeTok, paramTypes: seq<TypeTok>)

  /** The `OutOfRange(index, size)` error raised by a parameter query. */
  datatype OutOfRange = OutOfRange(index: nat, size: nat)

  datatype Result<+T, +E> = Success(value: T) | Failure(error: E)
}
