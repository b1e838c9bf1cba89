# Ponder function descriptors, modelled in Dafny

Ponder is a C++ reflection library. To register a function, it turns a
statically typed function value into a type-erased `Function` descriptor. The
descriptor records the function's name, its family (free function, member
function, ...), the category of its return type, and one record per parameter.
Each parameter record holds the parameter's type identity and its value
category. The descriptor then answers runtime queries: the parameter count, and
the category of parameter `index`, which is bounds-checked.

This project models `include/ponder/detail/functionimpl.hpp` as three modules.

- `PonderTypes` (`types.dfy`) holds the values:
  - type tokens (`TypeTok`);
  - value categories (`ValueType`);
  - function families (`FunctionFamily`);
  - the parameter record (`FunctionParamInfo`) and its value-initialised form;
  - the traits a descriptor is built from (`FunctionTraits`);
  - the `OutOfRange` error and a `Result` type.
- `ParamWalker` (`param_walker.dfy`) is the compile-time parameter-list walker,
  written as pure functions over `seq<TypeTok>`. The pack expansion
  `{apply<A>()...}` becomes a recursion over the list. The `std::tuple<void>`
  specialisation becomes the list `[VoidType]`.
- `FunctionDescriptor` (`function_impl.dfy`) holds the class `FunctionImpl`.
  - Its constructor assigns the fields one after another, the last being
    the payload of extension module 0 (what `processUsers` stores). Every
    field is a `const`, so nothing can change a descriptor once it is built.
  - Its queries are methods without a `modifies` clause, which matches the C++
    `const` members.
  - `NewFunction` is the factory. The `static_assert` on the family becomes its
    precondition.

The type classifier `mapType<T>()` is a parameter of type `TypeTok -> ValueType`,
so it is total and deterministic. Module 0's `perFunction<T, F>` hook is a
parameter of type `(string, FunctionTraits, F) -> U`.

The only special case of the walker is the list `std::tuple<void>`. Its result type is
`std::array<FunctionParamInfo, 1>`, because the array's size is the length of
the type list, so it yields ONE value-initialised entry: null type identity,
category 0. `paramCount()` then reports 1 for such traits. An empty list
`std::tuple<>` takes the general branch and yields an empty table.
`ParamWalker.EmptyListVersusSentinel` states both cases.

## Model

| member | source | states |
|---|---|---|
| `ParamWalker.MapParams` | include/ponder/detail/functionimpl.hpp:52-67 | The expansion of a parameter pack has exactly one entry per parameter type. Entry `i` is `{typeid(A_i), mapType<A_i>()}`, the record `apply<A_i>()` builds (modelled by the helper `ParamWalker.Apply`), in declaration order. |
| `ParamWalker.ForEach` | include/ponder/detail/functionimpl.hpp:58-76 | The table's length is always the length of the type list. For the `tuple<void>` sentinel, every entry is the value-initialised record. For any other list, entry `i` carries the identity and category of parameter `i`. |
| `ParamWalker.SentinelNeverClassifies` | include/ponder/detail/functionimpl.hpp:69-76 | The sentinel's table is the same for every classifier, including the classifier's answer for `void`. It is exactly one default record. |
| `ParamWalker.EmptyListVersusSentinel` | include/ponder/detail/functionimpl.hpp:60-76 | An empty type list gives an empty table. The `tuple<void>` sentinel gives a one-entry table whose entry has a null type identity. |
| `ParamWalker.WalkerReadsExactlyListedTypes` | include/ponder/detail/functionimpl.hpp:52-67 | For every list except the sentinel, two classifiers give equal tables if and only if they agree on every listed parameter type. The walker consults the classifier at those types and nowhere else. |
| `FunctionDescriptor.FunctionImpl.constructor` | include/ponder/detail/functionimpl.hpp:97-121 | After construction, name is the given name and family is the traits' family. Return category is `mapType` of the return type. `c_nParams` is the list length, and so is the table's length. The table is the walker's result. The payload is module 0's `perFunction` result for this name, these traits and this function value, as `processUsers` stores it. The object invariant `Valid` holds. Every field is `const`, so all of this stays true for the object's lifetime. |
| `FunctionDescriptor.FunctionImpl.GetUserData` | include/ponder/detail/functionimpl.hpp:108-111 | Returns the stored payload, changes nothing, and so returns the same payload on every call. That payload is the one the hook produced during construction. |
| `FunctionDescriptor.FunctionImpl.ParamCount` | include/ponder/detail/functionimpl.hpp:90-124 | Returns the length of the traits' parameter type list. This equals the length of the parameter table. Changes nothing. |
| `FunctionDescriptor.FunctionImpl.ParamType` | include/ponder/detail/functionimpl.hpp:126-133 | Fails if and only if `index >= paramCount()`, and then with exactly `OutOfRange(index, paramCount())`. Otherwise it returns the table's category at `index`. That is the classifier's answer for the declared type at that position, or category 0 for the sentinel list. Changes nothing. |
| `FunctionDescriptor.NewFunction` | include/ponder/detail/functionimpl.hpp:137-145 | Requires a family other than `None`. Returns a fresh, valid descriptor built from the given name, function value, traits, classifier and hook. |

## Left out

- How the traits are derived from `F` (family, return type, parameter list). That
  derivation is compile-time and lives in `functiontraits.hpp`, which is not part
  of this model. The traits are an input.
- The internals of `mapType` (`valuemapper.hpp` is not part of this model). It is
  an arbitrary total function on type tokens.
- The enumerators of `ValueType` and `FunctionFamily`. Their headers are not part
  of this model. The model assumes `ValueType`'s first enumerator (value 0) is
  `None`. Only `FunctionFamily::None` matters to the core; the other family
  names are placeholders.
- `std::type_info` objects. A type identity is the parameter's own type token, or
  null.
- `FunctionImpl.GetUserData`: returns the payload value, not a `const void*`
  pointing at it. Pointer identity and aliasing of the raw view are not modelled.
- The user-data tuple `PerFunctionUserData` is modelled as the single slot that
  module 0 fills. Its other slots, if any, are not modelled. So is the
  `uses::Users` module list beyond module 0.
- The `Function` base class (`function.hpp` is not part of this model). Its
  fields `m_name`, `m_funcType` and `m_returnType` are fields of `FunctionImpl`.
  Its constructor, its accessors and its virtual dispatch are not modelled.
- `processUsers` is a private member the constructor calls last. The model has
  no private members, so it writes the payload in the constructor itself.
- Heap allocation and ownership transfer in `newFunction`. `NewFunction` returns
  a fresh object.
- The `PONDER_ERROR` exception mechanism. An out-of-range query returns a
  `Failure(OutOfRange(index, count))` value.
- `std::size_t` is modelled as `nat`. No index can reach its upper bound here, so
  wrap-around plays no part.
