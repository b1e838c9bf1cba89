/** The type-erased function descriptor and the factory that builds it. */
module FunctionDescriptor {
  import opened PonderTypes
  import opened ParamWalker

  /** The per-function hook of extension module 0: given the name, the
      traits and the function value, it produces that module's payload. */
  type PerFunctionHook<!F, U> = (string, FunctionTraits, F) -> U

  /** `FunctionImpl<T, F>`: the descriptor of one function value of type
      `F`. Every field is a `const` that only the constructor writes, so a
      descriptor never changes after it is built. */
  class FunctionImpl<F, U> {
    // The template arguments and module 0's hook, kept for the specification.
    ghost const traits: FunctionTraits
    ghost const classify: Classifier
    ghost const fn: F
    ghost const hook: PerFunctionHook<F, U>

    /** `c_nParams`: the length of the traits' parameter type list. */
    const nParams: nat

    const name: string
    const funcType: FunctionFamily
    const returnType: ValueType
    const paramInfo: seq<FunctionParamInfo>
    /** The user-data slot of module 0, filled while the object is built. */
    const userData: U

    /** Every field holds what construction put there, for the traits,
        classifier, function value and hook it was built from. */
    ghost predicate Valid() {
      && nParams == |traits.paramTypes|
      && funcType == traits.family
      && returnType == classify(traits.returnType)
      && paramInfo == ForEach(classify, traits.paramTypes)
      && userData == hook(name, traits, fn)
    }

    constructor (name: string, func: F, traits: FunctionTraits, mapType: Classifier,
                 perFunction: PerFunctionHook<F, U>)
      ensures Valid()
      ensures this.name == name && funcType == traits.family
      ensures returnType == mapType(traits.returnType)
      ensures nParams == |traits.paramTypes| == |paramInfo|
      ensures paramInfo == ForEach(mapType, traits.paramTypes)
      ensures userData == perFunction(name, traits, func)
      ensures this.traits == traits && classify == mapType && fn == func && hook == perFunction
    {
      this.traits, classify, fn, hook := traits, mapType, func, perFunction;
      nParams := |traits.paramTypes|;
      this.name := name;
      funcType := traits.family;
      returnType := mapType(traits.returnType);
      paramInfo := ForEach(mapType, traits.paramTypes);
      // processUsers: module 0's per-function hook fills the user-data slot
      // (the source passes m_name, which equals name by now).
      userData := perFunction(name, traits, func);
    }

    /** The stored payload, the same one on every call: the one the hook
        produced during construction. */
    method GetUserData() returns (d: U)
      requires Valid()
      ensures d == userData == hook(name, traits, fn)
    {
      d := userData;
    }

    /** The number of parameters: the length of the traits' list, which is
        also the length of the parameter table. */
    method ParamCount() returns (n: nat)
      requires Valid()
      ensures n == |traits.paramTypes| == |paramInfo|
    {
      n := nParams;
    }

    /** The category of parameter `index`: the classifier's answer for the
        declared type at that position (category 0 for the sentinel list),
        or `OutOfRange(index, count)` when there is no such parameter. */
    method ParamType(index: nat) returns (r: Result<ValueType, OutOfRange>)
      requires Valid()
      ensures r.Failure? <==> index >= |traits.paramTypes|
      ensures r.Failure? ==> r.error == OutOfRange(index, |traits.paramTypes|)
      ensures r.Success? ==> r.value == paramInfo[index].valueType
      ensures r.Success? && !IsVoidSentinel(traits.paramTypes) ==>
        r.value == classify(traits.paramTypes[index])
      ensures r.Success? && IsVoidSentinel(traits.paramTypes) ==> r.value == ValueType.None
    {
      if index >= nParams {
        return Failure(OutOfRange(index, nParams));
      }
      r := Success(paramInfo[index].valueType);
    }
  }

  /** `newFunction`: builds the descriptor of a function value. Traits whose
      family is `None` are refused before anything is built. */
  method NewFunction<F, U>(name: string, func: F, traits: FunctionTraits, mapType: Classifier,
                              perFunction: PerFunctionHook<F, U>)
    returns (f: FunctionImpl<F, U>)
    requires traits.family != FunctionFamily.None
    ensures fresh(f) && f.Valid()
    ensures f.name == name && f.funcType == traits.family && f.funcType != FunctionFamily.None
    ensures f.traits == traits && f.classify == mapType && f.fn == func && f.hook == perFunction
  {
    f := new FunctionImpl(name, func, traits, mapType, perFunction);
  }
}
