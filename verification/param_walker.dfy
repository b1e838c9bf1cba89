/** The parameter-list walker: turns an ordered list of parameter types into
    the table of per-parameter records, one classifier result per type. */
module ParamWalker {
  import opened PonderTypes

  /** The list `std::tuple<void>`, which the walker treats on its own. */
  predicate IsVoidSentinel(params: seq<TypeTok>) {
    params == [VoidType]
  }

  /** The record for one parameter type: its identity and its category. */
  function Apply(classify: Classifier, t: TypeTok): FunctionParamInfo {
    FunctionParamInfo(TypeIdOf(t), classify(t))
  }

  /** The expansion of the pack `A...`: one record per type, in order. */
  function MapParams(classify: Classifier, params: seq<TypeTok>): (r: seq<FunctionParamInfo>)
    ensures |r| == |params|
    ensures forall i :: 0 <= i < |params| ==>
      r[i].typeInfo == TypeIdOf(params[i]) && r[i].valueType == classify(params[i])
  {
    if params == [] then []
    else [Apply(classify, params[0])] + MapParams(classify, params[1..])
  }

  /** `FunctionApplyToParams<ParamTypes, ...>::foreach()`: the sentinel list
      gives a value-initialised table of the same length (one entry); any
      other list is expanded entry by entry. */
  function ForEach(classify: Classifier, params: seq<TypeTok>): (r: seq<FunctionParamInfo>)
    ensures |r| == |params|
    ensures IsVoidSentinel(params) ==> forall i :: 0 <= i < |r| ==> r[i] == DefaultParamInfo
    ensures !IsVoidSentinel(params) ==> forall i :: 0 <= i < |params| ==>
      r[i].typeInfo == TypeIdOf(params[i]) && r[i].valueType == classify(params[i])
  {
    if IsVoidSentinel(params) then seq(|params|, _ => DefaultParamInfo)
    else MapParams(classify, params)
  }

  /** The sentinel's table does not depend on the classifier at all: no
      classifier, not even its answer for `void`, changes it. */
  lemma SentinelNeverClassifies(c1: Classifier, c2: Classifier)
    ensures ForEach(c1, [VoidType]) == ForEach(c2, [VoidType]) == [DefaultParamInfo]
  {
  }

  /** The empty list gives an empty table, while the sentinel gives a table
      of one default entry, not an empty one. */
  lemma EmptyListVersusSentinel(classify: Classifier)
    ensures ForEach(classify, []) == []
    ensures |ForEach(classify, [VoidType])| == 1
    ensures ForEach(classify, [VoidType])[0].typeInfo == NullTypeInfo
  {
  }

  /** For any list but the sentinel, two classifiers give the same table
      exactly when they agree on every listed type: the walker consults the
      classifier at each listed type and nowhere else. */
  lemma WalkerReadsExactlyListedTypes(c1: Classifier, c2: Classifier, params: seq<TypeTok>)
    requires !IsVoidSentinel(params)
    ensures ForEach(c1, params) == ForEach(c2, params)
        <==> forall i :: 0 <= i < |params| ==> c1(params[i]) == c2(params[i])
  {
  }
}
