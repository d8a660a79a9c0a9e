/**
 * The Contains filter configuration: the spatial "contains" operator of
 * the filter editor, with its descriptor and the filters it creates.
 */
module Contains {
  import opened Nullable
  import opened FilterFunction

  /** The operator word of the rendering. */
  const OperatorName := "Contains"

  /** getFilterConfiguration: "Contains", Boolean, then a geometry property and a geometry expression. */
  function GetFilterConfiguration(): (f: FilterName)
    ensures f.name == "Contains" && f.returnType == BooleanClass
    ensures f.parameters == [FilterNameParameter("property", PropertyKind, GeometryClass),
                             FilterNameParameter("expression", ExpressionKind, GeometryClass)]
  {
    var f := NewFilterName("Contains", BooleanClass);
    var f := AddParameter(f, FilterNameParameter("property", PropertyKind, GeometryClass));
    AddParameter(f, FilterNameParameter("expression", ExpressionKind, GeometryClass))
  }

  /** createFilter(): a ContainsExtended with both expressions null. */
  function CreateFilter<E>(): (f: BinaryFilter<E>)
    ensures f.filterClass == ContainsImpl && f.expression1 == None && f.expression2 == None
  {
    BinaryFilter(ContainsImpl, None, None)
  }

  /** createFilter(list): a ContainsExtended over elements 0 and 1; a shorter list is an index error. */
  function CreateFilterFromList<E>(parameterList: seq<Option<E>>): (f: BinaryFilter<E>)
    requires |parameterList| >= 2
    ensures f.filterClass == ContainsImpl
    ensures f.expression1 == parameterList[0] && f.expression2 == parameterList[1]
  {
    FromParameterList(ContainsImpl, parameterList)
  }

  /** createLogicFilter: not supported, null for every list. */
  function CreateLogicFilter<F>(filterList: seq<F>): (r: Option<F>)
    ensures r == None
  {
    None
  }

  /** getFilterClass: ContainsImpl. */
  function GetFilterClass(): (c: FilterClass)
    ensures c == ContainsImpl
  {
    ContainsImpl
  }

  /** ContainsExtended.getOriginalFilter: ContainsImpl, the class the filter extends. */
  function GetOriginalFilter<E>(f: BinaryFilter<E>): (c: FilterClass)
    requires f.filterClass == ContainsImpl
    ensures c == ContainsImpl
  {
    f.filterClass
  }

  /** ContainsExtended.toString: "[ e1 Contains e2 ]", null expressions written "null". */
  function ToString<E>(f: BinaryFilter<E>, show: E -> string): (s: string)
    ensures var r1, r2 := Render(f.expression1, show), Render(f.expression2, show);
            && |s| == |r1| + |r2| + 14
            && s[..2] == "[ " && s[2..2 + |r1|] == r1
            && s[2 + |r1|..12 + |r1|] == " Contains "
            && s[12 + |r1|..|s| - 2] == r2 && s[|s| - 2..] == " ]"
  {
    BinaryToString(OperatorName, f, show)
  }

  /** Every filter this configuration creates reports the configuration's filter class, as does its original filter. */
  lemma CreatedFiltersMatchFilterClass<E>(parameterList: seq<Option<E>>)
    requires |parameterList| >= 2
    ensures CreateFilter<E>().filterClass == GetFilterClass()
    ensures CreateFilterFromList(parameterList).filterClass == GetFilterClass()
    ensures GetOriginalFilter(CreateFilterFromList(parameterList)) == GetFilterClass()
  {
  }

  /** The empty filter renders both expressions as null, whatever the renderer. */
  lemma EmptyFilterString<E>(show: E -> string)
    ensures ToString(CreateFilter<E>(), show) == "[ null Contains null ]"
  {
  }

  /**
   * The descriptor and the list constructor agree: the list holds one
   * expression per advertised parameter, in the advertised order.
   */
  lemma SignatureMatchesConstructor<E>(parameterList: seq<Option<E>>)
    requires |parameterList| == |GetFilterConfiguration().parameters|
    ensures CreateFilterFromList(parameterList) == BinaryFilter(ContainsImpl, parameterList[0], parameterList[1])
  {
  }
}
