/**
 * The TEquals filter configuration: the temporal "equals" operator of the
 * filter editor, with its descriptor and the filters it creates.
 */
module TEquals {
  import opened Nullable
  import opened FilterFunction

  /** The operator word of the rendering. */
  const OperatorName := "TEquals"

  /** getFilterConfiguration: "TEquals", Boolean, then a date property and a date literal. */
  function GetFilterConfiguration(): (f: FilterName)
    ensures f.name == "TEquals" && f.returnType == BooleanClass
    ensures f.parameters == [FilterNameParameter("expression1", PropertyKind, DateClass),
                             FilterNameParameter("expression2", LiteralKind, DateClass)]
  {
    var f := NewFilterName("TEquals", BooleanClass);
    var f := AddParameter(f, FilterNameParameter("expression1", PropertyKind, DateClass));
    AddParameter(f, FilterNameParameter("expression2", LiteralKind, DateClass))
  }

  /** createFilter(): a TEqualsExtended with both expressions null. */
  function CreateFilter<E>(): (f: BinaryFilter<E>)
    ensures f.filterClass == TEqualsImpl && f.expression1 == None && f.expression2 == None
  {
    BinaryFilter(TEqualsImpl, None, None)
  }

  /** createFilter(list): a TEqualsExtended over elements 0 and 1; a shorter list is an index error. */
  function CreateFilterFromList<E>(parameterList: seq<Option<E>>): (f: BinaryFilter<E>)
    requires |parameterList| >= 2
    ensures f.filterClass == TEqualsImpl
    ensures f.expression1 == parameterList[0] && f.expression2 == parameterList[1]
  {
    FromParameterList(TEqualsImpl, parameterList)
  }

  /** createLogicFilter: not supported, null for every list. */
  function CreateLogicFilter<F>(filterList: seq<F>): (r: Option<F>)
    ensures r == None
  {
    None
  }

  /** getFilterClass: TEqualsImpl. */
  function GetFilterClass(): (c: FilterClass)
    ensures c == TEqualsImpl
  {
    TEqualsImpl
  }

  /** TEqualsExtended.toString: "[ e1 TEquals e2 ]", null expressions written "null". */
  function ToString<E>(f: BinaryFilter<E>, show: E -> string): (s: string)
    ensures var r1, r2 := Render(f.expression1, show), Render(f.expression2, show);
            && |s| == |r1| + |r2| + 13
            && s[..2] == "[ " && s[2..2 + |r1|] == r1
            && s[2 + |r1|..11 + |r1|] == " TEquals "
            && s[11 + |r1|..|s| - 2] == r2 && s[|s| - 2..] == " ]"
  {
    BinaryToString(OperatorName, f, show)
  }

  /** Every filter this configuration creates reports the configuration's filter class. */
  lemma CreatedFiltersMatchFilterClass<E>(parameterList: seq<Option<E>>)
    requires |parameterList| >= 2
    ensures CreateFilter<E>().filterClass == GetFilterClass()
    ensures CreateFilterFromList(parameterList).filterClass == GetFilterClass()
  {
  }

  /** The empty filter renders both expressions as null, whatever the renderer. */
  lemma EmptyFilterString<E>(show: E -> string)
    ensures ToString(CreateFilter<E>(), show) == "[ null TEquals null ]"
  {
  }

  /**
   * The descriptor and the list constructor agree: the list holds one
   * expression per advertised parameter, in the advertised order.
   */
  lemma SignatureMatchesConstructor<E>(parameterList: seq<Option<E>>)
    requires |parameterList| == |GetFilterConfiguration().parameters|
    ensures CreateFilterFromList(parameterList) == BinaryFilter(TEqualsImpl, parameterList[0], parameterList[1])
  {
  }
}
