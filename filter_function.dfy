/**
 * The filter-function descriptors shared by the filter configurations:
 * the descriptor a configuration advertises (FilterName with its ordered
 * FilterNameParameters) and the binary filters it creates.
 */
module FilterFunction {
  import opened Nullable

  /**
   * The kinds of expression a filter parameter accepts: the values PROPERTY,
   * LITERAL and EXPRESSION of ExpressionTypeEnum, the only ones used here.
   */
  datatype ExpressionType = PropertyKind | LiteralKind | ExpressionKind

  /** The Java classes the descriptors name as return and parameter types. */
  datatype ValueClass = BooleanClass | GeometryClass | DateClass

  /** One parameter of a filter function: name, accepted expression kind and data type. */
  datatype FilterNameParameter = FilterNameParameter(name: string, expressionType: ExpressionType, dataType: ValueClass)

  /** A filter function's descriptor: name, return type and ordered parameters. */
  datatype FilterName = FilterName(name: string, returnType: ValueClass, parameters: seq<FilterNameParameter>)

  /** The GeoTools filter implementation classes the configurations stand for. */
  datatype FilterClass = ContainsImpl | TEqualsImpl

  /**
   * A binary filter created by a configuration: the implementation class it
   * extends and its two expressions, either of which may be null.
   */
  datatype BinaryFilter<E> = BinaryFilter(filterClass: FilterClass, expression1: Option<E>, expression2: Option<E>)

  /** A new descriptor without parameters (new FilterName(name, type)). */
  function NewFilterName(name: string, returnType: ValueClass): (f: FilterName)
    ensures f.name == name && f.returnType == returnType && f.parameters == []
  {
    FilterName(name, returnType, [])
  }

  /** addParameter: the parameter is appended and nothing else changes. */
  function AddParameter(f: FilterName, p: FilterNameParameter): (g: FilterName)
    ensures g.name == f.name && g.returnType == f.returnType
    ensures |g.parameters| == |f.parameters| + 1
    ensures g.parameters[..|f.parameters|] == f.parameters && g.parameters[|f.parameters|] == p
  {
    f.(parameters := f.parameters + [p])
  }

  /** Java string concatenation of a possibly null expression: null is written "null". */
  function Render<E>(e: Option<E>, show: E -> string): string
  {
    match e
    case None => "null"
    case Some(x) => show(x)
  }

  /**
   * The toString format of the binary filters: "[ ", the first expression,
   * the operator between single spaces, the second expression and " ]".
   * The result splits back into exactly those pieces.
   */
  function BinaryToString<E>(operator: string, f: BinaryFilter<E>, show: E -> string): (s: string)
    ensures var r1, r2 := Render(f.expression1, show), Render(f.expression2, show);
            && |s| == |r1| + |operator| + |r2| + 6
            && s[..2] == "[ "
            && s[2..2 + |r1|] == r1
            && s[2 + |r1|..4 + |r1| + |operator|] == " " + operator + " "
            && s[4 + |r1| + |operator|..|s| - 2] == r2
            && s[|s| - 2..] == " ]"
  {
    "[ " + Render(f.expression1, show) + " " + operator + " " + Render(f.expression2, show) + " ]"
  }

  /** createFilter(list): the filter over the list's first two expressions; the rest are ignored. */
  function FromParameterList<E>(filterClass: FilterClass, parameterList: seq<Option<E>>): (f: BinaryFilter<E>)
    requires |parameterList| >= 2
    ensures f.filterClass == filterClass
    ensures f.expression1 == parameterList[0] && f.expression2 == parameterList[1]
  {
    BinaryFilter(filterClass, parameterList[0], parameterList[1])
  }

  /** Only the first two expressions of the list matter. */
  lemma FromParameterListIgnoresRest<E>(filterClass: FilterClass, parameterList: seq<Option<E>>, rest: seq<Option<E>>)
    requires |parameterList| >= 2
    ensures FromParameterList(filterClass, parameterList + rest) == FromParameterList(filterClass, parameterList[..2])
  {
  }
}
