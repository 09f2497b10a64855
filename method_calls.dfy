/** Method identity as a tag: the two methods the translators recognise and
    every other method, with the shape of a call to each. */
module MethodCalls {
  import opened Wrappers
  import opened Metadata
  import opened RelationalSql

  datatype MethodDescriptor =
    /** SqlServerDbFunctionsExtensions.IsDate(this DbFunctions, string): bool */
    | IsDateMethod
    /** LineString.GetPointN(int): Point */
    | GetPointNMethod
    | OtherMethod(name: string, isStatic: bool, parameterCount: nat, returnType: ClrType)

  function ReturnType(m: MethodDescriptor): ClrType
  {
    match m
    case IsDateMethod => BoolType
    case GetPointNMethod => PointType
    case OtherMethod(_, _, _, t) => t
  }

  predicate IsStatic(m: MethodDescriptor)
  {
    match m
    case IsDateMethod => true
    case GetPointNMethod => false
    case OtherMethod(_, s, _, _) => s
  }

  /** Number of translated arguments; an extension method's receiver
      (DbFunctions for IsDate) is its first argument. */
  function ParameterCount(m: MethodDescriptor): nat
  {
    match m
    case IsDateMethod => 2
    case GetPointNMethod => 1
    case OtherMethod(_, _, n, _) => n
  }

  /** What every caller of a method-call translator guarantees: one translated
      argument per parameter, and a receiver exactly for instance methods. */
  predicate WellFormedCall(instance: Option<SqlExpr>, m: MethodDescriptor, arguments: seq<SqlExpr>)
  {
    |arguments| == ParameterCount(m) && (instance.None? <==> IsStatic(m))
  }
}
