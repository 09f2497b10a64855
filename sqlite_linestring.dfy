/** SQLite's (SpatiaLite) translator for LineString.GetPointN(int). */
module SqliteLineStringTranslator {
  import opened Wrappers
  import opened Nodes
  import opened Metadata
  import opened RelationalSql
  import opened MethodCalls

  /** Declines (None) any method but GetPointN; for GetPointN builds
      PointN(instance, arguments[0] + 1), shifting the 0-based index to
      SpatiaLite's 1-based one. The constant gets identity `newId`, the
      addition `newId + 1`, the function `newId + 2`. */
  function Translate(instance: Option<SqlExpr>, callee: MethodDescriptor, arguments: seq<SqlExpr>, newId: NodeId)
    : (r: Option<SqlExpr>)
    requires WellFormedCall(instance, callee, arguments)
    ensures r.None? <==> callee != GetPointNMethod
    ensures r.Some? ==>
      && r.value.SqlFunction?
      && r.value.name == "PointN"
      && r.value.clrType == ReturnType(callee)
      && |r.value.arguments| == 2
      && r.value.arguments[0] == instance.value
      && r.value.arguments[1].Add?
      && r.value.arguments[1].left == arguments[0]
      && r.value.arguments[1].right.Constant?
      && r.value.arguments[1].right.value == IntValue(1)
  {
    if callee == GetPointNMethod then
      var one := Constant(newId, IntValue(1), IntType);
      var index := Add(newId + 1, arguments[0], one, TypeOf(arguments[0]));
      Some(SqlFunction(newId + 2, "PointN", [instance.value, index], ReturnType(callee)))
    else
      None
  }

  datatype HostError = ArgumentOutOfRange

  /** GetPointN on the client: the n-th point counting from 0. */
  function GetPointN(points: seq<Coordinate>, n: int): Result<Coordinate, HostError>
  {
    if 0 <= n < |points| then Success(points[n]) else Failure(ArgumentOutOfRange)
  }

  /** The translated call selects the same point GetPointN returns on the
      client, and NULL exactly where the client call would throw. */
  lemma TranslatedGetPointNMeaning(
    instance: Option<SqlExpr>, arguments: seq<SqlExpr>, newId: NodeId,
    row: map<string, Value>, isDate: string -> bool, points: seq<Coordinate>, n: int)
    requires WellFormedCall(instance, GetPointNMethod, arguments)
    requires Evaluate(instance.value, row, isDate) == Some(LineStringValue(points))
    requires Evaluate(arguments[0], row, isDate) == Some(IntValue(n))
    ensures Evaluate(Translate(instance, GetPointNMethod, arguments, newId).value, row, isDate)
      == match GetPointN(points, n)
         case Success(c) => Some(PointValue(c))
         case Failure(_) => Some(NullValue)
  {
    var call := Translate(instance, GetPointNMethod, arguments, newId).value;
    assert Evaluate(call.arguments[1], row, isDate) == Some(IntValue(n + 1));
    assert Evaluate(call, row, isDate) == PointNValue(LineStringValue(points), IntValue(n + 1));
  }
}
