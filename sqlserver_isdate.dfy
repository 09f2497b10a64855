/** SQL Server's translator for EF.Functions.IsDate(string). */
module SqlServerIsDateTranslator {
  import opened Wrappers
  import opened Nodes
  import opened Metadata
  import opened RelationalSql
  import opened MethodCalls

  /** Declines (None) any method but IsDate; for IsDate builds
      CONVERT(ISDATE(arguments[1])) typed with the method's return type. The
      function node gets identity `newId`, the conversion `newId + 1`. */
  function Translate(instance: Option<SqlExpr>, callee: MethodDescriptor, arguments: seq<SqlExpr>, newId: NodeId)
    : (r: Option<SqlExpr>)
    requires WellFormedCall(instance, callee, arguments)
    ensures r.None? <==> callee != IsDateMethod
    ensures r.Some? ==>
      && r.value.Convert?
      && r.value.clrType == ReturnType(callee)
      && r.value.operand.SqlFunction?
      && r.value.operand.name == "ISDATE"
      && r.value.operand.arguments == [arguments[1]]
      && r.value.operand.clrType == ReturnType(callee)
  {
    if callee == IsDateMethod then
      Some(Convert(newId + 1, SqlFunction(newId, "ISDATE", [arguments[1]], ReturnType(IsDateMethod)), ReturnType(IsDateMethod)))
    else
      None
  }

  /** The DbFunctions receiver (arguments[0]) plays no part in the result. */
  lemma TranslateIgnoresDbFunctionsArgument(receiver1: SqlExpr, receiver2: SqlExpr, text: SqlExpr, newId: NodeId)
    ensures Translate(None, IsDateMethod, [receiver1, text], newId) == Translate(None, IsDateMethod, [receiver2, text], newId)
  {
  }

  /** The translated call is true exactly for a string that SQL Server reads
      as a date, and false for NULL. */
  lemma TranslatedIsDateMeaning(
    arguments: seq<SqlExpr>, newId: NodeId, row: map<string, Value>, isDate: string -> bool, text: Value)
    requires WellFormedCall(None, IsDateMethod, arguments)
    requires Evaluate(arguments[1], row, isDate) == Some(text)
    requires text.StringValue? || text.NullValue?
    ensures Evaluate(Translate(None, IsDateMethod, arguments, newId).value, row, isDate)
      == Some(BoolValue(text.StringValue? && isDate(text.s)))
  {
  }
}
