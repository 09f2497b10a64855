/** The relational SQL expression nodes this model needs, their structural
    equality and hash codes, and a small evaluator for the functions the
    method translators emit. */
module RelationalSql {
  import opened Wrappers
  import opened Nodes
  import opened Metadata

  datatype Coordinate = Coordinate(x: int, y: int)

  /** Runtime values of parameters, constants and columns. */
  datatype Value =
    | NullValue
    | IntValue(i: int)
    | BoolValue(b: bool)
    | StringValue(s: string)
    | PointValue(point: Coordinate)
    | LineStringValue(points: seq<Coordinate>)

  datatype TypeMapping = TypeMapping(storeType: string, clrType: ClrType)

  /** SQL expression nodes. Nodes built by the expression factory (function
      calls, conversions, additions, constants) carry their CLR type; a column
      stands for any node built elsewhere. */
  datatype SqlExpr =
    | Column(id: NodeId, name: string, clrType: ClrType)
    | Constant(id: NodeId, value: Value, clrType: ClrType)
    | SqlFunction(id: NodeId, name: string, arguments: seq<SqlExpr>, clrType: ClrType)
    | Convert(id: NodeId, operand: SqlExpr, clrType: ClrType)
    | Add(id: NodeId, left: SqlExpr, right: SqlExpr, clrType: ClrType)
    | LikeNode(like: LikeExpression)

  /** `matchExpression LIKE pattern [ESCAPE escapeChar]`; a missing escape
      character is a null reference. */
  datatype LikeExpression = LikeExpression(
    id: NodeId,
    matchExpression: SqlExpr,
    pattern: SqlExpr,
    escapeChar: Option<SqlExpr>,
    typeMapping: Option<TypeMapping>)

  function TypeOf(e: SqlExpr): ClrType
  {
    match e
    case Column(_, _, t) => t
    case Constant(_, _, t) => t
    case SqlFunction(_, _, _, t) => t
    case Convert(_, _, t) => t
    case Add(_, _, _, t) => t
    case LikeNode(_) => BoolType
  }

  /** A node with every identity erased: what the nodes' Equals compares. */
  datatype Shape =
    | ColumnShape(name: string, clrType: ClrType)
    | ConstantShape(value: Value, clrType: ClrType)
    | FunctionShape(name: string, arguments: seq<Shape>, clrType: ClrType)
    | ConvertShape(operand: Shape, clrType: ClrType)
    | AddShape(left: Shape, right: Shape, clrType: ClrType)
    | LikeShape(matchExpression: Shape, pattern: Shape, escapeChar: Option<Shape>, typeMapping: Option<TypeMapping>)

  function Erase(e: SqlExpr): Shape
    decreases e
  {
    match e
    case Column(_, n, t) => ColumnShape(n, t)
    case Constant(_, v, t) => ConstantShape(v, t)
    case SqlFunction(_, n, args, t) =>
      FunctionShape(n, seq(|args|, i requires 0 <= i < |args| => Erase(args[i])), t)
    case Convert(_, operand, t) => ConvertShape(Erase(operand), t)
    case Add(_, l, r, t) => AddShape(Erase(l), Erase(r), t)
    case LikeNode(like) =>
      LikeShape(
        Erase(like.matchExpression),
        Erase(like.pattern),
        if like.escapeChar.Some? then Some(Erase(like.escapeChar.value)) else None,
        like.typeMapping)
  }

  /** Structural equality of SQL nodes (`a.Equals(b)`): equal once identities
      are ignored. */
  predicate SqlEquals(a: SqlExpr, b: SqlExpr)
  {
    Erase(a) == Erase(b)
  }

  function ClrTypeHash(t: ClrType): int
  {
    match t
    case BoolType => 1
    case IntType => 2
    case StringType => 3
    case PointType => 4
    case LineStringType => 5
    case DbFunctionsType => 6
    case EntityClrType(n) => HashString(n)
    case Enumerable(e) => Combine(7, ClrTypeHash(e))
  }

  function TypeMappingHash(m: Option<TypeMapping>): int
  {
    match m
    case None => 0
    case Some(TypeMapping(store, t)) => Combine(HashString(store), ClrTypeHash(t))
  }

  function HashAll(hashes: seq<int>): int
  {
    if hashes == [] then 0 else Combine(HashAll(hashes[..|hashes| - 1]), hashes[|hashes| - 1])
  }

  function ValueHash(v: Value): int
  {
    match v
    case NullValue => 0
    case IntValue(i) => i
    case BoolValue(b) => if b then 1 else 0
    case StringValue(s) => HashString(s)
    case PointValue(c) => Combine(c.x, c.y)
    case LineStringValue(ps) => HashAll(seq(|ps|, i requires 0 <= i < |ps| => Combine(ps[i].x, ps[i].y)))
  }

  function ShapeHash(s: Shape): int
    decreases s
  {
    match s
    case ColumnShape(n, t) => Combine(HashString(n), ClrTypeHash(t))
    case ConstantShape(v, t) => Combine(ValueHash(v), ClrTypeHash(t))
    case FunctionShape(n, args, t) =>
      Combine(Combine(HashString(n), HashAll(seq(|args|, i requires 0 <= i < |args| => ShapeHash(args[i])))), ClrTypeHash(t))
    case ConvertShape(o, t) => Combine(ShapeHash(o), ClrTypeHash(t))
    case AddShape(l, r, t) => Combine(Combine(ShapeHash(l), ShapeHash(r)), ClrTypeHash(t))
    case LikeShape(m, p, e, tm) =>
      Combine(Combine(Combine(ShapeHash(m), ShapeHash(p)), if e.Some? then ShapeHash(e.value) else 0), TypeMappingHash(tm))
  }

  /** A node's GetHashCode: a function of its shape, so equal nodes hash alike. */
  function SqlHash(e: SqlExpr): int
  {
    ShapeHash(Erase(e))
  }

  /** SQL Server's ISDATE: 1 for a string it reads as a date, 0 otherwise,
      including for NULL. */
  function IsDateValue(v: Value, isDate: string -> bool): Option<Value>
  {
    match v
    case StringValue(s) => Some(IntValue(if isDate(s) then 1 else 0))
    case NullValue => Some(IntValue(0))
    case _ => None
  }

  /** SpatiaLite's PointN: the n-th point of a line string counting from 1,
      NULL when n is out of range or an operand is NULL. */
  function PointNValue(g: Value, n: Value): Option<Value>
  {
    match (g, n)
    case (LineStringValue(ps), IntValue(k)) => Some(if 1 <= k <= |ps| then PointValue(ps[k - 1]) else NullValue)
    case (NullValue, _) => Some(NullValue)
    case (_, NullValue) => Some(NullValue)
    case _ => None
  }

  /** CAST to bit: non-zero is true, NULL stays NULL. */
  function ConvertValue(v: Value, t: ClrType): Option<Value>
  {
    if t != BoolType then None
    else match v
      case IntValue(i) => Some(BoolValue(i != 0))
      case BoolValue(b) => Some(BoolValue(b))
      case NullValue => Some(NullValue)
      case _ => None
  }

  function AddValues(l: Value, r: Value): Option<Value>
  {
    match (l, r)
    case (IntValue(a), IntValue(b)) => Some(IntValue(a + b))
    case (NullValue, _) => Some(NullValue)
    case (_, NullValue) => Some(NullValue)
    case _ => None
  }

  /** The value a node denotes for one row; None where this evaluator does not
      give a meaning (LIKE matching, other functions and conversions). */
  function Evaluate(e: SqlExpr, row: map<string, Value>, isDate: string -> bool): Option<Value>
    decreases e
  {
    match e
    case Column(_, n, _) => Some(if n in row then row[n] else NullValue)
    case Constant(_, v, _) => Some(v)
    case SqlFunction(_, n, args, _) =>
      if n == "ISDATE" && |args| == 1 then
        (match Evaluate(args[0], row, isDate)
         case Some(v) => IsDateValue(v, isDate)
         case None => None)
      else if n == "PointN" && |args| == 2 then
        (match (Evaluate(args[0], row, isDate), Evaluate(args[1], row, isDate))
         case (Some(g), Some(k)) => PointNValue(g, k)
         case _ => None)
      else None
    case Convert(_, operand, t) =>
      (match Evaluate(operand, row, isDate)
       case Some(v) => ConvertValue(v, t)
       case None => None)
    case Add(_, l, r, _) =>
      (match (Evaluate(l, row, isDate), Evaluate(r, row, isDate))
       case (Some(a), Some(b)) => AddValues(a, b)
       case _ => None)
    case LikeNode(_) => None
  }
}
