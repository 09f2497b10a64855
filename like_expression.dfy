/** The relational LIKE node: rebuild-only-if-changed update, child visiting,
    printing and structural equality. */
module LikeExpressions {
  import opened Wrappers
  import opened Nodes
  import opened Metadata
  import opened RelationalSql

  /** The same node when all three children are the current instances, else a
      new node (identity `newId`) over the given children that keeps the type
      mapping. */
  function Update(like: LikeExpression, matchExpression: SqlExpr, pattern: SqlExpr, escapeChar: Option<SqlExpr>, newId: NodeId)
    : (r: LikeExpression)
    ensures r.matchExpression == matchExpression && r.pattern == pattern && r.escapeChar == escapeChar
    ensures r.typeMapping == like.typeMapping && TypeOf(LikeNode(r)) == BoolType
    ensures r == like <==>
      matchExpression == like.matchExpression && pattern == like.pattern && escapeChar == like.escapeChar
    ensures r != like ==> r.id == newId
  {
    if matchExpression != like.matchExpression || pattern != like.pattern || escapeChar != like.escapeChar
    then LikeExpression(newId, matchExpression, pattern, escapeChar, like.typeMapping)
    else like
  }

  /** A visitor threads its own state through the nodes it is handed; it is
      handed a missing child as `None` too. */
  ghost predicate KeepsNodesPresent<S(!new)>(visit: (S, Option<SqlExpr>) -> (S, Option<SqlExpr>))
  {
    forall s: S, x: SqlExpr :: visit(s, Some(x)).1.Some?
  }

  /** The children are visited match, pattern, escape character, the last
      one even when missing; the node is rebuilt through Update. */
  function VisitChildren<S(!new)>(like: LikeExpression, visit: (S, Option<SqlExpr>) -> (S, Option<SqlExpr>), state: S, newId: NodeId)
    : (r: (S, LikeExpression))
    requires KeepsNodesPresent(visit)
    ensures var (s1, m) := visit(state, Some(like.matchExpression));
      var (s2, p) := visit(s1, Some(like.pattern));
      var (s3, e) := visit(s2, like.escapeChar);
      && r.0 == s3
      && Some(r.1.matchExpression) == m
      && Some(r.1.pattern) == p
      && r.1.escapeChar == e
      && r.1.typeMapping == like.typeMapping
      && (r.1 == like <==> m == Some(like.matchExpression) && p == Some(like.pattern) && e == like.escapeChar)
  {
    var (s1, m) := visit(state, Some(like.matchExpression));
    var (s2, p) := visit(s1, Some(like.pattern));
    var (s3, e) := visit(s2, like.escapeChar);
    (s3, Update(like, m.value, p.value, e, newId))
  }

  /** A visitor that leaves every node as it is and keeps its state. */
  function Unchanged<S>(state: S, e: Option<SqlExpr>): (S, Option<SqlExpr>)
  {
    (state, e)
  }

  /** A visitor that records the nodes it is handed, in order. */
  function Record(trace: seq<Option<SqlExpr>>, e: Option<SqlExpr>): (seq<Option<SqlExpr>>, Option<SqlExpr>)
  {
    (trace + [e], e)
  }

  /** Rewriting with a visitor that changes nothing returns the same node. */
  lemma VisitWithUnchangedChildrenIsSameNode<S(!new)>(like: LikeExpression, state: S, newId: NodeId)
    ensures KeepsNodesPresent(Unchanged<S>)
    ensures VisitChildren(like, Unchanged, state, newId) == (state, like)
  {
  }

  /** The children are handed to the visitor match first, then pattern, then
      the escape character whether or not there is one, each exactly once. */
  lemma VisitChildrenOrder(like: LikeExpression, trace: seq<Option<SqlExpr>>, newId: NodeId)
    ensures KeepsNodesPresent(Record)
    ensures VisitChildren(like, Record, trace, newId).0
      == trace + [Some(like.matchExpression), Some(like.pattern), like.escapeChar]
  {
  }

  /** The printer of query plans: a text buffer and the printer's own
      rendering of the nodes it is asked to visit. */
  class ExpressionPrinter {
    var Text: string
    const Describe: SqlExpr -> string

    constructor (describe: SqlExpr -> string)
      ensures Text == "" && Describe == describe
    {
      Text := "";
      Describe := describe;
    }

    method Append(s: string)
      modifies this
      ensures Text == old(Text) + s
    {
      Text := Text + s;
    }

    method Visit(e: SqlExpr)
      modifies this
      ensures Text == old(Text) + Describe(e)
    {
      Text := Text + Describe(e);
    }
  }

  /** The text LIKE prints: match, " LIKE ", pattern, then " ESCAPE " and the
      escape character when there is one. */
  function Printed(like: LikeExpression, describe: SqlExpr -> string): string
  {
    describe(like.matchExpression) + " LIKE " + describe(like.pattern)
    + (if like.escapeChar.Some? then " ESCAPE " + describe(like.escapeChar.value) else "")
  }

  method Print(like: LikeExpression, printer: ExpressionPrinter)
    modifies printer
    ensures printer.Text == old(printer.Text) + Printed(like, printer.Describe)
  {
    printer.Visit(like.matchExpression);
    printer.Append(" LIKE ");
    printer.Visit(like.pattern);
    if like.escapeChar.Some? {
      printer.Append(" ESCAPE ");
      printer.Visit(like.escapeChar.value);
    }
  }

  /** The printed text always opens with "match LIKE pattern", and has
      anything after it exactly when there is an escape character. */
  lemma PrintedForm(like: LikeExpression, describe: SqlExpr -> string)
    ensures var head := describe(like.matchExpression) + " LIKE " + describe(like.pattern);
      && |head| <= |Printed(like, describe)|
      && Printed(like, describe)[..|head|] == head
      && (|Printed(like, describe)| == |head| <==> like.escapeChar.None?)
  {
  }

  /** SqlExpression's own Equals: the same CLR type (bool for both LIKE nodes)
      and equal type mappings. */
  predicate BaseEquals(a: LikeExpression, b: LikeExpression)
  {
    TypeOf(LikeNode(a)) == TypeOf(LikeNode(b)) && a.typeMapping == b.typeMapping
  }

  /** `object.Equals(a, b)` for possibly-null children. */
  predicate OptionalEquals(a: Option<SqlExpr>, b: Option<SqlExpr>)
  {
    (a.None? && b.None?) || (a.Some? && b.Some? && SqlEquals(a.value, b.value))
  }

  datatype RuntimeError = NullReferenceException

  /** Equals(object) as the source writes it: the escape character is
      dereferenced without a null check, so it throws when this node has none
      and the other is a distinct LIKE agreeing on everything before it. */
  function EqualsAsWritten(like: LikeExpression, other: Option<SqlExpr>): Result<bool, RuntimeError>
  {
    if other.None? then Success(false)
    else if other.value == LikeNode(like) then Success(true)
    else if !other.value.LikeNode? then Success(false)
    else
      var o := other.value.like;
      if !(BaseEquals(like, o) && SqlEquals(like.matchExpression, o.matchExpression) && SqlEquals(like.pattern, o.pattern))
      then Success(false)
      else if like.escapeChar.None? then Failure(NullReferenceException)
      else Success(o.escapeChar.Some? && SqlEquals(like.escapeChar.value, o.escapeChar.value))
  }

  /** Equals(object) with the escape characters compared null-safely. */
  predicate Equals(like: LikeExpression, other: Option<SqlExpr>)
  {
    other.Some?
    && (other.value == LikeNode(like)
        || (other.value.LikeNode?
            && BaseEquals(like, other.value.like)
            && SqlEquals(like.matchExpression, other.value.like.matchExpression)
            && SqlEquals(like.pattern, other.value.like.pattern)
            && OptionalEquals(like.escapeChar, other.value.like.escapeChar)))
  }

  function OptionalHash(e: Option<SqlExpr>): int
  {
    if e.Some? then SqlHash(e.value) else 0
  }

  /** HashCode.Combine(base hash, Match, Pattern, EscapeChar). */
  function GetHashCode(like: LikeExpression): int
  {
    var baseHash := Combine(ClrTypeHash(TypeOf(LikeNode(like))), TypeMappingHash(like.typeMapping));
    Combine(Combine(Combine(baseHash, SqlHash(like.matchExpression)), SqlHash(like.pattern)), OptionalHash(like.escapeChar))
  }

  /** A LIKE node equals exactly the nodes that have its shape once node
      identities are ignored; in particular Equals is an equivalence. */
  lemma EqualsIsStructural(like: LikeExpression, other: SqlExpr)
    ensures Equals(like, Some(other)) <==> SqlEquals(LikeNode(like), other)
  {
    if other.LikeNode? {
      var o := other.like;
      if SqlEquals(LikeNode(like), other) {
        assert Erase(like.matchExpression) == Erase(o.matchExpression);
        assert Erase(like.pattern) == Erase(o.pattern);
        assert like.escapeChar.Some? <==> o.escapeChar.Some?;
      }
    }
  }

  /** Equal LIKE nodes have equal hash codes. */
  lemma EqualsImpliesEqualHash(like: LikeExpression, other: LikeExpression)
    requires Equals(like, Some(LikeNode(other)))
    ensures GetHashCode(like) == GetHashCode(other)
  {
  }

  /** With an escape character present, the source's Equals and the
      null-safe one agree on every argument. */
  lemma EqualsAsWrittenAgreesWhenEscapeGiven(like: LikeExpression, other: Option<SqlExpr>)
    requires like.escapeChar.Some?
    ensures EqualsAsWritten(like, other) == Success(Equals(like, other))
  {
  }

  /** Two separately built LIKE nodes without escape character, over the same
      column and pattern: the source's Equals throws, the null-safe one says
      they are equal. */
  lemma EqualsAsWrittenThrowsWithoutEscape()
    ensures var column := Column(1, "Name", StringType);
      var pattern := Constant(2, StringValue("A%"), StringType);
      var a := LikeExpression(3, column, pattern, None, None);
      var b := LikeExpression(4, column, pattern, None, None);
      && EqualsAsWritten(a, Some(LikeNode(b))) == Failure(NullReferenceException)
      && Equals(a, Some(LikeNode(b)))
  {
  }
}
