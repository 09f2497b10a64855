/** Materialising the array-valued parameter of a raw-SQL (FromSql) node: each
    element becomes one relational parameter, each distinct node instance is
    expanded once, and unnamed DbParameters are named in place. */
module FromSqlParameters {
  import opened Wrappers
  import opened RelationalSql

  /** A caller-supplied ADO.NET parameter; its name is written in place when
      missing. "" stands for both a null and an empty name. */
  class DbParameter {
    var ParameterName: string

    constructor (name: string)
      ensures ParameterName == name
    {
      ParameterName := name;
    }
  }

  /** One element of the runtime `object[]`. */
  datatype ArrayElement = DbParameterElement(parameter: DbParameter) | ValueElement(value: Value)

  /** The runtime value bound to a parameter name: an `object[]`, null, or any
      other object. */
  datatype ParameterValue = ObjectArray(elements: seq<ArrayElement>) | NullObject | OtherObject(value: Value)

  datatype RelationalParameter =
    | RawRelationalParameter(invariantName: string, dbParameter: DbParameter)
    | TypeMappedRelationalParameter(invariantName: string, name: string, typeMapping: Option<TypeMapping>, isNullable: Option<bool>)

  datatype CompositeRelationalParameter =
    CompositeRelationalParameter(invariantName: string, relationalParameters: seq<RelationalParameter>)

  /** A FromSql node's arguments: the query parameter standing for the
      runtime array, a constant holding the materialised parameters, or any
      other expression. */
  datatype FromSqlArguments =
    | ParameterArguments(name: string)
    | ConstantArguments(composite: CompositeRelationalParameter)
    | OtherArguments(description: string)

  /** A raw-SQL table node; an object so that it can be told apart from an
      equal node by reference. */
  class FromSqlExpression {
    const Sql: string
    const Arguments: FromSqlArguments
    const Alias: string

    constructor (sql: string, arguments: FromSqlArguments, alias: string)
      ensures Sql == sql && Arguments == arguments && Alias == alias
    {
      Sql := sql;
      Arguments := arguments;
      Alias := alias;
    }
  }

  /** What the visitor is handed: a FromSql node, null, or any other node. */
  datatype Expression = FromSql(fromSql: FromSqlExpression) | NullExpression | OtherExpression(description: string)

  /** The visitor's answer, or the generic traversal of ExpressionVisitor
      taking over for a node that is not a FromSql node. */
  datatype VisitResult = Returned(expression: Expression) | VisitedByBase(expression: Expression)

  /** KeyNotFoundException, InvalidCastException, NullReferenceException. */
  datatype ParameterError = KeyNotFound(name: string) | InvalidCast(name: string) | NullReference(name: string)

  function Digit(d: nat): char
    requires d < 10
  {
    "0123456789"[d]
  }

  function Decimal(n: nat): string
  {
    if n < 10 then [Digit(n)] else Decimal(n / 10) + [Digit(n % 10)]
  }

  function DigitValue(c: char): nat
  {
    if '0' <= c <= '9' then c as int - '0' as int else 0
  }

  function DecimalValue(s: string): nat
  {
    if s == [] then 0 else DecimalValue(s[..|s| - 1]) * 10 + DigitValue(s[|s| - 1])
  }

  lemma {:induction false} DecimalRoundTrip(n: nat)
    ensures DecimalValue(Decimal(n)) == n
  {
    if n >= 10 {
      var s := Decimal(n);
      assert s[..|s| - 1] == Decimal(n / 10);
      DecimalRoundTrip(n / 10);
    }
  }

  /** The k-th name the generator hands out. */
  function GeneratedName(k: nat): string
  {
    "p" + Decimal(k)
  }

  /** Distinct counter values give distinct names. */
  lemma GeneratedNameInjective(a: nat, b: nat)
    ensures GeneratedName(a) == GeneratedName(b) ==> a == b
  {
    if GeneratedName(a) == GeneratedName(b) {
      assert Decimal(a) == GeneratedName(a)[1..];
      assert Decimal(b) == GeneratedName(b)[1..];
      DecimalRoundTrip(a);
      DecimalRoundTrip(b);
    }
  }

  class ParameterNameGenerator {
    var Count: nat

    constructor ()
      ensures Count == 0
    {
      Count := 0;
    }

    method GenerateNext() returns (name: string)
      modifies this
      ensures name == GeneratedName(old(Count)) && Count == old(Count) + 1
    {
      name := GeneratedName(Count);
      Count := Count + 1;
    }
  }

  /** `value?.GetType().IsNullableType()`: null for a null value, false for a
      boxed value type, true for a reference type. */
  function NullabilityOf(v: Value): Option<bool>
  {
    match v
    case NullValue => None
    case IntValue(_) => Some(false)
    case BoolValue(_) => Some(false)
    case _ => Some(true)
  }

  /** The sub-parameters built so far and the names the DbParameters carry. */
  datatype Expansion = Expansion(subParameters: seq<RelationalParameter>, names: map<DbParameter, string>)

  predicate NamesCover(elements: seq<ArrayElement>, names: map<DbParameter, string>)
  {
    forall i :: 0 <= i < |elements| && elements[i].DbParameterElement? ==> elements[i].parameter in names
  }

  /** One loop iteration: a DbParameter keeps its own name or takes the
      generated one; any other value gets a type-mapped parameter named with
      the generated name. */
  function ExpandElement(prior: Expansion, element: ArrayElement, generated: string, mappingFor: Value -> Option<TypeMapping>)
    : Expansion
    requires element.DbParameterElement? ==> element.parameter in prior.names
  {
    match element
    case DbParameterElement(d) =>
      if prior.names[d] == "" then
        Expansion(prior.subParameters + [RawRelationalParameter(generated, d)], prior.names[d := generated])
      else
        Expansion(prior.subParameters + [RawRelationalParameter(prior.names[d], d)], prior.names)
    case ValueElement(v) =>
      Expansion(
        prior.subParameters + [TypeMappedRelationalParameter(generated, generated, mappingFor(v), NullabilityOf(v))],
        prior.names)
  }

  /** The whole loop over the runtime array, with the generator starting at
      `first` and the DbParameters named as in `names`. */
  function ExpandElements(elements: seq<ArrayElement>, first: nat, names: map<DbParameter, string>, mappingFor: Value -> Option<TypeMapping>)
    : (r: Expansion)
    requires NamesCover(elements, names)
    ensures |r.subParameters| == |elements| && r.names.Keys == names.Keys
    decreases |elements|
  {
    if elements == [] then Expansion([], names)
    else
      var k := |elements| - 1;
      ExpandElement(ExpandElements(elements[..k], first, names, mappingFor), elements[k], GeneratedName(first + k), mappingFor)
  }

  /** Sub-parameters come out in element order: the first k depend only on
      the first k elements. */
  lemma {:induction false} ExpandPrefix(
    elements: seq<ArrayElement>, k: nat, first: nat, names: map<DbParameter, string>, mappingFor: Value -> Option<TypeMapping>)
    requires NamesCover(elements, names) && k <= |elements|
    ensures ExpandElements(elements[..k], first, names, mappingFor).subParameters
      == ExpandElements(elements, first, names, mappingFor).subParameters[..k]
    decreases |elements|
  {
    if k == |elements| {
      assert elements[..k] == elements;
    } else {
      var n := |elements| - 1;
      assert elements[..n][..k] == elements[..k];
      assert elements[..n + 1] == elements;
      ExpandStep(elements, n, first, names, mappingFor);
      ExpandPrefix(elements[..n], k, first, names, mappingFor);
      var prior := ExpandElements(elements[..n], first, names, mappingFor);
      assert ExpandElements(elements, first, names, mappingFor).subParameters[..n] == prior.subParameters;
    }
  }

  /** One step of the loop: the expansion of the first k+1 elements extends
      that of the first k by element k. */
  lemma ExpandStep(
    elements: seq<ArrayElement>, k: nat, first: nat, names: map<DbParameter, string>, mappingFor: Value -> Option<TypeMapping>)
    requires NamesCover(elements, names) && k < |elements|
    ensures NamesCover(elements[..k], names)
    ensures elements[k].DbParameterElement? ==> elements[k].parameter in ExpandElements(elements[..k], first, names, mappingFor).names
    ensures ExpandElements(elements[..k + 1], first, names, mappingFor)
      == ExpandElement(ExpandElements(elements[..k], first, names, mappingFor), elements[k], GeneratedName(first + k), mappingFor)
  {
    var prefix := elements[..k + 1];
    assert prefix[..k] == elements[..k];
    assert prefix[k] == elements[k];
  }

  /** A name a DbParameter has before a step it still has after it. */
  lemma ExpandElementKeepsName(
    prior: Expansion, element: ArrayElement, generated: string, mappingFor: Value -> Option<TypeMapping>, d: DbParameter)
    requires element.DbParameterElement? ==> element.parameter in prior.names
    requires d in prior.names && prior.names[d] != ""
    ensures ExpandElement(prior, element, generated, mappingFor).names[d] == prior.names[d]
  {
  }

  /** A plain value at position i becomes a type-mapped parameter whose
      invariant name and name are both the i-th generated name. */
  lemma ExpandValueAt(
    elements: seq<ArrayElement>, i: nat, first: nat, names: map<DbParameter, string>, mappingFor: Value -> Option<TypeMapping>)
    requires NamesCover(elements, names) && i < |elements| && elements[i].ValueElement?
    ensures ExpandElements(elements, first, names, mappingFor).subParameters[i]
      == TypeMappedRelationalParameter(
           GeneratedName(first + i), GeneratedName(first + i),
           mappingFor(elements[i].value), NullabilityOf(elements[i].value))
  {
    ExpandPrefix(elements, i + 1, first, names, mappingFor);
    ExpandStep(elements, i, first, names, mappingFor);
    var prior := ExpandElements(elements[..i], first, names, mappingFor);
    assert |prior.subParameters| == i;
    assert ExpandElements(elements[..i + 1], first, names, mappingFor).subParameters[i]
      == ExpandElements(elements, first, names, mappingFor).subParameters[i];
  }

  /** A name, once a DbParameter has one, is never overwritten. */
  lemma {:induction false} ExpandKeepsAssignedNames(
    elements: seq<ArrayElement>, k: nat, first: nat, names: map<DbParameter, string>,
    mappingFor: Value -> Option<TypeMapping>, d: DbParameter)
    requires NamesCover(elements, names) && k <= |elements| && d in names
    requires ExpandElements(elements[..k], first, names, mappingFor).names[d] != ""
    ensures ExpandElements(elements, first, names, mappingFor).names[d]
      == ExpandElements(elements[..k], first, names, mappingFor).names[d]
    decreases |elements|
  {
    if k == |elements| {
      assert elements[..k] == elements;
    } else {
      var n := |elements| - 1;
      assert elements[..n][..k] == elements[..k];
      assert elements[..n + 1] == elements;
      ExpandKeepsAssignedNames(elements[..n], k, first, names, mappingFor, d);
      ExpandStep(elements, n, first, names, mappingFor);
      ExpandElementKeepsName(ExpandElements(elements[..n], first, names, mappingFor), elements[n], GeneratedName(first + n), mappingFor, d);
    }
  }

  /** A DbParameter at position i yields a raw parameter carrying the
      DbParameter itself and the (non-empty) name it ends up with. */
  lemma ExpandDbParameterAt(
    elements: seq<ArrayElement>, i: nat, first: nat, names: map<DbParameter, string>, mappingFor: Value -> Option<TypeMapping>)
    requires NamesCover(elements, names) && i < |elements| && elements[i].DbParameterElement?
    ensures var r := ExpandElements(elements, first, names, mappingFor);
      var d := elements[i].parameter;
      && r.names[d] != ""
      && r.subParameters[i] == RawRelationalParameter(r.names[d], d)
  {
    var d := elements[i].parameter;
    ExpandPrefix(elements, i + 1, first, names, mappingFor);
    ExpandStep(elements, i, first, names, mappingFor);
    var prior := ExpandElements(elements[..i], first, names, mappingFor);
    assert |prior.subParameters| == i;
    assert GeneratedName(first + i) != "";
    ExpandKeepsAssignedNames(elements, i + 1, first, names, mappingFor, d);
  }

  /** A DbParameter that already has a name keeps it. */
  lemma ExpandKeepsGivenName(
    elements: seq<ArrayElement>, first: nat, names: map<DbParameter, string>,
    mappingFor: Value -> Option<TypeMapping>, d: DbParameter)
    requires NamesCover(elements, names) && d in names && names[d] != ""
    ensures ExpandElements(elements, first, names, mappingFor).names[d] == names[d]
  {
    assert elements[..0] == [];
    ExpandKeepsAssignedNames(elements, 0, first, names, mappingFor, d);
  }

  /** Only DbParameters that occur in the array are renamed. */
  lemma {:induction false} ExpandNamesOnlyItsElements(
    elements: seq<ArrayElement>, first: nat, names: map<DbParameter, string>,
    mappingFor: Value -> Option<TypeMapping>, d: DbParameter)
    requires NamesCover(elements, names) && d in names
    requires forall i :: 0 <= i < |elements| ==> elements[i] != DbParameterElement(d)
    ensures ExpandElements(elements, first, names, mappingFor).names[d] == names[d]
    decreases |elements|
  {
    if elements != [] {
      var n := |elements| - 1;
      ExpandNamesOnlyItsElements(elements[..n], first, names, mappingFor, d);
      ExpandStep(elements, n, first, names, mappingFor);
      assert elements[..n + 1] == elements;
    }
  }

  /** An unnamed DbParameter takes the name generated at its first
      occurrence in the array. */
  lemma ExpandNamesUnnamedAtFirstOccurrence(
    elements: seq<ArrayElement>, i: nat, first: nat, names: map<DbParameter, string>,
    mappingFor: Value -> Option<TypeMapping>, d: DbParameter)
    requires NamesCover(elements, names) && i < |elements| && elements[i] == DbParameterElement(d)
    requires names[d] == ""
    requires forall j :: 0 <= j < i ==> elements[j] != DbParameterElement(d)
    ensures ExpandElements(elements, first, names, mappingFor).names[d] == GeneratedName(first + i)
  {
    ExpandNamesOnlyItsElements(elements[..i], first, names, mappingFor, d);
    ExpandStep(elements, i, first, names, mappingFor);
    assert GeneratedName(first + i) != "";
    ExpandKeepsAssignedNames(elements, i + 1, first, names, mappingFor, d);
  }

  /** Plain values at different positions get different parameter names. */
  lemma GeneratedNamesDistinct(
    elements: seq<ArrayElement>, i: nat, j: nat, first: nat, names: map<DbParameter, string>,
    mappingFor: Value -> Option<TypeMapping>)
    requires NamesCover(elements, names) && i < |elements| && j < |elements| && i != j
    requires elements[i].ValueElement? && elements[j].ValueElement?
    ensures var r := ExpandElements(elements, first, names, mappingFor);
      && r.subParameters[i].TypeMappedRelationalParameter?
      && r.subParameters[j].TypeMappedRelationalParameter?
      && r.subParameters[i].name != r.subParameters[j].name
  {
    ExpandValueAt(elements, i, first, names, mappingFor);
    ExpandValueAt(elements, j, first, names, mappingFor);
    GeneratedNameInjective(first + i, first + j);
  }

  function DbParametersOf(elements: seq<ArrayElement>): set<DbParameter>
  {
    set i | 0 <= i < |elements| && elements[i].DbParameterElement? :: elements[i].parameter
  }

  ghost function NamesOf(parameters: set<DbParameter>): (names: map<DbParameter, string>)
    reads parameters
    ensures names.Keys == parameters
  {
    map d | d in parameters :: d.ParameterName
  }

  /** `replacement` is what expanding `original` produces: same SQL and alias,
      arguments a composite constant named after the original parameter. */
  predicate Replaces(replacement: FromSqlExpression, original: FromSqlExpression)
  {
    && original.Arguments.ParameterArguments?
    && replacement.Sql == original.Sql
    && replacement.Alias == original.Alias
    && replacement.Arguments.ConstantArguments?
    && replacement.Arguments.composite.invariantName == original.Arguments.name
  }

  class FromSqlParameterApplyingVisitor {
    /** Keyed by reference: an equal but distinct node is expanded anew. */
    var VisitedFromSqlExpressions: map<FromSqlExpression, FromSqlExpression>
    const NameGenerator: ParameterNameGenerator
    const ParametersValues: map<string, ParameterValue>
    /** The expression factory's type mapping for a runtime value. */
    const TypeMappingForValue: Value -> Option<TypeMapping>

    ghost predicate Valid()
      reads this
    {
      forall f :: f in VisitedFromSqlExpressions ==> Replaces(VisitedFromSqlExpressions[f], f)
    }

    constructor (
      nameGenerator: ParameterNameGenerator,
      parametersValues: map<string, ParameterValue>,
      typeMappingForValue: Value -> Option<TypeMapping>)
      ensures NameGenerator == nameGenerator && ParametersValues == parametersValues
      ensures TypeMappingForValue == typeMappingForValue
      ensures VisitedFromSqlExpressions == map[] && Valid()
    {
      NameGenerator := nameGenerator;
      ParametersValues := parametersValues;
      TypeMappingForValue := typeMappingForValue;
      VisitedFromSqlExpressions := map[];
    }

    /** The runtime array a visit of `e` would expand, if any. */
    function ElementsOf(e: Expression): seq<ArrayElement>
    {
      if e.FromSql? && e.fromSql.Arguments.ParameterArguments?
        && e.fromSql.Arguments.name in ParametersValues
        && ParametersValues[e.fromSql.Arguments.name].ObjectArray?
      then ParametersValues[e.fromSql.Arguments.name].elements
      else []
    }

    /** True when visiting `e` expands a FromSql node seen for the first time. */
    predicate Expands(e: Expression)
      reads this
    {
      && e.FromSql?
      && e.fromSql !in VisitedFromSqlExpressions
      && e.fromSql.Arguments.ParameterArguments?
      && e.fromSql.Arguments.name in ParametersValues
      && ParametersValues[e.fromSql.Arguments.name].ObjectArray?
    }

    /** One iteration of the loop: the element's relational parameter, with
        the DbParameter named in place when it has no name. */
    method ApplyParameterValue(element: ArrayElement, ghost prior: seq<RelationalParameter>, ghost dbParameters: set<DbParameter>)
      returns (parameter: RelationalParameter)
      requires element.DbParameterElement? ==> element.parameter in dbParameters
      modifies NameGenerator, if element.DbParameterElement? then {element.parameter} else {}
      ensures NameGenerator.Count == old(NameGenerator.Count) + 1
      ensures ExpandElement(
          Expansion(prior, old(NamesOf(dbParameters))), element, GeneratedName(old(NameGenerator.Count)), TypeMappingForValue)
        == Expansion(prior + [parameter], NamesOf(dbParameters))
    {
      ghost var current := NamesOf(dbParameters);
      var parameterName := NameGenerator.GenerateNext();
      match element {
        case DbParameterElement(dbParameter) =>
          if dbParameter.ParameterName == "" {
            dbParameter.ParameterName := parameterName;
            assert NamesOf(dbParameters) == current[dbParameter := parameterName];
          } else {
            parameterName := dbParameter.ParameterName;
            assert NamesOf(dbParameters) == current;
          }
          parameter := RawRelationalParameter(parameterName, dbParameter);
        case ValueElement(v) =>
          assert NamesOf(dbParameters) == current;
          parameter := TypeMappedRelationalParameter(parameterName, parameterName, TypeMappingForValue(v), NullabilityOf(v));
      }
    }

    /** The loop over the runtime array: one relational parameter per
        element, DbParameters named in place when they have no name. */
    method ApplyParameterValues(parameterValues: seq<ArrayElement>) returns (subParameters: seq<RelationalParameter>)
      modifies NameGenerator, DbParametersOf(parameterValues)
      ensures NamesCover(parameterValues, old(NamesOf(DbParametersOf(parameterValues))))
      ensures var x := ExpandElements(
          parameterValues, old(NameGenerator.Count), old(NamesOf(DbParametersOf(parameterValues))), TypeMappingForValue);
        && subParameters == x.subParameters
        && NamesOf(DbParametersOf(parameterValues)) == x.names
      ensures NameGenerator.Count == old(NameGenerator.Count) + |parameterValues|
    {
      ghost var dbParameters := DbParametersOf(parameterValues);
      ghost var before := NamesOf(dbParameters);
      ghost var start := NameGenerator.Count;
      assert NamesCover(parameterValues, before) by {
        forall i | 0 <= i < |parameterValues| && parameterValues[i].DbParameterElement?
          ensures parameterValues[i].parameter in before
        {
          assert parameterValues[i].parameter in dbParameters;
        }
      }
      subParameters := [];
      for i := 0 to |parameterValues|
        invariant NameGenerator.Count == start + i
        invariant ExpandElements(parameterValues[..i], start, before, TypeMappingForValue)
          == Expansion(subParameters, NamesOf(dbParameters))
      {
        ExpandStep(parameterValues, i, start, before, TypeMappingForValue);
        var parameter := ApplyParameterValue(parameterValues[i], subParameters, dbParameters);
        subParameters := subParameters + [parameter];
      }
      assert parameterValues[..|parameterValues|] == parameterValues;
    }

    method Visit(expression: Expression) returns (r: Result<VisitResult, ParameterError>)
      requires Valid()
      modifies this`VisitedFromSqlExpressions, NameGenerator, DbParametersOf(ElementsOf(expression))
      ensures Valid()
      // any other node is left to the generic traversal
      ensures !expression.FromSql? ==> r == Success(VisitedByBase(expression))
      // a node instance seen before gets its cached replacement
      ensures expression.FromSql? && expression.fromSql in old(VisitedFromSqlExpressions) ==>
        r == Success(Returned(FromSql(old(VisitedFromSqlExpressions)[expression.fromSql])))
      // arguments that are not a parameter match no case: the result is null
      ensures (expression.FromSql? && expression.fromSql !in old(VisitedFromSqlExpressions)
        && !expression.fromSql.Arguments.ParameterArguments?) ==> r == Success(Returned(NullExpression))
      // a missing parameter, a null value or a value that is no object[] is an error
      ensures (expression.FromSql? && expression.fromSql !in old(VisitedFromSqlExpressions)
        && expression.fromSql.Arguments.ParameterArguments?) ==>
        var name := expression.fromSql.Arguments.name;
        && (name !in ParametersValues ==> r == Failure(KeyNotFound(name)))
        && (name in ParametersValues && ParametersValues[name].NullObject? ==> r == Failure(NullReference(name)))
        && (name in ParametersValues && ParametersValues[name].OtherObject? ==> r == Failure(InvalidCast(name)))
      // nothing changes unless a new node is expanded
      ensures !old(Expands(expression)) ==>
        && VisitedFromSqlExpressions == old(VisitedFromSqlExpressions)
        && NameGenerator.Count == old(NameGenerator.Count)
        && NamesOf(DbParametersOf(ElementsOf(expression))) == old(NamesOf(DbParametersOf(ElementsOf(expression))))
      // a new node is expanded once, one generated name per element
      ensures old(Expands(expression)) ==>
        var f := expression.fromSql;
        var elements := ElementsOf(expression);
        var x := ExpandElements(elements, old(NameGenerator.Count), old(NamesOf(DbParametersOf(elements))), TypeMappingForValue);
        && r.Success? && r.value.Returned? && r.value.expression.FromSql?
        && fresh(r.value.expression.fromSql)
        && Replaces(r.value.expression.fromSql, f)
        && r.value.expression.fromSql.Arguments
           == ConstantArguments(CompositeRelationalParameter(f.Arguments.name, x.subParameters))
        && VisitedFromSqlExpressions == old(VisitedFromSqlExpressions)[f := r.value.expression.fromSql]
        && NameGenerator.Count == old(NameGenerator.Count) + |elements|
        && NamesOf(DbParametersOf(elements)) == x.names
    {
      if !expression.FromSql? {
        return Success(VisitedByBase(expression));
      }
      var fromSql := expression.fromSql;
      if fromSql in VisitedFromSqlExpressions {
        return Success(Returned(FromSql(VisitedFromSqlExpressions[fromSql])));
      }
      if !fromSql.Arguments.ParameterArguments? {
        return Success(Returned(NullExpression));
      }
      var name := fromSql.Arguments.name;
      if name !in ParametersValues {
        return Failure(KeyNotFound(name));
      }
      var parameterValues: seq<ArrayElement>;
      match ParametersValues[name] {
        case NullObject => return Failure(NullReference(name));
        case OtherObject(_) => return Failure(InvalidCast(name));
        case ObjectArray(elements) => parameterValues := elements;
      }
      var subParameters := ApplyParameterValues(parameterValues);
      var updatedFromSql := new FromSqlExpression(
        fromSql.Sql, ConstantArguments(CompositeRelationalParameter(name, subParameters)), fromSql.Alias);
      VisitedFromSqlExpressions := VisitedFromSqlExpressions[fromSql := updatedFromSql];
      return Success(Returned(FromSql(updatedFromSql)));
    }
  }

  /** Visiting the same node instance twice expands it once: the second visit
      returns the first visit's replacement and generates no names. */
  method VisitTwice(visitor: FromSqlParameterApplyingVisitor, expression: Expression)
    returns (first: Result<VisitResult, ParameterError>, second: Result<VisitResult, ParameterError>)
    requires visitor.Valid() && expression.FromSql?
    modifies visitor, visitor.NameGenerator, DbParametersOf(visitor.ElementsOf(expression))
    ensures first.Success? && first.value.expression.FromSql? ==> second == first
    ensures first.Success? && first.value.expression.FromSql? ==>
      visitor.NameGenerator.Count
        == old(visitor.NameGenerator.Count) + (if old(visitor.Expands(expression)) then |visitor.ElementsOf(expression)| else 0)
  {
    first := visitor.Visit(expression);
    second := visitor.Visit(expression);
  }
}
