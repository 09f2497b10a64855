# Query-expression nodes and method translators of EF Core's query pipeline, in Dafny

This project models six pieces of Entity Framework Core's query pipeline and proves what they promise:

- **Cosmos entity projections** (`CosmosProjections`). An `EntityProjection` binds properties to key-access expressions and navigations to nested projections. It memoises both kinds of binding in two per-instance caches. An `ArrayProjection` wraps the projection of a collection navigation.
- **LIKE expressions** (`LikeExpressions`). This covers `Update`, child visiting, printing, equality and hashing.
- **Raw-SQL parameter materialisation** (`FromSqlParameters`). A visitor replaces the array-valued parameter of a FromSql node with one relational parameter per element. It names unnamed `DbParameter`s in place and caches each replacement by node identity.
- **Two method translators**. SQL Server's `EF.Functions.IsDate(s)` becomes `CONVERT(bool, ISDATE(s))` (`SqlServerIsDateTranslator`). NetTopologySuite's `LineString.GetPointN(n)` becomes SQLite's `PointN(g, n + 1)` (`SqliteLineStringTranslator`).

Supporting modules:

- `Metadata` defines entity types with single inheritance and the assignability test that both bind operations use.
- `RelationalSql` defines the SQL expression tree and a small evaluator for it. The evaluator covers ISDATE, PointN, conversion to bool and addition, so a translated call can be compared with the .NET method it replaces.
- `MethodCalls` describes method signatures symbolically.

Modelling conventions:

- **Identity.** Expression nodes that the source compares by reference carry an `id: NodeId`. Two such values are the same node exactly when they are equal as Dafny values, ids included. Structural equality compares them with ids erased: `Erase`/`SqlEquals` for SQL trees and `AccessEquals` for Cosmos access paths. An operation that allocates a node takes the new node's id as a parameter.
- **Mutable objects.** Objects whose fields the source writes are classes. These are `EntityProjection` (its two caches), `FromSqlParameterApplyingVisitor` (its identity cache), `ParameterNameGenerator` (its counter), `DbParameter` (its name) and `ExpressionPrinter` (its text). A FromSql node is an immutable class, so the visitor's cache is a map keyed by references.
- **Exceptions.** A thrown exception is the `Failure` case of a `Result`. A declined translation is `None`.

## Model

| member | source | states |
|---|---|---|
| Metadata.IsAssignableFromTransitive | src/EFCore.Cosmos/Query/Pipeline/EntityProjectionExpression.cs:44-45 | assignability along the base-type chain is transitive |
| Metadata.AssignableDepth | src/EFCore.Cosmos/Query/Pipeline/EntityProjectionExpression.cs:44-45 | an assignable-from type is no deeper in the hierarchy than the derived type, and equal depth means the same type |
| Metadata.IsAssignableFromAntisymmetric | src/EFCore.Cosmos/Query/Pipeline/EntityProjectionExpression.cs:44-45 | two types assignable from each other are the same type |
| Metadata.SiblingsAreIncompatible | src/EFCore.Cosmos/Query/Pipeline/EntityProjectionExpression.cs:44-49 | two distinct types with the same base type fail the compatibility test, so binding a sibling's member throws |
| CosmosProjections.AccessEqualsReflexive | src/EFCore.Cosmos/Query/Pipeline/EntityProjectionExpression.cs:93 | structural equality of access expressions is reflexive |
| CosmosProjections.AccessEqualsSymmetric | src/EFCore.Cosmos/Query/Pipeline/EntityProjectionExpression.cs:93 | structural equality of access expressions is symmetric |
| CosmosProjections.AccessEqualsTransitive | src/EFCore.Cosmos/Query/Pipeline/EntityProjectionExpression.cs:93 | structural equality of access expressions is transitive |
| CosmosProjections.AccessEqualsImpliesEqualHash | src/EFCore.Cosmos/Query/Pipeline/EntityProjectionExpression.cs:93-95 | structurally equal access expressions have equal hash codes |
| CosmosProjections.NameOf | src/EFCore.Cosmos/Query/Pipeline/EntityProjectionExpression.cs:22-23 | the name is null exactly when the access is neither a root reference (whose alias is the name) nor an object access (whose name is the name) |
| CosmosProjections.EntityProjection.constructor | src/EFCore.Cosmos/Query/Pipeline/EntityProjectionExpression.cs:13-24 | keeps the entity type and access expression, derives the name from the access, starts with both caches empty |
| CosmosProjections.EntityProjection.VisitChildren | src/EFCore.Cosmos/Query/Pipeline/EntityProjectionExpression.cs:33-40 | returns this projection when the visited access is the same node, otherwise a new projection with the same entity type, the new access, the name derived from the new access and empty caches |
| CosmosProjections.EntityProjection.BindProperty | src/EFCore.Cosmos/Query/Pipeline/EntityProjectionExpression.cs:42-58 | fails if and only if neither type is assignable from the other, naming the entity type and the property; otherwise returns the cached key access or a new one over this projection's access and caches it; the navigation cache is untouched |
| CosmosProjections.EntityProjection.BindNavigation | src/EFCore.Cosmos/Query/Pipeline/EntityProjectionExpression.cs:60-83 | fails if and only if the types are incompatible; otherwise returns a projection of the target type over an object access of the navigation, wrapped in an array projection exactly for a collection navigation; a miss builds fresh nodes with empty caches; the result is cached |
| CosmosProjections.ProjectionEqualsIsStructural | src/EFCore.Cosmos/Query/Pipeline/EntityProjectionExpression.cs:85-93 | two projections are equal if and only if their entity types are equal and their access expressions are structurally equal |
| CosmosProjections.ProjectionEqualsIsEquivalence | src/EFCore.Cosmos/Query/Pipeline/EntityProjectionExpression.cs:85-93 | projection equality is reflexive, symmetric and transitive |
| CosmosProjections.ProjectionEqualsImpliesEqualHash | src/EFCore.Cosmos/Query/Pipeline/EntityProjectionExpression.cs:85-95 | equal projections have equal hash codes |
| CosmosProjections.BindPropertyTwice | src/EFCore.Cosmos/Query/Pipeline/EntityProjectionExpression.cs:51-57 | binding the same property twice returns the identical key-access node, even with a different id offered for the second call |
| CosmosProjections.BindNavigationTwice | src/EFCore.Cosmos/Query/Pipeline/EntityProjectionExpression.cs:69-82 | binding the same navigation twice returns the identical projection object |
| CosmosProjections.ArrayBindingTypeAndName | src/EFCore.Cosmos/Query/Pipeline/ArrayProjectionExpression.cs:14-20 | the array projection a collection navigation binds to has the type "sequence of the navigation's target CLR type" and is named after the navigation's containing property, the name of the projection it wraps |
| CosmosProjections.ArrayProjection.Update | src/EFCore.Cosmos/Query/Pipeline/ArrayProjectionExpression.cs:29-32 | returns this node if and only if the argument is the wrapped projection object; otherwise a new node wrapping the argument |
| CosmosProjections.ArrayProjection.VisitChildren | src/EFCore.Cosmos/Query/Pipeline/ArrayProjectionExpression.cs:22-27 | wraps the visited projection, and is this node if and only if the visit returned the same projection |
| CosmosProjections.ArrayEqualsDelegates | src/EFCore.Cosmos/Query/Pipeline/ArrayProjectionExpression.cs:34-41 | two array projections are equal if and only if their wrapped projections are equal |
| CosmosProjections.ArrayEqualsImpliesEqualHash | src/EFCore.Cosmos/Query/Pipeline/ArrayProjectionExpression.cs:34-43 | equal array projections have equal hash codes |
| CosmosProjections.ArrayVisitWithIdentityIsSameNode | src/EFCore.Cosmos/Query/Pipeline/ArrayProjectionExpression.cs:22-32 | a visit that changes nothing returns the same node |
| LikeExpressions.Update | src/EFCore.Relational/Query/Pipeline/SqlExpressions/LikeExpression.cs:13-37 | the result has the given children, the old type mapping and type bool; it is the old node if and only if all three children are the same nodes |
| LikeExpressions.VisitChildren | src/EFCore.Relational/Query/Pipeline/SqlExpressions/LikeExpression.cs:25-32 | the visitor is handed match, pattern and escape character in that order, the escape character even when missing, with its state threaded through; the result holds the three returned nodes and the old type mapping, and is the old node if and only if all three returned nodes are the current ones |
| LikeExpressions.VisitWithUnchangedChildrenIsSameNode | src/EFCore.Relational/Query/Pipeline/SqlExpressions/LikeExpression.cs:25-37 | a visit that changes no child returns the same node |
| LikeExpressions.VisitChildrenOrder | src/EFCore.Relational/Query/Pipeline/SqlExpressions/LikeExpression.cs:25-32 | the visitor is handed exactly match, pattern, then the escape character or a missing one |
| LikeExpressions.ExpressionPrinter.Append | src/EFCore.Relational/Query/Pipeline/SqlExpressions/LikeExpression.cs:42 | appends text to the printer's buffer |
| LikeExpressions.ExpressionPrinter.Visit | src/EFCore.Relational/Query/Pipeline/SqlExpressions/LikeExpression.cs:41 | appends a child's printed form to the buffer |
| LikeExpressions.Print | src/EFCore.Relational/Query/Pipeline/SqlExpressions/LikeExpression.cs:39-50 | the buffer grows by exactly the node's printed form |
| LikeExpressions.PrintedForm | src/EFCore.Relational/Query/Pipeline/SqlExpressions/LikeExpression.cs:39-50 | the printed form starts with `match LIKE pattern`, and is longer than that exactly when an escape character is present |
| LikeExpressions.EqualsIsStructural | src/EFCore.Relational/Query/Pipeline/SqlExpressions/LikeExpression.cs:52-62 | equality holds if and only if the other node is structurally the same LIKE node: same base type and mapping, and equal match, pattern and escape character |
| LikeExpressions.EqualsImpliesEqualHash | src/EFCore.Relational/Query/Pipeline/SqlExpressions/LikeExpression.cs:52-64 | equal LIKE nodes have equal hash codes |
| LikeExpressions.EqualsAsWrittenAgreesWhenEscapeGiven | src/EFCore.Relational/Query/Pipeline/SqlExpressions/LikeExpression.cs:52-62 | with an escape character present, the equality as written never throws and agrees with the corrected equality |
| LikeExpressions.EqualsAsWrittenThrowsWithoutEscape | src/EFCore.Relational/Query/Pipeline/SqlExpressions/LikeExpression.cs:62 | two distinct, structurally equal LIKE nodes without an escape character make the equality as written throw, though they are equal |
| SqlServerIsDateTranslator.Translate | src/EFCore.SqlServer/Query/Pipeline/SqlServerIsDateFunctionTranslator.cs:23-36 | declines if and only if the method is not `IsDate(DbFunctions, string)`; otherwise returns a conversion to the method's return type of an `ISDATE` call whose only argument is `arguments[1]` |
| SqlServerIsDateTranslator.TranslateIgnoresDbFunctionsArgument | src/EFCore.SqlServer/Query/Pipeline/SqlServerIsDateFunctionTranslator.cs:29-32 | the translation does not depend on the `DbFunctions` receiver argument |
| SqlServerIsDateTranslator.TranslatedIsDateMeaning | src/EFCore.SqlServer/Query/Pipeline/SqlServerIsDateFunctionTranslator.cs:26-34 | the translated SQL evaluates to true exactly when the argument is a string that is a valid date, and to false for NULL |
| SqliteLineStringTranslator.Translate | src/EFCore.Sqlite.NTS/Query/Pipeline/SqliteLineStringMethodTranslator.cs:23-39 | declines if and only if the method is not `GetPointN(int)`; otherwise returns `PointN(instance, arguments[0] + 1)` with the method's return type |
| SqliteLineStringTranslator.TranslatedGetPointNMeaning | src/EFCore.Sqlite.NTS/Query/Pipeline/SqliteLineStringMethodTranslator.cs:27-33 | the translated SQL yields the same point as the 0-based `GetPointN` for every in-range index, and NULL exactly where `GetPointN` throws |
| FromSqlParameters.DecimalRoundTrip | src/EFCore.Relational/Query/Pipeline/FromSqlParameterApplyingExpressionVisitor.cs:50 | the counter can be read back from its decimal digits |
| FromSqlParameters.GeneratedNameInjective | src/EFCore.Relational/Query/Pipeline/FromSqlParameterApplyingExpressionVisitor.cs:50 | different counter values give different parameter names |
| FromSqlParameters.ParameterNameGenerator.GenerateNext | src/EFCore.Relational/Query/Pipeline/FromSqlParameterApplyingExpressionVisitor.cs:50 | returns the name for the current counter value and advances the counter by one |
| FromSqlParameters.ExpandElements | src/EFCore.Relational/Query/Pipeline/FromSqlParameterApplyingExpressionVisitor.cs:47-73 | the loop yields one sub-parameter per array element and renames only known DbParameters |
| FromSqlParameters.ExpandPrefix | src/EFCore.Relational/Query/Pipeline/FromSqlParameterApplyingExpressionVisitor.cs:47-73 | the sub-parameters are in element order: the first k depend only on the first k elements |
| FromSqlParameters.ExpandStep | src/EFCore.Relational/Query/Pipeline/FromSqlParameterApplyingExpressionVisitor.cs:48-73 | processing k+1 elements is processing k elements followed by one iteration on element k with the k-th generated name |
| FromSqlParameters.ExpandElementKeepsName | src/EFCore.Relational/Query/Pipeline/FromSqlParameterApplyingExpressionVisitor.cs:53-60 | one iteration never overwrites a non-empty DbParameter name |
| FromSqlParameters.ExpandValueAt | src/EFCore.Relational/Query/Pipeline/FromSqlParameterApplyingExpressionVisitor.cs:64-71 | a plain value at position i becomes a type-mapped parameter whose invariant name and name are both the i-th generated name, with the value's type mapping and nullability |
| FromSqlParameters.ExpandKeepsAssignedNames | src/EFCore.Relational/Query/Pipeline/FromSqlParameterApplyingExpressionVisitor.cs:53-60 | once a DbParameter has a name, the rest of the loop keeps it |
| FromSqlParameters.ExpandDbParameterAt | src/EFCore.Relational/Query/Pipeline/FromSqlParameterApplyingExpressionVisitor.cs:51-62 | a DbParameter at position i becomes a raw parameter that carries that DbParameter and the non-empty name it ends up with |
| FromSqlParameters.ExpandKeepsGivenName | src/EFCore.Relational/Query/Pipeline/FromSqlParameterApplyingExpressionVisitor.cs:57-60 | a DbParameter that already has a name keeps it |
| FromSqlParameters.ExpandNamesOnlyItsElements | src/EFCore.Relational/Query/Pipeline/FromSqlParameterApplyingExpressionVisitor.cs:51-56 | a DbParameter that is not in the array is not renamed |
| FromSqlParameters.ExpandNamesUnnamedAtFirstOccurrence | src/EFCore.Relational/Query/Pipeline/FromSqlParameterApplyingExpressionVisitor.cs:50-56 | an unnamed DbParameter takes the name generated at its first position in the array |
| FromSqlParameters.GeneratedNamesDistinct | src/EFCore.Relational/Query/Pipeline/FromSqlParameterApplyingExpressionVisitor.cs:64-71 | plain values at different positions get type-mapped parameters with different names |
| FromSqlParameters.FromSqlParameterApplyingVisitor.constructor | src/EFCore.Relational/Query/Pipeline/FromSqlParameterApplyingExpressionVisitor.cs:19-34 | keeps the generator, the parameter values and the type-mapping source, and starts with an empty cache |
| FromSqlParameters.FromSqlParameterApplyingVisitor.ApplyParameterValue | src/EFCore.Relational/Query/Pipeline/FromSqlParameterApplyingExpressionVisitor.cs:50-71 | one iteration advances the generator once and does what the loop specification's step does, including the in-place name write |
| FromSqlParameters.FromSqlParameterApplyingVisitor.ApplyParameterValues | src/EFCore.Relational/Query/Pipeline/FromSqlParameterApplyingExpressionVisitor.cs:47-73 | the loop's sub-parameters and the DbParameters' final names are those of the loop specification, and the generator advances once per element |
| FromSqlParameters.FromSqlParameterApplyingVisitor.Visit | src/EFCore.Relational/Query/Pipeline/FromSqlParameterApplyingExpressionVisitor.cs:36-92 | hands non-FromSql nodes to the base traversal; returns the cached replacement of a node seen before; returns null for arguments that are not a parameter; fails on a missing, null or non-array value; otherwise builds and caches a new node with the same SQL and alias and a composite constant named after the parameter, holding the expanded sub-parameters; nothing changes except on an expansion |
| FromSqlParameters.VisitTwice | src/EFCore.Relational/Query/Pipeline/FromSqlParameterApplyingExpressionVisitor.cs:40-88 | visiting the same node instance again returns the first result and generates no further names |

## Left out

- The generic `ExpressionVisitor` traversal is not part of this model. `Visit` returns a `VisitedByBase` marker for a node that is not a FromSql node, and the child visits of both `VisitChildren` methods are function parameters.
- The SQL expression factory is not part of this model. `Function`, `Convert`, `Add` and `Constant` build nodes that carry only a CLR type, and the type mapping of a runtime value is a function parameter of the visitor.
- `ParameterNameGenerator`'s source file is not part of this model. Its names are modelled as `p` followed by the counter in decimal, and the proofs use only that distinct counter values give distinct, non-empty names.
- The reflection behind method and type identity (`GetRuntimeMethod`, `MakeGenericType`, `MethodInfo.Equals`) is replaced by symbolic method and type tags.
- A visitor that returns a node of the wrong kind, which makes the casts in `VisitChildren` throw, is not modelled. The child visits are typed.
- Hash codes are combined with a simple polynomial. The .NET `HashCode.Combine` values are not reproduced; only consistency with equality is proved.
- `OtherAccess` stands for any access expression other than a root reference or an object access. Its equality is by description.
- The files defining `RootReferenceExpression`, `ObjectAccessExpression`, `KeyAccessExpression`, `SqlExpression` and `IEntityType.IsAssignableFrom` are not part of this model. Their behaviour is inferred from how the modelled files use them.
- The ordered translator registry is not part of this model. Each translator's accept/decline behaviour is modelled on its own.
- The SQL evaluator covers only ISDATE, PointN, conversion to bool, addition, columns and constants. Point coordinates are integers rather than floating-point numbers.
- The SQL Server and SQLite service registration, and the specification-test and compliance-test files, are configuration and I/O with no translation logic.
- LikeExpressions.VisitChildren: requires the visitor to return a node for every node it is handed. A visitor that replaces the match or pattern by null would build a LIKE node over a null operand, which the model does not represent. A missing escape character is still handed to the visitor, as the generic `ExpressionVisitor.Visit(null)` is, and may come back as a node.
- CosmosProjections.EntityProjection.BindProperty: the error carries the entity type's name and the property's name. That is what the code's message names. The declaring type, which is the other thing a reader might expect in the message, is not in it.
- CosmosProjections.EntityProjection.BindNavigation: the error likewise carries the navigation's name, not its declaring type.

## Findings

| source | as written | input that shows it | evidently intended | confidence | as-written member | corrected member |
|---|---|---|---|---|---|---|
| src/EFCore.Relational/Query/Pipeline/SqlExpressions/LikeExpression.cs:62 | equality calls `Equals` on this node's escape character without a null check | two distinct LIKE nodes with equal type mappings, equal match and pattern expressions, and no escape character: the comparison throws a null-reference exception | escape characters compared null-safely: both absent or both present and equal, as printing already treats a missing escape character as absent | high, not executed | LikeExpressions.EqualsAsWrittenThrowsWithoutEscape | LikeExpressions.EqualsIsStructural |
