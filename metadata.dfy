/** Read-only entity metadata consumed by the projections: entity types with an
    optional base type, properties and navigations with their declaring type. */
module Metadata {
  import opened Wrappers

  /** CLR types the translated nodes are typed with. */
  datatype ClrType =
    | BoolType
    | IntType
    | StringType
    | PointType
    | LineStringType
    | DbFunctionsType
    | EntityClrType(name: string)
    | Enumerable(element: ClrType)

  /** An entity type; the chain of base types is finite by construction. */
  datatype EntityType = EntityType(name: string, clrType: ClrType, baseType: Option<EntityType>)

  datatype Property = Property(name: string, declaringEntityType: EntityType, clrType: ClrType)

  /** A navigation; `containingPropertyName` is the key under which the target
      document is stored inside its owner's document. */
  datatype Navigation = Navigation(
    name: string,
    declaringEntityType: EntityType,
    targetType: EntityType,
    isCollection: bool,
    containingPropertyName: string)

  /** `entityType.IsAssignableFrom(derivedType)`: walking the base-type chain
      of `derivedType` reaches `entityType`. */
  predicate IsAssignableFrom(entityType: EntityType, derivedType: EntityType)
    decreases derivedType
  {
    derivedType == entityType
    || (derivedType.baseType.Some? && IsAssignableFrom(entityType, derivedType.baseType.value))
  }

  /** The polymorphism check guarding property and navigation binding: one of
      the two types is assignable from the other. */
  predicate Compatible(entityType: EntityType, declaringType: EntityType)
  {
    IsAssignableFrom(entityType, declaringType) || IsAssignableFrom(declaringType, entityType)
  }

  /** Number of base types above `t`. */
  function Depth(t: EntityType): nat
  {
    match t.baseType
    case None => 0
    case Some(b) => 1 + Depth(b)
  }

  lemma {:induction false} IsAssignableFromTransitive(a: EntityType, b: EntityType, c: EntityType)
    requires IsAssignableFrom(a, b) && IsAssignableFrom(b, c)
    ensures IsAssignableFrom(a, c)
    decreases c
  {
    if c != b {
      IsAssignableFromTransitive(a, b, c.baseType.value);
    }
  }

  /** A type is only assignable from types at least as deep as itself, and from
      one of the same depth only if it is that type. */
  lemma {:induction false} AssignableDepth(a: EntityType, b: EntityType)
    requires IsAssignableFrom(a, b)
    ensures Depth(a) <= Depth(b)
    ensures Depth(a) == Depth(b) ==> a == b
    decreases b
  {
    if b != a {
      AssignableDepth(a, b.baseType.value);
    }
  }

  lemma IsAssignableFromAntisymmetric(a: EntityType, b: EntityType)
    requires IsAssignableFrom(a, b) && IsAssignableFrom(b, a)
    ensures a == b
  {
    AssignableDepth(a, b);
    AssignableDepth(b, a);
  }

  /** Two distinct types derived from the same base type are unrelated, so a
      member declared on one cannot be bound on a projection of the other. */
  lemma SiblingsAreIncompatible(a: EntityType, b: EntityType)
    requires a.baseType.Some? && a.baseType == b.baseType && a != b
    ensures !Compatible(a, b)
  {
    if IsAssignableFrom(a, b) {
      if b != a {
        AssignableDepth(a, b.baseType.value);
      }
    }
    if IsAssignableFrom(b, a) {
      if a != b {
        AssignableDepth(b, a.baseType.value);
      }
    }
  }
}
