/** The Cosmos projection nodes: an entity projection binds properties and
    navigations against an access path and memoises each binding; an array
    projection marks a collection navigation's projection as "many". */
module CosmosProjections {
  import opened Wrappers
  import opened Nodes
  import opened Metadata

  /** Access paths: the query root, a navigation step into an owned document,
      or any other node that yields an object. */
  datatype AccessExpression =
    | RootReference(id: NodeId, entityType: EntityType, alias: string)
    | ObjectAccess(id: NodeId, navigation: Navigation, accessExpression: AccessExpression)
    | OtherAccess(id: NodeId, description: string)

  /** The access nodes' own Equals: same kind and equal fields, children
      compared with Equals again, identities ignored. */
  predicate AccessEquals(a: AccessExpression, b: AccessExpression)
    decreases a
  {
    match a
    case RootReference(_, t, alias) => b.RootReference? && b.entityType == t && b.alias == alias
    case ObjectAccess(_, n, inner) =>
      b.ObjectAccess? && b.navigation == n && AccessEquals(inner, b.accessExpression)
    case OtherAccess(_, d) => b.OtherAccess? && b.description == d
  }

  function EntityTypeHash(t: EntityType): int
  {
    HashString(t.name)
  }

  /** The access nodes' own GetHashCode, built from the same fields. */
  function AccessHash(a: AccessExpression): int
  {
    match a
    case RootReference(_, t, alias) => Combine(EntityTypeHash(t), HashString(alias))
    case ObjectAccess(_, n, inner) => Combine(HashString(n.name), AccessHash(inner))
    case OtherAccess(_, d) => HashString(d)
  }

  lemma {:induction false} AccessEqualsReflexive(a: AccessExpression)
    ensures AccessEquals(a, a)
  {
    if a.ObjectAccess? {
      AccessEqualsReflexive(a.accessExpression);
    }
  }

  lemma {:induction false} AccessEqualsSymmetric(a: AccessExpression, b: AccessExpression)
    requires AccessEquals(a, b)
    ensures AccessEquals(b, a)
  {
    if a.ObjectAccess? {
      AccessEqualsSymmetric(a.accessExpression, b.accessExpression);
    }
  }

  lemma {:induction false} AccessEqualsTransitive(a: AccessExpression, b: AccessExpression, c: AccessExpression)
    requires AccessEquals(a, b) && AccessEquals(b, c)
    ensures AccessEquals(a, c)
  {
    if a.ObjectAccess? {
      AccessEqualsTransitive(a.accessExpression, b.accessExpression, c.accessExpression);
    }
  }

  /** Equal access paths have equal hash codes. */
  lemma {:induction false} AccessEqualsImpliesEqualHash(a: AccessExpression, b: AccessExpression)
    requires AccessEquals(a, b)
    ensures AccessHash(a) == AccessHash(b)
  {
    if a.ObjectAccess? {
      AccessEqualsImpliesEqualHash(a.accessExpression, b.accessExpression);
    }
  }

  /** The display name a projection takes from its access path: the root's
      alias, or the owned document's property name, else none. */
  function NameOf(access: AccessExpression): (name: Option<string>)
    ensures name.None? <==> access.OtherAccess?
  {
    match access
    case RootReference(_, _, alias) => Some(alias)
    case ObjectAccess(_, n, _) => Some(n.containingPropertyName)
    case OtherAccess(_, _) => None
  }

  /** A bound property: reading `property` from the object at `accessExpression`. */
  datatype KeyAccessExpression = KeyAccessExpression(id: NodeId, property: Property, accessExpression: AccessExpression)

  /** The InvalidOperationException raised for a member of an unrelated type;
      its message names the projection's entity type and the member. */
  datatype BindError =
    | IncorrectProperty(entityType: string, property: string)
    | IncorrectNavigation(entityType: string, navigation: string)

  /** What a navigation binds to: a nested projection, or for a collection
      navigation an array projection wrapping one. */
  datatype NavigationBinding = EntityBinding(entity: EntityProjection) | ArrayBinding(arrayProjection: ArrayProjection)
  {
    function Projection(): EntityProjection
    {
      match this
      case EntityBinding(e) => e
      case ArrayBinding(a) => a.entityExpression
    }
  }

  /** `binding` is what binding navigation `n` on a projection over `access`
      builds: the target type viewed through one more navigation step. */
  predicate Binds(binding: NavigationBinding, n: Navigation, access: AccessExpression)
  {
    var p := binding.Projection();
    && binding.ArrayBinding? == n.isCollection
    && p.EntityType == n.targetType
    && p.AccessExpression.ObjectAccess?
    && p.AccessExpression.navigation == n
    && p.AccessExpression.accessExpression == access
    && p.Name == Some(n.containingPropertyName)
  }

  class EntityProjection {
    const EntityType: EntityType
    const AccessExpression: AccessExpression
    const Name: Option<string>
    var PropertyCache: map<Property, KeyAccessExpression>
    var NavigationCache: map<Navigation, NavigationBinding>

    /** Every cached binding was built over this projection's access path for
        a member of a compatible type. */
    ghost predicate Valid()
      reads this
    {
      && (forall p :: p in PropertyCache ==>
            && PropertyCache[p].property == p
            && PropertyCache[p].accessExpression == AccessExpression
            && Compatible(EntityType, p.declaringEntityType))
      && (forall n :: n in NavigationCache ==>
            Binds(NavigationCache[n], n, AccessExpression) && Compatible(EntityType, n.declaringEntityType))
    }

    constructor (entityType: EntityType, accessExpression: AccessExpression)
      ensures EntityType == entityType && AccessExpression == accessExpression
      ensures Name == NameOf(accessExpression)
      ensures PropertyCache == map[] && NavigationCache == map[]
      ensures Valid()
    {
      EntityType := entityType;
      AccessExpression := accessExpression;
      Name := NameOf(accessExpression);
      PropertyCache := map[];
      NavigationCache := map[];
    }

    function Type(): ClrType
    {
      EntityType.clrType
    }

    /** Visits the access path only: the same projection when the visitor
        returns the same access node, else a new projection of the same entity
        type with no bindings. */
    method VisitChildren(visit: AccessExpression -> AccessExpression) returns (r: EntityProjection)
      ensures visit(AccessExpression) == AccessExpression ==> r == this
      ensures visit(AccessExpression) != AccessExpression ==>
        && fresh(r)
        && r.EntityType == EntityType
        && r.AccessExpression == visit(AccessExpression)
        && r.Name == NameOf(visit(AccessExpression))
        && r.PropertyCache == map[] && r.NavigationCache == map[]
    {
      var accessExpression := visit(AccessExpression);
      if accessExpression != AccessExpression {
        r := new EntityProjection(EntityType, accessExpression);
      } else {
        r := this;
      }
    }

    method BindProperty(property: Property, newId: NodeId) returns (r: Result<KeyAccessExpression, BindError>)
      requires Valid()
      modifies this`PropertyCache
      ensures Valid()
      ensures NavigationCache == old(NavigationCache)
      ensures r.Failure? <==> !Compatible(EntityType, property.declaringEntityType)
      ensures r.Failure? ==>
        r.error == IncorrectProperty(EntityType.name, property.name) && PropertyCache == old(PropertyCache)
      ensures r.Success? ==> r.value.property == property && r.value.accessExpression == AccessExpression
      ensures r.Success? && property in old(PropertyCache) ==>
        r.value == old(PropertyCache)[property] && PropertyCache == old(PropertyCache)
      ensures r.Success? && property !in old(PropertyCache) ==>
        r.value.id == newId && PropertyCache == old(PropertyCache)[property := r.value]
    {
      if !IsAssignableFrom(EntityType, property.declaringEntityType)
        && !IsAssignableFrom(property.declaringEntityType, EntityType)
      {
        return Failure(IncorrectProperty(EntityType.name, property.name));
      }
      var expression: KeyAccessExpression;
      if property in PropertyCache {
        expression := PropertyCache[property];
      } else {
        expression := KeyAccessExpression(newId, property, AccessExpression);
        PropertyCache := PropertyCache[property := expression];
      }
      return Success(expression);
    }

    /** Binds a navigation; the nested projection's access node gets identity
        `newId` and a wrapping array projection `newId + 1`. */
    method BindNavigation(navigation: Navigation, newId: NodeId) returns (r: Result<NavigationBinding, BindError>)
      requires Valid()
      modifies this`NavigationCache
      ensures Valid()
      ensures PropertyCache == old(PropertyCache)
      ensures r.Failure? <==> !Compatible(EntityType, navigation.declaringEntityType)
      ensures r.Failure? ==>
        r.error == IncorrectNavigation(EntityType.name, navigation.name) && NavigationCache == old(NavigationCache)
      ensures r.Success? ==> Binds(r.value, navigation, AccessExpression)
      ensures r.Success? ==> NavigationCache == old(NavigationCache)[navigation := r.value]
      ensures r.Success? && navigation in old(NavigationCache) ==> r.value == old(NavigationCache)[navigation]
      ensures r.Success? && navigation !in old(NavigationCache) ==>
        && fresh(r.value.Projection())
        && r.value.Projection().AccessExpression.id == newId
        && (r.value.ArrayBinding? ==> r.value.arrayProjection.id == newId + 1)
        && r.value.Projection().PropertyCache == map[]
        && r.value.Projection().NavigationCache == map[]
    {
      if !IsAssignableFrom(EntityType, navigation.declaringEntityType)
        && !IsAssignableFrom(navigation.declaringEntityType, EntityType)
      {
        return Failure(IncorrectNavigation(EntityType.name, navigation.name));
      }
      var expression: NavigationBinding;
      if navigation in NavigationCache {
        expression := NavigationCache[navigation];
      } else {
        var entity := new EntityProjection(navigation.targetType, ObjectAccess(newId, navigation, AccessExpression));
        expression := EntityBinding(entity);
        if navigation.isCollection {
          expression := ArrayBinding(ArrayProjection(newId + 1, entity));
        }
        NavigationCache := NavigationCache[navigation := expression];
      }
      return Success(expression);
    }

    /** Equals(object): a non-null projection that is this one, or has the same
        entity type and an equal access path. */
    predicate Equals(other: EntityProjection?)
    {
      other != null
      && (other == this
          || (EntityType == other.EntityType && AccessEquals(AccessExpression, other.AccessExpression)))
    }

    function GetHashCode(): int
    {
      Combine(EntityTypeHash(EntityType), AccessHash(AccessExpression))
    }
  }

  /** Two projections are equal exactly when their entity types are the same
      and their access paths are equal, however they were built. */
  lemma ProjectionEqualsIsStructural(a: EntityProjection, b: EntityProjection)
    ensures a.Equals(b) <==> a.EntityType == b.EntityType && AccessEquals(a.AccessExpression, b.AccessExpression)
  {
    AccessEqualsReflexive(a.AccessExpression);
  }

  lemma ProjectionEqualsIsEquivalence(a: EntityProjection, b: EntityProjection, c: EntityProjection)
    ensures a.Equals(a)
    ensures a.Equals(b) ==> b.Equals(a)
    ensures a.Equals(b) && b.Equals(c) ==> a.Equals(c)
  {
    ProjectionEqualsIsStructural(a, b);
    ProjectionEqualsIsStructural(b, c);
    ProjectionEqualsIsStructural(a, c);
    if a.Equals(b) {
      AccessEqualsSymmetric(a.AccessExpression, b.AccessExpression);
      if b.Equals(c) {
        AccessEqualsTransitive(a.AccessExpression, b.AccessExpression, c.AccessExpression);
      }
    }
  }

  /** Equal projections have equal hash codes. */
  lemma ProjectionEqualsImpliesEqualHash(a: EntityProjection, b: EntityProjection)
    requires a.Equals(b)
    ensures a.GetHashCode() == b.GetHashCode()
  {
    if a != b {
      AccessEqualsImpliesEqualHash(a.AccessExpression, b.AccessExpression);
    }
  }

  /** Binding the same property twice on one projection yields the same node. */
  method BindPropertyTwice(projection: EntityProjection, property: Property, newId1: NodeId, newId2: NodeId)
    returns (first: Result<KeyAccessExpression, BindError>, second: Result<KeyAccessExpression, BindError>)
    requires projection.Valid()
    modifies projection
    ensures first == second
  {
    first := projection.BindProperty(property, newId1);
    second := projection.BindProperty(property, newId2);
  }

  /** Binding the same navigation twice on one projection yields the same node. */
  method BindNavigationTwice(projection: EntityProjection, navigation: Navigation, newId1: NodeId, newId2: NodeId)
    returns (first: Result<NavigationBinding, BindError>, second: Result<NavigationBinding, BindError>)
    requires projection.Valid()
    modifies projection
    ensures first == second
  {
    first := projection.BindNavigation(navigation, newId1);
    second := projection.BindNavigation(navigation, newId2);
  }

  /** A collection navigation wrapped as "many"; the wrapped projection
      describes one element. */
  datatype ArrayProjection = ArrayProjection(id: NodeId, entityExpression: EntityProjection)
  {
    function Type(): (t: ClrType)
      ensures t.Enumerable? && t.element == entityExpression.EntityType.clrType
    {
      Enumerable(entityExpression.Type())
    }

    function Name(): (name: Option<string>)
      ensures name == entityExpression.Name
    {
      entityExpression.Name
    }

    /** The same node when given the wrapped projection itself, else a new
        wrapper (identity `newId`) around the given one. */
    function Update(entity: EntityProjection, newId: NodeId): (r: ArrayProjection)
      ensures r.entityExpression == entity
      ensures r == this <==> entity == entityExpression
      ensures r != this ==> r.id == newId
    {
      if entity != entityExpression then ArrayProjection(newId, entity) else this
    }

    /** Visits the wrapped projection only, then rebuilds through Update. */
    function VisitChildren(visit: EntityProjection -> EntityProjection, newId: NodeId): (r: ArrayProjection)
      ensures r.entityExpression == visit(entityExpression)
      ensures r == this <==> visit(entityExpression) == entityExpression
    {
      Update(visit(entityExpression), newId)
    }

    predicate Equals(other: Option<ArrayProjection>)
    {
      other.Some? && (other.value == this || entityExpression.Equals(other.value.entityExpression))
    }

    function GetHashCode(): int
    {
      entityExpression.GetHashCode()
    }
  }

  /** Array projections compare exactly as the projections they wrap. */
  lemma ArrayEqualsDelegates(a: ArrayProjection, b: ArrayProjection)
    ensures a.Equals(Some(b)) <==> a.entityExpression.Equals(b.entityExpression)
  {
    ProjectionEqualsIsEquivalence(a.entityExpression, b.entityExpression, b.entityExpression);
  }

  /** Equal array projections have equal hash codes. */
  lemma ArrayEqualsImpliesEqualHash(a: ArrayProjection, b: ArrayProjection)
    requires a.Equals(Some(b))
    ensures a.GetHashCode() == b.GetHashCode()
  {
    ArrayEqualsDelegates(a, b);
    ProjectionEqualsImpliesEqualHash(a.entityExpression, b.entityExpression);
  }

  /** A collection navigation binds to a sequence of its target type, named
      after the navigation's containing property. */
  lemma ArrayBindingTypeAndName(b: NavigationBinding, n: Navigation, access: AccessExpression)
    requires Binds(b, n, access) && b.ArrayBinding?
    ensures b.arrayProjection.Type() == Enumerable(n.targetType.clrType)
    ensures b.arrayProjection.Name() == Some(n.containingPropertyName)
  {
    assert b.Projection() == b.arrayProjection.entityExpression;
  }

  /** Visiting with a visitor that changes nothing returns the same node. */
  lemma ArrayVisitWithIdentityIsSameNode(a: ArrayProjection, newId: NodeId)
    ensures a.VisitChildren(e => e, newId) == a
  {
  }
}
