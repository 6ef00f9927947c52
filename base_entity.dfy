/** `BaseEntity`: the fields every persisted record shares, the soft-delete lifecycle, and
    identity equality. Hibernate's stamping, versioning and SQL rewriting are not modelled:
    the audit fields and `version` are plain fields that the lifecycle methods leave alone. */
module EntityBase {
  import opened Wrappers
  import opened Timestamps

  /** `java.util.UUID`: two 64-bit halves; `equals` compares both. */
  datatype Uuid = Uuid(mostSigBits: bv64, leastSigBits: bv64)

  type Int64 = x: int | -0x8000_0000_0000_0000 <= x < 0x8000_0000_0000_0000

  /** The upper and lower 32 bits of a 64-bit word. */
  function High(w: bv64): bv32 { (w >> 32) as bv32 }
  function Low(w: bv64): bv32 { (w & 0xFFFF_FFFF) as bv32 }

  /** `UUID.hashCode()`: the high and low words of `mostSigBits ^ leastSigBits`, xor-ed. */
  function UuidHash(u: Uuid): (h: bv32)
    ensures h == High(u.mostSigBits) ^ Low(u.mostSigBits) ^ High(u.leastSigBits) ^ Low(u.leastSigBits)
  {
    var hilo := u.mostSigBits ^ u.leastSigBits;
    ((hilo >> 32) as bv32) ^ ((hilo & 0xFFFF_FFFF) as bv32)
  }

  /** `Objects.hash(id)`: `31 * 1 + h`, with 0 for null, in 32-bit arithmetic. A Java
      `int` is its two's-complement bit pattern. */
  function ObjectsHash(id: Option<Uuid>): (h: bv32)
    ensures id.None? ==> h == 31
    ensures id.Some? ==> h - 31 == UuidHash(id.value)
  {
    31 + match id case None => 0 case Some(u) => UuidHash(u)
  }

  /** The values of an entity's fields: the abstract state the lifecycle methods change. */
  datatype EntityState = EntityState(
    id: Option<Uuid>,
    createdAt: Option<LocalDateTime>,
    updatedAt: Option<LocalDateTime>,
    createdBy: Option<string>,
    updatedBy: Option<string>,
    isDeleted: Option<bool>,
    softDeletedAt: Option<LocalDateTime>,
    softDeletedBy: Option<string>,
    version: Option<Int64>)

  /** The state of a newly constructed entity: every field null except `isDeleted`, which
      starts as `FALSE`. */
  const FreshState := EntityState(None, None, None, None, None, Some(false), None, None, None)

  /** `isSoftDeleted()`: `Boolean.TRUE.equals(isDeleted)`, so a null flag reads as not deleted. */
  predicate MarkedDeleted(s: EntityState) {
    match s.isDeleted
    case Some(flag) => flag
    case None => false
  }

  /** The identity, audit and version fields agree. */
  predicate SameIdentityAndAudit(s: EntityState, t: EntityState) {
    && s.id == t.id
    && s.createdAt == t.createdAt && s.updatedAt == t.updatedAt
    && s.createdBy == t.createdBy && s.updatedBy == t.updatedBy
    && s.version == t.version
  }

  /** The soft-delete marker is coherent: either set (flag TRUE, time recorded) or fully
      cleared (flag FALSE, time and actor null). */
  predicate MarkerCoherent(s: EntityState) {
    || (s.isDeleted == Some(true) && s.softDeletedAt.Some?)
    || (s.isDeleted == Some(false) && s.softDeletedAt.None? && s.softDeletedBy.None?)
  }

  /** The effect of `softDelete(deletedBy)` at time `now`. */
  function SoftDeleted(s: EntityState, deletedBy: Option<string>, now: LocalDateTime): (t: EntityState)
    ensures t.isDeleted == Some(true) && t.softDeletedAt == Some(now) && t.softDeletedBy == deletedBy
    ensures SameIdentityAndAudit(s, t)
    ensures MarkedDeleted(t) && MarkerCoherent(t)
  {
    s.(isDeleted := Some(true), softDeletedAt := Some(now), softDeletedBy := deletedBy)
  }

  /** The effect of `restore()`. */
  function Restored(s: EntityState): (t: EntityState)
    ensures t.isDeleted == Some(false) && t.softDeletedAt.None? && t.softDeletedBy.None?
    ensures SameIdentityAndAudit(s, t)
    ensures !MarkedDeleted(t) && MarkerCoherent(t)
  {
    s.(isDeleted := Some(false), softDeletedAt := None, softDeletedBy := None)
  }

  lemma RestoreIsIdempotent(s: EntityState)
    ensures Restored(Restored(s)) == Restored(s)
  {
  }

  /** Restoring an entity that is at rest (flag FALSE, time and actor null) changes nothing. */
  lemma RestoreAtRestIsNoOp(s: EntityState)
    requires s.isDeleted == Some(false) && s.softDeletedAt.None? && s.softDeletedBy.None?
    ensures Restored(s) == s
  {
  }

  /** A second soft delete only overwrites the time and the actor: the result is as if the
      first had not happened. */
  lemma SoftDeleteOverwrites(s: EntityState, by1: Option<string>, at1: LocalDateTime,
                             by2: Option<string>, at2: LocalDateTime)
    ensures SoftDeleted(SoftDeleted(s, by1, at1), by2, at2) == SoftDeleted(s, by2, at2)
    ensures SoftDeleted(SoftDeleted(s, by1, at1), by2, at2).isDeleted == Some(true)
  {
  }

  /** Restoring undoes a soft delete completely. */
  lemma RestoreUndoesSoftDelete(s: EntityState, deletedBy: Option<string>, now: LocalDateTime)
    ensures Restored(SoftDeleted(s, deletedBy, now)) == Restored(s)
  {
  }

  class BaseEntity {
    /** `getClass()`: the concrete subclass this entity is an instance of. */
    const runtimeClass: string

    var id: Option<Uuid>
    var createdAt: Option<LocalDateTime>
    var updatedAt: Option<LocalDateTime>
    var createdBy: Option<string>
    var updatedBy: Option<string>
    var isDeleted: Option<bool>
    var softDeletedAt: Option<LocalDateTime>
    var softDeletedBy: Option<string>
    var version: Option<Int64>

    function State(): EntityState
      reads this
    {
      EntityState(id, createdAt, updatedAt, createdBy, updatedBy, isDeleted, softDeletedAt, softDeletedBy, version)
    }

    /** The no-argument constructor. */
    constructor (runtimeClass: string)
      ensures this.runtimeClass == runtimeClass
      ensures State() == FreshState
    {
      this.runtimeClass := runtimeClass;
      id, createdAt, updatedAt, createdBy, updatedBy := None, None, None, None, None;
      isDeleted, softDeletedAt, softDeletedBy, version := Some(false), None, None, None;
    }

    /** The protected all-arguments constructor: every field as given, the flag included. */
    constructor AllArgs(runtimeClass: string, s: EntityState)
      ensures this.runtimeClass == runtimeClass
      ensures State() == s
    {
      this.runtimeClass := runtimeClass;
      id, createdAt, updatedAt, createdBy, updatedBy := s.id, s.createdAt, s.updatedAt, s.createdBy, s.updatedBy;
      isDeleted, softDeletedAt, softDeletedBy, version := s.isDeleted, s.softDeletedAt, s.softDeletedBy, s.version;
    }

    /** `softDelete(deletedBy)`, with the clock read `LocalDateTime.now()` as `now`. */
    method SoftDelete(deletedBy: Option<string>, now: LocalDateTime)
      modifies this
      ensures isDeleted == Some(true) && softDeletedAt == Some(now) && softDeletedBy == deletedBy
      ensures State() == SoftDeleted(old(State()), deletedBy, now)
    {
      isDeleted := Some(true);
      softDeletedAt := Some(now);
      softDeletedBy := deletedBy;
    }

    /** `restore()`. */
    method Restore()
      modifies this
      ensures isDeleted == Some(false) && softDeletedAt.None? && softDeletedBy.None?
      ensures State() == Restored(old(State()))
    {
      isDeleted := Some(false);
      softDeletedAt := None;
      softDeletedBy := None;
    }

    /** `isSoftDeleted()`: true only when the flag is TRUE; a null flag reads as false. */
    function IsSoftDeleted(): (deleted: bool)
      reads this
      ensures deleted <==> isDeleted == Some(true)
      ensures deleted == MarkedDeleted(State())
    {
      Some(true) == isDeleted
    }

    /** `equals(obj)`: the same object, or an entity of the same runtime class with an equal
        id, two null ids counting as equal. An object that is no entity has another runtime
        class. */
    function Equals(obj: object?): (equal: bool)
      reads this, obj
      ensures obj == this ==> equal
      ensures (obj == null || !(obj is BaseEntity)) ==> !equal
      ensures obj is BaseEntity && (obj as BaseEntity).runtimeClass != runtimeClass ==> !equal
      ensures (obj is BaseEntity && (obj as BaseEntity).runtimeClass == runtimeClass)
              ==> (equal <==> id == (obj as BaseEntity).id)
    {
      if this == obj then true
      else if obj == null || !(obj is BaseEntity) then false
      else
        var that := obj as BaseEntity;
        runtimeClass == that.runtimeClass && id == that.id
    }

    /** `hashCode()`: `Objects.hash(id)`, a function of the id alone. */
    function HashCode(): (h: bv32)
      reads this
      ensures h == ObjectsHash(id)
    {
      ObjectsHash(id)
    }
  }

  /** Two entities of the same class are equal exactly when their ids are, whatever their
      other fields hold. */
  lemma EqualityIsIdentity(a: BaseEntity, b: BaseEntity)
    requires a.runtimeClass == b.runtimeClass
    ensures a.Equals(b) <==> a.id == b.id
  {
  }

  lemma EqualsIsSymmetric(a: BaseEntity, b: BaseEntity)
    ensures a.Equals(b) == b.Equals(a)
  {
  }

  lemma EqualsIsTransitive(a: BaseEntity, b: BaseEntity, c: BaseEntity)
    requires a.Equals(b) && b.Equals(c)
    ensures a.Equals(c)
  {
  }

  /** Equal entities have equal hash codes. */
  lemma EqualEntitiesHashAlike(a: BaseEntity, b: BaseEntity)
    requires a.Equals(b)
    ensures a.HashCode() == b.HashCode()
  {
  }
}
