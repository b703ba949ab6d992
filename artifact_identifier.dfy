/**
 * `OpaqueComponentArtifactIdentifier`: an artifact identifier known only by its
 * display name. Equality and hash code depend on the display name alone (and,
 * for equality, on both objects having the same runtime class).
 */
module ArtifactIdentifiers {
  import opened Jvm

  const IdentifierClass: ClassName := "org.gradle.internal.component.local.model.OpaqueComponentArtifactIdentifier"

  const TwoToThe31: int := 0x8000_0000
  const TwoToThe32: int := 0x1_0000_0000

  /** `OpaqueComponentIdentifier`, built from a display name. */
  datatype OpaqueComponentIdentifier = OpaqueComponentIdentifier(displayName: string)

  /**
   * `String.hashCode` before the final reinterpretation as a signed `int`:
   * `h = 31 * h + c` over the characters, modulo 2^32.
   */
  function StringHashBits(s: string): (h: int)
    ensures 0 <= h < TwoToThe32
  {
    if s == [] then 0
    else (31 * StringHashBits(s[..|s| - 1]) + s[|s| - 1] as int) % TwoToThe32
  }

  /** `String.hashCode`: the 32-bit pattern read as a two's-complement `int`. */
  function StringHashCode(s: string): (h: int)
    ensures -TwoToThe31 <= h < TwoToThe31
    ensures h % TwoToThe32 == StringHashBits(s)
  {
    var bits := StringHashBits(s);
    if bits >= TwoToThe31 then bits - TwoToThe32 else bits
  }

  /**
   * An identifier object: its runtime class (`IdentifierClass` itself, or a
   * subclass) and its one final field.
   */
  datatype OpaqueComponentArtifactIdentifier = OpaqueComponentArtifactIdentifier(runtimeClass: ClassName, displayName: string)
  {
    /** `getDisplayName()`. */
    function GetDisplayName(): string
    {
      displayName
    }

    /** `toString()`: the display name, the same value `getDisplayName()` returns. */
    function ToString(): (s: string)
      ensures s == GetDisplayName()
    {
      displayName
    }

    /** `getComponentIdentifier()`: a component identifier built from the same display name. */
    function GetComponentIdentifier(): (c: OpaqueComponentIdentifier)
      ensures c.displayName == GetDisplayName()
    {
      OpaqueComponentIdentifier(displayName)
    }

    /**
     * `equals(obj)`: true for this very object; false for null and for an
     * object of another runtime class; otherwise whether the display names are
     * equal. Altogether: true exactly for an identifier of the same runtime
     * class and the same display name.
     */
    function Equals(obj: JavaValue): (r: bool)
      ensures r <==> obj.Identifier? && obj.id.runtimeClass == runtimeClass && obj.id.displayName == displayName
    {
      if obj == Identifier(this) then true
      else if obj.Null? || !obj.Identifier? || obj.id.runtimeClass != runtimeClass then false
      else displayName == obj.id.displayName
    }

    /** `hashCode()`: the display name's hash code. */
    function HashCode(): (h: int)
      ensures -TwoToThe31 <= h < TwoToThe31
      ensures h == StringHashCode(GetDisplayName())
    {
      StringHashCode(displayName)
    }
  }

  /**
   * What `equals` may be handed: null, an identifier (of this class or a
   * subclass), or some other object. Reference identity is value equality
   * here; two references to one object hold the same fields, so the identity
   * shortcut in `equals` never gives a different answer.
   */
  datatype JavaValue = Null | Identifier(id: OpaqueComponentArtifactIdentifier) | OtherObject(cls: ClassName)

  /** `new OpaqueComponentArtifactIdentifier(displayName)`. */
  function New(displayName: string): (id: OpaqueComponentArtifactIdentifier)
    ensures id.runtimeClass == IdentifierClass
    ensures id.GetDisplayName() == displayName && id.ToString() == displayName
  {
    OpaqueComponentArtifactIdentifier(IdentifierClass, displayName)
  }

  /** `equals` is reflexive. */
  lemma EqualsReflexive(x: OpaqueComponentArtifactIdentifier)
    ensures x.Equals(Identifier(x))
  {
  }

  /** `equals` is false for null and for objects that are not identifiers. */
  lemma EqualsNullOrForeign(x: OpaqueComponentArtifactIdentifier, cls: ClassName)
    ensures !x.Equals(Null) && !x.Equals(OtherObject(cls))
  {
  }

  /** Two identifiers built by the constructor are equal exactly when their display names are. */
  lemma NewEqualsIffSameName(a: string, b: string)
    ensures New(a).Equals(Identifier(New(b))) <==> a == b
  {
  }

  /** `equals` is symmetric. */
  lemma EqualsSymmetric(x: OpaqueComponentArtifactIdentifier, y: OpaqueComponentArtifactIdentifier)
    ensures x.Equals(Identifier(y)) == y.Equals(Identifier(x))
  {
  }

  /** `equals` is transitive. */
  lemma EqualsTransitive(x: OpaqueComponentArtifactIdentifier, y: OpaqueComponentArtifactIdentifier, z: OpaqueComponentArtifactIdentifier)
    requires x.Equals(Identifier(y)) && y.Equals(Identifier(z))
    ensures x.Equals(Identifier(z))
  {
  }

  /** Equal identifiers have equal hash codes. */
  lemma EqualsImpliesSameHashCode(x: OpaqueComponentArtifactIdentifier, y: OpaqueComponentArtifactIdentifier)
    requires x.Equals(Identifier(y))
    ensures x.HashCode() == y.HashCode()
  {
  }

  /** The component identifiers of equal artifact identifiers are equal. */
  lemma EqualsImpliesSameComponent(x: OpaqueComponentArtifactIdentifier, y: OpaqueComponentArtifactIdentifier)
    requires x.Equals(Identifier(y))
    ensures x.GetComponentIdentifier() == y.GetComponentIdentifier()
  {
  }
}
