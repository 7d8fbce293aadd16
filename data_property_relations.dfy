/**
 * `DataPropertyRelations`: an individual, a data property and the set of
 * literals the individual has for it. Equality looks at the property and
 * the individual only.
 */
module DataPropertyRelations {
  import opened Wrappers
  import opened JavaHash
  import opened Owl

  /** `equals` on the fields it compares: property and individual, whatever the values. */
  predicate RelationsEqual(prop1: Option<Entity>, ind1: Option<Entity>, prop2: Option<Entity>, ind2: Option<Entity>) {
    prop1 == prop2 && ind1 == ind2
  }

  /** `hashCode` as written: Guava's `Objects.hashCode(prop, ind, value)`, so the values are hashed too. */
  ghost function HashAsWritten(prop: Option<Entity>, ind: Option<Entity>, value: set<Literal>): (h: int)
    ensures IsInt32(h)
  {
    CombineHashes([NullableEntityHash(prop), NullableEntityHash(ind), LiteralSetHash(value)])
  }

  /** `hashCode` over the fields `equals` compares, `Objects.hashCode(prop, ind)`. */
  function Hash(prop: Option<Entity>, ind: Option<Entity>): (h: int)
    ensures IsInt32(h)
  {
    CombineHashes([NullableEntityHash(prop), NullableEntityHash(ind)])
  }

  /** Wrapping two `int` results that differ by less than 2^32 gives different values. */
  lemma WrapSeparates(y: int, d: int)
    requires 0 < d < TWO_32
    ensures Wrap(y) != Wrap(y + d)
  {
    var m := y % TWO_32;
    var n := (y + d) % TWO_32;
    assert y == (y / TWO_32) * TWO_32 + m;
    if m + d < TWO_32 {
      assert y + d == (y / TWO_32) * TWO_32 + (m + d);
      assert n == m + d;
    } else {
      assert y + d == (y / TWO_32 + 1) * TWO_32 + (m + d - TWO_32);
      assert n == m + d - TWO_32;
    }
  }

  /**
   * The hash as written breaks the `hashCode` contract: two relations that
   * `equals` calls equal, one with no values and one holding the literal
   * `"a"`, hash differently.
   */
  lemma HashAsWrittenBreaksEquals(prop: Option<Entity>, ind: Option<Entity>)
    ensures RelationsEqual(prop, ind, prop, ind)
    ensures HashAsWritten(prop, ind, {}) != HashAsWritten(prop, ind, {Literal("a", "xsd:string")})
  {
    var l := Literal("a", "xsd:string");
    assert StringHash("a") == 97 by {
      assert "a"[..0] == "";
    }
    assert LiteralSetHash({l}) == 97 by {
      var x :| x in {l} && LiteralSetHash({l}) == Wrap(LiteralHash(x) + LiteralSetHash({l} - {x}));
      assert x == l && {l} - {x} == {};
    }
    var base := CombineHashes([NullableEntityHash(prop), NullableEntityHash(ind)]);
    var hs0 := [NullableEntityHash(prop), NullableEntityHash(ind), 0];
    var hs1 := [NullableEntityHash(prop), NullableEntityHash(ind), 97];
    assert hs0[..2] == hs1[..2] == [NullableEntityHash(prop), NullableEntityHash(ind)];
    assert CombineHashes(hs0) == Wrap(31 * base + 0);
    assert CombineHashes(hs1) == Wrap(31 * base + 97);
    WrapSeparates(31 * base, 97);
  }

  /** With the hash over property and individual, relations `equals` calls equal hash alike. */
  lemma HashAgreesWithEquals(prop1: Option<Entity>, ind1: Option<Entity>, prop2: Option<Entity>, ind2: Option<Entity>)
    requires RelationsEqual(prop1, ind1, prop2, ind2)
    ensures Hash(prop1, ind1) == Hash(prop2, ind2)
  {
  }

  class DataPropertyRelation {
    var prop: Option<Entity>
    var ind: Option<Entity>
    var value: set<Literal>

    /** The full constructor. */
    constructor (ind: Entity, prop: Entity, value: set<Literal>)
      ensures this.ind == Some(ind) && this.prop == Some(prop) && this.value == value
    {
      this.prop := Some(prop);
      this.ind := Some(ind);
      this.value := value;
    }

    /**
     * The constructor by names: the property is named by the `ind` argument
     * and the individual by the `prop` argument, as the source has them; the
     * values, already turned into literals by the ontology, are added one by one.
     */
    constructor FromNames(ind: string, prop: string, literals: seq<Literal>)
      ensures this.prop == Some(DataPropertyNamed(ind)) && this.ind == Some(IndividualNamed(prop))
      ensures value == set i | 0 <= i < |literals| :: literals[i]
    {
      this.prop := Some(DataPropertyNamed(ind));
      this.ind := Some(IndividualNamed(prop));
      var added: set<Literal> := {};
      var k := 0;
      while k < |literals|
        invariant 0 <= k <= |literals|
        invariant added == set i | 0 <= i < k :: literals[i]
      {
        added := added + {literals[k]};
        k := k + 1;
      }
      this.value := added;
    }

    /** The constructor from an individual alone. */
    constructor OfIndividual(ind: Entity)
      ensures this.ind == Some(ind) && prop.None? && value == {}
    {
      this.ind := Some(ind);
      this.prop := None;
      this.value := {};
    }

    /** The constructor from one name: it sets the property, named by the `ind` argument, and no individual. */
    constructor FromPropertyName(ind: string)
      ensures prop == Some(DataPropertyNamed(ind)) && this.ind.None? && value == {}
    {
      this.prop := Some(DataPropertyNamed(ind));
      this.ind := None;
      this.value := {};
    }

    /** The constructor from an individual and a property. */
    constructor OfPair(ind: Entity, prop: Entity)
      ensures this.ind == Some(ind) && this.prop == Some(prop) && value == {}
    {
      this.ind := Some(ind);
      this.prop := Some(prop);
      this.value := {};
    }

    /** The constructor from two names, swapped like `FromNames`. */
    constructor FromPairNames(ind: string, prop: string)
      ensures this.prop == Some(DataPropertyNamed(ind)) && this.ind == Some(IndividualNamed(prop)) && value == {}
    {
      this.prop := Some(DataPropertyNamed(ind));
      this.ind := Some(IndividualNamed(prop));
      this.value := {};
    }

    method SetProperty(p: Option<Entity>)
      modifies this
      ensures prop == p && ind == old(ind) && value == old(value)
    {
      prop := p;
    }

    method SetIndividual(i: Option<Entity>)
      modifies this
      ensures ind == i && prop == old(prop) && value == old(value)
    {
      ind := i;
    }

    /** `setValues(Set)`: the given set becomes the values. */
    method SetValues(v: set<Literal>)
      modifies this
      ensures value == v && prop == old(prop) && ind == old(ind)
    {
      value := v;
    }

    /** `setValues(OWLLiteral)`: the values are cleared and the literal added, leaving exactly that literal. */
    method SetValue(l: Literal)
      modifies this
      ensures value == {l} && prop == old(prop) && ind == old(ind)
    {
      value := {};
      value := value + {l};
    }

    predicate Equals(that: DataPropertyRelation)
      reads this, that
    {
      this == that || RelationsEqual(prop, ind, that.prop, that.ind)
    }

    /** `hashCode` as the source writes it. */
    ghost function HashCodeAsWritten(): (h: int)
      reads this
      ensures IsInt32(h)
    {
      HashAsWritten(prop, ind, value)
    }

    /** `hashCode` over the fields `equals` compares. */
    function HashCode(): (h: int)
      reads this
      ensures IsInt32(h)
    {
      Hash(prop, ind)
    }
  }

  /** `equals` ignores the values, and the corrected hash respects `equals`. */
  lemma RelationEqualsMeans(a: DataPropertyRelation, b: DataPropertyRelation)
    ensures a.Equals(b) <==> a == b || (a.prop == b.prop && a.ind == b.ind)
    ensures a.Equals(b) ==> b.Equals(a) && a.HashCode() == b.HashCode()
  {
    if a.Equals(b) && a != b {
      HashAgreesWithEquals(a.prop, a.ind, b.prop, b.ind);
    }
  }
}
