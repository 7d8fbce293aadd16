/**
 * `ObjectPropertyRelations`: an individual, an object property and the set
 * of individuals it relates to. Equality and hash look at the property and
 * the individual only.
 */
module ObjectPropertyRelations {
  import opened Wrappers
  import opened JavaHash
  import opened Owl

  class ObjectPropertyRelation {
    var prop: Option<Entity>
    var ind: Option<Entity>
    var value: set<Entity>

    /** The full constructor. */
    constructor (ind: Entity, prop: Entity, value: set<Entity>)
      ensures this.ind == Some(ind) && this.prop == Some(prop) && this.value == value
    {
      this.prop := Some(prop);
      this.ind := Some(ind);
      this.value := value;
    }

    /**
     * The constructor by names: the property is named by the `ind` argument
     * and the individual by the `prop` argument, as the source has them; each
     * value name becomes the individual of that name.
     */
    constructor FromNames(ind: string, prop: string, values: seq<string>)
      ensures this.prop == Some(ObjectPropertyNamed(ind)) && this.ind == Some(IndividualNamed(prop))
      ensures value == set i | 0 <= i < |values| :: IndividualNamed(values[i])
    {
      this.prop := Some(ObjectPropertyNamed(ind));
      this.ind := Some(IndividualNamed(prop));
      var added: set<Entity> := {};
      var k := 0;
      while k < |values|
        invariant 0 <= k <= |values|
        invariant added == set i | 0 <= i < k :: IndividualNamed(values[i])
      {
        added := added + {IndividualNamed(values[k])};
        k := k + 1;
      }
      this.value := added;
    }

    /** The constructor from an individual alone. */
    constructor OfIndividual(ind: Entity)
      ensures this.ind == Some(ind) && prop.None? && value == {}
    {
      this.ind := Some(ind);
      this.prop := None;
      this.value := {};
    }

    /** The constructor from one name: it sets the property, named by the `ind` argument, and no individual. */
    constructor FromPropertyName(ind: string)
      ensures prop == Some(ObjectPropertyNamed(ind)) && this.ind.None? && value == {}
    {
      this.prop := Some(ObjectPropertyNamed(ind));
      this.ind := None;
      this.value := {};
    }

    /** The constructor from an individual and a property. */
    constructor OfPair(ind: Entity, prop: Entity)
      ensures this.ind == Some(ind) && this.prop == Some(prop) && value == {}
    {
      this.ind := Some(ind);
      this.prop := Some(prop);
      this.value := {};
    }

    /** The constructor from two names, swapped like `FromNames`. */
    constructor FromPairNames(ind: string, prop: string)
      ensures this.prop == Some(ObjectPropertyNamed(ind)) && this.ind == Some(IndividualNamed(prop)) && value == {}
    {
      this.prop := Some(ObjectPropertyNamed(ind));
      this.ind := Some(IndividualNamed(prop));
      this.value := {};
    }

    method SetProperty(p: Option<Entity>)
      modifies this
      ensures prop == p && ind == old(ind) && value == old(value)
    {
      prop := p;
    }

    method SetIndividual(i: Option<Entity>)
      modifies this
      ensures ind == i && prop == old(prop) && value == old(value)
    {
      ind := i;
    }

    /** `setValue`: the given set replaces the values. */
    method SetValue(v: set<Entity>)
      modifies this
      ensures value == v && prop == old(prop) && ind == old(ind)
    {
      value := v;
    }

    predicate Equals(that: ObjectPropertyRelation)
      reads this, that
    {
      this == that || (prop == that.prop && ind == that.ind)
    }

    /** `hashCode`: Guava's `Objects.hashCode(prop, ind)`. */
    function HashCode(): (h: int)
      reads this
      ensures IsInt32(h)
    {
      CombineHashes([NullableEntityHash(prop), NullableEntityHash(ind)])
    }
  }

  /** `equals` is an equivalence that ignores the values, and equal relations hash alike. */
  lemma RelationEqualsHash(a: ObjectPropertyRelation, b: ObjectPropertyRelation, c: ObjectPropertyRelation)
    ensures a.Equals(a)
    ensures a.Equals(b) ==> b.Equals(a)
    ensures a.Equals(b) && b.Equals(c) ==> a.Equals(c)
    ensures a.Equals(b) ==> a.HashCode() == b.HashCode()
  {
  }
}
