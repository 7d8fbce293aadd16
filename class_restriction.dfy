/**
 * `ClassRestriction`: the description of one restriction in the definition
 * of an OWL class. It is bound at construction to a data or an object
 * property; the setters for the other kind of property do nothing, and each
 * setter records the restriction tag of `OWLManipulator`.
 */
module ClassRestrictions {
  import opened Wrappers
  import opened JavaHash
  import opened Owl
  import opened OwlManipulator

  /** The name `getExpressionTypeName` gives a tag. */
  function ExpressionTypeName(tag: int): (r: string)
    ensures r == "<null>" <==> !(RESTRICTION_ONLY <= tag <= RESTRICTION_MAX)
  {
    if tag == RESTRICTION_SOME then "<some>"
    else if tag == RESTRICTION_ONLY then "<only>"
    else if tag == RESTRICTION_MIN then "<min>"
    else if tag == RESTRICTION_EXACT then "<exact>"
    else if tag == RESTRICTION_MAX then "<max>"
    else "<null>"
  }

  /** The five tags have five different names. */
  lemma ExpressionTypeNameInjective(t1: int, t2: int)
    requires RESTRICTION_ONLY <= t1 <= RESTRICTION_MAX && RESTRICTION_ONLY <= t2 <= RESTRICTION_MAX
    ensures ExpressionTypeName(t1) == ExpressionTypeName(t2) <==> t1 == t2
  {
    var names := ["<only>", "<some>", "<min>", "<exact>", "<max>"];
    assert ExpressionTypeName(t1) == names[t1 - 1];
    assert ExpressionTypeName(t2) == names[t2 - 1];
    assert names[0][1] == 'o' && names[1][1] == 's' && names[2][1] == 'm' && names[3][1] == 'e';
    assert names[2][2] == 'i' && names[4][1] == 'm' && names[4][2] == 'a';
  }

  class ClassRestriction {
    const definitionOf: Entity
    const property: Entity
    const isDataProperty: bool
    var expressionType: int
    var cardinality: int
    var obj: Option<Entity>
    var data: Option<Entity>

    /**
     * The tag is 0 (nothing set yet) or one of the five, the cardinality is
     * a Java `int`, and only the filler of the property's own kind is set.
     */
    ghost predicate Valid()
      reads this
    {
      && 0 <= expressionType <= RESTRICTION_MAX
      && IsInt32(cardinality)
      && (isDataProperty ==> obj.None?)
      && (!isDataProperty ==> data.None?)
    }

    /** The constructor over a data property. */
    constructor OverDataProperty(subject: Entity, property: Entity)
      ensures Valid()
      ensures definitionOf == subject && this.property == property && isDataProperty
      ensures expressionType == 0 && cardinality == 0 && obj.None? && data.None?
    {
      definitionOf := subject;
      this.property := property;
      isDataProperty := true;
      expressionType := 0;
      cardinality := 0;
      obj := None;
      data := None;
    }

    /** The constructor over an object property. */
    constructor OverObjectProperty(subject: Entity, property: Entity)
      ensures Valid()
      ensures definitionOf == subject && this.property == property && !isDataProperty
      ensures expressionType == 0 && cardinality == 0 && obj.None? && data.None?
    {
      definitionOf := subject;
      this.property := property;
      isDataProperty := false;
      expressionType := 0;
      cardinality := 0;
      obj := None;
      data := None;
    }

    /**
     * The data setters: on a data property the tag and the data range are
     * stored, and the cardinality when one is given; otherwise nothing changes.
     */
    method SetDataRestriction(tag: int, card: Option<int>, dataType: Option<Entity>)
      requires Valid()
      requires RESTRICTION_ONLY <= tag <= RESTRICTION_MAX
      requires card.Some? <==> tag >= RESTRICTION_MIN
      requires card.Some? ==> IsInt32(card.value)
      modifies this
      ensures Valid()
      ensures isDataProperty ==>
        && expressionType == tag && data == dataType
        && cardinality == (if card.Some? then card.value else old(cardinality))
        && obj == old(obj)
      ensures !isDataProperty ==>
        && expressionType == old(expressionType) && cardinality == old(cardinality)
        && obj == old(obj) && data == old(data)
    {
      if isDataProperty {
        expressionType := tag;
        if card.Some? {
          cardinality := card.value;
        }
        data := dataType;
      }
    }

    /** The object setters: the mirror image of `SetDataRestriction`. */
    method SetObjectRestriction(tag: int, card: Option<int>, objectClass: Option<Entity>)
      requires Valid()
      requires RESTRICTION_ONLY <= tag <= RESTRICTION_MAX
      requires card.Some? <==> tag >= RESTRICTION_MIN
      requires card.Some? ==> IsInt32(card.value)
      modifies this
      ensures Valid()
      ensures !isDataProperty ==>
        && expressionType == tag && obj == objectClass
        && cardinality == (if card.Some? then card.value else old(cardinality))
        && data == old(data)
      ensures isDataProperty ==>
        && expressionType == old(expressionType) && cardinality == old(cardinality)
        && obj == old(obj) && data == old(data)
    {
      if !isDataProperty {
        expressionType := tag;
        if card.Some? {
          cardinality := card.value;
        }
        obj := objectClass;
      }
    }

    method SetDataOnlyRestriction(dataType: Option<Entity>)
      requires Valid()
      modifies this
      ensures Valid()
      ensures isDataProperty ==> expressionType == RESTRICTION_ONLY && data == dataType && cardinality == old(cardinality)
      ensures !isDataProperty ==> expressionType == old(expressionType) && data == old(data) && cardinality == old(cardinality)
      ensures obj == old(obj)
    {
      SetDataRestriction(RESTRICTION_ONLY, None, dataType);
    }

    method SetDataSomeRestriction(dataType: Option<Entity>)
      requires Valid()
      modifies this
      ensures Valid()
      ensures isDataProperty ==> expressionType == RESTRICTION_SOME && data == dataType && cardinality == old(cardinality)
      ensures !isDataProperty ==> expressionType == old(expressionType) && data == old(data) && cardinality == old(cardinality)
      ensures obj == old(obj)
    {
      SetDataRestriction(RESTRICTION_SOME, None, dataType);
    }

    method SetDataMinRestriction(card: int, dataType: Option<Entity>)
      requires Valid() && IsInt32(card)
      modifies this
      ensures Valid()
      ensures isDataProperty ==> expressionType == RESTRICTION_MIN && data == dataType && cardinality == card
      ensures !isDataProperty ==> expressionType == old(expressionType) && data == old(data) && cardinality == old(cardinality)
      ensures obj == old(obj)
    {
      SetDataRestriction(RESTRICTION_MIN, Some(card), dataType);
    }

    method SetDataMaxRestriction(card: int, dataType: Option<Entity>)
      requires Valid() && IsInt32(card)
      modifies this
      ensures Valid()
      ensures isDataProperty ==> expressionType == RESTRICTION_MAX && data == dataType && cardinality == card
      ensures !isDataProperty ==> expressionType == old(expressionType) && data == old(data) && cardinality == old(cardinality)
      ensures obj == old(obj)
    {
      SetDataRestriction(RESTRICTION_MAX, Some(card), dataType);
    }

    method SetDataExactRestriction(card: int, dataType: Option<Entity>)
      requires Valid() && IsInt32(card)
      modifies this
      ensures Valid()
      ensures isDataProperty ==> expressionType == RESTRICTION_EXACT && data == dataType && cardinality == card
      ensures !isDataProperty ==> expressionType == old(expressionType) && data == old(data) && cardinality == old(cardinality)
      ensures obj == old(obj)
    {
      SetDataRestriction(RESTRICTION_EXACT, Some(card), dataType);
    }

    method SetObjectOnlyRestriction(objectClass: Option<Entity>)
      requires Valid()
      modifies this
      ensures Valid()
      ensures !isDataProperty ==> expressionType == RESTRICTION_ONLY && obj == objectClass && cardinality == old(cardinality)
      ensures isDataProperty ==> expressionType == old(expressionType) && obj == old(obj) && cardinality == old(cardinality)
      ensures data == old(data)
    {
      SetObjectRestriction(RESTRICTION_ONLY, None, objectClass);
    }

    method SetObjectSomeRestriction(objectClass: Option<Entity>)
      requires Valid()
      modifies this
      ensures Valid()
      ensures !isDataProperty ==> expressionType == RESTRICTION_SOME && obj == objectClass && cardinality == old(cardinality)
      ensures isDataProperty ==> expressionType == old(expressionType) && obj == old(obj) && cardinality == old(cardinality)
      ensures data == old(data)
    {
      SetObjectRestriction(RESTRICTION_SOME, None, objectClass);
    }

    method SetObjectMinRestriction(card: int, objectClass: Option<Entity>)
      requires Valid() && IsInt32(card)
      modifies this
      ensures Valid()
      ensures !isDataProperty ==> expressionType == RESTRICTION_MIN && obj == objectClass && cardinality == card
      ensures isDataProperty ==> expressionType == old(expressionType) && obj == old(obj) && cardinality == old(cardinality)
      ensures data == old(data)
    {
      SetObjectRestriction(RESTRICTION_MIN, Some(card), objectClass);
    }

    method SetObjectMaxRestriction(card: int, objectClass: Option<Entity>)
      requires Valid() && IsInt32(card)
      modifies this
      ensures Valid()
      ensures !isDataProperty ==> expressionType == RESTRICTION_MAX && obj == objectClass && cardinality == card
      ensures isDataProperty ==> expressionType == old(expressionType) && obj == old(obj) && cardinality == old(cardinality)
      ensures data == old(data)
    {
      SetObjectRestriction(RESTRICTION_MAX, Some(card), objectClass);
    }

    method SetObjectExactRestriction(card: int, objectClass: Option<Entity>)
      requires Valid() && IsInt32(card)
      modifies this
      ensures Valid()
      ensures !isDataProperty ==> expressionType == RESTRICTION_EXACT && obj == objectClass && cardinality == card
      ensures isDataProperty ==> expressionType == old(expressionType) && obj == old(obj) && cardinality == old(cardinality)
      ensures data == old(data)
    {
      SetObjectRestriction(RESTRICTION_EXACT, Some(card), objectClass);
    }

    /** `getDataTypeRestriction`: null for a restriction over an object property. */
    function GetDataTypeRestriction(): (r: Option<Entity>)
      reads this
      ensures !isDataProperty ==> r.None?
      ensures isDataProperty ==> r == data
    {
      if isDataProperty then data else None
    }

    /** `getObjectRestriction`: null for a restriction over a data property. */
    function GetObjectRestriction(): (r: Option<Entity>)
      reads this
      ensures isDataProperty ==> r.None?
      ensures !isDataProperty ==> r == obj
    {
      if !isDataProperty then obj else None
    }

    /** `getCardinality`: only the min, exact and max restrictions have one. */
    function GetCardinality(): (r: Option<int>)
      reads this
      ensures r.Some? <==> expressionType >= RESTRICTION_MIN
      ensures r.Some? ==> r.value == cardinality
    {
      if expressionType >= RESTRICTION_MIN then Some(cardinality) else None
    }

    /** `getDataProperty`: the property, when it is a data property. */
    function GetDataProperty(): (r: Option<Entity>)
      reads this
      ensures r.Some? <==> isDataProperty
      ensures r.Some? ==> r.value == property
    {
      if isDataProperty then Some(property) else None
    }

    /** `getObjectProperty`: the property, when it is an object property. */
    function GetObjectProperty(): (r: Option<Entity>)
      reads this
      ensures r.Some? <==> !isDataProperty
      ensures r.Some? ==> r.value == property
    {
      if !isDataProperty then Some(property) else None
    }

    predicate IsSomeRestriction() reads this { expressionType == RESTRICTION_SOME }
    predicate IsOnlyRestriction() reads this { expressionType == RESTRICTION_ONLY }
    predicate IsMinRestriction() reads this { expressionType == RESTRICTION_MIN }
    predicate IsExactRestriction() reads this { expressionType == RESTRICTION_EXACT }
    predicate IsMaxRestriction() reads this { expressionType == RESTRICTION_MAX }

    predicate RestrictsOverDataProperty() reads this { isDataProperty }
    predicate RestrictsOverObjectProperty() reads this { !isDataProperty }

    /** `getExpressionTypeName`: the name of the one tag predicate that holds, `"<null>"` when none does. */
    function GetExpressionTypeName(): (r: string)
      reads this
      ensures IsSomeRestriction() ==> r == "<some>"
      ensures IsOnlyRestriction() ==> r == "<only>"
      ensures IsMinRestriction() ==> r == "<min>"
      ensures IsExactRestriction() ==> r == "<exact>"
      ensures IsMaxRestriction() ==> r == "<max>"
      ensures r == "<null>" <==>
        !(IsSomeRestriction() || IsOnlyRestriction() || IsMinRestriction() || IsExactRestriction() || IsMaxRestriction())
    {
      ExpressionTypeName(expressionType)
    }

    /** `equals`: the same object, or all seven fields equal. */
    predicate Equals(that: ClassRestriction)
      reads this, that
    {
      this == that ||
      (expressionType == that.expressionType && cardinality == that.cardinality
       && definitionOf == that.definitionOf && property == that.property
       && isDataProperty == that.isDataProperty && obj == that.obj && data == that.data)
    }

    /** `hashCode`: the seven fields, hashed in declaration order by the `31 * result` chain. */
    function HashCode(): (h: int)
      reads this
      ensures IsInt32(h)
    {
      HashChain([EntityHash(definitionOf), EntityHash(property), BooleanHash(isDataProperty),
                 expressionType, cardinality, NullableEntityHash(obj), NullableEntityHash(data)])
    }
  }

  /** For each of the five tags exactly one `is*Restriction` predicate holds. */
  lemma ExactlyOneTagPredicate(r: ClassRestriction)
    requires RESTRICTION_ONLY <= r.expressionType <= RESTRICTION_MAX
    ensures (r.IsSomeRestriction() || r.IsOnlyRestriction() || r.IsMinRestriction() || r.IsExactRestriction() || r.IsMaxRestriction())
    ensures r.IsSomeRestriction() ==> !(r.IsOnlyRestriction() || r.IsMinRestriction() || r.IsExactRestriction() || r.IsMaxRestriction())
    ensures r.IsOnlyRestriction() ==> !(r.IsMinRestriction() || r.IsExactRestriction() || r.IsMaxRestriction())
    ensures r.IsMinRestriction() ==> !(r.IsExactRestriction() || r.IsMaxRestriction())
    ensures r.IsExactRestriction() ==> !r.IsMaxRestriction()
  {
  }

  /** `equals` is an equivalence on restrictions, and equal restrictions hash alike. */
  lemma ClassRestrictionEqualsHash(a: ClassRestriction, b: ClassRestriction, c: ClassRestriction)
    ensures a.Equals(a)
    ensures a.Equals(b) ==> b.Equals(a)
    ensures a.Equals(b) && b.Equals(c) ==> a.Equals(c)
    ensures a.Equals(b) ==> a.HashCode() == b.HashCode()
  {
  }

  /** An object restriction never reports a data property, and the other way round. */
  lemma PropertyKindsExclusive(r: ClassRestriction)
    requires r.Valid()
    ensures r.RestrictsOverObjectProperty() <==> !r.RestrictsOverDataProperty()
    ensures r.GetDataProperty().Some? <==> r.GetObjectProperty().None?
    ensures r.GetDataTypeRestriction().None? || r.GetObjectRestriction().None?
  {
  }
}
