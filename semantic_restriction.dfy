/**
 * The restriction descriptors of `SemanticRestriction`: the `RestrictionType`
 * strings built by concatenating fragments, the `contains`-based predicates
 * that classify them, and the `Applying*` restriction objects that carry a
 * subject, a value, a property and a cardinality.
 */
module SemanticRestriction {
  import opened Wrappers
  import opened Text
  import opened JavaHash
  import opened Owl
  import opened RestrictionFragments

  // The public type constants, subject + quantifier + filler, in declaration order.

  const DEF_CLASS_CLASS := CLASS_DEF + CLASS
  const DEF_CLASS_MIN_DATA := CLASS_DEF + MIN + DATA
  const DEF_CLASS_MAX_DATA := CLASS_DEF + MAX + DATA
  const DEF_CLASS_EXACT_DATA := CLASS_DEF + EXACT + DATA
  const DEF_CLASS_ALL_DATA := CLASS_DEF + ALL + DATA
  const DEF_CLASS_SOME_DATA := CLASS_DEF + SOME + DATA
  const DEF_CLASS_MIN_OBJECT := CLASS_DEF + MIN + OBJECT
  const DEF_CLASS_MAX_OBJECT := CLASS_DEF + MAX + OBJECT
  const DEF_CLASS_EXACT_OBJECT := CLASS_DEF + EXACT + OBJECT
  const DEF_CLASS_ALL_OBJECT := CLASS_DEF + ALL + OBJECT
  const DEF_CLASS_SOME_OBJECT := CLASS_DEF + SOME + OBJECT
  const DATA_DOMAIN_CLASS := DATA_DOMAIN + CLASS
  const DATA_DOMAIN_MIN_DATA := DATA_DOMAIN + MIN + DATA
  const DATA_DOMAIN_MAX_DATA := DATA_DOMAIN + MAX + DATA
  const DATA_DOMAIN_EXACT_DATA := DATA_DOMAIN + EXACT + DATA
  const DATA_DOMAIN_ALL_DATA := DATA_DOMAIN + ALL + DATA
  const DATA_DOMAIN_SOME_DATA := DATA_DOMAIN + SOME + DATA
  const DATA_DOMAIN_MIN_OBJECT := DATA_DOMAIN + MIN + OBJECT
  const DATA_DOMAIN_MAX_OBJECT := DATA_DOMAIN + MAX + OBJECT
  const DATA_DOMAIN_EXACT_OBJECT := DATA_DOMAIN + EXACT + OBJECT
  const DATA_DOMAIN_ALL_OBJECT := DATA_DOMAIN + ALL + OBJECT
  const DATA_DOMAIN_SOME_OBJECT := DATA_DOMAIN + SOME + OBJECT
  const DATA_RANGE_ALL_DATA := DATA_RANGE + ALL + DATA
  const OBJECT_DOMAIN_CLASS := OBJECT_DOMAIN + CLASS
  const OBJECT_DOMAIN_MIN_DATA := OBJECT_DOMAIN + MIN + DATA
  const OBJECT_DOMAIN_MAX_DATA := OBJECT_DOMAIN + MAX + DATA
  const OBJECT_DOMAIN_EXACT_DATA := OBJECT_DOMAIN + EXACT + DATA
  const OBJECT_DOMAIN_ALL_DATA := OBJECT_DOMAIN + ALL + DATA
  const OBJECT_DOMAIN_SOME_DATA := OBJECT_DOMAIN + SOME + DATA
  const OBJECT_DOMAIN_MIN_OBJECT := OBJECT_DOMAIN + MIN + OBJECT
  const OBJECT_DOMAIN_MAX_OBJECT := OBJECT_DOMAIN + MAX + OBJECT
  const OBJECT_DOMAIN_EXACT_OBJECT := OBJECT_DOMAIN + EXACT + OBJECT
  const OBJECT_DOMAIN_ALL_OBJECT := OBJECT_DOMAIN + ALL + OBJECT
  const OBJECT_DOMAIN_SOME_OBJECT := OBJECT_DOMAIN + SOME + OBJECT
  const OBJECT_RANGE_CLASS := OBJECT_RANGE + CLASS
  const OBJECT_RANGE_MIN_DATA := OBJECT_RANGE + MIN + DATA
  const OBJECT_RANGE_MAX_DATA := OBJECT_RANGE + MAX + DATA
  const OBJECT_RANGE_EXACT_DATA := OBJECT_RANGE + EXACT + DATA
  const OBJECT_RANGE_ALL_DATA := OBJECT_RANGE + ALL + DATA
  const OBJECT_RANGE_SOME_DATA := OBJECT_RANGE + SOME + DATA
  const OBJECT_RANGE_MIN_OBJECT := OBJECT_RANGE + MIN + OBJECT
  const OBJECT_RANGE_MAX_OBJECT := OBJECT_RANGE + MAX + OBJECT
  const OBJECT_RANGE_EXACT_OBJECT := OBJECT_RANGE + EXACT + OBJECT
  const OBJECT_RANGE_ALL_OBJECT := OBJECT_RANGE + ALL + OBJECT
  const OBJECT_RANGE_SOME_OBJECT := OBJECT_RANGE + SOME + OBJECT

  // The public type constants grouped by subject, in declaration order.
  const DEF_CLASS_TYPES: seq<string> := [DEF_CLASS_CLASS, DEF_CLASS_MIN_DATA, DEF_CLASS_MAX_DATA, DEF_CLASS_EXACT_DATA, DEF_CLASS_ALL_DATA, DEF_CLASS_SOME_DATA, DEF_CLASS_MIN_OBJECT, DEF_CLASS_MAX_OBJECT, DEF_CLASS_EXACT_OBJECT, DEF_CLASS_ALL_OBJECT, DEF_CLASS_SOME_OBJECT]
  const DATA_DOMAIN_TYPES: seq<string> := [DATA_DOMAIN_CLASS, DATA_DOMAIN_MIN_DATA, DATA_DOMAIN_MAX_DATA, DATA_DOMAIN_EXACT_DATA, DATA_DOMAIN_ALL_DATA, DATA_DOMAIN_SOME_DATA, DATA_DOMAIN_MIN_OBJECT, DATA_DOMAIN_MAX_OBJECT, DATA_DOMAIN_EXACT_OBJECT, DATA_DOMAIN_ALL_OBJECT, DATA_DOMAIN_SOME_OBJECT]
  const DATA_RANGE_TYPES: seq<string> := [DATA_RANGE_ALL_DATA]
  const OBJECT_DOMAIN_TYPES: seq<string> := [OBJECT_DOMAIN_CLASS, OBJECT_DOMAIN_MIN_DATA, OBJECT_DOMAIN_MAX_DATA, OBJECT_DOMAIN_EXACT_DATA, OBJECT_DOMAIN_ALL_DATA, OBJECT_DOMAIN_SOME_DATA, OBJECT_DOMAIN_MIN_OBJECT, OBJECT_DOMAIN_MAX_OBJECT, OBJECT_DOMAIN_EXACT_OBJECT, OBJECT_DOMAIN_ALL_OBJECT, OBJECT_DOMAIN_SOME_OBJECT]
  const OBJECT_RANGE_TYPES: seq<string> := [OBJECT_RANGE_CLASS, OBJECT_RANGE_MIN_DATA, OBJECT_RANGE_MAX_DATA, OBJECT_RANGE_EXACT_DATA, OBJECT_RANGE_ALL_DATA, OBJECT_RANGE_SOME_DATA, OBJECT_RANGE_MIN_OBJECT, OBJECT_RANGE_MAX_OBJECT, OBJECT_RANGE_EXACT_OBJECT, OBJECT_RANGE_ALL_OBJECT, OBJECT_RANGE_SOME_OBJECT]

  /** Every public type constant, in declaration order; each is set by one concrete restriction class. */
  const PUBLIC_TYPES: seq<string> := DEF_CLASS_TYPES + DATA_DOMAIN_TYPES + DATA_RANGE_TYPES + OBJECT_DOMAIN_TYPES + OBJECT_RANGE_TYPES


  /** What a restriction is applied to: the first fragment of its type. */
  datatype Subject = ClassDefinition | DataPropertyDomain | DataPropertyRange | ObjectPropertyDomain | ObjectPropertyRange

  /** How a property restriction quantifies. */
  datatype Quantifier = Minimal | Maximal | Exactly | Universal | Existential

  /** Whether a property restriction ranges over data or over objects. */
  datatype Filler = OverData | OverObject

  /** The structure of a type string: a class restriction, or a quantified property restriction. */
  datatype Kind =
    | OnClass(subject: Subject)
    | Quantified(subject: Subject, quantifier: Quantifier, filler: Filler)

  function SubjectFragment(s: Subject): string {
    match s
    case ClassDefinition => CLASS_DEF
    case DataPropertyDomain => DATA_DOMAIN
    case DataPropertyRange => DATA_RANGE
    case ObjectPropertyDomain => OBJECT_DOMAIN
    case ObjectPropertyRange => OBJECT_RANGE
  }

  function QuantifierFragment(q: Quantifier): string {
    match q
    case Minimal => MIN
    case Maximal => MAX
    case Exactly => EXACT
    case Universal => ALL
    case Existential => SOME
  }

  function FillerFragment(f: Filler): string {
    match f
    case OverData => DATA
    case OverObject => OBJECT
  }

  /** The type string of a kind, concatenated as the constants are. */
  function TypeString(k: Kind): string {
    match k
    case OnClass(s) => SubjectFragment(s) + CLASS
    case Quantified(s, q, f) => SubjectFragment(s) + QuantifierFragment(q) + FillerFragment(f)
  }

  /** The fragments a kind's type string is made of. */
  function KindFragments(k: Kind): set<string> {
    match k
    case OnClass(s) => {SubjectFragment(s), CLASS}
    case Quantified(s, q, f) => {SubjectFragment(s), QuantifierFragment(q), FillerFragment(f)}
  }

  /** The kinds that have a public constant: a data property range is only restricted universally over data. */
  predicate IsPublicKind(k: Kind) {
    k.subject == DataPropertyRange ==> k == Quantified(DataPropertyRange, Universal, OverData)
  }


  lemma DefClassTypeKind(t: string) returns (k: Kind)
    requires t in DEF_CLASS_TYPES
    ensures IsPublicKind(k) && k.subject == ClassDefinition && TypeString(k) == t
  {
    if t == DEF_CLASS_CLASS {
      k := OnClass(ClassDefinition);
    } else if t == DEF_CLASS_MIN_DATA {
      k := Quantified(ClassDefinition, Minimal, OverData);
    } else if t == DEF_CLASS_MAX_DATA {
      k := Quantified(ClassDefinition, Maximal, OverData);
    } else if t == DEF_CLASS_EXACT_DATA {
      k := Quantified(ClassDefinition, Exactly, OverData);
    } else if t == DEF_CLASS_ALL_DATA {
      k := Quantified(ClassDefinition, Universal, OverData);
    } else if t == DEF_CLASS_SOME_DATA {
      k := Quantified(ClassDefinition, Existential, OverData);
    } else if t == DEF_CLASS_MIN_OBJECT {
      k := Quantified(ClassDefinition, Minimal, OverObject);
    } else if t == DEF_CLASS_MAX_OBJECT {
      k := Quantified(ClassDefinition, Maximal, OverObject);
    } else if t == DEF_CLASS_EXACT_OBJECT {
      k := Quantified(ClassDefinition, Exactly, OverObject);
    } else if t == DEF_CLASS_ALL_OBJECT {
      k := Quantified(ClassDefinition, Universal, OverObject);
    } else {
      k := Quantified(ClassDefinition, Existential, OverObject);
    }
  }

  lemma DataDomainTypeKind(t: string) returns (k: Kind)
    requires t in DATA_DOMAIN_TYPES
    ensures IsPublicKind(k) && k.subject == DataPropertyDomain && TypeString(k) == t
  {
    if t == DATA_DOMAIN_CLASS {
      k := OnClass(DataPropertyDomain);
    } else if t == DATA_DOMAIN_MIN_DATA {
      k := Quantified(DataPropertyDomain, Minimal, OverData);
    } else if t == DATA_DOMAIN_MAX_DATA {
      k := Quantified(DataPropertyDomain, Maximal, OverData);
    } else if t == DATA_DOMAIN_EXACT_DATA {
      k := Quantified(DataPropertyDomain, Exactly, OverData);
    } else if t == DATA_DOMAIN_ALL_DATA {
      k := Quantified(DataPropertyDomain, Universal, OverData);
    } else if t == DATA_DOMAIN_SOME_DATA {
      k := Quantified(DataPropertyDomain, Existential, OverData);
    } else if t == DATA_DOMAIN_MIN_OBJECT {
      k := Quantified(DataPropertyDomain, Minimal, OverObject);
    } else if t == DATA_DOMAIN_MAX_OBJECT {
      k := Quantified(DataPropertyDomain, Maximal, OverObject);
    } else if t == DATA_DOMAIN_EXACT_OBJECT {
      k := Quantified(DataPropertyDomain, Exactly, OverObject);
    } else if t == DATA_DOMAIN_ALL_OBJECT {
      k := Quantified(DataPropertyDomain, Universal, OverObject);
    } else {
      k := Quantified(DataPropertyDomain, Existential, OverObject);
    }
  }

  lemma DataRangeTypeKind(t: string) returns (k: Kind)
    requires t in DATA_RANGE_TYPES
    ensures IsPublicKind(k) && k.subject == DataPropertyRange && TypeString(k) == t
  {
    k := Quantified(DataPropertyRange, Universal, OverData);
  }

  lemma ObjectDomainTypeKind(t: string) returns (k: Kind)
    requires t in OBJECT_DOMAIN_TYPES
    ensures IsPublicKind(k) && k.subject == ObjectPropertyDomain && TypeString(k) == t
  {
    if t == OBJECT_DOMAIN_CLASS {
      k := OnClass(ObjectPropertyDomain);
    } else if t == OBJECT_DOMAIN_MIN_DATA {
      k := Quantified(ObjectPropertyDomain, Minimal, OverData);
    } else if t == OBJECT_DOMAIN_MAX_DATA {
      k := Quantified(ObjectPropertyDomain, Maximal, OverData);
    } else if t == OBJECT_DOMAIN_EXACT_DATA {
      k := Quantified(ObjectPropertyDomain, Exactly, OverData);
    } else if t == OBJECT_DOMAIN_ALL_DATA {
      k := Quantified(ObjectPropertyDomain, Universal, OverData);
    } else if t == OBJECT_DOMAIN_SOME_DATA {
      k := Quantified(ObjectPropertyDomain, Existential, OverData);
    } else if t == OBJECT_DOMAIN_MIN_OBJECT {
      k := Quantified(ObjectPropertyDomain, Minimal, OverObject);
    } else if t == OBJECT_DOMAIN_MAX_OBJECT {
      k := Quantified(ObjectPropertyDomain, Maximal, OverObject);
    } else if t == OBJECT_DOMAIN_EXACT_OBJECT {
      k := Quantified(ObjectPropertyDomain, Exactly, OverObject);
    } else if t == OBJECT_DOMAIN_ALL_OBJECT {
      k := Quantified(ObjectPropertyDomain, Universal, OverObject);
    } else {
      k := Quantified(ObjectPropertyDomain, Existential, OverObject);
    }
  }

  lemma ObjectRangeTypeKind(t: string) returns (k: Kind)
    requires t in OBJECT_RANGE_TYPES
    ensures IsPublicKind(k) && k.subject == ObjectPropertyRange && TypeString(k) == t
  {
    if t == OBJECT_RANGE_CLASS {
      k := OnClass(ObjectPropertyRange);
    } else if t == OBJECT_RANGE_MIN_DATA {
      k := Quantified(ObjectPropertyRange, Minimal, OverData);
    } else if t == OBJECT_RANGE_MAX_DATA {
      k := Quantified(ObjectPropertyRange, Maximal, OverData);
    } else if t == OBJECT_RANGE_EXACT_DATA {
      k := Quantified(ObjectPropertyRange, Exactly, OverData);
    } else if t == OBJECT_RANGE_ALL_DATA {
      k := Quantified(ObjectPropertyRange, Universal, OverData);
    } else if t == OBJECT_RANGE_SOME_DATA {
      k := Quantified(ObjectPropertyRange, Existential, OverData);
    } else if t == OBJECT_RANGE_MIN_OBJECT {
      k := Quantified(ObjectPropertyRange, Minimal, OverObject);
    } else if t == OBJECT_RANGE_MAX_OBJECT {
      k := Quantified(ObjectPropertyRange, Maximal, OverObject);
    } else if t == OBJECT_RANGE_EXACT_OBJECT {
      k := Quantified(ObjectPropertyRange, Exactly, OverObject);
    } else if t == OBJECT_RANGE_ALL_OBJECT {
      k := Quantified(ObjectPropertyRange, Universal, OverObject);
    } else {
      k := Quantified(ObjectPropertyRange, Existential, OverObject);
    }
  }

  /** Every public constant is the type string of a public kind. */
  lemma PublicTypeKind(t: string) returns (k: Kind)
    requires t in PUBLIC_TYPES
    ensures IsPublicKind(k) && TypeString(k) == t
  {
    if t in DEF_CLASS_TYPES {
      k := DefClassTypeKind(t);
    } else if t in DATA_DOMAIN_TYPES {
      k := DataDomainTypeKind(t);
    } else if t in DATA_RANGE_TYPES {
      k := DataRangeTypeKind(t);
    } else if t in OBJECT_DOMAIN_TYPES {
      k := ObjectDomainTypeKind(t);
    } else {
      k := ObjectRangeTypeKind(t);
    }
  }

  /** Every public kind has its constant. */
  lemma PublicKindType(k: Kind)
    requires IsPublicKind(k)
    ensures TypeString(k) in PUBLIC_TYPES
  {
    match k.subject
    case ClassDefinition =>
      assert TypeString(k) in DEF_CLASS_TYPES;
    case DataPropertyDomain =>
      assert TypeString(k) in DATA_DOMAIN_TYPES;
    case DataPropertyRange =>
      assert TypeString(k) in DATA_RANGE_TYPES;
    case ObjectPropertyDomain =>
      assert TypeString(k) in OBJECT_DOMAIN_TYPES;
    case ObjectPropertyRange =>
      assert TypeString(k) in OBJECT_RANGE_TYPES;
  }

  /** Looking for a fragment in a type string amounts to looking at each of its fragments. */
  /**
   * A fragment occurs in a kind's type string exactly when it occurs in one
   * of the fragments the string is made of.
   */
  lemma TypeStringSplits(k: Kind, p: string)
    requires p in FRAGMENTS
    ensures Contains(TypeString(k), p) <==>
      || Contains(SubjectFragment(k.subject), p)
      || (k.OnClass? && Contains(CLASS, p))
      || (k.Quantified? && (Contains(QuantifierFragment(k.quantifier), p) || Contains(FillerFragment(k.filler), p)))
  {
    FragmentLiterals();
    var q := FragmentStem(p);
    var s := SubjectFragment(k.subject);
    match k
    case OnClass(_) =>
      ContainsAcrossUnderscore(s, CLASS, p, q);
    case Quantified(_, qu, f) =>
      var a := QuantifierFragment(qu);
      var b := FillerFragment(f);
      ContainsAcrossUnderscore(s, a, p, q);
      ContainsAcrossUnderscore(s + a, b, p, q);
  }

  /** A fragment occurs in a kind's type string exactly when it is one of the kind's fragments. */
  lemma TypeStringContains(k: Kind, p: string)
    requires p in FRAGMENTS
    ensures Contains(TypeString(k), p) <==> p in KindFragments(k)
  {
    PartsAreFragments(k);
    TypeStringSplits(k, p);
    FragmentsIsolated(SubjectFragment(k.subject), p);
    match k
    case OnClass(_) =>
      FragmentsIsolated(CLASS, p);
    case Quantified(_, qu, f) =>
      FragmentsIsolated(QuantifierFragment(qu), p);
      FragmentsIsolated(FillerFragment(f), p);
  }

  /** Every part of a kind's type string is one of the fragments. */
  lemma PartsAreFragments(k: Kind)
    ensures SubjectFragment(k.subject) in FRAGMENTS
    ensures k.OnClass? ==> CLASS in FRAGMENTS
    ensures k.Quantified? ==> QuantifierFragment(k.quantifier) in FRAGMENTS && FillerFragment(k.filler) in FRAGMENTS
  {
  }

  /** `RestrictionType`: a type string, classified by the fragments it contains. */
  datatype RestrictionType = RestrictionType(typeName: string) {

    predicate IsClassDefinition() { Contains(typeName, CLASS_DEF) }
    predicate IsDataPropertyDomain() { Contains(typeName, DATA_DOMAIN) }
    predicate IsDataPropertyRange() { Contains(typeName, DATA_RANGE) }
    predicate IsObjectPropertyDomain() { Contains(typeName, OBJECT_DOMAIN) }
    predicate IsObjectPropertyRange() { Contains(typeName, OBJECT_RANGE) }

    predicate IsRestrictionOnClass() { Contains(typeName, CLASS) }
    predicate IsRestrictionOnDataProperty() { Contains(typeName, DATA) }
    predicate IsRestrictionOnObjectProperty() { Contains(typeName, OBJECT) }

    predicate IsMinRestriction() { Contains(typeName, MIN) }
    predicate IsMaxRestriction() { Contains(typeName, MAX) }
    predicate IsExactRestriction() { Contains(typeName, EXACT) }
    predicate IsSomeRestriction() { Contains(typeName, SOME) }
    predicate IsAllRestriction() { Contains(typeName, ALL) }

    /** `equals`: the same type string. */
    predicate Equals(that: RestrictionType) {
      typeName == that.typeName
    }

    /** `hashCode`: Guava's `Objects.hashCode` of the type string alone, `31 + hash`. */
    function HashCode(): (h: int)
      ensures IsInt32(h)
      ensures h == Wrap(31 + StringHash(typeName))
    {
      CombineSingle(StringHash(typeName));
      CombineHashes([StringHash(typeName)])
    }
  }

  /** How many of `bs` hold. */
  function CountTrue(bs: seq<bool>): (n: nat)
    ensures n <= |bs|
    decreases |bs|
  {
    if |bs| == 0 then 0 else (if bs[0] then 1 else 0) + CountTrue(bs[1..])
  }

  lemma {:induction false} CountTrueNone(bs: seq<bool>)
    requires forall j :: 0 <= j < |bs| ==> !bs[j]
    ensures CountTrue(bs) == 0
    decreases |bs|
  {
    if |bs| > 0 {
      CountTrueNone(bs[1..]);
    }
  }

  lemma {:induction false} CountTrueOne(bs: seq<bool>, i: nat)
    requires i < |bs| && bs[i]
    requires forall j :: 0 <= j < |bs| && j != i ==> !bs[j]
    ensures CountTrue(bs) == 1
    decreases |bs|
  {
    if i == 0 {
      CountTrueNone(bs[1..]);
    } else {
      CountTrueOne(bs[1..], i - 1);
    }
  }

  function SubjectFlags(r: RestrictionType): seq<bool> {
    [r.IsClassDefinition(), r.IsDataPropertyDomain(), r.IsDataPropertyRange(), r.IsObjectPropertyDomain(), r.IsObjectPropertyRange()]
  }

  function FillerFlags(r: RestrictionType): seq<bool> {
    [r.IsRestrictionOnClass(), r.IsRestrictionOnDataProperty(), r.IsRestrictionOnObjectProperty()]
  }

  function QuantifierFlags(r: RestrictionType): seq<bool> {
    [r.IsMinRestriction(), r.IsMaxRestriction(), r.IsExactRestriction(), r.IsSomeRestriction(), r.IsAllRestriction()]
  }

  /**
   * A subject fragment found in no other fragment occurs in a kind's type
   * string exactly when the kind has that subject.
   */
  lemma SubjectOfKind(k: Kind, s0: Subject)
    requires forall s: Subject :: Contains(SubjectFragment(s), SubjectFragment(s0)) <==> s == s0
    requires forall q: Quantifier :: !Contains(QuantifierFragment(q), SubjectFragment(s0))
    requires forall f: Filler :: !Contains(FillerFragment(f), SubjectFragment(s0))
    requires !Contains(CLASS, SubjectFragment(s0))
    ensures Contains(TypeString(k), SubjectFragment(s0)) <==> k.subject == s0
  {
    assert SubjectFragment(s0) in FRAGMENTS by {
      FragmentLiterals();
    }
    TypeStringSplits(k, SubjectFragment(s0));
  }

  /** A filler fragment found in no other fragment occurs in a kind's type string exactly when the kind has that filler. */
  lemma FillerOfKind(k: Kind, f0: Filler)
    requires forall s: Subject :: !Contains(SubjectFragment(s), FillerFragment(f0))
    requires forall q: Quantifier :: !Contains(QuantifierFragment(q), FillerFragment(f0))
    requires forall f: Filler :: Contains(FillerFragment(f), FillerFragment(f0)) <==> f == f0
    requires !Contains(CLASS, FillerFragment(f0))
    ensures Contains(TypeString(k), FillerFragment(f0)) <==> k.Quantified? && k.filler == f0
  {
    assert FillerFragment(f0) in FRAGMENTS by {
      FragmentLiterals();
    }
    TypeStringSplits(k, FillerFragment(f0));
  }

  /** A quantifier fragment found in no other fragment occurs in a kind's type string exactly when the kind has that quantifier. */
  lemma QuantifierOfKind(k: Kind, q0: Quantifier)
    requires forall s: Subject :: !Contains(SubjectFragment(s), QuantifierFragment(q0))
    requires forall q: Quantifier :: Contains(QuantifierFragment(q), QuantifierFragment(q0)) <==> q == q0
    requires forall f: Filler :: !Contains(FillerFragment(f), QuantifierFragment(q0))
    requires !Contains(CLASS, QuantifierFragment(q0))
    ensures Contains(TypeString(k), QuantifierFragment(q0)) <==> k.Quantified? && k.quantifier == q0
  {
    assert QuantifierFragment(q0) in FRAGMENTS by {
      FragmentLiterals();
    }
    TypeStringSplits(k, QuantifierFragment(q0));
  }

  /** `CLASS`, found in no other fragment, occurs in a kind's type string exactly when the kind restricts over a class. */
  lemma ClassOfKind(k: Kind)
    requires forall s: Subject :: !Contains(SubjectFragment(s), CLASS)
    requires forall q: Quantifier :: !Contains(QuantifierFragment(q), CLASS)
    requires forall f: Filler :: !Contains(FillerFragment(f), CLASS)
    requires Contains(CLASS, CLASS)
    ensures Contains(TypeString(k), CLASS) <==> k.OnClass?
  {
    assert CLASS in FRAGMENTS;
    TypeStringSplits(k, CLASS);
  }

  // One lemma per predicate: it holds of a kind's type string exactly when the kind has the matching part.

  lemma ClassDefinitionOfKind(k: Kind)
    ensures RestrictionType(TypeString(k)).IsClassDefinition() <==> k.subject == ClassDefinition
  {
    ClassDefOnlyInItself();
    ContainsSelf(CLASS_DEF, CLASS_DEF);
    SubjectOfKind(k, ClassDefinition);
  }

  lemma DataPropertyDomainOfKind(k: Kind)
    ensures RestrictionType(TypeString(k)).IsDataPropertyDomain() <==> k.subject == DataPropertyDomain
  {
    DataDomainOnlyInItself();
    ContainsSelf(DATA_DOMAIN, DATA_DOMAIN);
    SubjectOfKind(k, DataPropertyDomain);
  }

  lemma DataPropertyRangeOfKind(k: Kind)
    ensures RestrictionType(TypeString(k)).IsDataPropertyRange() <==> k.subject == DataPropertyRange
  {
    DataRangeOnlyInItself();
    ContainsSelf(DATA_RANGE, DATA_RANGE);
    SubjectOfKind(k, DataPropertyRange);
  }

  lemma ObjectPropertyDomainOfKind(k: Kind)
    ensures RestrictionType(TypeString(k)).IsObjectPropertyDomain() <==> k.subject == ObjectPropertyDomain
  {
    ObjectDomainOnlyInItself();
    ContainsSelf(OBJECT_DOMAIN, OBJECT_DOMAIN);
    SubjectOfKind(k, ObjectPropertyDomain);
  }

  lemma ObjectPropertyRangeOfKind(k: Kind)
    ensures RestrictionType(TypeString(k)).IsObjectPropertyRange() <==> k.subject == ObjectPropertyRange
  {
    ObjectRangeOnlyInItself();
    ContainsSelf(OBJECT_RANGE, OBJECT_RANGE);
    SubjectOfKind(k, ObjectPropertyRange);
  }

  lemma RestrictionOnClassOfKind(k: Kind)
    ensures RestrictionType(TypeString(k)).IsRestrictionOnClass() <==> k.OnClass?
  {
    ClassOnlyInItself();
    ContainsSelf(CLASS, CLASS);
    ClassOfKind(k);
  }

  lemma RestrictionOnDataPropertyOfKind(k: Kind)
    ensures RestrictionType(TypeString(k)).IsRestrictionOnDataProperty() <==> k.Quantified? && k.filler == OverData
  {
    DataOnlyInItself();
    ContainsSelf(DATA, DATA);
    FillerOfKind(k, OverData);
  }

  lemma RestrictionOnObjectPropertyOfKind(k: Kind)
    ensures RestrictionType(TypeString(k)).IsRestrictionOnObjectProperty() <==> k.Quantified? && k.filler == OverObject
  {
    ObjectOnlyInItself();
    ContainsSelf(OBJECT, OBJECT);
    FillerOfKind(k, OverObject);
  }

  lemma MinRestrictionOfKind(k: Kind)
    ensures RestrictionType(TypeString(k)).IsMinRestriction() <==> k.Quantified? && k.quantifier == Minimal
  {
    MinOnlyInItself();
    ContainsSelf(MIN, MIN);
    QuantifierOfKind(k, Minimal);
  }

  lemma MaxRestrictionOfKind(k: Kind)
    ensures RestrictionType(TypeString(k)).IsMaxRestriction() <==> k.Quantified? && k.quantifier == Maximal
  {
    MaxOnlyInItself();
    ContainsSelf(MAX, MAX);
    QuantifierOfKind(k, Maximal);
  }

  lemma ExactRestrictionOfKind(k: Kind)
    ensures RestrictionType(TypeString(k)).IsExactRestriction() <==> k.Quantified? && k.quantifier == Exactly
  {
    ExactOnlyInItself();
    ContainsSelf(EXACT, EXACT);
    QuantifierOfKind(k, Exactly);
  }

  lemma SomeRestrictionOfKind(k: Kind)
    ensures RestrictionType(TypeString(k)).IsSomeRestriction() <==> k.Quantified? && k.quantifier == Existential
  {
    SomeOnlyInItself();
    ContainsSelf(SOME, SOME);
    QuantifierOfKind(k, Existential);
  }

  lemma AllRestrictionOfKind(k: Kind)
    ensures RestrictionType(TypeString(k)).IsAllRestriction() <==> k.Quantified? && k.quantifier == Universal
  {
    AllOnlyInItself();
    ContainsSelf(ALL, ALL);
    QuantifierOfKind(k, Universal);
  }

  /** The subject predicates of a kind's type string name its subject. */
  lemma SubjectPredicates(k: Kind)
    ensures var r := RestrictionType(TypeString(k));
      && (r.IsClassDefinition() <==> k.subject == ClassDefinition)
      && (r.IsDataPropertyDomain() <==> k.subject == DataPropertyDomain)
      && (r.IsDataPropertyRange() <==> k.subject == DataPropertyRange)
      && (r.IsObjectPropertyDomain() <==> k.subject == ObjectPropertyDomain)
      && (r.IsObjectPropertyRange() <==> k.subject == ObjectPropertyRange)
  {
    ClassDefinitionOfKind(k);
    DataPropertyDomainOfKind(k);
    DataPropertyRangeOfKind(k);
    ObjectPropertyDomainOfKind(k);
    ObjectPropertyRangeOfKind(k);
  }

  /** Of class, data and object, the predicate that holds names what the kind restricts over. */
  lemma FillerPredicates(k: Kind)
    ensures var r := RestrictionType(TypeString(k));
      && (r.IsRestrictionOnClass() <==> k.OnClass?)
      && (r.IsRestrictionOnDataProperty() <==> (k.Quantified? && k.filler == OverData))
      && (r.IsRestrictionOnObjectProperty() <==> k.Quantified? && k.filler == OverObject)
  {
    RestrictionOnClassOfKind(k);
    RestrictionOnDataPropertyOfKind(k);
    RestrictionOnObjectPropertyOfKind(k);
  }

  /** The quantifier predicates name the kind's quantifier, and none holds for a class restriction. */
  lemma QuantifierPredicates(k: Kind)
    ensures var r := RestrictionType(TypeString(k));
      && (r.IsMinRestriction() <==> k.Quantified? && k.quantifier == Minimal)
      && (r.IsMaxRestriction() <==> k.Quantified? && k.quantifier == Maximal)
      && (r.IsExactRestriction() <==> k.Quantified? && k.quantifier == Exactly)
      && (r.IsSomeRestriction() <==> k.Quantified? && k.quantifier == Existential)
      && (r.IsAllRestriction() <==> k.Quantified? && k.quantifier == Universal)
  {
    MinRestrictionOfKind(k);
    MaxRestrictionOfKind(k);
    ExactRestrictionOfKind(k);
    SomeRestrictionOfKind(k);
    AllRestrictionOfKind(k);
  }
  /** Different kinds have different type strings. */
  lemma TypeStringInjective(k1: Kind, k2: Kind)
    ensures TypeString(k1) == TypeString(k2) ==> k1 == k2
  {
    SubjectPredicates(k1);
    SubjectPredicates(k2);
    FillerPredicates(k1);
    FillerPredicates(k2);
    QuantifierPredicates(k1);
    QuantifierPredicates(k2);
  }

  /** For every public constant exactly one subject predicate holds. */
  lemma ExactlyOneSubject(t: string)
    requires t in PUBLIC_TYPES
    ensures CountTrue(SubjectFlags(RestrictionType(t))) == 1
  {
    var k := PublicTypeKind(t);
    SubjectCount(k);
  }

  /** A kind's type string matches exactly one subject predicate. */
  lemma SubjectCount(k: Kind)
    ensures CountTrue(SubjectFlags(RestrictionType(TypeString(k)))) == 1
  {
    SubjectPredicates(k);
    var i := match k.subject
      case ClassDefinition => 0
      case DataPropertyDomain => 1
      case DataPropertyRange => 2
      case ObjectPropertyDomain => 3
      case ObjectPropertyRange => 4;
    CountTrueOne(SubjectFlags(RestrictionType(TypeString(k))), i);
  }

  /** For every public constant exactly one of class, data and object restriction holds. */
  lemma ExactlyOneFiller(t: string)
    requires t in PUBLIC_TYPES
    ensures CountTrue(FillerFlags(RestrictionType(t))) == 1
  {
    var k := PublicTypeKind(t);
    FillerCount(k);
  }

  /** A kind's type string matches exactly one of the class, data and object predicates. */
  lemma FillerCount(k: Kind)
    ensures CountTrue(FillerFlags(RestrictionType(TypeString(k)))) == 1
  {
    FillerPredicates(k);
    var i := if k.OnClass? then 0 else if k.filler == OverData then 1 else 2;
    CountTrueOne(FillerFlags(RestrictionType(TypeString(k))), i);
  }

  /** A class restriction's type string matches no quantifier predicate, any other kind's exactly one. */
  lemma QuantifierCount(k: Kind)
    ensures CountTrue(QuantifierFlags(RestrictionType(TypeString(k)))) == if k.OnClass? then 0 else 1
  {
    var flags := QuantifierFlags(RestrictionType(TypeString(k)));
    QuantifierPredicates(k);
    if k.OnClass? {
      CountTrueNone(flags);
    } else {
      var i := match k.quantifier
        case Minimal => 0
        case Maximal => 1
        case Exactly => 2
        case Existential => 3
        case Universal => 4;
      CountTrueOne(flags, i);
    }
  }

  /** For every public constant at most one quantifier predicate holds, and none exactly for a class restriction. */
  lemma AtMostOneQuantifier(t: string)
    requires t in PUBLIC_TYPES
    ensures CountTrue(QuantifierFlags(RestrictionType(t))) <= 1
    ensures RestrictionType(t).IsRestrictionOnClass() <==> CountTrue(QuantifierFlags(RestrictionType(t))) == 0
  {
    var k := PublicTypeKind(t);
    RestrictionOnClassOfKind(k);
    QuantifierCount(k);
  }

  /** Equal restriction types hash alike, and equality is decided by the type string alone. */
  lemma RestrictionTypeEqualsHash(a: RestrictionType, b: RestrictionType)
    ensures a.Equals(b) <==> a == b
    ensures a.Equals(b) ==> a.HashCode() == b.HashCode()
  {
  }

  /**
   * `ClassRestrictedOnExactData` is documented as a maximum restriction, but
   * it sets `DEF_CLASS_EXACT_DATA`, whose predicates say exact and not max.
   */
  lemma ExactDataClassIsExact()
    ensures TypeString(Quantified(ClassDefinition, Exactly, OverData)) == DEF_CLASS_EXACT_DATA
    ensures RestrictionType(DEF_CLASS_EXACT_DATA).IsExactRestriction()
    ensures !RestrictionType(DEF_CLASS_EXACT_DATA).IsMaxRestriction()
  {
    QuantifierPredicates(Quantified(ClassDefinition, Exactly, OverData));
  }

  /** The members a concrete restriction class has beyond subject and value. */
  datatype Shape = Plain | WithProperty | WithCardinality

  /**
   * The `*OnClass` classes and `DataRangeRestricted` extend
   * `ApplyingRestriction` directly, the Some/All classes extend
   * `ApplyingPropertyRestriction` and the Min/Max/Exact classes
   * `ApplyingCardinalityRestriction`.
   */
  function ShapeOf(k: Kind): Shape {
    match k
    case OnClass(_) => Plain
    case Quantified(s, q, _) =>
      if s == DataPropertyRange then Plain
      else if q == Existential || q == Universal then WithProperty
      else WithCardinality
  }

  /** An OWL class expression a property restriction can be built from. */
  datatype RestrictionExpression =
    | CardinalityExpression(property: Entity, cardinality: int, filler: Entity)
    | ValuesFromExpression(property: Entity, filler: Entity)

  /**
   * One of the 45 concrete restriction classes; `kind` stands for the class
   * and fixes the type its constructors set. Subject, value, property and
   * cardinality are the mutable fields of `ApplyingRestriction` and its
   * property and cardinality subclasses (a missing reference is `None`).
   */
  class ApplyingRestriction {
    const kind: Kind
    const restrictionType: RestrictionType
    var subject: Option<Entity>
    var value: Option<Entity>
    var property: Option<Entity>
    var cardinality: int

    /** Every constructor has set the type from the concrete class. */
    ghost predicate Valid() {
      IsPublicKind(kind) && restrictionType == RestrictionType(TypeString(kind))
    }

    /**
     * The field-setting constructors of every concrete class: arguments a
     * given overload does not take are `None` and 0, as Java leaves them.
     */
    constructor (kind: Kind, subject: Option<Entity>, value: Option<Entity>, property: Option<Entity>, cardinality: int)
      requires IsPublicKind(kind) && IsInt32(cardinality)
      requires ShapeOf(kind) == Plain ==> property.None?
      requires ShapeOf(kind) != WithCardinality ==> cardinality == 0
      ensures Valid() && restrictionType.typeName in PUBLIC_TYPES
      ensures this.kind == kind && this.subject == subject && this.value == value
      ensures this.property == property && this.cardinality == cardinality
    {
      PublicKindType(kind);
      this.kind := kind;
      this.restrictionType := RestrictionType(TypeString(kind));
      this.subject := subject;
      this.value := value;
      this.property := property;
      this.cardinality := cardinality;
    }

    /** The constructors from an OWL restriction: property, cardinality (if any) and filler are copied from it. */
    constructor FromExpression(kind: Kind, subject: Option<Entity>, expression: RestrictionExpression)
      requires IsPublicKind(kind) && ShapeOf(kind) != Plain
      requires ShapeOf(kind) == WithCardinality <==> expression.CardinalityExpression?
      requires expression.CardinalityExpression? ==> IsInt32(expression.cardinality)
      ensures Valid() && restrictionType.typeName in PUBLIC_TYPES
      ensures this.kind == kind && this.subject == subject
      ensures property == Some(expression.property) && value == Some(expression.filler)
      ensures cardinality == (if expression.CardinalityExpression? then expression.cardinality else 0)
    {
      PublicKindType(kind);
      this.kind := kind;
      this.restrictionType := RestrictionType(TypeString(kind));
      this.subject := subject;
      this.property := Some(expression.property);
      this.cardinality := if expression.CardinalityExpression? then expression.cardinality else 0;
      this.value := Some(expression.filler);
    }

    method SetSubject(s: Option<Entity>)
      modifies this
      ensures subject == s && value == old(value) && property == old(property) && cardinality == old(cardinality)
    {
      subject := s;
    }

    method SetValue(v: Option<Entity>)
      modifies this
      ensures value == v && subject == old(subject) && property == old(property) && cardinality == old(cardinality)
    {
      value := v;
    }

    /** Only the property and cardinality restrictions have a property. */
    method SetProperty(p: Option<Entity>)
      requires ShapeOf(kind) != Plain
      modifies this
      ensures property == p && subject == old(subject) && value == old(value) && cardinality == old(cardinality)
    {
      property := p;
    }

    /** Only the cardinality restrictions have a cardinality. */
    method SetCardinality(c: int)
      requires ShapeOf(kind) == WithCardinality && IsInt32(c)
      modifies this
      ensures cardinality == c && subject == old(subject) && value == old(value) && property == old(property)
    {
      cardinality := c;
    }

    /**
     * `equals` as overridden along the hierarchy: subject, value and type;
     * a property restriction also wants a property restriction with the
     * same property, a cardinality restriction one with the same cardinality.
     */
    predicate Equals(that: ApplyingRestriction)
      reads this, that
    {
      this == that ||
      (subject == that.subject && value == that.value && restrictionType.Equals(that.restrictionType)
       && (ShapeOf(kind) != Plain ==> ShapeOf(that.kind) != Plain && property == that.property)
       && (ShapeOf(kind) == WithCardinality ==> ShapeOf(that.kind) == WithCardinality && cardinality == that.cardinality))
    }

    /** `hashCode` as overridden along the hierarchy, each level hashing the one above with its own field. */
    function HashCode(): (h: int)
      reads this
      ensures IsInt32(h)
    {
      var base := CombineHashes([NullableEntityHash(subject), NullableEntityHash(value), restrictionType.HashCode()]);
      var withProperty := CombineHashes([base, NullableEntityHash(property)]);
      match ShapeOf(kind)
      case Plain => base
      case WithProperty => withProperty
      case WithCardinality => CombineHashes([withProperty, cardinality])
    }
  }

  /** Two restrictions are equal iff they are of the same class and agree on every field that class has. */
  lemma RestrictionEqualsMeans(a: ApplyingRestriction, b: ApplyingRestriction)
    requires a.Valid() && b.Valid()
    ensures a.Equals(b) <==>
      a == b ||
      (a.kind == b.kind && a.subject == b.subject && a.value == b.value
       && (ShapeOf(a.kind) != Plain ==> a.property == b.property)
       && (ShapeOf(a.kind) == WithCardinality ==> a.cardinality == b.cardinality))
    ensures a.Equals(b) <==> b.Equals(a)
  {
    TypeStringInjective(a.kind, b.kind);
  }

  /** Equal restrictions have equal hash codes. */
  lemma RestrictionHashConsistent(a: ApplyingRestriction, b: ApplyingRestriction)
    requires a.Valid() && b.Valid()
    requires a.Equals(b)
    ensures a.HashCode() == b.HashCode()
  {
    RestrictionEqualsMeans(a, b);
  }

  /** The Java classes `getDataType` accepts, and any other class. */
  datatype JavaClass = DoubleClass | FloatClass | StringClass | BooleanClass | LongClass | IntegerClass | OtherClass(name: string)

  /** The OWL 2 datatypes `getDataType` can return. */
  datatype XsdDatatype = XsdDouble | XsdFloat | XsdString | XsdBoolean | XsdLong | XsdInteger

  /** The boxed Java class a datatype stands for. */
  function JavaClassOf(d: XsdDatatype): JavaClass {
    match d
    case XsdDouble => DoubleClass
    case XsdFloat => FloatClass
    case XsdString => StringClass
    case XsdBoolean => BooleanClass
    case XsdLong => LongClass
    case XsdInteger => IntegerClass
  }

  /** `getDataType`: the datatype of a supported class, `None` (null) for any other. */
  function GetDataType(c: JavaClass): (r: Option<XsdDatatype>)
    ensures r.None? <==> c.OtherClass?
    ensures r.Some? ==> JavaClassOf(r.value) == c
  {
    match c
    case DoubleClass => Some(XsdDouble)
    case FloatClass => Some(XsdFloat)
    case StringClass => Some(XsdString)
    case BooleanClass => Some(XsdBoolean)
    case LongClass => Some(XsdLong)
    case IntegerClass => Some(XsdInteger)
    case OtherClass(_) => None
  }
}
