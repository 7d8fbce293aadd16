/**
 * Java's `int` arithmetic and the `hashCode` conventions the classes rely on
 * (`String.hashCode`, `Arrays.hashCode` behind Guava's `Objects.hashCode`,
 * `AbstractSet.hashCode`).
 */
module JavaHash {

  const TWO_32: int := 0x1_0000_0000
  const INT_MIN: int := -0x8000_0000
  const INT_MAX: int := 0x7fff_ffff

  /** A Java `int`. */
  predicate IsInt32(x: int) {
    INT_MIN <= x <= INT_MAX
  }

  /** Two's-complement wrap-around of an exact result into a Java `int`. */
  function Wrap(x: int): (r: int)
    ensures IsInt32(r)
    ensures (r - x) % TWO_32 == 0
  {
    var m := x % TWO_32;
    if m > INT_MAX then m - TWO_32 else m
  }

  lemma WrapOfInt32(x: int)
    requires IsInt32(x)
    ensures Wrap(x) == x
  {
  }

  /** `String.hashCode`: `s[0]*31^(n-1) + ... + s[n-1]` in `int` arithmetic. */
  function StringHash(s: string): (h: int)
    ensures IsInt32(h)
    decreases |s|
  {
    if |s| == 0 then 0
    else Wrap(31 * StringHash(s[..|s| - 1]) + s[|s| - 1] as int)
  }

  /**
   * `Arrays.hashCode` over the element hashes, which is what Guava's
   * `Objects.hashCode(a, b, ...)` returns: start at 1, then `31 * r + h`.
   */
  function CombineHashes(hs: seq<int>): (h: int)
    ensures IsInt32(h)
    decreases |hs|
  {
    if |hs| == 0 then 1
    else Wrap(31 * CombineHashes(hs[..|hs| - 1]) + hs[|hs| - 1])
  }

  /**
   * The `result = 31 * result + h` chain of hand-written `hashCode` methods,
   * whose first step takes the first hash as it is.
   */
  function HashChain(hs: seq<int>): (h: int)
    ensures IsInt32(h)
    decreases |hs|
  {
    if |hs| == 0 then 0
    else Wrap(31 * HashChain(hs[..|hs| - 1]) + hs[|hs| - 1])
  }

  /** `Boolean.hashCode`. */
  function BooleanHash(b: bool): int {
    if b then 1231 else 1237
  }

  /** Hashing a single element gives `31 + h`, wrapped. */
  lemma CombineSingle(h: int)
    ensures CombineHashes([h]) == Wrap(31 + h)
  {
    assert [h][..0] == [];
  }
}

/**
 * OWL objects as opaque values. An entity is known by its kind and its name;
 * an axiom by the entities it relates; an ontology is a set of axioms and a
 * change adds or removes one axiom.
 */
module Owl {
  import opened JavaHash
  import opened Wrappers

  datatype EntityKind = OwlClass | NamedIndividual | DataProperty | ObjectProperty | Datatype

  datatype Entity = Entity(kind: EntityKind, name: string)

  /** The entity an ontology gives for a name (`getOWLIndividual`, `getOWLDataProperty`, ...). */
  function IndividualNamed(name: string): Entity {
    Entity(NamedIndividual, name)
  }

  function DataPropertyNamed(name: string): Entity {
    Entity(DataProperty, name)
  }

  function ObjectPropertyNamed(name: string): Entity {
    Entity(ObjectProperty, name)
  }

  datatype Literal = Literal(lexical: string, datatypeName: string)

  datatype Axiom =
    | ObjectPropertyAssertion(property: Entity, subject: Entity, object: Entity)
    | DataPropertyAssertion(property: Entity, subject: Entity, value: Literal)
    | ClassAssertion(cls: Entity, individual: Entity)
    | OtherAxiom(signature: set<Entity>, id: string)

  datatype Change = AddAxiom(axiom: Axiom) | RemoveAxiom(axiom: Axiom)

  type Ontology = set<Axiom>

  /** The entities an axiom refers to (what an entity remover looks for). */
  function Signature(a: Axiom): set<Entity> {
    match a
    case ObjectPropertyAssertion(p, s, o) => {p, s, o}
    case DataPropertyAssertion(p, s, _) => {p, s}
    case ClassAssertion(c, i) => {c, i}
    case OtherAxiom(sig, _) => sig
  }

  /** The ontology after one change; adding a present axiom or removing an absent one changes nothing. */
  function ApplyChange(o: Ontology, c: Change): (r: Ontology)
    ensures c.AddAxiom? ==> r == o + {c.axiom}
    ensures c.RemoveAxiom? ==> r == o - {c.axiom}
  {
    match c
    case AddAxiom(a) => o + {a}
    case RemoveAxiom(a) => o - {a}
  }

  /** The ontology after a list of changes applied in list order. */
  function ApplyAll(o: Ontology, cs: seq<Change>): Ontology
    decreases |cs|
  {
    if |cs| == 0 then o else ApplyAll(ApplyChange(o, cs[0]), cs[1..])
  }

  lemma {:induction false} ApplyAllAppend(o: Ontology, xs: seq<Change>, ys: seq<Change>)
    ensures ApplyAll(o, xs + ys) == ApplyAll(ApplyAll(o, xs), ys)
    decreases |xs|
  {
    if |xs| == 0 {
      assert xs + ys == ys;
    } else {
      assert (xs + ys)[1..] == xs[1..] + ys;
      ApplyAllAppend(ApplyChange(o, xs[0]), xs[1..], ys);
    }
  }

  /** The hash code of an OWL object; its name's `String.hashCode` stands for the OWL API's own. */
  function EntityHash(e: Entity): int {
    StringHash(e.name)
  }

  function LiteralHash(l: Literal): int {
    StringHash(l.lexical)
  }

  /** `Objects.hashCode`'s treatment of a possibly null reference. */
  function NullableEntityHash(e: Option<Entity>): int {
    match e
    case None => 0
    case Some(x) => EntityHash(x)
  }

  /**
   * `AbstractSet.hashCode`: the `int` sum of the element hashes. The sum does
   * not depend on the order in which the elements are visited.
   */
  ghost function LiteralSetHash(s: set<Literal>): (h: int)
    ensures IsInt32(h)
  {
    if s == {} then 0
    else
      var x :| x in s;
      Wrap(LiteralHash(x) + LiteralSetHash(s - {x}))
  }
}
