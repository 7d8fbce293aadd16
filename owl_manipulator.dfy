/**
 * `OWLManipulator`: ontology changes are either applied at once or queued in
 * `changeList` until `applyChanges()` drains the queue, depending on the
 * `manipulationBuffering` flag.
 */
module OwlManipulator {
  import opened Wrappers
  import opened Owl

  // Expression tags shared with `ClassRestriction`; a tag of at least
  // RESTRICTION_MIN carries a cardinality.
  const RESTRICTION_ONLY := 1
  const RESTRICTION_SOME := 2
  const RESTRICTION_MIN := 3
  const RESTRICTION_EXACT := 4
  const RESTRICTION_MAX := 5

  /** The buffering flag a manipulator gets when none is given. */
  const DEFAULT_MANIPULATION_BUFFERING := false

  /** Everything a manipulator's operations read or write. */
  datatype ManipulatorState = ManipulatorState(ontology: Ontology, changeList: seq<Change>, buffering: bool)

  /** What every single-change mutator does with the change it builds: queue it when buffering, apply it otherwise. */
  function Submit(s: ManipulatorState, c: Change): ManipulatorState {
    if s.buffering then s.(changeList := s.changeList + [c])
    else s.(ontology := ApplyChange(s.ontology, c))
  }

  /** A run of mutators, in call order. */
  function SubmitAll(s: ManipulatorState, cs: seq<Change>): ManipulatorState
    decreases |cs|
  {
    if |cs| == 0 then s else SubmitAll(Submit(s, cs[0]), cs[1..])
  }

  /** `applyChanges()`: the queue is applied in order, then emptied. */
  function Drain(s: ManipulatorState): (r: ManipulatorState)
    ensures r.changeList == []
    ensures r.buffering == s.buffering
  {
    s.(ontology := ApplyAll(s.ontology, s.changeList), changeList := [])
  }

  /** While buffering, a run of mutators only extends the queue. */
  lemma {:induction false} SubmitAllBuffered(s: ManipulatorState, cs: seq<Change>)
    requires s.buffering
    ensures SubmitAll(s, cs) == s.(changeList := s.changeList + cs)
    decreases |cs|
  {
    if |cs| > 0 {
      SubmitAllBuffered(Submit(s, cs[0]), cs[1..]);
      assert s.changeList + [cs[0]] + cs[1..] == s.changeList + cs;
    } else {
      assert s.changeList + cs == s.changeList;
    }
  }

  /** Without buffering, a run of mutators applies its changes in order and never touches the queue. */
  lemma {:induction false} SubmitAllImmediate(s: ManipulatorState, cs: seq<Change>)
    requires !s.buffering
    ensures SubmitAll(s, cs) == s.(ontology := ApplyAll(s.ontology, cs))
    decreases |cs|
  {
    if |cs| > 0 {
      SubmitAllImmediate(Submit(s, cs[0]), cs[1..]);
    }
  }

  /**
   * Buffering only defers: queueing a run of changes and then calling
   * `applyChanges()` leaves the same ontology as draining first and applying
   * the same changes one by one.
   */
  lemma BufferingDefersChanges(s: ManipulatorState, cs: seq<Change>)
    ensures Drain(SubmitAll(s.(buffering := true), cs)).ontology
         == SubmitAll(Drain(s).(buffering := false), cs).ontology
  {
    SubmitAllBuffered(s.(buffering := true), cs);
    SubmitAllImmediate(Drain(s).(buffering := false), cs);
    ApplyAllAppend(s.ontology, s.changeList, cs);
  }

  /** The last change in `cs` that concerns axiom `a`, if any. */
  function LastChangeOn(cs: seq<Change>, a: Axiom): Option<Change>
    decreases |cs|
  {
    if |cs| == 0 then None
    else if cs[|cs| - 1].axiom == a then Some(cs[|cs| - 1])
    else LastChangeOn(cs[..|cs| - 1], a)
  }

  /** After a list of changes an axiom is present iff the last change on it adds it, or no change concerns it and it was there. */
  lemma {:induction false} ApplyAllMembership(o: Ontology, cs: seq<Change>, a: Axiom)
    ensures a in ApplyAll(o, cs) <==>
              (match LastChangeOn(cs, a)
               case None => a in o
               case Some(c) => c.AddAxiom?)
    decreases |cs|
  {
    if |cs| > 0 {
      var init := cs[..|cs| - 1];
      var last := cs[|cs| - 1];
      assert cs == init + [last];
      ApplyAllAppend(o, init, [last]);
      ApplyAllMembership(o, init, a);
    }
  }

  /** Applying the same list of changes twice leaves what applying it once leaves. */
  lemma ApplyAllIdempotent(o: Ontology, cs: seq<Change>)
    ensures ApplyAll(ApplyAll(o, cs), cs) == ApplyAll(o, cs)
  {
    forall a
      ensures a in ApplyAll(ApplyAll(o, cs), cs) <==> a in ApplyAll(o, cs)
    {
      ApplyAllMembership(ApplyAll(o, cs), cs, a);
      ApplyAllMembership(o, cs, a);
    }
  }

  /** The changes `OWLEntityRemover` returns for an entity: one removal per axiom of `o` that mentions it. */
  ghost predicate IsEntityRemoval(o: Ontology, e: Entity, removals: seq<Change>) {
    (forall k :: 0 <= k < |removals| ==> removals[k].RemoveAxiom?) &&
    (forall a :: a in o && e in Signature(a) <==> exists k :: 0 <= k < |removals| && removals[k].axiom == a)
  }

  /** Applying an entity removal deletes exactly the axioms that mention the entity. */
  lemma EntityRemovalErases(o: Ontology, e: Entity, removals: seq<Change>)
    requires IsEntityRemoval(o, e, removals)
    ensures ApplyAll(o, removals) == set a | a in o && e !in Signature(a)
  {
    forall a
      ensures a in ApplyAll(o, removals) <==> a in o && e !in Signature(a)
    {
      ApplyAllMembership(o, removals, a);
      LastChangeOnIsMember(removals, a);
    }
  }

  lemma {:induction false} LastChangeOnIsMember(cs: seq<Change>, a: Axiom)
    ensures LastChangeOn(cs, a).Some? <==> exists k :: 0 <= k < |cs| && cs[k].axiom == a
    ensures LastChangeOn(cs, a).Some? ==> LastChangeOn(cs, a).value in cs && LastChangeOn(cs, a).value.axiom == a
    decreases |cs|
  {
    if |cs| > 0 {
      var init := cs[..|cs| - 1];
      LastChangeOnIsMember(init, a);
      if cs[|cs| - 1].axiom != a {
        assert forall k :: 0 <= k < |init| ==> init[k] == cs[k];
        assert (exists k :: 0 <= k < |cs| && cs[k].axiom == a) ==> exists k :: 0 <= k < |init| && init[k].axiom == a;
      }
    }
  }

  /** `OWLManipulator`: the ontology it edits, its pending changes and its buffering flag. */
  class Manipulator {
    var ontology: Ontology
    var changeList: seq<Change>
    var manipulationBuffering: bool

    function State(): ManipulatorState
      reads this
    {
      ManipulatorState(ontology, changeList, manipulationBuffering)
    }

    constructor (ontology: Ontology, manipulationBuffering: bool)
      ensures State() == ManipulatorState(ontology, [], manipulationBuffering)
    {
      this.ontology := ontology;
      this.changeList := [];
      this.manipulationBuffering := manipulationBuffering;
    }

    /** The one-argument constructor takes `DEFAULT_MANIPULATION_BUFFERING`. */
    constructor WithDefaultBuffering(ontology: Ontology)
      ensures State() == ManipulatorState(ontology, [], false)
    {
      this.ontology := ontology;
      this.changeList := [];
      this.manipulationBuffering := DEFAULT_MANIPULATION_BUFFERING;
    }

    method SetManipulationBuffering(b: bool)
      modifies this
      ensures State() == old(State()).(buffering := b)
    {
      manipulationBuffering := b;
    }

    /** `getAddAxiom(axiom, addToChangeList)`: builds the change and queues it only when asked to. */
    method GetAddAxiomQueued(axiom: Axiom, addToChangeList: bool) returns (c: Change)
      modifies this
      ensures c == AddAxiom(axiom)
      ensures State() == old(State()).(changeList := old(changeList) + (if addToChangeList then [c] else []))
    {
      c := AddAxiom(axiom);
      if addToChangeList {
        changeList := changeList + [c];
      }
    }

    /** `getAddAxiom(axiom)`: queues according to the current buffering flag. */
    method GetAddAxiom(axiom: Axiom) returns (c: Change)
      modifies this
      ensures c == AddAxiom(axiom)
      ensures State() == old(State()).(changeList := old(changeList) + (if old(manipulationBuffering) then [c] else []))
    {
      c := GetAddAxiomQueued(axiom, manipulationBuffering);
    }

    /** `getRemoveAxiom(axiom, addToChangeList)`. */
    method GetRemoveAxiomQueued(axiom: Axiom, addToChangeList: bool) returns (c: Change)
      modifies this
      ensures c == RemoveAxiom(axiom)
      ensures State() == old(State()).(changeList := old(changeList) + (if addToChangeList then [c] else []))
    {
      c := RemoveAxiom(axiom);
      if addToChangeList {
        changeList := changeList + [c];
      }
    }

    /** `getRemoveAxiom(axiom)`. */
    method GetRemoveAxiom(axiom: Axiom) returns (c: Change)
      modifies this
      ensures c == RemoveAxiom(axiom)
      ensures State() == old(State()).(changeList := old(changeList) + (if old(manipulationBuffering) then [c] else []))
    {
      c := GetRemoveAxiomQueued(axiom, manipulationBuffering);
    }

    /** `applyChanges()`: applies the queue in order and empties it. */
    method ApplyChanges()
      modifies this
      ensures State() == Drain(old(State()))
    {
      ontology := ApplyAll(ontology, changeList);
      changeList := [];
    }

    /** `applyChanges(change)`: applies one change; the queue is left alone. */
    method ApplyOneChange(c: Change)
      modifies this
      ensures State() == old(State()).(ontology := ApplyChange(old(ontology), c))
    {
      ontology := ApplyChange(ontology, c);
    }

    /** `applyChanges(list)`: applies a list of changes; the queue is left alone. */
    method ApplyChangeList(cs: seq<Change>)
      modifies this
      ensures State() == old(State()).(ontology := ApplyAll(old(ontology), cs))
    {
      ontology := ApplyAll(ontology, cs);
    }

    method AddObjectPropertyB2Individual(ind: Entity, prop: Entity, value: Entity) returns (c: Change)
      modifies this
      ensures c == AddAxiom(ObjectPropertyAssertion(prop, ind, value))
      ensures State() == Submit(old(State()), c)
    {
      c := GetAddAxiomQueued(ObjectPropertyAssertion(prop, ind, value), manipulationBuffering);
      if !manipulationBuffering {
        ApplyOneChange(c);
      }
    }

    method AddDataPropertyB2Individual(ind: Entity, prop: Entity, value: Literal) returns (c: Change)
      modifies this
      ensures c == AddAxiom(DataPropertyAssertion(prop, ind, value))
      ensures State() == Submit(old(State()), c)
    {
      c := GetAddAxiomQueued(DataPropertyAssertion(prop, ind, value), manipulationBuffering);
      if !manipulationBuffering {
        ApplyOneChange(c);
      }
    }

    method AddIndividualB2Class(ind: Entity, cls: Entity) returns (c: Change)
      modifies this
      ensures c == AddAxiom(ClassAssertion(cls, ind))
      ensures State() == Submit(old(State()), c)
    {
      c := GetAddAxiomQueued(ClassAssertion(cls, ind), manipulationBuffering);
      if !manipulationBuffering {
        ApplyOneChange(c);
      }
    }

    method RemoveObjectPropertyB2Individual(ind: Entity, prop: Entity, value: Entity) returns (c: Change)
      modifies this
      ensures c == RemoveAxiom(ObjectPropertyAssertion(prop, ind, value))
      ensures State() == Submit(old(State()), c)
    {
      c := GetRemoveAxiomQueued(ObjectPropertyAssertion(prop, ind, value), manipulationBuffering);
      if !manipulationBuffering {
        ApplyOneChange(c);
      }
    }

    method RemoveDataPropertyB2Individual(ind: Entity, prop: Entity, value: Literal) returns (c: Change)
      modifies this
      ensures c == RemoveAxiom(DataPropertyAssertion(prop, ind, value))
      ensures State() == Submit(old(State()), c)
    {
      c := GetRemoveAxiomQueued(DataPropertyAssertion(prop, ind, value), manipulationBuffering);
      if !manipulationBuffering {
        ApplyOneChange(c);
      }
    }

    method RemoveIndividualB2Class(ind: Entity, cls: Entity) returns (c: Change)
      modifies this
      ensures c == RemoveAxiom(ClassAssertion(cls, ind))
      ensures State() == Submit(old(State()), c)
    {
      c := GetRemoveAxiomQueued(ClassAssertion(cls, ind), manipulationBuffering);
      if !manipulationBuffering {
        ApplyOneChange(c);
      }
    }

    /**
     * `replaceDataPropertyB2Individual`: removes the old value when there is
     * one, then adds the new one, each through its own mutator.
     */
    method ReplaceDataPropertyB2Individual(ind: Entity, prop: Entity, oldValue: Option<Literal>, newValue: Literal)
      returns (changes: seq<Change>)
      modifies this
      ensures changes == ReplaceChanges(ind, prop, oldValue, newValue)
      ensures State() == SubmitAll(old(State()), changes)
    {
      changes := [];
      if oldValue.Some? {
        var r := RemoveDataPropertyB2Individual(ind, prop, oldValue.value);
        changes := changes + [r];
      }
      var a := AddDataPropertyB2Individual(ind, prop, newValue);
      changes := changes + [a];
      ghost var s0 := old(State());
      if oldValue.Some? {
        assert changes[1..] == [a];
        assert SubmitAll(Submit(s0, changes[0]), [a]) == Submit(Submit(s0, changes[0]), a);
      } else {
        assert SubmitAll(s0, [a]) == Submit(s0, a);
      }
    }

    /**
     * `removeIndividual(individual)`: `removals` stands for what the OWL API's
     * entity remover returns for `individual`; they are applied at once, or
     * all queued when buffering.
     */
    method RemoveIndividual(individual: Entity, removals: seq<Change>) returns (r: seq<Change>)
      modifies this
      ensures r == removals
      ensures !old(manipulationBuffering) ==> State() == old(State()).(ontology := ApplyAll(old(ontology), removals))
      ensures old(manipulationBuffering) ==> State() == old(State()).(changeList := old(changeList) + removals)
    {
      if !manipulationBuffering {
        ApplyChangeList(removals);
      } else {
        changeList := changeList + removals;
      }
      r := removals;
    }

    /** `removeIndividual(set)`: one entity removal per individual, in iteration order, concatenated. */
    method RemoveIndividuals(individuals: seq<Entity>, removals: seq<seq<Change>>) returns (changes: seq<Change>)
      requires |removals| == |individuals|
      modifies this
      ensures changes == Flatten(removals)
      ensures !old(manipulationBuffering) ==> State() == old(State()).(ontology := ApplyAll(old(ontology), changes))
      ensures old(manipulationBuffering) ==> State() == old(State()).(changeList := old(changeList) + changes)
    {
      changes := [];
      var k := 0;
      while k < |individuals|
        invariant 0 <= k <= |individuals|
        invariant changes == Flatten(removals[..k])
        invariant manipulationBuffering == old(manipulationBuffering)
        invariant !old(manipulationBuffering) ==> State() == old(State()).(ontology := ApplyAll(old(ontology), changes))
        invariant old(manipulationBuffering) ==> State() == old(State()).(changeList := old(changeList) + changes)
      {
        var r := RemoveIndividual(individuals[k], removals[k]);
        ApplyAllAppend(old(ontology), changes, r);
        FlattenSnoc(removals[..k], r);
        assert removals[..k + 1] == removals[..k] + [r];
        changes := changes + r;
        k := k + 1;
      }
      assert removals[..k] == removals;
    }

    /**
     * `convertSuperClassesToEquivalentClass`: each change of the conversion is
     * applied at once unless buffering, and queued in every case.
     */
    method ConvertSuperClassesToEquivalentClass(conversion: seq<Change>) returns (changes: seq<Change>)
      modifies this
      ensures changes == conversion
      ensures State() == ConvertState(old(State()), conversion)
    {
      var k := 0;
      while k < |conversion|
        invariant 0 <= k <= |conversion|
        invariant State() == ConvertState(old(State()), conversion[..k])
      {
        var c := conversion[k];
        if !manipulationBuffering {
          ApplyOneChange(c);
        }
        changeList := changeList + [c];
        ConvertStateSnoc(old(State()), conversion[..k], c);
        assert conversion[..k + 1] == conversion[..k] + [c];
        k := k + 1;
      }
      assert conversion[..k] == conversion;
      changes := conversion;
    }
  }

  function Flatten(xss: seq<seq<Change>>): seq<Change>
    decreases |xss|
  {
    if |xss| == 0 then [] else Flatten(xss[..|xss| - 1]) + xss[|xss| - 1]
  }

  lemma FlattenSnoc(xss: seq<seq<Change>>, xs: seq<Change>)
    ensures Flatten(xss + [xs]) == Flatten(xss) + xs
  {
    assert (xss + [xs])[..|xss|] == xss;
  }

  /** The changes `replaceDataPropertyB2Individual` returns. */
  function ReplaceChanges(ind: Entity, prop: Entity, oldValue: Option<Literal>, newValue: Literal): seq<Change> {
    (if oldValue.Some? then [RemoveAxiom(DataPropertyAssertion(prop, ind, oldValue.value))] else [])
      + [AddAxiom(DataPropertyAssertion(prop, ind, newValue))]
  }

  /**
   * After an unbuffered replacement the ontology asserts the new value and no
   * longer the old one (unless old and new coincide); nothing is queued.
   */
  lemma ReplaceLeavesNewValue(s: ManipulatorState, ind: Entity, prop: Entity, oldValue: Option<Literal>, newValue: Literal)
    requires !s.buffering
    ensures var r := SubmitAll(s, ReplaceChanges(ind, prop, oldValue, newValue));
      && DataPropertyAssertion(prop, ind, newValue) in r.ontology
      && (oldValue.Some? && oldValue.value != newValue ==> DataPropertyAssertion(prop, ind, oldValue.value) !in r.ontology)
      && r.changeList == s.changeList
  {
    var cs := ReplaceChanges(ind, prop, oldValue, newValue);
    SubmitAllImmediate(s, cs);
    if oldValue.Some? {
      ApplyAllAppend(s.ontology, [cs[0]], [cs[1]]);
      assert cs == [cs[0]] + [cs[1]];
    }
  }

  /** The manipulator state after the conversion loop has handled `cs`. */
  function ConvertState(s: ManipulatorState, cs: seq<Change>): ManipulatorState {
    ManipulatorState(if s.buffering then s.ontology else ApplyAll(s.ontology, cs), s.changeList + cs, s.buffering)
  }

  lemma ConvertStateSnoc(s: ManipulatorState, cs: seq<Change>, c: Change)
    ensures ConvertState(s, cs + [c]) ==
      var t := ConvertState(s, cs);
      t.(ontology := if s.buffering then t.ontology else ApplyChange(t.ontology, c), changeList := t.changeList + [c])
  {
    ApplyAllAppend(s.ontology, cs, [c]);
  }

  /**
   * The conversion queues its changes even when they were already applied;
   * a later `applyChanges()` re-applies them, which leaves the ontology as it
   * was when nothing else was pending.
   */
  lemma ConvertThenDrainIsHarmless(s: ManipulatorState, cs: seq<Change>)
    requires !s.buffering && s.changeList == []
    ensures ConvertState(s, cs).changeList == cs
    ensures Drain(ConvertState(s, cs)).ontology == ApplyAll(s.ontology, cs)
  {
    assert s.changeList + cs == cs;
    ApplyAllIdempotent(s.ontology, cs);
  }
}
