/**
 * The pure helpers of `OWLReferencesInterface` (the short name of an OWL
 * object parsed from its rendering, the element of a singleton set) and
 * `OWLReferencesContainer`, the registry of ontology references by name.
 */
module OwlReferences {
  import opened Wrappers
  import opened Text

  // Parsing the short name of an OWL object.

  /** What `getOWLName` gives back: a name, `null`, or a thrown `StringIndexOutOfBoundsException`. */
  datatype OwlName = Name(text: string) | NullName | OutOfBounds

  /**
   * `getOWLName` on the `toString` rendering of an object (`None` for a null
   * object). A `'#'` selects the text after the last `'#'` up to the last
   * `'>'` (or the end when no `'>'` follows index 0); otherwise an `http`
   * IRI selects the text between the last `'/'` and the last `'>'`;
   * otherwise a literal selects the text between the first two double
   * quotes. When nothing applies the whole rendering is returned.
   * Java's `substring` throws when the end index precedes the start.
   */
  function GetOWLName(obj: Option<string>): (r: OwlName)
    ensures r.NullName? <==> obj.None?
    ensures r.Name? && obj.Some? ==> |r.text| <= |obj.value|
    ensures r.OutOfBounds? ==> obj.Some? && ('#' in obj.value || Contains(obj.value, "http"))
  {
    match obj
    case None => NullName
    case Some(tmp) =>
      var start := LastIndexOf(tmp, '#');
      var lastClose := LastIndexOf(tmp, '>');
      var end := if lastClose <= 0 then |tmp| else lastClose;
      if start >= 0 then
        if start + 1 <= end then Name(tmp[start + 1..end]) else OutOfBounds
      else if Contains(tmp, "http") && Contains(tmp, "://") then
        // `lastIndexOf` is below the length, so the source's re-trimming branch never runs.
        var s := LastIndexOf(tmp, '/');
        var e := LastIndexOf(tmp, '>');
        if s >= 0 && e >= 0 then
          if s + 1 <= e then Name(tmp[s + 1..e]) else OutOfBounds
        else Name(tmp)
      else
        var open := IndexOf(tmp, '"');
        if open >= 0 then
          var rest := tmp[open + 1..];
          var close := IndexOf(rest, '"');
          if close >= 0 then Name(rest[..close]) else Name(tmp)
        else Name(tmp)
  }

  /** The last occurrence of `c` in `a + [c] + b` when `b` lacks `c`. */
  lemma {:induction false} LastIndexOfSplit(a: string, c: char, b: string)
    requires c !in b
    ensures LastIndexOf(a + [c] + b, c) == |a|
    decreases |b|
  {
    var s := a + [c] + b;
    if |b| == 0 {
      assert s == a + [c];
    } else {
      var b' := b[..|b| - 1];
      assert s[|s| - 1] == b[|b| - 1] && b[|b| - 1] in b;
      assert s[..|s| - 1] == a + [c] + b';
      assert forall x :: x in b' ==> x in b;
      LastIndexOfSplit(a, c, b');
    }
  }

  lemma LastIndexOfAbsent(s: string, c: char)
    requires c !in s
    ensures LastIndexOf(s, c) == -1
  {
    assert forall k :: 0 <= k < |s| ==> s[k] in s;
  }

  /** The first occurrence of `c` in `a + [c] + b` when `a` lacks `c`. */
  lemma IndexOfSplit(a: string, c: char, b: string)
    requires c !in a
    ensures IndexOf(a + [c] + b, c) == |a|
  {
    var s := a + [c] + b;
    assert s[|a|] == c;
    forall k | 0 <= k < |a|
      ensures s[k] != c
    {
      assert s[k] == a[k] && a[k] in a;
    }
  }

  /**
   * An IRI rendered as `<prefix#name>`, or as `prefix#name` when the prefix
   * holds no `'>'`, is named by the fragment after the `'#'`.
   */
  lemma NameOfFragmentIri(prefix: string, name: string, tail: string)
    requires '#' !in name && '>' !in name
    requires tail == ">" || (tail == "" && '>' !in prefix)
    ensures GetOWLName(Some(prefix + "#" + name + tail)) == Name(name)
  {
    var tmp := prefix + "#" + name + tail;
    assert tmp == prefix + ['#'] + (name + tail);
    assert '#' !in name + tail;
    LastIndexOfSplit(prefix, '#', name + tail);
    if tail == ">" {
      assert tmp == (prefix + "#" + name) + ['>'] + "";
      LastIndexOfSplit(prefix + "#" + name, '>', "");
      assert tmp[|prefix| + 1..|prefix| + 1 + |name|] == name;
    } else {
      assert tmp == prefix + "#" + name;
      assert '>' !in tmp;
      LastIndexOfAbsent(tmp, '>');
      assert tmp[|prefix| + 1..] == name;
    }
  }

  /**
   * A rendering without `'#'` that mentions an `http` scheme and ends in
   * `'>'` is named by what follows its last `'/'`.
   */
  lemma NameOfSlashIri(prefix: string, name: string)
    requires '#' !in prefix && '#' !in name
    requires '/' !in name && '>' !in name
    requires Contains(prefix, "http") && Contains(prefix, "://")
    ensures GetOWLName(Some(prefix + "/" + name + ">")) == Name(name)
  {
    var tmp := prefix + "/" + name + ">";
    SlashNameParts(prefix, name);
    ContainsExtended(prefix, "/" + name + ">", "http");
    ContainsExtended(prefix, "/" + name + ">", "://");
    SchemeSlice(tmp, |prefix|, |prefix| + 1 + |name|);
  }

  /** A rendering without `'#'` that mentions a scheme is cut between its last `'/'` and its last `'>'`. */
  lemma SchemeSlice(tmp: string, s: int, e: int)
    requires LastIndexOf(tmp, '#') == -1 && Contains(tmp, "http") && Contains(tmp, "://")
    requires LastIndexOf(tmp, '/') == s && LastIndexOf(tmp, '>') == e && 0 <= s < e
    ensures GetOWLName(Some(tmp)) == Name(tmp[s + 1..e])
  {
  }

  /** Where `'#'`, the last `'/'` and the last `'>'` of `prefix/name>` are. */
  lemma SlashNameParts(prefix: string, name: string)
    requires '#' !in prefix && '#' !in name
    requires '/' !in name && '>' !in name
    ensures var tmp := prefix + "/" + name + ">";
            && tmp == prefix + ("/" + name + ">")
            && LastIndexOf(tmp, '#') == -1
            && LastIndexOf(tmp, '/') == |prefix|
            && LastIndexOf(tmp, '>') == |prefix| + 1 + |name|
            && tmp[|prefix| + 1..|prefix| + 1 + |name|] == name
  {
    var tmp := prefix + "/" + name + ">";
    assert '#' !in tmp;
    LastIndexOfAbsent(tmp, '#');
    assert tmp == prefix + ['/'] + (name + ">");
    LastIndexOfSplit(prefix, '/', name + ">");
    assert tmp == (prefix + "/" + name) + ['>'] + "";
    LastIndexOfSplit(prefix + "/" + name, '>', "");
    assert tmp[|prefix| + 1..|prefix| + 1 + |name|] == name;
  }

  /** A text still holds a pattern once more text follows it. */
  lemma ContainsExtended(a: string, b: string, p: string)
    requires Contains(a, p)
    ensures Contains(a + b, p)
  {
    ContainsMeans(a, p);
    ContainsMeans(a + b, p);
    var i :| OccursAt(a, p, i);
    assert (a + b)[i..i + |p|] == a[i..i + |p|];
    assert OccursAt(a + b, p, i);
  }

  /**
   * A literal rendering `"value"suffix` with no `'#'` and no `http` is
   * named by its quoted value.
   */
  lemma NameOfQuotedLiteral(value: string, suffix: string)
    requires '"' !in value && '#' !in value && '#' !in suffix
    requires !Contains("\"" + value + "\"" + suffix, "http")
    ensures GetOWLName(Some("\"" + value + "\"" + suffix)) == Name(value)
  {
    var tmp := "\"" + value + "\"" + suffix;
    assert '#' !in tmp;
    LastIndexOfAbsent(tmp, '#');
    assert tmp == "" + ['"'] + (value + "\"" + suffix);
    IndexOfSplit("", '"', value + "\"" + suffix);
    var rest := tmp[1..];
    assert rest == value + ['"'] + suffix;
    IndexOfSplit(value, '"', suffix);
    assert rest[..|value|] == value;
  }

  const PIZZA_ONTOLOGY := "<http://www.co-ode.org/ontologies/pizza/pizza.owl"
  const QUOTE := "\""

  /** The IRI rendering the source documents: `<...pizza.owl#America>` is named `America`. */
  lemma IriExample()
    ensures GetOWLName(Some(PIZZA_ONTOLOGY + "#" + "America" + ">")) == Name("America")
  {
    NameOfFragmentIri(PIZZA_ONTOLOGY, "America", ">");
  }

  /** The literal rendering the source documents: `"1"^^xsd:integer` is named `1`. */
  lemma LiteralExample()
    ensures GetOWLName(Some(QUOTE + "1" + QUOTE + "^^xsd:integer")) == Name("1")
  {
    var t := QUOTE + "1" + QUOTE + "^^xsd:integer";
    assert t == "\"1\"^^xsd:integer";
    MissingCharNotContained(t, "http", 0);
    NameOfQuotedLiteral("1", "^^xsd:integer");
  }

  /** An element of a set handed to the set form of `getOWLName`. */
  datatype Element = OwlObject(rendering: string) | NonOwlObject

  /**
   * The set form of `getOWLName`, over the set's iteration order: the names
   * of the OWL objects, with other elements skipped; `None` when parsing
   * one of them throws.
   */
  function GetOWLNames(objects: seq<Element>): (r: Option<set<string>>)
    decreases |objects|
  {
    if |objects| == 0 then Some({})
    else
      var rest := GetOWLNames(objects[1..]);
      match objects[0]
      case NonOwlObject => rest
      case OwlObject(t) =>
        match GetOWLName(Some(t))
        case Name(n) => if rest.Some? then Some({n} + rest.value) else None
        case _ => None
  }

  /** A rendering whose name can be parsed. */
  predicate Parses(e: Element) {
    e.OwlObject? && GetOWLName(Some(e.rendering)).Name?
  }

  /**
   * The set form succeeds iff every OWL object parses, and then yields
   * exactly their names: non-OWL elements contribute nothing.
   */
  lemma {:induction false} GetOWLNamesMeans(objects: seq<Element>)
    ensures GetOWLNames(objects).Some? <==> forall i :: 0 <= i < |objects| && objects[i].OwlObject? ==> Parses(objects[i])
    ensures GetOWLNames(objects).Some? ==>
      GetOWLNames(objects).value == set i | 0 <= i < |objects| && Parses(objects[i]) :: GetOWLName(Some(objects[i].rendering)).text
    decreases |objects|
  {
    if |objects| > 0 {
      var tail := objects[1..];
      GetOWLNamesMeans(tail);
      assert forall i :: 1 <= i < |objects| ==> objects[i] == tail[i - 1];
      if GetOWLNames(objects).Some? {
        var all := set i | 0 <= i < |objects| && Parses(objects[i]) :: GetOWLName(Some(objects[i].rendering)).text;
        var later := set i | 0 <= i < |tail| && Parses(tail[i]) :: GetOWLName(Some(tail[i].rendering)).text;
        forall n | n in later
          ensures n in all
        {
          var i :| 0 <= i < |tail| && Parses(tail[i]) && GetOWLName(Some(tail[i].rendering)).text == n;
          assert Parses(objects[i + 1]);
        }
        forall n | n in all
          ensures n in later || (Parses(objects[0]) && n == GetOWLName(Some(objects[0].rendering)).text)
        {
          var i :| 0 <= i < |objects| && Parses(objects[i]) && GetOWLName(Some(objects[i].rendering)).text == n;
          if i > 0 {
            assert Parses(tail[i - 1]);
          }
        }
        if Parses(objects[0]) {
          assert GetOWLName(Some(objects[0].rendering)).text in all;
        }
      } else if objects[0].OwlObject? && !Parses(objects[0]) {
        assert !Parses(objects[0]);
      } else {
        var i :| 0 <= i < |tail| && tail[i].OwlObject? && !Parses(tail[i]);
        assert objects[i + 1] == tail[i];
      }
    }
  }

  /**
   * `getOnlyElement` over the set's iteration order: the first element, and
   * `null` for a null or empty set.
   */
  function GetOnlyElement<T>(s: Option<seq<T>>): (r: Option<T>)
    ensures r.Some? <==> s.Some? && |s.value| > 0
    ensures r.Some? ==> r.value in s.value
  {
    if s.Some? && |s.value| > 0 then Some(s.value[0]) else None
  }

  // The registry of references.

  const COMMAND_CREATE := 0
  const COMMAND_LOAD_FILE := 1
  const COMMAND_LOAD_WEB := 2

  /**
   * An ontology reference as far as the registry sees it: its name (null
   * when created without one), its paths and command once initialised.
   */
  datatype Reference = Reference(
    referenceName: Option<string>,
    filePath: Option<string>,
    ontologyPath: Option<string>,
    usedCommand: int,
    initialised: bool)

  /** `addInstance` on the map: insert when the name is free, report whether it did. */
  function Register(m: map<string, Reference>, name: string, instance: Reference): (r: (map<string, Reference>, bool))
    ensures r.1 <==> name !in m
    ensures name in r.0 && m.Keys <= r.0.Keys
  {
    if name !in m then (m[name := instance], true) else (m, false)
  }

  /** `removeInstance` on the map: delete when the name is present, report whether it did. */
  function Unregister(m: map<string, Reference>, name: string): (r: (map<string, Reference>, bool))
    ensures r.1 <==> name in m
    ensures name !in r.0 && r.0.Keys <= m.Keys
  {
    if name in m then (m - {name}, true) else (m, false)
  }

  /** A registered name keeps its reference: no later registration overwrites it. */
  lemma RegisterKeepsExisting(m: map<string, Reference>, name: string, instance: Reference, other: string)
    requires other in m
    ensures other in Register(m, name, instance).0 && Register(m, name, instance).0[other] == m[other]
  {
  }

  /** Registering a fresh name and then removing it gives back the map; a second registration fails. */
  lemma RegisterUnregister(m: map<string, Reference>, name: string, instance: Reference)
    requires name !in m
    ensures Unregister(Register(m, name, instance).0, name) == (m, true)
    ensures !Register(Register(m, name, instance).0, name, instance).1
  {
    assert m[name := instance] - {name} == m;
  }

  /** `OWLReferencesContainer` and the registration step of the reference constructors. */
  class ReferencesContainer {
    var allReferences: map<string, Reference>

    constructor ()
      ensures allReferences == map[]
    {
      allReferences := map[];
    }

    /** `isInstance(referenceName)`. */
    predicate IsInstance(referenceName: string)
      reads this
    {
      referenceName in allReferences
    }

    /** `getOWLReferences`: the reference registered under a name, or null. */
    function GetOWLReferences(referenceName: string): (r: Option<Reference>)
      reads this
      ensures r.Some? <==> IsInstance(referenceName)
      ensures r.Some? ==> r.value == allReferences[referenceName]
    {
      if referenceName in allReferences then Some(allReferences[referenceName]) else None
    }

    /** `addInstance`. */
    method AddInstance(name: string, instance: Reference) returns (added: bool)
      modifies this
      ensures (allReferences, added) == Register(old(allReferences), name, instance)
    {
      if name !in allReferences {
        allReferences := allReferences[name := instance];
        added := true;
      } else {
        added := false;
      }
    }

    /** `removeInstance`, as `finalize` calls it. */
    method RemoveInstance(name: string) returns (removed: bool)
      modifies this
      ensures (allReferences, removed) == Unregister(old(allReferences), name)
    {
      if name in allReferences {
        allReferences := allReferences - {name};
        removed := true;
      } else {
        removed := false;
      }
    }

    /**
     * The constructors and `initializer`: a reference without a name is
     * left uninitialised; one whose name is taken is left with only its
     * name; otherwise it is registered with its paths and command.
     */
    method NewReference(referenceName: Option<string>, filePath: string, ontologyPath: string, command: int)
      returns (r: Reference)
      modifies this
      ensures r.referenceName == referenceName
      ensures r.initialised <==> referenceName.Some? && referenceName.value !in old(allReferences)
      ensures r.initialised ==>
        && r.filePath == Some(filePath) && r.ontologyPath == Some(ontologyPath) && r.usedCommand == command
        && allReferences == old(allReferences)[referenceName.value := r]
      ensures !r.initialised ==> r.filePath.None? && r.ontologyPath.None? && allReferences == old(allReferences)
    {
      r := Reference(referenceName, None, None, 0, false);
      if referenceName.Some? {
        var registered := Reference(referenceName, Some(filePath), Some(ontologyPath), command, true);
        var added := AddInstance(referenceName.value, registered);
        if added {
          r := registered;
        }
      }
    }
  }
}
