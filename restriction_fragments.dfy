/**
 * The fragments `SemanticRestriction` builds its restriction type strings
 * from, and the facts about them the `contains`-based predicates rely on:
 * no fragment occurs inside another, and `'_'` only ends a fragment.
 */
module RestrictionFragments {
  import opened Text

  const D := "_"
  const CLASS_DEF := "C-DEFINITION" + D
  const DATA_DOMAIN := "D-DOMAIN" + D
  const DATA_RANGE := "D-RANGE" + D
  const OBJECT_DOMAIN := "O-DOMAIN" + D
  const OBJECT_RANGE := "O-RANGE" + D
  const CLASS := "CLASS"
  const DATA := "DATA"
  const OBJECT := "OBJECT"
  const MIN := "MIN" + D
  const MAX := "MAX" + D
  const EXACT := "EXACT" + D
  const SOME := "SOME" + D
  const ALL := "ALL" + D

  /** The fragments the `is*` predicates look for. */
  const FRAGMENTS: seq<string> := [CLASS_DEF, DATA_DOMAIN, DATA_RANGE, OBJECT_DOMAIN, OBJECT_RANGE, CLASS, DATA, OBJECT, MIN, MAX, EXACT, SOME, ALL]

  lemma FragmentLiterals()
    ensures CLASS_DEF == "C-DEFINITION_"
    ensures DATA_DOMAIN == "D-DOMAIN_"
    ensures DATA_RANGE == "D-RANGE_"
    ensures OBJECT_DOMAIN == "O-DOMAIN_"
    ensures OBJECT_RANGE == "O-RANGE_"
    ensures CLASS == "CLASS"
    ensures DATA == "DATA"
    ensures OBJECT == "OBJECT"
    ensures MIN == "MIN_"
    ensures MAX == "MAX_"
    ensures EXACT == "EXACT_"
    ensures SOME == "SOME_"
    ensures ALL == "ALL_"
  {
  }

  lemma ClassDefOnlyInItself()
    ensures !Contains(DATA_DOMAIN, CLASS_DEF)
    ensures !Contains(DATA_RANGE, CLASS_DEF)
    ensures !Contains(OBJECT_DOMAIN, CLASS_DEF)
    ensures !Contains(OBJECT_RANGE, CLASS_DEF)
    ensures !Contains(CLASS, CLASS_DEF)
    ensures !Contains(DATA, CLASS_DEF)
    ensures !Contains(OBJECT, CLASS_DEF)
    ensures !Contains(MIN, CLASS_DEF)
    ensures !Contains(MAX, CLASS_DEF)
    ensures !Contains(EXACT, CLASS_DEF)
    ensures !Contains(SOME, CLASS_DEF)
    ensures !Contains(ALL, CLASS_DEF)
  {
    FragmentLiterals();
    MissingCharNotContained(DATA_DOMAIN, CLASS_DEF, 0);
    MissingCharNotContained(DATA_RANGE, CLASS_DEF, 0);
    MissingCharNotContained(OBJECT_DOMAIN, CLASS_DEF, 0);
    MissingCharNotContained(OBJECT_RANGE, CLASS_DEF, 0);
    MissingCharNotContained(CLASS, CLASS_DEF, 1);
    MissingCharNotContained(DATA, CLASS_DEF, 0);
    MissingCharNotContained(OBJECT, CLASS_DEF, 1);
    MissingCharNotContained(MIN, CLASS_DEF, 0);
    MissingCharNotContained(MAX, CLASS_DEF, 0);
    MissingCharNotContained(EXACT, CLASS_DEF, 1);
    MissingCharNotContained(SOME, CLASS_DEF, 0);
    MissingCharNotContained(ALL, CLASS_DEF, 0);
  }

  lemma DataDomainOnlyInItself()
    ensures !Contains(CLASS_DEF, DATA_DOMAIN)
    ensures !Contains(DATA_RANGE, DATA_DOMAIN)
    ensures !Contains(OBJECT_DOMAIN, DATA_DOMAIN)
    ensures !Contains(OBJECT_RANGE, DATA_DOMAIN)
    ensures !Contains(CLASS, DATA_DOMAIN)
    ensures !Contains(DATA, DATA_DOMAIN)
    ensures !Contains(OBJECT, DATA_DOMAIN)
    ensures !Contains(MIN, DATA_DOMAIN)
    ensures !Contains(MAX, DATA_DOMAIN)
    ensures !Contains(EXACT, DATA_DOMAIN)
    ensures !Contains(SOME, DATA_DOMAIN)
    ensures !Contains(ALL, DATA_DOMAIN)
  {
    FragmentLiterals();
    MissingCharNotContained(CLASS_DEF, DATA_DOMAIN, 4);
    MissingCharNotContained(DATA_RANGE, DATA_DOMAIN, 3);
    assert !Contains("O-DOMAIN_", "D-DOMAIN_");
    MissingCharNotContained(OBJECT_RANGE, DATA_DOMAIN, 0);
    MissingCharNotContained(CLASS, DATA_DOMAIN, 0);
    MissingCharNotContained(DATA, DATA_DOMAIN, 1);
    MissingCharNotContained(OBJECT, DATA_DOMAIN, 0);
    MissingCharNotContained(MIN, DATA_DOMAIN, 0);
    MissingCharNotContained(MAX, DATA_DOMAIN, 0);
    MissingCharNotContained(EXACT, DATA_DOMAIN, 0);
    MissingCharNotContained(SOME, DATA_DOMAIN, 0);
    MissingCharNotContained(ALL, DATA_DOMAIN, 0);
  }

  lemma DataRangeOnlyInItself()
    ensures !Contains(CLASS_DEF, DATA_RANGE)
    ensures !Contains(DATA_DOMAIN, DATA_RANGE)
    ensures !Contains(OBJECT_DOMAIN, DATA_RANGE)
    ensures !Contains(OBJECT_RANGE, DATA_RANGE)
    ensures !Contains(CLASS, DATA_RANGE)
    ensures !Contains(DATA, DATA_RANGE)
    ensures !Contains(OBJECT, DATA_RANGE)
    ensures !Contains(MIN, DATA_RANGE)
    ensures !Contains(MAX, DATA_RANGE)
    ensures !Contains(EXACT, DATA_RANGE)
    ensures !Contains(SOME, DATA_RANGE)
    ensures !Contains(ALL, DATA_RANGE)
  {
    FragmentLiterals();
    MissingCharNotContained(CLASS_DEF, DATA_RANGE, 2);
    MissingCharNotContained(DATA_DOMAIN, DATA_RANGE, 2);
    MissingCharNotContained(OBJECT_DOMAIN, DATA_RANGE, 2);
    MissingCharNotContained(OBJECT_RANGE, DATA_RANGE, 0);
    MissingCharNotContained(CLASS, DATA_RANGE, 0);
    MissingCharNotContained(DATA, DATA_RANGE, 1);
    MissingCharNotContained(OBJECT, DATA_RANGE, 0);
    MissingCharNotContained(MIN, DATA_RANGE, 0);
    MissingCharNotContained(MAX, DATA_RANGE, 0);
    MissingCharNotContained(EXACT, DATA_RANGE, 0);
    MissingCharNotContained(SOME, DATA_RANGE, 0);
    MissingCharNotContained(ALL, DATA_RANGE, 0);
  }

  lemma ObjectDomainOnlyInItself()
    ensures !Contains(CLASS_DEF, OBJECT_DOMAIN)
    ensures !Contains(DATA_DOMAIN, OBJECT_DOMAIN)
    ensures !Contains(DATA_RANGE, OBJECT_DOMAIN)
    ensures !Contains(OBJECT_RANGE, OBJECT_DOMAIN)
    ensures !Contains(CLASS, OBJECT_DOMAIN)
    ensures !Contains(DATA, OBJECT_DOMAIN)
    ensures !Contains(OBJECT, OBJECT_DOMAIN)
    ensures !Contains(MIN, OBJECT_DOMAIN)
    ensures !Contains(MAX, OBJECT_DOMAIN)
    ensures !Contains(EXACT, OBJECT_DOMAIN)
    ensures !Contains(SOME, OBJECT_DOMAIN)
    ensures !Contains(ALL, OBJECT_DOMAIN)
  {
    FragmentLiterals();
    MissingCharNotContained(CLASS_DEF, OBJECT_DOMAIN, 4);
    assert !Contains("D-DOMAIN_", "O-DOMAIN_");
    MissingCharNotContained(DATA_RANGE, OBJECT_DOMAIN, 0);
    MissingCharNotContained(OBJECT_RANGE, OBJECT_DOMAIN, 2);
    MissingCharNotContained(CLASS, OBJECT_DOMAIN, 0);
    MissingCharNotContained(DATA, OBJECT_DOMAIN, 0);
    MissingCharNotContained(OBJECT, OBJECT_DOMAIN, 1);
    MissingCharNotContained(MIN, OBJECT_DOMAIN, 0);
    MissingCharNotContained(MAX, OBJECT_DOMAIN, 0);
    MissingCharNotContained(EXACT, OBJECT_DOMAIN, 0);
    MissingCharNotContained(SOME, OBJECT_DOMAIN, 1);
    MissingCharNotContained(ALL, OBJECT_DOMAIN, 0);
  }

  lemma ObjectRangeOnlyInItself()
    ensures !Contains(CLASS_DEF, OBJECT_RANGE)
    ensures !Contains(DATA_DOMAIN, OBJECT_RANGE)
    ensures !Contains(DATA_RANGE, OBJECT_RANGE)
    ensures !Contains(OBJECT_DOMAIN, OBJECT_RANGE)
    ensures !Contains(CLASS, OBJECT_RANGE)
    ensures !Contains(DATA, OBJECT_RANGE)
    ensures !Contains(OBJECT, OBJECT_RANGE)
    ensures !Contains(MIN, OBJECT_RANGE)
    ensures !Contains(MAX, OBJECT_RANGE)
    ensures !Contains(EXACT, OBJECT_RANGE)
    ensures !Contains(SOME, OBJECT_RANGE)
    ensures !Contains(ALL, OBJECT_RANGE)
  {
    FragmentLiterals();
    MissingCharNotContained(CLASS_DEF, OBJECT_RANGE, 2);
    MissingCharNotContained(DATA_DOMAIN, OBJECT_RANGE, 2);
    MissingCharNotContained(DATA_RANGE, OBJECT_RANGE, 0);
    MissingCharNotContained(OBJECT_DOMAIN, OBJECT_RANGE, 2);
    MissingCharNotContained(CLASS, OBJECT_RANGE, 0);
    MissingCharNotContained(DATA, OBJECT_RANGE, 0);
    MissingCharNotContained(OBJECT, OBJECT_RANGE, 1);
    MissingCharNotContained(MIN, OBJECT_RANGE, 0);
    MissingCharNotContained(MAX, OBJECT_RANGE, 0);
    MissingCharNotContained(EXACT, OBJECT_RANGE, 0);
    MissingCharNotContained(SOME, OBJECT_RANGE, 1);
    MissingCharNotContained(ALL, OBJECT_RANGE, 0);
  }

  lemma ClassOnlyInItself()
    ensures !Contains(CLASS_DEF, CLASS)
    ensures !Contains(DATA_DOMAIN, CLASS)
    ensures !Contains(DATA_RANGE, CLASS)
    ensures !Contains(OBJECT_DOMAIN, CLASS)
    ensures !Contains(OBJECT_RANGE, CLASS)
    ensures !Contains(DATA, CLASS)
    ensures !Contains(OBJECT, CLASS)
    ensures !Contains(MIN, CLASS)
    ensures !Contains(MAX, CLASS)
    ensures !Contains(EXACT, CLASS)
    ensures !Contains(SOME, CLASS)
    ensures !Contains(ALL, CLASS)
  {
    FragmentLiterals();
    MissingCharNotContained(CLASS_DEF, CLASS, 1);
    MissingCharNotContained(DATA_DOMAIN, CLASS, 0);
    MissingCharNotContained(DATA_RANGE, CLASS, 0);
    MissingCharNotContained(OBJECT_DOMAIN, CLASS, 0);
    MissingCharNotContained(OBJECT_RANGE, CLASS, 0);
    MissingCharNotContained(DATA, CLASS, 0);
    MissingCharNotContained(OBJECT, CLASS, 1);
    MissingCharNotContained(MIN, CLASS, 0);
    MissingCharNotContained(MAX, CLASS, 0);
    MissingCharNotContained(EXACT, CLASS, 1);
    MissingCharNotContained(SOME, CLASS, 0);
    MissingCharNotContained(ALL, CLASS, 0);
  }

  lemma DataOnlyInItself()
    ensures !Contains(CLASS_DEF, DATA)
    ensures !Contains(DATA_DOMAIN, DATA)
    ensures !Contains(DATA_RANGE, DATA)
    ensures !Contains(OBJECT_DOMAIN, DATA)
    ensures !Contains(OBJECT_RANGE, DATA)
    ensures !Contains(CLASS, DATA)
    ensures !Contains(OBJECT, DATA)
    ensures !Contains(MIN, DATA)
    ensures !Contains(MAX, DATA)
    ensures !Contains(EXACT, DATA)
    ensures !Contains(SOME, DATA)
    ensures !Contains(ALL, DATA)
  {
    FragmentLiterals();
    MissingCharNotContained(CLASS_DEF, DATA, 1);
    MissingCharNotContained(DATA_DOMAIN, DATA, 2);
    MissingCharNotContained(DATA_RANGE, DATA, 2);
    MissingCharNotContained(OBJECT_DOMAIN, DATA, 2);
    MissingCharNotContained(OBJECT_RANGE, DATA, 0);
    MissingCharNotContained(CLASS, DATA, 0);
    MissingCharNotContained(OBJECT, DATA, 0);
    MissingCharNotContained(MIN, DATA, 0);
    MissingCharNotContained(MAX, DATA, 0);
    MissingCharNotContained(EXACT, DATA, 0);
    MissingCharNotContained(SOME, DATA, 0);
    MissingCharNotContained(ALL, DATA, 0);
  }

  lemma ObjectOnlyInItself()
    ensures !Contains(CLASS_DEF, OBJECT)
    ensures !Contains(DATA_DOMAIN, OBJECT)
    ensures !Contains(DATA_RANGE, OBJECT)
    ensures !Contains(OBJECT_DOMAIN, OBJECT)
    ensures !Contains(OBJECT_RANGE, OBJECT)
    ensures !Contains(CLASS, OBJECT)
    ensures !Contains(DATA, OBJECT)
    ensures !Contains(MIN, OBJECT)
    ensures !Contains(MAX, OBJECT)
    ensures !Contains(EXACT, OBJECT)
    ensures !Contains(SOME, OBJECT)
    ensures !Contains(ALL, OBJECT)
  {
    FragmentLiterals();
    MissingCharNotContained(CLASS_DEF, OBJECT, 1);
    MissingCharNotContained(DATA_DOMAIN, OBJECT, 1);
    MissingCharNotContained(DATA_RANGE, OBJECT, 0);
    MissingCharNotContained(OBJECT_DOMAIN, OBJECT, 1);
    MissingCharNotContained(OBJECT_RANGE, OBJECT, 1);
    MissingCharNotContained(CLASS, OBJECT, 0);
    MissingCharNotContained(DATA, OBJECT, 0);
    MissingCharNotContained(MIN, OBJECT, 0);
    MissingCharNotContained(MAX, OBJECT, 0);
    MissingCharNotContained(EXACT, OBJECT, 0);
    MissingCharNotContained(SOME, OBJECT, 1);
    MissingCharNotContained(ALL, OBJECT, 0);
  }

  lemma MinOnlyInItself()
    ensures !Contains(CLASS_DEF, MIN)
    ensures !Contains(DATA_DOMAIN, MIN)
    ensures !Contains(DATA_RANGE, MIN)
    ensures !Contains(OBJECT_DOMAIN, MIN)
    ensures !Contains(OBJECT_RANGE, MIN)
    ensures !Contains(CLASS, MIN)
    ensures !Contains(DATA, MIN)
    ensures !Contains(OBJECT, MIN)
    ensures !Contains(MAX, MIN)
    ensures !Contains(EXACT, MIN)
    ensures !Contains(SOME, MIN)
    ensures !Contains(ALL, MIN)
  {
    FragmentLiterals();
    MissingCharNotContained(CLASS_DEF, MIN, 0);
    assert !Contains("D-DOMAIN_", "MIN_");
    MissingCharNotContained(DATA_RANGE, MIN, 0);
    assert !Contains("O-DOMAIN_", "MIN_");
    MissingCharNotContained(OBJECT_RANGE, MIN, 0);
    MissingCharNotContained(CLASS, MIN, 0);
    MissingCharNotContained(DATA, MIN, 0);
    MissingCharNotContained(OBJECT, MIN, 0);
    MissingCharNotContained(MAX, MIN, 1);
    MissingCharNotContained(EXACT, MIN, 0);
    MissingCharNotContained(SOME, MIN, 1);
    MissingCharNotContained(ALL, MIN, 0);
  }

  lemma MaxOnlyInItself()
    ensures !Contains(CLASS_DEF, MAX)
    ensures !Contains(DATA_DOMAIN, MAX)
    ensures !Contains(DATA_RANGE, MAX)
    ensures !Contains(OBJECT_DOMAIN, MAX)
    ensures !Contains(OBJECT_RANGE, MAX)
    ensures !Contains(CLASS, MAX)
    ensures !Contains(DATA, MAX)
    ensures !Contains(OBJECT, MAX)
    ensures !Contains(MIN, MAX)
    ensures !Contains(EXACT, MAX)
    ensures !Contains(SOME, MAX)
    ensures !Contains(ALL, MAX)
  {
    FragmentLiterals();
    MissingCharNotContained(CLASS_DEF, MAX, 0);
    MissingCharNotContained(DATA_DOMAIN, MAX, 2);
    MissingCharNotContained(DATA_RANGE, MAX, 0);
    MissingCharNotContained(OBJECT_DOMAIN, MAX, 2);
    MissingCharNotContained(OBJECT_RANGE, MAX, 0);
    MissingCharNotContained(CLASS, MAX, 0);
    MissingCharNotContained(DATA, MAX, 0);
    MissingCharNotContained(OBJECT, MAX, 0);
    MissingCharNotContained(MIN, MAX, 1);
    MissingCharNotContained(EXACT, MAX, 0);
    MissingCharNotContained(SOME, MAX, 1);
    MissingCharNotContained(ALL, MAX, 0);
  }

  lemma ExactOnlyInItself()
    ensures !Contains(CLASS_DEF, EXACT)
    ensures !Contains(DATA_DOMAIN, EXACT)
    ensures !Contains(DATA_RANGE, EXACT)
    ensures !Contains(OBJECT_DOMAIN, EXACT)
    ensures !Contains(OBJECT_RANGE, EXACT)
    ensures !Contains(CLASS, EXACT)
    ensures !Contains(DATA, EXACT)
    ensures !Contains(OBJECT, EXACT)
    ensures !Contains(MIN, EXACT)
    ensures !Contains(MAX, EXACT)
    ensures !Contains(SOME, EXACT)
    ensures !Contains(ALL, EXACT)
  {
    FragmentLiterals();
    MissingCharNotContained(CLASS_DEF, EXACT, 1);
    MissingCharNotContained(DATA_DOMAIN, EXACT, 0);
    MissingCharNotContained(DATA_RANGE, EXACT, 1);
    MissingCharNotContained(OBJECT_DOMAIN, EXACT, 0);
    MissingCharNotContained(OBJECT_RANGE, EXACT, 1);
    MissingCharNotContained(CLASS, EXACT, 0);
    MissingCharNotContained(DATA, EXACT, 0);
    MissingCharNotContained(OBJECT, EXACT, 1);
    MissingCharNotContained(MIN, EXACT, 0);
    MissingCharNotContained(MAX, EXACT, 0);
    MissingCharNotContained(SOME, EXACT, 1);
    MissingCharNotContained(ALL, EXACT, 0);
  }

  lemma SomeOnlyInItself()
    ensures !Contains(CLASS_DEF, SOME)
    ensures !Contains(DATA_DOMAIN, SOME)
    ensures !Contains(DATA_RANGE, SOME)
    ensures !Contains(OBJECT_DOMAIN, SOME)
    ensures !Contains(OBJECT_RANGE, SOME)
    ensures !Contains(CLASS, SOME)
    ensures !Contains(DATA, SOME)
    ensures !Contains(OBJECT, SOME)
    ensures !Contains(MIN, SOME)
    ensures !Contains(MAX, SOME)
    ensures !Contains(EXACT, SOME)
    ensures !Contains(ALL, SOME)
  {
    FragmentLiterals();
    MissingCharNotContained(CLASS_DEF, SOME, 0);
    MissingCharNotContained(DATA_DOMAIN, SOME, 0);
    MissingCharNotContained(DATA_RANGE, SOME, 0);
    MissingCharNotContained(OBJECT_DOMAIN, SOME, 0);
    MissingCharNotContained(OBJECT_RANGE, SOME, 0);
    MissingCharNotContained(CLASS, SOME, 1);
    MissingCharNotContained(DATA, SOME, 0);
    MissingCharNotContained(OBJECT, SOME, 0);
    MissingCharNotContained(MIN, SOME, 0);
    MissingCharNotContained(MAX, SOME, 0);
    MissingCharNotContained(EXACT, SOME, 0);
    MissingCharNotContained(ALL, SOME, 0);
  }

  lemma AllOnlyInItself()
    ensures !Contains(CLASS_DEF, ALL)
    ensures !Contains(DATA_DOMAIN, ALL)
    ensures !Contains(DATA_RANGE, ALL)
    ensures !Contains(OBJECT_DOMAIN, ALL)
    ensures !Contains(OBJECT_RANGE, ALL)
    ensures !Contains(CLASS, ALL)
    ensures !Contains(DATA, ALL)
    ensures !Contains(OBJECT, ALL)
    ensures !Contains(MIN, ALL)
    ensures !Contains(MAX, ALL)
    ensures !Contains(EXACT, ALL)
    ensures !Contains(SOME, ALL)
  {
    FragmentLiterals();
    MissingCharNotContained(CLASS_DEF, ALL, 0);
    MissingCharNotContained(DATA_DOMAIN, ALL, 1);
    MissingCharNotContained(DATA_RANGE, ALL, 1);
    MissingCharNotContained(OBJECT_DOMAIN, ALL, 1);
    MissingCharNotContained(OBJECT_RANGE, ALL, 1);
    MissingCharNotContained(CLASS, ALL, 3);
    MissingCharNotContained(DATA, ALL, 1);
    MissingCharNotContained(OBJECT, ALL, 0);
    MissingCharNotContained(MIN, ALL, 0);
    MissingCharNotContained(MAX, ALL, 1);
    MissingCharNotContained(EXACT, ALL, 1);
    MissingCharNotContained(SOME, ALL, 0);
  }

  predicate IsFragment(f: string) {
    f == CLASS_DEF || f == DATA_DOMAIN || f == DATA_RANGE || f == OBJECT_DOMAIN || f == OBJECT_RANGE || f == CLASS || f == DATA || f == OBJECT || f == MIN || f == MAX || f == EXACT || f == SOME || f == ALL
  }

  /** A fragment contains no fragment but itself. */
  lemma FragmentsIsolated(f: string, p: string)
    requires f in FRAGMENTS && p in FRAGMENTS
    ensures Contains(f, p) <==> f == p
  {
    assert IsFragment(f);
    if f == p {
      ContainsSelf(f, p);
    } else if p == CLASS_DEF {
      ClassDefOnlyInItself();
    } else if p == DATA_DOMAIN {
      DataDomainOnlyInItself();
    } else if p == DATA_RANGE {
      DataRangeOnlyInItself();
    } else if p == OBJECT_DOMAIN {
      ObjectDomainOnlyInItself();
    } else if p == OBJECT_RANGE {
      ObjectRangeOnlyInItself();
    } else if p == CLASS {
      ClassOnlyInItself();
    } else if p == DATA {
      DataOnlyInItself();
    } else if p == OBJECT {
      ObjectOnlyInItself();
    } else if p == MIN {
      MinOnlyInItself();
    } else if p == MAX {
      MaxOnlyInItself();
    } else if p == EXACT {
      ExactOnlyInItself();
    } else if p == SOME {
      SomeOnlyInItself();
    } else if p == ALL {
      AllOnlyInItself();
    }
  }

  /** A fragment holds `'_'` at most as its last character. */
  lemma FragmentStem(p: string) returns (q: string)
    requires p in FRAGMENTS
    ensures p == q + "_" || p == q
    ensures '_' !in q
  {
    FragmentLiterals();
    if p == CLASS_DEF {
      q := "C-DEFINITION";
    } else if p == DATA_DOMAIN {
      q := "D-DOMAIN";
    } else if p == DATA_RANGE {
      q := "D-RANGE";
    } else if p == OBJECT_DOMAIN {
      q := "O-DOMAIN";
    } else if p == OBJECT_RANGE {
      q := "O-RANGE";
    } else if p == CLASS {
      q := "CLASS";
    } else if p == DATA {
      q := "DATA";
    } else if p == OBJECT {
      q := "OBJECT";
    } else if p == MIN {
      q := "MIN";
    } else if p == MAX {
      q := "MAX";
    } else if p == EXACT {
      q := "EXACT";
    } else if p == SOME {
      q := "SOME";
    } else {
      q := "ALL";
    }
  }
}
