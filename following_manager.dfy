/**
 * The following registry of the individual GUI (`FollowingManager`): each
 * frame has a manager holding two parallel lists, the texts it follows and
 * the colour each one is shown with. The static map of managers by frame
 * id is the `FollowingRegistry` object.
 *
 * A Java `null` text or colour is `None`. A colour is its RGB value plus
 * the identity of the Java object, because `isFollowed(Color)` compares
 * objects with `==` and lists with `equals`.
 */
module Following {
  import opened Wrappers

  /** A `java.awt.Color` object: its RGB components and which object it is. */
  datatype Color = Color(red: int, green: int, blue: int, id: nat)

  /** `Color.equals`: the same RGB value, whatever the object. */
  predicate SameColor(a: Color, b: Color) {
    a.red == b.red && a.green == b.green && a.blue == b.blue
  }

  /** `ClassExchange.getNullcolor()` and `getAlreadyselectedcolor()`: two fixed objects. */
  const NULL_COLOR: Color := Color(0, 0, 0, 1)
  const ALREADY_SELECTED_COLOR: Color := Color(255, 255, 255, 2)

  /** A manager can be built only for table types below this bound. */
  const TABLE_TYPE_BOUND: int := 5

  /** What a call returns, or the `NullPointerException` it lets escape. */
  datatype Outcome<T> = Returned(value: T) | NullPointer

  // ---------------------------------------------------------------------
  // Removing a text: the specification on values
  // ---------------------------------------------------------------------

  /** `List.indexOf`: the first index holding `x`, or -1. */
  function FirstIndex<T(==)>(xs: seq<T>, x: T): (r: int)
    ensures -1 <= r < |xs|
    ensures r >= 0 ==> xs[r] == x && forall k :: 0 <= k < r ==> xs[k] != x
    ensures r < 0 <==> x !in xs
    decreases |xs|
  {
    if |xs| == 0 then -1
    else if xs[0] == x then 0
    else
      var r := FirstIndex(xs[1..], x);
      if r < 0 then -1 else r + 1
  }

  /** The sequence without its element at index `k`. */
  function RemoveAt<T>(xs: seq<T>, k: nat): (r: seq<T>)
    requires k < |xs|
    ensures |r| == |xs| - 1
    ensures forall j :: 0 <= j < k ==> r[j] == xs[j]
    ensures forall j :: k <= j < |r| ==> r[j] == xs[j + 1]
  {
    xs[..k] + xs[k + 1..]
  }

  /** A removal leaves no element behind that was not there before. */
  lemma RemoveAtMultiset<T>(xs: seq<T>, k: nat)
    requires k < |xs|
    ensures multiset(RemoveAt(xs, k)) + multiset{xs[k]} == multiset(xs)
  {
    assert xs == xs[..k] + [xs[k]] + xs[k + 1..];
  }

  // ---------------------------------------------------------------------
  // One frame's manager
  // ---------------------------------------------------------------------

  class FollowingManager {
    var tableType: int
    var frameId: int
    /** False when the Java lists were left null (the manager was refused). */
    const hasLists: bool
    var followTxt: seq<string>
    var color: seq<Color>

    /** The two lists always have the same length. */
    predicate Parallel()
      reads this`followTxt, this`color
    {
      |followTxt| == |color|
    }

    /**
     * `FollowingManager(frameID, type)`: a manager is accepted only for a
     * type below 5 and a non-negative frame id not yet registered; only an
     * accepted manager gets its lists and is registered.
     */
    constructor (reg: FollowingRegistry, frameID: int, tableKind: int)
      requires reg.Valid()
      modifies reg`allInstances, reg`Repr
      ensures hasLists <==> tableKind < TABLE_TYPE_BOUND && frameID >= 0 && frameID !in old(reg.allInstances)
      ensures tableType == (if tableKind < TABLE_TYPE_BOUND then tableKind else 0)
      ensures frameId == (if hasLists then frameID else 0)
      ensures followTxt == [] && color == []
      ensures reg.allInstances == if hasLists then old(reg.allInstances)[frameID := this] else old(reg.allInstances)
      ensures reg.Valid()
    {
      var accepted := tableKind < TABLE_TYPE_BOUND && frameID >= 0 && frameID !in reg.allInstances;
      tableType := if tableKind < TABLE_TYPE_BOUND then tableKind else 0;
      frameId := if accepted then frameID else 0;
      hasLists := accepted;
      followTxt := [];
      color := [];
      new;
      if accepted {
        reg.allInstances := reg.allInstances[frameID := this];
        reg.Repr := reg.Repr + {this};
      }
    }

    /**
     * `addFollowText(text, color)`: the pair is appended, at the same index
     * of both lists, exactly when the manager has lists, the text is not
     * followed by any registered manager and the colour is not taken.
     */
    method AddFollowText(reg: FollowingRegistry, keys: seq<int>, text: Option<string>, c: Option<Color>) returns (added: bool)
      requires reg.Valid() && reg.Enumerates(keys) && Parallel()
      modifies this`followTxt, this`color
      ensures added == (hasLists && !old(reg.FollowedText(text)) && !old(reg.FollowedColor(c)))
      ensures added ==> followTxt == old(followTxt) + [text.value] && color == old(color) + [c.value]
      ensures !added ==> followTxt == old(followTxt) && color == old(color)
      ensures Parallel() && reg.Valid()
    {
      added := false;
      if hasLists {
        var textTaken := reg.IsFollowedText(keys, text);
        if !textTaken {
          var colorTaken := reg.IsFollowedColor(keys, c);
          if !colorTaken {
            followTxt := followTxt + [text.value];
            color := color + [c.value];
            added := true;
          }
        }
      }
    }

    /**
     * `addFollowText(texts, colors)`: with lists of the same length every
     * pair is tried in order and the count is the length, whatever each
     * attempt gave; with different lengths nothing is tried and 0 returned.
     */
    method AddFollowTexts(reg: FollowingRegistry, keys: seq<int>, texts: seq<Option<string>>, colors: seq<Option<Color>>)
      returns (count: int)
      requires reg.Valid() && reg.Enumerates(keys) && Parallel()
      modifies this`followTxt, this`color
      ensures count == (if |texts| == |colors| then |texts| else 0)
      ensures |texts| != |colors| ==> followTxt == old(followTxt) && color == old(color)
      ensures Parallel() && reg.Valid()
      ensures old(followTxt) <= followTxt && old(color) <= color
      ensures forall k :: |old(followTxt)| <= k < |followTxt| ==> Some(followTxt[k]) in texts
    {
      count := 0;
      if |texts| == |colors| {
        var i := 0;
        while i < |texts|
          invariant 0 <= i <= |texts| && count == i
          invariant Parallel() && reg.Valid()
          invariant old(followTxt) <= followTxt && old(color) <= color
          invariant forall k :: |old(followTxt)| <= k < |followTxt| ==> Some(followTxt[k]) in texts
        {
          var added := AddFollowText(reg, keys, texts[i], colors[i]);
          count := count + 1;
          i := i + 1;
        }
      }
    }

    /**
     * `removeFollowingText(text)`: the first occurrence of the text and the
     * colour at its index leave both lists. An absent text makes
     * `ArrayList.remove(-1)` throw, on Java 8, an `ArrayIndexOutOfBoundsException`,
     * caught into `false`; a manager without lists throws a
     * `NullPointerException`.
     */
    method RemoveFollowingText(text: Option<string>) returns (r: Outcome<bool>)
      requires Parallel()
      modifies this`followTxt, this`color
      ensures !hasLists ==> r == NullPointer && followTxt == old(followTxt) && color == old(color)
      ensures hasLists ==> r == Returned(Removes(old(followTxt), text)) &&
                           followTxt == TextsAfterRemoval(old(followTxt), text) &&
                           color == ColorsAfterRemoval(old(followTxt), old(color), text)
      ensures Parallel()
    {
      if !hasLists {
        return NullPointer;
      }
      if text.None? || text.value !in followTxt {
        return Returned(false);
      }
      var k := FirstIndex(followTxt, text.value);
      color := RemoveAt(color, k);
      followTxt := RemoveAt(followTxt, k);
      r := Returned(true);
    }

    /**
     * `removeFrameFollowing()`: the entry under this manager's frame id
     * leaves the map, whichever manager it holds (a refused manager has
     * frame id 0).
     */
    method RemoveFrameFollowing(reg: FollowingRegistry)
      requires reg.Valid()
      modifies reg`allInstances
      ensures reg.allInstances == old(reg.allInstances) - {frameId} && reg.Valid()
    {
      reg.RemoveFrameFollowing(frameId);
    }

    /** `removeFollowingText(texts)`: each text is removed in turn and the successes counted. */
    method RemoveFollowingTexts(texts: seq<Option<string>>) returns (r: Outcome<int>)
      requires Parallel()
      modifies this`followTxt, this`color
      ensures !hasLists ==> r == (if |texts| == 0 then Returned(0) else NullPointer)
      ensures hasLists ==> r == Returned(RemovedCount(old(followTxt), texts)) &&
                           followTxt == TextsAfterRemovals(old(followTxt), texts) &&
                           color == ColorsAfterRemovals(old(followTxt), old(color), texts)
      ensures Parallel()
    {
      var count := 0;
      var i := 0;
      while i < |texts|
        invariant 0 <= i <= |texts| && Parallel()
        invariant !hasLists ==> i == 0 && count == 0
        invariant hasLists ==> count == RemovedCount(old(followTxt), texts[..i]) &&
                               followTxt == TextsAfterRemovals(old(followTxt), texts[..i]) &&
                               color == ColorsAfterRemovals(old(followTxt), old(color), texts[..i])
      {
        var one := RemoveFollowingText(texts[i]);
        if one.NullPointer? {
          return NullPointer;
        }
        RemovalsSnoc(old(followTxt), old(color), texts[..i], texts[i]);
        assert texts[..i + 1] == texts[..i] + [texts[i]];
        if one.value {
          count := count + 1;
        }
        i := i + 1;
      }
      assert texts[..i] == texts;
      r := Returned(count);
    }
  }

  /** Whether removing `text` from these texts succeeds. */
  predicate Removes(txt: seq<string>, text: Option<string>) {
    text.Some? && text.value in txt
  }

  /** The texts after removing the first occurrence of `text`, if any. */
  function TextsAfterRemoval(txt: seq<string>, text: Option<string>): (r: seq<string>)
    ensures Removes(txt, text) ==> multiset(r) + multiset{text.value} == multiset(txt)
    ensures !Removes(txt, text) ==> r == txt
  {
    if Removes(txt, text) then
      RemoveAtMultiset(txt, FirstIndex(txt, text.value));
      RemoveAt(txt, FirstIndex(txt, text.value))
    else txt
  }

  /** The colours after removing the one at the index of the first occurrence of `text`. */
  function ColorsAfterRemoval(txt: seq<string>, col: seq<Color>, text: Option<string>): (r: seq<Color>)
    requires |txt| == |col|
    ensures |r| == |TextsAfterRemoval(txt, text)|
    ensures forall j :: 0 <= j < |r| ==> r[j] == col[if Removes(txt, text) && j >= FirstIndex(txt, text.value) then j + 1 else j]
  {
    if Removes(txt, text) then RemoveAt(col, FirstIndex(txt, text.value)) else col
  }

  /** Removal keeps every other text with the colour it was paired with. */
  lemma RemovalKeepsPairs(txt: seq<string>, col: seq<Color>, text: Option<string>, j: nat)
    requires |txt| == |col| && j < |TextsAfterRemoval(txt, text)|
    ensures var k := if Removes(txt, text) && j >= FirstIndex(txt, text.value) then j + 1 else j;
            TextsAfterRemoval(txt, text)[j] == txt[k] && ColorsAfterRemoval(txt, col, text)[j] == col[k]
  {
  }

  /** The texts after removing each of `texts` in order. */
  function TextsAfterRemovals(txt: seq<string>, texts: seq<Option<string>>): seq<string>
    decreases |texts|
  {
    if |texts| == 0 then txt
    else TextsAfterRemoval(TextsAfterRemovals(txt, texts[..|texts| - 1]), texts[|texts| - 1])
  }

  function ColorsAfterRemovals(txt: seq<string>, col: seq<Color>, texts: seq<Option<string>>): (r: seq<Color>)
    requires |txt| == |col|
    ensures |r| == |TextsAfterRemovals(txt, texts)|
    decreases |texts|
  {
    if |texts| == 0 then col
    else
      var init := texts[..|texts| - 1];
      ColorsAfterRemoval(TextsAfterRemovals(txt, init), ColorsAfterRemovals(txt, col, init), texts[|texts| - 1])
  }

  /** How many of `texts`, removed in order, were present when their turn came. */
  function RemovedCount(txt: seq<string>, texts: seq<Option<string>>): (n: nat)
    ensures n <= |texts|
    decreases |texts|
  {
    if |texts| == 0 then 0
    else
      var init := texts[..|texts| - 1];
      RemovedCount(txt, init) + (if Removes(TextsAfterRemovals(txt, init), texts[|texts| - 1]) then 1 else 0)
  }

  /** Every successful removal takes exactly one text out of the list. */
  lemma {:induction false} RemovedCountShrinks(txt: seq<string>, texts: seq<Option<string>>)
    ensures |TextsAfterRemovals(txt, texts)| + RemovedCount(txt, texts) == |txt|
    decreases |texts|
  {
    if |texts| > 0 {
      RemovedCountShrinks(txt, texts[..|texts| - 1]);
      var before := TextsAfterRemovals(txt, texts[..|texts| - 1]);
      var t := texts[|texts| - 1];
      if Removes(before, t) {
        assert |multiset(TextsAfterRemoval(before, t))| + 1 == |multiset(before)|;
      }
    }
  }

  lemma RemovalsSnoc(txt: seq<string>, col: seq<Color>, init: seq<Option<string>>, t: Option<string>)
    requires |txt| == |col|
    ensures TextsAfterRemovals(txt, init + [t]) == TextsAfterRemoval(TextsAfterRemovals(txt, init), t)
    ensures ColorsAfterRemovals(txt, col, init + [t]) ==
              ColorsAfterRemoval(TextsAfterRemovals(txt, init), ColorsAfterRemovals(txt, col, init), t)
    ensures RemovedCount(txt, init + [t]) == RemovedCount(txt, init) + (if Removes(TextsAfterRemovals(txt, init), t) then 1 else 0)
  {
    assert (init + [t])[..|init|] == init;
  }

  // ---------------------------------------------------------------------
  // The static registry
  // ---------------------------------------------------------------------

  class FollowingRegistry {
    var allInstances: map<int, FollowingManager>
    /** Every manager that was ever registered. */
    ghost var Repr: set<FollowingManager>

    /** Registered managers have their lists, and the lists stay parallel. */
    ghost predicate Valid()
      reads this, Repr
    {
      (forall id :: id in allInstances ==> allInstances[id] in Repr) &&
      (forall m :: m in Repr ==> m.hasLists && |m.followTxt| == |m.color|)
    }

    constructor ()
      ensures allInstances == map[] && Valid()
    {
      allInstances := map[];
      Repr := {};
    }

    /** `keys` lists every frame id of the map: the order of the map's key set. */
    predicate Enumerates(keys: seq<int>)
      reads this`allInstances
    {
      (forall id :: id in allInstances ==> id in keys) && (forall i :: 0 <= i < |keys| ==> keys[i] in allInstances)
    }

    /** `isFollowed(String)`: a null text counts as followed; otherwise some registered manager lists it. */
    predicate FollowedText(text: Option<string>)
      requires Valid()
      reads this, Repr
    {
      text.None? || exists id :: id in allInstances && text.value in allInstances[id].followTxt
    }

    /** `isChoosedColor`: some registered manager holds a colour equal to `c`. */
    predicate ChosenColor(c: Option<Color>)
      requires Valid()
      reads this, Repr
    {
      c.Some? && exists id, k :: id in allInstances && 0 <= k < |allInstances[id].color| &&
                                 SameColor(allInstances[id].color[k], c.value)
    }

    /**
     * `isFollowed(Color)`: a null colour counts as taken; one of the two
     * sentinel objects is taken when some manager holds an equal colour;
     * any other colour is free.
     */
    predicate FollowedColor(c: Option<Color>)
      requires Valid()
      reads this, Repr
    {
      c.None? || ((c.value == NULL_COLOR || c.value == ALREADY_SELECTED_COLOR) && ChosenColor(c))
    }

    /** The loop over the map's keys of `isFollowed(String)`, in the order of `keys`. */
    method IsFollowedText(keys: seq<int>, text: Option<string>) returns (b: bool)
      requires Valid() && Enumerates(keys)
      ensures b == FollowedText(text)
    {
      if text.None? {
        return true;
      }
      b := false;
      var i := 0;
      while i < |keys| && !b
        invariant 0 <= i <= |keys|
        invariant b ==> FollowedText(text)
        invariant !b ==> forall j :: 0 <= j < i ==> text.value !in allInstances[keys[j]].followTxt
      {
        var id := keys[i];
        b := ListHas(allInstances[id].followTxt, text.value);
        i := i + 1;
      }
    }

    /** The loop of `isChoosedColor`. */
    method IsChosenColor(keys: seq<int>, c: Option<Color>) returns (b: bool)
      requires Valid() && Enumerates(keys)
      ensures b == ChosenColor(c)
    {
      if c.None? {
        return false;
      }
      b := false;
      var i := 0;
      while i < |keys| && !b
        invariant 0 <= i <= |keys|
        invariant b ==> ChosenColor(c)
        invariant !b ==> forall j, k :: 0 <= j < i && 0 <= k < |allInstances[keys[j]].color| ==>
                                        !SameColor(allInstances[keys[j]].color[k], c.value)
      {
        var id := keys[i];
        var cs := allInstances[id].color;
        var k := 0;
        while k < |cs| && !b
          invariant 0 <= k <= |cs|
          invariant b ==> ChosenColor(c)
          invariant !b ==> forall j :: 0 <= j < k ==> !SameColor(cs[j], c.value)
        {
          b := SameColor(cs[k], c.value);
          k := k + 1;
        }
        i := i + 1;
      }
    }

    /** `isFollowed(Color)`. */
    method IsFollowedColor(keys: seq<int>, c: Option<Color>) returns (b: bool)
      requires Valid() && Enumerates(keys)
      ensures b == FollowedColor(c)
    {
      if c.None? {
        return true;
      }
      if c.value == NULL_COLOR || c.value == ALREADY_SELECTED_COLOR {
        b := IsChosenColor(keys, c);
      } else {
        b := false;
      }
    }

    /** Static `addFollowText(text, color, frameID)`: through the manager of the frame, if any. */
    method AddFollowTextTo(keys: seq<int>, text: Option<string>, c: Option<Color>, frameID: int) returns (added: bool)
      requires Valid() && Enumerates(keys)
      modifies Repr`followTxt, Repr`color
      ensures Valid()
      ensures frameID !in allInstances ==> !added && unchanged(Repr`followTxt, Repr`color)
      ensures frameID in allInstances ==>
                var fm := allInstances[frameID];
                added == (!old(FollowedText(text)) && !old(FollowedColor(c))) &&
                fm.followTxt == old(fm.followTxt) + (if added then [text.value] else []) &&
                forall m :: m in Repr && m != fm ==> m.followTxt == old(m.followTxt) && m.color == old(m.color)
    {
      if frameID !in allInstances {
        return false;
      }
      var fm := allInstances[frameID];
      added := fm.AddFollowText(this, keys, text, c);
    }

    /**
     * Static `addFollowText(text, frameID)`: when the frame's manager lists
     * the text, it returns the colour at the text's first index; the attempt
     * to add the pair again always fails, so nothing changes.
     */
    method ColorOfFollowed(text: Option<string>, frameID: int) returns (c: Option<Color>)
      requires Valid()
      ensures frameID in allInstances && text.Some? && text.value in allInstances[frameID].followTxt ==>
                var fm := allInstances[frameID];
                c == Some(fm.color[FirstIndex(fm.followTxt, text.value)])
      ensures !(frameID in allInstances && text.Some? && text.value in allInstances[frameID].followTxt) ==> c == None
    {
      c := None;
      if frameID in allInstances {
        var fm := allInstances[frameID];
        if text.Some? && text.value in fm.followTxt {
          var k := FirstIndex(fm.followTxt, text.value);
          c := Some(fm.color[k]);
          assert FollowedText(text);
        }
      }
    }

    /** Static `removeFollowingText(text, frameID)`: through the manager of the frame, if any. */
    method RemoveFollowingTextAt(text: Option<string>, frameID: int) returns (removed: bool)
      requires Valid()
      modifies Repr`followTxt, Repr`color
      ensures Valid()
      ensures frameID !in allInstances ==> !removed && unchanged(Repr`followTxt, Repr`color)
      ensures frameID in allInstances ==>
                var fm := allInstances[frameID];
                removed == Removes(old(fm.followTxt), text) &&
                fm.followTxt == TextsAfterRemoval(old(fm.followTxt), text) &&
                fm.color == ColorsAfterRemoval(old(fm.followTxt), old(fm.color), text)
    {
      if frameID !in allInstances {
        return false;
      }
      var fm := allInstances[frameID];
      var r := fm.RemoveFollowingText(text);
      removed := r.value;
    }

    /** Static `addFollowText(texts, colors, frameID)`: through the manager of the frame, if any. */
    method AddFollowTextsTo(keys: seq<int>, texts: seq<Option<string>>, colors: seq<Option<Color>>, frameID: int)
      returns (count: int)
      requires Valid() && Enumerates(keys)
      modifies Repr`followTxt, Repr`color
      ensures Valid()
      ensures count == (if frameID in allInstances && |texts| == |colors| then |texts| else 0)
      ensures frameID !in allInstances ==> unchanged(Repr`followTxt, Repr`color)
      ensures frameID in allInstances ==>
                var fm := allInstances[frameID];
                old(fm.followTxt) <= fm.followTxt &&
                (forall k :: |old(fm.followTxt)| <= k < |fm.followTxt| ==> Some(fm.followTxt[k]) in texts) &&
                forall m :: m in Repr && m != fm ==> m.followTxt == old(m.followTxt) && m.color == old(m.color)
    {
      if frameID !in allInstances {
        return 0;
      }
      var fm := allInstances[frameID];
      count := fm.AddFollowTexts(this, keys, texts, colors);
    }

    /**
     * Static `removeFollowingText(texts, frameID)`: each text is removed in
     * turn through the manager of the frame, and the successes counted.
     */
    method RemoveFollowingTextsAt(texts: seq<Option<string>>, frameID: int) returns (count: int)
      requires Valid()
      modifies Repr`followTxt, Repr`color
      ensures Valid()
      ensures frameID !in allInstances ==> count == 0 && unchanged(Repr`followTxt, Repr`color)
      ensures frameID in allInstances ==>
                var fm := allInstances[frameID];
                count == RemovedCount(old(fm.followTxt), texts) &&
                fm.followTxt == TextsAfterRemovals(old(fm.followTxt), texts) &&
                fm.color == ColorsAfterRemovals(old(fm.followTxt), old(fm.color), texts)
    {
      count := 0;
      var i := 0;
      while i < |texts|
        invariant 0 <= i <= |texts| && Valid()
        invariant frameID !in allInstances ==> count == 0 && unchanged(Repr`followTxt, Repr`color)
        invariant frameID in allInstances ==>
                    var fm := allInstances[frameID];
                    count == RemovedCount(old(fm.followTxt), texts[..i]) &&
                    fm.followTxt == TextsAfterRemovals(old(fm.followTxt), texts[..i]) &&
                    fm.color == ColorsAfterRemovals(old(fm.followTxt), old(fm.color), texts[..i])
      {
        var removed := RemoveFollowingTextAt(texts[i], frameID);
        if frameID in allInstances {
          var fm := allInstances[frameID];
          RemovalsSnoc(old(fm.followTxt), old(fm.color), texts[..i], texts[i]);
        }
        assert texts[..i + 1] == texts[..i] + [texts[i]];
        if removed {
          count := count + 1;
        }
        i := i + 1;
      }
      assert texts[..i] == texts;
    }

    /** `removeFrameFollowing(frameID)`: the frame leaves the map; the manager keeps its lists. */
    method RemoveFrameFollowing(frameID: int)
      requires Valid()
      modifies this`allInstances
      ensures allInstances == old(allInstances) - {frameID} && Valid()
    {
      allInstances := allInstances - {frameID};
    }

    /**
     * `allColorToFollow`: every text of the managers visited in the order of
     * `keys` is mapped, if not mapped yet, to the colour at index 0 of its
     * manager, since the index is never advanced.
     */
    function ColorMap(keys: seq<int>, n: nat): (r: map<string, Color>)
      requires Valid() && n <= |keys| && forall i :: 0 <= i < |keys| ==> keys[i] in allInstances
      reads this, Repr
    {
      if n == 0 then map[]
      else
        var id := keys[n - 1];
        assert id in allInstances;
        var fm := allInstances[id];
        var before := ColorMap(keys, n - 1);
        if |fm.color| == |fm.followTxt| && |fm.followTxt| > 0 then WithFirstColor(before, fm.followTxt, fm.color[0])
        else before
    }

    /** A text is mapped exactly when a visited manager lists it. */
    lemma {:induction false} ColorMapKeys(keys: seq<int>, n: nat, s: string)
      requires Valid() && n <= |keys| && forall i :: 0 <= i < |keys| ==> keys[i] in allInstances
      ensures s in ColorMap(keys, n) <==> exists i :: 0 <= i < n && s in allInstances[keys[i]].followTxt
    {
      if n > 0 {
        ColorMapKeys(keys, n - 1, s);
        var id := keys[n - 1];
        assert id in allInstances;
        var fm := allInstances[id];
        if s in fm.followTxt {
          assert s in ColorMap(keys, n);
        }
      }
    }

    /** A mapped text gets colour 0 of the first visited manager listing it. */
    lemma {:induction false} ColorMapValue(keys: seq<int>, n: nat, s: string) returns (i: nat)
      requires Valid() && n <= |keys| && forall i :: 0 <= i < |keys| ==> keys[i] in allInstances
      requires s in ColorMap(keys, n)
      ensures i < n && s in allInstances[keys[i]].followTxt && |allInstances[keys[i]].color| > 0
      ensures ColorMap(keys, n)[s] == allInstances[keys[i]].color[0]
      ensures forall j :: 0 <= j < i ==> s !in allInstances[keys[j]].followTxt
    {
      var before := ColorMap(keys, n - 1);
      if s in before {
        i := ColorMapValue(keys, n - 1, s);
      } else {
        ColorMapKeys(keys, n - 1, s);
        i := n - 1;
      }
    }

    /** The loops of `allColorToFollow`, over the keys in the order of `keys`. */
    method AllColorToFollow(keys: seq<int>) returns (target: map<string, Color>)
      requires Valid() && forall i :: 0 <= i < |keys| ==> keys[i] in allInstances
      ensures target == ColorMap(keys, |keys|)
    {
      target := map[];
      var n := 0;
      while n < |keys|
        invariant 0 <= n <= |keys| && target == ColorMap(keys, n)
      {
        var fm := allInstances[keys[n]];
        var cs := fm.color;
        var ts := fm.followTxt;
        if |cs| == |ts| && |ts| > 0 {
          target := AddFirstColor(target, ts, cs[0]);
        }
        n := n + 1;
      }
    }
  }

  /** Maps each of `texts` not yet mapped to `c`. */
  function WithFirstColor(m: map<string, Color>, texts: seq<string>, c: Color): (r: map<string, Color>)
    ensures r.Keys == m.Keys + (set s | s in texts)
    ensures forall s :: s in m ==> r[s] == m[s]
    ensures forall s :: s in r && s !in m ==> r[s] == c
  {
    map s | s in m.Keys + (set t | t in texts) :: if s in m then m[s] else c
  }

  /** The inner loop of `getAllColorToFollow`: every text of one manager not yet mapped gets colour `c`. */
  method AddFirstColor(start: map<string, Color>, ts: seq<string>, c: Color) returns (target: map<string, Color>)
    ensures target == WithFirstColor(start, ts, c)
  {
    target := start;
    var j := 0;
    while j < |ts|
      invariant 0 <= j <= |ts|
      invariant target == WithFirstColor(start, ts[..j], c)
    {
      if ts[j] !in target {
        target := target[ts[j] := c];
      }
      assert ts[..j + 1] == ts[..j] + [ts[j]];
      j := j + 1;
    }
    assert ts[..j] == ts;
  }

  /** The inner loop of `isFollowed(String)` over one manager's texts. */
  method ListHas(xs: seq<string>, x: string) returns (b: bool)
    ensures b == (x in xs)
  {
    b := false;
    var k := 0;
    while k < |xs| && !b
      invariant 0 <= k <= |xs|
      invariant b == (x in xs[..k])
    {
      b := xs[k] == x;
      assert xs[..k + 1] == xs[..k] + [xs[k]];
      k := k + 1;
    }
    if !b {
      assert xs[..k] == xs;
    }
  }
}
