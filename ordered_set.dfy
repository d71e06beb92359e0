/**
 * activemq::util::Set: a thin wrapper around std::set. The std::set is modelled by its
 * in-order traversal, a strictly increasing sequence, so that the "natural ordering"
 * promised for iteration and toArray is part of the state. Elements are ints with
 * their usual order.
 */
module OrderedSet {
  import opened Common

  /** The errors the iterator throws. */
  datatype IteratorError = NoSuchElement | IllegalState

  ghost predicate StrictlyIncreasing(s: seq<int>) {
    forall i, j :: 0 <= i < j < |s| ==> s[i] < s[j]
  }

  function Elems(s: seq<int>): set<int> {
    set x | x in s
  }

  /** A strictly increasing sequence has no duplicates, so its length is its cardinality. */
  lemma {:induction false} DistinctCardinality(s: seq<int>)
    requires StrictlyIncreasing(s)
    ensures |Elems(s)| == |s|
  {
    if s != [] {
      DistinctCardinality(s[1..]);
      assert Elems(s) == {s[0]} + Elems(s[1..]);
      assert s[0] !in Elems(s[1..]);
    }
  }

  /** Putting a value below every element in front keeps the sequence increasing. */
  lemma PrependBelow(x: int, t: seq<int>)
    requires StrictlyIncreasing(t)
    requires forall y :: y in Elems(t) ==> x < y
    ensures StrictlyIncreasing([x] + t)
    ensures Elems([x] + t) == {x} + Elems(t)
  {
    assert forall k :: 0 <= k < |t| ==> t[k] in Elems(t);
  }

  lemma SplitHead(s: seq<int>)
    requires StrictlyIncreasing(s) && s != []
    ensures Elems(s) == {s[0]} + Elems(s[1..])
    ensures forall y :: y in Elems(s[1..]) ==> s[0] < y
  {
    assert s == [s[0]] + s[1..];
    forall y | y in Elems(s[1..]) ensures s[0] < y {
      var k :| 0 <= k < |s[1..]| && s[1..][k] == y;
      assert s[k + 1] == y;
    }
  }

  /** std::set::insert on the in-order view: keeps the order, adds v if absent. */
  function Insert(s: seq<int>, v: int): (r: seq<int>)
    requires StrictlyIncreasing(s)
    ensures StrictlyIncreasing(r)
    ensures Elems(r) == Elems(s) + {v}
    ensures v in Elems(s) ==> r == s
  {
    if s == [] then [v]
    else if v < s[0] then
      SplitHead(s);
      PrependBelow(v, s);
      [v] + s
    else if v == s[0] then s
    else
      var rest := Insert(s[1..], v);
      SplitHead(s);
      PrependBelow(s[0], rest);
      [s[0]] + rest
  }

  /** std::set::erase(value) on the in-order view: keeps the order, drops v if present. */
  function Erase(s: seq<int>, v: int): (r: seq<int>)
    requires StrictlyIncreasing(s)
    ensures StrictlyIncreasing(r)
    ensures Elems(r) == Elems(s) - {v}
    ensures v !in Elems(s) ==> r == s
  {
    if s == [] then []
    else if s[0] == v then
      SplitHead(s);
      s[1..]
    else
      var rest := Erase(s[1..], v);
      SplitHead(s);
      PrependBelow(s[0], rest);
      [s[0]] + rest
  }

  /** Removing the element at position k (what erasing through an iterator does). */
  lemma {:induction false} EraseAt(s: seq<int>, k: nat)
    requires StrictlyIncreasing(s) && k < |s|
    ensures Erase(s, s[k]) == s[..k] + s[k + 1..]
  {
    if k == 0 {
      assert s[..0] + s[1..] == s[1..];
    } else {
      var t := s[1..];
      assert StrictlyIncreasing(t) && t[k - 1] == s[k] by {
        assert forall i, j :: 0 <= i < j < |t| ==> t[i] == s[i + 1] && t[j] == s[j + 1];
      }
      EraseAt(t, k - 1);
      EraseBehindHead(s, s[k]);
      SliceAround(s, k);
    }
  }

  /** Erasing a value other than the head keeps the head in front. */
  lemma EraseBehindHead(s: seq<int>, v: int)
    requires StrictlyIncreasing(s) && s != [] && s[0] != v
    ensures Erase(s, v) == [s[0]] + Erase(s[1..], v)
  {
  }

  lemma SliceAround(s: seq<int>, k: nat)
    requires 0 < k < |s|
    ensures s[..k] + s[k + 1..] == [s[0]] + (s[1..][..k - 1] + s[1..][k..])
  {
    assert s[1..][..k - 1] == s[1..k];
    assert s[1..][k..] == s[k + 1..];
    assert [s[0]] + s[1..k] == s[..k];
  }

  /**
   * Where `++` takes a std::set iterator standing on c: the least element above c, or
   * None for end(). It is defined for every c, so it also gives the step from an
   * element that other changes have left in place.
   */
  function Successor(s: seq<int>, c: int): (r: Option<int>)
    requires StrictlyIncreasing(s)
    ensures r.Some? ==> r.value in Elems(s) && c < r.value
    ensures forall y :: y in Elems(s) && c < y ==> r.Some? && r.value <= y
  {
    if s == [] then None
    else
      SplitHead(s);
      if c < s[0] then Some(s[0]) else Successor(s[1..], c)
  }

  /** begin() on the in-order view: the least element, or None for end(). */
  function First(s: seq<int>): (r: Option<int>)
    requires StrictlyIncreasing(s)
    ensures r.Some? ==> r.value in Elems(s)
    ensures forall y :: y in Elems(s) ==> r.Some? && r.value <= y
  {
    if s == [] then None
    else
      SplitHead(s);
      Some(s[0])
  }

  /** One step of an iterator: the elements from c up, less c, are those from its successor up. */
  lemma StepRemaining(s: seq<int>, c: int, next: Option<int>)
    requires StrictlyIncreasing(s) && next == Successor(s, c)
    ensures (if next.None? then {} else set x | x in Elems(s) && next.value <= x)
      == (set x | x in Elems(s) && c <= x) - {c}
  {
  }

  class Set {
    var values: seq<int>

    ghost predicate Valid()
      reads this
    {
      StrictlyIncreasing(values)
    }

    function Elements(): set<int>
      reads this
    {
      Elems(values)
    }

    /** Default constructor: an empty set. */
    constructor ()
      ensures Valid() && values == []
    {
      values := [];
    }

    /** Copy constructor: the contents of source. */
    constructor FromSet(source: Set)
      requires source.Valid()
      ensures Valid() && values == source.values
    {
      values := source.values;
    }

    /** Erases this set's contents and takes source's (source may be this set). */
    method CopyFrom(source: Set)
      requires Valid() && source.Valid()
      modifies this
      ensures Valid() && values == old(source.values)
      ensures Elements() == old(source.Elements())
    {
      values := source.values;
    }

    method Clear()
      requires Valid()
      modifies this
      ensures Valid() && values == []
      ensures IsEmpty() && Size() == 0
    {
      values := [];
    }

    function Contains(value: int): (r: bool)
      reads this
      requires Valid()
      ensures r <==> value in Elements()
    {
      value in values
    }

    function IsEmpty(): (r: bool)
      reads this
      requires Valid()
      ensures r <==> Elements() == {}
    {
      assert values != [] ==> values[0] in Elements();
      |values| == 0
    }

    function Size(): (r: nat)
      reads this
      requires Valid()
      ensures r == |Elements()|
    {
      DistinctCardinality(values);
      |values|
    }

    method Add(value: int)
      requires Valid()
      modifies this
      ensures Valid() && values == Insert(old(values), value)
      ensures Contains(value)
      ensures Elements() == old(Elements()) + {value}
      ensures old(Contains(value)) ==> values == old(values)
    {
      values := Insert(values, value);
    }

    method Remove(value: int)
      requires Valid()
      modifies this
      ensures Valid() && values == Erase(old(values), value)
      ensures !Contains(value)
      ensures Elements() == old(Elements()) - {value}
    {
      values := Erase(values, value);
    }

    /** Fills a vector of size() entries by walking the set in natural order. */
    method ToArray() returns (r: seq<int>)
      requires Valid()
      ensures |r| == Size()
      ensures StrictlyIncreasing(r)
      ensures Elems(r) == Elements()
    {
      var valueArray := new int[|values|];
      var ix := 0;
      while ix < |values|
        invariant 0 <= ix <= |values|
        invariant valueArray[..ix] == values[..ix]
      {
        valueArray[ix] := values[ix];
        ix := ix + 1;
      }
      assert values[..ix] == values;
      r := valueArray[..];
      DistinctCardinality(values);
    }

    method Iterator() returns (it: SetIterator)
      requires Valid()
      ensures fresh(it) && it.owner == this && it.Valid()
      ensures it.current == First(values) && it.previous == None
      ensures it.Remaining() == Elements()
    {
      it := new SetIterator(this);
    }
  }

  /**
   * SetIterator: `current` is the element the iterator stands on, the next one to return
   * (None is end()), `previous` the element last returned by next (None is end()). Like
   * std::set iterators, both stay on their elements while the set changes around them;
   * Valid() asks that those elements are still in the set, since erasing one invalidates
   * the iterator standing on it.
   */
  class SetIterator {
    const owner: Set
    var current: Option<int>
    var previous: Option<int>

    ghost predicate Valid()
      reads this, owner
    {
      && owner.Valid()
      && (current.Some? ==> current.value in owner.Elements())
      && (previous.Some? ==> previous.value in owner.Elements())
      && (previous.Some? && current.Some? ==> previous.value < current.value)
    }

    /** The elements next will return from here on, in ascending order: those from current up. */
    ghost function Remaining(): set<int>
      reads this, owner
    {
      if current.None? then {} else set x | x in owner.Elements() && current.value <= x
    }

    constructor (s: Set)
      requires s.Valid()
      ensures owner == s && Valid()
      ensures current == First(s.values) && previous == None
      ensures Remaining() == s.Elements()
    {
      owner := s;
      current := First(s.values);
      previous := None;
    }

    /** hasNext holds exactly while some element is left to return. */
    function HasNext(): (r: bool)
      reads this, owner
      requires Valid()
      ensures r <==> Remaining() != {}
    {
      assert current.Some? ==> current.value in Remaining();
      current.Some?
    }

    method Next() returns (r: Result<int, IteratorError>)
      requires Valid()
      modifies this
      ensures Valid()
      ensures old(current).None? ==> r == Failure(NoSuchElement) && current == old(current) && previous == old(previous)
      ensures old(current).Some? ==>
        && r.Success? && r.value in old(Remaining())
        && (forall y :: y in old(Remaining()) ==> r.value <= y)
        && Remaining() == old(Remaining()) - {r.value}
        && previous == Some(r.value) && current == Successor(owner.values, r.value)
    {
      if current.None? {
        return Failure(NoSuchElement);
      }
      var c := current.value;
      previous := current;
      current := Successor(owner.values, c);
      r := Success(c);
      StepRemaining(owner.values, c, current);
    }

    method Remove() returns (r: Outcome<IteratorError>)
      requires Valid()
      modifies this, owner
      ensures Valid()
      ensures old(previous).None? ==>
        && r == Fail(IllegalState) && owner.values == old(owner.values)
        && current == old(current) && previous == None
      ensures old(previous).Some? ==>
        && r == Pass
        && owner.values == Erase(old(owner.values), old(previous).value)
        && owner.Elements() == old(owner.Elements()) - {old(previous).value}
        && previous == None && current == old(current)
        && Remaining() == old(Remaining())
    {
      if previous.None? {
        return Fail(IllegalState);
      }
      owner.values := Erase(owner.values, previous.value);
      previous := None;
      r := Pass;
    }
  }

  /** The in-order views IteratorSurvivesAdd goes through. */
  lemma SampleViews()
    ensures Insert([], 1) == [1] && Insert([1], 3) == [1, 3] && Insert([1, 3], 0) == [0, 1, 3]
    ensures First([1, 3]) == Some(1) && Successor([1, 3], 1) == Some(3)
    ensures Elems([0, 1, 3]) == {0, 1, 3} && {0, 1, 3} - {3} == {0, 1}
  {
    assert [1, 3][1..] == [3];
  }

  /**
   * An iterator stays on its element while the set grows: over {1, 3}, next gives 1;
   * after add(0), next gives 3, and remove then erases 3.
   */
  method IteratorSurvivesAdd() returns (first: Result<int, IteratorError>, second: Result<int, IteratorError>, left: set<int>)
    ensures first == Success(1) && second == Success(3) && left == {0, 1}
  {
    SampleViews();
    var s := new Set();
    s.Add(1);
    s.Add(3);
    var it := s.Iterator();
    first := it.Next();
    assert it.current == Some(3) && it.previous == Some(1);
    s.Add(0);
    assert it.Valid() && s.Elements() == {0, 1, 3};
    assert it.Remaining() == {3};
    second := it.Next();
    assert it.previous == Some(3);
    var removed := it.Remove();
    assert s.Elements() == {0, 1, 3} - {3};
    left := s.Elements();
  }
}
