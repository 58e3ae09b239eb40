/** The data generator's subset rule: a set of allowed values, an exclusivity
    flag, and a random arrangement of the allowed values. */
module DataLoader {
  import opened Wrappers

  /** `ThreadLocalRandom.nextInt(0, 0)`: the bound must exceed the origin. */
  datatype Error = IllegalArgumentException

  /** The distinct elements of a Java collection, given in iteration order. */
  function Elements<T>(collection: seq<T>): (s: set<T>)
    ensures forall i :: 0 <= i < |collection| ==> collection[i] in s
    ensures forall x | x in s :: x in collection
  {
    set x | x in collection
  }

  /** No element occurs twice in the sequence. */
  predicate Distinct<T(==)>(s: seq<T>) {
    forall i, j :: 0 <= i < j < |s| ==> s[i] != s[j]
  }

  class SubSetRule<T(==)> {
    var exclusive: bool
    var values: set<T>

    /** The private constructor: not exclusive, no values. */
    constructor ()
      ensures !exclusive && values == {}
    {
      exclusive := false;
      values := {};
    }

    /** `isExclusive`: the flag the factory set when the rule was made. */
    function IsExclusive(): (b: bool)
      reads this
      ensures b <==> exclusive
    {
      exclusive
    }

    /** `values.addAll(allowedValues)`: adds each element in turn; adding one
        that is already there changes nothing. */
    method AddAll(allowedValues: seq<T>)
      modifies this
      ensures values == old(values) + Elements(allowedValues)
      ensures exclusive == old(exclusive)
    {
      var i := 0;
      while i < |allowedValues|
        invariant 0 <= i <= |allowedValues|
        invariant values == old(values) + Elements(allowedValues[..i])
        invariant exclusive == old(exclusive)
      {
        assert allowedValues[..i + 1] == allowedValues[..i] + [allowedValues[i]];
        values := values + {allowedValues[i]};
        i := i + 1;
      }
      assert allowedValues[..i] == allowedValues;
    }

    /** `withValues`: a rule that is not exclusive, whose values are the allowed
        values with duplicates collapsed. */
    static method WithValues(allowedValues: seq<T>) returns (rule: SubSetRule<T>)
      ensures fresh(rule)
      ensures rule.values == Elements(allowedValues) && !rule.IsExclusive()
    {
      rule := new SubSetRule();
      rule.AddAll(allowedValues);
    }

    /** `withValuesX`: the same values, but the rule is exclusive. */
    static method WithValuesX(allowedValues: seq<T>) returns (rule: SubSetRule<T>)
      ensures fresh(rule)
      ensures rule.values == Elements(allowedValues) && rule.IsExclusive()
    {
      rule := new SubSetRule();
      rule.AddAll(allowedValues);
      rule.exclusive := true;
    }

    /** `recalculatePrecedance`: there is never a recalculated rule. */
    function RecalculatePrecedance(exclusiveRule: SubSetRule?<T>): (r: SubSetRule?<T>)
      ensures r == null
    {
      null
    }

    /** `getRandomAllowedValue`: every stored value exactly once, in a random
        order; fails when there are no values. The stored values are left as they
        are, since the method modifies nothing. */
    method GetRandomAllowedValue() returns (r: Result<seq<T>, Error>)
      ensures r.Failure? <==> values == {}
      ensures r.Success? ==> multiset(r.value) == multiset(values)
      ensures r.Success? ==> |r.value| == |values| && Elements(r.value) == values && Distinct(r.value)
    {
      r := GetRandomSubset(values);
    }
  }

  /** `new ArrayList<>(values)`: the elements of a set, each once, in an order
      the set chooses. */
  method ToList<T(==)>(values: set<T>) returns (list: seq<T>)
    ensures multiset(list) == multiset(values)
  {
    list := [];
    var rest := values;
    while rest != {}
      invariant rest <= values
      invariant multiset(list) + multiset(rest) == multiset(values)
      decreases rest
    {
      var x :| x in rest;
      assert rest == (rest - {x}) + {x};
      list := list + [x];
      rest := rest - {x};
    }
  }

  /** `Collections.shuffle`: from the last position down, swaps each position
      with one at or before it, chosen at random. */
  method Shuffle<T>(a: array<T>)
    modifies a
    ensures multiset(a[..]) == old(multiset(a[..]))
  {
    var i := a.Length;
    while i > 1
      invariant 0 <= i <= a.Length
      invariant multiset(a[..]) == old(multiset(a[..]))
    {
      var j :| 0 <= j < i;
      a[i - 1], a[j] := a[j], a[i - 1];
      i := i - 1;
    }
  }

  /** `getRandomSubset`: draws a size in [0, |values|) that is never used (and
      fails when there are no values), copies the values into a list and
      shuffles it. */
  method GetRandomSubset<T(==)>(values: set<T>) returns (r: Result<seq<T>, Error>)
    ensures r.Failure? <==> values == {}
    ensures r.Success? ==> multiset(r.value) == multiset(values)
    ensures r.Success? ==> |r.value| == |values| && Elements(r.value) == values && Distinct(r.value)
  {
    if |values| <= 0 {
      return Failure(IllegalArgumentException);
    }
    var randomSize :| 0 <= randomSize < |values|;
    var list := ToList(values);
    var a := new T[|list|](k requires 0 <= k < |list| => list[k]);
    assert a[..] == list;
    Shuffle(a);
    SetPermutation(a[..], values);
    return Success(a[..]);
  }

  /** A sequence with the multiset of a set holds each of its elements exactly once. */
  lemma {:induction false} SetPermutation<T>(s: seq<T>, values: set<T>)
    requires multiset(s) == multiset(values)
    ensures |s| == |values| && Elements(s) == values && Distinct(s)
  {
    assert |multiset(s)| == |s|;
    assert |multiset(values)| == |values|;
    forall x | true
      ensures x in s <==> x in values
    {
      assert x in multiset(s) <==> x in s;
      assert x in multiset(values) <==> x in values;
    }
    forall i, j | 0 <= i < j < |s|
      ensures s[i] != s[j]
    {
      RepeatedCount(s, i, j);
    }
  }

  /** An element found at two positions is counted at least twice. */
  lemma RepeatedCount<T>(s: seq<T>, i: nat, j: nat)
    requires i < j < |s|
    ensures s[i] == s[j] ==> multiset(s)[s[i]] >= 2
  {
    assert s == s[..j] + s[j..];
    assert s[i] in s[..j] && s[j] in s[j..];
    assert multiset(s) == multiset(s[..j]) + multiset(s[j..]);
  }
}
