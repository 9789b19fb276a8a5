/**
 * The ordering of decoded alert contacts: `sort.Slice` over the contact
 * array with "ID less than" as the comparison. Modelled by an in-place
 * insertion sort with the same comparison; the result is proved sorted by
 * ID and a permutation of the input.
 */
module ContactSort {
  import opened Strings
  import opened Monitors

  /** No contact's ID is greater than a later one's. */
  predicate SortedById(cs: seq<AlertContact>)
  {
    forall i, j :: 0 <= i < j < |cs| ==> NotAfter(cs[i].id, cs[j].id)
  }

  method Swap(a: array<AlertContact>, i: int, j: int)
    requires 0 <= i < a.Length && 0 <= j < a.Length
    modifies a
    ensures a[i] == old(a[j]) && a[j] == old(a[i])
    ensures forall k :: 0 <= k < a.Length && k != i && k != j ==> a[k] == old(a[k])
    ensures multiset(a[..]) == old(multiset(a[..]))
  {
    a[i], a[j] := a[j], a[i];
  }

  /** Sorts the contacts by ID, in place. */
  method SortById(a: array<AlertContact>)
    modifies a
    ensures SortedById(a[..])
    ensures multiset(a[..]) == old(multiset(a[..]))
  {
    if a.Length == 0 {
      return;
    }
    var i := 1;
    while i < a.Length
      invariant 1 <= i <= a.Length
      invariant forall p, q :: 0 <= p < q < i ==> NotAfter(a[p].id, a[q].id)
      invariant multiset(a[..]) == old(multiset(a[..]))
    {
      var j := i;
      while j > 0 && Less(a[j].id, a[j - 1].id)
        invariant 0 <= j <= i
        invariant forall p, q :: 0 <= p < q <= i && p != j && q != j ==> NotAfter(a[p].id, a[q].id)
        invariant forall q :: j < q <= i ==> NotAfter(a[j].id, a[q].id)
        invariant multiset(a[..]) == old(multiset(a[..]))
      {
        LessAsymmetric(a[j].id, a[j - 1].id);
        Swap(a, j - 1, j);
        j := j - 1;
      }
      forall p, q | 0 <= p < q <= i
        ensures NotAfter(a[p].id, a[q].id)
      {
        if q == j && p < j - 1 {
          NotAfterTransitive(a[p].id, a[j - 1].id, a[j].id);
        } else if p == j && q > j {
        }
      }
      i := i + 1;
    }
  }

  /** Distinct contact IDs. */
  predicate DistinctIds(cs: seq<AlertContact>)
  {
    forall i, j :: 0 <= i < j < |cs| ==> cs[i].id != cs[j].id
  }

  lemma SameHead(s: seq<AlertContact>, t: seq<AlertContact>)
    requires SortedById(s) && SortedById(t) && DistinctIds(s)
    requires multiset(s) == multiset(t) && |s| > 0
    ensures |t| > 0 && s[0] == t[0]
  {
    assert s[0] in multiset(t);
    var k :| 0 <= k < |t| && t[k] == s[0];
    assert t[0] in multiset(s);
    var m :| 0 <= m < |s| && s[m] == t[0];
    if s[0] != t[0] {
      assert NotAfter(s[0].id, t[0].id) by {
        assert NotAfter(s[0].id, s[m].id);
      }
      assert NotAfter(t[0].id, s[0].id) by {
        assert NotAfter(t[0].id, t[k].id);
      }
      NotAfterAntisymmetric(s[0].id, t[0].id);
    }
  }

  lemma SameTail(s: seq<AlertContact>, t: seq<AlertContact>)
    requires |s| > 0 && |t| > 0 && s[0] == t[0]
    requires multiset(s) == multiset(t)
    ensures multiset(s[1..]) == multiset(t[1..])
  {
    assert s == [s[0]] + s[1..];
    assert t == [t[0]] + t[1..];
    assert multiset(s) == multiset{s[0]} + multiset(s[1..]);
    assert multiset(t) == multiset{s[0]} + multiset(t[1..]);
    assert multiset(s[1..]) == multiset(s) - multiset{s[0]};
    assert multiset(t[1..]) == multiset(t) - multiset{s[0]};
  }

  /**
   * A sorted arrangement of contacts with distinct IDs is unique: any two
   * sorted permutations of the same contacts are equal.
   */
  lemma {:induction false} SortedUnique(s: seq<AlertContact>, t: seq<AlertContact>)
    requires SortedById(s) && SortedById(t) && DistinctIds(s)
    requires multiset(s) == multiset(t)
    ensures s == t
    decreases |s|
  {
    if |s| == 0 {
      assert |multiset(t)| == 0;
    } else {
      SameHead(s, t);
      SameTail(s, t);
      assert DistinctIds(s[1..]);
      SortedUnique(s[1..], t[1..]);
      assert s == [s[0]] + s[1..];
      assert t == [t[0]] + t[1..];
    }
  }
}
