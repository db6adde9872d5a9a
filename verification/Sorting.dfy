/** Address-ordered sequences: how a BTreeMap iterates and what `sort_by` on the address produces. */
module Sorting {
  import opened Addresses

  ghost predicate Sorted(s: seq<Address>) {
    forall i, j :: 0 <= i < j < |s| ==> Before(s[i], s[j])
  }

  predicate IsLeast(m: Address, s: set<Address>) {
    m in s && forall x :: x in s && x != m ==> Before(m, x)
  }

  lemma {:induction false} FindLeast(s: set<Address>) returns (m: Address)
    requires s != {}
    ensures IsLeast(m, s)
    decreases |s|
  {
    m :| m in s;
    if s != {m} {
      var r := FindLeast(s - {m});
      m := Lesser(m, r, s);
    }
  }

  lemma Lesser(y: Address, r: Address, s: set<Address>) returns (m: Address)
    requires y in s && y != r && IsLeast(r, s - {y})
    ensures IsLeast(m, s)
  {
    BeforeTotal(y, r);
    if Before(y, r) {
      m := y;
      forall x | x in s && x != y ensures Before(y, x) {
        if x != r { BeforeTransitive(y, r, x); }
      }
    } else {
      m := r;
    }
  }

  lemma LeastUnique(m: Address, m': Address, s: set<Address>)
    requires IsLeast(m, s) && IsLeast(m', s)
    ensures m == m'
  {
    BeforeIrreflexive(m);
    if m != m' { BeforeTransitive(m, m', m); }
  }

  /** The first key of a BTreeMap. */
  function Least(s: set<Address>): (m: Address)
    requires s != {}
    ensures IsLeast(m, s)
  {
    LeastExists(s);
    var m :| m in s && IsLeast(m, s);
    m
  }

  lemma LeastExists(s: set<Address>)
    requires s != {}
    ensures exists m :: m in s && IsLeast(m, s)
    ensures forall m, m' :: IsLeast(m, s) && IsLeast(m', s) ==> m == m'
  {
    var w := FindLeast(s);
    forall m, m' | IsLeast(m, s) && IsLeast(m', s) ensures m == m' { LeastUnique(m, m', s); }
  }

  /** The keys of a BTreeMap in iteration order. */
  function SortedKeys(s: set<Address>): (r: seq<Address>)
    ensures forall a :: a in r <==> a in s
    ensures Sorted(r)
    decreases |s|
  {
    if s == {} then []
    else
      var m := Least(s);
      var rest := SortedKeys(s - {m});
      assert forall i :: 0 <= i < |rest| ==> rest[i] in s - {m};
      [m] + rest
  }

  lemma SortedDistinct(s: seq<Address>)
    requires Sorted(s)
    ensures forall i, j :: 0 <= i < |s| && 0 <= j < |s| && s[i] == s[j] ==> i == j
  {
    forall i | 0 <= i < |s| { BeforeIrreflexive(s[i]); }
  }

  /** A set of addresses has one sorted arrangement. */
  lemma {:induction false} SortedUnique(s: seq<Address>, t: seq<Address>)
    requires Sorted(s) && Sorted(t)
    requires forall a :: a in s <==> a in t
    ensures s == t
    decreases |s|
  {
    assert t != [] ==> t[0] in s;
    if s != [] {
      assert s[0] in t;
      assert t != [] && t[0] in s;
      SortedDistinct(s);
      SortedDistinct(t);
      if s[0] != t[0] {
        assert Before(s[0], t[0]) && Before(t[0], s[0]);
        BeforeTransitive(s[0], t[0], s[0]);
        BeforeIrreflexive(s[0]);
      }
      var s', t' := s[1..], t[1..];
      forall a ensures a in s' <==> a in t' {
        assert a in s' <==> a in s && a != s[0];
        assert a in t' <==> a in t && a != t[0];
      }
      SortedUnique(s', t');
      assert s == [s[0]] + s' && t == [t[0]] + t';
    }
  }
}
