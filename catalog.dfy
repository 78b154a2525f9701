/** Catalog entries as the list view reads them, and the ordering that
    `sortAppsBySubscription` imposes on them before they are rendered:
    subscription tier, then the favourite flag, then names (non-Hangul
    before Hangul, each group in its own collation). */
module Catalog {
  import opened Text

  /** The fields of a stored entry that listing, filtering and sorting read.
      A field the store left out is read as `""` or `[]`. */
  datatype Entry = Entry(
    name: string,
    description: string,
    categories: seq<string>,
    tags: seq<string>,
    isFavorite: bool,
    status: string)

  /** A `localeCompare` with fixed locale and options: negative, zero or
      positive as the first text sorts before, with or after the second. */
  type Collation = (string, string) -> int

  /** What `Array.prototype.sort` demands of a comparator: any two texts are
      comparable and "sorts no later than" is transitive. */
  ghost predicate Consistent(c: Collation)
  {
    && (forall x, y :: c(x, y) <= 0 || c(y, x) <= 0)
    && (forall x, y, z :: c(x, y) <= 0 && c(y, z) <= 0 ==> c(x, z) <= 0)
  }

  /** The tier table `{paid: 3, trial: 2, free: 1}` with fallback `|| 1`:
      a missing or unknown status ranks as free. */
  function Priority(status: string): (p: int)
    ensures 1 <= p <= 3
    ensures p == 3 <==> status == "paid"
    ensures p == 2 <==> status == "trial"
    ensures status != "paid" && status != "trial" ==> p == 1
  {
    if status == "paid" then 3 else if status == "trial" then 2 else 1
  }

  function BoolToInt(b: bool): int
  {
    if b then 1 else 0
  }

  /** The name the sort looks at: `(name || '').trim()`. */
  function SortName(e: Entry): (name: string)
    ensures |name| <= |e.name| && Trimmed(name)
    ensures e.name == [] ==> name == []
  {
    Trim(e.name)
  }

  /** The comparator passed to `apps.sort`. `ko` is the Korean collation
      (numeric, base sensitivity); `en` the English one (numeric), which the
      source applies to the lower-cased names. */
  function Compare(a: Entry, b: Entry, ko: Collation, en: Collation): (c: int)
    ensures Priority(a.status) != Priority(b.status) ==>
      c != 0 && (c < 0 <==> Priority(a.status) > Priority(b.status))
    ensures Priority(a.status) == Priority(b.status) && a.isFavorite != b.isFavorite ==>
      c != 0 && (c < 0 <==> a.isFavorite)
    ensures (Priority(a.status) == Priority(b.status) && a.isFavorite == b.isFavorite
             && ContainsHangul(SortName(a)) != ContainsHangul(SortName(b))) ==>
      c != 0 && (c < 0 <==> !ContainsHangul(SortName(a)))
    ensures (Priority(a.status) == Priority(b.status) && a.isFavorite == b.isFavorite
             && ContainsHangul(SortName(a)) && ContainsHangul(SortName(b))) ==>
      c == ko(SortName(a), SortName(b))
    ensures (Priority(a.status) == Priority(b.status) && a.isFavorite == b.isFavorite
             && !ContainsHangul(SortName(a)) && !ContainsHangul(SortName(b))) ==>
      c == en(Lower(SortName(a)), Lower(SortName(b)))
  {
    var aPriority := Priority(a.status);
    var bPriority := Priority(b.status);
    if aPriority != bPriority then bPriority - aPriority
    else if a.isFavorite != b.isFavorite then BoolToInt(b.isFavorite) - BoolToInt(a.isFavorite)
    else
      var aName := SortName(a);
      var bName := SortName(b);
      var aIsKorean := ContainsHangul(aName);
      var bIsKorean := ContainsHangul(bName);
      if aIsKorean != bIsKorean then (if aIsKorean then 1 else -1)
      else if aIsKorean then ko(aName, bName)
      else en(Lower(aName), Lower(bName))
  }

  /** `a` may stand before `b` in the sorted list. */
  predicate Leq(a: Entry, b: Entry, ko: Collation, en: Collation)
  {
    Compare(a, b, ko, en) <= 0
  }

  ghost predicate Sorted(s: seq<Entry>, ko: Collation, en: Collation)
  {
    forall p, q :: 0 <= p < q < |s| ==> Leq(s[p], s[q], ko, en)
  }

  /** With consistent collations any two entries are comparable. */
  lemma LeqTotal(a: Entry, b: Entry, ko: Collation, en: Collation)
    requires Consistent(ko) && Consistent(en)
    ensures Leq(a, b, ko, en) || Leq(b, a, ko, en)
  {
    var an, bn := SortName(a), SortName(b);
    if Priority(a.status) == Priority(b.status) && a.isFavorite == b.isFavorite
      && ContainsHangul(an) == ContainsHangul(bn)
    {
      if ContainsHangul(an) {
        assert ko(an, bn) <= 0 || ko(bn, an) <= 0;
      } else {
        assert en(Lower(an), Lower(bn)) <= 0 || en(Lower(bn), Lower(an)) <= 0;
      }
    }
  }

  /** With consistent collations the comparator is transitive. */
  lemma LeqTransitive(a: Entry, b: Entry, c: Entry, ko: Collation, en: Collation)
    requires Consistent(ko) && Consistent(en)
    requires Leq(a, b, ko, en) && Leq(b, c, ko, en)
    ensures Leq(a, c, ko, en)
  {
    var an, bn, cn := SortName(a), SortName(b), SortName(c);
    if Priority(a.status) == Priority(b.status) == Priority(c.status)
      && a.isFavorite == b.isFavorite == c.isFavorite
      && ContainsHangul(an) == ContainsHangul(bn) == ContainsHangul(cn)
    {
      if ContainsHangul(an) {
        assert ko(an, bn) <= 0 && ko(bn, cn) <= 0;
      } else {
        assert en(Lower(an), Lower(bn)) <= 0 && en(Lower(bn), Lower(cn)) <= 0;
      }
    }
  }

  /** Tier priority never increases along a sorted list. */
  lemma SortedTiers(s: seq<Entry>, ko: Collation, en: Collation, i: int, j: int)
    requires Sorted(s, ko, en) && 0 <= i < j < |s|
    ensures Priority(s[i].status) >= Priority(s[j].status)
  {
    assert Leq(s[i], s[j], ko, en);
  }

  /** Within one tier every favourite precedes every non-favourite. */
  lemma SortedFavouritesFirst(s: seq<Entry>, ko: Collation, en: Collation, i: int, j: int)
    requires Sorted(s, ko, en) && 0 <= i < j < |s|
    requires Priority(s[i].status) == Priority(s[j].status)
    ensures s[j].isFavorite ==> s[i].isFavorite
  {
    assert Leq(s[i], s[j], ko, en);
  }

  /** Within one tier and favourite flag, names without Hangul come first. */
  lemma SortedHangulLast(s: seq<Entry>, ko: Collation, en: Collation, i: int, j: int)
    requires Sorted(s, ko, en) && 0 <= i < j < |s|
    requires Priority(s[i].status) == Priority(s[j].status)
    requires s[i].isFavorite == s[j].isFavorite
    ensures ContainsHangul(SortName(s[i])) ==> ContainsHangul(SortName(s[j]))
  {
    assert Leq(s[i], s[j], ko, en);
  }

  /** Within one tier, favourite flag and script group, the group's own
      collation decides. */
  lemma SortedWithinGroup(s: seq<Entry>, ko: Collation, en: Collation, i: int, j: int)
    requires Sorted(s, ko, en) && 0 <= i < j < |s|
    requires Priority(s[i].status) == Priority(s[j].status)
    requires s[i].isFavorite == s[j].isFavorite
    requires ContainsHangul(SortName(s[i])) == ContainsHangul(SortName(s[j]))
    ensures ContainsHangul(SortName(s[i])) ==> ko(SortName(s[i]), SortName(s[j])) <= 0
    ensures !ContainsHangul(SortName(s[i])) ==> en(Lower(SortName(s[i])), Lower(SortName(s[j]))) <= 0
  {
    assert Leq(s[i], s[j], ko, en);
  }

  /** Paid beats free, and within free the favourite `가위` beats `Zebra`
      although its name is Hangul: the order is Apple, 가위, Zebra. */
  lemma TierAndFavouriteExample(ko: Collation, en: Collation)
    ensures Compare(Entry("Apple", "", [], [], false, "paid"), Entry("Zebra", "", [], [], false, "free"), ko, en) < 0
    ensures Compare(Entry("Apple", "", [], [], false, "paid"), Entry("가위", "", [], [], true, "free"), ko, en) < 0
    ensures Compare(Entry("가위", "", [], [], true, "free"), Entry("Zebra", "", [], [], false, "free"), ko, en) < 0
  {
  }

  /** In one tier and favourite flag, `apple` precedes `가나`, whatever the collations. */
  lemma ScriptExample(ko: Collation, en: Collation)
    ensures Compare(Entry("apple", "", [], [], false, "free"), Entry("가나", "", [], [], false, "free"), ko, en) < 0
  {
    var a, g := "apple", "가나";
    TrimTrimmed(a);
    TrimTrimmed(g);
    assert IsHangul(g[0]);
    assert !ContainsHangul(a) by {
      forall k | 0 <= k < |a| ensures !IsHangul(a[k]) {
        assert a[k] < '\U{3131}';
      }
    }
  }

  /** `le` is a total preorder: what a comparator must be for a sort to
      have a well-defined result. */
  ghost predicate TotalPreorder<T(!new)>(le: (T, T) -> bool)
  {
    && (forall x, y :: le(x, y) || le(y, x))
    && (forall x, y, z :: le(x, y) && le(y, z) ==> le(x, z))
  }

  ghost predicate SortedBy<T>(s: seq<T>, le: (T, T) -> bool)
  {
    forall p, q :: 0 <= p < q < |s| ==> le(s[p], s[q])
  }

  /** With consistent collations the catalog comparator is a total preorder. */
  lemma {:induction false} CompareIsTotalPreorder(ko: Collation, en: Collation)
    requires Consistent(ko) && Consistent(en)
    ensures TotalPreorder((a: Entry, b: Entry) => Leq(a, b, ko, en))
  {
    var le := (a: Entry, b: Entry) => Leq(a, b, ko, en);
    forall x: Entry, y: Entry ensures le(x, y) || le(y, x) {
      LeqTotal(x, y, ko, en);
    }
    forall x: Entry, y: Entry, z: Entry | le(x, y) && le(y, z) ensures le(x, z) {
      LeqTransitive(x, y, z, ko, en);
    }
  }

  /** Exchanges the element at `j` with its left neighbour. */
  method SwapWithPrevious<T>(a: array<T>, j: int)
    requires 0 < j < a.Length
    modifies a
    ensures a[j - 1] == old(a[j]) && a[j] == old(a[j - 1])
    ensures forall k :: 0 <= k < a.Length && k != j - 1 && k != j ==> a[k] == old(a[k])
    ensures multiset(a[..]) == old(multiset(a[..]))
  {
    a[j - 1], a[j] := a[j], a[j - 1];
  }

  /** A stable in-place sort standing in for the engine's `Array.prototype.sort`:
      the result is a permutation of the input, sorted when `le` is a total
      preorder, and a sorted input is left as it is. */
  method InsertionSort<T(!new)>(a: array<T>, le: (T, T) -> bool)
    modifies a
    ensures multiset(a[..]) == old(multiset(a[..]))
    ensures TotalPreorder(le) ==> SortedBy(a[..], le)
    ensures SortedBy(old(a[..]), le) ==> a[..] == old(a[..])
  {
    ghost var preorder := TotalPreorder(le);
    if a.Length < 2 {
      return;
    }
    var i := 1;
    while i < a.Length
      invariant 1 <= i <= a.Length
      invariant multiset(a[..]) == old(multiset(a[..]))
      invariant preorder ==> forall p, q :: 0 <= p < q < i ==> le(a[p], a[q])
      invariant SortedBy(old(a[..]), le) ==> a[..] == old(a[..])
    {
      var j := i;
      while j > 0 && !le(a[j - 1], a[j])
        invariant 0 <= j <= i
        invariant multiset(a[..]) == old(multiset(a[..]))
        invariant preorder ==> forall p, q :: 0 <= p < q <= i && p != j && q != j ==> le(a[p], a[q])
        invariant preorder ==> forall q :: j < q <= i ==> le(a[j], a[q])
        invariant SortedBy(old(a[..]), le) ==> j == i && a[..] == old(a[..])
      {
        SwapWithPrevious(a, j);
        j := j - 1;
      }
      i := i + 1;
    }
  }

  /** `sortAppsBySubscription`: reorders `apps` in place with the catalog
      comparator. The result is a permutation of the input; with consistent
      collations it is sorted, so the tier, favourite, script and collation
      lemmas above apply to it; an already sorted list is left as it is, so
      sorting twice is sorting once. */
  method SortAppsBySubscription(apps: array<Entry>, ko: Collation, en: Collation)
    modifies apps
    ensures multiset(apps[..]) == old(multiset(apps[..]))
    ensures Consistent(ko) && Consistent(en) ==> Sorted(apps[..], ko, en)
    ensures Sorted(old(apps[..]), ko, en) ==> apps[..] == old(apps[..])
  {
    var le := (a: Entry, b: Entry) => Leq(a, b, ko, en);
    if Consistent(ko) && Consistent(en) {
      CompareIsTotalPreorder(ko, en);
    }
    InsertionSort(apps, le);
  }
}
