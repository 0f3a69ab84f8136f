/** The `filter` / `reduce((sum, item) => sum + item.x, 0)` / `new Set(...).size` expressions the
    report assembler and the analysis screen apply to item lists, with the partition facts
    they rely on. */
module ItemSums {
  import opened StockTypes

  /** The summed columns. */
  datatype Field = Qty | Amt | Sales

  function FieldOf(it: StagnantStockItem, f: Field): real {
    match f
    case Qty => it.stockQty
    case Amt => it.stockAmt
    case Sales => it.salesTagAmt
  }

  /** Left-to-right sum from 0, as `reduce` computes it. */
  function Sum(items: seq<StagnantStockItem>, f: Field): real {
    if items == [] then 0.0 else Sum(items[..|items| - 1], f) + FieldOf(items[|items| - 1], f)
  }

  /** The item predicates the filters use. */
  datatype Selector = InGroup(g: SeasonGroup) | InCategory(c: MidCategory) | WithStatus(s: StockStatus)

  predicate Matches(it: StagnantStockItem, sel: Selector) {
    match sel
    case InGroup(g) => it.seasonGroup == g
    case InCategory(c) => it.category == c
    case WithStatus(s) => it.status == s
  }

  /** `items.filter(...)`: the matching items in their original order. */
  function Select(items: seq<StagnantStockItem>, sel: Selector): (r: seq<StagnantStockItem>)
    ensures |r| <= |items|
    ensures forall it :: it in r ==> it in items && Matches(it, sel)
  {
    if items == [] then []
    else Select(items[..|items| - 1], sel) + (if Matches(items[|items| - 1], sel) then [items[|items| - 1]] else [])
  }

  /** The set of dimension keys of a list; its size is `new Set(items.map(k)).size`. */
  function KeySet(items: seq<StagnantStockItem>): set<string> {
    set i | 0 <= i < |items| :: items[i].dimensionKey
  }

  predicate DistinctKeys(items: seq<StagnantStockItem>) {
    forall i, j :: 0 <= i < j < |items| ==> items[i].dimensionKey != items[j].dimensionKey
  }

  /** Appending one item adds its column value to the sum. */
  lemma SumSnoc(p: seq<StagnantStockItem>, x: StagnantStockItem, f: Field)
    ensures Sum(p + [x], f) == Sum(p, f) + FieldOf(x, f)
  {
    assert (p + [x])[..|p|] == p;
  }

  /** Appending one item adds it to the filtered list exactly when it matches. */
  lemma SelectSnoc(p: seq<StagnantStockItem>, x: StagnantStockItem, sel: Selector)
    ensures Select(p + [x], sel) == Select(p, sel) + (if Matches(x, sel) then [x] else [])
  {
    assert (p + [x])[..|p|] == p;
  }

  lemma SumSelectSnoc(p: seq<StagnantStockItem>, x: StagnantStockItem, sel: Selector, f: Field)
    ensures Sum(Select(p + [x], sel), f) == Sum(Select(p, sel), f) + (if Matches(x, sel) then FieldOf(x, f) else 0.0)
  {
    SelectSnoc(p, x, sel);
    if Matches(x, sel) {
      SumSnoc(Select(p, sel), x, f);
    } else {
      assert Select(p, sel) + [] == Select(p, sel);
    }
  }

  lemma {:induction false} SumAppend(a: seq<StagnantStockItem>, b: seq<StagnantStockItem>, f: Field)
    ensures Sum(a + b, f) == Sum(a, f) + Sum(b, f)
    decreases |b|
  {
    if b != [] {
      assert (a + b)[..|a + b| - 1] == a + b[..|b| - 1];
      SumAppend(a, b[..|b| - 1], f);
    } else {
      assert a + b == a;
    }
  }

  lemma {:induction false} SelectAppend(a: seq<StagnantStockItem>, b: seq<StagnantStockItem>, sel: Selector)
    ensures Select(a + b, sel) == Select(a, sel) + Select(b, sel)
    decreases |b|
  {
    if b != [] {
      assert (a + b)[..|a + b| - 1] == a + b[..|b| - 1];
      SelectAppend(a, b[..|b| - 1], sel);
    } else {
      assert a + b == a;
    }
  }

  /** Filtering keeps exactly the matching occurrences. */
  lemma {:induction false} SelectMultiset(items: seq<StagnantStockItem>, sel: Selector)
    ensures forall x :: multiset(Select(items, sel))[x] == if Matches(x, sel) then multiset(items)[x] else 0
  {
    if items != [] {
      var p := items[..|items| - 1];
      SelectMultiset(p, sel);
      assert items == p + [items[|items| - 1]];
    }
  }

  lemma MultisetRemoveAt(b: seq<StagnantStockItem>, i: nat)
    requires i < |b|
    ensures multiset(b[..i] + b[i + 1..]) == multiset(b) - multiset{b[i]}
  {
    assert b == b[..i] + [b[i]] + b[i + 1..];
  }

  lemma SumRemoveAt(b: seq<StagnantStockItem>, i: nat, f: Field)
    requires i < |b|
    ensures Sum(b, f) == Sum(b[..i] + b[i + 1..], f) + FieldOf(b[i], f)
  {
    assert b == (b[..i] + [b[i]]) + b[i + 1..];
    SumAppend(b[..i] + [b[i]], b[i + 1..], f);
    SumSnoc(b[..i], b[i], f);
    SumAppend(b[..i], b[i + 1..], f);
  }

  /** The sum of a column does not depend on the order of the items. */
  lemma {:induction false} SumPermutation(a: seq<StagnantStockItem>, b: seq<StagnantStockItem>, f: Field)
    requires multiset(a) == multiset(b)
    ensures Sum(a, f) == Sum(b, f)
    decreases |a|
  {
    if a != [] {
      var p, x := a[..|a| - 1], a[|a| - 1];
      assert a == p + [x];
      assert x in multiset(b);
      var i :| 0 <= i < |b| && b[i] == x;
      MultisetRemoveAt(b, i);
      assert multiset(p) == multiset(a) - multiset{x};
      SumPermutation(p, b[..i] + b[i + 1..], f);
      SumRemoveAt(b, i, f);
      SumSnoc(p, x, f);
    }
  }

  /** Filtering two permutations of each other gives permutations of each other. */
  lemma SelectPermutation(a: seq<StagnantStockItem>, b: seq<StagnantStockItem>, sel: Selector)
    requires multiset(a) == multiset(b)
    ensures multiset(Select(a, sel)) == multiset(Select(b, sel))
  {
    SelectMultiset(a, sel);
    SelectMultiset(b, sel);
  }

  /** Every item is in exactly one season group, so the group sums add up to the whole. */
  lemma {:induction false} SumByGroups(items: seq<StagnantStockItem>, f: Field)
    ensures Sum(items, f)
      == Sum(Select(items, InGroup(StagnantStock)), f) + Sum(Select(items, InGroup(CurrentSeason)), f)
       + Sum(Select(items, InGroup(NextSeason)), f) + Sum(Select(items, InGroup(PastSeason)), f)
  {
    if items != [] {
      var p, x := items[..|items| - 1], items[|items| - 1];
      assert items == p + [x];
      SumByGroups(p, f);
      SumSnoc(p, x, f);
      SumSelectSnoc(p, x, InGroup(StagnantStock), f);
      SumSelectSnoc(p, x, InGroup(CurrentSeason), f);
      SumSelectSnoc(p, x, InGroup(NextSeason), f);
      SumSelectSnoc(p, x, InGroup(PastSeason), f);
    }
  }

  /** Every item has exactly one status, so the two status sums add up to the whole. */
  lemma {:induction false} SumByStatus(items: seq<StagnantStockItem>, f: Field)
    ensures Sum(items, f) == Sum(Select(items, WithStatus(Stagnant)), f) + Sum(Select(items, WithStatus(Normal)), f)
  {
    if items != [] {
      var p, x := items[..|items| - 1], items[|items| - 1];
      assert items == p + [x];
      SumByStatus(p, f);
      SumSnoc(p, x, f);
      SumSelectSnoc(p, x, WithStatus(Stagnant), f);
      SumSelectSnoc(p, x, WithStatus(Normal), f);
    }
  }

  /** Items of the four real categories: their category sums add up to the whole. */
  lemma {:induction false} SumByCategories(items: seq<StagnantStockItem>, f: Field)
    requires forall it :: it in items ==> IsItemCategory(it.category)
    ensures Sum(items, f)
      == Sum(Select(items, InCategory(Shoes)), f) + Sum(Select(items, InCategory(Headwear)), f)
       + Sum(Select(items, InCategory(Bag)), f) + Sum(Select(items, InCategory(Etc)), f)
  {
    if items != [] {
      var p, x := items[..|items| - 1], items[|items| - 1];
      assert items == p + [x];
      SumByCategories(p, f);
      SumSnoc(p, x, f);
      SumSelectSnoc(p, x, InCategory(Shoes), f);
      SumSelectSnoc(p, x, InCategory(Headwear), f);
      SumSelectSnoc(p, x, InCategory(Bag), f);
      SumSelectSnoc(p, x, InCategory(Etc), f);
    }
  }

  /** Every item has exactly one status, so the two status lists share out the items. */
  lemma {:induction false} CountByStatus(items: seq<StagnantStockItem>)
    ensures |Select(items, WithStatus(Stagnant))| + |Select(items, WithStatus(Normal))| == |items|
  {
    if items != [] {
      CountByStatus(items[..|items| - 1]);
    }
  }

  /** With one item per dimension key, the distinct-key count is the plain length. */
  lemma {:induction false} KeyCountDistinct(items: seq<StagnantStockItem>)
    requires DistinctKeys(items)
    ensures |KeySet(items)| == |items|
  {
    if items != [] {
      var p := items[..|items| - 1];
      KeyCountDistinct(p);
      var k := items[|items| - 1].dimensionKey;
      assert KeySet(items) == KeySet(p) + {k} by {
        forall key | key in KeySet(items) ensures key in KeySet(p) + {k} {
          var i :| 0 <= i < |items| && items[i].dimensionKey == key;
          if i < |p| { assert p[i] == items[i]; }
        }
        forall key | key in KeySet(p) ensures key in KeySet(items) {
          var i :| 0 <= i < |p| && p[i].dimensionKey == key;
          assert items[i] == p[i];
        }
      }
      assert k !in KeySet(p);
    }
  }

  /** A filtered list keeps the original relative order, so distinct keys stay distinct. */
  lemma {:induction false} SelectDistinct(items: seq<StagnantStockItem>, sel: Selector)
    requires DistinctKeys(items)
    ensures DistinctKeys(Select(items, sel))
  {
    if items != [] {
      var p := items[..|items| - 1];
      var x := items[|items| - 1];
      SelectDistinct(p, sel);
      assert forall it :: it in Select(p, sel) ==> it in p;
      assert forall it :: it in p ==> it.dimensionKey != x.dimensionKey;
    }
  }

  /** Two filters applied in either order keep the same items in the same order. */
  lemma {:induction false} SelectCommute(items: seq<StagnantStockItem>, a: Selector, b: Selector)
    ensures Select(Select(items, a), b) == Select(Select(items, b), a)
  {
    if items != [] {
      var p, x := items[..|items| - 1], items[|items| - 1];
      assert items == p + [x];
      SelectCommute(p, a, b);
      SelectSnoc(p, x, a);
      SelectSnoc(p, x, b);
      if Matches(x, a) {
        SelectSnoc(Select(p, a), x, b);
      } else {
        assert Select(p, a) + [] == Select(p, a);
      }
      if Matches(x, b) {
        SelectSnoc(Select(p, b), x, a);
      } else {
        assert Select(p, b) + [] == Select(p, b);
      }
    }
  }

  /** Two filters that agree on every item select the same list. */
  lemma {:induction false} SelectEquivalent(items: seq<StagnantStockItem>, a: Selector, b: Selector)
    requires forall it :: it in items ==> (Matches(it, a) <==> Matches(it, b))
    ensures Select(items, a) == Select(items, b)
  {
    if items != [] {
      SelectEquivalent(items[..|items| - 1], a, b);
    }
  }

  /** A non-empty list of items with positive stock has a positive stock total. */
  lemma {:induction false} SumPositive(items: seq<StagnantStockItem>)
    requires forall it :: it in items ==> it.stockAmt > 0.0
    ensures Sum(items, Amt) >= 0.0
    ensures items != [] ==> Sum(items, Amt) > 0.0
  {
    if items != [] {
      SumPositive(items[..|items| - 1]);
    }
  }

  /** The four season groups share out the items: every occurrence lands in exactly one group. */
  lemma {:induction false} GroupsPartition(items: seq<StagnantStockItem>)
    ensures multiset(items)
      == multiset(Select(items, InGroup(StagnantStock))) + multiset(Select(items, InGroup(CurrentSeason)))
       + multiset(Select(items, InGroup(NextSeason))) + multiset(Select(items, InGroup(PastSeason)))
  {
    if items != [] {
      var p, x := items[..|items| - 1], items[|items| - 1];
      assert items == p + [x];
      GroupsPartition(p);
      SelectSnoc(p, x, InGroup(StagnantStock));
      SelectSnoc(p, x, InGroup(CurrentSeason));
      SelectSnoc(p, x, InGroup(NextSeason));
      SelectSnoc(p, x, InGroup(PastSeason));
    }
  }
}
