/**
 * The menu page's grouping of the fetched product list into one section
 * per category. The page walks the products once, creating a key the first
 * time a category is seen and appending each product to its category's
 * list; the sections are then read back in key-insertion order.
 */
module MenuPage {
  import opened Types

  datatype CategoryGroup = CategoryGroup(name: string, products: seq<MenuItem>)

  /** The products of category `c`, in their original order. */
  function InCategory(s: seq<MenuItem>, c: string): (r: seq<MenuItem>)
    ensures |r| <= |s|
  {
    if s == [] then []
    else (if s[0].category == c then [s[0]] else []) + InCategory(s[1..], c)
  }

  /** Exactly the products of category `c` are kept. */
  lemma {:induction false} InCategoryMembers(s: seq<MenuItem>, c: string)
    ensures forall x :: x in InCategory(s, c) <==> x in s && x.category == c
  {
    if s != [] {
      InCategoryMembers(s[1..], c);
      assert s == [s[0]] + s[1..];
    }
  }

  /** Taking a category's products distributes over concatenation: the relative order is kept. */
  lemma {:induction false} InCategoryAppend(a: seq<MenuItem>, b: seq<MenuItem>, c: string)
    ensures InCategory(a + b, c) == InCategory(a, c) + InCategory(b, c)
  {
    if a == [] {
      assert a + b == b;
    } else {
      var ab := a + b;
      assert ab[0] == a[0] && ab[1..] == a[1..] + b;
      var h := if a[0].category == c then [a[0]] else [];
      assert InCategory(ab, c) == h + InCategory(a[1..] + b, c);
      assert InCategory(a, c) == h + InCategory(a[1..], c);
      InCategoryAppend(a[1..], b, c);
      assert h + (InCategory(a[1..], c) + InCategory(b, c)) == (h + InCategory(a[1..], c)) + InCategory(b, c);
    }
  }

  lemma InCategorySnoc(s: seq<MenuItem>, x: MenuItem, c: string)
    ensures InCategory(s + [x], c) == InCategory(s, c) + (if x.category == c then [x] else [])
  {
    InCategoryAppend(s, [x], c);
    assert InCategory([x], c) == (if x.category == c then [x] else []) + InCategory([], c);
  }

  /** The distinct categories of `s`, in the order in which each first appears. */
  function Categories(s: seq<MenuItem>): (r: seq<string>)
    ensures |r| <= |s|
  {
    if s == [] then []
    else
      var c := Categories(s[..|s| - 1]);
      if s[|s| - 1].category in c then c else c + [s[|s| - 1].category]
  }

  /** One more product adds its category at the end, unless it was seen before. */
  lemma CategoriesSnoc(s: seq<MenuItem>, x: MenuItem)
    ensures Categories(s + [x]) ==
      if x.category in Categories(s) then Categories(s) else Categories(s) + [x.category]
  {
    assert (s + [x])[..|s|] == s;
  }

  /** No category is listed twice. */
  ghost predicate Distinct(cs: seq<string>) {
    forall i, j :: 0 <= i < j < |cs| ==> cs[i] != cs[j]
  }

  /**
   * The categories listed are exactly those of the products, each once:
   * every product's category is listed, and every listed category is some
   * product's.
   */
  lemma {:induction false} CategoriesExact(s: seq<MenuItem>)
    ensures Distinct(Categories(s))
    ensures forall k :: 0 <= k < |s| ==> s[k].category in Categories(s)
    ensures forall i :: 0 <= i < |Categories(s)| ==> exists k :: 0 <= k < |s| && s[k].category == Categories(s)[i]
  {
    if s != [] {
      var init, last := s[..|s| - 1], s[|s| - 1];
      CategoriesExact(init);
      assert s == init + [last];
      CategoriesSnoc(init, last);
      var c := Categories(init);
      forall i | 0 <= i < |Categories(s)|
        ensures exists k :: 0 <= k < |s| && s[k].category == Categories(s)[i]
      {
        if i < |c| {
          var k :| 0 <= k < |init| && init[k].category == c[i];
          assert s[k] == init[k];
        } else {
          assert s[|s| - 1].category == Categories(s)[i];
        }
      }
      forall k | 0 <= k < |s| ensures s[k].category in Categories(s) {
        if k < |init| {
          assert s[k] == init[k];
        }
      }
    }
  }

  /** A category no product has owns no products. */
  lemma InCategoryAbsent(s: seq<MenuItem>, c: string)
    requires c !in Categories(s)
    ensures InCategory(s, c) == []
  {
    CategoriesExact(s);
    InCategoryNone(s, c);
  }

  lemma {:induction false} InCategoryNone(s: seq<MenuItem>, c: string)
    requires forall k :: 0 <= k < |s| ==> s[k].category != c
    ensures InCategory(s, c) == []
  {
    if s != [] {
      InCategoryNone(s[1..], c);
    }
  }

  /** Every listed category owns at least one product, so no section is empty. */
  lemma GroupsNonEmpty(s: seq<MenuItem>, i: nat)
    requires i < |Categories(s)|
    ensures InCategory(s, Categories(s)[i]) != []
  {
    CategoriesExact(s);
    var k :| 0 <= k < |s| && s[k].category == Categories(s)[i];
    InCategoryMembers(s, Categories(s)[i]);
    assert s[k] in InCategory(s, Categories(s)[i]);
  }

  /** Each product lies in exactly one section: the one named after its category. */
  lemma ProductInExactlyOneGroup(s: seq<MenuItem>, k: nat)
    requires k < |s|
    ensures exists i :: 0 <= i < |Categories(s)| && Categories(s)[i] == s[k].category
    ensures forall i :: 0 <= i < |Categories(s)| ==>
      (s[k] in InCategory(s, Categories(s)[i]) <==> Categories(s)[i] == s[k].category)
  {
    var cs := Categories(s);
    CategoriesExact(s);
    assert s[k].category in cs;
    forall i | 0 <= i < |cs|
      ensures s[k] in InCategory(s, cs[i]) <==> cs[i] == s[k].category
    {
      InCategoryMembers(s, cs[i]);
    }
  }

  /** There are as many sections as there are distinct categories. */
  lemma GroupCount(s: seq<MenuItem>)
    ensures |Categories(s)| == |set k | 0 <= k < |s| :: s[k].category|
  {
    var cs := Categories(s);
    CategoriesExact(s);
    var cats := set k | 0 <= k < |s| :: s[k].category;
    assert cats == set i | 0 <= i < |cs| :: cs[i] by {
      forall c | c in cats ensures c in set i | 0 <= i < |cs| :: cs[i] {
        var k :| 0 <= k < |s| && s[k].category == c;
        assert c in cs;
      }
      forall c | c in set i | 0 <= i < |cs| :: cs[i] ensures c in cats {
        var i :| 0 <= i < |cs| && cs[i] == c;
        var k :| 0 <= k < |s| && s[k].category == cs[i];
      }
    }
    DistinctCardinality(cs);
  }

  lemma {:induction false} DistinctCardinality(cs: seq<string>)
    requires Distinct(cs)
    ensures |set i | 0 <= i < |cs| :: cs[i]| == |cs|
  {
    if cs != [] {
      var rest := cs[1..];
      DistinctCardinality(rest);
      var whole := set i | 0 <= i < |cs| :: cs[i];
      var tail := set i | 0 <= i < |rest| :: rest[i];
      assert whole == tail + {cs[0]} by {
        forall c | c in whole ensures c in tail + {cs[0]} {
          var i :| 0 <= i < |cs| && cs[i] == c;
          if i > 0 { assert rest[i - 1] == c; }
        }
        forall c | c in tail ensures c in whole {
          var i :| 0 <= i < |rest| && rest[i] == c;
          assert cs[i + 1] == c;
        }
      }
      assert cs[0] !in tail;
    }
  }

  /**
   * Sections come in first-appearance order: a product of a later section
   * is always preceded by some product of every earlier section.
   */
  lemma {:induction false} FirstAppearanceOrder(s: seq<MenuItem>, i: nat, j: nat, k: nat)
    requires i < j < |Categories(s)| && k < |s| && s[k].category == Categories(s)[j]
    ensures exists m :: 0 <= m < k && s[m].category == Categories(s)[i]
  {
    var init, last := s[..|s| - 1], s[|s| - 1];
    assert s == init + [last];
    CategoriesSnoc(init, last);
    CategoriesExact(init);
    var c := Categories(init);
    if k < |init| {
      assert s[k] == init[k];
      assert Categories(s)[j] in c;
      assert j < |c|;
      FirstAppearanceOrder(init, i, j, k);
      var m :| 0 <= m < k && init[m].category == c[i];
      assert s[m] == init[m];
    } else if last.category in c {
      var n :| 0 <= n < |init| && init[n].category == c[j];
      FirstAppearanceOrder(init, i, j, n);
      var m :| 0 <= m < n && init[m].category == c[i];
      assert s[m] == init[m];
    } else {
      assert j == |c|;
      var n :| 0 <= n < |init| && init[n].category == c[i];
      assert s[n] == init[n];
    }
  }

  /** The products of the listed sections, one section after another. */
  function Spread(cs: seq<string>, s: seq<MenuItem>): seq<MenuItem> {
    if cs == [] then [] else InCategory(s, cs[0]) + Spread(cs[1..], s)
  }

  lemma {:induction false} SpreadCons(cs: seq<string>, x: MenuItem, t: seq<MenuItem>)
    requires Distinct(cs)
    ensures multiset(Spread(cs, [x] + t)) == multiset(Spread(cs, t)) + (if x.category in cs then multiset{x} else multiset{})
  {
    if cs != [] {
      SpreadCons(cs[1..], x, t);
      assert ([x] + t)[1..] == t;
      assert InCategory([x] + t, cs[0]) == (if x.category == cs[0] then [x] else []) + InCategory(t, cs[0]);
      assert x.category in cs <==> x.category == cs[0] || x.category in cs[1..];
      assert x.category == cs[0] ==> x.category !in cs[1..];
    }
  }

  /** Reading the sections back one after another gives a permutation of the product list. */
  lemma {:induction false} SpreadPermutation(cs: seq<string>, s: seq<MenuItem>)
    requires Distinct(cs)
    requires forall k :: 0 <= k < |s| ==> s[k].category in cs
    ensures multiset(Spread(cs, s)) == multiset(s)
  {
    if s == [] {
      SpreadEmpty(cs);
    } else {
      SpreadPermutation(cs, s[1..]);
      assert s == [s[0]] + s[1..];
      SpreadCons(cs, s[0], s[1..]);
    }
  }

  lemma {:induction false} SpreadEmpty(cs: seq<string>)
    ensures Spread(cs, []) == []
  {
    if cs != [] {
      SpreadEmpty(cs[1..]);
    }
  }

  /** The concatenated product lists of a grouping. */
  function Flatten(groups: seq<CategoryGroup>): seq<MenuItem> {
    if groups == [] then [] else groups[0].products + Flatten(groups[1..])
  }

  /** The grouping of a product list, as the page computes it. */
  ghost predicate IsGrouping(s: seq<MenuItem>, groups: seq<CategoryGroup>) {
    && |groups| == |Categories(s)|
    && forall i :: 0 <= i < |groups| ==> groups[i] == CategoryGroup(Categories(s)[i], InCategory(s, Categories(s)[i]))
  }

  lemma {:induction false} FlattenIsSpread(s: seq<MenuItem>, cs: seq<string>, groups: seq<CategoryGroup>)
    requires |groups| == |cs|
    requires forall i :: 0 <= i < |groups| ==> groups[i] == CategoryGroup(cs[i], InCategory(s, cs[i]))
    ensures Flatten(groups) == Spread(cs, s)
  {
    if groups != [] {
      FlattenIsSpread(s, cs[1..], groups[1..]);
    }
  }

  /** Concatenating the sections of a grouping gives back the product list, up to order. */
  lemma GroupingIsPermutation(s: seq<MenuItem>, groups: seq<CategoryGroup>)
    requires IsGrouping(s, groups)
    ensures multiset(Flatten(groups)) == multiset(s)
  {
    FlattenIsSpread(s, Categories(s), groups);
    CategoriesExact(s);
    SpreadPermutation(Categories(s), s);
  }

  /**
   * The grouping object after reading `prefix`: its keys, in insertion
   * order, are the categories seen so far, and each key holds that
   * category's products so far.
   */
  ghost predicate Tracks(prefix: seq<MenuItem>, grouped: map<string, seq<MenuItem>>, keys: seq<string>) {
    && keys == Categories(prefix)
    && (forall c :: c in grouped <==> c in keys)
    && (forall c :: c in grouped ==> grouped[c] == InCategory(prefix, c))
  }

  /** One step of the grouping loop keeps the grouping object in step with the products read. */
  lemma GroupStep(prefix: seq<MenuItem>, x: MenuItem, grouped: map<string, seq<MenuItem>>, keys: seq<string>)
    requires Tracks(prefix, grouped, keys)
    ensures Tracks(prefix + [x],
      grouped[x.category := (if x.category in grouped then grouped[x.category] else []) + [x]],
      if x.category in grouped then keys else keys + [x.category])
  {
    var bucket := if x.category in grouped then grouped[x.category] else [];
    var grouped' := grouped[x.category := bucket + [x]];
    var keys' := if x.category in grouped then keys else keys + [x.category];
    assert keys' == Categories(prefix + [x]) by {
      CategoriesSnoc(prefix, x);
    }
    assert forall c :: c in grouped' <==> c in keys';
    forall c | c in grouped'
      ensures grouped'[c] == InCategory(prefix + [x], c)
    {
      InCategorySnoc(prefix, x, c);
      if c == x.category && x.category !in grouped {
        InCategoryAbsent(prefix, c);
      }
    }
  }

  /**
   * `fetchProducts`' grouping loop. `keys` is the key order of the
   * grouping object: a key is added the first time its category is seen.
   */
  method GroupByCategory(products: seq<MenuItem>) returns (groups: seq<CategoryGroup>)
    ensures |groups| == |Categories(products)|
    ensures forall i :: 0 <= i < |groups| ==>
      groups[i].name == Categories(products)[i] && groups[i].products == InCategory(products, groups[i].name)
  {
    var grouped: map<string, seq<MenuItem>> := map[];
    var keys: seq<string> := [];
    var n := 0;
    while n < |products|
      invariant 0 <= n <= |products|
      invariant Tracks(products[..n], grouped, keys)
    {
      var product := products[n];
      GroupStep(products[..n], product, grouped, keys);
      assert products[..n + 1] == products[..n] + [product];
      var bucket := [];
      if product.category in grouped {
        bucket := grouped[product.category];
      } else {
        keys := keys + [product.category];
      }
      grouped := grouped[product.category := bucket + [product]];
      n := n + 1;
    }
    assert products[..n] == products;
    groups := seq(|keys|, i requires 0 <= i < |keys| && keys[i] in grouped => CategoryGroup(keys[i], grouped[keys[i]]));
  }
}
