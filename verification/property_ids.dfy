/**
 * Hierarchical property ids and the provider's check of requested ids against
 * the ids it registers (AbstractResourceProvider.checkPropertyIds).
 *
 * A property id is a '/'-separated path such as "cat3/sub1/bam". Its category is
 * the path with the last "/segment" removed; "cat3/sub1" and then "cat3" are the
 * categories of "cat3/sub1/bam".
 */
module PropertyIds {
  import opened Wrappers

  /** Position of the last '/' in p, if there is one. */
  function LastSlash(p: string): (r: Option<nat>)
    ensures r.Some? ==> r.value < |p| && p[r.value] == '/'
    ensures r.Some? ==> forall k :: r.value < k < |p| ==> p[k] != '/'
    ensures r.None? ==> forall k :: 0 <= k < |p| ==> p[k] != '/'
    decreases |p|
  {
    if p == [] then None
    else if p[|p| - 1] == '/' then Some(|p| - 1)
    else LastSlash(p[..|p| - 1])
  }

  /** c is a category of p, at any depth: p starts with c followed by '/'. */
  predicate IsCategoryOf(c: string, p: string)
  {
    |c| < |p| && p[..|c|] == c && p[|c|] == '/'
  }

  /** The immediate category of p (its path without the last segment); none when p has one segment. */
  function Category(p: string): (c: Option<string>)
    ensures c.Some? ==> IsCategoryOf(c.value, p)
    ensures c.Some? ==> forall d :: IsCategoryOf(d, p) ==> d == c.value || IsCategoryOf(d, c.value)
    ensures c.None? ==> forall d :: !IsCategoryOf(d, p)
  {
    match LastSlash(p)
    case None => None
    case Some(i) =>
      var c := p[..i];
      assert forall d :: IsCategoryOf(d, p) && |d| < i ==> c[..|d|] == d && c[|d|] == '/';
      Some(c)
  }

  /** Every category of p, found by taking the category of the category until none is left. */
  function Categories(p: string): set<string>
    decreases |p|
  {
    match Category(p)
    case None => {}
    case Some(c) => {c} + Categories(c)
  }

  /** Walking the category chain finds exactly the prefixes of p that end before a '/'. */
  lemma {:induction false} CategoriesAreCategoryPrefixes(p: string, d: string)
    ensures d in Categories(p) <==> IsCategoryOf(d, p)
    decreases |p|
  {
    match Category(p)
    case None =>
    case Some(c) =>
      CategoriesAreCategoryPrefixes(c, d);
      if IsCategoryOf(d, c) {
        assert p[..|d|] == c[..|d|];
      }
  }

  /** The quantified form of CategoriesAreCategoryPrefixes. */
  lemma AllCategoriesAreCategoryPrefixes()
    ensures forall p, d :: d in Categories(p) <==> IsCategoryOf(d, p)
  {
    forall p, d ensures d in Categories(p) <==> IsCategoryOf(d, p) {
      CategoriesAreCategoryPrefixes(p, d);
    }
  }

  /** Every category of every registered id. */
  function CategoryIds(registered: set<string>): set<string>
  {
    set q, c | q in registered && c in Categories(q) :: c
  }

  /**
   * What the provider accepts, stated without the category walk: a registered id,
   * an entry below a registered (map-valued) id, or a category of a registered id.
   */
  ghost predicate Supported(registered: set<string>, p: string)
  {
    || p in registered
    || (exists c :: c in registered && IsCategoryOf(c, p))
    || (exists q :: q in registered && IsCategoryOf(p, q))
  }

  /** The category walk accepts exactly the supported ids. */
  lemma AcceptedIsSupported(registered: set<string>)
    ensures forall p :: Supported(registered, p) <==>
      (p in registered || p in CategoryIds(registered) || Categories(p) * registered != {})
  {
    AllCategoriesAreCategoryPrefixes();
    forall p ensures Supported(registered, p) <==>
      (p in registered || p in CategoryIds(registered) || Categories(p) * registered != {})
    {
      if q :| q in registered && IsCategoryOf(p, q) {
        assert p in Categories(q);
      }
      if c :| c in registered && IsCategoryOf(c, p) {
        assert c in Categories(p) * registered;
      }
      if p in CategoryIds(registered) {
        var q :| q in registered && p in Categories(q);
        assert IsCategoryOf(p, q);
      }
      if Categories(p) * registered != {} {
        var c :| c in Categories(p) * registered;
        assert IsCategoryOf(c, p);
      }
    }
  }

  /** The requested ids the provider does not support; empty when the request may proceed. */
  function CheckPropertyIds(registered: set<string>, requested: set<string>): (unsupported: set<string>)
    ensures unsupported <= requested
    ensures forall p :: p in requested ==> (p in unsupported <==> !Supported(registered, p))
  {
    AcceptedIsSupported(registered);
    set p | p in requested
      && p !in registered
      && p !in CategoryIds(registered)
      && Categories(p) * registered == {}
  }

  /** A request made only of registered ids is fully supported. */
  lemma RegisteredIdsSupported(registered: set<string>, requested: set<string>)
    requires requested <= registered
    ensures CheckPropertyIds(registered, requested) == {}
  {
  }

  /** Registering more ids never makes more requested ids unsupported. */
  lemma CheckPropertyIdsAntitone(registered: set<string>, more: set<string>, requested: set<string>)
    requires registered <= more
    ensures CheckPropertyIds(more, requested) <= CheckPropertyIds(registered, requested)
  {
  }

  /** Each requested id is judged on its own: checking a union is the union of the checks. */
  lemma CheckPropertyIdsUnion(registered: set<string>, a: set<string>, b: set<string>)
    ensures CheckPropertyIds(registered, a + b) == CheckPropertyIds(registered, a) + CheckPropertyIds(registered, b)
  {
  }

  /** The registered ids of testCheckPropertyIds. */
  const TestPropertyIds: set<string> :=
    {"foo", "cat1/foo", "cat2/bar", "cat2/baz", "cat3/sub1/bam", "cat4/sub2/sub3/bat", "cat5/subcat5/map"}

  /** The five assertions of testCheckPropertyIds. */
  lemma CheckPropertyIdsExamples()
    ensures CheckPropertyIds(TestPropertyIds, {"foo"}) == {}
    ensures CheckPropertyIds(TestPropertyIds, {"cat5/subcat5/map/key"}) == {}
    ensures CheckPropertyIds(TestPropertyIds, {"bar"}) == {"bar"}
    ensures CheckPropertyIds(TestPropertyIds, {"cat1/foo"}) == {}
    ensures CheckPropertyIds(TestPropertyIds, {"cat1"}) == {}
  {
    RegisteredIdsSupported(TestPropertyIds, {"foo"});
    RegisteredIdsSupported(TestPropertyIds, {"cat1/foo"});
    assert IsCategoryOf("cat5/subcat5/map", "cat5/subcat5/map/key");
    assert IsCategoryOf("cat1", "cat1/foo");
    assert !Supported(TestPropertyIds, "bar");
  }
}
