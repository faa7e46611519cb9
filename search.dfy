/** The catalog search of the `products` and `product_list` views (myapp/views.py): an
    empty query lists every product, any other query keeps the products whose name
    contains it, ignoring case. Case folding is ASCII. Only the filter is modelled here: the
    get-or-create that `products` also runs for a logged-in caller is `Views.Shop.GetOrCreateOpenOrder`. */
module Search {
  import opened Models

  function LowerChar(ch: char): (r: char)
    ensures 'A' <= ch <= 'Z' ==> r as int == ch as int + 32
    ensures !('A' <= ch <= 'Z') ==> r == ch
    ensures !('A' <= r <= 'Z')
  {
    if 'A' <= ch <= 'Z' then (ch as int + 32) as char else ch
  }

  function Lower(s: string): (r: string)
    ensures |r| == |s|
    ensures forall k :: 0 <= k < |s| ==> r[k] == LowerChar(s[k])
  {
    if s == [] then [] else [LowerChar(s[0])] + Lower(s[1..])
  }

  /** `sub` occurs in `s` starting at index i. */
  predicate OccursAt(s: string, sub: string, i: int)
  {
    0 <= i && i + |sub| <= |s| && s[i..i + |sub|] == sub
  }

  /** `sub` occurs in `s` at some position. */
  function Contains(s: string, sub: string): (r: bool)
    ensures r <==> exists i :: OccursAt(s, sub, i)
  {
    if |sub| <= |s| && s[..|sub|] == sub then
      assert OccursAt(s, sub, 0);
      true
    else if |sub| < |s| then
      var r := Contains(s[1..], sub);
      assert forall i :: OccursAt(s[1..], sub, i) <==> OccursAt(s, sub, i + 1);
      assert OccursAt(s, sub, 0) == false;
      assert forall i :: OccursAt(s, sub, i) ==> OccursAt(s[1..], sub, i - 1);
      r
    else
      assert forall i :: !OccursAt(s, sub, i);
      false
  }

  /** The `name__icontains` lookup. */
  predicate MatchesQuery(name: string, query: string)
    ensures query == "" ==> MatchesQuery(name, query)
  {
    assert query == "" ==> OccursAt(Lower(name), Lower(query), 0);
    Contains(Lower(name), Lower(query))
  }

  function FilterByName(catalog: seq<Product>, query: string): (r: seq<Product>)
    ensures |r| <= |catalog|
  {
    if catalog == [] then []
    else if MatchesQuery(catalog[0].name, query) then [catalog[0]] + FilterByName(catalog[1..], query)
    else FilterByName(catalog[1..], query)
  }

  /** The product list a view shows for a search query. */
  function SearchProducts(catalog: seq<Product>, query: string): (r: seq<Product>)
    ensures |r| <= |catalog|
  {
    if query == "" then catalog else FilterByName(catalog, query)
  }

  /** `a` is `b` with some elements left out, in the same order. */
  predicate IsSubsequence(a: seq<Product>, b: seq<Product>)
  {
    if a == [] then true
    else if b == [] then false
    else if a[0] == b[0] then IsSubsequence(a[1..], b[1..])
    else IsSubsequence(a, b[1..])
  }

  lemma {:induction false} IsSubsequenceRefl(a: seq<Product>)
    ensures IsSubsequence(a, a)
  {
    if a != [] { IsSubsequenceRefl(a[1..]); }
  }

  lemma {:induction false} FilterByNameSpec(catalog: seq<Product>, query: string)
    ensures forall p :: p in FilterByName(catalog, query) <==> p in catalog && MatchesQuery(p.name, query)
    ensures IsSubsequence(FilterByName(catalog, query), catalog)
  {
    if catalog != [] {
      FilterByNameSpec(catalog[1..], query);
      assert catalog == [catalog[0]] + catalog[1..];
      var r := FilterByName(catalog, query);
      if !MatchesQuery(catalog[0].name, query) && r != [] {
        assert r == FilterByName(catalog[1..], query);
        assert r[0] in catalog[1..] && MatchesQuery(r[0].name, query);
        if r[0] == catalog[0] {
          assert false;
        }
      }
    }
  }

  /** Filtering distributes over concatenation, so each catalog entry is kept exactly as
      often as it occurs when its name matches. */
  lemma {:induction false} FilterByNameConcat(a: seq<Product>, b: seq<Product>, query: string)
    ensures FilterByName(a + b, query) == FilterByName(a, query) + FilterByName(b, query)
  {
    if a == [] {
      assert a + b == b;
    } else {
      assert (a + b)[1..] == a[1..] + b;
      FilterByNameConcat(a[1..], b, query);
    }
  }

  /** The filter of a single product keeps it exactly when its name matches. */
  lemma FilterByNameSingle(p: Product, query: string)
    ensures FilterByName([p], query) == if MatchesQuery(p.name, query) then [p] else []
  {
    assert [p][1..] == [];
  }

  /** An empty query lists the whole catalog in order; any other query lists exactly the
      products whose name contains it ignoring case, in catalog order. */
  lemma SearchProductsSpec(catalog: seq<Product>, query: string)
    ensures query == "" ==> SearchProducts(catalog, query) == catalog
    ensures query != "" ==>
              forall p :: p in SearchProducts(catalog, query) <==> p in catalog && MatchesQuery(p.name, query)
    ensures IsSubsequence(SearchProducts(catalog, query), catalog)
  {
    FilterByNameSpec(catalog, query);
    IsSubsequenceRefl(catalog);
  }

  /** Every name contains the empty query, so filtering with it would also list the whole
      catalog: the empty-query branch only skips the filter. */
  lemma {:induction false} EmptyQueryMatchesAll(catalog: seq<Product>)
    ensures FilterByName(catalog, "") == catalog
  {
    if catalog != [] {
      assert OccursAt(Lower(catalog[0].name), Lower(""), 0);
      assert MatchesQuery(catalog[0].name, "");
      EmptyQueryMatchesAll(catalog[1..]);
    }
  }

  /** Matching ignores case on both sides: lower-casing the query or the name changes nothing. */
  lemma MatchesQueryIgnoresCase(name: string, query: string)
    ensures MatchesQuery(name, query) <==> MatchesQuery(name, Lower(query))
    ensures MatchesQuery(name, query) <==> MatchesQuery(Lower(name), query)
  {
    LowerIdempotent(query);
    LowerIdempotent(name);
  }

  lemma LowerIdempotent(s: string)
    ensures Lower(Lower(s)) == Lower(s)
  {
  }
}
