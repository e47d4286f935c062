/** The storefront's catalogue filter (components/Storefront.tsx): a category tab, where
    `All` lets everything through, combined with a case-insensitive substring search over a
    product's title and description. Lower-casing is ASCII only. */
module Storefront {
  import opened Types
  import Seqs

  /** The active tab: every category, or exactly one. */
  datatype CategoryFilter = All | Only(category: ProductCategory)

  predicate IsUpper(c: char) {
    'A' <= c <= 'Z'
  }

  /** ASCII lower-casing of one character. */
  function LowerChar(c: char): (d: char)
    ensures !IsUpper(d)
    ensures d == c || (IsUpper(c) && d as int == c as int + 32)
  {
    if IsUpper(c) then (c as int + 32) as char else c
  }

  /** ASCII lower-casing of a string, character by character. */
  function ToLower(s: string): (r: string)
    ensures |r| == |s|
    ensures forall k :: 0 <= k < |s| ==> r[k] == LowerChar(s[k])
  {
    if s == [] then [] else [LowerChar(s[0])] + ToLower(s[1..])
  }

  /** Lower-casing a lower-cased string changes nothing. */
  lemma ToLowerIdempotent(s: string)
    ensures ToLower(ToLower(s)) == ToLower(s)
  {
    var t := ToLower(s);
    forall k | 0 <= k < |t|
      ensures ToLower(t)[k] == t[k]
    {
      assert !IsUpper(t[k]);
    }
  }

  /** The needle occurs in the haystack starting at offset `i`. */
  predicate OccursAt(hay: string, needle: string, i: int) {
    0 <= i && i + |needle| <= |hay| && hay[i..i + |needle|] == needle
  }

  /** `hay.includes(needle)`: the needle occurs in the haystack at some offset. */
  function Contains(hay: string, needle: string): (r: bool)
    ensures r <==> exists i :: OccursAt(hay, needle, i)
    decreases |hay|
  {
    if |hay| < |needle| then false
    else if hay[..|needle|] == needle then
      assert OccursAt(hay, needle, 0);
      true
    else
      assert forall j :: OccursAt(hay, needle, j) ==> j > 0 && OccursAt(hay[1..], needle, j - 1);
      assert forall j :: OccursAt(hay[1..], needle, j) ==> OccursAt(hay, needle, j + 1);
      Contains(hay[1..], needle)
  }

  /** The category test: the `All` tab admits every product, a category tab only its own. */
  function InCategory(p: Product, cat: CategoryFilter): (r: bool)
    ensures cat.All? ==> r
    ensures cat.Only? ==> (r <==> p.category == cat.category)
  {
    cat.All? || p.category == cat.category
  }

  /** The search test: the lower-cased query occurs in the lower-cased title or description. */
  function MatchesSearch(p: Product, query: string): (r: bool)
    ensures query == "" ==> r
  {
    assert query == "" ==> OccursAt(ToLower(p.title), ToLower(query), 0);
    Contains(ToLower(p.title), ToLower(query)) || Contains(ToLower(p.description), ToLower(query))
  }

  /** The filter's keep test (components/Storefront.tsx:37): the category test and the
      search test both pass. */
  predicate Matches(p: Product, cat: CategoryFilter, query: string) {
    InCategory(p, cat) && MatchesSearch(p, query)
  }

  /** The products shown for a tab and a search query, in catalogue order. */
  function FilterProducts(ps: seq<Product>, cat: CategoryFilter, query: string): (r: seq<Product>)
    ensures |r| <= |ps|
    ensures forall k :: 0 <= k < |r| ==> r[k] in ps && InCategory(r[k], cat) && MatchesSearch(r[k], query)
    ensures forall k :: 0 <= k < |ps| && InCategory(ps[k], cat) && MatchesSearch(ps[k], query) ==> ps[k] in r
  {
    Seqs.FilterMembership((p: Product) => Matches(p, cat, query), ps);
    Seqs.Filter((p: Product) => Matches(p, cat, query), ps)
  }

  /** The result is a subsequence of the catalogue: each shown product sits in it at a strictly
      increasing index, and each product is shown exactly as often as it occurs when it
      matches and not at all otherwise. */
  lemma FilterProductsKeepsOrder(ps: seq<Product>, cat: CategoryFilter, query: string) returns (idx: seq<nat>)
    ensures |idx| == |FilterProducts(ps, cat, query)|
    ensures forall k :: 0 <= k < |idx| ==> idx[k] < |ps| && ps[idx[k]] == FilterProducts(ps, cat, query)[k]
    ensures forall k, l :: 0 <= k < l < |idx| ==> idx[k] < idx[l]
    ensures forall p: Product ::
      multiset(FilterProducts(ps, cat, query))[p] == if Matches(p, cat, query) then multiset(ps)[p] else 0
  {
    idx := Seqs.FilterIndices((p: Product) => Matches(p, cat, query), ps);
    forall p: Product
      ensures multiset(FilterProducts(ps, cat, query))[p] == if Matches(p, cat, query) then multiset(ps)[p] else 0
    {
      Seqs.FilterCount((p: Product) => Matches(p, cat, query), ps, p);
    }
  }

  /** The empty query occurs in every string. */
  lemma EmptySearchMatchesAll(p: Product)
    ensures MatchesSearch(p, "")
  {
    assert OccursAt(ToLower(p.title), ToLower(""), 0);
  }

  /** The `All` tab with an empty search shows the whole catalogue unchanged. */
  lemma AllWithEmptySearchIsIdentity(ps: seq<Product>)
    ensures FilterProducts(ps, All, "") == ps
  {
    forall k | 0 <= k < |ps|
      ensures Matches(ps[k], All, "")
    {
      EmptySearchMatchesAll(ps[k]);
    }
    Seqs.FilterKeepsAll((p: Product) => Matches(p, All, ""), ps);
  }

  /** A category tab with an empty search shows exactly that category, in catalogue order. */
  lemma CategoryWithEmptySearch(ps: seq<Product>, c: ProductCategory)
    ensures FilterProducts(ps, Only(c), "") == Seqs.Filter((p: Product) => p.category == c, ps)
  {
    forall k | 0 <= k < |ps|
      ensures Matches(ps[k], Only(c), "") == (ps[k].category == c)
    {
      EmptySearchMatchesAll(ps[k]);
    }
    Seqs.FilterCongruent((p: Product) => Matches(p, Only(c), ""), (p: Product) => p.category == c, ps);
  }

  /** Filtering the shown list again with the same tab and query changes nothing. */
  lemma FilterProductsIdempotent(ps: seq<Product>, cat: CategoryFilter, query: string)
    ensures FilterProducts(FilterProducts(ps, cat, query), cat, query) == FilterProducts(ps, cat, query)
  {
    Seqs.FilterIdempotent((p: Product) => Matches(p, cat, query), ps);
  }

  /** The search ignores the case of the query: a query and its lower-cased form show the same products. */
  lemma SearchIgnoresQueryCase(ps: seq<Product>, cat: CategoryFilter, query: string)
    ensures FilterProducts(ps, cat, ToLower(query)) == FilterProducts(ps, cat, query)
  {
    ToLowerIdempotent(query);
    Seqs.FilterCongruent((p: Product) => Matches(p, cat, ToLower(query)), (p: Product) => Matches(p, cat, query), ps);
  }
}
