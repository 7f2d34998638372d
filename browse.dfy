/** The buyer's browse page: filter the listings by category and by a search text, then
    order them by price, by popularity or newest first. */
module Browse {
  import opened Records
  import opened Text
  import opened Seqs

  /** The sort orders the page offers. */
  datatype SortMode = PriceLow | PriceHigh | Popular | Newest

  /** The sort selector's value; anything unrecognised sorts newest first. */
  function ModeOf(sortBy: string): (m: SortMode)
    ensures m == PriceLow <==> sortBy == "price-low"
    ensures m == PriceHigh <==> sortBy == "price-high"
    ensures m == Popular <==> sortBy == "popular"
  {
    if sortBy == "price-low" then PriceLow
    else if sortBy == "price-high" then PriceHigh
    else if sortBy == "popular" then Popular
    else Newest
  }

  /** The key each comparator orders by, ascending: `a.price - b.price` compares prices,
      `b.price - a.price` negated prices, and so on. */
  function Key(m: SortMode, p: Product): int
  {
    match m
    case PriceLow => p.price
    case PriceHigh => -p.price
    case Popular => -(Count(p.views) as int)
    case Newest => -p.createdAt
  }

  /** The page's comparator for each order: negative when a goes first, positive when b does. */
  function Compare(m: SortMode, a: Product, b: Product): (c: int)
    ensures c == Key(m, a) - Key(m, b)
    ensures c < 0 <==> Key(m, a) < Key(m, b)
  {
    match m
    case PriceLow => a.price - b.price
    case PriceHigh => b.price - a.price
    case Popular => Count(b.views) - Count(a.views)
    case Newest => b.createdAt - a.createdAt
  }

  predicate Sorted(s: seq<Product>, m: SortMode)
  {
    forall i, j :: 0 <= i < j < |s| ==> Key(m, s[i]) <= Key(m, s[j])
  }

  /** The products of s whose key is k, in their order in s. */
  function WithKey(s: seq<Product>, m: SortMode, k: int): seq<Product>
  {
    Filter(s, KeyIs(m, k))
  }

  function KeyIs(m: SortMode, k: int): Product -> bool
  {
    (p: Product) => Key(m, p) == k
  }

  /** Place p in the sorted sequence s, before the first element whose key is not smaller. */
  function Insert(p: Product, s: seq<Product>, m: SortMode): (r: seq<Product>)
    ensures multiset(r) == multiset(s) + multiset{p}
    ensures Sorted(s, m) ==> Sorted(r, m)
  {
    if s == [] then [p]
    else if Key(m, p) <= Key(m, s[0]) then [p] + s
    else
      var rest := Insert(p, s[1..], m);
      InsertedAfter(s, p, rest, m);
      [s[0]] + rest
  }

  /** The tail of a sorted sequence is sorted. */
  lemma SortedTail(s: seq<Product>, m: SortMode)
    requires s != [] && Sorted(s, m)
    ensures Sorted(s[1..], m)
  {
    forall i, j | 0 <= i < j < |s| - 1
      ensures Key(m, s[1..][i]) <= Key(m, s[1..][j])
    {
      assert s[1..][i] == s[i + 1] && s[1..][j] == s[j + 1];
    }
  }

  /** The recursive step of Insert: a head with a smaller key than p stays in front of
      p merged into the rest. */
  lemma InsertedAfter(s: seq<Product>, p: Product, rest: seq<Product>, m: SortMode)
    requires s != [] && Key(m, s[0]) < Key(m, p)
    requires multiset(rest) == multiset(s[1..]) + multiset{p}
    requires Sorted(s[1..], m) ==> Sorted(rest, m)
    ensures multiset([s[0]] + rest) == multiset(s) + multiset{p}
    ensures Sorted(s, m) ==> Sorted([s[0]] + rest, m)
  {
    assert s == [s[0]] + s[1..];
    if Sorted(s, m) {
      SortedTail(s, m);
      forall i | 0 <= i < |rest|
        ensures Key(m, s[0]) <= Key(m, rest[i])
      {
        assert rest[i] in multiset(rest);
        if rest[i] != p {
          assert rest[i] in multiset(s[1..]);
          var j :| 0 <= j < |s[1..]| && s[1..][j] == rest[i];
          assert s[1..][j] == s[j + 1];
        }
      }
    }
  }

  /** A stable sort of s by the key of m (Array.prototype.sort with the page's comparator). */
  function SortBy(s: seq<Product>, m: SortMode): (r: seq<Product>)
    ensures Sorted(r, m)
    ensures multiset(r) == multiset(s)
  {
    if s == [] then []
    else
      assert s == [s[0]] + s[1..];
      Insert(s[0], SortBy(s[1..], m), m)
  }

  /** Insert puts p ahead of the elements with an equal key, and every element it passes has a smaller key. */
  lemma {:induction false} InsertStable(p: Product, s: seq<Product>, m: SortMode, k: int)
    ensures WithKey(Insert(p, s, m), m, k) == if Key(m, p) == k then [p] + WithKey(s, m, k) else WithKey(s, m, k)
  {
    if s == [] || Key(m, p) <= Key(m, s[0]) {
      InsertFront(p, s, m, k);
    } else {
      InsertStable(p, s[1..], m, k);
      InsertPasses(p, s, m);
      StableStep(p, s[0], s[1..], Insert(p, s[1..], m), m, k);
      assert [s[0]] + s[1..] == s;
    }
  }

  lemma InsertFront(p: Product, s: seq<Product>, m: SortMode, k: int)
    requires s == [] || Key(m, p) <= Key(m, s[0])
    ensures WithKey(Insert(p, s, m), m, k) == if Key(m, p) == k then [p] + WithKey(s, m, k) else WithKey(s, m, k)
  {
    assert Insert(p, s, m) == [p] + s;
    FilterCons(p, s, KeyIs(m, k));
  }

  /** When p passes the head of s, Insert keeps the head in front. */
  lemma InsertPasses(p: Product, s: seq<Product>, m: SortMode)
    requires s != [] && Key(m, s[0]) < Key(m, p)
    ensures Insert(p, s, m) == [s[0]] + Insert(p, s[1..], m)
  {
  }

  /** The recursive case of InsertStable: the head, with a smaller key than p, is kept or dropped by the
      filter on both sides alike. */
  lemma StableStep(p: Product, head: Product, tail: seq<Product>, rest: seq<Product>, m: SortMode, k: int)
    requires Key(m, head) < Key(m, p)
    requires WithKey(rest, m, k) == if Key(m, p) == k then [p] + WithKey(tail, m, k) else WithKey(tail, m, k)
    ensures WithKey([head] + rest, m, k) == if Key(m, p) == k then [p] + WithKey([head] + tail, m, k) else WithKey([head] + tail, m, k)
  {
    FilterCons(head, rest, KeyIs(m, k));
    FilterCons(head, tail, KeyIs(m, k));
  }

  /** The sort is stable: the products sharing a key keep their relative order. */
  lemma {:induction false} SortByStable(s: seq<Product>, m: SortMode, k: int)
    ensures WithKey(SortBy(s, m), m, k) == WithKey(s, m, k)
  {
    if s != [] {
      SortByStable(s[1..], m, k);
      InsertStable(s[0], SortBy(s[1..], m), m, k);
    }
  }

  /** The search box matches the name or the description, ignoring case. */
  predicate MatchesSearch(p: Product, query: string)
  {
    Includes(Lower(p.name), Lower(query)) || Includes(Lower(p.description), Lower(query))
  }

  /** Category filter; an empty category shows every product. */
  function InCategory(ps: seq<Product>, category: string): seq<Product>
  {
    if category == "" then ps else Filter(ps, (p: Product) => p.category == category)
  }

  /** Search filter; an empty query shows every product. */
  function Matching(ps: seq<Product>, query: string): seq<Product>
  {
    if query == "" then ps else Filter(ps, (p: Product) => MatchesSearch(p, query))
  }

  /** Whether the page shows p for this category and query. */
  predicate Shown(p: Product, category: string, query: string)
  {
    (category == "" || p.category == category) && (query == "" || MatchesSearch(p, query))
  }

  /** loadBuyerProducts' list: exactly the shown products, each as often as it is stored,
      ordered by the chosen sort. */
  function BrowseProducts(ps: seq<Product>, category: string, sortBy: string, query: string): (r: seq<Product>)
    ensures Sorted(r, ModeOf(sortBy))
    ensures forall p :: multiset(r)[p] == if Shown(p, category, query) then multiset(ps)[p] else 0
  {
    SortBy(Matching(InCategory(ps, category), query), ModeOf(sortBy))
  }

  /** An empty search never hides a product: the empty text occurs in every name. */
  lemma EmptySearchMatchesAll(p: Product)
    ensures MatchesSearch(p, "")
  {
    assert Lower("") == "";
  }
}
