/** Lookups, filters and counter updates over the products collection, and the
    statistics drawn from the product views. */
module Catalog {
  import opened Outcomes
  import opened Records
  import opened Seqs
  import Accounts

  /** find(p => p.id === productId): the position of the first product with that id, or None. */
  function FindProduct(ps: seq<Product>, productId: string): (r: Option<nat>)
    ensures r.None? <==> forall i :: 0 <= i < |ps| ==> ps[i].id != productId
    ensures r.Some? ==> r.value < |ps| && ps[r.value].id == productId &&
                        forall i :: 0 <= i < r.value ==> ps[i].id != productId
  {
    if ps == [] then None
    else if ps[0].id == productId then Some(0)
    else match FindProduct(ps[1..], productId)
      case None => None
      case Some(i) => Some(i + 1)
  }

  /** getFarmerProducts: the farmer's products in insertion order. */
  function OwnedBy(ps: seq<Product>, farmerId: string): (r: seq<Product>)
    ensures forall p :: multiset(r)[p] == if p.farmerId == farmerId then multiset(ps)[p] else 0
  {
    Filter(ps, (p: Product) => p.farmerId == farmerId)
  }

  /** deleteProduct's filter: every product except those with this id AND this owner. */
  function Remove(ps: seq<Product>, productId: string, farmerId: string): (r: seq<Product>)
    ensures forall p :: multiset(r)[p] == if p.id == productId && p.farmerId == farmerId then 0 else multiset(ps)[p]
  {
    Filter(ps, (p: Product) => !(p.id == productId && p.farmerId == farmerId))
  }

  /** The counters a buyer's actions raise. */
  datatype Counter = Views | Inquiries

  /** `product.views = (product.views || 0) + 1`, or the same for inquiries. */
  function Bump(p: Product, c: Counter): (r: Product)
    ensures Count(r.views) == Count(p.views) + (if c == Views then 1 else 0)
    ensures Count(r.inquiries) == Count(p.inquiries) + (if c == Inquiries then 1 else 0)
    ensures r.(views := p.views, inquiries := p.inquiries) == p
  {
    match c
    case Views => p.(views := Some(Count(p.views) + 1))
    case Inquiries => p.(inquiries := Some(Count(p.inquiries) + 1))
  }

  /** incrementViews / incrementInquiries: bump the counter of the first product with the id;
      without such a product nothing changes. */
  function Increment(ps: seq<Product>, productId: string, c: Counter): (r: seq<Product>)
    ensures |r| == |ps|
    ensures forall i :: 0 <= i < |ps| ==> r[i].id == ps[i].id && r[i].farmerId == ps[i].farmerId
  {
    match FindProduct(ps, productId)
    case None => ps
    case Some(i) => ps[i := Bump(ps[i], c)]
  }

  /** getFarmerByProductId: the farmer owning the first product with the id; None when there is
      no such product or no farmer has the owner id the product names. */
  function OwnerOf(fs: seq<Farmer>, ps: seq<Product>, productId: string): (r: Option<Farmer>)
    ensures r.Some? ==> FindProduct(ps, productId).Some? &&
                        Accounts.FindFarmer(fs, Accounts.ById(ps[FindProduct(ps, productId).value].farmerId)).Some? &&
                        r.value == fs[Accounts.FindFarmer(fs, Accounts.ById(ps[FindProduct(ps, productId).value].farmerId)).value] &&
                        r.value.id == ps[FindProduct(ps, productId).value].farmerId
    ensures r.None? <==> FindProduct(ps, productId).None? ||
                         forall j :: 0 <= j < |fs| ==> fs[j].id != ps[FindProduct(ps, productId).value].farmerId
  {
    match FindProduct(ps, productId)
    case None => None
    case Some(i) =>
      match Accounts.FindFarmer(fs, Accounts.ById(ps[i].farmerId))
      case None => None
      case Some(j) => Some(fs[j])
  }

  /** The ids of the products, in order (`products.map(p => p.id)`). */
  function Ids(ps: seq<Product>): (r: seq<string>)
    ensures |r| == |ps| && forall i :: 0 <= i < |ps| ==> r[i] == ps[i].id
  {
    if ps == [] then [] else [ps[0].id] + Ids(ps[1..])
  }

  /** The views of any of the listed products. */
  function RelevantViews(vs: seq<View>, productIds: seq<string>): seq<View>
  {
    Filter(vs, (v: View) => v.productId in productIds)
  }

  /** The distinct viewer addresses among views (`new Set(views.map(v => v.ip))`). */
  function Ips(vs: seq<View>): (r: set<string>)
    ensures |r| <= |vs|
    ensures forall ip :: ip in r <==> exists i :: 0 <= i < |vs| && vs[i].client.ip == ip
  {
    if vs == [] then {}
    else
      var rest := Ips(vs[1..]);
      assert forall i :: 1 <= i < |vs| ==> vs[i] == vs[1..][i - 1];
      {vs[0].client.ip} + rest
  }

  /** getUniqueViewersCount: how many distinct addresses viewed any of the farmer's products. */
  function UniqueViewers(ps: seq<Product>, vs: seq<View>, farmerId: string): (n: nat)
    ensures n <= |RelevantViews(vs, Ids(OwnedBy(ps, farmerId)))|
  {
    |Ips(RelevantViews(vs, Ids(OwnedBy(ps, farmerId))))|
  }

  /** A farmer with no products has no viewers. */
  lemma NoProductsNoViewers(ps: seq<Product>, vs: seq<View>, farmerId: string)
    requires OwnedBy(ps, farmerId) == []
    ensures UniqueViewers(ps, vs, farmerId) == 0
  {
    FilterNone(vs, (v: View) => v.productId in Ids(OwnedBy(ps, farmerId)));
  }

  /** Ips of a concatenation is the union of the parts' Ips. */
  lemma {:induction false} IpsAppend(a: seq<View>, b: seq<View>)
    ensures Ips(a + b) == Ips(a) + Ips(b)
  {
    if a != [] {
      assert (a + b)[1..] == a[1..] + b;
      IpsAppend(a[1..], b);
    } else {
      assert a + b == b;
    }
  }

  /** Recording one more view never lowers a farmer's unique viewer count, and raises it by at most one. */
  lemma RecordViewRaisesViewersByAtMostOne(ps: seq<Product>, vs: seq<View>, v: View, farmerId: string)
    ensures UniqueViewers(ps, vs, farmerId) <= UniqueViewers(ps, vs + [v], farmerId) <= UniqueViewers(ps, vs, farmerId) + 1
  {
    RelevantAppendBound(vs, v, Ids(OwnedBy(ps, farmerId)));
  }

  /** One more view adds at most one address to the relevant ones. */
  lemma RelevantAppendBound(vs: seq<View>, v: View, productIds: seq<string>)
    ensures |Ips(RelevantViews(vs, productIds))| <= |Ips(RelevantViews(vs + [v], productIds))| <= |Ips(RelevantViews(vs, productIds))| + 1
  {
    var keep := (w: View) => w.productId in productIds;
    FilterAppend(vs, [v], keep);
    var kept := Filter(vs, keep);
    FilterCons(v, [], keep);
    assert [v] + [] == [v];
    if keep(v) {
      IpsAppend(kept, [v]);
      assert Ips([v]) == {v.client.ip};
      AddOneBound(Ips(kept), v.client.ip);
    } else {
      assert kept + [] == kept;
    }
  }

  /** Adding one element to a set raises its size by at most one. */
  lemma AddOneBound(a: set<string>, x: string)
    ensures |a| <= |a + {x}| <= |a| + 1
  {
    if x in a {
      assert a + {x} == a;
    }
  }

  /** Products added to the end show up at the end of their owner's list; other farmers' lists are unchanged. */
  lemma AppendOwned(ps: seq<Product>, p: Product, farmerId: string)
    ensures OwnedBy(ps + [p], farmerId) == OwnedBy(ps, farmerId) + (if p.farmerId == farmerId then [p] else [])
  {
    FilterAppend(ps, [p], (q: Product) => q.farmerId == farmerId);
  }

  /** Deleting twice leaves what deleting once does. */
  lemma RemoveIdempotent(ps: seq<Product>, productId: string, farmerId: string)
    ensures Remove(Remove(ps, productId, farmerId), productId, farmerId) == Remove(ps, productId, farmerId)
  {
    var keep := (p: Product) => !(p.id == productId && p.farmerId == farmerId);
    FilterAbsorb(ps, keep, keep);
  }

  /** A delete never touches another farmer's products: their lists, in order, are what they were. */
  lemma RemoveSparesOtherFarmers(ps: seq<Product>, productId: string, farmerId: string, other: string)
    requires other != farmerId
    ensures OwnedBy(Remove(ps, productId, farmerId), other) == OwnedBy(ps, other)
  {
    FilterAbsorb(ps, (p: Product) => !(p.id == productId && p.farmerId == farmerId),
                 (p: Product) => p.farmerId == other);
  }

  /** After a delete no product of that farmer has that id; every other product is still there. */
  lemma RemoveDeletesExactly(ps: seq<Product>, productId: string, farmerId: string)
    ensures forall p :: p in Remove(ps, productId, farmerId) <==>
                        p in ps && !(p.id == productId && p.farmerId == farmerId)
  {
    var keep := (p: Product) => !(p.id == productId && p.farmerId == farmerId);
    forall p
      ensures p in Filter(ps, keep) <==> p in ps && keep(p)
    {
      assert p in Filter(ps, keep) <==> p in multiset(Filter(ps, keep));
      assert p in ps <==> p in multiset(ps);
    }
  }

  /** A farmer's list, taken apart around position i. */
  lemma OwnedAround(ps: seq<Product>, i: nat, farmerId: string)
    requires i < |ps|
    ensures OwnedBy(ps, farmerId) ==
            OwnedBy(ps[..i], farmerId) + (if ps[i].farmerId == farmerId then [ps[i]] else []) + OwnedBy(ps[i + 1..], farmerId)
  {
    var keep := (p: Product) => p.farmerId == farmerId;
    assert ps == ps[..i] + ([ps[i]] + ps[i + 1..]);
    FilterAppend(ps[..i], [ps[i]] + ps[i + 1..], keep);
    FilterAppend([ps[i]], ps[i + 1..], keep);
  }

  /** The ids of a concatenation are the concatenated ids. */
  lemma IdsAppend(a: seq<Product>, b: seq<Product>)
    ensures Ids(a + b) == Ids(a) + Ids(b)
  {
  }

  /** Raising a counter changes no farmer's viewer count: ids and owners stay where they were. */
  lemma IncrementKeepsViewers(ps: seq<Product>, vs: seq<View>, productId: string, c: Counter, farmerId: string)
    ensures UniqueViewers(Increment(ps, productId, c), vs, farmerId) == UniqueViewers(ps, vs, farmerId)
  {
    match FindProduct(ps, productId)
    case None =>
    case Some(i) =>
      var qs := ps[i := Bump(ps[i], c)];
      OwnedAround(ps, i, farmerId);
      OwnedAround(qs, i, farmerId);
      assert qs[..i] == ps[..i] && qs[i + 1..] == ps[i + 1..];
      var before, after := OwnedBy(ps[..i], farmerId), OwnedBy(ps[i + 1..], farmerId);
      var mid, mid' := (if ps[i].farmerId == farmerId then [ps[i]] else []), (if qs[i].farmerId == farmerId then [qs[i]] else []);
      IdsAppend(before + mid, after);
      IdsAppend(before, mid);
      IdsAppend(before + mid', after);
      IdsAppend(before, mid');
      assert Ids(mid) == Ids(mid');
  }
}
