/** Figures the pages show: the farmer dashboard's totals and the masked mobile number
    of a product's detail view. */
module Display {
  import opened Outcomes
  import opened Records
  import opened Catalog

  /** `products.reduce((sum, p) => sum + (p.views || 0), 0)` */
  function TotalViews(ps: seq<Product>): (total: nat)
    ensures forall i :: 0 <= i < |ps| ==> Count(ps[i].views) <= total
    ensures total == 0 <==> forall i :: 0 <= i < |ps| ==> Count(ps[i].views) == 0
  {
    if ps == [] then 0 else TotalViews(ps[..|ps| - 1]) + Count(ps[|ps| - 1].views)
  }

  /** `products.reduce((sum, p) => sum + (p.inquiries || 0), 0)` */
  function TotalInquiries(ps: seq<Product>): (total: nat)
    ensures forall i :: 0 <= i < |ps| ==> Count(ps[i].inquiries) <= total
    ensures total == 0 <==> forall i :: 0 <= i < |ps| ==> Count(ps[i].inquiries) == 0
  {
    if ps == [] then 0 else TotalInquiries(ps[..|ps| - 1]) + Count(ps[|ps| - 1].inquiries)
  }

  /** Totals add up over a concatenation. */
  lemma {:induction false} TotalsAppend(a: seq<Product>, b: seq<Product>)
    ensures TotalViews(a + b) == TotalViews(a) + TotalViews(b)
    ensures TotalInquiries(a + b) == TotalInquiries(a) + TotalInquiries(b)
  {
    if b == [] {
      assert a + b == a;
    } else {
      TotalsAppend(a, b[..|b| - 1]);
      assert (a + b)[..|a + b| - 1] == a + b[..|b| - 1];
    }
  }

  /** A farmer's dashboard totals, split around position i of the products. */
  lemma OwnedTotalsAround(ps: seq<Product>, i: nat, farmerId: string)
    requires i < |ps|
    ensures var mine := if ps[i].farmerId == farmerId then [ps[i]] else [];
            TotalViews(OwnedBy(ps, farmerId)) ==
              TotalViews(OwnedBy(ps[..i], farmerId)) + TotalViews(mine) + TotalViews(OwnedBy(ps[i + 1..], farmerId)) &&
            TotalInquiries(OwnedBy(ps, farmerId)) ==
              TotalInquiries(OwnedBy(ps[..i], farmerId)) + TotalInquiries(mine) + TotalInquiries(OwnedBy(ps[i + 1..], farmerId))
  {
    var mine := if ps[i].farmerId == farmerId then [ps[i]] else [];
    OwnedAround(ps, i, farmerId);
    TotalsAppend(OwnedBy(ps[..i], farmerId) + mine, OwnedBy(ps[i + 1..], farmerId));
    TotalsAppend(OwnedBy(ps[..i], farmerId), mine);
  }

  /** Counting a view or an inquiry raises the owner's dashboard total of that counter by exactly
      one and leaves the other total, and every other farmer's totals, as they were. */
  lemma IncrementRaisesOwnerTotal(ps: seq<Product>, productId: string, c: Counter, farmerId: string)
    ensures var found := FindProduct(ps, productId);
            var step := if found.Some? && ps[found.value].farmerId == farmerId then 1 else 0;
            var after := OwnedBy(Increment(ps, productId, c), farmerId);
            TotalViews(after) == TotalViews(OwnedBy(ps, farmerId)) + (if c == Views then step else 0) &&
            TotalInquiries(after) == TotalInquiries(OwnedBy(ps, farmerId)) + (if c == Inquiries then step else 0)
  {
    match FindProduct(ps, productId)
    case None =>
    case Some(i) =>
      var qs := ps[i := Bump(ps[i], c)];
      assert qs[..i] == ps[..i] && qs[i + 1..] == ps[i + 1..];
      OwnedTotalsAround(ps, i, farmerId);
      OwnedTotalsAround(qs, i, farmerId);
      TotalsOne(ps[i]);
      TotalsOne(qs[i]);
  }

  lemma TotalsOne(p: Product)
    ensures TotalViews([p]) == Count(p.views) && TotalInquiries([p]) == Count(p.inquiries)
  {
    assert [p][..0] == [];
  }

  /** A new product adds nothing to its owner's view and inquiry totals. */
  lemma NewProductAddsNothing(ps: seq<Product>, p: Product, farmerId: string)
    requires p.views == Some(0) && p.inquiries == Some(0)
    ensures TotalViews(OwnedBy(ps + [p], farmerId)) == TotalViews(OwnedBy(ps, farmerId))
    ensures TotalInquiries(OwnedBy(ps + [p], farmerId)) == TotalInquiries(OwnedBy(ps, farmerId))
  {
    AppendOwned(ps, p, farmerId);
    var mine := if p.farmerId == farmerId then [p] else [];
    TotalsAppend(OwnedBy(ps, farmerId), mine);
    TotalsOne(p);
  }

  /** maskMobile: a number of ten or more characters shows its first two and last two,
      with six X between; anything shorter is shown as it is. */
  function MaskMobile(mobile: string): (r: string)
    ensures |mobile| < 10 ==> r == mobile
    ensures |mobile| >= 10 ==> |r| == 10 && r[..2] == mobile[..2] && r[8..] == mobile[|mobile| - 2..] &&
                               forall i :: 2 <= i < 8 ==> r[i] == 'X'
  {
    if |mobile| < 10 then mobile else mobile[..2] + "XXXXXX" + mobile[|mobile| - 2..]
  }

  /** Masking a masked number changes nothing. */
  lemma MaskIdempotent(mobile: string)
    ensures MaskMobile(MaskMobile(mobile)) == MaskMobile(mobile)
  {
    if |mobile| >= 10 {
      var m := MaskMobile(mobile);
      assert m == m[..2] + "XXXXXX" + m[8..];
    }
  }

  /** Two long numbers mask alike exactly when they agree on their first two and last two characters. */
  lemma MaskShowsOnlyEnds(a: string, b: string)
    requires |a| >= 10 && |b| >= 10
    ensures MaskMobile(a) == MaskMobile(b) <==> a[..2] == b[..2] && a[|a| - 2..] == b[|b| - 2..]
  {
    var ma, mb := MaskMobile(a), MaskMobile(b);
    if a[..2] == b[..2] && a[|a| - 2..] == b[|b| - 2..] {
      assert ma == ma[..2] + ma[2..8] + ma[8..] && mb == mb[..2] + mb[2..8] + mb[8..];
      assert ma[2..8] == mb[2..8];
    }
  }
}
