/** The lab test package cards: the "UPTO n% OFF" badge computed from the two prices, and the
    Book button that calls the caller's handler when there is one and opens the lab test screen
    otherwise. Prices are whole rupees. */
module LabTestPackages {
  import opened Wrappers

  datatype LabPackage = LabPackage(id: string, title: string, description: string, testCount: nat,
                                   reportTime: string, originalPrice: nat, discountedPrice: nat)

  /** `defaultPackages`, shown when the caller passes no `packages`. */
  function DefaultPackages(): seq<LabPackage> {
    [ LabPackage("1", "Cancer Screening Package For Male", "Male Cancer Prevention", 23, "23 Hrs.", 2330, 699),
      LabPackage("2", "Cancer Screening Package For Female", "Female Cancer Prevention", 3, "36 Hrs.", 2330, 699),
      LabPackage("3", "Comprehensive Cancer Screening Package For Male", "Advanced Cancer Screening", 5, "53 Hrs.", 2330, 1427),
      LabPackage("4", "Comprehensive Cancer Screening Package For  Female", "Advanced Cancer Screening", 5, "53 Hrs.", 2330, 1427) ]
  }

  /** The value of `Math.round(...)`: a whole number, or for a zero original price the NaN of
      0 / 0 or the -Infinity of a negative number divided by 0. */
  datatype Percent = Whole(n: int) | NotANumber | MinusInfinity

  /** `Math.round((orig - disc) / orig * 100)` in exact arithmetic. `Math.round` gives the
      integer `n` with `n <= x + 1/2 < n + 1`; multiplied out by `2 * orig` that is the first
      postcondition. */
  function DiscountPercent(orig: nat, disc: nat): (p: Percent)
    ensures orig > 0 ==> p.Whole? && 2 * orig * p.n <= 200 * (orig - disc) + orig < 2 * orig * (p.n + 1)
    ensures orig == 0 ==> (p == NotANumber <==> disc == 0) && (p == MinusInfinity <==> disc > 0)
  {
    if orig == 0 then (if disc == 0 then NotANumber else MinusInfinity)
    else
      var x, m := 200 * (orig - disc) + orig, 2 * orig;
      var q := x / m;
      assert x == m * q + x % m && 0 <= x % m < m;
      assert m * (q + 1) == m * q + m;
      Whole(q)
  }

  /** The rounding is determined: only one integer meets the bounds. */
  lemma {:induction false} RoundingUnique(orig: nat, disc: nat, n: int)
    requires orig > 0
    requires 2 * orig * n <= 200 * (orig - disc) + orig < 2 * orig * (n + 1)
    ensures DiscountPercent(orig, disc) == Whole(n)
  {
    var p := DiscountPercent(orig, disc).n;
    var m := 2 * orig;
    if p < n {
      assert m * (p + 1) <= m * n by { MulMonotone(m, p + 1, n); }
    } else if p > n {
      assert m * (n + 1) <= m * p by { MulMonotone(m, n + 1, p); }
    }
  }

  lemma {:induction false} MulMonotone(m: nat, a: int, b: int)
    requires a <= b
    ensures m * a <= m * b
  {
    assert m * b - m * a == m * (b - a);
  }

  /** A discounted price between zero and the original gives a percentage from 0 to 100. */
  lemma PercentInRange(orig: nat, disc: nat)
    requires orig > 0 && disc <= orig
    ensures 0 <= DiscountPercent(orig, disc).n <= 100
  {
    var n := DiscountPercent(orig, disc).n;
    var m := 2 * orig;
    if n < 0 {
      assert m * (n + 1) <= 0 by { MulMonotone(m, n + 1, 0); }
    }
    if n > 100 {
      assert m * 101 <= m * n by { MulMonotone(m, 101, n); }
    }
  }

  /** No discount reads 0%, a free package 100%. */
  lemma EndPoints(orig: nat)
    requires orig > 0
    ensures DiscountPercent(orig, orig) == Whole(0)
    ensures DiscountPercent(orig, 0) == Whole(100)
  {
    RoundingUnique(orig, orig, 0);
    RoundingUnique(orig, 0, 100);
  }

  /** A higher discounted price never shows a higher percentage. */
  lemma PercentMonotone(orig: nat, d1: nat, d2: nat)
    requires orig > 0 && d1 <= d2
    ensures DiscountPercent(orig, d2).n <= DiscountPercent(orig, d1).n
  {
    var n1, n2 := DiscountPercent(orig, d1).n, DiscountPercent(orig, d2).n;
    var m := 2 * orig;
    if n2 > n1 {
      assert m * (n1 + 1) <= m * n2 by { MulMonotone(m, n1 + 1, n2); }
    }
  }

  /** The badges of the default packages: 1631/2330 is 70% and 903/2330 rounds to 39%. */
  lemma SamplePercents()
    ensures DiscountPercent(2330, 699) == Whole(70)
    ensures DiscountPercent(2330, 1427) == Whole(39)
  {
    RoundingUnique(2330, 699, 70);
    RoundingUnique(2330, 1427, 39);
  }

  /** The badge of every card, for the packages passed or the default ones. */
  function CardPercents(packages: Option<seq<LabPackage>>): (r: seq<Percent>)
    ensures var shown := packages.GetOr(DefaultPackages());
      |r| == |shown| && forall i :: 0 <= i < |r| ==>
        r[i] == DiscountPercent(shown[i].originalPrice, shown[i].discountedPrice)
  {
    var shown := packages.GetOr(DefaultPackages());
    seq(|shown|, i requires 0 <= i < |shown| => DiscountPercent(shown[i].originalPrice, shown[i].discountedPrice))
  }

  lemma DefaultBadges()
    ensures CardPercents(None) == [Whole(70), Whole(70), Whole(39), Whole(39)]
  {
    SamplePercents();
  }

  /** What `handleBookPress(pkg)` does. */
  datatype Booking =
    | CallHandler(pkg: LabPackage)                         // `onPackagePress(pkg)`
    | OpenLabTest(packageId: string, packageTitle: string)  // `/services/labtest` with the package

  /** The caller's handler is used whenever one is given, and the lab test screen is opened
      for the very package pressed otherwise. */
  function BookPress(hasHandler: bool, pkg: LabPackage): (b: Booking)
    ensures b.CallHandler? <==> hasHandler
    ensures b.CallHandler? ==> b.pkg == pkg
    ensures b.OpenLabTest? ==> b.packageId == pkg.id && b.packageTitle == pkg.title
  {
    if hasHandler then CallHandler(pkg) else OpenLabTest(pkg.id, pkg.title)
  }
}
