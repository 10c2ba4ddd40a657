/**
 * Leak findings: the catalogue of leak definitions and the ranking of a run's
 * findings by impact score (src/lib/diagnostic.ts).
 */
module Leaks {

  datatype Impact = High | Medium | Low

  datatype Category = Conversion | Cart | Aov | Traffic

  /**
   * An entry of the leak catalogue. Its fields are given by the member
   * functions below, one per field of the catalogue's records.
   */
  datatype LeakDefinition = LowConversion | HighCartAbandon | LowAov | ConversionMedium | CartMedium
  {
    function id(): string {
      match this
      case LowConversion => "low_conversion"
      case HighCartAbandon => "high_cart_abandon"
      case LowAov => "low_aov"
      case ConversionMedium => "conversion_medium"
      case CartMedium => "cart_medium"
    }

    function title(): string {
      match this
      case LowConversion => "Low Conversion Rate"
      case HighCartAbandon => "High Cart Abandonment"
      case LowAov => "Below-Average Order Value"
      case ConversionMedium => "Room for Conversion Improvement"
      case CartMedium => "Cart Recovery Opportunity"
    }

    function description(): string {
      match this
      case LowConversion =>
        "Your conversion rate suggests visitors are not finding what they need or encountering friction. This is often the highest-leverage fix for tactical gear stores."
      case HighCartAbandon =>
        "Too many customers are adding items but not completing checkout. This indicates checkout friction, shipping surprise, or trust issues at the critical moment."
      case LowAov =>
        "Customers are buying but not maximizing basket size. For tactical gear, bundling and smart upsells can significantly increase revenue without more traffic."
      case ConversionMedium =>
        "Your conversion rate is acceptable but below top-tier tactical stores. Incremental improvements here compound significantly over time."
      case CartMedium =>
        "You have more abandoned carts than completed orders — there's meaningful revenue being left on the table that recovery tactics can capture."
    }

    function impact(): Impact {
      match this
      case LowConversion => High
      case HighCartAbandon => High
      case LowAov => Medium
      case ConversionMedium => Medium
      case CartMedium => Medium
    }

    function category(): Category {
      match this
      case LowConversion => Category.Conversion
      case HighCartAbandon => Category.Cart
      case LowAov => Category.Aov
      case ConversionMedium => Category.Conversion
      case CartMedium => Category.Cart
    }

    /** The "check first" list. */
    function checkFirst(): seq<string> {
      match this
      case LowConversion =>
        [ "Product page load time (should be under 3 seconds)",
          "Mobile checkout experience (60%+ of traffic is mobile)",
          "Trust signals: reviews, security badges, shipping info",
          "Product photography quality and zoom functionality",
          "Clear sizing/compatibility information",
          "Prominent call-to-action buttons" ]
      case HighCartAbandon =>
        [ "Shipping costs visible before checkout (surprise fees kill conversions)",
          "Guest checkout option available",
          "Payment options: Apple Pay, Google Pay, PayPal",
          "Cart abandonment email sequence in place",
          "Exit-intent offers for cart abandoners",
          "Checkout page load speed and mobile optimization" ]
      case LowAov =>
        [ "Product bundles (e.g., \"range day kit\", \"EDC bundle\")",
          "Post-purchase upsells on confirmation page",
          "In-cart recommendations for complementary items",
          "Free shipping threshold above current AOV",
          "Volume discounts for consumables (ammo, targets, etc.)",
          "Loyalty/rewards program incentives" ]
      case ConversionMedium =>
        [ "A/B test product page layouts",
          "Review and testimonial placement",
          "Urgency elements (stock levels, sale timers)",
          "Search functionality and filtering",
          "Category page organization" ]
      case CartMedium =>
        [ "Multi-step abandoned cart email sequence",
          "SMS recovery for mobile abandoners",
          "Retargeting ads for cart abandoners",
          "Simplified checkout (fewer form fields)" ]
    }
  }

  /** A finding reported to the store owner: a catalogue entry with an impact score. */
  datatype LeakDetail = LeakDetail(definition: LeakDefinition, impactScore: int)
  {
    function id(): string { definition.id() }
    function title(): string { definition.title() }
    function description(): string { definition.description() }
    function impact(): Impact { definition.impact() }
    function checkFirst(): seq<string> { definition.checkFirst() }
    function category(): Category { definition.category() }
  }

  /** `{ ...definition, impactScore: score }` */
  function WithScore(definition: LeakDefinition, score: int): LeakDetail {
    LeakDetail(definition, score)
  }

  /** The catalogue, keyed by id. */
  const LeakDefinitions: map<string, LeakDefinition> := map[
    "low_conversion" := LowConversion,
    "high_cart_abandon" := HighCartAbandon,
    "low_aov" := LowAov,
    "conversion_medium" := ConversionMedium,
    "cart_medium" := CartMedium]

  /** Every catalogue key is the id of the definition stored under it. */
  lemma CatalogueKeysAreIds()
    ensures forall key | key in LeakDefinitions :: LeakDefinitions[key].id() == key
  {
  }

  /** No two catalogue entries share an id. */
  lemma IdsAreDistinct(a: LeakDefinition, b: LeakDefinition)
    requires a != b
    ensures a.id() != b.id()
  {
    assert a.id()[0] != b.id()[0] || a.id()[4] != b.id()[4] || a.id()[5] != b.id()[5];
  }

  /** The order in which the engine evaluates the metric families. */
  function CategoryRank(c: Category): nat {
    match c
    case Conversion => 0
    case Cart => 1
    case Aov => 2
    case Traffic => 3
  }

  // ---------------------------------------------------------------------------
  // Ranking: `leaks.sort((a, b) => b.impactScore - a.impactScore)`, a stable
  // sort by impact score, highest first.
  // ---------------------------------------------------------------------------

  predicate SortedByImpact(s: seq<LeakDetail>) {
    forall i, j :: 0 <= i < j < |s| ==> s[i].impactScore >= s[j].impactScore
  }

  /** Places x after every element whose score is at least x's. */
  function InsertByImpact(x: LeakDetail, t: seq<LeakDetail>): (r: seq<LeakDetail>)
    ensures |r| == |t| + 1
  {
    if t == [] || t[0].impactScore < x.impactScore then
      [x] + t
    else
      [t[0]] + InsertByImpact(x, t[1..])
  }

  /** Inserting adds x and nothing else. */
  lemma {:induction false} InsertPermutes(x: LeakDetail, t: seq<LeakDetail>)
    ensures multiset(InsertByImpact(x, t)) == multiset(t) + multiset{x}
  {
    if t != [] && t[0].impactScore >= x.impactScore {
      InsertPermutes(x, t[1..]);
      assert t == [t[0]] + t[1..];
    }
  }

  lemma InsertMembers(x: LeakDetail, t: seq<LeakDetail>)
    ensures forall y :: y in InsertByImpact(x, t) <==> y == x || y in t
  {
    var r := InsertByImpact(x, t);
    InsertPermutes(x, t);
    forall y ensures y in r <==> y == x || y in t {
      assert y in r <==> y in multiset(r);
      assert y in t <==> y in multiset(t);
    }
  }

  lemma {:induction false} InsertKeepsSorted(x: LeakDetail, t: seq<LeakDetail>)
    requires SortedByImpact(t)
    ensures SortedByImpact(InsertByImpact(x, t))
  {
    if t == [] || t[0].impactScore < x.impactScore {
    } else {
      var rest := InsertByImpact(x, t[1..]);
      InsertKeepsSorted(x, t[1..]);
      InsertMembers(x, t[1..]);
      assert InsertByImpact(x, t) == [t[0]] + rest;
      forall y | y in rest ensures t[0].impactScore >= y.impactScore {
        if y != x {
          var m :| 0 <= m < |t[1..]| && t[1..][m] == y;
          assert t[m + 1] == y;
        }
      }
    }
  }

  /** Stable insertion sort, highest impact score first. */
  function SortByImpact(s: seq<LeakDetail>): (r: seq<LeakDetail>)
    ensures |r| == |s|
    ensures SortedByImpact(r)
  {
    if s == [] then []
    else
      InsertKeepsSorted(s[|s| - 1], SortByImpact(s[..|s| - 1]));
      InsertByImpact(s[|s| - 1], SortByImpact(s[..|s| - 1]))
  }

  /** The sort is a permutation of its input. */
  lemma {:induction false} SortPermutes(s: seq<LeakDetail>)
    ensures multiset(SortByImpact(s)) == multiset(s)
  {
    if s != [] {
      var init, last := s[..|s| - 1], s[|s| - 1];
      SortPermutes(init);
      SortUnfold(s);
      InsertPermutes(last, SortByImpact(init));
      calc {
        multiset(s);
        { assert s == init + [last]; }
        multiset(init + [last]);
        multiset(init) + multiset{last};
      }
    }
  }

  /** One step of the sort: the last element is inserted into the sorted rest. */
  lemma SortUnfold(s: seq<LeakDetail>)
    requires s != []
    ensures SortByImpact(s) == InsertByImpact(s[|s| - 1], SortByImpact(s[..|s| - 1]))
  {
  }

  /** The sort keeps exactly the input's members. */
  lemma SortMembers(s: seq<LeakDetail>)
    ensures forall y :: y in SortByImpact(s) <==> y in s
  {
    SortPermutes(s);
    forall y ensures y in SortByImpact(s) <==> y in s {
      assert y in SortByImpact(s) <==> y in multiset(SortByImpact(s));
      assert y in s <==> y in multiset(s);
    }
  }

  /** The subsequence of s whose impact score is k. */
  function WithImpact(s: seq<LeakDetail>, k: int): seq<LeakDetail> {
    if s == [] then []
    else (if s[0].impactScore == k then [s[0]] else []) + WithImpact(s[1..], k)
  }

  lemma {:induction false} WithImpactAppend(a: seq<LeakDetail>, b: seq<LeakDetail>, k: int)
    ensures WithImpact(a + b, k) == WithImpact(a, k) + WithImpact(b, k)
  {
    if a == [] {
      assert a + b == b;
    } else {
      var c := a + b;
      var p := if a[0].impactScore == k then [a[0]] else [];
      assert c[0] == a[0];
      assert c[1..] == a[1..] + b;
      WithImpactAppend(a[1..], b, k);
      assert WithImpact(c, k) == p + (WithImpact(a[1..], k) + WithImpact(b, k));
      assert WithImpact(a, k) == p + WithImpact(a[1..], k);
    }
  }

  lemma {:induction false} WithImpactBelow(s: seq<LeakDetail>, k: int)
    requires forall i | 0 <= i < |s| :: s[i].impactScore < k
    ensures WithImpact(s, k) == []
  {
    if s != [] {
      WithImpactBelow(s[1..], k);
    }
  }

  lemma {:induction false} WithImpactMembers(s: seq<LeakDetail>, k: int)
    ensures forall y | y in WithImpact(s, k) :: y in s && y.impactScore == k
  {
    if s != [] {
      WithImpactMembers(s[1..], k);
    }
  }

  /** Inserting x adds it after the elements of equal score already present. */
  lemma {:induction false} InsertKeepsTies(x: LeakDetail, t: seq<LeakDetail>, k: int)
    requires SortedByImpact(t)
    ensures WithImpact(InsertByImpact(x, t), k)
         == WithImpact(t, k) + (if x.impactScore == k then [x] else [])
  {
    if t == [] || t[0].impactScore < x.impactScore {
      WithImpactAppend([x], t, k);
      if x.impactScore == k {
        WithImpactBelow(t, k);
      }
    } else {
      InsertKeepsTies(x, t[1..], k);
      WithImpactAppend([t[0]], InsertByImpact(x, t[1..]), k);
      assert t == [t[0]] + t[1..];
      WithImpactAppend([t[0]], t[1..], k);
    }
  }

  /** Stability: the sort keeps, for every score, the input order of the findings with that score. */
  lemma {:induction false} SortKeepsTies(s: seq<LeakDetail>, k: int)
    ensures WithImpact(SortByImpact(s), k) == WithImpact(s, k)
  {
    if s != [] {
      var init, last := s[..|s| - 1], s[|s| - 1];
      SortKeepsTies(init, k);
      InsertKeepsTies(last, SortByImpact(init), k);
      assert s == init + [last];
      WithImpactAppend(init, [last], k);
    }
  }

  /** Two score-sorted sequences with the same findings per score are equal. */
  lemma {:induction false} SortedWithSameTiesAreEqual(t: seq<LeakDetail>, u: seq<LeakDetail>)
    requires SortedByImpact(t) && SortedByImpact(u)
    requires forall k :: WithImpact(t, k) == WithImpact(u, k)
    ensures t == u
  {
    if t == [] || u == [] {
      // A score present in one sequence but not the other is impossible.
      if t != [] {
        ghost var ties := WithImpact(t, t[0].impactScore);
        assert false;
      } else if u != [] {
        ghost var ties := WithImpact(u, u[0].impactScore);
        assert false;
      }
    } else {
      var a, b := t[0].impactScore, u[0].impactScore;
      WithImpactMembers(u, a);
      WithImpactMembers(t, b);
      assert WithImpact(t, a)[0] in WithImpact(u, a);
      assert WithImpact(u, b)[0] in WithImpact(t, b);
      assert a == b;
      assert t[0] == WithImpact(t, a)[0] == WithImpact(u, a)[0] == u[0];
      forall k ensures WithImpact(t[1..], k) == WithImpact(u[1..], k) {
        var p := if t[0].impactScore == k then [t[0]] else [];
        assert WithImpact(t, k) == p + WithImpact(t[1..], k);
        assert WithImpact(u, k) == p + WithImpact(u[1..], k);
        assert WithImpact(t[1..], k) == WithImpact(t, k)[|p|..];
        assert WithImpact(u[1..], k) == WithImpact(u, k)[|p|..];
      }
      SortedWithSameTiesAreEqual(t[1..], u[1..]);
      assert t == [t[0]] + t[1..] && u == [u[0]] + u[1..];
    }
  }

  /**
   * SortByImpact is THE stable sort by descending score: any score-sorted
   * arrangement that keeps the input order within each score is equal to it.
   */
  lemma StableSortIsUnique(s: seq<LeakDetail>, t: seq<LeakDetail>)
    requires SortedByImpact(t)
    requires forall k :: WithImpact(t, k) == WithImpact(s, k)
    ensures t == SortByImpact(s)
  {
    forall k ensures WithImpact(t, k) == WithImpact(SortByImpact(s), k) {
      SortKeepsTies(s, k);
    }
    SortedWithSameTiesAreEqual(t, SortByImpact(s));
  }

  // ---------------------------------------------------------------------------
  // Order of categories
  // ---------------------------------------------------------------------------

  /** Strictly increasing category rank: the push order of the engine. */
  predicate InCategoryOrder(s: seq<LeakDetail>) {
    forall i, j :: 0 <= i < j < |s| ==> CategoryRank(s[i].category()) < CategoryRank(s[j].category())
  }

  /** No two findings share a category. */
  predicate DistinctCategories(s: seq<LeakDetail>) {
    forall i, j :: 0 <= i < j < |s| ==> s[i].category() != s[j].category()
  }

  /** Findings of equal score appear in category order. */
  predicate TiesInCategoryOrder(s: seq<LeakDetail>) {
    forall i, j :: 0 <= i < j < |s| && s[i].impactScore == s[j].impactScore ==>
      CategoryRank(s[i].category()) < CategoryRank(s[j].category())
  }

  lemma {:induction false} InsertKeepsDistinct(x: LeakDetail, t: seq<LeakDetail>)
    requires DistinctCategories(t)
    requires forall y | y in t :: y.category() != x.category()
    ensures DistinctCategories(InsertByImpact(x, t))
  {
    var r := InsertByImpact(x, t);
    if t == [] || t[0].impactScore < x.impactScore {
      assert r == [x] + t;
      forall j | 0 < j < |r| ensures r[0].category() != r[j].category() {
        assert r[j] == t[j - 1] && t[j - 1] in t;
      }
    } else {
      var rest := InsertByImpact(x, t[1..]);
      InsertKeepsDistinct(x, t[1..]);
      InsertMembers(x, t[1..]);
      assert r == [t[0]] + rest;
      forall j | 0 < j < |r| ensures r[0].category() != r[j].category() {
        var y := r[j];
        assert y in rest;
        if y == x {
          assert t[0] in t;
        } else {
          var m :| 0 <= m < |t[1..]| && t[1..][m] == y;
          assert t[m + 1] == y;
        }
      }
      forall i, j | 0 < i < j < |r| ensures r[i].category() != r[j].category() {
        assert r[i] == rest[i - 1] && r[j] == rest[j - 1];
      }
    }
  }

  /** Putting y in front keeps ties in category order when y ranks before every tie it gains. */
  lemma ConsKeepsTieOrder(y: LeakDetail, rest: seq<LeakDetail>)
    requires TiesInCategoryOrder(rest)
    requires forall z | z in rest && z.impactScore == y.impactScore :: CategoryRank(y.category()) < CategoryRank(z.category())
    ensures TiesInCategoryOrder([y] + rest)
  {
    var r := [y] + rest;
    forall i, j | 0 <= i < j < |r| && r[i].impactScore == r[j].impactScore
      ensures CategoryRank(r[i].category()) < CategoryRank(r[j].category())
    {
      assert r[j] == rest[j - 1];
      if i > 0 {
        assert r[i] == rest[i - 1];
      }
    }
  }

  lemma {:induction false} InsertKeepsTieOrder(x: LeakDetail, t: seq<LeakDetail>)
    requires SortedByImpact(t) && TiesInCategoryOrder(t)
    requires forall y | y in t :: CategoryRank(y.category()) < CategoryRank(x.category())
    ensures TiesInCategoryOrder(InsertByImpact(x, t))
  {
    if t == [] || t[0].impactScore < x.impactScore {
      forall z | z in t ensures z.impactScore < x.impactScore {
        var m :| 0 <= m < |t| && t[m] == z;
        assert t[0].impactScore >= t[m].impactScore;
      }
      ConsKeepsTieOrder(x, t);
    } else {
      var rest := InsertByImpact(x, t[1..]);
      InsertKeepsTieOrder(x, t[1..]);
      InsertMembers(x, t[1..]);
      forall z | z in rest && z.impactScore == t[0].impactScore
        ensures CategoryRank(t[0].category()) < CategoryRank(z.category())
      {
        if z != x {
          var m :| 0 <= m < |t[1..]| && t[1..][m] == z;
          assert t[m + 1] == z;
        } else {
          assert t[0] in t;
        }
      }
      ConsKeepsTieOrder(t[0], rest);
    }
  }

  /**
   * Sorting findings pushed in category order leaves at most one per category,
   * and findings of equal score stay in category order.
   */
  lemma {:induction false} SortKeepsCategoryFacts(s: seq<LeakDetail>)
    requires InCategoryOrder(s)
    ensures DistinctCategories(SortByImpact(s)) && TiesInCategoryOrder(SortByImpact(s))
  {
    if s != [] {
      var init, last := s[..|s| - 1], s[|s| - 1];
      SortKeepsCategoryFacts(init);
      var sorted := SortByImpact(init);
      SortMembers(init);
      forall y | y in sorted ensures CategoryRank(y.category()) < CategoryRank(last.category()) {
        var m :| 0 <= m < |init| && init[m] == y;
      }
      InsertKeepsDistinct(last, sorted);
      InsertKeepsTieOrder(last, sorted);
    }
  }

  // ---------------------------------------------------------------------------
  // Total impact
  // ---------------------------------------------------------------------------

  /** Sum of impact scores. */
  function TotalImpact(s: seq<LeakDetail>): int {
    if s == [] then 0 else s[0].impactScore + TotalImpact(s[1..])
  }

  lemma {:induction false} TotalImpactAppend(a: seq<LeakDetail>, b: seq<LeakDetail>)
    ensures TotalImpact(a + b) == TotalImpact(a) + TotalImpact(b)
  {
    if a == [] {
      assert a + b == b;
    } else {
      assert (a + b)[1..] == a[1..] + b;
      TotalImpactAppend(a[1..], b);
    }
  }

  lemma {:induction false} TotalImpactOfInsert(x: LeakDetail, t: seq<LeakDetail>)
    ensures TotalImpact(InsertByImpact(x, t)) == x.impactScore + TotalImpact(t)
  {
    if !(t == [] || t[0].impactScore < x.impactScore) {
      TotalImpactOfInsert(x, t[1..]);
    }
  }

  /** Ranking neither adds nor removes impact. */
  lemma {:induction false} TotalImpactOfSort(s: seq<LeakDetail>)
    ensures TotalImpact(SortByImpact(s)) == TotalImpact(s)
  {
    if s != [] {
      var init, last := s[..|s| - 1], s[|s| - 1];
      TotalImpactOfSort(init);
      TotalImpactOfInsert(last, SortByImpact(init));
      assert s == init + [last];
      TotalImpactAppend(init, [last]);
    }
  }
}
