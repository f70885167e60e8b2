/** The data behind the profile's radar chart: one point per domain, in
    enumeration order, holding the mean rating the profile received in that
    domain (zero when it received none) on a fixed five-point scale. */
module RadarChart {
  import opened Types
  import opened Seqs

  /** One axis of the chart: its label, the mean rating (the point's `A`
      value) and the scale maximum. */
  datatype ChartPoint = ChartPoint(subject: string, a: real, fullMark: int)

  /** The top of the rating scale every axis is drawn against. */
  const FullMark: int := 5

  function InDomain(d: DomainType): Review -> bool
  {
    (r: Review) => r.domain == d
  }

  /** `reviews.filter(r => r.domain === d)`. */
  function DomainReviews(reviews: seq<Review>, d: DomainType): seq<Review>
  {
    Filter(reviews, InDomain(d))
  }

  /** `reduce((sum, r) => sum + r.rating, 0)`. */
  function SumRatings(reviews: seq<Review>): int
  {
    if reviews == [] then 0 else reviews[0].rating + SumRatings(reviews[1..])
  }

  /** How many of the reviews are about `d`, counted in one pass. */
  function CountIn(reviews: seq<Review>, d: DomainType): nat
  {
    if reviews == [] then 0
    else (if reviews[0].domain == d then 1 else 0) + CountIn(reviews[1..], d)
  }

  /** The total rating of the reviews about `d`, summed in one pass. */
  function SumIn(reviews: seq<Review>, d: DomainType): int
  {
    if reviews == [] then 0
    else (if reviews[0].domain == d then reviews[0].rating else 0) + SumIn(reviews[1..], d)
  }

  /** Filtering to a domain and then counting or summing agrees with the
      one-pass count and sum. */
  lemma {:induction false} DomainReviewsMeasure(reviews: seq<Review>, d: DomainType)
    ensures |DomainReviews(reviews, d)| == CountIn(reviews, d)
    ensures SumRatings(DomainReviews(reviews, d)) == SumIn(reviews, d)
  {
    if reviews != [] {
      DomainReviewsMeasure(reviews[1..], d);
      var rest := DomainReviews(reviews[1..], d);
      if reviews[0].domain == d {
        assert DomainReviews(reviews, d) == [reviews[0]] + rest;
        assert ([reviews[0]] + rest)[1..] == rest;
      } else {
        assert DomainReviews(reviews, d) == rest;
      }
    }
  }

  /** The mean rating in domain `d`: the total rating of the reviews about
      `d` over their number, or 0 when no review is about `d`. */
  function DomainAverage(reviews: seq<Review>, d: DomainType): (avg: real)
    ensures CountIn(reviews, d) == 0 ==> avg == 0.0
    ensures CountIn(reviews, d) > 0 ==>
      avg == (SumIn(reviews, d) as real) / (CountIn(reviews, d) as real)
  {
    var matching := DomainReviews(reviews, d);
    DomainReviewsMeasure(reviews, d);
    if |matching| > 0 then (SumRatings(matching) as real) / (|matching| as real) else 0.0
  }

  /** The axis label: the translation of the domain's name when the table
      has a non-empty one, otherwise the name itself. */
  function Label(translations: map<string, string>, d: DomainType): (text: string)
    ensures text != []
    ensures DomainName(d) in translations && translations[DomainName(d)] != [] ==>
      text == translations[DomainName(d)]
    ensures DomainName(d) !in translations || translations[DomainName(d)] == [] ==>
      text == DomainName(d)
  {
    var name := DomainName(d);
    if name in translations && translations[name] != [] then translations[name] else name
  }

  function PointFor(reviews: seq<Review>, translations: map<string, string>, d: DomainType): ChartPoint
  {
    ChartPoint(Label(translations, d), DomainAverage(reviews, d), FullMark)
  }

  /** The chart data: exactly one point per domain, in enumeration order. */
  function ChartData(reviews: seq<Review>, translations: map<string, string>): (points: seq<ChartPoint>)
    ensures |points| == |AllDomains| == 6
    ensures forall i :: 0 <= i < |points| ==>
      points[i].subject == Label(translations, AllDomains[i]) &&
      points[i].a == DomainAverage(reviews, AllDomains[i]) &&
      points[i].fullMark == FullMark
  {
    seq(|AllDomains|, i requires 0 <= i < |AllDomains| => PointFor(reviews, translations, AllDomains[i]))
  }

  /** Counting and summing are additive over concatenation. */
  lemma {:induction false} MeasureAppend(a: seq<Review>, b: seq<Review>, d: DomainType)
    ensures CountIn(a + b, d) == CountIn(a, d) + CountIn(b, d)
    ensures SumIn(a + b, d) == SumIn(a, d) + SumIn(b, d)
  {
    if a == [] {
      assert a + b == b;
    } else {
      assert (a + b)[0] == a[0];
      assert (a + b)[1..] == a[1..] + b;
      MeasureAppend(a[1..], b, d);
    }
  }

  /** Two review lists with the same count and total in `d` have the same
      average in `d`. */
  lemma AverageDeterminedByMeasure(x: seq<Review>, y: seq<Review>, d: DomainType)
    requires CountIn(x, d) == CountIn(y, d)
    requires SumIn(x, d) == SumIn(y, d)
    ensures DomainAverage(x, d) == DomainAverage(y, d)
  {
  }

  /** A review about another domain, wherever it stands in the list, does not
      change the average of `d`. */
  lemma OtherDomainIgnored(before: seq<Review>, r: Review, after: seq<Review>, d: DomainType)
    requires r.domain != d
    ensures DomainAverage(before + [r] + after, d) == DomainAverage(before + after, d)
  {
    MeasureAppend(before + [r], after, d);
    MeasureAppend(before, [r], d);
    MeasureAppend(before, after, d);
    AverageDeterminedByMeasure(before + [r] + after, before + after, d);
  }

  /** Counting and summing a list with one more review. */
  lemma MeasureSnoc(reviews: seq<Review>, r: Review, d: DomainType)
    ensures CountIn(reviews + [r], d) == CountIn(reviews, d) + (if r.domain == d then 1 else 0)
    ensures SumIn(reviews + [r], d) == SumIn(reviews, d) + (if r.domain == d then r.rating else 0)
  {
    MeasureAppend(reviews, [r], d);
    assert [r][1..] == [];
  }

  /** Receiving one more review changes only the point of its own domain;
      that point's count grows by one and its total by the new rating. */
  lemma AddReviewChangesOnlyItsDomain(reviews: seq<Review>, r: Review, translations: map<string, string>, i: int)
    requires 0 <= i < |AllDomains|
    ensures ChartData(reviews + [r], translations)[i].subject == ChartData(reviews, translations)[i].subject
    ensures AllDomains[i] != r.domain ==>
      ChartData(reviews + [r], translations)[i] == ChartData(reviews, translations)[i]
    ensures AllDomains[i] == r.domain ==>
      ChartData(reviews + [r], translations)[i].a ==
      ((SumIn(reviews, r.domain) + r.rating) as real) / ((CountIn(reviews, r.domain) + 1) as real)
  {
    var d := AllDomains[i];
    MeasureSnoc(reviews, r, d);
    var before, after := ChartData(reviews, translations)[i], ChartData(reviews + [r], translations)[i];
    if d != r.domain {
      AverageDeterminedByMeasure(reviews + [r], reviews, d);
      assert after.a == before.a;
    }
  }

  /** Ratings stay within the five-point scale when summed. */
  lemma {:induction false} SumInBounds(reviews: seq<Review>, d: DomainType)
    requires forall r :: r in reviews ==> ValidRating(r)
    ensures CountIn(reviews, d) <= SumIn(reviews, d) <= FullMark * CountIn(reviews, d)
  {
    if reviews != [] {
      assert reviews[0] in reviews;
      assert forall r :: r in reviews[1..] ==> r in reviews;
      SumInBounds(reviews[1..], d);
    }
  }

  /** A quotient of a total between `n` and `5n` by `n` lies in [1, 5]. */
  lemma QuotientWithinScale(s: real, n: real)
    requires 0.0 < n
    requires n <= s <= 5.0 * n
    ensures 1.0 <= s / n <= 5.0
  {
  }

  /** With ratings on the one-to-five scale every average lies in [0, 5], and
      a domain that received reviews averages at least 1. */
  lemma AverageWithinScale(reviews: seq<Review>, d: DomainType)
    requires forall r :: r in reviews ==> ValidRating(r)
    ensures 0.0 <= DomainAverage(reviews, d) <= FullMark as real
    ensures DomainAverage(reviews, d) != 0.0 ==> 1.0 <= DomainAverage(reviews, d)
  {
    SumInBounds(reviews, d);
    if CountIn(reviews, d) > 0 {
      QuotientWithinScale(SumIn(reviews, d) as real, CountIn(reviews, d) as real);
    }
  }
}
