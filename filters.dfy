/** The "active surveys" listing: the surveys whose time window strictly
    contains the current time. */
module Filters {
  import opened Times
  import opened Models

  /** `start_date < now` and `end_date > now`; only a survey whose window
      is not empty can be active. */
  predicate IsActive(s: Survey, now: DateTime): (active: bool)
    ensures active ==> Before(s.startDate, s.endDate)
  {
    Before(s.startDate, now) && Before(now, s.endDate)
  }

  /** The queryset filtered by `IsActive`, all rows judged against the same
      clock reading `now`; order is kept. */
  function ActiveSurveys(qs: seq<Survey>, now: DateTime): (r: seq<Survey>)
    ensures |r| <= |qs|
    ensures forall i :: 0 <= i < |r| ==> IsActive(r[i], now)
  {
    if qs == [] then []
    else if IsActive(qs[0], now) then [qs[0]] + ActiveSurveys(qs[1..], now)
    else ActiveSurveys(qs[1..], now)
  }

  /** `a` is `b` with some elements left out, order kept. */
  predicate IsSubsequence<T(==)>(a: seq<T>, b: seq<T>)
    decreases |b|, |a|
  {
    if a == [] then true
    else if b == [] then false
    else if a[0] == b[0] then IsSubsequence(a[1..], b[1..])
    else IsSubsequence(a, b[1..])
  }

  /** A survey is listed if and only if it is in the queryset and active. */
  lemma {:induction false} ActiveSurveysMembership(qs: seq<Survey>, now: DateTime, s: Survey)
    ensures s in ActiveSurveys(qs, now) <==> s in qs && IsActive(s, now)
  {
    if qs != [] {
      ActiveSurveysMembership(qs[1..], now, s);
      assert qs == [qs[0]] + qs[1..];
    }
  }

  /** The listing is a subsequence of the queryset: nothing is added,
      changed or reordered. */
  lemma {:induction false} ActiveSurveysIsSubsequence(qs: seq<Survey>, now: DateTime)
    ensures IsSubsequence(ActiveSurveys(qs, now), qs)
  {
    if qs != [] {
      ActiveSurveysIsSubsequence(qs[1..], now);
      var r := ActiveSurveys(qs, now);
      if IsActive(qs[0], now) {
        assert r[0] == qs[0] && r[1..] == ActiveSurveys(qs[1..], now);
      } else {
        SubsequenceOfTail(r, qs);
      }
    }
  }

  lemma {:induction false} SubsequenceOfTail<T>(a: seq<T>, b: seq<T>)
    requires b != [] && IsSubsequence(a, b[1..])
    ensures IsSubsequence(a, b)
    decreases |b|, |a|
  {
    if a != [] && a[0] == b[0] {
      SubsequenceDropFirst(a, b[1..]);
    }
  }

  lemma {:induction false} SubsequenceDropFirst<T>(a: seq<T>, b: seq<T>)
    requires a != [] && IsSubsequence(a, b)
    ensures IsSubsequence(a[1..], b)
    decreases |b|, |a|
  {
    if b != [] {
      if a[0] == b[0] {
        SubsequenceOfTail(a[1..], b);
      } else {
        SubsequenceDropFirst(a, b[1..]);
        SubsequenceOfTail(a[1..], b);
      }
    }
  }

  /** Each survey is judged on its own: filtering a concatenation filters
      each part. */
  lemma {:induction false} ActiveSurveysAppend(a: seq<Survey>, b: seq<Survey>, now: DateTime)
    ensures ActiveSurveys(a + b, now) == ActiveSurveys(a, now) + ActiveSurveys(b, now)
  {
    if a != [] {
      assert (a + b)[1..] == a[1..] + b;
      ActiveSurveysAppend(a[1..], b, now);
    } else {
      assert a + b == b;
    }
  }

  /** A survey that starts or ends exactly now is not active. */
  lemma BoundariesExcluded(s: Survey, now: DateTime)
    requires s.startDate == now || s.endDate == now
    ensures !IsActive(s, now)
  {
    BeforeIsStrictTotalOrder(now, now, now);
  }

  /** A survey whose start is not before its end is never listed. */
  lemma {:induction false} EmptyWindowNeverListed(qs: seq<Survey>, now: DateTime, s: Survey)
    requires !Before(s.startDate, s.endDate)
    ensures s !in ActiveSurveys(qs, now)
  {
    ActiveSurveysMembership(qs, now, s);
    BeforeIsStrictTotalOrder(s.startDate, now, s.endDate);
  }
}
