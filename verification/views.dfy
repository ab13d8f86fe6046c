/**
 * The five derived views the client context computes from its cached
 * reports (src/context/DisasterContext.js), and what can be said about how
 * they divide the cache.
 */
module Views {
  import opened Nullish
  import opened Records

  datatype View = PendingView | ApprovedView | ActiveView | CompletedView | RejectedView

  /** The filter predicate of each view. */
  predicate InView(r: Report, v: View)
  {
    match v
    case PendingView => r.status == Some(PENDING)
    case ApprovedView =>
      r.status == Some(APPROVED) && r.missionStatus != Some(ACTIVE) && r.missionStatus != Some(COMPLETED)
    case ActiveView => r.missionStatus == Some(ACTIVE)
    case CompletedView => r.missionStatus == Some(COMPLETED)
    case RejectedView => r.status == Some(REJECTED)
  }

  /** What report `r` contributes to view `v`: itself, or nothing. */
  function Keep(r: Report, v: View): seq<Report>
  {
    if InView(r, v) then [r] else []
  }

  /** `reports.filter(...)` with the predicate of view `v`. */
  function ViewOf(rs: seq<Report>, v: View): seq<Report>
  {
    if |rs| == 0 then [] else Keep(rs[0], v) + ViewOf(rs[1..], v)
  }

  lemma ViewOfHead(rs: seq<Report>, v: View)
    requires |rs| > 0
    ensures ViewOf(rs, v) == Keep(rs[0], v) + ViewOf(rs[1..], v)
  {
  }

  /**
   * A view lists only cached reports that satisfy its predicate, and every
   * cached report that does.
   */
  lemma {:induction false} ViewMembers(rs: seq<Report>, v: View)
    ensures |ViewOf(rs, v)| <= |rs|
    ensures forall x :: x in ViewOf(rs, v) ==> x in rs && InView(x, v)
    ensures forall i :: 0 <= i < |rs| && InView(rs[i], v) ==> rs[i] in ViewOf(rs, v)
  {
    if |rs| > 0 {
      ViewMembers(rs[1..], v);
      ViewOfHead(rs, v);
      forall i | 1 <= i < |rs|
        ensures rs[i] == rs[1..][i - 1]
      {
      }
    }
  }

  /** `allReportsCount`. */
  function AllReportsCount(rs: seq<Report>): nat
  {
    |rs|
  }

  /** The positions from `lo` on whose report belongs to view `v`, ascending. */
  function Positions(rs: seq<Report>, v: View, lo: nat): (idx: seq<nat>)
    requires lo <= |rs|
    ensures forall k :: 0 <= k < |idx| ==> lo <= idx[k] < |rs|
    decreases |rs| - lo
  {
    if lo == |rs| then []
    else if InView(rs[lo], v) then [lo] + Positions(rs, v, lo + 1)
    else Positions(rs, v, lo + 1)
  }

  /** `Positions` lists, ascending, exactly the positions from `lo` on that satisfy the predicate. */
  lemma {:induction false} PositionsExact(rs: seq<Report>, v: View, lo: nat)
    requires lo <= |rs|
    ensures forall k, m :: 0 <= k < m < |Positions(rs, v, lo)| ==> Positions(rs, v, lo)[k] < Positions(rs, v, lo)[m]
    ensures forall i :: lo <= i < |rs| ==> (i in Positions(rs, v, lo) <==> InView(rs[i], v))
    decreases |rs| - lo
  {
    if lo < |rs| {
      PositionsExact(rs, v, lo + 1);
      var idx, rest := Positions(rs, v, lo), Positions(rs, v, lo + 1);
      if InView(rs[lo], v) {
        assert idx == [lo] + rest;
        forall k | 0 < k < |idx|
          ensures idx[k] == rest[k - 1]
        {
        }
      } else {
        assert idx == rest;
      }
    }
  }

  lemma ViewOfSuffix(rs: seq<Report>, v: View, lo: nat)
    requires lo < |rs|
    ensures ViewOf(rs[lo..], v) == Keep(rs[lo], v) + ViewOf(rs[lo + 1..], v)
  {
    assert rs[lo..][0] == rs[lo] && rs[lo..][1..] == rs[lo + 1..];
    ViewOfHead(rs[lo..], v);
  }

  lemma {:induction false} SuffixIsFilter(rs: seq<Report>, v: View, lo: nat)
    requires lo <= |rs|
    ensures |ViewOf(rs[lo..], v)| == |Positions(rs, v, lo)|
    ensures forall k :: 0 <= k < |Positions(rs, v, lo)| ==> ViewOf(rs[lo..], v)[k] == rs[Positions(rs, v, lo)[k]]
    decreases |rs| - lo
  {
    if lo < |rs| {
      SuffixIsFilter(rs, v, lo + 1);
      ViewOfSuffix(rs, v, lo);
      var view, tail := ViewOf(rs[lo..], v), ViewOf(rs[lo + 1..], v);
      var idx, rest := Positions(rs, v, lo), Positions(rs, v, lo + 1);
      if InView(rs[lo], v) {
        assert view == [rs[lo]] + tail;
        assert idx == [lo] + rest;
        forall k | 0 < k < |idx|
          ensures view[k] == rs[idx[k]]
        {
          assert view[k] == tail[k - 1] && idx[k] == rest[k - 1];
        }
      } else {
        assert view == tail;
        assert idx == rest;
      }
    }
  }

  /**
   * Each view is the order-preserving filter of the cache: it lists the
   * cached reports at exactly the ascending positions whose report
   * satisfies the view's predicate.
   */
  lemma {:induction false} ViewIsOrderedFilter(rs: seq<Report>, v: View)
    ensures var idx := Positions(rs, v, 0);
      && |ViewOf(rs, v)| == |idx|
      && (forall k :: 0 <= k < |idx| ==> ViewOf(rs, v)[k] == rs[idx[k]])
      && (forall k, m :: 0 <= k < m < |idx| ==> idx[k] < idx[m])
      && (forall i :: 0 <= i < |rs| ==> (i in idx <==> InView(rs[i], v)))
  {
    SuffixIsFilter(rs, v, 0);
    PositionsExact(rs, v, 0);
    assert rs[0..] == rs;
  }

  /** Filtering distributes over concatenation. */
  lemma {:induction false} ViewOfAppend(a: seq<Report>, b: seq<Report>, v: View)
    ensures ViewOf(a + b, v) == ViewOf(a, v) + ViewOf(b, v)
  {
    if |a| == 0 {
      assert a + b == b;
    } else {
      var head, tail := Keep(a[0], v), ViewOf(a[1..], v);
      AppendHead(a, b);
      ViewOfAppend(a[1..], b, v);
      ViewOfHead(a + b, v);
      ViewOfHead(a, v);
      AppendAssoc(head, tail, ViewOf(b, v));
    }
  }

  lemma AppendHead<T>(a: seq<T>, b: seq<T>)
    requires |a| > 0
    ensures (a + b)[0] == a[0] && (a + b)[1..] == a[1..] + b
  {
  }

  lemma AppendAssoc<T>(x: seq<T>, y: seq<T>, z: seq<T>)
    ensures x + (y + z) == (x + y) + z
  {
  }

  /** The view pairs a single report can belong to both of. */
  predicate MayOverlap(v: View, w: View)
  {
    || ((v == PendingView || v == RejectedView) && (w == ActiveView || w == CompletedView))
    || ((w == PendingView || w == RejectedView) && (v == ActiveView || v == CompletedView))
  }

  /**
   * Two different views share no report whatsoever exactly when they are
   * not one of the pairs pending/rejected against active/completed.
   */
  lemma ViewsDisjoint(v: View, w: View)
    requires v != w
    ensures (forall r :: !(InView(r, v) && InView(r, w))) <==> !MayOverlap(v, w)
  {
    if MayOverlap(v, w) {
      var st := if v == PendingView || w == PendingView then PENDING else REJECTED;
      var ms := if v == ActiveView || w == ActiveView then ACTIVE else COMPLETED;
      var r := Empty.(status := Some(st), missionStatus := Some(ms));
      assert InView(r, v) && InView(r, w);
    }
  }

  /** The same, on any cache: a report listed in one view is absent from the other. */
  lemma CachedViewsDisjoint(rs: seq<Report>, v: View, w: View)
    requires v != w && !MayOverlap(v, w)
    ensures forall x :: x in ViewOf(rs, v) ==> x !in ViewOf(rs, w)
  {
    ViewsDisjoint(v, w);
    ViewMembers(rs, v);
    ViewMembers(rs, w);
  }

  /**
   * The state invariant the server does not enforce: a known status, and a
   * mission only on an approved report.
   */
  predicate WellFormed(r: Report)
  {
    && (r.status == Some(PENDING) || r.status == Some(APPROVED) || r.status == Some(REJECTED))
    && (r.missionStatus == Some(ACTIVE) || r.missionStatus == Some(COMPLETED) ==> r.status == Some(APPROVED))
  }

  /** How many of the five views list report `r`. */
  function Membership(r: Report): nat
  {
    (if InView(r, PendingView) then 1 else 0)
    + (if InView(r, ApprovedView) then 1 else 0)
    + (if InView(r, ActiveView) then 1 else 0)
    + (if InView(r, CompletedView) then 1 else 0)
    + (if InView(r, RejectedView) then 1 else 0)
  }

  /**
   * A report is in at most two views; in exactly one when it is well formed
   * (or has an unknown status but a mission); in two exactly when it is
   * pending or rejected and yet has a mission.
   */
  lemma MembershipCases(r: Report)
    ensures Membership(r) <= 2
    ensures WellFormed(r) ==> Membership(r) == 1
    ensures Membership(r) == 2 <==>
              (r.status == Some(PENDING) || r.status == Some(REJECTED))
              && (r.missionStatus == Some(ACTIVE) || r.missionStatus == Some(COMPLETED))
    ensures Membership(r) == 0 <==>
              r.status != Some(PENDING) && r.status != Some(APPROVED) && r.status != Some(REJECTED)
              && r.missionStatus != Some(ACTIVE) && r.missionStatus != Some(COMPLETED)
  {
  }

  /** Every report of the cache, counted once per view that lists it. */
  function AllViews(rs: seq<Report>): multiset<Report>
  {
    multiset(ViewOf(rs, PendingView)) + multiset(ViewOf(rs, ApprovedView)) + multiset(ViewOf(rs, ActiveView))
    + multiset(ViewOf(rs, CompletedView)) + multiset(ViewOf(rs, RejectedView))
  }

  /** The contribution of a single report to view `v`. */
  function Share(r: Report, v: View): multiset<Report>
  {
    multiset(Keep(r, v))
  }

  lemma ShareOfHead(rs: seq<Report>, v: View)
    requires |rs| > 0
    ensures multiset(ViewOf(rs, v)) == Share(rs[0], v) + multiset(ViewOf(rs[1..], v))
  {
    ViewOfHead(rs, v);
  }

  /** A well-formed report contributes itself to exactly one view. */
  lemma SharesOfWellFormed(r: Report)
    requires WellFormed(r)
    ensures Share(r, PendingView) + Share(r, ApprovedView) + Share(r, ActiveView)
            + Share(r, CompletedView) + Share(r, RejectedView) == multiset{r}
  {
  }

  lemma AllViewsOfHead(rs: seq<Report>)
    requires |rs| > 0
    ensures AllViews(rs) == Share(rs[0], PendingView) + Share(rs[0], ApprovedView) + Share(rs[0], ActiveView)
                            + Share(rs[0], CompletedView) + Share(rs[0], RejectedView) + AllViews(rs[1..])
  {
    var r, tail := rs[0], rs[1..];
    ShareOfHead(rs, PendingView);
    ShareOfHead(rs, ApprovedView);
    ShareOfHead(rs, ActiveView);
    ShareOfHead(rs, CompletedView);
    ShareOfHead(rs, RejectedView);
    Regroup(Share(r, PendingView), Share(r, ApprovedView), Share(r, ActiveView),
            Share(r, CompletedView), Share(r, RejectedView),
            multiset(ViewOf(tail, PendingView)), multiset(ViewOf(tail, ApprovedView)),
            multiset(ViewOf(tail, ActiveView)), multiset(ViewOf(tail, CompletedView)),
            multiset(ViewOf(tail, RejectedView)));
  }

  lemma MultisetOfHead(rs: seq<Report>)
    requires |rs| > 0
    ensures multiset(rs) == multiset{rs[0]} + multiset(rs[1..])
  {
    assert rs == [rs[0]] + rs[1..];
  }

  /**
   * When every cached report is well formed, the five views together list
   * every cached report exactly as often as the cache holds it.
   */
  lemma {:induction false} SharesAddUp(rs: seq<Report>)
    requires forall i :: 0 <= i < |rs| ==> WellFormed(rs[i])
    ensures AllViews(rs) == multiset(rs)
  {
    if |rs| > 0 {
      assert WellFormed(rs[0]);
      SharesAddUp(rs[1..]);
      AllViewsOfHead(rs);
      SharesOfWellFormed(rs[0]);
      MultisetOfHead(rs);
    }
  }

  lemma Regroup<T>(a: multiset<T>, b: multiset<T>, c: multiset<T>, d: multiset<T>, e: multiset<T>,
                   a': multiset<T>, b': multiset<T>, c': multiset<T>, d': multiset<T>, e': multiset<T>)
    ensures (a + a') + (b + b') + (c + c') + (d + d') + (e + e') == (a + b + c + d + e) + (a' + b' + c' + d' + e')
  {
  }

  /**
   * Hence, for a well-formed cache, the sizes of the five views add up to
   * `allReportsCount`.
   */
  lemma ViewsPartition(rs: seq<Report>)
    requires forall i :: 0 <= i < |rs| ==> WellFormed(rs[i])
    ensures |ViewOf(rs, PendingView)| + |ViewOf(rs, ApprovedView)| + |ViewOf(rs, ActiveView)|
            + |ViewOf(rs, CompletedView)| + |ViewOf(rs, RejectedView)| == AllReportsCount(rs)
  {
    SharesAddUp(rs);
    assert |AllViews(rs)| == |multiset(rs)|;
  }

  /**
   * Without the invariant the partition fails: a rejected report with an
   * active mission, which a PATCH can produce, is listed twice.
   */
  lemma RejectedActiveCountedTwice(r: Report)
    requires r.status == Some(REJECTED) && r.missionStatus == Some(ACTIVE)
    ensures !WellFormed(r)
    ensures ViewOf([r], RejectedView) == [r] && ViewOf([r], ActiveView) == [r]
    ensures |AllViews([r])| == 2 > AllReportsCount([r])
  {
    assert [r][1..] == [];
    forall v: View
      ensures ViewOf([r], v) == Keep(r, v)
    {
      ViewOfHead([r], v);
    }
    assert AllViews([r]) == multiset{r} + multiset{r};
  }
}
