/** What a high-funding episode is, stated on the series itself: it starts where
    funding first reaches the enter rate and lasts until it first drops below the
    exit rate.  The one-pass implementations are proved against this. */
module FundingEpisodes {

  datatype Rates = Rates(enter: real, exit: real)

  /** Intervals from .. to-1 of the series. */
  datatype Episode = Episode(from: nat, to: nat) {
    function Length(): int {
      to - from
    }
  }

  /** The first interval from i on at or above the enter rate, or the end. */
  function NextStart(h: seq<real>, r: Rates, i: nat): (j: nat)
    requires i <= |h|
    ensures i <= j <= |h|
    decreases |h| - i
  {
    if i == |h| || h[i] >= r.enter then i else NextStart(h, r, i + 1)
  }

  /** The first interval from i on below the exit rate, or the end. */
  function NextEnd(h: seq<real>, r: Rates, i: nat): (j: nat)
    requires i <= |h|
    ensures i <= j <= |h|
    decreases |h| - i
  {
    if i == |h| || h[i] < r.exit then i else NextEnd(h, r, i + 1)
  }

  function Episodes(h: seq<real>, r: Rates, i: nat): seq<Episode>
    requires i <= |h|
    decreases |h| - i
  {
    var s := NextStart(h, r, i);
    if s == |h| then []
    else
      var e := NextEnd(h, r, s + 1);
      [Episode(s, e)] + if e == |h| then [] else Episodes(h, r, e + 1)
  }

  lemma {:induction false} StartIsFirst(h: seq<real>, r: Rates, i: nat)
    requires i <= |h|
    ensures forall j :: i <= j < NextStart(h, r, i) ==> h[j] < r.enter
    ensures NextStart(h, r, i) < |h| ==> h[NextStart(h, r, i)] >= r.enter
    decreases |h| - i
  {
    if i < |h| && h[i] < r.enter {
      StartIsFirst(h, r, i + 1);
    }
  }

  lemma {:induction false} EndIsFirst(h: seq<real>, r: Rates, i: nat)
    requires i <= |h|
    ensures forall j :: i <= j < NextEnd(h, r, i) ==> h[j] >= r.exit
    ensures NextEnd(h, r, i) < |h| ==> h[NextEnd(h, r, i)] < r.exit
    decreases |h| - i
  {
    if i < |h| && h[i] >= r.exit {
      EndIsFirst(h, r, i + 1);
    }
  }

  /** Episodes are in order, separated, and maximal; outside them funding is below the
      enter rate (at the interval that ends one it is below the exit rate). */
  ghost predicate Maximal(h: seq<real>, r: Rates, e: Episode) {
    && e.from < e.to <= |h| && h[e.from] >= r.enter
    && (forall j :: e.from < j < e.to ==> h[j] >= r.exit)
    && (e.to < |h| ==> h[e.to] < r.exit)
  }

  /** The same for a whole list of episodes, from interval i on. */
  ghost predicate Ordered(h: seq<real>, r: Rates, es: seq<Episode>, i: nat) {
    && (forall k :: 0 <= k < |es| ==> Maximal(h, r, es[k]) && es[k].from >= i)
    && (forall k, l :: 0 <= k < l < |es| ==> es[k].to < es[l].from)
  }

  lemma OrderedPrepend(h: seq<real>, r: Rates, e: Episode, rest: seq<Episode>, i: nat)
    requires Maximal(h, r, e) && i <= e.from && Ordered(h, r, rest, e.to + 1)
    ensures Ordered(h, r, [e] + rest, i)
  {
    hide Maximal;
    var es := [e] + rest;
    assert forall k :: 1 <= k < |es| ==> es[k] == rest[k - 1];
    assert e.from < e.to by {
      MaximalIsNonempty(h, r, e);
    }
  }

  lemma MaximalIsNonempty(h: seq<real>, r: Rates, e: Episode)
    requires Maximal(h, r, e)
    ensures e.from < e.to <= |h|
  {
  }

  lemma {:induction false} EpisodesAreMaximal(h: seq<real>, r: Rates, i: nat)
    requires i <= |h|
    ensures Ordered(h, r, Episodes(h, r, i), i)
    decreases |h| - i
  {
    hide Ordered, Maximal, NextStart, NextEnd;
    var s := NextStart(h, r, i);
    if s == |h| {
      OrderedNothing(h, r, i);
    } else {
      var e := NextEnd(h, r, s + 1);
      FirstEpisodeIsMaximal(h, r, i);
      OrderedNothing(h, r, e + 1);
      if e < |h| {
        EpisodesAreMaximal(h, r, e + 1);
      }
      OrderedPrepend(h, r, Episode(s, e), if e == |h| then [] else Episodes(h, r, e + 1), i);
    }
  }

  lemma FirstEpisodeIsMaximal(h: seq<real>, r: Rates, i: nat)
    requires i <= |h| && NextStart(h, r, i) < |h|
    ensures Maximal(h, r, Episode(NextStart(h, r, i), NextEnd(h, r, NextStart(h, r, i) + 1)))
  {
    StartIsFirst(h, r, i);
    EndIsFirst(h, r, NextStart(h, r, i) + 1);
  }

  lemma OrderedNothing(h: seq<real>, r: Rates, i: nat)
    ensures Ordered(h, r, [], i)
  {
  }

  ghost predicate Inside(es: seq<Episode>, j: int) {
    exists k :: 0 <= k < |es| && es[k].from <= j < es[k].to
  }

  /** Funding reached the enter rate at s and has not dropped below the exit rate up to j. */
  ghost predicate HighSince(h: seq<real>, r: Rates, s: nat, j: nat) {
    s <= j < |h| && h[s] >= r.enter && forall k :: s < k <= j ==> h[k] >= r.exit
  }

  /** Interval j is the one that ends an episode. */
  ghost predicate EndsOne(es: seq<Episode>, j: int) {
    exists k :: 0 <= k < |es| && es[k].to == j
  }

  /** Whatever the rates: an interval at the enter rate lies in an episode or is the one that ends
      one, as it can when the exit rate is the higher. */
  lemma {:induction false} EntriesAreSeen(h: seq<real>, r: Rates, i: nat, j: nat)
    requires i <= j < |h| && h[j] >= r.enter
    ensures Inside(Episodes(h, r, i), j) || EndsOne(Episodes(h, r, i), j)
    decreases |h| - i
  {
    hide NextStart, NextEnd, Inside, EndsOne, Episodes;
    var s := NextStart(h, r, i);
    StartIsFirst(h, r, i);
    var e := NextEnd(h, r, s + 1);
    EndIsFirst(h, r, s + 1);
    FirstEpisode(h, r, i);
    if e < j {
      EntriesAreSeen(h, r, e + 1, j);
      SeenLater(Episode(s, e), Episodes(h, r, e + 1), j);
    } else {
      SeenFirst(Episode(s, e), if e == |h| then [] else Episodes(h, r, e + 1), j);
    }
  }

  lemma EntriesAreInside(h: seq<real>, r: Rates, j: nat)
    requires r.exit <= r.enter && j < |h| && h[j] >= r.enter
    ensures Inside(Episodes(h, r, 0), j)
  {
    hide Episodes;
    EntriesAreSeen(h, r, 0, j);
    EpisodesAreMaximal(h, r, 0);
    var es := Episodes(h, r, 0);
    if k :| 0 <= k < |es| && es[k].to == j {
      assert Maximal(h, r, es[k]);
    }
  }

  lemma FirstEpisode(h: seq<real>, r: Rates, i: nat)
    requires i <= |h| && NextStart(h, r, i) < |h|
    ensures var s := NextStart(h, r, i);
      var e := NextEnd(h, r, s + 1);
      Episodes(h, r, i) == [Episode(s, e)] + if e == |h| then [] else Episodes(h, r, e + 1)
  {
    hide NextStart, NextEnd;
  }

  lemma SeenFirst(first: Episode, rest: seq<Episode>, j: int)
    requires first.from <= j <= first.to
    ensures Inside([first] + rest, j) || EndsOne([first] + rest, j)
  {
    assert ([first] + rest)[0] == first;
  }

  lemma SeenLater(first: Episode, rest: seq<Episode>, j: int)
    requires Inside(rest, j) || EndsOne(rest, j)
    ensures Inside([first] + rest, j) || EndsOne([first] + rest, j)
  {
    var k :| 0 <= k < |rest| && (rest[k].from <= j < rest[k].to || rest[k].to == j);
    assert ([first] + rest)[k + 1] == rest[k];
  }

  /** With exit <= enter no episode is missed: an interval lies in one exactly when funding
      has stayed at the exit rate or above since it last reached the enter rate. */
  lemma InsideIffHigh(h: seq<real>, r: Rates, j: nat)
    requires r.exit <= r.enter && j < |h|
    ensures Inside(Episodes(h, r, 0), j) <==> exists s: nat :: HighSince(h, r, s, j)
  {
    hide Episodes;
    var es := Episodes(h, r, 0);
    EpisodesAreMaximal(h, r, 0);
    if Inside(es, j) {
      var k :| 0 <= k < |es| && es[k].from <= j < es[k].to;
      assert Maximal(h, r, es[k]);
      assert HighSince(h, r, es[k].from, j);
    }
    if s: nat :| HighSince(h, r, s, j) {
      EntriesAreInside(h, r, s);
      var k :| 0 <= k < |es| && es[k].from <= s < es[k].to;
      assert Maximal(h, r, es[k]);
    }
  }

  // ---- a pass over the series, interval by interval ------------------------------------

  /** The episodes still to be counted before interval i: when one is open since start,
      it and what follows; otherwise what follows. */
  function Rest(h: seq<real>, r: Rates, i: nat, start: int): seq<Episode>
    requires i <= |h|
  {
    if start < 0 then Episodes(h, r, i)
    else
      var e := NextEnd(h, r, i);
      [Episode(start, e)] + if e == |h| then [] else Episodes(h, r, e + 1)
  }

  /** The start of the open episode after interval i (negative when none is open). */
  function NextOpen(h: seq<real>, r: Rates, i: nat, start: int): int
    requires i < |h|
  {
    if start < 0 then (if h[i] >= r.enter then i else -1)
    else if h[i] < r.exit then -1 else start
  }

  /** One interval completes at most one episode. */
  lemma RestStep(h: seq<real>, r: Rates, i: nat, start: int)
    requires i < |h|
    ensures start < 0 ==> Rest(h, r, i, start) == Rest(h, r, i + 1, NextOpen(h, r, i, start))
    ensures start >= 0 && h[i] >= r.exit ==> Rest(h, r, i, start) == Rest(h, r, i + 1, start)
    ensures start >= 0 && h[i] < r.exit ==> Rest(h, r, i, start) == [Episode(start, i)] + Rest(h, r, i + 1, -1)
  {
    hide Episodes, NextStart;
    EpisodesFrom(h, r, i);
  }

  lemma EpisodesFrom(h: seq<real>, r: Rates, i: nat)
    requires i < |h|
    ensures Episodes(h, r, i) == Rest(h, r, i + 1, if h[i] >= r.enter then i else -1)
  {
    hide NextEnd;
  }

  lemma RestAtEnd(h: seq<real>, r: Rates, start: int)
    ensures Rest(h, r, |h|, start) == if start < 0 then [] else [Episode(start, |h|)]
  {
  }

  /** The episodes completed after interval i. */
  function NextDone(h: seq<real>, r: Rates, i: nat, done: seq<Episode>, start: int): seq<Episode>
    requires i < |h|
  {
    if start >= 0 && h[i] < r.exit then done + [Episode(start, i)] else done
  }

  /** A pass that has seen i intervals: done are the episodes completed, and one is open
      since start unless that is negative. */
  ghost predicate Pass(h: seq<real>, r: Rates, i: nat, done: seq<Episode>, start: int) {
    && i <= |h| && start < i
    && Episodes(h, r, 0) == done + Rest(h, r, i, start)
    && (forall k :: 0 <= k < |done| ==> done[k].from < done[k].to < i)
  }

  /** The pass has an episode open after interval i exactly when i lies in one. */
  lemma OpenMeansInside(h: seq<real>, r: Rates, i: nat, done: seq<Episode>, start: int)
    requires i < |h| && Pass(h, r, i + 1, done, start)
    ensures start >= 0 <==> Inside(Episodes(h, r, 0), i)
  {
    hide Episodes;
    var es, rest := Episodes(h, r, 0), Rest(h, r, i + 1, start);
    assert es == done + rest;
    if start >= 0 {
      assert es[|done|] == rest[0] && rest[0].from <= i < rest[0].to;
    } else {
      EpisodesAreMaximal(h, r, i + 1);
      forall k | 0 <= k < |es| ensures !(es[k].from <= i < es[k].to) {
        if k < |done| {
          assert es[k] == done[k];
        } else {
          assert es[k] == rest[k - |done|];
        }
      }
    }
  }

  lemma PassStart(h: seq<real>, r: Rates)
    ensures Pass(h, r, 0, [], -1)
  {
  }

  lemma PassStep(h: seq<real>, r: Rates, i: nat, done: seq<Episode>, start: int)
    requires Pass(h, r, i, done, start) && i < |h|
    ensures Pass(h, r, i + 1, NextDone(h, r, i, done, start), NextOpen(h, r, i, start))
  {
    hide Rest, Episodes;
    RestStep(h, r, i, start);
    if start >= 0 && h[i] < r.exit {
      var e := Episode(start, i);
      assert (done + [e]) + Rest(h, r, i + 1, -1) == done + ([e] + Rest(h, r, i + 1, -1));
    }
  }

  lemma PassEnd(h: seq<real>, r: Rates, done: seq<Episode>, start: int)
    requires Pass(h, r, |h|, done, start)
    ensures Episodes(h, r, 0) == if start < 0 then done else done + [Episode(start, |h|)]
  {
    RestAtEnd(h, r, start);
  }

  // ---- what is reported about episodes ----------------------------------------------------

  function Durations(es: seq<Episode>): (ds: seq<int>)
    ensures |ds| == |es|
  {
    if es == [] then [] else Durations(es[..|es| - 1]) + [es[|es| - 1].Length()]
  }

  lemma {:induction false} DurationsAre(es: seq<Episode>, k: nat)
    requires k < |es|
    ensures Durations(es)[k] == es[k].to - es[k].from
  {
    if k < |es| - 1 {
      DurationsAre(es[..|es| - 1], k);
    }
  }

  /** The number of intervals an age-gated position is held in each episode long enough
      to be entered at all. */
  function Holds(es: seq<Episode>, k: int): seq<int> {
    if es == [] then []
    else
      var e := es[|es| - 1];
      Holds(es[..|es| - 1], k) + if e.Length() >= k then [e.Length() - k + 1] else []
  }

  /** The list "d - k + 1 over the durations d >= k". */
  function Gated(ds: seq<int>, k: int): seq<int> {
    if ds == [] then []
    else Gated(ds[..|ds| - 1], k) + if ds[|ds| - 1] >= k then [ds[|ds| - 1] - k + 1] else []
  }

  lemma {:induction false} HoldsAreGatedDurations(es: seq<Episode>, k: int)
    ensures Holds(es, k) == Gated(Durations(es), k)
  {
    if es != [] {
      var front := es[..|es| - 1];
      HoldsAreGatedDurations(front, k);
      assert Durations(es)[..|es| - 1] == Durations(front);
    }
  }

  function RangeSum(h: seq<real>, a: int, b: int): real
    requires 0 <= a <= |h| && b <= |h|
    decreases b - a
  {
    if b <= a then 0.0 else RangeSum(h, a, b - 1) + h[b - 1]
  }

  ghost predicate Within(h: seq<real>, es: seq<Episode>) {
    forall k :: 0 <= k < |es| ==> es[k].from < es[k].to <= |h|
  }

  /** The funding collected in each of those positions. */
  function Collected(h: seq<real>, es: seq<Episode>, k: int): seq<real>
    requires Within(h, es) && k >= 1
  {
    if es == [] then []
    else
      var e := es[|es| - 1];
      Collected(h, es[..|es| - 1], k) + if e.Length() >= k then [RangeSum(h, e.from + k - 1, e.to)] else []
  }

  lemma HoldsAppend(es: seq<Episode>, e: Episode, k: int)
    ensures Holds(es + [e], k) == Holds(es, k) + if e.Length() >= k then [e.Length() - k + 1] else []
  {
    assert (es + [e])[..|es|] == es;
  }

  lemma CollectedAppend(h: seq<real>, es: seq<Episode>, e: Episode, k: int)
    requires Within(h, es + [e]) && Within(h, es) && k >= 1
    ensures e.from < e.to <= |h|
    ensures Collected(h, es + [e], k)
         == Collected(h, es, k) + if e.Length() >= k then [RangeSum(h, e.from + k - 1, e.to)] else []
  {
    assert (es + [e])[..|es|] == es;
    assert (es + [e])[|es|] == e;
  }

  lemma DurationsAppend(es: seq<Episode>, e: Episode)
    ensures Durations(es + [e]) == Durations(es) + [e.Length()]
  {
    assert (es + [e])[..|es|] == es;
  }
}
