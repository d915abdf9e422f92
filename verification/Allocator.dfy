/** treasuryforge/carry_portfolio_allocator.py: weights in proportion to score, capped
    per position and per correlation cluster. */
module Allocator {
  import opened Sums
  import opened Wrappers

  datatype Caps = Caps(maxPerPosition: real, maxPerCluster: real, maxTotal: real) {
    predicate Nonnegative() {
      maxPerPosition >= 0.0 && maxPerCluster >= 0.0 && maxTotal >= 0.0
    }
  }

  datatype Candidate = Candidate(name: string, cluster: string, score: real, maxPosition: Option<real>)

  datatype Allocation = Allocation(name: string, cluster: string, weight: real)

  function Scored(cs: seq<Candidate>): seq<Candidate> {
    if cs == [] then []
    else Scored(cs[..|cs| - 1]) + if cs[|cs| - 1].score > 0.0 then [cs[|cs| - 1]] else []
  }

  ghost predicate DistinctNames(cs: seq<Candidate>) {
    forall i, j :: 0 <= i < j < |cs| ==> cs[i].name != cs[j].name
  }

  ghost predicate AllScored(cs: seq<Candidate>) {
    forall i :: 0 <= i < |cs| ==> cs[i].score > 0.0
  }

  // ---- the weights, candidate by candidate ------------------------------------------------

  function TotalScore(cs: seq<Candidate>): real {
    if cs == [] then 0.0 else TotalScore(cs[..|cs| - 1]) + cs[|cs| - 1].score
  }

  /** The candidate's own cap when it has one, else the global cap. */
  function CapOf(c: Candidate, caps: Caps): real {
    match c.maxPosition
    case Some(m) => m
    case None => caps.maxPerPosition
  }

  function Proportional(c: Candidate, caps: Caps, total: real): real
    requires total > 0.0
  {
    caps.maxTotal * c.score / total
  }

  /** Before the cluster caps. */
  function Raw(c: Candidate, caps: Caps, total: real): real
    requires total > 0.0
  {
    Min(CapOf(c, caps), Proportional(c, caps, total))
  }

  /** The raw weights of a cluster's members among the first n. */
  function ClusterRaw(cs: seq<Candidate>, caps: Caps, total: real, cluster: string, n: nat): real
    requires n <= |cs| && total > 0.0
  {
    if n == 0 then 0.0
    else ClusterRaw(cs, caps, total, cluster, n - 1)
         + if cs[n - 1].cluster == cluster then Raw(cs[n - 1], caps, total) else 0.0
  }

  predicate OverBudget(sum: real, caps: Caps) {
    sum > caps.maxPerCluster && sum > 0.0
  }

  /** What the cluster's weights are multiplied by. */
  function Scale(sum: real, caps: Caps): real {
    if OverBudget(sum, caps) then caps.maxPerCluster / sum else 1.0
  }

  function Weight(cs: seq<Candidate>, caps: Caps, total: real, i: nat): real
    requires i < |cs| && total > 0.0
  {
    var sum := ClusterRaw(cs, caps, total, cs[i].cluster, |cs|);
    if OverBudget(sum, caps) then Times(Raw(cs[i], caps, total), Scale(sum, caps)) else Raw(cs[i], caps, total)
  }

  // ---- the dictionary of weights ---------------------------------------------------------------

  ghost predicate Weighted(weights: map<string, real>, pos: seq<Candidate>) {
    forall j :: 0 <= j < |pos| ==> pos[j].name in weights
  }

  /** One weight a name: of candidates that share one, the last counts. */
  function RawWeights(pos: seq<Candidate>, caps: Caps, total: real, n: nat): (weights: map<string, real>)
    requires n <= |pos| && total > 0.0
    ensures Weighted(weights, pos[..n])
  {
    if n == 0 then map[]
    else
      assert forall j :: 0 <= j < n - 1 ==> pos[..n - 1][j] == pos[..n][j];
      RawWeights(pos, caps, total, n - 1)[pos[n - 1].name := Raw(pos[n - 1], caps, total)]
  }

  /** What a cluster's members among the first n weigh. */
  function MemberSum(pos: seq<Candidate>, weights: map<string, real>, cluster: string, n: nat): real
    requires n <= |pos| && Weighted(weights, pos)
  {
    if n == 0 then 0.0
    else MemberSum(pos, weights, cluster, n - 1)
         + if pos[n - 1].cluster == cluster then weights[pos[n - 1].name] else 0.0
  }

  /** Each member scales the weight of its name. */
  function ScaledBy(pos: seq<Candidate>, w0: map<string, real>, cluster: string, scale: real, n: nat)
      : (weights: map<string, real>)
    requires n <= |pos| && Weighted(w0, pos)
    ensures Weighted(weights, pos)
  {
    if n == 0 then w0
    else
      var before := ScaledBy(pos, w0, cluster, scale, n - 1);
      if pos[n - 1].cluster == cluster then before[pos[n - 1].name := Times(before[pos[n - 1].name], scale)] else before
  }

  function CappedBy(pos: seq<Candidate>, caps: Caps, w0: map<string, real>, cluster: string)
      : (weights: map<string, real>)
    requires Weighted(w0, pos)
    ensures Weighted(weights, pos)
  {
    var sum := MemberSum(pos, w0, cluster, |pos|);
    if OverBudget(sum, caps) then ScaledBy(pos, w0, cluster, Scale(sum, caps), |pos|) else w0
  }

  function CappedByAll(pos: seq<Candidate>, caps: Caps, w0: map<string, real>, clusters: seq<string>)
      : (weights: map<string, real>)
    requires Weighted(w0, pos)
    ensures Weighted(weights, pos)
  {
    if clusters == [] then w0
    else CappedBy(pos, caps, CappedByAll(pos, caps, w0, clusters[..|clusters| - 1]), clusters[|clusters| - 1])
  }

  /** The clusters in the order they first appear. */
  function Clusters(pos: seq<Candidate>): seq<string> {
    if pos == [] then []
    else
      var before, c := Clusters(pos[..|pos| - 1]), pos[|pos| - 1].cluster;
      if c in before then before else before + [c]
  }

  function FinalWeights(pos: seq<Candidate>, caps: Caps, total: real): (weights: map<string, real>)
    requires total > 0.0
    ensures Weighted(weights, pos)
  {
    assert pos[..|pos|] == pos;
    CappedByAll(pos, caps, RawWeights(pos, caps, total, |pos|), Clusters(pos))
  }

  /** The answer for candidates with positive scores. */
  function Allocations(pos: seq<Candidate>, caps: Caps): seq<Allocation>
    requires pos != [] ==> TotalScore(pos) > 0.0
  {
    if pos == [] then []
    else
      var weights := FinalWeights(pos, caps, TotalScore(pos));
      seq(|pos|, i requires 0 <= i < |pos| && Weighted(weights, pos) =>
            Allocation(pos[i].name, pos[i].cluster, weights[pos[i].name]))
  }

  // ---- the code -----------------------------------------------------------------------------

  method Allocate(candidates: seq<Candidate>, caps: Caps) returns (out: seq<Allocation>)
    ensures AllScored(Scored(candidates)) && (Scored(candidates) != [] ==> TotalScore(Scored(candidates)) > 0.0)
    ensures out == Allocations(Scored(candidates), caps)
    ensures DistinctNames(candidates) ==> Answers(out, Scored(candidates), caps)
  {
    hide Scored, TotalScore, DistinctNames, RawWeights, CappedByAll, Clusters, Answers, Weighted, AllScored;
    var pos := KeepScored(candidates);
    if pos == [] {
      NothingAnswers(pos, caps);
      return [];
    }
    var total := SumScores(pos);
    var weights := WeighAll(pos, caps, total);
    var clusters := ClusterNames(pos);
    assert pos[..|pos|] == pos;
    weights := CapClusters(pos, caps, weights, clusters);
    out := Listed(pos, weights);
    if DistinctNames(candidates) {
      DistinctAnswers(pos, caps);
    }
  }

  /** What Allocate promises of its answer when names are distinct. */
  ghost predicate Answers(out: seq<Allocation>, pos: seq<Candidate>, caps: Caps) {
    |out| == |pos| && forall i :: 0 <= i < |out| ==>
      && out[i].name == pos[i].name && out[i].cluster == pos[i].cluster
      && TotalScore(pos) > 0.0 && out[i].weight == Weight(pos, caps, TotalScore(pos), i)
  }

  lemma NothingAnswers(pos: seq<Candidate>, caps: Caps)
    requires pos == []
    ensures Answers([], pos, caps)
  {
  }

  method Listed(pos: seq<Candidate>, weights: map<string, real>) returns (out: seq<Allocation>)
    requires Weighted(weights, pos)
    ensures |out| == |pos|
    ensures forall i :: 0 <= i < |pos| ==> out[i] == Allocation(pos[i].name, pos[i].cluster, weights[pos[i].name])
  {
    out := [];
    for i := 0 to |pos|
      invariant |out| == i
      invariant forall j :: 0 <= j < i ==>
                  out[j] == Allocation(pos[j].name, pos[j].cluster, weights[pos[j].name])
    {
      out := out + [Allocation(pos[i].name, pos[i].cluster, weights[pos[i].name])];
    }
  }

  /** The cluster loop. */
  method CapClusters(pos: seq<Candidate>, caps: Caps, w0: map<string, real>, clusters: seq<string>)
      returns (weights: map<string, real>)
    requires Weighted(w0, pos)
    ensures Weighted(weights, pos) && weights == CappedByAll(pos, caps, w0, clusters)
  {
    hide Weighted, CappedBy;
    weights := w0;
    for k := 0 to |clusters|
      invariant Weighted(weights, pos) && weights == CappedByAll(pos, caps, w0, clusters[..k])
    {
      assert clusters[..k + 1][..k] == clusters[..k];
      weights := CapCluster(pos, caps, weights, clusters[k]);
    }
    assert clusters[..|clusters|] == clusters;
  }

  method WeighAll(pos: seq<Candidate>, caps: Caps, total: real) returns (weights: map<string, real>)
    requires total > 0.0
    ensures Weighted(weights, pos) && weights == RawWeights(pos, caps, total, |pos|)
  {
    weights := map[];
    for i := 0 to |pos|
      invariant weights == RawWeights(pos, caps, total, i)
    {
      weights := weights[pos[i].name := Raw(pos[i], caps, total)];
    }
    assert pos[..|pos|] == pos;
  }

  /** One turn of the cluster loop. */
  method CapCluster(pos: seq<Candidate>, caps: Caps, w0: map<string, real>, cluster: string)
      returns (weights: map<string, real>)
    requires Weighted(w0, pos)
    ensures Weighted(weights, pos) && weights == CappedBy(pos, caps, w0, cluster)
  {
    hide Weighted;
    var csum := ClusterSum(pos, w0, cluster);
    weights := w0;
    if csum > caps.maxPerCluster && csum > 0.0 {
      weights := ScaleMembers(pos, w0, cluster, caps.maxPerCluster / csum);
    }
  }

  method KeepScored(cs: seq<Candidate>) returns (pos: seq<Candidate>)
    ensures pos == Scored(cs) && AllScored(pos)
    ensures DistinctNames(cs) ==> DistinctNames(pos)
  {
    pos := [];
    for i := 0 to |cs|
      invariant pos == Scored(cs[..i]) && AllScored(pos)
      invariant DistinctNames(cs) ==> DistinctNames(pos)
      invariant forall j :: 0 <= j < |pos| ==> exists k :: 0 <= k < i && pos[j] == cs[k]
    {
      assert cs[..i + 1][..i] == cs[..i];
      if cs[i].score > 0.0 {
        pos := pos + [cs[i]];
      }
    }
    assert cs[..|cs|] == cs;
  }

  method SumScores(pos: seq<Candidate>) returns (total: real)
    requires AllScored(pos)
    ensures total == TotalScore(pos) && (pos != [] ==> total > 0.0)
  {
    total := 0.0;
    for i := 0 to |pos|
      invariant total == TotalScore(pos[..i]) && total >= 0.0 && (i > 0 ==> total > 0.0)
    {
      assert pos[..i + 1][..i] == pos[..i];
      total := total + pos[i].score;
    }
    assert pos[..|pos|] == pos;
  }

  method ClusterNames(pos: seq<Candidate>) returns (names: seq<string>)
    ensures names == Clusters(pos)
  {
    names := [];
    for i := 0 to |pos|
      invariant names == Clusters(pos[..i])
    {
      assert pos[..i + 1][..i] == pos[..i];
      if pos[i].cluster !in names {
        names := names + [pos[i].cluster];
      }
    }
    assert pos[..|pos|] == pos;
  }

  method ClusterSum(pos: seq<Candidate>, weights: map<string, real>, cluster: string) returns (csum: real)
    requires Weighted(weights, pos)
    ensures csum == MemberSum(pos, weights, cluster, |pos|)
  {
    csum := 0.0;
    for j := 0 to |pos|
      invariant csum == MemberSum(pos, weights, cluster, j)
    {
      if pos[j].cluster == cluster {
        csum := csum + weights[pos[j].name];
      }
    }
  }

  /** Scale a cluster's members down together. */
  method ScaleMembers(pos: seq<Candidate>, w0: map<string, real>, cluster: string, scale: real)
      returns (weights: map<string, real>)
    requires Weighted(w0, pos)
    ensures Weighted(weights, pos) && weights == ScaledBy(pos, w0, cluster, scale, |pos|)
  {
    weights := w0;
    for i := 0 to |pos|
      invariant Weighted(weights, pos) && weights == ScaledBy(pos, w0, cluster, scale, i)
    {
      if pos[i].cluster == cluster {
        weights := weights[pos[i].name := Times(weights[pos[i].name], scale)];
      }
    }
  }

  // ---- with distinct names the dictionary holds one weight a candidate ---------------------------

  /** Members of the clusters already dealt with have their final weight, others the raw one. */
  ghost predicate RawOrScaled(weights: map<string, real>, pos: seq<Candidate>, caps: Caps, total: real,
                              done: seq<string>)
    requires total > 0.0 && Weighted(weights, pos)
  {
    forall j :: 0 <= j < |pos| ==>
      weights[pos[j].name] == if pos[j].cluster in done then Weight(pos, caps, total, j) else Raw(pos[j], caps, total)
  }

  lemma {:induction false} RawWeightsAre(pos: seq<Candidate>, caps: Caps, total: real, n: nat)
    requires DistinctNames(pos) && n <= |pos| && total > 0.0
    ensures forall j :: 0 <= j < n ==>
              pos[j].name in RawWeights(pos, caps, total, n)
              && RawWeights(pos, caps, total, n)[pos[j].name] == Raw(pos[j], caps, total)
  {
    hide Raw;
    if n > 0 {
      RawWeightsAre(pos, caps, total, n - 1);
    }
  }

  lemma {:induction false} MemberSumIs(pos: seq<Candidate>, caps: Caps, total: real, weights: map<string, real>,
                                       cluster: string, done: seq<string>, n: nat)
    requires total > 0.0 && Weighted(weights, pos) && RawOrScaled(weights, pos, caps, total, done)
    requires cluster !in done && n <= |pos|
    ensures MemberSum(pos, weights, cluster, n) == ClusterRaw(pos, caps, total, cluster, n)
  {
    hide Raw, Weight;
    if n > 0 {
      MemberSumIs(pos, caps, total, weights, cluster, done, n - 1);
    }
  }

  lemma {:induction false} ScaledByIs(pos: seq<Candidate>, w0: map<string, real>, cluster: string, scale: real, n: nat)
    requires DistinctNames(pos) && n <= |pos| && Weighted(w0, pos)
    ensures forall j :: 0 <= j < |pos| ==>
              ScaledBy(pos, w0, cluster, scale, n)[pos[j].name]
              == if pos[j].cluster == cluster && j < n then Times(w0[pos[j].name], scale) else w0[pos[j].name]
  {
    hide Times;
    if n > 0 {
      ScaledByIs(pos, w0, cluster, scale, n - 1);
    }
  }

  lemma CappedByIs(pos: seq<Candidate>, caps: Caps, total: real, w0: map<string, real>, cluster: string,
                   done: seq<string>)
    requires DistinctNames(pos) && total > 0.0 && Weighted(w0, pos) && RawOrScaled(w0, pos, caps, total, done)
    requires cluster !in done
    ensures RawOrScaled(CappedBy(pos, caps, w0, cluster), pos, caps, total, done + [cluster])
  {
    hide Raw, MemberSum, ScaledBy, ClusterRaw, Times, Scale, OverBudget;
    MemberSumIs(pos, caps, total, w0, cluster, done, |pos|);
    ScaledByIs(pos, w0, cluster, Scale(MemberSum(pos, w0, cluster, |pos|), caps), |pos|);
  }

  lemma {:induction false} CappedByAllIs(pos: seq<Candidate>, caps: Caps, total: real, w0: map<string, real>,
                                         clusters: seq<string>)
    requires DistinctNames(pos) && total > 0.0 && Weighted(w0, pos) && RawOrScaled(w0, pos, caps, total, [])
    requires forall i, j :: 0 <= i < j < |clusters| ==> clusters[i] != clusters[j]
    ensures RawOrScaled(CappedByAll(pos, caps, w0, clusters), pos, caps, total, clusters)
  {
    hide RawOrScaled, Weighted, CappedBy, DistinctNames;
    if clusters != [] {
      var init, last := clusters[..|clusters| - 1], clusters[|clusters| - 1];
      CappedByAllIs(pos, caps, total, w0, init);
      CappedByIs(pos, caps, total, CappedByAll(pos, caps, w0, init), last, init);
      assert init + [last] == clusters;
    }
  }

  lemma {:induction false} ClustersAre(pos: seq<Candidate>)
    ensures forall j :: 0 <= j < |pos| ==> pos[j].cluster in Clusters(pos)
    ensures forall i, j :: 0 <= i < j < |Clusters(pos)| ==> Clusters(pos)[i] != Clusters(pos)[j]
  {
    if pos != [] {
      var init := pos[..|pos| - 1];
      ClustersAre(init);
      assert forall j :: 0 <= j < |init| ==> init[j] == pos[j];
    }
  }

  /** When no two candidates share a name, each is given its weight. */
  lemma DistinctAnswers(pos: seq<Candidate>, caps: Caps)
    requires DistinctNames(pos) && (pos != [] ==> TotalScore(pos) > 0.0)
    ensures Answers(Allocations(pos, caps), pos, caps)
  {
    hide DistinctNames, Weight, Raw, RawWeights, CappedByAll, Clusters, TotalScore;
    if pos != [] {
      var total := TotalScore(pos);
      assert pos[..|pos|] == pos;
      RawWeightsAre(pos, caps, total, |pos|);
      ClustersAre(pos);
      CappedByAllIs(pos, caps, total, RawWeights(pos, caps, total, |pos|), Clusters(pos));
    }
  }

  // ---- the caps hold -------------------------------------------------------------------------------

  ghost predicate NonnegativeCaps(cs: seq<Candidate>, caps: Caps) {
    caps.Nonnegative() && forall i :: 0 <= i < |cs| ==> CapOf(cs[i], caps) >= 0.0
  }

  function TotalWeight(cs: seq<Candidate>, caps: Caps, total: real, n: nat): real
    requires n <= |cs| && total > 0.0
  {
    if n == 0 then 0.0 else TotalWeight(cs, caps, total, n - 1) + Weight(cs, caps, total, n - 1)
  }

  function ClusterWeight(cs: seq<Candidate>, caps: Caps, total: real, cluster: string, n: nat): real
    requires n <= |cs| && total > 0.0
  {
    if n == 0 then 0.0
    else ClusterWeight(cs, caps, total, cluster, n - 1)
         + if cs[n - 1].cluster == cluster then Weight(cs, caps, total, n - 1) else 0.0
  }

  lemma RawBounds(c: Candidate, caps: Caps, total: real)
    requires caps.Nonnegative() && CapOf(c, caps) >= 0.0 && c.score > 0.0 && total > 0.0
    ensures 0.0 <= Raw(c, caps, total) <= CapOf(c, caps)
    ensures Raw(c, caps, total) <= Proportional(c, caps, total)
  {
    ProductNonneg(caps.maxTotal, c.score);
    QuotientNonneg(caps.maxTotal * c.score, total);
  }

  lemma ScaleBounds(sum: real, caps: Caps)
    requires caps.Nonnegative()
    ensures 0.0 <= Scale(sum, caps) <= 1.0
    ensures OverBudget(sum, caps) ==> Times(sum, Scale(sum, caps)) == caps.maxPerCluster
  {
    if OverBudget(sum, caps) {
      var q := caps.maxPerCluster / sum;
      assert q * sum == caps.maxPerCluster;
      QuotientNonneg(caps.maxPerCluster, sum);
      if q > 1.0 {
        PositiveProduct(q - 1.0, sum);
      }
    }
  }

  lemma Shrinks(w: real, s: real)
    requires w >= 0.0 && 0.0 <= s <= 1.0
    ensures 0.0 <= Times(w, s) <= w
  {
    ProductNonneg(w, s);
    ProductNonneg(w, 1.0 - s);
  }

  /** Every weight is nonnegative, within its own cap, and no more than its share. */
  lemma WeightWithinCap(cs: seq<Candidate>, caps: Caps, total: real, i: nat)
    requires i < |cs| && total > 0.0 && NonnegativeCaps(cs, caps) && AllScored(cs)
    ensures 0.0 <= Weight(cs, caps, total, i) <= CapOf(cs[i], caps)
    ensures Weight(cs, caps, total, i) <= Proportional(cs[i], caps, total)
  {
    RawBounds(cs[i], caps, total);
    var sum := ClusterRaw(cs, caps, total, cs[i].cluster, |cs|);
    ScaleBounds(sum, caps);
    Shrinks(Raw(cs[i], caps, total), Scale(sum, caps));
  }

  lemma {:induction false} WeightsWithinShares(cs: seq<Candidate>, caps: Caps, total: real, n: nat)
    requires n <= |cs| && total > 0.0 && NonnegativeCaps(cs, caps) && AllScored(cs)
    ensures TotalWeight(cs, caps, total, n) <= caps.maxTotal * TotalScore(cs[..n]) / total
  {
    hide Weight, Proportional, TotalScore;
    if n == 0 {
      ScoreOfNone(caps.maxTotal, total);
      assert cs[..0] == [];
    } else {
      WeightsWithinShares(cs, caps, total, n - 1);
      WeightWithinCap(cs, caps, total, n - 1);
      SharesAdd(cs, caps, total, n);
    }
  }

  lemma ScoreOfNone(m: real, total: real)
    requires total > 0.0
    ensures m * TotalScore([]) / total == 0.0
  {
    assert m * 0.0 == 0.0;
    assert 0.0 / total == 0.0;
  }

  lemma SharesAdd(cs: seq<Candidate>, caps: Caps, total: real, n: nat)
    requires 0 < n <= |cs| && total > 0.0
    ensures caps.maxTotal * TotalScore(cs[..n]) / total
         == caps.maxTotal * TotalScore(cs[..n - 1]) / total + Proportional(cs[n - 1], caps, total)
  {
    assert cs[..n][..n - 1] == cs[..n - 1];
    SharesAddUp(caps.maxTotal, TotalScore(cs[..n - 1]), cs[n - 1].score, total);
  }

  lemma SharesAddUp(m: real, a: real, b: real, total: real)
    requires total > 0.0
    ensures m * (a + b) / total == m * a / total + m * b / total
  {
    assert m * (a + b) == m * a + m * b;
    var x, y := m * a / total, m * b / total;
    assert x * total == m * a && y * total == m * b;
    assert (x + y) * total == m * a + m * b;
    CancelFactor(total, x + y);
  }

  /** The claim made for leaving out a final renormalisation: the weights never sum to more
      than the total cap. */
  lemma TotalWithinCap(cs: seq<Candidate>, caps: Caps)
    requires cs != [] && NonnegativeCaps(cs, caps) && AllScored(cs) && TotalScore(cs) > 0.0
    ensures TotalWeight(cs, caps, TotalScore(cs), |cs|) <= caps.maxTotal
  {
    hide TotalWeight, TotalScore, AllScored, NonnegativeCaps;
    assert cs[..|cs|] == cs;
    WeightsWithinShares(cs, caps, TotalScore(cs), |cs|);
    WholeShare(caps.maxTotal, TotalScore(cs));
  }

  lemma WholeShare(m: real, total: real)
    requires total > 0.0
    ensures m * total / total == m
  {
    assert m * total == total * m;
    CancelFactor(total, m);
  }

  /** A cluster's weights are its raw weights times its scale. */
  lemma {:induction false} ClusterScales(cs: seq<Candidate>, caps: Caps, total: real, cluster: string, n: nat)
    requires n <= |cs| && total > 0.0
    ensures var sum := ClusterRaw(cs, caps, total, cluster, |cs|);
      ClusterWeight(cs, caps, total, cluster, n)
      == if OverBudget(sum, caps) then Times(ClusterRaw(cs, caps, total, cluster, n), Scale(sum, caps))
         else ClusterRaw(cs, caps, total, cluster, n)
  {
    hide Times, Scale, Raw, OverBudget;
    var s := Scale(ClusterRaw(cs, caps, total, cluster, |cs|), caps);
    if n == 0 {
      TimesAdds(0.0, 0.0, s);
    } else {
      ClusterScales(cs, caps, total, cluster, n - 1);
      TimesAdds(ClusterRaw(cs, caps, total, cluster, n - 1), Raw(cs[n - 1], caps, total), s);
    }
  }

  /** Correlated candidates share one budget. */
  lemma ClusterWithinCap(cs: seq<Candidate>, caps: Caps, total: real, cluster: string)
    requires total > 0.0 && NonnegativeCaps(cs, caps) && AllScored(cs)
    ensures ClusterWeight(cs, caps, total, cluster, |cs|) <= caps.maxPerCluster
    ensures OverBudget(ClusterRaw(cs, caps, total, cluster, |cs|), caps) ==>
              ClusterWeight(cs, caps, total, cluster, |cs|) == caps.maxPerCluster
  {
    ClusterScales(cs, caps, total, cluster, |cs|);
    ScaleBounds(ClusterRaw(cs, caps, total, cluster, |cs|), caps);
  }

  /** Scaling keeps the proportions between members of a cluster. */
  lemma ProportionsKept(cs: seq<Candidate>, caps: Caps, total: real, i: nat, j: nat)
    requires i < |cs| && j < |cs| && total > 0.0 && cs[i].cluster == cs[j].cluster
    ensures Times(Weight(cs, caps, total, i), Raw(cs[j], caps, total))
         == Times(Weight(cs, caps, total, j), Raw(cs[i], caps, total))
  {
    var sum := ClusterRaw(cs, caps, total, cs[i].cluster, |cs|);
    CrossTimes(Raw(cs[i], caps, total), Raw(cs[j], caps, total), Scale(sum, caps));
  }

  lemma CrossTimes(a: real, b: real, s: real)
    ensures Times(Times(a, s), b) == Times(Times(b, s), a)
    ensures Times(a, b) == Times(b, a)
  {
    assert (a * s) * b == (b * s) * a;
  }

  // ---- the allocations as returned --------------------------------------------------------------

  lemma {:induction false} ScoredArePositive(cs: seq<Candidate>)
    ensures AllScored(Scored(cs))
    ensures Scored(cs) != [] ==> TotalScore(Scored(cs)) > 0.0
  {
    if cs != [] {
      ScoredArePositive(cs[..|cs| - 1]);
      var init := Scored(cs[..|cs| - 1]);
      if cs[|cs| - 1].score > 0.0 {
        assert (init + [cs[|cs| - 1]])[..|init|] == init;
      } else {
        assert init + [] == init;
      }
    }
  }

  function Deployed(out: seq<Allocation>): real {
    if out == [] then 0.0 else Deployed(out[..|out| - 1]) + out[|out| - 1].weight
  }

  function DeployedIn(out: seq<Allocation>, cluster: string): real {
    if out == [] then 0.0
    else
      var last := out[|out| - 1];
      DeployedIn(out[..|out| - 1], cluster) + if last.cluster == cluster then last.weight else 0.0
  }

  lemma {:induction false} DeployedIs(out: seq<Allocation>, pos: seq<Candidate>, caps: Caps, cluster: string, n: nat)
    requires Answers(out, pos, caps) && n <= |out| && TotalScore(pos) > 0.0
    ensures Deployed(out[..n]) == TotalWeight(pos, caps, TotalScore(pos), n)
    ensures DeployedIn(out[..n], cluster) == ClusterWeight(pos, caps, TotalScore(pos), cluster, n)
  {
    hide Weight;
    if n > 0 {
      DeployedIs(out, pos, caps, cluster, n - 1);
      assert out[..n][..n - 1] == out[..n - 1];
    }
  }

  /** The three caps at once, on the allocations as they are returned. */
  lemma AllocationIsSafe(cs: seq<Candidate>, caps: Caps, out: seq<Allocation>, cluster: string)
    requires NonnegativeCaps(Scored(cs), caps) && Answers(out, Scored(cs), caps)
    ensures 0.0 <= Deployed(out) <= caps.maxTotal && DeployedIn(out, cluster) <= caps.maxPerCluster
    ensures forall i :: 0 <= i < |out| ==> 0.0 <= out[i].weight <= CapOf(Scored(cs)[i], caps)
  {
    hide Weight, CapOf, NonnegativeCaps;
    var pos := Scored(cs);
    ScoredArePositive(cs);
    if out == [] {
      NonnegativeMeans(pos, caps);
    } else {
      var total := TotalScore(pos);
      forall i | 0 <= i < |out| ensures 0.0 <= out[i].weight <= CapOf(pos[i], caps) {
        WeightWithinCap(pos, caps, total, i);
      }
      DeployedIs(out, pos, caps, cluster, |out|);
      assert out[..|out|] == out;
      TotalWithinCap(pos, caps);
      ClusterWithinCap(pos, caps, total, cluster);
      DeployedNonneg(out);
    }
  }

  lemma NonnegativeMeans(cs: seq<Candidate>, caps: Caps)
    requires NonnegativeCaps(cs, caps)
    ensures caps.maxTotal >= 0.0 && caps.maxPerCluster >= 0.0
  {
  }

  lemma {:induction false} DeployedNonneg(out: seq<Allocation>)
    requires forall i :: 0 <= i < |out| ==> out[i].weight >= 0.0
    ensures Deployed(out) >= 0.0
  {
    if out != [] {
      DeployedNonneg(out[..|out| - 1]);
    }
  }

  // ---- the tighter of the two position caps ---------------------------------------------------------

  lemma {:induction false} ScoreWithinTotal(cs: seq<Candidate>, i: nat)
    requires i < |cs| && AllScored(cs)
    ensures 0.0 < cs[i].score <= TotalScore(cs)
    decreases |cs|
  {
    var init := cs[..|cs| - 1];
    if i < |cs| - 1 {
      ScoreWithinTotal(init, i);
    } else {
      TotalScoreNonneg(init);
    }
  }

  lemma {:induction false} TotalScoreNonneg(cs: seq<Candidate>)
    requires AllScored(cs)
    ensures TotalScore(cs) >= 0.0
  {
    if cs != [] {
      TotalScoreNonneg(cs[..|cs| - 1]);
    }
  }

  lemma {:induction false} MembersWithinCluster(cs: seq<Candidate>, caps: Caps, total: real, i: nat, n: nat)
    requires i < |cs| && n <= |cs| && total > 0.0 && NonnegativeCaps(cs, caps) && AllScored(cs)
    ensures ClusterWeight(cs, caps, total, cs[i].cluster, n) >= if i < n then Weight(cs, caps, total, i) else 0.0
  {
    hide Weight, CapOf, Proportional, NonnegativeCaps, AllScored;
    if n > 0 {
      MembersWithinCluster(cs, caps, total, i, n - 1);
      WeightWithinCap(cs, caps, total, n - 1);
    }
  }

  lemma ShareWithinTotal(c: Candidate, caps: Caps, total: real)
    requires caps.maxTotal >= 0.0 && 0.0 <= c.score <= total && total > 0.0
    ensures Proportional(c, caps, total) <= caps.maxTotal
  {
    var m, q := caps.maxTotal, Proportional(c, caps, total);
    assert q * total == m * c.score;
    if q > m {
      PositiveProduct(q - m, total);
      ProductNonneg(m, total - c.score);
    }
  }

  /** A weight is within its own cap, the total cap and the cluster cap. */
  lemma WeightWithinAll(cs: seq<Candidate>, caps: Caps, i: nat)
    requires i < |cs| && NonnegativeCaps(cs, caps) && AllScored(cs)
    ensures var total := TotalScore(cs);
      total > 0.0 && Weight(cs, caps, total, i) <= Min(CapOf(cs[i], caps), Min(caps.maxTotal, caps.maxPerCluster))
  {
    hide Weight, NonnegativeCaps, AllScored, CapOf, Proportional;
    var total := TotalScore(cs);
    ScoreWithinTotal(cs, i);
    WeightWithinCap(cs, caps, total, i);
    NonnegativeMeans(cs, caps);
    ShareWithinTotal(cs[i], caps, total);
    MembersWithinCluster(cs, caps, total, i, |cs|);
    ClusterWithinCap(cs, caps, total, cs[i].cluster);
  }

  /** Candidates with distinct names, positive scores and own caps, if any, from 0 to m. */
  ghost predicate OwnCapsUpTo(cs: seq<Candidate>, m: real) {
    && DistinctNames(cs) && AllScored(cs)
    && forall i :: 0 <= i < |cs| && cs[i].maxPosition.Some? ==> 0.0 <= cs[i].maxPosition.value <= m
  }

  /** Every weight is within the global position cap, whatever cap the candidate brings. */
  ghost predicate GlobalCapHolds(cs: seq<Candidate>, caps: Caps) {
    forall i :: 0 <= i < |cs| ==> WithinGlobalCap(cs, caps, i)
  }

  ghost predicate WithinGlobalCap(cs: seq<Candidate>, caps: Caps, i: nat)
    requires i < |cs|
  {
    TotalScore(cs) > 0.0 && Weight(cs, caps, TotalScore(cs), i) <= caps.maxPerPosition
  }

  /** One candidate that brings the cap m is given all that the caps other than the global
      position cap leave it. */
  lemma LoneWeight(caps: Caps, m: real)
    requires caps.Nonnegative() && m >= 0.0
    ensures var one := [Candidate("a", "c", 1.0, Some(m))];
      && OwnCapsUpTo(one, m) && TotalScore(one) == 1.0
      && Weight(one, caps, 1.0, 0) == Min(m, Min(caps.maxTotal, caps.maxPerCluster))
      && (GlobalCapHolds(one, caps) <==> Min(m, Min(caps.maxTotal, caps.maxPerCluster)) <= caps.maxPerPosition)
  {
    var one := [Candidate("a", "c", 1.0, Some(m))];
    assert one[..0] == [];
    assert TotalScore(one) == 1.0;
    var raw := Min(m, caps.maxTotal);
    assert caps.maxTotal * 1.0 / 1.0 == caps.maxTotal;
    assert Raw(one[0], caps, 1.0) == raw;
    assert ClusterRaw(one, caps, 1.0, "c", 1) == raw;
    ScaleBounds(raw, caps);
    assert GlobalCapHolds(one, caps) <==> WithinGlobalCap(one, caps, 0);
  }

  /** "The tighter of the global cap and the candidate's own" is promised to every list of
      candidates whose own caps go up to m exactly when the global position cap is no less
      than m, or than the total cap, or than the cluster cap. */
  lemma TighterCapIff(caps: Caps, m: real)
    requires caps.Nonnegative() && m >= 0.0
    ensures (forall cs: seq<Candidate> :: OwnCapsUpTo(cs, m) ==> GlobalCapHolds(cs, caps))
       <==> Min(m, Min(caps.maxTotal, caps.maxPerCluster)) <= caps.maxPerPosition
  {
    hide Weight, OwnCapsUpTo, TotalScore, GlobalCapHolds;
    var one := [Candidate("a", "c", 1.0, Some(m))];
    LoneWeight(caps, m);
    if Min(m, Min(caps.maxTotal, caps.maxPerCluster)) <= caps.maxPerPosition {
      forall cs: seq<Candidate> | OwnCapsUpTo(cs, m) ensures GlobalCapHolds(cs, caps) {
        OwnCapsWithin(cs, caps, m);
      }
    }
  }

  lemma OwnCapsWithin(cs: seq<Candidate>, caps: Caps, m: real)
    requires caps.Nonnegative() && OwnCapsUpTo(cs, m)
    requires Min(m, Min(caps.maxTotal, caps.maxPerCluster)) <= caps.maxPerPosition
    ensures GlobalCapHolds(cs, caps)
  {
    hide Weight, OwnCapsUpTo, TotalScore, CapOf, AllScored, NonnegativeCaps;
    forall i | 0 <= i < |cs| ensures WithinGlobalCap(cs, caps, i) {
      OwnCapsMean(cs, caps, m, i);
      WeightWithinAll(cs, caps, i);
    }
  }

  lemma OwnCapsMean(cs: seq<Candidate>, caps: Caps, m: real, i: nat)
    requires OwnCapsUpTo(cs, m) && i < |cs| && caps.Nonnegative()
    ensures NonnegativeCaps(cs, caps) && AllScored(cs)
    ensures CapOf(cs[i], caps) <= m || CapOf(cs[i], caps) == caps.maxPerPosition
  {
  }

  /** An input on which it fails: an own cap of 0.5 under a global cap of 0.25 is given 0.40,
      the cluster cap. */
  lemma LooserOwnCapWins()
    ensures var cs, caps := [Candidate("a", "c", 1.0, Some(0.5))], Caps(0.25, 0.40, 1.0);
      && TotalScore(cs) == 1.0 && Weight(cs, caps, 1.0, 0) == 0.40 && !GlobalCapHolds(cs, caps)
  {
    hide Weight, TotalScore, GlobalCapHolds;
    LoneWeight(Caps(0.25, 0.40, 1.0), 0.5);
  }

  // ---- when names are shared ---------------------------------------------------------------------------

  /** The sum is not within the total cap "by construction": two candidates of one name are both
      given the weight of the last, here three quarters each under a total cap of 1. */
  lemma SharedNamesOverspend()
    ensures var pos := [Candidate("a", "c", 1.0, None), Candidate("a", "c", 3.0, None)];
      && AllScored(pos) && TotalScore(pos) == 4.0
      && Deployed(Allocations(pos, Caps(1.0, 2.0, 1.0))) == 1.5
  {
    var pos, caps := [Candidate("a", "c", 1.0, None), Candidate("a", "c", 3.0, None)], Caps(1.0, 2.0, 1.0);
    assert pos[..1] == [pos[0]] && pos[..1][..0] == [];
    assert TotalScore(pos[..1]) == 1.0;
    assert Raw(pos[1], caps, 4.0) == 0.75;
    var w := RawWeights(pos, caps, 4.0, 2);
    assert w["a"] == 0.75;
    assert Clusters(pos[..1]) == ["c"] && Clusters(pos) == ["c"];
    assert MemberSum(pos, w, "c", 1) == 0.75 && MemberSum(pos, w, "c", 2) == 1.5;
    assert ["c"][..0] == [];
    assert CappedByAll(pos, caps, w, []) == w && CappedByAll(pos, caps, w, ["c"]) == CappedBy(pos, caps, w, "c") == w;
    var out := Allocations(pos, caps);
    assert out == [Allocation("a", "c", 0.75), Allocation("a", "c", 0.75)];
    assert out[..1] == [out[0]] && out[..1][..0] == [];
    assert Deployed(out[..1]) == 0.75;
  }
}
