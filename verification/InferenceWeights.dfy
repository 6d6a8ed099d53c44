/** Pool-member ratios from pod metrics: an inverse-load score per pod, its share of
    100 rounded and clamped, and one pod adjusted to make the total come out. Reals
    stand for the floating-point numbers. */
module InferenceWeights {

  datatype PodMetrics = PodMetrics(
    ip: string, running: real, waiting: real, kv: real, streak: nat, reachable: bool)

  datatype WeightedPod = WeightedPod(ip: string, ratio: nat)

  const MIN_RATIO := 1
  const MAX_RATIO := 100
  const KV_THRESHOLD := 0.75
  const SUSTAINED_SCRAPES := 2
  const DEFAULT_MAX_SEQS := 256.0

  datatype Tuning = Tuning(alpha: real, beta: real, maxNumSeqs: real)

  // ---------- Scores ----------

  function MaxWaiting(ms: seq<PodMetrics>): (w: real)
    ensures w >= 0.0
  {
    if ms == [] then 0.0
    else
      var w, m := MaxWaiting(ms[..|ms| - 1]), ms[|ms| - 1];
      if m.reachable && m.waiting > w then m.waiting else w
  }

  function Capacity(k: Tuning): (c: real)
    ensures c > 0.0
  {
    if k.maxNumSeqs <= 0.0 then DEFAULT_MAX_SEQS else k.maxNumSeqs
  }

  /** A queue counts once it has been seen in two scrapes running. */
  function WaitingLoad(waiting: real, streak: nat, maxWaiting: real): real {
    if streak >= SUSTAINED_SCRAPES && maxWaiting > 0.0 then waiting / maxWaiting else 0.0
  }

  /** From nothing at the threshold to alpha at full occupancy. */
  function KvLoad(kv: real, k: Tuning): real {
    if kv > KV_THRESHOLD then k.alpha * (kv - KV_THRESHOLD) / (1.0 - KV_THRESHOLD) else 0.0
  }

  /** The share of the capacity in use, never more than all of it. */
  function Used(running: real, k: Tuning): real {
    if running / Capacity(k) > 1.0 then 1.0 else running / Capacity(k)
  }

  function SlotLoad(running: real, k: Tuning): real {
    if k.beta > 0.0 then k.beta * Used(running, k) else 0.0
  }

  function Load(m: PodMetrics, maxWaiting: real, k: Tuning): real {
    WaitingLoad(m.waiting, m.streak, maxWaiting) + KvLoad(m.kv, k) + SlotLoad(m.running, k)
  }

  /** Metrics and the KV weight are never negative. */
  predicate Sane(ms: seq<PodMetrics>, k: Tuning) {
    k.alpha >= 0.0 && forall i | 0 <= i < |ms| :: ms[i].running >= 0.0 && ms[i].waiting >= 0.0
  }

  lemma WaitingNonNegative(waiting: real, streak: nat, w: real)
    requires waiting >= 0.0
    ensures WaitingLoad(waiting, streak, w) >= 0.0
  {
    if w > 0.0 {
      QuotientNonNegative(waiting, w);
    }
  }

  lemma KvNonNegative(kv: real, k: Tuning)
    requires k.alpha >= 0.0
    ensures KvLoad(kv, k) >= 0.0
  {
    if kv > KV_THRESHOLD {
      ProductNonNegative(k.alpha, kv - KV_THRESHOLD);
      QuotientNonNegative(k.alpha * (kv - KV_THRESHOLD), 1.0 - KV_THRESHOLD);
    }
  }

  lemma SlotNonNegative(running: real, k: Tuning)
    requires running >= 0.0
    ensures SlotLoad(running, k) >= 0.0
  {
    QuotientNonNegative(running, Capacity(k));
    if k.beta > 0.0 {
      ProductNonNegative(k.beta, Used(running, k));
    }
  }

  lemma LoadNonNegative(m: PodMetrics, maxWaiting: real, k: Tuning)
    requires k.alpha >= 0.0 && m.running >= 0.0 && m.waiting >= 0.0
    ensures Load(m, maxWaiting, k) >= 0.0
  {
    WaitingNonNegative(m.waiting, m.streak, maxWaiting);
    KvNonNegative(m.kv, k);
    SlotNonNegative(m.running, k);
  }

  lemma QuotientNonNegative(a: real, b: real)
    requires a >= 0.0 && b > 0.0
    ensures a / b >= 0.0
  {
  }

  lemma ProductNonNegative(a: real, b: real)
    requires a >= 0.0 && b >= 0.0
    ensures a * b >= 0.0
  {
  }

  function Score(m: PodMetrics, maxWaiting: real, k: Tuning): real {
    if !m.reachable || Load(m, maxWaiting, k) + 1.0 == 0.0 then 0.0 else 1.0 / (Load(m, maxWaiting, k) + 1.0)
  }

  function Scores(ms: seq<PodMetrics>, k: Tuning): (s: seq<real>)
    ensures |s| == |ms|
    ensures forall i | 0 <= i < |ms| :: s[i] == Score(ms[i], MaxWaiting(ms), k)
  {
    seq(|ms|, i requires 0 <= i < |ms| => Score(ms[i], MaxWaiting(ms), k))
  }

  /** A reachable pod scores in (0, 1], an unreachable one scores 0. */
  ghost predicate Scored(ms: seq<PodMetrics>, s: seq<real>) {
    && |s| == |ms|
    && forall i | 0 <= i < |ms| :: if ms[i].reachable then 0.0 < s[i] <= 1.0 else s[i] == 0.0
  }

  lemma ScoreRange(m: PodMetrics, maxWaiting: real, k: Tuning)
    requires k.alpha >= 0.0 && m.running >= 0.0 && m.waiting >= 0.0
    ensures if m.reachable then 0.0 < Score(m, maxWaiting, k) <= 1.0 else Score(m, maxWaiting, k) == 0.0
  {
    LoadNonNegative(m, maxWaiting, k);
  }

  lemma ScoresScored(ms: seq<PodMetrics>, k: Tuning)
    requires Sane(ms, k)
    ensures Scored(ms, Scores(ms, k))
  {
    forall i | 0 <= i < |ms|
      ensures if ms[i].reachable then 0.0 < Scores(ms, k)[i] <= 1.0 else Scores(ms, k)[i] == 0.0
    {
      ScoreRange(ms[i], MaxWaiting(ms), k);
    }
  }

  // ---------- What makes a pod busy ----------

  /** The waiting figures are measured against the longest queue of a reachable pod. */
  lemma {:induction false} MaxWaitingIs(ms: seq<PodMetrics>)
    ensures forall i | 0 <= i < |ms| && ms[i].reachable :: ms[i].waiting <= MaxWaiting(ms)
    ensures MaxWaiting(ms) == 0.0 || exists i :: 0 <= i < |ms| && ms[i].reachable && ms[i].waiting == MaxWaiting(ms)
  {
    if ms != [] {
      var n := |ms| - 1;
      MaxWaitingIs(ms[..n]);
      if MaxWaiting(ms) != 0.0 && MaxWaiting(ms) == MaxWaiting(ms[..n]) {
        var i :| 0 <= i < n && ms[..n][i].reachable && ms[..n][i].waiting == MaxWaiting(ms[..n]);
        assert ms[i] == ms[..n][i];
      }
    }
  }

  /** Figures a pod can have. */
  predicate Plausible(m: PodMetrics, k: Tuning) {
    m.reachable && k.alpha >= 0.0 && m.running >= 0.0 && m.waiting >= 0.0
  }

  lemma Reciprocal(a: real, b: real)
    requires 0.0 < a < b
    ensures 1.0 / b < 1.0 / a
  {
    var x, y := 1.0 / a, 1.0 / b;
    assert x * a == 1.0 && y * b == 1.0;
    assert x * (a * b) == b && y * (a * b) == a;
    assert (x - y) * (a * b) == b - a;
    PositiveFactor(x - y, a * b);
  }

  lemma PositiveFactor(d: real, p: real)
    requires p > 0.0 && d * p > 0.0
    ensures d > 0.0
  {
    if d <= 0.0 {
      ProductNonNegative(0.0 - d, p);
    }
  }

  lemma QuotientGrows(a: real, b: real, c: real)
    requires a < b && c > 0.0
    ensures a / c < b / c
  {
    var x, y := a / c, b / c;
    assert x * c == a && y * c == b;
    if y <= x {
      ProductNonNegative(x - y, c);
    }
  }

  lemma ProductGrows(c: real, a: real, b: real)
    requires c > 0.0 && a < b
    ensures c * a < c * b
  {
  }

  /** Of two reachable pods the one with more load scores strictly less. */
  lemma MoreLoadLessScore(m: PodMetrics, m': PodMetrics, w: real, k: Tuning)
    requires Plausible(m, k) && Plausible(m', k)
    ensures Load(m, w, k) < Load(m', w, k) ==> Score(m', w, k) < Score(m, w, k)
    ensures Load(m, w, k) == Load(m', w, k) ==> Score(m', w, k) == Score(m, w, k)
  {
    LoadNonNegative(m, w, k);
    LoadNonNegative(m', w, k);
    if Load(m, w, k) < Load(m', w, k) {
      Reciprocal(Load(m, w, k) + 1.0, Load(m', w, k) + 1.0);
    }
  }

  lemma KvGrows(kv: real, kv': real, k: Tuning)
    requires kv < kv' && k.alpha >= 0.0
    ensures kv' > 0.75 && k.alpha > 0.0 ==> KvLoad(kv, k) < KvLoad(kv', k)
    ensures kv' <= 0.75 || k.alpha == 0.0 ==> KvLoad(kv, k) == KvLoad(kv', k)
  {
    if kv' > 0.75 && k.alpha > 0.0 {
      var x := if kv > 0.75 then kv - 0.75 else 0.0;
      ProductGrows(k.alpha, x, kv' - 0.75);
      QuotientGrows(k.alpha * x, k.alpha * (kv' - 0.75), 0.25);
    } else if kv' > 0.75 {
      assert k.alpha * (kv' - 0.75) == 0.0 && k.alpha * (kv - 0.75) == 0.0;
    }
  }

  lemma WaitingGrows(waiting: real, waiting': real, streak: nat, w: real)
    requires waiting < waiting'
    ensures streak >= 2 && w > 0.0 ==> WaitingLoad(waiting, streak, w) < WaitingLoad(waiting', streak, w)
    ensures streak < 2 || w <= 0.0 ==> WaitingLoad(waiting, streak, w) == WaitingLoad(waiting', streak, w)
  {
    if w > 0.0 {
      QuotientGrows(waiting, waiting', w);
    }
  }

  lemma SlotGrows(running: real, running': real, k: Tuning)
    requires running < running'
    ensures k.beta > 0.0 && running < Capacity(k) ==> SlotLoad(running, k) < SlotLoad(running', k)
    ensures k.beta <= 0.0 || running >= Capacity(k) ==> SlotLoad(running, k) == SlotLoad(running', k)
  {
    var c := Capacity(k);
    QuotientGrows(running, running', c);
    assert c / c == 1.0;
    if running < c {
      QuotientGrows(running, c, c);
      if k.beta > 0.0 {
        ProductGrows(k.beta, Used(running, k), Used(running', k));
      }
    } else {
      QuotientAtLeast(running, c, 1.0);
    }
  }

  /** KV cache use counts above three quarters and not below. */
  lemma KvCounts(m: PodMetrics, kv: real, w: real, k: Tuning)
    requires Plausible(m, k) && m.kv < kv
    ensures kv > 0.75 && k.alpha > 0.0 ==> Score(m.(kv := kv), w, k) < Score(m, w, k)
    ensures kv <= 0.75 || k.alpha == 0.0 ==> Score(m.(kv := kv), w, k) == Score(m, w, k)
  {
    KvGrows(m.kv, kv, k);
    MoreLoadLessScore(m, m.(kv := kv), w, k);
  }

  /** Waiting requests count once they have been seen in two scrapes running, if any
      pod has some. */
  lemma WaitingCounts(m: PodMetrics, waiting: real, w: real, k: Tuning)
    requires Plausible(m, k) && m.waiting < waiting
    ensures m.streak >= 2 && w > 0.0 ==> Score(m.(waiting := waiting), w, k) < Score(m, w, k)
    ensures m.streak < 2 || w <= 0.0 ==> Score(m.(waiting := waiting), w, k) == Score(m, w, k)
  {
    WaitingGrows(m.waiting, waiting, m.streak, w);
    MoreLoadLessScore(m, m.(waiting := waiting), w, k);
  }

  /** Running requests count up to the capacity of the model, if they are to count at
      all. */
  lemma RunningCounts(m: PodMetrics, running: real, w: real, k: Tuning)
    requires Plausible(m, k) && m.running < running
    ensures k.beta > 0.0 && m.running < Capacity(k) ==> Score(m.(running := running), w, k) < Score(m, w, k)
    ensures k.beta <= 0.0 || m.running >= Capacity(k) ==> Score(m.(running := running), w, k) == Score(m, w, k)
  {
    SlotGrows(m.running, running, k);
    MoreLoadLessScore(m, m.(running := running), w, k);
  }

  /** A capacity that was not set is 256. */
  lemma CapacityIs(k: Tuning)
    ensures Capacity(k) == if k.maxNumSeqs > 0.0 then k.maxNumSeqs else 256.0
  {
  }

  /** At the full: the longest queue costs 1, a full cache alpha, a full pod beta, and
      an idle pod nothing. */
  lemma FullLoad(m: PodMetrics, w: real, k: Tuning)
    requires m.waiting == 0.0 && m.running == 0.0 && m.kv <= 0.75
    ensures Load(m, w, k) == 0.0
    ensures w > 0.0 && m.streak >= 2 ==> Load(m.(waiting := w), w, k) == 1.0
    ensures Load(m.(kv := 1.0), w, k) == k.alpha
    ensures k.beta > 0.0 ==> Load(m.(running := Capacity(k)), w, k) == k.beta
    ensures w > 0.0 && m.streak >= 2 && k.beta > 0.0 ==>
              Load(m.(waiting := w, kv := 1.0, running := Capacity(k)), w, k) == 1.0 + k.alpha + k.beta
  {
    assert Capacity(k) / Capacity(k) == 1.0;
    assert 0.0 / Capacity(k) == 0.0;
    assert k.beta * 0.0 == 0.0 && k.beta * 1.0 == k.beta;
    assert k.alpha * (1.0 - KV_THRESHOLD) / (1.0 - KV_THRESHOLD) == k.alpha;
    if w > 0.0 {
      assert w / w == 1.0 && 0.0 / w == 0.0;
    }
  }

  /** Of two reachable pods the one that scores less gets no more, before one pod is
      adjusted. */
  lemma LessScoreNoMore(ms: seq<PodMetrics>, s: seq<real>, total: real, i: nat, j: nat)
    requires |s| == |ms| && i < |ms| && j < |ms| && ms[i].reachable && ms[j].reachable && s[i] <= s[j]
    ensures Bases(ms, s, total)[i] <= Bases(ms, s, total)[j]
  {
    if total > 0.0 {
      ShareGrows(s[i], s[j], total);
      var x, y := Share(s[i], total), Share(s[j], total);
      assert (x + 0.5).Floor <= (y + 0.5).Floor;
    }
    assert Bases(ms, s, total)[i] == Base(ms[i], s[i], total);
    assert Bases(ms, s, total)[j] == Base(ms[j], s[j], total);
  }

  lemma ShareGrows(a: real, b: real, total: real)
    requires total > 0.0 && a <= b
    ensures Share(a, total) <= Share(b, total)
  {
    if a < b {
      QuotientGrows(100.0 * a, 100.0 * b, total);
    }
  }

  /** At least as busy in each figure, and its queue counted if the other's is. */
  predicate AsBusy(m: PodMetrics, m': PodMetrics) {
    m.running <= m'.running && m.waiting <= m'.waiting && m.kv <= m'.kv && (m.streak >= 2 ==> m'.streak >= 2)
  }

  lemma AsBusyAsLoaded(m: PodMetrics, m': PodMetrics, w: real, k: Tuning)
    requires Plausible(m, k) && Plausible(m', k) && AsBusy(m, m')
    ensures Load(m, w, k) <= Load(m', w, k)
  {
    if m.kv < m'.kv {
      KvGrows(m.kv, m'.kv, k);
    }
    if m.running < m'.running {
      SlotGrows(m.running, m'.running, k);
    }
    if m.waiting < m'.waiting {
      WaitingGrows(m.waiting, m'.waiting, m.streak, w);
    }
    WaitingNonNegative(m'.waiting, m'.streak, w);
  }

  /** So a pod that is at least as busy as another gets no more of the pool. */
  lemma BusierGetsNoMore(ms: seq<PodMetrics>, k: Tuning, i: nat, j: nat)
    requires Sane(ms, k) && i < |ms| && j < |ms| && ms[i].reachable && ms[j].reachable && AsBusy(ms[j], ms[i])
    ensures
      var s := Scores(ms, k);
      s[i] <= s[j] && Bases(ms, s, SumReal(s))[i] <= Bases(ms, s, SumReal(s))[j]
  {
    AsBusyAsLoaded(ms[j], ms[i], MaxWaiting(ms), k);
    MoreLoadLessScore(ms[j], ms[i], MaxWaiting(ms), k);
    LessScoreNoMore(ms, Scores(ms, k), SumReal(Scores(ms, k)), i, j);
  }

  // ---------- Sums ----------

  function SumReal(s: seq<real>): real {
    if s == [] then 0.0 else SumReal(s[..|s| - 1]) + s[|s| - 1]
  }

  function SumNat(s: seq<nat>): nat {
    if s == [] then 0 else SumNat(s[..|s| - 1]) + s[|s| - 1]
  }

  /** The sum without position j. */
  function RestNat(s: seq<nat>, j: nat): nat {
    if s == [] then 0 else RestNat(s[..|s| - 1], j) + if j == |s| - 1 then 0 else s[|s| - 1]
  }

  function RestReal(s: seq<real>, j: nat): real {
    if s == [] then 0.0 else RestReal(s[..|s| - 1], j) + if j == |s| - 1 then 0.0 else s[|s| - 1]
  }

  lemma {:induction false} SumSplit(s: seq<nat>, j: nat)
    ensures SumNat(s) == RestNat(s, j) + if j < |s| then s[j] else 0
  {
    if s != [] {
      SumSplit(s[..|s| - 1], j);
    }
  }

  lemma {:induction false} SumSplitReal(s: seq<real>, j: nat)
    ensures SumReal(s) == RestReal(s, j) + if j < |s| then s[j] else 0.0
  {
    if s != [] {
      SumSplitReal(s[..|s| - 1], j);
    }
  }

  lemma {:induction false} RestUpdate(s: seq<nat>, j: nat, v: nat)
    requires j < |s|
    ensures RestNat(s[j := v], j) == RestNat(s, j)
  {
    var s' := s[j := v];
    if j == |s| - 1 {
      assert s'[..|s| - 1] == s[..|s| - 1];
    } else {
      assert s'[..|s| - 1] == s[..|s| - 1][j := v];
      RestUpdate(s[..|s| - 1], j, v);
    }
  }

  // ---------- Shares and ratios ----------

  /** Go's math.Round on a non-negative number. */
  function Round(x: real): int { (x + 0.5).Floor }

  function Share(score: real, total: real): real
    requires total > 0.0
  {
    100.0 * score / total
  }

  function Clamp(raw: int): (r: nat)
    ensures MIN_RATIO <= r <= MAX_RATIO
  {
    if raw < MIN_RATIO then MIN_RATIO else if raw > MAX_RATIO then MAX_RATIO else raw
  }

  function Base(m: PodMetrics, score: real, total: real): (r: nat)
    ensures MIN_RATIO <= r <= MAX_RATIO
  {
    if !m.reachable || total <= 0.0 then MIN_RATIO else Clamp(Round(Share(score, total)))
  }

  function Bases(ms: seq<PodMetrics>, s: seq<real>, total: real): (b: seq<nat>)
    requires |s| == |ms|
    ensures |b| == |ms|
    ensures forall i | 0 <= i < |ms| :: b[i] == Base(ms[i], s[i], total)
  {
    seq(|ms|, i requires 0 <= i < |ms| => Base(ms[i], s[i], total))
  }

  /** The first pod with the highest score. */
  function ArgMax(s: seq<real>): (j: nat)
    requires s != []
    ensures j < |s| && (forall i | 0 <= i < |s| :: s[i] <= s[j]) && (forall i | 0 <= i < j :: s[i] < s[j])
  {
    if |s| == 1 then 0
    else
      var n := |s| - 1;
      var j := ArgMax(s[..n]);
      assert forall i | 0 <= i < n :: s[..n][i] == s[i];
      if s[n] > s[j] then n else j
  }

  function Adjusted(b: seq<nat>, j: nat): seq<nat>
    requires j < |b|
  {
    var total := SumNat(b);
    if total != 100 && b[j] > MIN_RATIO then
      b[j := if b[j] + 100 - total < MIN_RATIO then MIN_RATIO else b[j] + 100 - total]
    else b
  }

  function Ratios(ms: seq<PodMetrics>, k: Tuning): (r: seq<nat>)
    ensures |r| == |ms|
  {
    if ms == [] then [] else RatiosFrom(ms, Scores(ms, k))
  }

  function RatiosFrom(ms: seq<PodMetrics>, s: seq<real>): (r: seq<nat>)
    requires ms != [] && |s| == |ms|
    ensures |r| == |ms|
  {
    Adjusted(Bases(ms, s, SumReal(s)), ArgMax(s))
  }

  // ---------- The calculator ----------

  method ComputeWeights(ms: seq<PodMetrics>, k: Tuning) returns (weights: seq<WeightedPod>)
    requires Sane(ms, k)
    ensures |weights| == |ms|
    ensures forall i | 0 <= i < |ms| :: weights[i] == WeightedPod(ms[i].ip, Ratios(ms, k)[i])
  {
    if ms == [] {
      return [];
    }
    var maxWaiting := FindMaxWaiting(ms);
    var scores, totalScore := ScorePods(ms, k, maxWaiting);
    ScoresScored(ms, k);
    var ratios, handedOut, best := AssignRatios(ms, scores, totalScore);
    ratios := AdjustBest(ratios, handedOut, best);
    weights := Label(ms, ratios);
  }

  /** The highest-scoring pod absorbs the difference to 100. */
  method AdjustBest(ratios: seq<nat>, handedOut: nat, best: nat) returns (adjusted: seq<nat>)
    requires best < |ratios| && handedOut == SumNat(ratios)
    ensures adjusted == Adjusted(ratios, best)
  {
    adjusted := ratios;
    if handedOut != 100 && ratios[best] > MIN_RATIO {
      var diff := 100 - handedOut;
      var ratio := ratios[best] + diff;
      if ratio < MIN_RATIO {
        ratio := MIN_RATIO;
      }
      adjusted := adjusted[best := ratio];
    }
  }

  function Label(ms: seq<PodMetrics>, ratios: seq<nat>): (w: seq<WeightedPod>)
    requires |ratios| == |ms|
    ensures |w| == |ms| && forall i | 0 <= i < |ms| :: w[i] == WeightedPod(ms[i].ip, ratios[i])
  {
    seq(|ms|, i requires 0 <= i < |ms| => WeightedPod(ms[i].ip, ratios[i]))
  }

  method FindMaxWaiting(ms: seq<PodMetrics>) returns (w: real)
    ensures w == MaxWaiting(ms)
  {
    w := 0.0;
    for i := 0 to |ms|
      invariant w == MaxWaiting(ms[..i])
    {
      assert ms[..i + 1][..i] == ms[..i];
      if ms[i].reachable && ms[i].waiting > w {
        w := ms[i].waiting;
      }
    }
    assert ms[..|ms|] == ms;
  }

  method ScorePod(m: PodMetrics, k: Tuning, maxWaiting: real) returns (score: real)
    requires k.alpha >= 0.0 && m.running >= 0.0 && m.waiting >= 0.0
    ensures score == Score(m, maxWaiting, k)
  {
    if !m.reachable {
      return 0.0;
    }
    var waitingLoad := 0.0;
    if m.streak >= SUSTAINED_SCRAPES && maxWaiting > 0.0 {
      waitingLoad := m.waiting / maxWaiting;
    }
    var kvLoad := 0.0;
    if m.kv > KV_THRESHOLD {
      kvLoad := k.alpha * (m.kv - KV_THRESHOLD) / (1.0 - KV_THRESHOLD);
    }
    var slotLoad := 0.0;
    if k.beta > 0.0 {
      var util := m.running / Capacity(k);
      if util > 1.0 {
        util := 1.0;
      }
      slotLoad := k.beta * util;
    }
    var load := waitingLoad + kvLoad + slotLoad;
    assert load == Load(m, maxWaiting, k);
    LoadNonNegative(m, maxWaiting, k);
    score := 1.0 / (load + 1.0);
  }

  method ScorePods(ms: seq<PodMetrics>, k: Tuning, maxWaiting: real) returns (scores: seq<real>, total: real)
    requires Sane(ms, k) && maxWaiting == MaxWaiting(ms)
    ensures scores == Scores(ms, k) && total == SumReal(scores)
  {
    scores, total := [], 0.0;
    for i := 0 to |ms|
      invariant |scores| == i && forall j | 0 <= j < i :: scores[j] == Score(ms[j], maxWaiting, k)
      invariant total == SumReal(scores)
    {
      var score := ScorePod(ms[i], k, maxWaiting);
      SumSnoc(scores, score);
      scores := scores + [score];
      total := total + score;
    }
  }

  lemma SumSnoc(s: seq<real>, x: real)
    ensures SumReal(s + [x]) == SumReal(s) + x
  {
    assert (s + [x])[..|s|] == s;
  }

  lemma SumSnocNat(s: seq<nat>, x: nat)
    ensures SumNat(s + [x]) == SumNat(s) + x
  {
    assert (s + [x])[..|s|] == s;
  }

  method AssignPod(m: PodMetrics, score: real, total: real) returns (ratio: nat)
    ensures ratio == Base(m, score, total)
  {
    if !m.reachable || total <= 0.0 {
      return MIN_RATIO;
    }
    var raw := Round(Share(score, total));
    if raw < MIN_RATIO {
      raw := MIN_RATIO;
    }
    if raw > MAX_RATIO {
      raw := MAX_RATIO;
    }
    ratio := raw;
  }

  /** Skipping the unreachable pods does not change who scores highest. */
  lemma BestStep(ms: seq<PodMetrics>, s: seq<real>, i: nat, best: nat)
    requires Scored(ms, s) && i < |ms| && best < |ms|
    requires if i == 0 then best == 0 else best == ArgMax(s[..i])
    ensures ArgMax(s[..i + 1]) == if ms[i].reachable && SumReal(s) > 0.0 && s[i] > s[best] then i else best
  {
    if ms[i].reachable {
      ReachableCounts(ms, i);
      TotalPositive(ms, s);
    }
    if i > 0 {
      assert s[..i + 1][..i] == s[..i];
      assert s[..i][best] == s[best];
    }
  }

  function BestUpTo(ms: seq<PodMetrics>, s: seq<real>, total: real, i: nat): (best: nat)
    requires |s| == |ms| && i <= |ms|
    ensures best == 0 || best < i
  {
    if i == 0 then 0
    else
      var best := BestUpTo(ms, s, total, i - 1);
      if ms[i - 1].reachable && total > 0.0 && s[i - 1] > s[best] then i - 1 else best
  }

  lemma {:induction false} BestIsArgMax(ms: seq<PodMetrics>, s: seq<real>, i: nat)
    requires Scored(ms, s) && 1 <= i <= |ms|
    ensures s[..i] != [] && BestUpTo(ms, s, SumReal(s), i) == ArgMax(s[..i])
    ensures i == |ms| ==> s[..i] == s
  {
    if i > 1 {
      BestIsArgMax(ms, s, i - 1);
    }
    BestStep(ms, s, i - 1, BestUpTo(ms, s, SumReal(s), i - 1));
  }

  method AssignRatios(ms: seq<PodMetrics>, s: seq<real>, total: real)
    returns (ratios: seq<nat>, handedOut: nat, best: nat)
    requires ms != [] && Scored(ms, s) && total == SumReal(s)
    ensures ratios == Bases(ms, s, total) && handedOut == SumNat(ratios) && best == ArgMax(s)
  {
    ratios, handedOut, best := [], 0, 0;
    ghost var bases := Bases(ms, s, total);
    for i := 0 to |ms|
      invariant ratios == bases[..i]
      invariant handedOut == SumNat(ratios)
      invariant best < |ms| && best == BestUpTo(ms, s, total, i)
    {
      var ratio := AssignPod(ms[i], s[i], total);
      if ms[i].reachable && total > 0.0 && s[i] > s[best] {
        best := i;
      }
      SumSnocNat(ratios, ratio);
      assert ratio == bases[i] && bases[..i + 1] == bases[..i] + [bases[i]];
      ratios := ratios + [ratio];
      handedOut := handedOut + ratio;
    }
    BestIsArgMax(ms, s, |ms|);
  }

  // ---------- Totals ----------

  function ReachableCount(ms: seq<PodMetrics>): nat {
    if ms == [] then 0 else ReachableCount(ms[..|ms| - 1]) + if ms[|ms| - 1].reachable then 1 else 0
  }

  lemma {:induction false} ReachableCounts(ms: seq<PodMetrics>, i: nat)
    requires i < |ms| && ms[i].reachable
    ensures ReachableCount(ms) > 0
  {
    if i < |ms| - 1 {
      ReachableCounts(ms[..|ms| - 1], i);
    }
  }

  /** The total of the scores lies between 0 and the number of reachable pods times
      any bound on a score. */
  lemma {:induction false} TotalBounds(ms: seq<PodMetrics>, s: seq<real>, top: real)
    requires Scored(ms, s) && forall i | 0 <= i < |s| :: s[i] <= top
    ensures 0.0 <= SumReal(s) <= Times(ReachableCount(ms), top)
    ensures ReachableCount(ms) > 0 ==> SumReal(s) > 0.0
  {
    if ms != [] {
      var n := |ms| - 1;
      TotalBounds(ms[..n], s[..n], top);
      AddOne(ReachableCount(ms[..n]), top);
      assert SumReal(s) == SumReal(s[..n]) + s[n];
    }
  }

  lemma AddOne(r: nat, top: real)
    ensures Times(r + 1, top) == Times(r, top) + top
  {
  }

  lemma TotalPositive(ms: seq<PodMetrics>, s: seq<real>)
    requires Scored(ms, s)
    ensures SumReal(s) >= 0.0
    ensures ReachableCount(ms) > 0 ==> SumReal(s) > 0.0
  {
    TotalBounds(ms, s, 1.0);
  }

  // ---------- What the ratios promise ----------

  ghost predicate InRange(b: seq<nat>) {
    forall i | 0 <= i < |b| :: MIN_RATIO <= b[i] <= MAX_RATIO
  }

  lemma BasesInRange(ms: seq<PodMetrics>, s: seq<real>, total: real)
    requires |s| == |ms|
    ensures InRange(Bases(ms, s, total))
  {
    forall i | 0 <= i < |ms| ensures MIN_RATIO <= Bases(ms, s, total)[i] <= MAX_RATIO {
      assert Bases(ms, s, total)[i] == Base(ms[i], s[i], total);
    }
  }

  /** Whatever the pool looks like, every ratio is one the load balancer accepts. */
  lemma RatiosInRange(ms: seq<PodMetrics>, s: seq<real>)
    requires ms != [] && |s| == |ms|
    ensures InRange(RatiosFrom(ms, s))
  {
    var b, j := Bases(ms, s, SumReal(s)), ArgMax(s);
    BasesInRange(ms, s, SumReal(s));
    SumSplit(b, j);
  }

  /** The total comes out at 100 exactly when it already did, or the adjusted pod has
      a ratio to give and the others leave it at least 1. */
  lemma TotalIs100(b: seq<nat>, j: nat)
    requires j < |b|
    ensures SumNat(Adjusted(b, j)) == 100 <==>
              SumNat(b) == 100 || (b[j] > MIN_RATIO && RestNat(b, j) < 100)
  {
    SumSplit(b, j);
    if SumNat(b) != 100 && b[j] > MIN_RATIO {
      var v := Adjusted(b, j)[j];
      RestUpdate(b, j, v);
      SumSplit(Adjusted(b, j), j);
      assert Adjusted(b, j) == b[j := v];
    }
  }

  /** For the ratios the calculator computes: the rounded shares already make up 100,
      or the highest scorer's share is at least 1.5 and the other pods leave it
      something. With no pod reachable the pool has to have exactly 100. */
  lemma TotalExactly(ms: seq<PodMetrics>, k: Tuning)
    requires ms != [] && Sane(ms, k)
    ensures
      var s := Scores(ms, k);
      var total, j := SumReal(s), ArgMax(s);
      var b := Bases(ms, s, total);
      && (ReachableCount(ms) > 0 <==> total > 0.0)
      && (SumNat(Ratios(ms, k)) == 100 <==>
            SumNat(b) == 100 || (total > 0.0 && Share(s[j], total) >= 1.5 && RestNat(b, j) < 100))
  {
    var s := Scores(ms, k);
    var total, j := SumReal(s), ArgMax(s);
    var b := Bases(ms, s, total);
    ScoresScored(ms, k);
    TotalPositive(ms, s);
    if ReachableCount(ms) == 0 {
      NoneReachable(ms, s);
    }
    TotalIs100(b, j);
    assert b[j] == Base(ms[j], s[j], total);
    if total > 0.0 {
      TopIsReachable(ms, s, j);
      RoundAbove(Share(s[j], total));
    }
  }

  lemma RoundAbove(x: real)
    ensures Round(x) > 1 <==> x >= 1.5
  {
  }

  lemma TopIsReachable(ms: seq<PodMetrics>, s: seq<real>, j: nat)
    requires Scored(ms, s) && SumReal(s) > 0.0 && j < |s| && forall i | 0 <= i < |s| :: s[i] <= s[j]
    ensures ms[j].reachable
  {
    if !ms[j].reachable {
      NothingScored(s);
    }
  }

  lemma {:induction false} NothingScored(s: seq<real>)
    requires forall i | 0 <= i < |s| :: s[i] <= 0.0
    ensures SumReal(s) <= 0.0
  {
    if s != [] {
      NothingScored(s[..|s| - 1]);
    }
  }

  lemma NoneReachable(ms: seq<PodMetrics>, s: seq<real>)
    requires Scored(ms, s) && ReachableCount(ms) == 0
    ensures SumReal(s) <= 0.0
  {
    forall i | 0 <= i < |ms| ensures s[i] <= 0.0 {
      if ms[i].reachable {
        ReachableCounts(ms, i);
      }
    }
    NothingScored(s);
  }

  lemma {:induction false} SumAtLeastCount(b: seq<nat>)
    requires InRange(b)
    ensures SumNat(b) >= |b|
  {
    if b != [] {
      SumAtLeastCount(b[..|b| - 1]);
    }
  }

  lemma {:induction false} SumOfOnes(b: seq<nat>)
    requires forall i | 0 <= i < |b| :: b[i] == 1
    ensures SumNat(b) == |b|
  {
    if b != [] {
      SumOfOnes(b[..|b| - 1]);
    }
  }

  /** The claim that ratios always sum to 100 fails for a pool of more than 100 pods,
      and for a pool with no reachable pod unless it has exactly 100 of them. */
  lemma TotalsOff(ms: seq<PodMetrics>, s: seq<real>)
    requires ms != [] && Scored(ms, s)
    ensures |ms| > 100 ==> SumNat(RatiosFrom(ms, s)) > 100
    ensures (forall i | 0 <= i < |ms| :: !ms[i].reachable) ==> SumNat(RatiosFrom(ms, s)) == |ms|
  {
    RatiosInRange(ms, s);
    SumAtLeastCount(RatiosFrom(ms, s));
    if forall i | 0 <= i < |ms| :: !ms[i].reachable {
      var b := Bases(ms, s, SumReal(s));
      forall i | 0 <= i < |ms| ensures b[i] == 1 {
        assert b[i] == Base(ms[i], s[i], SumReal(s));
      }
      SumOfOnes(b);
    }
  }

  // ---------- Closeness to the proportional share ----------

  lemma RoundNear(x: real)
    ensures x - 0.5 <= Round(x) as real <= x + 0.5
  {
  }

  /** A reachable pod is within 1 of its share before any adjustment, an unreachable
      one has ratio 1 and share 0. */
  lemma BaseNearShare(m: PodMetrics, score: real, total: real)
    requires total > 0.0 && 0.0 <= score <= total && (m.reachable <==> score > 0.0)
    ensures Share(score, total) - 1.0 <= Base(m, score, total) as real <= Share(score, total) + 1.0
    ensures Share(score, total) - 0.5 <= Base(m, score, total) as real
  {
    var x := Share(score, total);
    ShareRange(score, total);
    RoundNear(x);
  }

  lemma ShareRange(score: real, total: real)
    requires total > 0.0 && 0.0 <= score <= total
    ensures 0.0 <= Share(score, total) <= 100.0
  {
    var a := 100.0 * score;
    assert a <= 100.0 * total;
    QuotientAtMost(a, total, 100.0);
    QuotientNonNegative(a, total);
  }

  lemma QuotientAtMost(a: real, b: real, c: real)
    requires b > 0.0 && a <= c * b
    ensures a / b <= c
  {
    var q := a / b;
    assert q * b == a;
    if q > c {
      assert (q - c) * b > 0.0;
    }
  }

  lemma QuotientAtLeast(a: real, b: real, c: real)
    requires b > 0.0 && a >= c * b
    ensures a / b >= c
  {
    var q := a / b;
    assert q * b == a;
    if q < c {
      assert (c - q) * b > 0.0;
    }
  }

  function Shares(s: seq<real>, total: real): (x: seq<real>)
    requires total > 0.0
    ensures |x| == |s| && forall i | 0 <= i < |s| :: x[i] == Share(s[i], total)
  {
    seq(|s|, i requires 0 <= i < |s| => Share(s[i], total))
  }

  lemma {:induction false} SharesSum(s: seq<real>, total: real)
    requires total > 0.0
    ensures SumReal(Shares(s, total)) == Share(SumReal(s), total)
  {
    if s != [] {
      var n := |s| - 1;
      SharesSum(s[..n], total);
      assert Shares(s, total)[..n] == Shares(s[..n], total);
      ShareAdds(SumReal(s[..n]), s[n], total);
    }
  }

  lemma ShareAdds(a: real, b: real, total: real)
    requires total > 0.0
    ensures Share(a + b, total) == Share(a, total) + Share(b, total)
  {
  }

  /** Leaving one position out, bases and shares drift apart by at most 1 a pod. */
  lemma {:induction false} RestDrift(b: seq<nat>, x: seq<real>, j: nat)
    requires |b| == |x|
    requires forall i | 0 <= i < |b| :: x[i] - 1.0 <= b[i] as real <= x[i] + 1.0
    ensures
      var others := |b| - if j < |b| then 1 else 0;
      RestReal(x, j) - others as real <= RestNat(b, j) as real <= RestReal(x, j) + others as real
  {
    if b != [] {
      RestDrift(b[..|b| - 1], x[..|b| - 1], j);
    }
  }

  lemma {:induction false} ScoreAtMostTotal(ms: seq<PodMetrics>, s: seq<real>, i: nat)
    requires Scored(ms, s) && i < |s|
    ensures s[i] <= SumReal(s)
  {
    var n := |s| - 1;
    if i < n {
      ScoreAtMostTotal(ms[..n], s[..n], i);
    } else {
      TotalPositive(ms[..n], s[..n]);
    }
  }

  /** The highest scorer's share is at least the pool size when the pool is small. */
  lemma TopShare(ms: seq<PodMetrics>, s: seq<real>, j: nat, r: nat)
    requires Scored(ms, s) && j < |s| && r == ReachableCount(ms) && r >= 1
    requires forall i | 0 <= i < |s| :: s[i] <= s[j]
    ensures 0.0 < SumReal(s) <= Times(r, s[j])
  {
    TotalBounds(ms, s, s[j]);
  }

  lemma TopShareOf(top: real, total: real, r: nat, n: nat)
    requires total > 0.0 && total <= Times(r, top) && SmallEnough(r, n)
    ensures Share(top, total) >= n as real
  {
    RealProduct(r, n);
    TopShareArithmetic(top, total, r as real, n as real);
  }

  function Times(r: nat, x: real): real { r as real * x }

  lemma RealProduct(a: nat, b: nat)
    ensures (a * b) as real == a as real * b as real
  {
  }

  lemma TopShareArithmetic(top: real, total: real, r: real, n: real)
    requires total > 0.0 && total <= r * top && n >= 0.0 && r > 0.0 && r * n <= 100.0
    ensures 100.0 * top / total >= n
  {
    assert top > 0.0 by {
      if top <= 0.0 {
        ProductNonNegative(r, 0.0 - top);
      }
    }
    assert n * total <= n * (r * top) by { ProductNonNegative(n, r * top - total); }
    assert n * (r * top) == (r * n) * top;
    assert (r * n) * top <= 100.0 * top by { ProductNonNegative(100.0 - r * n, top); }
    QuotientAtLeast(100.0 * top, total, n);
  }

  /** A pool with a reachable pod, small enough for every pod to get its due. */
  predicate SmallEnough(reachable: nat, total: nat) { reachable >= 1 && reachable * total <= 100 }

  lemma BasesNear(ms: seq<PodMetrics>, s: seq<real>, total: real)
    requires Scored(ms, s) && total > 0.0 && total == SumReal(s)
    ensures forall i | 0 <= i < |ms| ::
              Shares(s, total)[i] - 1.0 <= Bases(ms, s, total)[i] as real <= Shares(s, total)[i] + 1.0
    ensures forall i | 0 <= i < |ms| :: Shares(s, total)[i] - 0.5 <= Bases(ms, s, total)[i] as real
  {
    forall i | 0 <= i < |ms|
      ensures Shares(s, total)[i] - 1.0 <= Bases(ms, s, total)[i] as real <= Shares(s, total)[i] + 1.0
      ensures Shares(s, total)[i] - 0.5 <= Bases(ms, s, total)[i] as real
    {
      ScoreAtMostTotal(ms, s, i);
      BaseNearShare(ms[i], s[i], total);
      assert Bases(ms, s, total)[i] == Base(ms[i], s[i], total);
    }
  }

  lemma SharesMakeUp100(s: seq<real>, total: real)
    requires total > 0.0 && total == SumReal(s)
    ensures SumReal(Shares(s, total)) == 100.0
  {
    SharesSum(s, total);
    ShareOfAll(total);
  }

  lemma AdjustedNear(b: seq<nat>, x: seq<real>, j: nat)
    requires |b| == |x| && j < |b| && SumReal(x) == 100.0 && x[j] >= |b| as real && InRangeAt(b, j)
    requires forall i | 0 <= i < |b| :: x[i] - 1.0 <= b[i] as real <= x[i] + 1.0
    requires x[j] - 0.5 <= b[j] as real
    ensures SumNat(Adjusted(b, j)) == 100
    ensures forall i | 0 <= i < |b| && i != j :: x[i] - 1.0 <= Adjusted(b, j)[i] as real <= x[i] + 1.0
    ensures x[j] - (|b| - 1) as real <= Adjusted(b, j)[j] as real <= x[j] + (|b| - 1) as real
  {
    RestDrift(b, x, j);
    SumSplit(b, j);
    SumSplitReal(x, j);
    TotalIs100(b, j);
    SmallPool(b, x, j);
  }

  /** The ratios r are as promised for the proportional shares x, pod j adjusted. */
  ghost predicate Proportional(r: seq<nat>, x: seq<real>, j: nat) {
    && |r| == |x| && j < |r|
    && SumNat(r) == 100
    && (forall i | 0 <= i < |r| && i != j :: x[i] - 1.0 <= r[i] as real <= x[i] + 1.0)
    && x[j] - (|r| - 1) as real <= r[j] as real <= x[j] + (|r| - 1) as real
  }

  /** In a pool with a reachable pod and reachable * total <= 100, the ratios sum to
      exactly 100; every pod but the highest scorer is within 1 of its proportional
      share, and the highest scorer within total - 1 of its own. */
  lemma RatiosProportional(ms: seq<PodMetrics>, s: seq<real>)
    requires ms != [] && Scored(ms, s) && SmallEnough(ReachableCount(ms), |ms|)
    ensures SumReal(s) > 0.0
    ensures Proportional(RatiosFrom(ms, s), Shares(s, SumReal(s)), ArgMax(s))
  {
    var j := ArgMax(s);
    TopShare(ms, s, j, ReachableCount(ms));
    var total := SumReal(s);
    TopShareOf(s[j], total, ReachableCount(ms), |ms|);
    BasesNear(ms, s, total);
    BasesInRange(ms, s, total);
    SharesMakeUp100(s, total);
    AdjustedNear(Bases(ms, s, total), Shares(s, total), j);
  }

  lemma ShareOfAll(total: real)
    requires total > 0.0
    ensures Share(total, total) == 100.0
  {
  }

  lemma SmallPool(b: seq<nat>, x: seq<real>, j: nat)
    requires |b| == |x| && j < |b| && SumReal(x) == 100.0 && x[j] >= |b| as real
    requires InRangeAt(b, j) && SumNat(b) == RestNat(b, j) + b[j] && SumReal(x) == RestReal(x, j) + x[j]
    requires x[j] - 0.5 <= b[j] as real <= x[j] + 1.0
    requires RestReal(x, j) - (|b| - 1) as real <= RestNat(b, j) as real <= RestReal(x, j) + (|b| - 1) as real
    ensures SumNat(b) == 100 || (b[j] > MIN_RATIO && RestNat(b, j) < 100)
    ensures x[j] - (|b| - 1) as real <= Adjusted(b, j)[j] as real <= x[j] + (|b| - 1) as real
  {
    if |b| == 1 {
      assert x[..0] == [] && b[..0] == [];
      assert RestReal(x, j) == RestReal(x[..0], j) && RestNat(b, j) == RestNat(b[..0], j);
      assert b[j] == 100;
    }
  }

  predicate InRangeAt(b: seq<nat>, j: nat) {
    j < |b| ==> MIN_RATIO <= b[j] <= MAX_RATIO
  }

  /** The calculator's promise for any pool with sane metrics. */
  lemma WeightsPromise(ms: seq<PodMetrics>, k: Tuning)
    requires ms != [] && Sane(ms, k)
    ensures InRange(Ratios(ms, k))
    ensures SmallEnough(ReachableCount(ms), |ms|) ==>
              && SumReal(Scores(ms, k)) > 0.0
              && Proportional(Ratios(ms, k), Shares(Scores(ms, k), SumReal(Scores(ms, k))), ArgMax(Scores(ms, k)))
  {
    ScoresScored(ms, k);
    RatiosInRange(ms, Scores(ms, k));
    if SmallEnough(ReachableCount(ms), |ms|) {
      RatiosProportional(ms, Scores(ms, k));
    }
  }
}
