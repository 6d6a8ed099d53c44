/** The scrape loop of one pool: each tick scrapes every pod, keeps a streak per
    pod, computes weights, and passes them on only when they changed. */
module ScrapeLoop {
  import opened Text
  import opened InferenceWeights

  // ---------- The weight store ----------

  function ToMap(ws: seq<WeightedPod>): map<string, nat> {
    if ws == [] then map[] else ToMap(ws[..|ws| - 1])[ws[|ws| - 1].ip := ws[|ws| - 1].ratio]
  }

  class WeightStore {
    var store: map<string, map<string, nat>>

    constructor ()
      ensures store == map[]
    {
      store := map[];
    }

    method Set(pool: string, weights: seq<WeightedPod>)
      modifies this
      ensures store == old(store)[pool := ToMap(weights)]
    {
      var m: map<string, nat> := map[];
      for i := 0 to |weights|
        invariant m == ToMap(weights[..i])
      {
        assert weights[..i + 1][..i] == weights[..i];
        m := m[weights[i].ip := weights[i].ratio];
      }
      assert weights[..|weights|] == weights;
      store := store[pool := m];
    }

    method GetRatio(pool: string, ip: string) returns (ratio: nat)
      ensures ratio == if pool in store && ip in store[pool] then store[pool][ip] else 1
    {
      if pool in store {
        if ip in store[pool] {
          return store[pool][ip];
        }
      }
      ratio := 1;
    }

    method Delete(pool: string)
      modifies this
      ensures store == old(store) - {pool}
    {
      store := store - {pool};
    }
  }

  method WeightsEqual(a: seq<WeightedPod>, b: seq<WeightedPod>) returns (equal: bool)
    ensures equal <==> a == b
  {
    if |a| != |b| {
      return false;
    }
    for i := 0 to |a|
      invariant a[..i] == b[..i]
    {
      if a[i].ip != b[i].ip || a[i].ratio != b[i].ratio {
        assert a[i] != b[i];
        return false;
      }
      assert a[..i + 1] == a[..i] + [a[i]] && b[..i + 1] == b[..i] + [b[i]];
    }
    assert a[..|a|] == a && b[..|b|] == b;
    equal := true;
  }

  // ---------- One tick ----------

  datatype Scrape = Unreachable | Reached(running: real, waiting: real, kv: real)

  datatype Cycle = Cycle(pods: seq<string>, scrapes: seq<Scrape>)

  ghost predicate WellFormed(r: Cycle) {
    && |r.scrapes| == |r.pods|
    && (forall i, j | 0 <= i < j < |r.pods| :: r.pods[i] != r.pods[j])
    && (forall i | 0 <= i < |r.scrapes| ::
          r.scrapes[i].Reached? ==> r.scrapes[i].running >= 0.0 && r.scrapes[i].waiting >= 0.0)
  }

  /** Loop state: the streak of each pod, what was last passed on, what the store
      holds for this pool. */
  datatype Pool = Pool(streaks: map<string, nat>, last: seq<WeightedPod>, stored: Option<map<string, nat>>)

  function StreakOf(streaks: map<string, nat>, ip: string): nat {
    if ip in streaks then streaks[ip] else 0
  }

  function Metrics(streaks: map<string, nat>, ip: string, s: Scrape): PodMetrics {
    match s
    case Unreachable => PodMetrics(ip, 0.0, 0.0, 0.0, 0, false)
    case Reached(running, waiting, kv) =>
      PodMetrics(ip, running, waiting, kv, if waiting > 0.0 then StreakOf(streaks, ip) + 1 else 0, true)
  }

  function AllMetrics(streaks: map<string, nat>, r: Cycle): (ms: seq<PodMetrics>)
    requires |r.scrapes| == |r.pods|
    ensures |ms| == |r.pods|
    ensures forall i | 0 <= i < |ms| :: ms[i] == Metrics(streaks, r.pods[i], r.scrapes[i])
  {
    seq(|r.pods|, i requires 0 <= i < |r.pods| => Metrics(streaks, r.pods[i], r.scrapes[i]))
  }

  /** Only reachable pods leave a new snapshot. */
  function NewStreaks(streaks: map<string, nat>, ms: seq<PodMetrics>): map<string, nat> {
    if ms == [] then streaks
    else
      var m := ms[|ms| - 1];
      var before := NewStreaks(streaks, ms[..|ms| - 1]);
      if m.reachable then before[m.ip := m.streak] else before
  }

  function WeightsOf(ms: seq<PodMetrics>, k: Tuning): seq<WeightedPod> { Label(ms, Ratios(ms, k)) }

  function Tick(p: Pool, r: Cycle, k: Tuning): Pool
    requires |r.scrapes| == |r.pods|
  {
    if r.pods == [] then p
    else
      var ms := AllMetrics(p.streaks, r);
      var weights := WeightsOf(ms, k);
      if weights == p.last then p.(streaks := NewStreaks(p.streaks, ms))
      else Pool(NewStreaks(p.streaks, ms), weights, Some(ToMap(weights)))
  }

  class Scraper {
    const name: string
    const weights: WeightStore
    const tuning: Tuning
    var streaks: map<string, nat>
    var last: seq<WeightedPod>

    constructor (name: string, weights: WeightStore, tuning: Tuning)
      ensures this.name == name && this.weights == weights && this.tuning == tuning
      ensures streaks == map[] && last == []
    {
      this.name, this.weights, this.tuning := name, weights, tuning;
      streaks, last := map[], [];
    }

    ghost function Now(): Pool
      reads this, weights
    {
      Pool(streaks, last, if name in weights.store then Some(weights.store[name]) else None)
    }

    method ScrapeTick(r: Cycle)
      requires WellFormed(r) && tuning.alpha >= 0.0
      modifies this, weights
      ensures Now() == Tick(old(Now()), r, tuning)
    {
      if |r.pods| == 0 {
        return;
      }
      var ms := AllMetrics(streaks, r);
      streaks := PersistSnapshots(streaks, ms);
      assert Sane(ms, tuning);
      var computed := ComputeWeights(ms, tuning);
      assert computed == WeightsOf(ms, tuning);
      var same := WeightsEqual(computed, last);
      if !same {
        last := computed;
        weights.Set(name, computed);
      }
    }
  }

  method PersistSnapshots(streaks: map<string, nat>, ms: seq<PodMetrics>) returns (merged: map<string, nat>)
    ensures merged == NewStreaks(streaks, ms)
  {
    merged := streaks;
    for i := 0 to |ms|
      invariant merged == NewStreaks(streaks, ms[..i])
    {
      assert ms[..i + 1][..i] == ms[..i];
      if ms[i].reachable {
        merged := merged[ms[i].ip := ms[i].streak];
      }
    }
    assert ms[..|ms|] == ms;
  }

  // ---------- Any number of ticks ----------

  predicate Shaped(cycles: seq<Cycle>) {
    forall i | 0 <= i < |cycles| :: |cycles[i].scrapes| == |cycles[i].pods|
  }

  function Run(p: Pool, cycles: seq<Cycle>, k: Tuning): Pool
    requires Shaped(cycles)
  {
    if cycles == [] then p else Tick(Run(p, cycles[..|cycles| - 1], k), cycles[|cycles| - 1], k)
  }

  const START := Pool(map[], [], None)

  ghost predicate InStep(p: Pool) {
    p.last != [] ==> p.stored == Some(ToMap(p.last))
  }

  /** Suppressing unchanged updates is invisible in the store: after any tick that
      scraped a pod, the store holds that tick's weights. */
  lemma {:induction false} StoreIsCurrent(cycles: seq<Cycle>, k: Tuning)
    requires Shaped(cycles)
    ensures InStep(Run(START, cycles, k))
    ensures cycles != [] && cycles[|cycles| - 1].pods != [] ==>
              var before := Run(START, cycles[..|cycles| - 1], k);
              var weights := WeightsOf(AllMetrics(before.streaks, cycles[|cycles| - 1]), k);
              Run(START, cycles, k).stored == Some(ToMap(weights))
  {
    if cycles != [] {
      StoreIsCurrent(cycles[..|cycles| - 1], k);
    }
  }

  // ---------- Streaks ----------

  /** The waiting figures of a pod's reachable scrapes so far. */
  function Seen(cycles: seq<Cycle>, ip: string): seq<real>
    requires Shaped(cycles)
  {
    if cycles == [] then []
    else Seen(cycles[..|cycles| - 1], ip) + SeenIn(cycles[|cycles| - 1], |cycles[|cycles| - 1].pods|, ip)
  }

  function SeenIn(r: Cycle, n: nat, ip: string): seq<real>
    requires |r.scrapes| == |r.pods| && n <= |r.pods|
  {
    if n == 0 then []
    else
      SeenIn(r, n - 1, ip) + if r.pods[n - 1] == ip then Figure(r.scrapes[n - 1]) else []
  }

  /** Length of the longest run of positive figures that ends the history. */
  function TrailingRun(h: seq<real>): (k: nat)
    ensures k <= |h|
    ensures forall i | |h| - k <= i < |h| :: h[i] > 0.0
    ensures k < |h| ==> h[|h| - k - 1] <= 0.0
  {
    if h == [] || h[|h| - 1] <= 0.0 then 0
    else
      var k := TrailingRun(h[..|h| - 1]);
      assert forall i | 0 <= i < |h| - 1 :: h[..|h| - 1][i] == h[i];
      1 + k
  }

  /** What one pod's scrape adds to its history. */
  function Figure(s: Scrape): seq<real> { if s.Reached? then [s.waiting] else [] }

  /** A round adds at most one figure to a pod's history: its own. */
  lemma {:induction false} SeenAt(r: Cycle, n: nat, ip: string, j: nat)
    requires |r.scrapes| == |r.pods| && j < n <= |r.pods| && r.pods[j] == ip
    requires forall i | 0 <= i < n && i != j :: r.pods[i] != ip
    ensures SeenIn(r, n, ip) == Figure(r.scrapes[j])
  {
    if n - 1 == j {
      SeenNowhere(r, j, ip);
      SeenNext(r, j, ip, [], Figure(r.scrapes[j]));
    } else {
      SeenAt(r, n - 1, ip, j);
      SeenNext(r, n - 1, ip, Figure(r.scrapes[j]), []);
    }
  }

  lemma SeenNext(r: Cycle, n: nat, ip: string, before: seq<real>, more: seq<real>)
    requires |r.scrapes| == |r.pods| && n < |r.pods| && SeenIn(r, n, ip) == before
    requires more == if r.pods[n] == ip then Figure(r.scrapes[n]) else []
    requires before == [] || more == []
    ensures SeenIn(r, n + 1, ip) == if before == [] then more else before
  {
  }

  lemma {:induction false} SeenNowhere(r: Cycle, n: nat, ip: string)
    requires |r.scrapes| == |r.pods| && n <= |r.pods| && forall i | 0 <= i < n :: r.pods[i] != ip
    ensures SeenIn(r, n, ip) == []
  {
    if n > 0 {
      SeenNowhere(r, n - 1, ip);
    }
  }

  lemma StreaksNext(streaks: map<string, nat>, ms: seq<PodMetrics>, n: nat)
    requires n < |ms|
    ensures
      var before := NewStreaks(streaks, ms[..n]);
      NewStreaks(streaks, ms[..n + 1]) == if ms[n].reachable then before[ms[n].ip := ms[n].streak] else before
  {
    assert ms[..n + 1][..n] == ms[..n];
  }

  /** Metrics of other pods do not count. */
  lemma {:induction false} StreakElsewhere(streaks: map<string, nat>, ms: seq<PodMetrics>, n: nat, ip: string)
    requires n <= |ms| && forall i | 0 <= i < n :: ms[i].ip != ip
    ensures StreakOf(NewStreaks(streaks, ms[..n]), ip) == StreakOf(streaks, ip)
  {
    if n > 0 {
      StreakElsewhere(streaks, ms, n - 1, ip);
      StreaksNext(streaks, ms, n - 1);
    }
  }

  lemma {:induction false} StreakAt(streaks: map<string, nat>, ms: seq<PodMetrics>, n: nat, j: nat)
    requires j < n <= |ms| && forall i | 0 <= i < n && i != j :: ms[i].ip != ms[j].ip
    ensures StreakOf(NewStreaks(streaks, ms[..n]), ms[j].ip)
              == if ms[j].reachable then ms[j].streak else StreakOf(streaks, ms[j].ip)
  {
    StreaksNext(streaks, ms, n - 1);
    if j == n - 1 {
      StreakElsewhere(streaks, ms, j, ms[j].ip);
    } else {
      StreakAt(streaks, ms, n - 1, j);
    }
  }

  lemma TrailingStep(h: seq<real>, x: real)
    ensures TrailingRun(h + [x]) == if x > 0.0 then TrailingRun(h) + 1 else 0
  {
    assert (h + [x])[..|h|] == h;
  }

  lemma CycleStreak(p: Pool, r: Cycle, k: Tuning, ip: string, h: seq<real>)
    requires WellFormed(r) && StreakOf(p.streaks, ip) == TrailingRun(h)
    ensures StreakOf(Tick(p, r, k).streaks, ip) == TrailingRun(h + SeenIn(r, |r.pods|, ip))
  {
    TickStreaks(p, r, k);
    if ip in r.pods {
      var j :| 0 <= j < |r.pods| && r.pods[j] == ip;
      ScrapedStreak(p.streaks, r, ip, j, h);
    } else {
      AbsentStreak(p.streaks, r, ip, h);
    }
  }

  lemma AbsentStreak(streaks: map<string, nat>, r: Cycle, ip: string, h: seq<real>)
    requires WellFormed(r) && ip !in r.pods && StreakOf(streaks, ip) == TrailingRun(h)
    ensures StreakOf(NewStreaks(streaks, AllMetrics(streaks, r)), ip) == TrailingRun(h + SeenIn(r, |r.pods|, ip))
  {
    StreakOfAbsent(streaks, r, ip);
    assert forall i | 0 <= i < |r.pods| :: r.pods[i] in r.pods;
    SeenNowhere(r, |r.pods|, ip);
    assert h + [] == h;
  }

  lemma OthersDiffer(r: Cycle, j: nat)
    requires WellFormed(r) && j < |r.pods|
    ensures forall i | 0 <= i < |r.pods| && i != j :: r.pods[i] != r.pods[j]
  {
  }

  lemma ScrapedStreak(streaks: map<string, nat>, r: Cycle, ip: string, j: nat, h: seq<real>)
    requires WellFormed(r) && j < |r.pods| && r.pods[j] == ip && StreakOf(streaks, ip) == TrailingRun(h)
    ensures StreakOf(NewStreaks(streaks, AllMetrics(streaks, r)), ip) == TrailingRun(h + SeenIn(r, |r.pods|, ip))
  {
    StreakOfScraped(streaks, r, ip, j);
    OthersDiffer(r, j);
    SeenAt(r, |r.pods|, ip, j);
    if r.scrapes[j].Reached? {
      TrailingStep(h, r.scrapes[j].waiting);
    } else {
      assert h + [] == h;
    }
  }

  lemma TickStreaks(p: Pool, r: Cycle, k: Tuning)
    requires |r.scrapes| == |r.pods|
    ensures Tick(p, r, k).streaks == NewStreaks(p.streaks, AllMetrics(p.streaks, r))
  {
  }

  lemma StreakOfScraped(streaks: map<string, nat>, r: Cycle, ip: string, j: nat)
    requires WellFormed(r) && j < |r.pods| && r.pods[j] == ip
    ensures StreakOf(NewStreaks(streaks, AllMetrics(streaks, r)), ip)
              == match r.scrapes[j]
                 case Unreachable => StreakOf(streaks, ip)
                 case Reached(_, waiting, _) => if waiting > 0.0 then StreakOf(streaks, ip) + 1 else 0
  {
    var ms := AllMetrics(streaks, r);
    assert ms[..|r.pods|] == ms && ms[j].ip == ip;
    OthersDiffer(r, j);
    assert forall i | 0 <= i < |ms| && i != j :: ms[i].ip == r.pods[i];
    StreakAt(streaks, ms, |r.pods|, j);
  }

  lemma StreakOfAbsent(streaks: map<string, nat>, r: Cycle, ip: string)
    requires WellFormed(r) && ip !in r.pods
    ensures StreakOf(NewStreaks(streaks, AllMetrics(streaks, r)), ip) == StreakOf(streaks, ip)
  {
    var ms := AllMetrics(streaks, r);
    assert ms[..|r.pods|] == ms;
    assert forall i | 0 <= i < |ms| :: ms[i].ip == r.pods[i] && r.pods[i] in r.pods;
    StreakElsewhere(streaks, ms, |r.pods|, ip);
  }

  /** After any ticks, a pod's streak is the length of the run of waiting > 0 that
      ends its reachable scrapes, unreachable cycles skipped. */
  lemma {:induction false} StreakIsTrailingRun(cycles: seq<Cycle>, k: Tuning, ip: string)
    requires Shaped(cycles) && forall i | 0 <= i < |cycles| :: WellFormed(cycles[i])
    ensures StreakOf(Run(START, cycles, k).streaks, ip) == TrailingRun(Seen(cycles, ip))
  {
    if cycles != [] {
      var init := cycles[..|cycles| - 1];
      StreakIsTrailingRun(init, k, ip);
      CycleStreak(Run(START, init, k), cycles[|cycles| - 1], k, ip, Seen(init, ip));
    }
  }

  // ---------- From the scrapes to the store ----------

  lemma {:induction false} MapHolds(ws: seq<WeightedPod>)
    requires forall i, j | 0 <= i < j < |ws| :: ws[i].ip != ws[j].ip
    ensures forall i | 0 <= i < |ws| :: ws[i].ip in ToMap(ws) && ToMap(ws)[ws[i].ip] == ws[i].ratio
    ensures forall ip | ip in ToMap(ws) :: exists i :: 0 <= i < |ws| && ws[i].ip == ip
  {
    if ws != [] {
      var init := ws[..|ws| - 1];
      MapHolds(init);
      assert forall i | 0 <= i < |init| :: init[i] == ws[i];
    }
  }

  /** What a cycle tells of a pod: the figures scraped, and for how many scrapes in a row,
      this one included, it has had requests waiting. */
  ghost predicate Measured(m: PodMetrics, ip: string, s: Scrape, history: seq<real>) {
    match s
    case Unreachable => m == PodMetrics(ip, 0.0, 0.0, 0.0, 0, false)
    case Reached(running, waiting, kv) =>
      m == PodMetrics(ip, running, waiting, kv, TrailingRun(history + [waiting]), true)
  }

  lemma MeasuredIs(streaks: map<string, nat>, ip: string, s: Scrape, m: PodMetrics, history: seq<real>)
    requires Measured(m, ip, s, history) && StreakOf(streaks, ip) == TrailingRun(history)
    ensures m == Metrics(streaks, ip, s)
  {
    if s.Reached? {
      TrailingStep(history, s.waiting);
    }
  }

  /** After any ticks the store holds, for each pod of the last cycle and no other, the
      ratio that the weights give to what that cycle measured. */
  lemma StoredRatios(cycles: seq<Cycle>, k: Tuning, ms: seq<PodMetrics>)
    requires Shaped(cycles) && forall i | 0 <= i < |cycles| :: WellFormed(cycles[i])
    requires cycles != [] && cycles[|cycles| - 1].pods != []
    requires
      var r, before := cycles[|cycles| - 1], cycles[..|cycles| - 1];
      |ms| == |r.pods| && forall i | 0 <= i < |ms| :: Measured(ms[i], r.pods[i], r.scrapes[i], Seen(before, r.pods[i]))
    ensures
      var r, stored := cycles[|cycles| - 1], Run(START, cycles, k).stored;
      && stored.Some?
      && (forall i | 0 <= i < |ms| :: r.pods[i] in stored.value && stored.value[r.pods[i]] == Ratios(ms, k)[i])
      && forall ip | ip in stored.value :: ip in r.pods
  {
    var r, init := cycles[|cycles| - 1], cycles[..|cycles| - 1];
    forall i | 0 <= i < |ms| ensures ms[i] == Metrics(Run(START, init, k).streaks, r.pods[i], r.scrapes[i]) {
      StreakIsTrailingRun(init, k, r.pods[i]);
      MeasuredIs(Run(START, init, k).streaks, r.pods[i], r.scrapes[i], ms[i], Seen(init, r.pods[i]));
    }
    AllMeasured(Run(START, init, k).streaks, r, ms);
    StoreIsCurrent(cycles, k);
    RatiosMapped(r, ms, k);
  }

  lemma AllMeasured(streaks: map<string, nat>, r: Cycle, ms: seq<PodMetrics>)
    requires |r.scrapes| == |r.pods| == |ms|
    requires forall i | 0 <= i < |ms| :: ms[i] == Metrics(streaks, r.pods[i], r.scrapes[i])
    ensures ms == AllMetrics(streaks, r) && forall i | 0 <= i < |ms| :: ms[i].ip == r.pods[i]
  {
  }

  lemma RatiosMapped(r: Cycle, ms: seq<PodMetrics>, k: Tuning)
    requires WellFormed(r) && |ms| == |r.pods| && forall i | 0 <= i < |ms| :: ms[i].ip == r.pods[i]
    ensures
      var stored := ToMap(WeightsOf(ms, k));
      && (forall i | 0 <= i < |ms| :: r.pods[i] in stored && stored[r.pods[i]] == Ratios(ms, k)[i])
      && forall ip | ip in stored :: ip in r.pods
  {
    var ws := WeightsOf(ms, k);
    assert forall i | 0 <= i < |ws| :: ws[i] == WeightedPod(r.pods[i], Ratios(ms, k)[i]);
    MapHolds(ws);
  }
}
