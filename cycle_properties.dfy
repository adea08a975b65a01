/** What one run of checkCurrentStatus guarantees, stated over the
    specification functions that CheckCurrentStatus is proved to compute. */
module CycleProperties {
  import opened Probes
  import opened Retry
  import opened Cycle

  /** Configuration order: every web target before every stratum target,
      each list in its own order. */
  predicate Before(a: TargetId, b: TargetId) {
    (a.WebId? && b.StratumId?) || (a.WebId? == b.WebId? && a.index < b.index)
  }

  predicate AtOrBefore(a: TargetId, b: TargetId) {
    Before(a, b) || a == b
  }

  predicate ReportsOrdered(r: seq<TargetId>) {
    forall p, q :: 0 <= p < q < |r| ==> Before(r[p], r[q])
  }

  predicate ProbesOrdered(log: seq<ProbeCall>) {
    forall p, q :: 0 <= p < q < |log| ==> AtOrBefore(log[p].target, log[q].target)
  }

  /** Number of probe calls made for target t. */
  function ProbesTo(log: seq<ProbeCall>, t: TargetId): nat {
    if |log| == 0 then 0
    else ProbesTo(log[..|log| - 1], t) + (if log[|log| - 1].target == t then 1 else 0)
  }

  lemma {:induction false} ProbesToConcat(a: seq<ProbeCall>, b: seq<ProbeCall>, t: TargetId)
    ensures ProbesTo(a + b, t) == ProbesTo(a, t) + ProbesTo(b, t)
    decreases |b|
  {
    if b != [] {
      assert (a + b)[..|a + b| - 1] == a + b[..|b| - 1];
      ProbesToConcat(a, b[..|b| - 1], t);
    } else {
      assert a + b == a;
    }
  }

  lemma {:induction false} ProbesToRepeat(c: ProbeCall, m: nat, t: TargetId)
    ensures ProbesTo(Repeat(c, m), t) == if c.target == t then m else 0
  {
    if m > 0 {
      assert Repeat(c, m)[..m - 1] == Repeat(c, m - 1);
      ProbesToRepeat(c, m - 1, t);
    }
  }

  /** Appending one target's retry segment to a log. */
  lemma ProbesToSegment(prev: seq<ProbeCall>, call: ProbeCall, m: nat, t: TargetId)
    ensures ProbesTo(prev + Repeat(call, m), t) == ProbesTo(prev, t) + if call.target == t then m else 0
  {
    ProbesToConcat(prev, Repeat(call, m), t);
    ProbesToRepeat(call, m, t);
  }

  lemma {:induction false} ProbesToAbsent(log: seq<ProbeCall>, t: TargetId)
    requires forall p :: 0 <= p < |log| ==> log[p].target != t
    ensures ProbesTo(log, t) == 0
  {
    if log != [] {
      ProbesToAbsent(log[..|log| - 1], t);
    }
  }

  // ---- the web loop --------------------------------------------------------

  lemma {:induction false} WebProbesTargets(cfg: Config, w: seq<seq<WebAttempt>>, k: nat)
    requires WebSupplied(cfg, w) && k <= |cfg.webs|
    ensures forall p :: 0 <= p < |WebProbes(cfg, w, k)| ==>
              WebProbes(cfg, w, k)[p].target.WebId? && WebProbes(cfg, w, k)[p].target.index < k
  {
    if k > 0 {
      WebProbesTargets(cfg, w, k - 1);
    }
  }

  /** Every web request is made with its target's URI and the API timeout. */
  lemma {:induction false} WebProbesArgs(cfg: Config, w: seq<seq<WebAttempt>>, k: nat)
    requires WebSupplied(cfg, w) && k <= |cfg.webs|
    ensures forall p :: 0 <= p < |WebProbes(cfg, w, k)| ==>
              WebProbes(cfg, w, k)[p].target.WebId? && WebProbes(cfg, w, k)[p].target.index < k &&
              WebProbes(cfg, w, k)[p] == ApiCall(cfg, WebProbes(cfg, w, k)[p].target.index)
  {
    if k > 0 {
      WebProbesArgs(cfg, w, k - 1);
      var prev: seq<ProbeCall> := WebProbes(cfg, w, k - 1);
      var seg := Repeat(ApiCall(cfg, k - 1), CallsMade(WebOk(w[k - 1]), cfg.maxRetry));
      forall p | 0 <= p < |prev + seg|
        ensures (prev + seg)[p].target.WebId? && (prev + seg)[p].target.index < k
        ensures (prev + seg)[p] == ApiCall(cfg, (prev + seg)[p].target.index)
      {
        if p < |prev| {
          assert (prev + seg)[p] == prev[p];
        } else {
          assert (prev + seg)[p] == seg[p - |prev|];
        }
      }
    }
  }

  lemma {:induction false} WebProbesOrdered(cfg: Config, w: seq<seq<WebAttempt>>, k: nat)
    requires WebSupplied(cfg, w) && k <= |cfg.webs|
    ensures ProbesOrdered(WebProbes(cfg, w, k))
  {
    if k > 0 {
      WebProbesOrdered(cfg, w, k - 1);
      WebProbesTargets(cfg, w, k - 1);
      var prev: seq<ProbeCall> := WebProbes(cfg, w, k - 1);
      var seg := Repeat(ApiCall(cfg, k - 1), CallsMade(WebOk(w[k - 1]), cfg.maxRetry));
      forall p, q | 0 <= p < q < |prev + seg|
        ensures AtOrBefore((prev + seg)[p].target, (prev + seg)[q].target)
      {
        if q >= |prev| {
          assert (prev + seg)[q] == seg[q - |prev|];
        }
      }
    }
  }

  lemma {:induction false} WebProbesCount(cfg: Config, w: seq<seq<WebAttempt>>, k: nat, i: nat)
    requires WebSupplied(cfg, w) && k <= |cfg.webs|
    ensures i < k ==> ProbesTo(WebProbes(cfg, w, k), WebId(i)) == CallsMade(WebOk(w[i]), cfg.maxRetry)
    ensures k <= i ==> ProbesTo(WebProbes(cfg, w, k), WebId(i)) == 0
  {
    if k > 0 {
      var prev: seq<ProbeCall> := WebProbes(cfg, w, k - 1);
      var call := ApiCall(cfg, k - 1);
      var m := CallsMade(WebOk(w[k - 1]), cfg.maxRetry);
      assert WebProbes(cfg, w, k) == prev + Repeat(call, m);
      WebProbesCount(cfg, w, k - 1, i);
      ProbesToSegment(prev, call, m, WebId(i));
      if i == k - 1 {
        assert call.target == WebId(i);
      } else {
        assert call.target != WebId(i);
      }
    }
  }

  lemma {:induction false} WebReportsTargets(cfg: Config, w: seq<seq<WebAttempt>>, k: nat)
    requires WebSupplied(cfg, w) && k <= |cfg.webs|
    ensures forall p :: 0 <= p < |WebReports(cfg, w, k)| ==>
              WebReports(cfg, w, k)[p].WebId? && WebReports(cfg, w, k)[p].index < k
    ensures ReportsOrdered(WebReports(cfg, w, k))
  {
    if k > 0 {
      WebReportsTargets(cfg, w, k - 1);
    }
  }

  lemma {:induction false} WebReportsMembers(cfg: Config, w: seq<seq<WebAttempt>>, k: nat)
    requires WebSupplied(cfg, w) && k <= |cfg.webs|
    ensures forall i: nat :: WebId(i) in WebReports(cfg, w, k) <==> i < k && !WebUp(cfg, w, i)
    ensures forall j: nat :: StratumId(j) !in WebReports(cfg, w, k)
  {
    if k > 0 {
      WebReportsMembers(cfg, w, k - 1);
    }
  }

  /** The web targets that the run finds down, as a set. */
  function DownWebs(cfg: Config, w: seq<seq<WebAttempt>>, k: nat): set<nat>
    requires WebSupplied(cfg, w) && k <= |cfg.webs|
  {
    set i: nat | i < k && !WebUp(cfg, w, i)
  }

  lemma {:induction false} WebReportsCount(cfg: Config, w: seq<seq<WebAttempt>>, k: nat)
    requires WebSupplied(cfg, w) && k <= |cfg.webs|
    ensures |WebReports(cfg, w, k)| == |DownWebs(cfg, w, k)|
  {
    if k > 0 {
      WebReportsCount(cfg, w, k - 1);
      var before := DownWebs(cfg, w, k - 1);
      if WebUp(cfg, w, k - 1) {
        assert DownWebs(cfg, w, k) == before;
      } else {
        assert DownWebs(cfg, w, k) == before + {k - 1};
        assert k - 1 !in before;
      }
    } else {
      assert DownWebs(cfg, w, k) == {};
    }
  }

  // ---- the stratum loop ----------------------------------------------------

  lemma {:induction false} StratumProbesTargets(cfg: Config, s: seq<seq<ScanOutcome>>, k: nat)
    requires ScansSupplied(cfg, s) && k <= |cfg.stratums|
    ensures forall p :: 0 <= p < |StratumProbes(cfg, s, k)| ==>
              StratumProbes(cfg, s, k)[p].target.StratumId? && StratumProbes(cfg, s, k)[p].target.index < k
  {
    if k > 0 {
      StratumProbesTargets(cfg, s, k - 1);
    }
  }

  /** Every port scan is made with its target's host and port and the
      stratum timeout. */
  lemma {:induction false} StratumProbesArgs(cfg: Config, s: seq<seq<ScanOutcome>>, k: nat)
    requires ScansSupplied(cfg, s) && k <= |cfg.stratums|
    ensures forall p :: 0 <= p < |StratumProbes(cfg, s, k)| ==>
              StratumProbes(cfg, s, k)[p].target.StratumId? && StratumProbes(cfg, s, k)[p].target.index < k &&
              StratumProbes(cfg, s, k)[p] == ScanCall(cfg, StratumProbes(cfg, s, k)[p].target.index)
  {
    if k > 0 {
      StratumProbesArgs(cfg, s, k - 1);
      var prev: seq<ProbeCall> := StratumProbes(cfg, s, k - 1);
      var seg := Repeat(ScanCall(cfg, k - 1), CallsMade(ScanOk(s[k - 1]), cfg.maxRetry));
      forall p | 0 <= p < |prev + seg|
        ensures (prev + seg)[p].target.StratumId? && (prev + seg)[p].target.index < k
        ensures (prev + seg)[p] == ScanCall(cfg, (prev + seg)[p].target.index)
      {
        if p < |prev| {
          assert (prev + seg)[p] == prev[p];
        } else {
          assert (prev + seg)[p] == seg[p - |prev|];
        }
      }
    }
  }

  lemma {:induction false} StratumProbesOrdered(cfg: Config, s: seq<seq<ScanOutcome>>, k: nat)
    requires ScansSupplied(cfg, s) && k <= |cfg.stratums|
    ensures ProbesOrdered(StratumProbes(cfg, s, k))
  {
    if k > 0 {
      StratumProbesOrdered(cfg, s, k - 1);
      StratumProbesTargets(cfg, s, k - 1);
      var prev: seq<ProbeCall> := StratumProbes(cfg, s, k - 1);
      var seg := Repeat(ScanCall(cfg, k - 1), CallsMade(ScanOk(s[k - 1]), cfg.maxRetry));
      forall p, q | 0 <= p < q < |prev + seg|
        ensures AtOrBefore((prev + seg)[p].target, (prev + seg)[q].target)
      {
        if q >= |prev| {
          assert (prev + seg)[q] == seg[q - |prev|];
        }
      }
    }
  }

  lemma {:induction false} StratumProbesCount(cfg: Config, s: seq<seq<ScanOutcome>>, k: nat, j: nat)
    requires ScansSupplied(cfg, s) && k <= |cfg.stratums|
    ensures j < k ==> ProbesTo(StratumProbes(cfg, s, k), StratumId(j)) == CallsMade(ScanOk(s[j]), cfg.maxRetry)
    ensures k <= j ==> ProbesTo(StratumProbes(cfg, s, k), StratumId(j)) == 0
  {
    if k > 0 {
      var prev: seq<ProbeCall> := StratumProbes(cfg, s, k - 1);
      var call := ScanCall(cfg, k - 1);
      var m := CallsMade(ScanOk(s[k - 1]), cfg.maxRetry);
      assert StratumProbes(cfg, s, k) == prev + Repeat(call, m);
      StratumProbesCount(cfg, s, k - 1, j);
      ProbesToSegment(prev, call, m, StratumId(j));
      if j == k - 1 {
        assert call.target == StratumId(j);
      } else {
        assert call.target != StratumId(j);
      }
    }
  }

  lemma {:induction false} StratumReportsTargets(cfg: Config, s: seq<seq<ScanOutcome>>, k: nat)
    requires ScansSupplied(cfg, s) && k <= |cfg.stratums|
    ensures forall p :: 0 <= p < |StratumReports(cfg, s, k)| ==>
              StratumReports(cfg, s, k)[p].StratumId? && StratumReports(cfg, s, k)[p].index < k
    ensures ReportsOrdered(StratumReports(cfg, s, k))
  {
    if k > 0 {
      StratumReportsTargets(cfg, s, k - 1);
    }
  }

  lemma {:induction false} StratumReportsMembers(cfg: Config, s: seq<seq<ScanOutcome>>, k: nat)
    requires ScansSupplied(cfg, s) && k <= |cfg.stratums|
    ensures forall j: nat :: StratumId(j) in StratumReports(cfg, s, k) <==> j < k && !StratumUp(cfg, s, j)
    ensures forall i: nat :: WebId(i) !in StratumReports(cfg, s, k)
  {
    if k > 0 {
      StratumReportsMembers(cfg, s, k - 1);
    }
  }

  // ---- the whole run -------------------------------------------------------

  /** A web target is reported down iff none of its first maxRetry
      attempts succeeded (each was a transport error or a SyntaxError). */
  lemma WebReportedIffAllFailed(cfg: Config, w: seq<seq<WebAttempt>>, s: seq<seq<ScanOutcome>>, i: nat)
    requires Supplied(cfg, w, s)
    ensures WebId(i) in DownReports(cfg, w, s) <==>
              i < |cfg.webs| && forall k :: 0 <= k < cfg.maxRetry ==> !WebAttemptSucceeds(w[i][k])
  {
    WebReportsMembers(cfg, w, |cfg.webs|);
    StratumReportsMembers(cfg, s, |cfg.stratums|);
    if i < |cfg.webs| {
      var ok := WebOk(w[i]);
      if !WebUp(cfg, w, i) {
        forall k | 0 <= k < cfg.maxRetry ensures !WebAttemptSucceeds(w[i][k]) {
          assert !ok[k];
        }
      }
    }
  }

  /** A stratum target is reported down iff none of its first maxRetry
      scans reported exactly 'open' -- whatever happened to the web targets. */
  lemma StratumReportedIffNeverOpen(cfg: Config, w: seq<seq<WebAttempt>>, s: seq<seq<ScanOutcome>>, j: nat)
    requires Supplied(cfg, w, s)
    ensures StratumId(j) in DownReports(cfg, w, s) <==>
              j < |cfg.stratums| && forall k :: 0 <= k < cfg.maxRetry ==> s[j][k] != PortStatus(Open)
  {
    WebReportsMembers(cfg, w, |cfg.webs|);
    StratumReportsMembers(cfg, s, |cfg.stratums|);
    if j < |cfg.stratums| {
      var ok := ScanOk(s[j]);
      if !StratumUp(cfg, s, j) {
        forall k | 0 <= k < cfg.maxRetry ensures s[j][k] != PortStatus(Open) {
          assert !ok[k];
        }
      }
    }
  }

  /** Reports come out in configuration order, each target at most once. */
  lemma ReportsInConfigOrder(cfg: Config, w: seq<seq<WebAttempt>>, s: seq<seq<ScanOutcome>>)
    requires Supplied(cfg, w, s)
    ensures ReportsOrdered(DownReports(cfg, w, s))
  {
    WebReportsTargets(cfg, w, |cfg.webs|);
    StratumReportsTargets(cfg, s, |cfg.stratums|);
    var a, b := WebReports(cfg, w, |cfg.webs|), StratumReports(cfg, s, |cfg.stratums|);
    forall p, q | 0 <= p < q < |a + b| ensures Before((a + b)[p], (a + b)[q]) {
      if q < |a| {
        assert (a + b)[p] == a[p] && (a + b)[q] == a[q];
      } else if p >= |a| {
        assert (a + b)[p] == b[p - |a|] && (a + b)[q] == b[q - |a|];
      } else {
        assert (a + b)[p] == a[p] && (a + b)[q] == b[q - |a|];
      }
    }
  }

  /** One `pm2 list` call per down web target, and none for stratum targets. */
  lemma Pm2CallsPerDownWeb(cfg: Config, w: seq<seq<WebAttempt>>)
    requires WebSupplied(cfg, w)
    ensures |WebReports(cfg, w, |cfg.webs|)| == |set i: nat | i < |cfg.webs| && !WebUp(cfg, w, i)|
  {
    WebReportsCount(cfg, w, |cfg.webs|);
  }

  /** Probe calls are made in configuration order: all web requests before
      any port scan, each target's calls together. */
  lemma ProbesInConfigOrder(cfg: Config, w: seq<seq<WebAttempt>>, s: seq<seq<ScanOutcome>>)
    requires Supplied(cfg, w, s)
    ensures ProbesOrdered(ProbeLog(cfg, w, s))
  {
    WebProbesTargets(cfg, w, |cfg.webs|);
    WebProbesOrdered(cfg, w, |cfg.webs|);
    StratumProbesTargets(cfg, s, |cfg.stratums|);
    StratumProbesOrdered(cfg, s, |cfg.stratums|);
    var a: seq<ProbeCall>, b: seq<ProbeCall> := WebProbes(cfg, w, |cfg.webs|), StratumProbes(cfg, s, |cfg.stratums|);
    forall p, q | 0 <= p < q < |a + b| ensures AtOrBefore((a + b)[p].target, (a + b)[q].target) {
      if q < |a| {
        assert (a + b)[p] == a[p] && (a + b)[q] == a[q];
      } else if p >= |a| {
        assert (a + b)[p] == b[p - |a|] && (a + b)[q] == b[q - |a|];
      } else {
        assert (a + b)[p] == a[p] && (a + b)[q] == b[q - |a|];
      }
    }
  }

  /** Probe calls per target: exactly the calls of its retry loop, whatever
      the other targets answered. */
  lemma ProbeCount(cfg: Config, w: seq<seq<WebAttempt>>, s: seq<seq<ScanOutcome>>, t: TargetId)
    requires Supplied(cfg, w, s)
    ensures t.WebId? ==>
              ProbesTo(ProbeLog(cfg, w, s), t) ==
                if t.index < |cfg.webs| then CallsMade(WebOk(w[t.index]), cfg.maxRetry) else 0
    ensures t.StratumId? ==>
              ProbesTo(ProbeLog(cfg, w, s), t) ==
                if t.index < |cfg.stratums| then CallsMade(ScanOk(s[t.index]), cfg.maxRetry) else 0
  {
    var a, b := WebProbes(cfg, w, |cfg.webs|), StratumProbes(cfg, s, |cfg.stratums|);
    ProbesToConcat(a, b, t);
    if t.WebId? {
      WebProbesCount(cfg, w, |cfg.webs|, t.index);
      StratumProbesTargets(cfg, s, |cfg.stratums|);
      ProbesToAbsent(b, t);
    } else {
      StratumProbesCount(cfg, s, |cfg.stratums|, t.index);
      WebProbesTargets(cfg, w, |cfg.webs|);
      ProbesToAbsent(a, t);
    }
  }

  /** The arguments of every probe call of a run: a web request goes to
      the target's url joined with its type's API path, with the API timeout
      (or its default); a port scan goes to the target's host and port, with
      the stratum timeout (or its default). */
  lemma ProbeArguments(cfg: Config, w: seq<seq<WebAttempt>>, s: seq<seq<ScanOutcome>>)
    requires Supplied(cfg, w, s)
    ensures forall p :: 0 <= p < |ProbeLog(cfg, w, s)| && ProbeLog(cfg, w, s)[p].target.WebId? ==>
              ProbeLog(cfg, w, s)[p].target.index < |cfg.webs| &&
              ProbeLog(cfg, w, s)[p] ==
                ApiRequest(ProbeLog(cfg, w, s)[p].target,
                           ApiUri(cfg, cfg.webs[ProbeLog(cfg, w, s)[p].target.index]),
                           TimeoutOrDefault(cfg.apiTimeout))
    ensures forall p :: 0 <= p < |ProbeLog(cfg, w, s)| && ProbeLog(cfg, w, s)[p].target.StratumId? ==>
              ProbeLog(cfg, w, s)[p].target.index < |cfg.stratums| &&
              ProbeLog(cfg, w, s)[p] ==
                PortScan(ProbeLog(cfg, w, s)[p].target,
                         cfg.stratums[ProbeLog(cfg, w, s)[p].target.index].host,
                         cfg.stratums[ProbeLog(cfg, w, s)[p].target.index].port,
                         TimeoutOrDefault(cfg.stratumTimeout))
  {
    var a: seq<ProbeCall>, b: seq<ProbeCall> := WebProbes(cfg, w, |cfg.webs|), StratumProbes(cfg, s, |cfg.stratums|);
    WebProbesArgs(cfg, w, |cfg.webs|);
    StratumProbesArgs(cfg, s, |cfg.stratums|);
    forall p | 0 <= p < |a + b|
      ensures (a + b)[p] == (if p < |a| then a[p] else b[p - |a|])
    {
    }
  }

  /** No target is probed more than maxRetry times. */
  lemma ProbesBounded(cfg: Config, w: seq<seq<WebAttempt>>, s: seq<seq<ScanOutcome>>, t: TargetId)
    requires Supplied(cfg, w, s)
    ensures ProbesTo(ProbeLog(cfg, w, s), t) <= Max0(cfg.maxRetry)
  {
    ProbeCount(cfg, w, s, t);
  }

  /** When attempt k is the first successful one of web target i, exactly
      k + 1 requests are made for it and it is not reported. */
  lemma WebFirstSuccess(cfg: Config, w: seq<seq<WebAttempt>>, s: seq<seq<ScanOutcome>>, i: nat, k: nat)
    requires Supplied(cfg, w, s)
    requires i < |cfg.webs| && k < cfg.maxRetry && WebAttemptSucceeds(w[i][k])
    requires forall j :: 0 <= j < k ==> !WebAttemptSucceeds(w[i][j])
    ensures ProbesTo(ProbeLog(cfg, w, s), WebId(i)) == k + 1
    ensures WebId(i) !in DownReports(cfg, w, s)
  {
    var ok := WebOk(w[i]);
    forall j | 0 <= j < k ensures !ok[j] { }
    FirstSuccessCalls(ok, cfg.maxRetry, k);
    ProbeCount(cfg, w, s, WebId(i));
    WebReportedIffAllFailed(cfg, w, s, i);
  }

  /** When scan k is the first 'open' one of stratum target j, exactly
      k + 1 scans are made for it and it is not reported. */
  lemma StratumFirstOpen(cfg: Config, w: seq<seq<WebAttempt>>, s: seq<seq<ScanOutcome>>, j: nat, k: nat)
    requires Supplied(cfg, w, s)
    requires j < |cfg.stratums| && k < cfg.maxRetry && s[j][k] == PortStatus(Open)
    requires forall m :: 0 <= m < k ==> s[j][m] != PortStatus(Open)
    ensures ProbesTo(ProbeLog(cfg, w, s), StratumId(j)) == k + 1
    ensures StratumId(j) !in DownReports(cfg, w, s)
  {
    var ok := ScanOk(s[j]);
    forall m | 0 <= m < k ensures !ok[m] { }
    FirstSuccessCalls(ok, cfg.maxRetry, k);
    ProbeCount(cfg, w, s, StratumId(j));
    StratumReportedIffNeverOpen(cfg, w, s, j);
  }

  /** `status.stratum` is the result of the last scan made. */
  lemma StratumStatusIsLastScan(cfg: Config, s: seq<seq<ScanOutcome>>, j: nat)
    requires ScansSupplied(cfg, s) && j < |cfg.stratums| && cfg.maxRetry > 0
    ensures 0 < CallsMade(ScanOk(s[j]), cfg.maxRetry) <= |s[j]|
    ensures StratumUp(cfg, s, j) <==> CheckStratum(s[j][CallsMade(ScanOk(s[j]), cfg.maxRetry) - 1])
  {
    LastCallDecides(ScanOk(s[j]), cfg.maxRetry);
  }

  lemma {:induction false} NoRetryWebs(cfg: Config, w: seq<seq<WebAttempt>>, k: nat)
    requires WebSupplied(cfg, w) && k <= |cfg.webs| && cfg.maxRetry <= 0
    ensures WebProbes(cfg, w, k) == []
    ensures WebReports(cfg, w, k) == seq(k, i requires 0 <= i => WebId(i))
  {
    if k > 0 {
      NoRetryWebs(cfg, w, k - 1);
      assert !WebUp(cfg, w, k - 1);
    }
  }

  lemma {:induction false} NoRetryStratums(cfg: Config, s: seq<seq<ScanOutcome>>, k: nat)
    requires ScansSupplied(cfg, s) && k <= |cfg.stratums| && cfg.maxRetry <= 0
    ensures StratumProbes(cfg, s, k) == []
    ensures StratumReports(cfg, s, k) == seq(k, j requires 0 <= j => StratumId(j))
  {
    if k > 0 {
      NoRetryStratums(cfg, s, k - 1);
      assert !StratumUp(cfg, s, k - 1);
    }
  }

  /** With maxRetry <= 0 no probe is called and every target is reported,
      in configuration order. */
  lemma NoRetryAllDown(cfg: Config, w: seq<seq<WebAttempt>>, s: seq<seq<ScanOutcome>>)
    requires Supplied(cfg, w, s) && cfg.maxRetry <= 0
    ensures ProbeLog(cfg, w, s) == []
    ensures DownReports(cfg, w, s) ==
              seq(|cfg.webs|, i requires 0 <= i => WebId(i)) + seq(|cfg.stratums|, j requires 0 <= j => StratumId(j))
  {
    NoRetryWebs(cfg, w, |cfg.webs|);
    NoRetryStratums(cfg, s, |cfg.stratums|);
  }
}
