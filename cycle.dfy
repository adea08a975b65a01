/** One run of checkCurrentStatus: every web target, then every stratum
    target, each probed with bounded retry, with a down report for every
    target whose attempts all failed and a `pm2 list` call for every down web
    target.  The probes' answers are supplied, one sequence per target. */
module Cycle {
  import opened Probes
  import opened Retry

  datatype WebTarget = WebTarget(name: string, url: string, kind: string)
  datatype StratumTarget = StratumTarget(name: string, host: string, port: int)

  /** The loaded configuration.  A timeout that is absent (or 0, hence falsy)
      falls back to the default. */
  datatype Config = Config(
    webs: seq<WebTarget>,
    stratums: seq<StratumTarget>,
    maxRetry: int,
    apiPath: map<string, string>,
    apiTimeout: Option<int>,
    stratumTimeout: Option<int>)

  /** A configured target, by its position in its list. */
  datatype TargetId = WebId(index: nat) | StratumId(index: nat)

  /** One probe call with the arguments it is made with. */
  datatype ProbeCall =
    | ApiRequest(target: TargetId, uri: string, timeout: int)
    | PortScan(target: TargetId, host: string, port: int, timeout: int)

  const DefaultTimeout: int := 1000

  /** `configured || 1000`: the timeout handed to a probe is never falsy. */
  function TimeoutOrDefault(configured: Option<int>): (t: int)
    ensures t != 0
    ensures configured.Some? && configured.value != 0 ==> t == configured.value
    ensures configured.None? || configured.value == 0 ==> t == DefaultTimeout
  {
    if configured.Some? && configured.value != 0 then configured.value else DefaultTimeout
  }

  /** `web.url + config.apiPath[web.type]`; a type with no configured path
      concatenates the string "undefined". */
  function ApiUri(cfg: Config, web: WebTarget): string {
    web.url + (if web.kind in cfg.apiPath then cfg.apiPath[web.kind] else "undefined")
  }

  function WebOk(attempts: seq<WebAttempt>): seq<bool> {
    seq(|attempts|, k requires 0 <= k < |attempts| => WebAttemptSucceeds(attempts[k]))
  }

  function ScanOk(scans: seq<ScanOutcome>): seq<bool> {
    seq(|scans|, k requires 0 <= k < |scans| => CheckStratum(scans[k]))
  }

  /** One answer sequence per web target, long enough for every retry. */
  predicate WebSupplied(cfg: Config, w: seq<seq<WebAttempt>>) {
    |w| == |cfg.webs| && forall i :: 0 <= i < |w| ==> cfg.maxRetry <= |w[i]|
  }

  predicate ScansSupplied(cfg: Config, s: seq<seq<ScanOutcome>>) {
    |s| == |cfg.stratums| && forall j :: 0 <= j < |s| ==> cfg.maxRetry <= |s[j]|
  }

  predicate Supplied(cfg: Config, w: seq<seq<WebAttempt>>, s: seq<seq<ScanOutcome>>) {
    WebSupplied(cfg, w) && ScansSupplied(cfg, s)
  }

  function ApiCall(cfg: Config, i: nat): ProbeCall
    requires i < |cfg.webs|
  {
    ApiRequest(WebId(i), ApiUri(cfg, cfg.webs[i]), TimeoutOrDefault(cfg.apiTimeout))
  }

  function ScanCall(cfg: Config, j: nat): ProbeCall
    requires j < |cfg.stratums|
  {
    PortScan(StratumId(j), cfg.stratums[j].host, cfg.stratums[j].port, TimeoutOrDefault(cfg.stratumTimeout))
  }

  function Repeat(c: ProbeCall, m: nat): seq<ProbeCall> {
    seq(m, k => c)
  }

  /** `status.api` after the retry loop of web target i. */
  predicate WebUp(cfg: Config, w: seq<seq<WebAttempt>>, i: nat)
    requires WebSupplied(cfg, w) && i < |cfg.webs|
  {
    Succeeded(WebOk(w[i]), cfg.maxRetry)
  }

  /** `status.stratum` after the retry loop of stratum target j. */
  predicate StratumUp(cfg: Config, s: seq<seq<ScanOutcome>>, j: nat)
    requires ScansSupplied(cfg, s) && j < |cfg.stratums|
  {
    Succeeded(ScanOk(s[j]), cfg.maxRetry)
  }

  /** Probe calls made for the first k web targets. */
  function WebProbes(cfg: Config, w: seq<seq<WebAttempt>>, k: nat): seq<ProbeCall>
    requires WebSupplied(cfg, w) && k <= |cfg.webs|
  {
    if k == 0 then []
    else WebProbes(cfg, w, k - 1) + Repeat(ApiCall(cfg, k - 1), CallsMade(WebOk(w[k - 1]), cfg.maxRetry))
  }

  /** Down reports for the first k web targets. */
  function WebReports(cfg: Config, w: seq<seq<WebAttempt>>, k: nat): seq<TargetId>
    requires WebSupplied(cfg, w) && k <= |cfg.webs|
  {
    if k == 0 then []
    else WebReports(cfg, w, k - 1) + (if WebUp(cfg, w, k - 1) then [] else [WebId(k - 1)])
  }

  /** Probe calls made for the first k stratum targets. */
  function StratumProbes(cfg: Config, s: seq<seq<ScanOutcome>>, k: nat): seq<ProbeCall>
    requires ScansSupplied(cfg, s) && k <= |cfg.stratums|
  {
    if k == 0 then []
    else StratumProbes(cfg, s, k - 1) + Repeat(ScanCall(cfg, k - 1), CallsMade(ScanOk(s[k - 1]), cfg.maxRetry))
  }

  /** Down reports for the first k stratum targets. */
  function StratumReports(cfg: Config, s: seq<seq<ScanOutcome>>, k: nat): seq<TargetId>
    requires ScansSupplied(cfg, s) && k <= |cfg.stratums|
  {
    if k == 0 then []
    else StratumReports(cfg, s, k - 1) + (if StratumUp(cfg, s, k - 1) then [] else [StratumId(k - 1)])
  }

  /** Every probe call of the cycle, in the order made. */
  function ProbeLog(cfg: Config, w: seq<seq<WebAttempt>>, s: seq<seq<ScanOutcome>>): seq<ProbeCall>
    requires Supplied(cfg, w, s)
  {
    WebProbes(cfg, w, |cfg.webs|) + StratumProbes(cfg, s, |cfg.stratums|)
  }

  /** Every down report of the cycle, in the order issued. */
  function DownReports(cfg: Config, w: seq<seq<WebAttempt>>, s: seq<seq<ScanOutcome>>): seq<TargetId>
    requires Supplied(cfg, w, s)
  {
    WebReports(cfg, w, |cfg.webs|) + StratumReports(cfg, s, |cfg.stratums|)
  }

  /** The retry loop for one web target: call checkAPI until an attempt has
      no `error`, at most `maxRetry` times.  Returns `status.api` and the
      calls made. */
  method RetryApi(call: ProbeCall, attempts: seq<WebAttempt>, maxRetry: int)
    returns (api: bool, made: seq<ProbeCall>)
    requires maxRetry <= |attempts|
    ensures api == Succeeded(WebOk(attempts), maxRetry)
    ensures made == Repeat(call, CallsMade(WebOk(attempts), maxRetry))
  {
    ghost var ok := WebOk(attempts);
    api, made := false, [];
    var retry := 0;
    while retry < maxRetry
      invariant 0 <= retry <= Max0(maxRetry)
      invariant !api
      invariant forall k :: 0 <= k < retry ==> !ok[k]
      invariant made == Repeat(call, retry)
    {
      made := made + [call];
      var data := CheckApi(attempts[retry]);
      if data.error.Some? {
        retry := retry + 1;
        continue;
      }
      api := true;
      FirstSuccessCalls(ok, maxRetry, retry);
      break;
    }
    if !api {
      AllFailCalls(ok, maxRetry);
    }
  }

  /** The retry loop for one stratum target: `status.stratum` takes the
      result of every scan, and the loop stops once it is true. */
  method RetryStratum(call: ProbeCall, scans: seq<ScanOutcome>, maxRetry: int)
    returns (stratum: bool, made: seq<ProbeCall>)
    requires maxRetry <= |scans|
    ensures stratum == Succeeded(ScanOk(scans), maxRetry)
    ensures made == Repeat(call, CallsMade(ScanOk(scans), maxRetry))
  {
    ghost var ok := ScanOk(scans);
    stratum, made := false, [];
    var retry := 0;
    while retry < maxRetry
      invariant 0 <= retry <= Max0(maxRetry)
      invariant !stratum
      invariant forall k :: 0 <= k < retry ==> !ok[k]
      invariant made == Repeat(call, retry)
    {
      made := made + [call];
      stratum := CheckStratum(scans[retry]);
      if stratum {
        FirstSuccessCalls(ok, maxRetry, retry);
        break;
      }
      retry := retry + 1;
    }
    if !stratum {
      AllFailCalls(ok, maxRetry);
    }
  }

  /** The first loop of checkCurrentStatus: every web target in order, a
      down report and one `pm2 list` call for each whose API never answered. */
  method CheckWebs(cfg: Config, webAttempts: seq<seq<WebAttempt>>)
    returns (probes: seq<ProbeCall>, down: seq<TargetId>, pm2Calls: nat)
    requires WebSupplied(cfg, webAttempts)
    ensures probes == WebProbes(cfg, webAttempts, |cfg.webs|)
    ensures down == WebReports(cfg, webAttempts, |cfg.webs|)
    ensures pm2Calls == |down|
  {
    probes, down, pm2Calls := [], [], 0;
    var i := 0;
    while i < |cfg.webs|
      invariant 0 <= i <= |cfg.webs|
      invariant probes == WebProbes(cfg, webAttempts, i)
      invariant down == WebReports(cfg, webAttempts, i)
      invariant pm2Calls == |down|
    {
      var api, made := RetryApi(ApiCall(cfg, i), webAttempts[i], cfg.maxRetry);
      probes := probes + made;
      if !api {
        down := down + [WebId(i)];
        pm2Calls := pm2Calls + 1;
      }
      i := i + 1;
    }
  }

  /** The second loop of checkCurrentStatus: every stratum target in order,
      a down report for each whose port never scanned open. */
  method CheckStratums(cfg: Config, scans: seq<seq<ScanOutcome>>)
    returns (probes: seq<ProbeCall>, down: seq<TargetId>)
    requires ScansSupplied(cfg, scans)
    ensures probes == StratumProbes(cfg, scans, |cfg.stratums|)
    ensures down == StratumReports(cfg, scans, |cfg.stratums|)
  {
    probes, down := [], [];
    var j := 0;
    while j < |cfg.stratums|
      invariant 0 <= j <= |cfg.stratums|
      invariant probes == StratumProbes(cfg, scans, j)
      invariant down == StratumReports(cfg, scans, j)
    {
      var stratum, made := RetryStratum(ScanCall(cfg, j), scans[j], cfg.maxRetry);
      probes := probes + made;
      if !stratum {
        down := down + [StratumId(j)];
      }
      j := j + 1;
    }
  }

  /** checkCurrentStatus.  `webAttempts[i][k]` is what checkAPI's request
      answers on its (k+1)-th call for web target i, `scans[j][k]` what the
      port scanner answers on its (k+1)-th call for stratum target j.  The
      stratum loop runs whatever the web loop found. */
  method CheckCurrentStatus(cfg: Config, webAttempts: seq<seq<WebAttempt>>, scans: seq<seq<ScanOutcome>>)
    returns (probes: seq<ProbeCall>, down: seq<TargetId>, pm2Calls: nat)
    requires Supplied(cfg, webAttempts, scans)
    ensures probes == ProbeLog(cfg, webAttempts, scans)
    ensures down == DownReports(cfg, webAttempts, scans)
    ensures pm2Calls == |WebReports(cfg, webAttempts, |cfg.webs|)|
  {
    var webProbes, webDown, pm2 := CheckWebs(cfg, webAttempts);
    var stratumProbes, stratumDown := CheckStratums(cfg, scans);
    probes, down, pm2Calls := webProbes + stratumProbes, webDown + stratumDown, pm2;
  }
}
