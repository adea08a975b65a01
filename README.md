# pool-checker health-check cycle in Dafny

This project models one run of the health check in `main.js` of pool-checker.
That run is `checkCurrentStatus`:

- It checks every configured web dashboard (an MPOS API), in configured order.
  Each API gets up to `maxRetry` HTTP requests through `checkAPI`, one after
  another, and the loop stops at the first attempt that has no `error`.
- It then checks every configured stratum port, in configured order, whatever
  the web checks found. Each port gets up to `maxRetry` scans through
  `checkStratum`, and the loop stops at the first scan that reports `'open'`.
- It issues one down report for each target whose attempts all failed.
- For a down web target only, it also runs one `pm2 list` command.

The network, the port scanner and `JSON.parse` are not modelled. What they
answered is supplied to the model:

- `webAttempts[i][k]` is what the (k+1)-th request for web target i returned:
  a transport error, or a body together with what parsing it gave (a JSON
  value, or an exception with a name).
- `scans[j][k]` is what the (k+1)-th scan of stratum target j settled to: a
  status string, or a rejection.

The model returns three things:

- the log of probe calls made, each with its target and its arguments (URI and
  timeout, or host, port and timeout);
- the list of down reports, where a report is the target's identity;
- the number of `pm2 list` calls.

Layout:

- `probes.dfy` (module `Probes`): attempt results, the classification of one
  attempt (`CheckApi`, `CheckStratum`), and the reference predicate
  `WebAttemptSucceeds`.
- `retry.dfy` (module `Retry`): the bounded stop-at-first-success loop over a
  sequence of attempt outcomes (`CallsMade`, `Succeeded`) and its lemmas.
- `cycle.dfy` (module `Cycle`): the configuration, the specification functions
  of a run (`ProbeLog`, `DownReports` and their per-phase parts), and the
  methods with the source's loops (`RetryApi`, `RetryStratum`, `CheckWebs`,
  `CheckStratums`, `CheckCurrentStatus`), each proved against those functions.
- `cycle_properties.dfy` (module `CycleProperties`): what a run guarantees.
  This covers when a target is reported, the order of reports and probes, the
  probe calls per target, the `maxRetry <= 0` case, and `pm2 list` calls.

The two retry loops of `checkCurrentStatus` (main.js:50-55 and main.js:73-76)
are separate methods here, `RetryApi` and `RetryStratum`. Its two outer `for`
loops are `CheckWebs` and `CheckStratums`. `CheckCurrentStatus` runs them in
the source's order. The loop bodies keep the source's `continue` and `break`.

Facts about `main.js` that the model keeps:

- The stratum loop (main.js:69) always runs, whatever the web results were.
- The only command run for a down web target is `pm2 list` (main.js:63).
  Nothing is restarted.
- A parse exception other than `SyntaxError` is only logged (main.js:26-27).
  It sets no `error`, so that attempt counts as a success.

## Model

| member | source | states |
|---|---|---|
| `Probes.CheckApi` | main.js:15-31 | A transport error sets `error` and nothing else. A received body is kept. A parsed body sets `json`. A `SyntaxError` sets `error` to that name. Any other exception leaves neither `error` nor `json` set. `error` is absent iff the attempt succeeds by `WebAttemptSucceeds`. |
| `Probes.CheckStratum` | main.js:34-43 | A scan succeeds iff the scanner's status is exactly `'open'`. A rejected scan is a failure. |
| `Retry.CallsMade` | main.js:50-55 | The retry loop makes at most `maxRetry` calls. It makes none iff `maxRetry <= 0`. |
| `Retry.FirstSuccessCalls` | main.js:50-55 | When attempt k (0-based) is the first success, exactly k+1 calls are made and the target counts as up. |
| `Retry.AllFailCalls` | main.js:50-55 | When every attempt fails, the loop makes `maxRetry` calls (none if `maxRetry <= 0`) and the target counts as down. |
| `Retry.LastCallDecides` | main.js:73-76 | No call follows a success. The loop's outcome is the outcome of the last call it made. |
| `Cycle.TimeoutOrDefault` | main.js:17 | `timeout || 1000`: a configured non-zero timeout is used. A missing or zero timeout becomes 1000. The timeout passed on is never 0. |
| `Cycle.RetryApi` | main.js:48-55 | `status.api` ends true iff one of the first `maxRetry` attempts succeeded. The calls made are exactly `CallsMade` copies of this target's request. |
| `Cycle.RetryStratum` | main.js:71-76 | `status.stratum` ends true iff one of the first `maxRetry` scans succeeded. The calls made are exactly `CallsMade` copies of this target's scan. |
| `Cycle.CheckWebs` | main.js:46-68 | The web loop produces `WebProbes` and `WebReports` over all web targets. It makes one `pm2 list` call per web report. |
| `Cycle.CheckStratums` | main.js:69-85 | The stratum loop produces `StratumProbes` and `StratumReports` over all stratum targets. |
| `Cycle.CheckCurrentStatus` | main.js:45-86 | A run's probe log is `ProbeLog`: the web phase's calls, then the stratum phase's calls. Its reports are `DownReports`. Its `pm2 list` count is the number of web reports. |
| `CycleProperties.WebReportedIffAllFailed` | main.js:48-67 | A web target is reported down iff it is configured and each of its first `maxRetry` attempts was a transport error or a `SyntaxError`. |
| `CycleProperties.StratumReportedIffNeverOpen` | main.js:69-84 | A stratum target is reported down iff it is configured and none of its first `maxRetry` scans was `'open'`. This holds whatever the web targets answered. |
| `CycleProperties.ReportsInConfigOrder` | main.js:46-85 | Reports appear in configuration order, web targets before stratum targets. No target is reported twice. |
| `CycleProperties.Pm2CallsPerDownWeb` | main.js:57-67 | The number of `pm2 list` calls equals the number of distinct down web targets. |
| `CycleProperties.ProbesInConfigOrder` | main.js:46-76 | Probe calls are made in configuration order. Every web request comes before every port scan, and each target's calls are consecutive. |
| `CycleProperties.ProbeCount` | main.js:46-76 | The probe calls made for one target are exactly those of its own retry loop, whatever the other targets answered. An unconfigured target gets none. |
| `CycleProperties.ProbeArguments` | main.js:17-74 | Every request of a run goes to its web target's `url + apiPath[type]` (`ApiUri`, with `undefined` for a type with no path), with the API timeout or its default (lines 17, 51). Every scan goes to its stratum target's host and port, with the stratum timeout or its default (lines 37, 74). |
| `CycleProperties.ProbesBounded` | main.js:50-76 | No target is probed more than `maxRetry` times in a run. |
| `CycleProperties.WebFirstSuccess` | main.js:50-55 | When attempt k of a web target is its first success, the run sends it exactly k+1 requests and does not report it. |
| `CycleProperties.StratumFirstOpen` | main.js:73-76 | When scan k of a stratum target is its first `'open'`, the run makes exactly k+1 scans of it and does not report it. |
| `CycleProperties.StratumStatusIsLastScan` | main.js:73-78 | When `maxRetry > 0`, the final `status.stratum` is the result of the last scan made. |
| `CycleProperties.NoRetryAllDown` | main.js:48-84 | When `maxRetry <= 0`, no probe is called and every configured target is reported, in configuration order. |

## Left out

- HTTP `request.get`, `portscanner.checkPortStatus` and `JSON.parse`: these are
  foreign library calls. Their answers are supplied per attempt, so the model
  does not tie a body to what parsing it gives.
- The supplied answers must include at least `maxRetry` entries per target
  (`Cycle.Supplied`). This only sizes the supplied input. The source itself
  puts no such demand on its callers.
- `exec('pm2 list')` and its callback (shell I/O): modelled only as a count.
- Console output, the status text, emoji and the date formatting
  (presentation): a report is modelled as the identity of the target
  (`WebId(i)` or `StratumId(j)`).
- The `node-cron` schedule and the `DEBUG` entry point (timer plumbing): the
  model is one run of the check. `cron.schedule` (main.js:94-96) does not
  await `checkCurrentStatus`. A run that lasts more than a minute therefore
  overlaps the next one, and their probes and reports interleave. That
  overlap is not modelled, and every ordering property is about one run.
- Loading `dotenv` and `config`, and setting `NODE_TLS_REJECT_UNAUTHORIZED`
  (process-wide setup): the configuration is a parameter.
- async/await suspension: within one run every `await` completes before the
  next probe, so the run is modelled as ordinary sequential code.
- JavaScript truthiness is modelled only where the code relies on it. A
  transport error and a `SyntaxError` name both count as a truthy `error`. A
  timeout counts as falsy when it is missing or 0. A configured timeout of
  `NaN`, `false` or `''` is not representable.
- `MAX_RETRY` is a JavaScript number, but the model takes an integer. So
  the model cannot represent three cases of the loop at main.js:50. A
  fractional value such as 2.5 gives 3 attempts. A missing value gives 0
  attempts, which is what `maxRetry <= 0` gives. `Infinity` retries without
  end.
