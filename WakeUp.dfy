/**
 * The specification of the health probe and of the wake-up loop of
 * AuthServices (utils/Auth.js): which probe counts as "ready", and the
 * sequence of observable effects the loop produces for a given sequence of
 * probe outcomes. The class in module Auth is proved to produce exactly this
 * sequence; the lemmas here state what the sequence promises.
 */
module WakeUp {
  import opened Js
  import opened Http

  const MaxAttempts: nat := 12
  const RetryDelayMs: nat := 5000
  const StatusEndpoint := "https://tec-social-network.onrender.com/status"
  const ReadyStatus := "Server is running"
  const WakeFailureMessage := "El servidor no respondió después de 60 segundos"

  /** What the client does that the outside world can observe, in order. */
  datatype Effect =
    | Progress(attempt: nat, total: nat)  // onProgress(attempt, total)
    | Send(request: Request)              // one call of fetch
    | Sleep(ms: nat)                      // await new Promise(resolve => setTimeout(resolve, ms))

  /** The health-check request of checkServerStatus. */
  function StatusRequest(): (r: Request)
    ensures r.verb == "GET" && r.url == StatusEndpoint && r.body.None?
    ensures r.headers == JsonHeaders()
  {
    Request("GET", StatusEndpoint, JsonHeaders(), None)
  }

  /**
   * checkServerStatus on one probe: `None` is a fetch that rejected (network
   * failure, or the 10 s abort). The probe is ready exactly when the body
   * parses and its `status` is the literal "Server is running"; the HTTP status
   * code is not looked at. A body that parses to `null` makes `data.status`
   * throw, which the catch turns into false like every other failure.
   */
  predicate ProbeReady(parse: Parser, probe: Option<Response>): (ready: bool)
    ensures probe.None? ==> !ready
    ensures ready ==> probe.Some? && parse(probe.value.text).Some? && parse(probe.value.text).value.JObj?
    ensures ready ==> var fields := parse(probe.value.text).value.fields;
      "status" in fields && fields["status"] == JStr(ReadyStatus)
  {
    && probe.Some?
    && parse(probe.value.text).Some?
    && Member(parse(probe.value.text).value, "status") == Some(JStr(ReadyStatus))
  }

  /** checkServerStatus applied to every probe outcome in turn. */
  function Readiness(parse: Parser, probes: seq<Option<Response>>): (r: seq<bool>)
    ensures |r| == |probes|
    decreases |probes|
  {
    if probes == [] then [] else [ProbeReady(parse, probes[0])] + Readiness(parse, probes[1..])
  }

  /** The readiness of probe `i` is what checkServerStatus makes of it. */
  lemma {:induction false} ReadinessAt(parse: Parser, probes: seq<Option<Response>>, i: nat)
    requires i < |probes|
    ensures Readiness(parse, probes)[i] == ProbeReady(parse, probes[i])
    decreases |probes|
  {
    if i > 0 {
      ReadinessAt(parse, probes[1..], i - 1);
    }
  }

  /** One turn of the loop up to its probe: the progress call (when a callback is given), then the probe. */
  function AttemptEffects(attempt: nat, withProgress: bool): seq<Effect> {
    (if withProgress then [Progress(attempt, MaxAttempts)] else []) + [Send(StatusRequest())]
  }

  /** Turns `1` to `k` of the loop when every one of them fails: each probes and then sleeps 5 s. */
  function FailedTurns(k: nat, withProgress: bool): seq<Effect>
    decreases k
  {
    if k == 0 then [] else FailedTurns(k - 1, withProgress) + AttemptEffects(k, withProgress) + [Sleep(RetryDelayMs)]
  }

  /** The index of the first ready probe from `from` on, or MaxAttempts when none before the ceiling is ready. */
  function FirstReady(ready: seq<bool>, from: nat): (k: nat)
    requires from <= MaxAttempts <= |ready|
    ensures from <= k <= MaxAttempts
    ensures forall i :: from <= i < k ==> !ready[i]
    ensures k < MaxAttempts ==> ready[k]
    decreases MaxAttempts - from
  {
    if from == MaxAttempts then MaxAttempts
    else if ready[from] then from
    else FirstReady(ready, from + 1)
  }

  /** A ready probe `k` with only failures between `from` and it is the first ready one from `from` on. */
  lemma {:induction false} FirstReadyAt(ready: seq<bool>, from: nat, k: nat)
    requires from <= k < MaxAttempts <= |ready|
    requires forall i :: from <= i < k ==> !ready[i]
    requires ready[k]
    ensures FirstReady(ready, from) == k
    decreases k - from
  {
    if from < k {
      FirstReadyAt(ready, from + 1, k);
    }
  }

  /** With only failures from `from` up to the ceiling, no probe is ready. */
  lemma {:induction false} FirstReadyNone(ready: seq<bool>, from: nat)
    requires from <= MaxAttempts <= |ready|
    requires forall i :: from <= i < MaxAttempts ==> !ready[i]
    ensures FirstReady(ready, from) == MaxAttempts
    decreases MaxAttempts - from
  {
    if from < MaxAttempts {
      FirstReadyNone(ready, from + 1);
    }
  }

  /** The wake-up succeeds when one of the first MaxAttempts probes is ready. */
  predicate WakeSucceeds(ready: seq<bool>)
    requires MaxAttempts <= |ready|
  {
    FirstReady(ready, 0) < MaxAttempts
  }

  /**
   * The effects of `wakeUpServer` given the outcome `ready[i]` of probe
   * number `i + 1`: every turn before the first ready probe fails and sleeps;
   * the ready turn ends the loop at once; with no ready probe the loop stops
   * after MaxAttempts failed turns.
   */
  function WakeTrace(ready: seq<bool>, withProgress: bool): (t: seq<Effect>)
    requires MaxAttempts <= |ready|
    ensures 0 < |t|
  {
    var k := FirstReady(ready, 0);
    if k < MaxAttempts then FailedTurns(k, withProgress) + AttemptEffects(k + 1, withProgress)
    else FailedTurns(MaxAttempts, withProgress)
  }

  /** The loop stops right after the ready probe, or after the sleep that follows the last failed one. */
  lemma WakeTraceLast(ready: seq<bool>, withProgress: bool)
    requires MaxAttempts <= |ready|
    ensures var t := WakeTrace(ready, withProgress);
      && (WakeSucceeds(ready) ==> t[|t| - 1] == Send(StatusRequest()))
      && (!WakeSucceeds(ready) ==> t[|t| - 1] == Sleep(RetryDelayMs))
  {
  }

  /** The number of fetch calls. */
  function ProbeCount(t: seq<Effect>): nat
    decreases |t|
  {
    if t == [] then 0 else (if t[0].Send? then 1 else 0) + ProbeCount(t[1..])
  }

  /** The attempt numbers of the progress calls, in order. */
  function ProgressAttempts(t: seq<Effect>): seq<nat>
    decreases |t|
  {
    if t == [] then [] else (if t[0].Progress? then [t[0].attempt] else []) + ProgressAttempts(t[1..])
  }

  predicate ProgressTotalsAre(t: seq<Effect>, total: nat) {
    forall i :: 0 <= i < |t| && t[i].Progress? ==> t[i].total == total
  }

  /** `lo, lo + 1, ..., lo + n - 1`. */
  function Iota(lo: nat, n: nat): (r: seq<nat>)
    ensures |r| == n
    ensures forall i :: 0 <= i < n ==> r[i] == lo + i
    decreases n
  {
    if n == 0 then [] else [lo] + Iota(lo + 1, n - 1)
  }

  lemma IotaSnoc(lo: nat, n: nat)
    ensures Iota(lo, n + 1) == Iota(lo, n) + [lo + n]
  {
    var a, b := Iota(lo, n + 1), Iota(lo, n) + [lo + n];
    assert forall i :: 0 <= i < n + 1 ==> a[i] == b[i];
  }

  lemma {:induction false} ProbeCountAppend(a: seq<Effect>, b: seq<Effect>)
    ensures ProbeCount(a + b) == ProbeCount(a) + ProbeCount(b)
    decreases |a|
  {
    if a == [] {
      assert a + b == b;
    } else {
      assert (a + b)[0] == a[0];
      assert (a + b)[1..] == a[1..] + b;
      ProbeCountAppend(a[1..], b);
    }
  }

  lemma {:induction false} ProgressAttemptsAppend(a: seq<Effect>, b: seq<Effect>)
    ensures ProgressAttempts(a + b) == ProgressAttempts(a) + ProgressAttempts(b)
    decreases |a|
  {
    if a == [] {
      assert a + b == b;
    } else {
      assert (a + b)[0] == a[0];
      assert (a + b)[1..] == a[1..] + b;
      ProgressAttemptsAppend(a[1..], b);
    }
  }

  /** What one turn contributes: one probe, and one progress call numbered `attempt` when a callback is given. */
  lemma AttemptEffectsCounts(attempt: nat, withProgress: bool)
    ensures ProbeCount(AttemptEffects(attempt, withProgress)) == 1
    ensures ProgressAttempts(AttemptEffects(attempt, withProgress)) == if withProgress then [attempt] else []
    ensures ProbeCount([Sleep(RetryDelayMs)]) == 0 && ProgressAttempts([Sleep(RetryDelayMs)]) == []
  {
    var a := AttemptEffects(attempt, withProgress);
    if withProgress {
      assert a == [Progress(attempt, MaxAttempts)] + [Send(StatusRequest())];
      ProbeCountAppend([Progress(attempt, MaxAttempts)], [Send(StatusRequest())]);
      ProgressAttemptsAppend([Progress(attempt, MaxAttempts)], [Send(StatusRequest())]);
    } else {
      assert a == [Send(StatusRequest())];
    }
  }

  /** One turn after the turns before it: the counts add up. */
  lemma TurnCounts(before: seq<Effect>, attempt: nat, withProgress: bool)
    ensures var a := AttemptEffects(attempt, withProgress);
      && ProbeCount(before + a) == ProbeCount(before) + 1
      && ProgressAttempts(before + a) == ProgressAttempts(before) + (if withProgress then [attempt] else [])
      && ProbeCount(before + a + [Sleep(RetryDelayMs)]) == ProbeCount(before) + 1
      && ProgressAttempts(before + a + [Sleep(RetryDelayMs)]) == ProgressAttempts(before + a)
  {
    var a := AttemptEffects(attempt, withProgress);
    AttemptEffectsCounts(attempt, withProgress);
    ProbeCountAppend(before, a);
    ProgressAttemptsAppend(before, a);
    ProbeCountAppend(before + a, [Sleep(RetryDelayMs)]);
    ProgressAttemptsAppend(before + a, [Sleep(RetryDelayMs)]);
  }

  /** `k` failed turns: `k` probes, progress numbered `1, ..., k`, two or three effects per turn, the last one a sleep. */
  lemma {:induction false} FailedTurnsCounts(k: nat, withProgress: bool)
    ensures ProbeCount(FailedTurns(k, withProgress)) == k
    ensures ProgressAttempts(FailedTurns(k, withProgress)) == if withProgress then Iota(1, k) else []
    ensures |FailedTurns(k, withProgress)| == if withProgress then 3 * k else 2 * k
    ensures k > 0 ==> FailedTurns(k, withProgress)[|FailedTurns(k, withProgress)| - 1] == Sleep(RetryDelayMs)
    decreases k
  {
    if k > 0 {
      FailedTurnsCounts(k - 1, withProgress);
      TurnCounts(FailedTurns(k - 1, withProgress), k, withProgress);
      IotaSnoc(1, k - 1);
    }
  }

  lemma TotalsOfAppend(a: seq<Effect>, b: seq<Effect>, total: nat)
    requires ProgressTotalsAre(a, total) && ProgressTotalsAre(b, total)
    ensures ProgressTotalsAre(a + b, total)
  {
    forall i | 0 <= i < |a + b| && (a + b)[i].Progress? ensures (a + b)[i].total == total {
      if i >= |a| {
        assert (a + b)[i] == b[i - |a|];
      }
    }
  }

  /** Every request in `t` is the health check. */
  predicate OnlyStatusRequests(t: seq<Effect>) {
    forall i :: 0 <= i < |t| && t[i].Send? ==> t[i].request == StatusRequest()
  }

  lemma OnlyStatusAppend(a: seq<Effect>, b: seq<Effect>)
    requires OnlyStatusRequests(a) && OnlyStatusRequests(b)
    ensures OnlyStatusRequests(a + b)
  {
    forall i | 0 <= i < |a + b| && (a + b)[i].Send? ensures (a + b)[i].request == StatusRequest() {
      if i >= |a| {
        assert (a + b)[i] == b[i - |a|];
      }
    }
  }

  /** Failed turns, and a turn, send nothing but the health check. */
  lemma {:induction false} FailedTurnsOnlyProbe(k: nat, withProgress: bool)
    ensures OnlyStatusRequests(FailedTurns(k, withProgress))
    ensures OnlyStatusRequests(AttemptEffects(k + 1, withProgress))
    decreases k
  {
    var s: seq<Effect> := [Sleep(RetryDelayMs)];
    assert OnlyStatusRequests(s);
    if k > 0 {
      FailedTurnsOnlyProbe(k - 1, withProgress);
      var a := AttemptEffects(k, withProgress);
      OnlyStatusAppend(FailedTurns(k - 1, withProgress), a);
      OnlyStatusAppend(FailedTurns(k - 1, withProgress) + a, s);
    }
  }

  /** Every progress call of a failed prefix, and of a turn, reports the ceiling as the total. */
  lemma {:induction false} FailedTurnsTotals(k: nat, withProgress: bool)
    ensures ProgressTotalsAre(FailedTurns(k, withProgress), MaxAttempts)
    ensures ProgressTotalsAre(AttemptEffects(k + 1, withProgress), MaxAttempts)
    decreases k
  {
    var a := AttemptEffects(k, withProgress);
    var s: seq<Effect> := [Sleep(RetryDelayMs)];
    assert ProgressTotalsAre(s, MaxAttempts);
    if k > 0 {
      FailedTurnsTotals(k - 1, withProgress);
      TotalsOfAppend(FailedTurns(k - 1, withProgress), a, MaxAttempts);
      TotalsOfAppend(FailedTurns(k - 1, withProgress) + a, s, MaxAttempts);
    }
  }

  /** Failed turns only grow: the first `j` of them begin the first `k`. */
  lemma {:induction false} FailedTurnsPrefix(j: nat, k: nat, withProgress: bool)
    requires j <= k
    ensures |FailedTurns(j, withProgress)| <= |FailedTurns(k, withProgress)|
    ensures FailedTurns(k, withProgress)[..|FailedTurns(j, withProgress)|] == FailedTurns(j, withProgress)
    decreases k
  {
    if j < k {
      FailedTurnsPrefix(j, k - 1, withProgress);
      var p, q := FailedTurns(k - 1, withProgress), FailedTurns(j, withProgress);
      var rest := AttemptEffects(k, withProgress) + [Sleep(RetryDelayMs)];
      assert FailedTurns(k, withProgress) == p + rest;
      assert (p + rest)[..|q|] == p[..|q|];
    } else {
      var f := FailedTurns(k, withProgress);
      assert f[..|f|] == f;
    }
  }

  /** The whole trace when probe `k` is the first ready one: `k` failed turns and then this turn's probe. */
  lemma ReadyTrace(ready: seq<bool>, k: nat, withProgress: bool)
    requires k < MaxAttempts <= |ready|
    requires forall i :: 0 <= i < k ==> !ready[i]
    requires ready[k]
    ensures FirstReady(ready, 0) == k && WakeSucceeds(ready)
    ensures WakeTrace(ready, withProgress) == FailedTurns(k, withProgress) + AttemptEffects(k + 1, withProgress)
  {
    FirstReadyAt(ready, 0, k);
  }

  /** With no ready probe before the ceiling the whole trace is MaxAttempts failed turns. */
  lemma ExhaustedTrace(ready: seq<bool>, withProgress: bool)
    requires MaxAttempts <= |ready|
    requires forall i :: 0 <= i < MaxAttempts ==> !ready[i]
    ensures !WakeSucceeds(ready)
    ensures WakeTrace(ready, withProgress) == FailedTurns(MaxAttempts, withProgress)
  {
    FirstReadyNone(ready, 0);
  }

  /** The wake-up succeeds exactly when one of the first MaxAttempts probes is ready. */
  lemma WakeSucceedsIff(ready: seq<bool>)
    requires MaxAttempts <= |ready|
    ensures WakeSucceeds(ready) <==> exists i :: 0 <= i < MaxAttempts && ready[i]
  {
    var f := FirstReady(ready, 0);
    if f < MaxAttempts {
      assert ready[f];
    }
  }

  /** `k` failed turns and a ready one: `k + 1` probes, progress numbered `1, ..., k + 1`, the probe last. */
  lemma ReadyTurnCounts(k: nat, withProgress: bool)
    ensures var t := FailedTurns(k, withProgress) + AttemptEffects(k + 1, withProgress);
      && ProbeCount(t) == k + 1
      && ProgressAttempts(t) == (if withProgress then Iota(1, k + 1) else [])
      && |t| > 0 && t[|t| - 1] == Send(StatusRequest())
  {
    var f, a := FailedTurns(k, withProgress), AttemptEffects(k + 1, withProgress);
    FailedTurnsCounts(k, withProgress);
    TurnCounts(f, k + 1, withProgress);
    IotaSnoc(1, k);
    assert (f + a)[|f + a| - 1] == a[|a| - 1];
  }

  /**
   * Probe outcomes `false^k, true` with `k < 12`: the wake-up succeeds after
   * exactly `k + 1` probes, with progress calls numbered `1, ..., k + 1`, and
   * its last effect is that probe: no sleep follows a success.
   */
  lemma WakeSucceedsAfterFailures(ready: seq<bool>, k: nat, withProgress: bool)
    requires k < MaxAttempts <= |ready|
    requires forall i :: 0 <= i < k ==> !ready[i]
    requires ready[k]
    ensures WakeSucceeds(ready)
    ensures ProbeCount(WakeTrace(ready, withProgress)) == k + 1
    ensures ProgressAttempts(WakeTrace(ready, withProgress)) == if withProgress then Iota(1, k + 1) else []
    ensures var t := WakeTrace(ready, withProgress); |t| > 0 && t[|t| - 1] == Send(StatusRequest())
  {
    ReadyTrace(ready, k, withProgress);
    ReadyTurnCounts(k, withProgress);
  }

  /**
   * Twelve failing probes: the wake-up fails after exactly twelve probes and
   * twelve progress calls numbered 1 to 12, and ends with a sleep, not a
   * thirteenth probe.
   */
  lemma WakeFailsAfterMaxAttempts(ready: seq<bool>, withProgress: bool)
    requires MaxAttempts <= |ready|
    requires forall i :: 0 <= i < MaxAttempts ==> !ready[i]
    ensures !WakeSucceeds(ready)
    ensures var t := WakeTrace(ready, withProgress);
      && ProbeCount(t) == MaxAttempts
      && ProgressAttempts(t) == (if withProgress then Iota(1, ProbeCount(t)) else [])
      && |t| > 0 && t[|t| - 1] == Sleep(RetryDelayMs)
  {
    ExhaustedTrace(ready, withProgress);
    var t := WakeTrace(ready, withProgress);
    assert t == FailedTurns(MaxAttempts, withProgress);
    ExhaustedCounts(MaxAttempts, withProgress);
  }

  /** `n` failed turns: `n` probes, progress numbered from 1 up to the number of probes, a sleep last. */
  lemma ExhaustedCounts(n: nat, withProgress: bool)
    requires n > 0
    ensures var t := FailedTurns(n, withProgress);
      && ProbeCount(t) == n
      && ProgressAttempts(t) == (if withProgress then Iota(1, ProbeCount(t)) else [])
      && |t| > 0 && t[|t| - 1] == Sleep(RetryDelayMs)
  {
    FailedTurnsCounts(n, withProgress);
  }

  /**
   * Whatever the probes answer, the loop probes at least once and never more
   * than MaxAttempts times, and every progress call reports the ceiling as
   * its total.
   */
  lemma WakeTraceBounded(ready: seq<bool>, withProgress: bool)
    requires MaxAttempts <= |ready|
    ensures 1 <= ProbeCount(WakeTrace(ready, withProgress)) <= MaxAttempts
    ensures ProgressTotalsAre(WakeTrace(ready, withProgress), MaxAttempts)
  {
    var k := FirstReady(ready, 0);
    if k < MaxAttempts {
      WakeSucceedsAfterFailures(ready, k, withProgress);
      FailedTurnsTotals(k, withProgress);
      TotalsOfAppend(FailedTurns(k, withProgress), AttemptEffects(k + 1, withProgress), MaxAttempts);
    } else {
      WakeFailsAfterMaxAttempts(ready, withProgress);
      FailedTurnsTotals(MaxAttempts, withProgress);
    }
  }

  /** Waking the server up sends no request other than the health check. */
  lemma WakeTraceOnlyProbes(ready: seq<bool>, withProgress: bool)
    requires MaxAttempts <= |ready|
    ensures OnlyStatusRequests(WakeTrace(ready, withProgress))
  {
    var k := FirstReady(ready, 0);
    if k < MaxAttempts {
      FailedTurnsOnlyProbe(k, withProgress);
      OnlyStatusAppend(FailedTurns(k, withProgress), AttemptEffects(k + 1, withProgress));
    } else {
      FailedTurnsOnlyProbe(MaxAttempts, withProgress);
    }
  }

  /** Every trace begins the trace of twelve failed turns. */
  lemma WakeTraceIsPrefix(ready: seq<bool>, withProgress: bool)
    requires MaxAttempts <= |ready|
    ensures var t, all := WakeTrace(ready, withProgress), FailedTurns(MaxAttempts, withProgress);
      |t| <= |all| && all[..|t|] == t
  {
    var t, all := WakeTrace(ready, withProgress), FailedTurns(MaxAttempts, withProgress);
    var k := FirstReady(ready, 0);
    if k < MaxAttempts {
      assert t == FailedTurns(k, withProgress) + AttemptEffects(k + 1, withProgress);
      ReadyTurnIsPrefix(k, MaxAttempts, withProgress);
    } else {
      assert t == all;
      assert all[..|all|] == all;
    }
  }

  /** A ready turn after `k` failed ones begins any longer run of failed turns. */
  lemma ReadyTurnIsPrefix(k: nat, n: nat, withProgress: bool)
    requires k < n
    ensures var t, all := FailedTurns(k, withProgress) + AttemptEffects(k + 1, withProgress), FailedTurns(n, withProgress);
      |t| <= |all| && all[..|t|] == t
  {
    var t := FailedTurns(k, withProgress) + AttemptEffects(k + 1, withProgress);
    var all := FailedTurns(n, withProgress);
    FailedTurnsPrefix(k + 1, n, withProgress);
    var next := FailedTurns(k + 1, withProgress);
    assert next == t + [Sleep(RetryDelayMs)];
    assert next[..|t|] == t;
    assert all[..|t|] == all[..|next|][..|t|];
  }

  /** The shape of the last of `k` failed turns with a callback: progress `k`, probe, sleep. */
  lemma LastFailedTurn(k: nat)
    requires k > 0
    ensures var p := FailedTurns(k - 1, true);
      FailedTurns(k, true) == p + [Progress(k, MaxAttempts), Send(StatusRequest()), Sleep(RetryDelayMs)]
  {
    var p := FailedTurns(k - 1, true);
    assert AttemptEffects(k, true) == [Progress(k, MaxAttempts), Send(StatusRequest())];
    assert p + [Progress(k, MaxAttempts), Send(StatusRequest())] + [Sleep(RetryDelayMs)]
      == p + [Progress(k, MaxAttempts), Send(StatusRequest()), Sleep(RetryDelayMs)];
  }

  /** In failed turns with a callback, the effect before a probe is the progress call naming that probe's number. */
  lemma {:induction false} FailedTurnsAnnounced(k: nat, j: nat)
    requires j < |FailedTurns(k, true)| && FailedTurns(k, true)[j].Send?
    ensures var t := FailedTurns(k, true);
      j > 0 && t[j - 1] == Progress(ProbeCount(t[..j]) + 1, MaxAttempts)
    decreases k
  {
    var t := FailedTurns(k, true);
    if k > 0 {
      var p := FailedTurns(k - 1, true);
      LastFailedTurn(k);
      FailedTurnsCounts(k - 1, true);
      if j < |p| {
        assert t[j] == p[j] && t[..j] == p[..j];
        FailedTurnsAnnounced(k - 1, j);
        assert t[j - 1] == p[j - 1];
      } else {
        assert j == |p| + 1;
        assert t[..j] == p + [Progress(k, MaxAttempts)];
        ProbeCountAppend(p, [Progress(k, MaxAttempts)]);
      }
    }
  }

  /**
   * With a callback, every probe comes straight after a progress call whose
   * attempt number is one more than the number of probes before it: progress
   * is reported before each probe, the first one included.
   */
  lemma ProgressPrecedesEachProbe(ready: seq<bool>)
    requires MaxAttempts <= |ready|
    ensures var t := WakeTrace(ready, true);
      forall j :: 0 <= j < |t| && t[j].Send? ==>
        j > 0 && t[j - 1] == Progress(ProbeCount(t[..j]) + 1, MaxAttempts)
  {
    var t := WakeTrace(ready, true);
    var all := FailedTurns(MaxAttempts, true);
    WakeTraceIsPrefix(ready, true);
    forall j | 0 <= j < |t| && t[j].Send?
      ensures j > 0 && t[j - 1] == Progress(ProbeCount(t[..j]) + 1, MaxAttempts)
    {
      assert t[j] == all[j];
      FailedTurnsAnnounced(MaxAttempts, j);
      assert t[..j] == all[..j];
      assert t[j - 1] == all[j - 1];
    }
  }

  /** What a failed turn adds to a log that holds the earlier failed turns. */
  lemma LogFailedTurn(log: seq<Effect>, k: nat, withProgress: bool)
    ensures log + FailedTurns(k, withProgress) + AttemptEffects(k + 1, withProgress) + [Sleep(RetryDelayMs)]
      == log + FailedTurns(k + 1, withProgress)
  {
    var f, a := FailedTurns(k, withProgress), AttemptEffects(k + 1, withProgress);
    assert FailedTurns(k + 1, withProgress) == f + a + [Sleep(RetryDelayMs)];
    assert log + (f + a) == log + f + a;
    assert log + (f + a + [Sleep(RetryDelayMs)]) == log + (f + a) + [Sleep(RetryDelayMs)];
  }

  /** A log of `k` failed turns followed by a ready probe holds the whole trace, and the wake-up succeeded. */
  lemma LogReadyTurn(log: seq<Effect>, ready: seq<bool>, k: nat, withProgress: bool)
    requires k < MaxAttempts <= |ready|
    requires k <= FirstReady(ready, 0)
    requires ready[k]
    ensures log + FailedTurns(k, withProgress) + AttemptEffects(k + 1, withProgress) == log + WakeTrace(ready, withProgress)
    ensures WakeSucceeds(ready)
  {
    assert forall i :: 0 <= i < k ==> !ready[i];
    ReadyTrace(ready, k, withProgress);
    var f, a := FailedTurns(k, withProgress), AttemptEffects(k + 1, withProgress);
    assert log + (f + a) == log + f + a;
  }

  /** A log of MaxAttempts failed turns holds the whole trace, and the wake-up failed. */
  lemma LogExhausted(log: seq<Effect>, ready: seq<bool>, withProgress: bool)
    requires MaxAttempts <= |ready|
    requires MaxAttempts <= FirstReady(ready, 0)
    ensures log + FailedTurns(MaxAttempts, withProgress) == log + WakeTrace(ready, withProgress)
    ensures !WakeSucceeds(ready)
  {
    assert forall i :: 0 <= i < MaxAttempts ==> !ready[i];
    ExhaustedTrace(ready, withProgress);
  }

  /**
   * One turn of the loop on a log of `k` failed turns: a ready probe completes
   * the whole trace with success; a failed one extends the failed turns and
   * leaves the first ready probe further on.
   */
  lemma LogTurn(log: seq<Effect>, parse: Parser, probes: seq<Option<Response>>, k: nat, awake: bool, withProgress: bool)
    requires k < MaxAttempts <= |probes|
    requires k <= FirstReady(Readiness(parse, probes), 0)
    requires awake == ProbeReady(parse, probes[k])
    ensures awake ==> WakeSucceeds(Readiness(parse, probes))
    ensures awake ==>
      log + FailedTurns(k, withProgress) + AttemptEffects(k + 1, withProgress) == log + WakeTrace(Readiness(parse, probes), withProgress)
    ensures !awake ==> k + 1 <= FirstReady(Readiness(parse, probes), 0)
    ensures !awake ==>
      log + FailedTurns(k, withProgress) + AttemptEffects(k + 1, withProgress) + [Sleep(RetryDelayMs)] == log + FailedTurns(k + 1, withProgress)
  {
    var ready := Readiness(parse, probes);
    ReadinessAt(parse, probes, k);
    if awake {
      LogReadyTurn(log, ready, k, withProgress);
    } else {
      LogFailedTurn(log, k, withProgress);
    }
  }
}
