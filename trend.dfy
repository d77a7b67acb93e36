/** Per-metric history and increment detection: `Smart.check_metric` and
    `Smart._exclude_metric`, with the allow-list and exclusion table they read. */
module Trend {
  import opened Wrappers
  import opened Findings

  /** `Smart.CHECKED_METRICS`: counters whose increase is a health signal. */
  const CheckedMetrics: seq<string> := [
    "ata_smart_error_log_count",
    "Calibration_Retry_Count",
    "critical_comp_time",
    "critical_warning",
    "Current_Pending_Sector",
    "CRC_Error_Count",
    "ECC_Error_Rate",
    "Erase_Fail_Count_Total",
    "G-Sense_Error_Rate",
    "Load_Retry_Count",
    "media_errors",
    "Multi_Zone_Error_Rate",
    "Offline_Uncorrectable",
    "Program_Fail_Cnt_Total",
    "Raw_Read_Error_Rate",
    "Reallocated_Event_Count",
    "Reallocated_Sector_Ct",
    "Runtime_Bad_Block",
    "Seek_Error_Rate",
    "Spin_Retry_Count",
    "UDMA_CRC_Error_Count",
    "Uncorrectable_Error_Cnt",
    "Used_Rsvd_Blk_Cnt_Tot",
    "warning_temp_time"
  ]

  /** One entry of `Smart.CHECK_EXCLUSIONS`: (key, value) pairs looked up in the
      telemetry document and the metrics whose increments they silence. */
  datatype ExclusionRule = ExclusionRule(matchOn: seq<(string, string)>, metrics: seq<string>)

  const CheckExclusions: seq<ExclusionRule> := [
    ExclusionRule([("model_family", "Seagate Exos X16")], ["Raw_Read_Error_Rate", "Seek_Error_Rate"]),
    ExclusionRule([("model_family", "Seagate Exos X18")], ["Raw_Read_Error_Rate", "Seek_Error_Rate"])
  ]

  /** `smart_data.get(key)` over the document's top-level string fields. */
  function Get(fields: map<string, string>, key: string): Option<string>
  {
    if key in fields then Some(fields[key]) else None
  }

  /** Whether match pair `j` of `rule` holds for this document and lists `metric`. */
  predicate PairSilences(rule: ExclusionRule, j: int, fields: map<string, string>, metric: string)
    requires 0 <= j < |rule.matchOn|
  {
    Get(fields, rule.matchOn[j].0) == Some(rule.matchOn[j].1) && metric in rule.metrics
  }

  /** The inner loop of `_exclude_metric` over one rule's match pairs. */
  function RuleSilences(rule: ExclusionRule, pairs: seq<(string, string)>, fields: map<string, string>,
                        metric: string): bool
  {
    if pairs == [] then false
    else (Get(fields, pairs[0].0) == Some(pairs[0].1) && metric in rule.metrics)
         || RuleSilences(rule, pairs[1..], fields, metric)
  }

  /** `Smart._exclude_metric`: the outer loop over the rules. */
  function ExcludeMetric(rules: seq<ExclusionRule>, fields: map<string, string>, metric: string): bool
  {
    if rules == [] then false
    else RuleSilences(rules[0], rules[0].matchOn, fields, metric) || ExcludeMetric(rules[1..], fields, metric)
  }

  lemma {:induction false} RuleSilencesIff(rule: ExclusionRule, k: nat, fields: map<string, string>, metric: string)
    requires k <= |rule.matchOn|
    ensures RuleSilences(rule, rule.matchOn[k..], fields, metric)
        <==> exists j :: k <= j < |rule.matchOn| && PairSilences(rule, j, fields, metric)
    decreases |rule.matchOn| - k
  {
    if k < |rule.matchOn| {
      assert rule.matchOn[k..][0] == rule.matchOn[k];
      assert rule.matchOn[k..][1..] == rule.matchOn[k + 1..];
      RuleSilencesIff(rule, k + 1, fields, metric);
      assert PairSilences(rule, k, fields, metric)
        <==> Get(fields, rule.matchOn[k].0) == Some(rule.matchOn[k].1) && metric in rule.metrics;
      if RuleSilences(rule, rule.matchOn[k..], fields, metric) && !PairSilences(rule, k, fields, metric) {
        var j :| k + 1 <= j < |rule.matchOn| && PairSilences(rule, j, fields, metric);
        assert k <= j;
      }
      if exists j :: k <= j < |rule.matchOn| && PairSilences(rule, j, fields, metric) {
        var j :| k <= j < |rule.matchOn| && PairSilences(rule, j, fields, metric);
        assert j == k || (k + 1 <= j < |rule.matchOn| && PairSilences(rule, j, fields, metric));
      }
    }
  }

  /** A metric is excluded exactly when some rule has some match pair that holds
      for the document and the rule lists the metric. */
  lemma {:induction false} ExcludeMetricIff(rules: seq<ExclusionRule>, fields: map<string, string>, metric: string)
    ensures ExcludeMetric(rules, fields, metric)
        <==> exists i, j :: 0 <= i < |rules| && 0 <= j < |rules[i].matchOn| && PairSilences(rules[i], j, fields, metric)
  {
    if rules != [] {
      RuleSilencesIff(rules[0], 0, fields, metric);
      assert rules[0].matchOn[0..] == rules[0].matchOn;
      ExcludeMetricIff(rules[1..], fields, metric);
      if ExcludeMetric(rules[1..], fields, metric) {
        var i, j :| 0 <= i < |rules[1..]| && 0 <= j < |rules[1..][i].matchOn| && PairSilences(rules[1..][i], j, fields, metric);
        assert PairSilences(rules[i + 1], j, fields, metric);
      }
      if exists i, j :: 0 <= i < |rules| && 0 <= j < |rules[i].matchOn| && PairSilences(rules[i], j, fields, metric) {
        var i, j :| 0 <= i < |rules| && 0 <= j < |rules[i].matchOn| && PairSilences(rules[i], j, fields, metric);
        if i > 0 {
          assert PairSilences(rules[1..][i - 1], j, fields, metric);
        }
      }
    }
  }

  /** With the shipped table: only Raw_Read_Error_Rate and Seek_Error_Rate, and only
      on the Seagate Exos X16 and X18 families. */
  lemma SeagateExosExclusions(fields: map<string, string>, metric: string)
    ensures ExcludeMetric(CheckExclusions, fields, metric)
        <==> (Get(fields, "model_family") == Some("Seagate Exos X16")
              || Get(fields, "model_family") == Some("Seagate Exos X18"))
             && (metric == "Raw_Read_Error_Rate" || metric == "Seek_Error_Rate")
  {
    var r0, r1 := CheckExclusions[0], CheckExclusions[1];
    assert CheckExclusions[1..] == [r1] && CheckExclusions[1..][1..] == [];
    assert r0.matchOn[1..] == [] && r1.matchOn[1..] == [];
    assert RuleSilences(r0, r0.matchOn, fields, metric)
       <==> Get(fields, "model_family") == Some("Seagate Exos X16") && metric in r0.metrics;
    assert RuleSilences(r1, r1.matchOn, fields, metric)
       <==> Get(fields, "model_family") == Some("Seagate Exos X18") && metric in r1.metrics;
    assert ExcludeMetric(CheckExclusions[1..][1..], fields, metric) == false;
    assert ExcludeMetric(CheckExclusions[1..], fields, metric) == RuleSilences(r1, r1.matchOn, fields, metric);
    assert ExcludeMetric(CheckExclusions, fields, metric)
        == (RuleSilences(r0, r0.matchOn, fields, metric) || RuleSilences(r1, r1.matchOn, fields, metric));
    assert metric in r0.metrics <==> metric == "Raw_Read_Error_Rate" || metric == "Seek_Error_Rate";
    assert r1.metrics == r0.metrics;
  }

  function LowerAscii(c: char): char
  {
    if 'A' <= c <= 'Z' then (c as int + 32) as char else c
  }

  /** `re.match(r"^temperature($|_)", metric, flags=re.I)`: "temperature" in any
      case, then the end of the string (Python's `$` also matches before a final
      newline) or an underscore. */
  predicate IsRawTemperatureName(metric: string)
  {
    && |metric| >= 11
    && (forall i :: 0 <= i < 11 ==> LowerAscii(metric[i]) == "temperature"[i])
    && (|metric| == 11 || metric[11..] == "\n" || metric[11] == '_')
  }

  lemma TemperatureNames()
    ensures IsRawTemperatureName("Temperature_Celsius")
    ensures IsRawTemperatureName("temperature")
    ensures !IsRawTemperatureName("Airflow_Temperature_Cel")
    ensures !IsRawTemperatureName("temperatures")
  {
    assert LowerAscii('T') == 't';
  }

  /** The largest value of a non-empty window (Python's `max`). */
  function MaxOf(s: seq<int>): (m: int)
    requires |s| > 0
    ensures m in s
    ensures forall x :: x in s ==> x <= m
  {
    if |s| == 1 then s[0]
    else
      var rest := MaxOf(s[1..]);
      assert forall x :: x in s ==> x == s[0] || x in s[1..];
      if s[0] >= rest then s[0] else rest
  }

  /** The window after `values.append(value)` and at most one `values.pop(0)`
      when it has grown past `max_attempts + 1` values. */
  function NextWindow(prev: seq<int>, value: int, maxAttempts: int): (w: seq<int>)
    ensures |w| == if |prev| + 1 > maxAttempts + 1 then |prev| else |prev| + 1
    ensures w == (prev + [value])[|prev| + 1 - |w|..]
  {
    var values := prev + [value];
    if |values| > maxAttempts + 1 then values[1..] else values
  }

  /** A window already within the bound stays within it. */
  lemma NextWindowBounded(prev: seq<int>, value: int, maxAttempts: int)
    requires |prev| <= maxAttempts + 1
    ensures |NextWindow(prev, value, maxAttempts)| <= maxAttempts + 1
    ensures maxAttempts >= 0 ==>
      (|NextWindow(prev, value, maxAttempts)| > 0
       && NextWindow(prev, value, maxAttempts)[|NextWindow(prev, value, maxAttempts)| - 1] == value)
  {
  }

  /** The findings of one non-skipped `check_metric` call, given the updated
      window: an increment warning (oldest, maximum) when a checked metric rose
      inside the window and is not excluded, then always the raw value. */
  function MetricFindings(serial: Key, metric: string, value: int, window: seq<int>, excluded: bool)
    : (r: Result<seq<Finding>, Fault>)
    ensures r.Failure? <==> metric in CheckedMetrics && window == []
    ensures r.Failure? ==> r.error == IndexError
    ensures r.Success? ==>
      (1 <= |r.value| <= 2 && r.value[|r.value| - 1] == Raw(KeyText(serial) + "_" + metric, value))
    ensures r.Success? ==>
      (|r.value| == 2 <==> metric in CheckedMetrics && MaxOf(window) > window[0] && !excluded)
    ensures r.Success? && |r.value| == 2 ==>
      r.value[0] == Metadata("warning", Increment(serial, metric, window[0], MaxOf(window)))
  {
    var raw := Raw(KeyText(serial) + "_" + metric, value);
    if metric in CheckedMetrics then
      if window == [] then Failure(IndexError)
      else if MaxOf(window) > window[0] && !excluded then
        Success([Metadata("warning", Increment(serial, metric, window[0], MaxOf(window))), raw])
      else Success([raw])
    else Success([raw])
  }

  /** A window [5, 3, 3, 7]: the counter rose from 5 to 7 within the retained values. */
  lemma RisingWindowExample(serial: Key)
    ensures MetricFindings(serial, "Reallocated_Sector_Ct", 7, [5, 3, 3, 7], false)
         == Success([Metadata("warning", Increment(serial, "Reallocated_Sector_Ct", 5, 7)),
                     Raw(KeyText(serial) + "_" + "Reallocated_Sector_Ct", 7)])
    ensures MetricFindings(serial, "Power_On_Hours", 7, [5, 3, 3, 7], false)
         == Success([Raw(KeyText(serial) + "_" + "Power_On_Hours", 7)])
  {
    assert "Reallocated_Sector_Ct" == CheckedMetrics[16];
    assert MaxOf([5, 3, 3, 7]) == 7;
    assert "Power_On_Hours" !in CheckedMetrics;
  }

  /** The history maps: serial -> metric -> window, oldest value first. */
  type History = map<Key, map<string, seq<int>>>

  /** `self.old_metrics` (loaded) and `self.metrics` (to be saved). */
  datatype Store = Store(loaded: History, current: History)

  /** `self.old_metrics[serial][metric]`, None on KeyError. */
  function Lookup(h: History, serial: Key, metric: string): Option<seq<int>>
  {
    if serial in h && metric in h[serial] then Some(h[serial][metric]) else None
  }

  /** `h[serial][metric] = window` on a defaultdict(dict). */
  function Assign(h: History, serial: Key, metric: string, window: seq<int>): History
  {
    h[serial := (if serial in h then h[serial] else map[])[metric := window]]
  }

  /** One metric reading handed to `check_metric`. */
  datatype Sample = Sample(metric: string, value: int, temperature: bool)

  predicate Skipped(s: Sample) {
    !s.temperature && IsRawTemperatureName(s.metric)
  }

  /** The store after a call and what the call yielded (or the fault it raised). */
  datatype Step = Step(store: Store, result: Result<seq<Finding>, Fault>)

  /** One `check_metric` call. The window taken from `old_metrics` is the very
      list object that gets appended to and then stored in `metrics`, so when the
      pair was loaded both maps see the new window; otherwise a fresh list goes
      to `metrics` only. */
  function MetricStep(store: Store, maxAttempts: int, fields: map<string, string>, serial: Key, s: Sample): Step
  {
    if Skipped(s) then Step(store, Success([]))
    else
      var prev := Lookup(store.loaded, serial, s.metric);
      var w := NextWindow(prev.GetOr([]), s.value, maxAttempts);
      var loaded := if prev.Some? then Assign(store.loaded, serial, s.metric, w) else store.loaded;
      Step(Store(loaded, Assign(store.current, serial, s.metric, w)),
           MetricFindings(serial, s.metric, s.value, w, ExcludeMetric(CheckExclusions, fields, s.metric)))
  }

  /** Consecutive `check_metric` calls for one disk, stopping at the first fault. */
  function CheckSamples(store: Store, maxAttempts: int, fields: map<string, string>, serial: Key,
                        samples: seq<Sample>): Step
    decreases |samples|
  {
    if samples == [] then Step(store, Success([]))
    else
      var before := CheckSamples(store, maxAttempts, fields, serial, samples[..|samples| - 1]);
      if before.result.Failure? then before
      else
        var last := MetricStep(before.store, maxAttempts, fields, serial, samples[|samples| - 1]);
        Step(last.store, if last.result.Failure? then last.result
                         else Success(before.result.value + last.result.value))
  }
}

module TrendProperties {
  import opened Wrappers
  import opened Findings
  import opened Trend

  /** What remains of a run of calls after a first part has produced `first`. */
  function Continue(first: Step, maxAttempts: int, fields: map<string, string>, serial: Key,
                    rest: seq<Sample>): Step
  {
    if first.result.Failure? then first
    else
      var next := CheckSamples(first.store, maxAttempts, fields, serial, rest);
      Step(next.store, if next.result.Failure? then next.result
                       else Success(first.result.value + next.result.value))
  }

  /** Running two lists of samples one after the other is running their concatenation. */
  lemma {:induction false} CheckSamplesAppend(store: Store, maxAttempts: int, fields: map<string, string>,
                                              serial: Key, a: seq<Sample>, b: seq<Sample>)
    ensures CheckSamples(store, maxAttempts, fields, serial, a + b)
         == Continue(CheckSamples(store, maxAttempts, fields, serial, a), maxAttempts, fields, serial, b)
    decreases |b|
  {
    if b == [] {
      assert a + b == a;
      var first := CheckSamples(store, maxAttempts, fields, serial, a);
      if first.result.Success? {
        assert first.result.value + [] == first.result.value;
      }
    } else {
      var b' := b[..|b| - 1];
      assert (a + b)[..|a + b| - 1] == a + b';
      assert (a + b)[|a + b| - 1] == b[|b| - 1];
      CheckSamplesAppend(store, maxAttempts, fields, serial, a, b');
      var first := CheckSamples(store, maxAttempts, fields, serial, a);
      if first.result.Success? {
        var mid := CheckSamples(first.store, maxAttempts, fields, serial, b');
        if mid.result.Success? {
          var last := MetricStep(mid.store, maxAttempts, fields, serial, b[|b| - 1]);
          if last.result.Success? {
            assert first.result.value + mid.result.value + last.result.value
                == first.result.value + (mid.result.value + last.result.value);
          }
        }
      }
    }
  }

  ghost predicate Has(h: History, k: Key, m: string) {
    k in h && m in h[k]
  }

  /** Every stored window holds at most `bound` values. */
  ghost predicate Bounded(h: History, bound: int) {
    forall k, m :: Has(h, k, m) ==> |h[k][m]| <= bound
  }

  lemma AssignBounded(h: History, k: Key, m: string, w: seq<int>, bound: int)
    requires Bounded(h, bound) && |w| <= bound
    ensures Bounded(Assign(h, k, m, w), bound)
  {
    var h' := Assign(h, k, m, w);
    forall k', m' | Has(h', k', m') ensures |h'[k'][m']| <= bound {
      if k' == k && m' == m {
      } else {
        assert Has(h, k', m');
      }
    }
  }

  /** One call keeps every stored window within `max_attempts + 1` values. */
  lemma MetricStepBounded(store: Store, maxAttempts: int, fields: map<string, string>, serial: Key, s: Sample)
    requires maxAttempts + 1 >= 0
    requires Bounded(store.loaded, maxAttempts + 1) && Bounded(store.current, maxAttempts + 1)
    ensures Bounded(MetricStep(store, maxAttempts, fields, serial, s).store.loaded, maxAttempts + 1)
    ensures Bounded(MetricStep(store, maxAttempts, fields, serial, s).store.current, maxAttempts + 1)
  {
    if !Skipped(s) {
      var prev := Lookup(store.loaded, serial, s.metric);
      assert |prev.GetOr([])| <= maxAttempts + 1 by {
        if prev.Some? {
          assert Has(store.loaded, serial, s.metric);
          assert prev.GetOr([]) == store.loaded[serial][s.metric];
        }
      }
      var w := NextWindow(prev.GetOr([]), s.value, maxAttempts);
      NextWindowBounded(prev.GetOr([]), s.value, maxAttempts);
      AssignBounded(store.current, serial, s.metric, w, maxAttempts + 1);
      if prev.Some? {
        AssignBounded(store.loaded, serial, s.metric, w, maxAttempts + 1);
      }
    }
  }

  /** Retention: windows within `max_attempts + 1` values stay within it, however
      many readings a disk reports. */
  lemma {:induction false} CheckSamplesBounded(store: Store, maxAttempts: int, fields: map<string, string>,
                                               serial: Key, samples: seq<Sample>)
    requires maxAttempts + 1 >= 0
    requires Bounded(store.loaded, maxAttempts + 1) && Bounded(store.current, maxAttempts + 1)
    ensures Bounded(CheckSamples(store, maxAttempts, fields, serial, samples).store.loaded, maxAttempts + 1)
    ensures Bounded(CheckSamples(store, maxAttempts, fields, serial, samples).store.current, maxAttempts + 1)
    decreases |samples|
  {
    if samples != [] {
      var init := samples[..|samples| - 1];
      CheckSamplesBounded(store, maxAttempts, fields, serial, init);
      var before := CheckSamples(store, maxAttempts, fields, serial, init);
      if before.result.Success? {
        MetricStepBounded(before.store, maxAttempts, fields, serial, samples[|samples| - 1]);
      }
    }
  }

  /** The metric names of the samples `check_metric` does not skip, in order. */
  function Processed(samples: seq<Sample>): seq<string>
    decreases |samples|
  {
    if samples == [] then []
    else
      var s := samples[|samples| - 1];
      Processed(samples[..|samples| - 1]) + (if Skipped(s) then [] else [s.metric])
  }

  /** One call adds at most its own pair to the snapshot to be saved. */
  lemma MetricStepTouches(store: Store, maxAttempts: int, fields: map<string, string>, serial: Key, s: Sample)
    ensures forall k, m :: (Has(MetricStep(store, maxAttempts, fields, serial, s).store.current, k, m)
      <==> (Has(store.current, k, m) || (k == serial && m == s.metric && !Skipped(s))))
    ensures forall k :: k != serial && k in store.current ==>
      k in MetricStep(store, maxAttempts, fields, serial, s).store.current
      && MetricStep(store, maxAttempts, fields, serial, s).store.current[k] == store.current[k]
  {
  }

  /** Only the pairs this disk's calls updated are added to the snapshot to be
      saved; every other pair is left as it was. */
  lemma {:induction false} CheckSamplesTouches(store: Store, maxAttempts: int, fields: map<string, string>,
                                               serial: Key, samples: seq<Sample>)
    requires CheckSamples(store, maxAttempts, fields, serial, samples).result.Success?
    ensures forall k, m :: (Has(CheckSamples(store, maxAttempts, fields, serial, samples).store.current, k, m)
      <==> (Has(store.current, k, m) || (k == serial && m in Processed(samples))))
    ensures forall k :: k != serial && k in store.current ==>
      k in CheckSamples(store, maxAttempts, fields, serial, samples).store.current
      && CheckSamples(store, maxAttempts, fields, serial, samples).store.current[k] == store.current[k]
    decreases |samples|
  {
    if samples != [] {
      var init := samples[..|samples| - 1];
      var s := samples[|samples| - 1];
      CheckSamplesTouches(store, maxAttempts, fields, serial, init);
      var before := CheckSamples(store, maxAttempts, fields, serial, init);
      MetricStepTouches(before.store, maxAttempts, fields, serial, s);
      assert Processed(samples) == Processed(init) + (if Skipped(s) then [] else [s.metric]);
      assert CheckSamples(store, maxAttempts, fields, serial, samples).store
          == MetricStep(before.store, maxAttempts, fields, serial, s).store;
    }
  }

  /** `{serial}_{metric}` for each name. */
  function RawNamesFor(serial: Key, names: seq<string>): seq<string>
  {
    seq(|names|, i requires 0 <= i < |names| => KeyText(serial) + "_" + names[i])
  }

  /** The names of the raw-value findings, in order. */
  function RawNames(fs: seq<Finding>): seq<string>
  {
    if fs == [] then []
    else (if fs[0].Raw? then [fs[0].name] else []) + RawNames(fs[1..])
  }

  lemma {:induction false} RawNamesAppend(a: seq<Finding>, b: seq<Finding>)
    ensures RawNames(a + b) == RawNames(a) + RawNames(b)
  {
    if a != [] {
      assert (a + b)[1..] == a[1..] + b;
      RawNamesAppend(a[1..], b);
    } else {
      assert a + b == b;
    }
  }

  /** One call's share of the raw values. */
  lemma MetricStepRawNames(store: Store, maxAttempts: int, fields: map<string, string>, serial: Key, s: Sample)
    requires MetricStep(store, maxAttempts, fields, serial, s).result.Success?
    ensures RawNames(MetricStep(store, maxAttempts, fields, serial, s).result.value)
         == if Skipped(s) then [] else [KeyText(serial) + "_" + s.metric]
  {
    var r := MetricStep(store, maxAttempts, fields, serial, s).result.value;
    if !Skipped(s) {
      var raw := Raw(KeyText(serial) + "_" + s.metric, s.value);
      if |r| == 2 {
        assert r[0].Metadata? && r[1] == raw;
        assert r[1..][1..] == [];
        assert RawNames(r[1..][1..]) == [];
        assert RawNames(r[1..]) == [raw.name];
      } else {
        assert r[0] == raw;
        assert r[1..] == [];
        assert RawNames(r[1..]) == [];
      }
    }
  }

  /** Every reading that is not skipped yields exactly one raw value named
      `{serial}_{metric}`, in reading order, whether or not it is checked or
      excluded. */
  lemma {:induction false} CheckSamplesRawNames(store: Store, maxAttempts: int, fields: map<string, string>,
                                                serial: Key, samples: seq<Sample>)
    requires CheckSamples(store, maxAttempts, fields, serial, samples).result.Success?
    ensures RawNames(CheckSamples(store, maxAttempts, fields, serial, samples).result.value)
         == RawNamesFor(serial, Processed(samples))
    decreases |samples|
  {
    if samples != [] {
      var init := samples[..|samples| - 1];
      var s := samples[|samples| - 1];
      var before := CheckSamples(store, maxAttempts, fields, serial, init);
      assert before.result.Success?;
      CheckSamplesRawNames(store, maxAttempts, fields, serial, init);
      var last := MetricStep(before.store, maxAttempts, fields, serial, s);
      assert last.result.Success?;
      RawNamesAppend(before.result.value, last.result.value);
      MetricStepRawNames(before.store, maxAttempts, fields, serial, s);
      var tail := if Skipped(s) then [] else [s.metric];
      assert Processed(samples) == Processed(init) + tail;
      assert RawNamesFor(serial, Processed(init) + tail)
          == RawNamesFor(serial, Processed(init)) + RawNamesFor(serial, tail);
    }
  }

  predicate NoIncrements(fs: seq<Finding>) {
    forall f :: f in fs ==> !IsIncrement(f)
  }

  /** First run: with nothing loaded every window is the single new value, so no
      reading of any disk is reported as an increment, and the loaded map stays
      empty. */
  lemma {:induction false} FirstRunSilent(store: Store, maxAttempts: int, fields: map<string, string>,
                                          serial: Key, samples: seq<Sample>)
    requires store.loaded == map[] && maxAttempts >= 0
    ensures CheckSamples(store, maxAttempts, fields, serial, samples).store.loaded == map[]
    ensures CheckSamples(store, maxAttempts, fields, serial, samples).result.Success?
    ensures NoIncrements(CheckSamples(store, maxAttempts, fields, serial, samples).result.value)
    decreases |samples|
  {
    if samples != [] {
      var init := samples[..|samples| - 1];
      FirstRunSilent(store, maxAttempts, fields, serial, init);
      var before := CheckSamples(store, maxAttempts, fields, serial, init);
      var s := samples[|samples| - 1];
      FirstReadingSilent(before.store, maxAttempts, fields, serial, s);
      var last := MetricStep(before.store, maxAttempts, fields, serial, s);
      assert before.result.value + last.result.value == CheckSamples(store, maxAttempts, fields, serial, samples).result.value;
    }
  }

  /** One call with nothing loaded for its disk and metric. */
  lemma FirstReadingSilent(store: Store, maxAttempts: int, fields: map<string, string>, serial: Key, s: Sample)
    requires store.loaded == map[] && maxAttempts >= 0
    ensures MetricStep(store, maxAttempts, fields, serial, s).store.loaded == map[]
    ensures MetricStep(store, maxAttempts, fields, serial, s).result.Success?
    ensures NoIncrements(MetricStep(store, maxAttempts, fields, serial, s).result.value)
  {
    if !Skipped(s) {
      assert Lookup(store.loaded, serial, s.metric) == None;
      assert NextWindow([], s.value, maxAttempts) == [s.value];
      assert MaxOf([s.value]) == s.value;
    }
  }

  /** A reading equal to every value already in its window (a counter that did
      not move between runs) is never reported as an increment. */
  lemma StableWindowSilent(serial: Key, metric: string, value: int, prev: seq<int>, maxAttempts: int,
                           excluded: bool)
    requires forall x :: x in prev ==> x == value
    requires maxAttempts >= 0
    ensures MetricFindings(serial, metric, value, NextWindow(prev, value, maxAttempts), excluded).Success?
    ensures NoIncrements(MetricFindings(serial, metric, value, NextWindow(prev, value, maxAttempts), excluded).value)
  {
    var w := NextWindow(prev, value, maxAttempts);
    var all := prev + [value];
    var i := |prev| + 1 - |w|;
    assert w == all[i..];
    forall x | x in w ensures x == value {
      var j :| 0 <= j < |w| && w[j] == x;
      assert all[i + j] == x;
      if i + j < |prev| {
        assert prev[i + j] in prev;
      }
    }
    assert w[0] in w;
    assert MaxOf(w) == value;
  }
}
