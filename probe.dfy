/** The parsed smartctl document of one device and the pure steps of
    `Smart._probe_device`: serial normalisation, the message gate, the
    flattening of attribute tables into readings, and the per-device and
    per-run specifications that the `Smart` class methods follow. */
module Telemetry {
  import opened Wrappers
  import opened Findings
  import opened Text
  import opened ExitStatus
  import opened Trend

  /** One entry of `smartctl.messages`. */
  datatype SmartMessage = SmartMessage(severity: string, text: string)

  /** One row of `ata_smart_attributes.table`: its name and `raw.value`. */
  datatype AtaAttribute = AtaAttribute(name: string, rawValue: int)

  /** A value of `nvme_smart_health_information_log`: a number or a list of numbers. */
  datatype NvmeValue = Scalar(value: int) | Values(values: seq<int>)

  datatype NvmeEntry = NvmeEntry(name: string, value: NvmeValue)

  /** The attribute source selected by `device.type`. */
  datatype Attributes =
    | Sat(table: seq<AtaAttribute>)
    | Nvme(log: seq<NvmeEntry>)
    | OtherType(deviceType: string)

  /** The parts of smartctl's JSON document the check reads. `fields` holds the
      document's top-level string fields (such as `model_family`), which the
      exclusion rules look up; `errorLogCount` is
      `ata_smart_error_log.extended.count` when `ata_smart_error_log` is present;
      `temperature` is `temperature.current` when present. */
  datatype Document = Document(
    exitStatus: int,
    messages: seq<SmartMessage>,
    serialNumber: Option<string>,
    fields: map<string, string>,
    errorLogCount: Option<int>,
    temperature: Option<int>,
    attributes: Attributes)

  /** `serial_number.replace("_", "-")`, so that perfdata labels can be split on
      their first underscore. */
  function NormaliseSerial(s: string): (r: string)
    ensures |r| == |s|
    ensures forall i :: 0 <= i < |s| ==> r[i] == (if s[i] == '_' then '-' else s[i])
    ensures '_' !in r
  {
    if s == [] then []
    else [if s[0] == '_' then '-' else s[0]] + NormaliseSerial(s[1..])
  }

  function SerialOf(doc: Document): Option<string>
  {
    match doc.serialNumber
    case Some(s) => Some(NormaliseSerial(s))
    case None => None
  }

  /** A message that aborts the probe: error severity and not in --ignore-error-message. */
  predicate Fatal(m: SmartMessage, ignored: seq<string>)
  {
    m.severity == "error" && m.text !in ignored
  }

  /** The index of the first fatal message, if any. */
  function FirstFatal(messages: seq<SmartMessage>, ignored: seq<string>): (r: Option<nat>)
    ensures r.None? <==> forall i :: 0 <= i < |messages| ==> !Fatal(messages[i], ignored)
    ensures r.Some? ==> (r.value < |messages| && Fatal(messages[r.value], ignored)
                         && forall i :: 0 <= i < r.value ==> !Fatal(messages[i], ignored))
  {
    if messages == [] then None
    else if Fatal(messages[0], ignored) then Some(0)
    else
      match FirstFatal(messages[1..], ignored)
      case None => None
      case Some(k) => Some(k + 1)
  }

  /** The CheckError `_handle_smart_messages` raises, if any. */
  function MessagesFault(device: Option<string>, messages: seq<SmartMessage>, ignored: seq<string>): Option<Fault>
  {
    match FirstFatal(messages, ignored)
    case None => None
    case Some(i) =>
      Some(CheckError("smartctl returned an error for " + DeviceText(device) + ": " + messages[i].text))
  }

  /** The readings of an ATA attribute table, one per row. */
  function AtaSamples(table: seq<AtaAttribute>): (r: seq<Sample>)
    ensures |r| == |table|
    ensures forall i :: 0 <= i < |table| ==> r[i] == Sample(table[i].name, table[i].rawValue, false)
  {
    seq(|table|, i requires 0 <= i < |table| => Sample(table[i].name, table[i].rawValue, false))
  }

  /** The readings of one NVMe log entry: the value itself, or one reading
      `{name}_{i}` per element of a list. */
  function EntrySamples(e: NvmeEntry): seq<Sample>
  {
    match e.value
    case Scalar(v) => [Sample(e.name, v, false)]
    case Values(vs) => seq(|vs|, i requires 0 <= i < |vs| => Sample(e.name + "_" + NatToString(i), vs[i], false))
  }

  function NvmeSamples(log: seq<NvmeEntry>): seq<Sample>
    decreases |log|
  {
    if log == [] then [] else NvmeSamples(log[..|log| - 1]) + EntrySamples(log[|log| - 1])
  }

  /** The values of an NVMe log in log order, lists spliced in place. */
  function NvmeValuesInOrder(log: seq<NvmeEntry>): seq<int>
  {
    if log == [] then []
    else
      (match log[0].value case Scalar(v) => [v] case Values(vs) => vs) + NvmeValuesInOrder(log[1..])
  }

  function SampleValues(samples: seq<Sample>): (r: seq<int>)
    ensures |r| == |samples|
  {
    seq(|samples|, i requires 0 <= i < |samples| => samples[i].value)
  }

  /** `_handle_other_metrics`: the readings it hands to `check_metric`. */
  function OtherSamples(attrs: Attributes): seq<Sample>
  {
    match attrs
    case Sat(table) => AtaSamples(table)
    case Nvme(log) => NvmeSamples(log)
    case OtherType(_) => []
  }

  /** The reading made from the error log, when the document has one. */
  function ErrorLogSamples(doc: Document): seq<Sample>
  {
    match doc.errorLogCount
    case Some(c) => [Sample("ata_smart_error_log_count", c, false)]
    case None => []
  }

  /** The current temperature, the one reading exempt from the temperature skip. */
  function TemperatureSamples(doc: Document): seq<Sample>
  {
    match doc.temperature
    case Some(t) => [Sample("temperature", t, true)]
    case None => []
  }

  /** All readings of one device, in the order `_probe_device` checks them. */
  function DeviceSamples(doc: Document): seq<Sample>
  {
    ErrorLogSamples(doc) + TemperatureSamples(doc) + OtherSamples(doc.attributes)
  }
}

module Probe {
  import opened Seqs
  import opened Wrappers
  import opened Text
  import opened Findings
  import opened ExitStatus
  import opened Trend
  import opened TrendProperties
  import opened DeviceFilter
  import opened Telemetry

  /** The command-line options the probe reads. Device paths are strings;
      --exclude-metrics is parsed by the command line but never read. */
  datatype Args = Args(
    devices: seq<string>,
    excludeDevices: seq<string>,
    skipRemovable: bool,
    maxAttempts: int,
    ignoreFailingCommands: bool,
    ignoreErrorMessage: seq<string>,
    listDevices: bool,
    loadJson: bool)

  /** How the environment resolves a path (`Path.resolve`, which never fails). */
  type Resolver = string -> string

  /** Where the smartctl document of a device comes from: smartctl's JSON for a
      path, standard input for `None`; a document that does not decode is a fault. */
  type Fetcher = Option<string> -> Result<Document, Fault>

  function ResolveAll(paths: seq<string>, resolve: Resolver): (r: seq<string>)
    ensures |r| == |paths|
    ensures forall i :: 0 <= i < |paths| ==> r[i] == resolve(paths[i])
  {
    seq(|paths|, i requires 0 <= i < |paths| => resolve(paths[i]))
  }

  function SelectionOf(args: Args, resolve: Resolver): Selection
  {
    Selection(ResolveAll(args.devices, resolve), ResolveAll(args.excludeDevices, resolve),
              args.devices != [], args.skipRemovable)
  }

  /** `_probe_device` on a store: the message gate, then the exit status, then
      every reading of the device in order. A fault leaves the store as it was. */
  function ProbeDeviceSpec(store: Store, args: Args, device: Option<string>, doc: Result<Document, Fault>): Step
  {
    if doc.Failure? then Step(store, Failure(doc.error))
    else
      var d := doc.value;
      var gate := MessagesFault(device, d.messages, args.ignoreErrorMessage);
      if gate.Some? then Step(store, Failure(gate.value))
      else
        var serial := SerialOf(d);
        var status := ParseExitStatus(device, serial, d.exitStatus, args.ignoreFailingCommands);
        if status.Failure? then Step(store, Failure(status.error))
        else Continue(Step(store, Success(status.value)), args.maxAttempts, d.fields, SerialKey(serial),
                      DeviceSamples(d))
  }

  /** A run over several devices: what the store became, every finding yielded
      before the run stopped, and the fault that stopped it. */
  datatype Run = Run(store: Store, findings: seq<Finding>, fault: Option<Fault>)

  /** The devices probed one after the other; findings of earlier devices stay
      yielded when a later device raises. */
  function ProbeDevices(store: Store, args: Args, fetch: Fetcher, devices: seq<Option<string>>): Run
    decreases |devices|
  {
    if devices == [] then Run(store, [], None)
    else
      var before := ProbeDevices(store, args, fetch, devices[..|devices| - 1]);
      if before.fault.Some? then before
      else
        var dev := devices[|devices| - 1];
        var step := ProbeDeviceSpec(before.store, args, dev, fetch(dev));
        if step.result.Failure? then Run(step.store, before.findings, Some(step.result.error))
        else Run(step.store, before.findings + step.result.value, None)
  }

  /** What a call of `probe` yields, the fault it raises, and the history it
      saves to the state file (None when nothing is saved). */
  datatype ProbeOutcome = ProbeOutcome(findings: seq<Finding>, fault: Option<Fault>, saved: Option<History>)

  datatype ProbeRun = ProbeRun(store: Store, outcome: ProbeOutcome)

  function StateFile(uniqueHash: string): string
  {
    "/var/tmp/.check_smart_" + uniqueHash
  }

  function FirstRunWarning(uniqueHash: string): Finding
  {
    Metadata("warning", Message("No data in state file " + StateFile(uniqueHash) + ", first run?"))
  }

  function NoDeviceFault(args: Args): Fault
  {
    CheckError("Could not find any device matching " + Join(args.devices, ", "))
  }

  function AsDevices(paths: seq<string>): (r: seq<Option<string>>)
    ensures |r| == |paths|
  {
    seq(|paths|, i requires 0 <= i < |paths| => Some(paths[i]))
  }

  /** The devices `probe` visits once it gets past device discovery. */
  function ProbedDevices(args: Args, sysBlock: seq<SysBlockEntry>, resolve: Resolver): seq<Option<string>>
  {
    if args.loadJson then [None] else AsDevices(KeptPaths(sysBlock, SelectionOf(args, resolve)))
  }

  /** `probe`: device discovery (unless the document comes from standard
      input), then a fresh `metrics`, the history from the state file (or a
      first-run warning), every device, and the save, which happens only when
      no device raised. `stored` is the state file's `metrics` entry. */
  function ProbeSpec(args: Args, uniqueHash: string, start: Store, sysBlock: seq<SysBlockEntry>,
                     resolve: Resolver, fetch: Fetcher, stored: Option<History>): ProbeRun
  {
    var listed := KeptPaths(sysBlock, SelectionOf(args, resolve));
    if !args.loadJson && listed == [] then
      ProbeRun(start, ProbeOutcome([], Some(NoDeviceFault(args)), None))
    else if !args.loadJson && args.listDevices then
      ProbeRun(start, ProbeOutcome([], None, None))
    else
      var loaded := if stored.Some? then stored.value else start.loaded;
      var warning := if stored.Some? then [] else [FirstRunWarning(uniqueHash)];
      var run := ProbeDevices(Store(loaded, map[]), args, fetch, ProbedDevices(args, sysBlock, resolve));
      ProbeRun(run.store, ProbeOutcome(warning + run.findings, run.fault,
                                       if run.fault.None? then Some(run.store.current) else None))
  }

  /** Later calls cannot undo a fault: once a prefix of the readings has
      raised, the whole list ends as that prefix did. */
  lemma CheckSamplesStops(store: Store, maxAttempts: int, fields: map<string, string>, serial: Key,
                          samples: seq<Sample>, k: nat)
    requires k <= |samples|
    requires CheckSamples(store, maxAttempts, fields, serial, samples[..k]).result.Failure?
    ensures CheckSamples(store, maxAttempts, fields, serial, samples)
         == CheckSamples(store, maxAttempts, fields, serial, samples[..k])
  {
    CheckSamplesAppend(store, maxAttempts, fields, serial, samples[..k], samples[k..]);
    assert samples[..k] + samples[k..] == samples;
  }

  /** Continuing in two parts is continuing with their concatenation. */
  lemma ContinueAppend(first: Step, maxAttempts: int, fields: map<string, string>, serial: Key,
                       a: seq<Sample>, b: seq<Sample>)
    ensures Continue(first, maxAttempts, fields, serial, a + b)
         == Continue(Continue(first, maxAttempts, fields, serial, a), maxAttempts, fields, serial, b)
  {
    if first.result.Success? {
      CheckSamplesAppend(first.store, maxAttempts, fields, serial, a, b);
      var na := CheckSamples(first.store, maxAttempts, fields, serial, a);
      if na.result.Success? {
        var nb := CheckSamples(na.store, maxAttempts, fields, serial, b);
        if nb.result.Success? {
          assert first.result.value + (na.result.value + nb.result.value)
              == (first.result.value + na.result.value) + nb.result.value;
        }
      }
    }
  }

  /** One more reading after a run that has not raised. */
  lemma CheckSamplesSnoc(start: Store, maxAttempts: int, fields: map<string, string>, serial: Key,
                         xs: seq<Sample>, x: Sample, acc: seq<Finding>, mid: Store)
    requires CheckSamples(start, maxAttempts, fields, serial, xs) == Step(mid, Success(acc))
    ensures var t := MetricStep(mid, maxAttempts, fields, serial, x);
            (CheckSamples(start, maxAttempts, fields, serial, xs + [x])
             == if t.result.Failure? then t else Step(t.store, Success(acc + t.result.value)))
  {
    assert (xs + [x])[..|xs|] == xs;
  }

  /** One reading inside a loop over a list of readings: a fault ends the whole
      list, otherwise the reading's findings follow the earlier ones. */
  lemma SampleStep(start: Store, maxAttempts: int, fields: map<string, string>, serial: Key,
                   all: seq<Sample>, i: nat, acc: seq<Finding>, mid: Store, t: Step)
    requires i < |all|
    requires CheckSamples(start, maxAttempts, fields, serial, all[..i]) == Step(mid, Success(acc))
    requires t == MetricStep(mid, maxAttempts, fields, serial, all[i])
    ensures t.result.Failure? ==> CheckSamples(start, maxAttempts, fields, serial, all) == t
    ensures t.result.Success? ==>
      CheckSamples(start, maxAttempts, fields, serial, all[..i + 1]) == Step(t.store, Success(acc + t.result.value))
  {
    CheckSamplesNext(start, maxAttempts, fields, serial, all, i, acc, mid, t);
    if t.result.Failure? {
      CheckSamplesStops(start, maxAttempts, fields, serial, all, i + 1);
    }
  }

  /** The run over the first i + 1 readings, from the run over the first i. */
  lemma CheckSamplesNext(start: Store, maxAttempts: int, fields: map<string, string>, serial: Key,
                         all: seq<Sample>, i: nat, acc: seq<Finding>, mid: Store, t: Step)
    requires i < |all|
    requires CheckSamples(start, maxAttempts, fields, serial, all[..i]) == Step(mid, Success(acc))
    requires t == MetricStep(mid, maxAttempts, fields, serial, all[i])
    ensures CheckSamples(start, maxAttempts, fields, serial, all[..i + 1])
         == if t.result.Failure? then t else Step(t.store, Success(acc + t.result.value))
  {
    var p := all[..i + 1];
    assert p[..|p| - 1] == all[..i];
    assert p[|p| - 1] == all[i];
    assert CheckSamples(start, maxAttempts, fields, serial, p)
        == (var before := CheckSamples(start, maxAttempts, fields, serial, p[..|p| - 1]);
            if before.result.Failure? then before
            else
              var last := MetricStep(before.store, maxAttempts, fields, serial, p[|p| - 1]);
              Step(last.store, if last.result.Failure? then last.result
                               else Success(before.result.value + last.result.value)));
  }

  /** Continuing with nothing changes nothing; continuing with one reading is one
      more `check_metric` call. */
  lemma ContinueShort(first: Step, maxAttempts: int, fields: map<string, string>, serial: Key, x: Sample)
    requires first.result.Success?
    ensures Continue(first, maxAttempts, fields, serial, []) == first
    ensures var t := MetricStep(first.store, maxAttempts, fields, serial, x);
            (Continue(first, maxAttempts, fields, serial, [x])
             == if t.result.Failure? then t else Step(t.store, Success(first.result.value + t.result.value)))
  {
    assert first.result.value + [] == first.result.value;
    assert [x][..0] == [];
    var t := MetricStep(first.store, maxAttempts, fields, serial, x);
    if t.result.Success? {
      assert [] + t.result.value == t.result.value;
    }
  }

  /** The current temperature is not a checked metric, so its call never raises. */
  lemma TemperatureNeverFails(store: Store, maxAttempts: int, fields: map<string, string>, serial: Key, t: int)
    ensures MetricStep(store, maxAttempts, fields, serial, Sample("temperature", t, true)).result.Success?
  {
    assert "temperature" !in CheckedMetrics;
  }

  lemma NvmeSamplesAppend(a: seq<NvmeEntry>, b: seq<NvmeEntry>)
    ensures NvmeSamples(a + b) == NvmeSamples(a) + NvmeSamples(b)
  {
    NvmeSamplesFlatMap(a + b);
    NvmeSamplesFlatMap(a);
    NvmeSamplesFlatMap(b);
    FlatMapAppend(a, b, EntrySamples);
  }

  /** The readings of a log are its entries' readings one after the other. */
  lemma {:induction false} NvmeSamplesFlatMap(log: seq<NvmeEntry>)
    ensures NvmeSamples(log) == FlatMap(log, EntrySamples)
    decreases |log|
  {
    if log != [] {
      NvmeSamplesFlatMap(log[..|log| - 1]);
    }
  }

  /** A reading that is not skipped: the window is extended, stored in the
      snapshot to be saved (and in the loaded history when it came from
      there), and judged by `MetricFindings`. */
  lemma MetricStepUnfold(store: Store, maxAttempts: int, fields: map<string, string>, serial: Key, s: Sample)
    requires !Skipped(s)
    ensures var prev := Lookup(store.loaded, serial, s.metric);
            var w := NextWindow(prev.GetOr([]), s.value, maxAttempts);
            (MetricStep(store, maxAttempts, fields, serial, s)
         == Step(Store(if prev.Some? then Assign(store.loaded, serial, s.metric, w) else store.loaded,
                       Assign(store.current, serial, s.metric, w)),
                 MetricFindings(serial, s.metric, s.value, w, ExcludeMetric(CheckExclusions, fields, s.metric))))
  {
  }

  /** One more NVMe entry after a run that has not raised. */
  lemma NvmeEntrySnoc(start: Store, maxAttempts: int, fields: map<string, string>, serial: Key,
                      log: seq<NvmeEntry>, i: nat, acc: seq<Finding>, mid: Store)
    requires i < |log|
    requires CheckSamples(start, maxAttempts, fields, serial, NvmeSamples(log[..i])) == Step(mid, Success(acc))
    ensures var t := CheckSamples(mid, maxAttempts, fields, serial, EntrySamples(log[i]));
            (CheckSamples(start, maxAttempts, fields, serial, NvmeSamples(log[..i + 1]))
             == if t.result.Failure? then t else Step(t.store, Success(acc + t.result.value)))
  {
    CheckSamplesAppend(start, maxAttempts, fields, serial, NvmeSamples(log[..i]), EntrySamples(log[i]));
    assert log[..i + 1][..i] == log[..i];
  }

  /** One NVMe entry inside the loop over the log: a fault ends the whole log,
      otherwise the entry's findings follow the earlier ones. */
  lemma NvmeEntryStep(start: Store, maxAttempts: int, fields: map<string, string>, serial: Key,
                      log: seq<NvmeEntry>, i: nat, acc: seq<Finding>, mid: Store, t: Step)
    requires i < |log|
    requires CheckSamples(start, maxAttempts, fields, serial, NvmeSamples(log[..i])) == Step(mid, Success(acc))
    requires t == CheckSamples(mid, maxAttempts, fields, serial, EntrySamples(log[i]))
    ensures t.result.Failure? ==> CheckSamples(start, maxAttempts, fields, serial, NvmeSamples(log)) == t
    ensures t.result.Success? ==>
      CheckSamples(start, maxAttempts, fields, serial, NvmeSamples(log[..i + 1]))
      == Step(t.store, Success(acc + t.result.value))
  {
    NvmeEntrySnoc(start, maxAttempts, fields, serial, log, i, acc, mid);
    if t.result.Failure? {
      NvmeStops(start, maxAttempts, fields, serial, log, i + 1);
    }
  }

  lemma NvmeSamplesNone(log: seq<NvmeEntry>)
    ensures NvmeSamples(log[..0]) == []
  {
    assert log[..0] == [];
  }

  lemma NvmeSamplesAll(log: seq<NvmeEntry>)
    ensures NvmeSamples(log[..|log|]) == NvmeSamples(log)
  {
    assert log[..|log|] == log;
  }

  /** A fault inside an NVMe entry ends the whole log there. */
  lemma NvmeStops(start: Store, maxAttempts: int, fields: map<string, string>, serial: Key,
                  log: seq<NvmeEntry>, i: nat)
    requires i <= |log|
    requires CheckSamples(start, maxAttempts, fields, serial, NvmeSamples(log[..i])).result.Failure?
    ensures CheckSamples(start, maxAttempts, fields, serial, NvmeSamples(log))
         == CheckSamples(start, maxAttempts, fields, serial, NvmeSamples(log[..i]))
  {
    NvmeSamplesAppend(log[..i], log[i..]);
    assert log[..i] + log[i..] == log;
    CheckSamplesStops(start, maxAttempts, fields, serial, NvmeSamples(log), |NvmeSamples(log[..i])|);
    assert NvmeSamples(log)[..|NvmeSamples(log[..i])|] == NvmeSamples(log[..i]);
  }

  /** A device that raised ends the run: later devices change nothing. */
  lemma {:induction false} ProbeDevicesStops(store: Store, args: Args, fetch: Fetcher,
                                             devices: seq<Option<string>>, k: nat)
    requires k <= |devices|
    requires ProbeDevices(store, args, fetch, devices[..k]).fault.Some?
    ensures ProbeDevices(store, args, fetch, devices) == ProbeDevices(store, args, fetch, devices[..k])
    decreases |devices|
  {
    if k < |devices| {
      var init := devices[..|devices| - 1];
      assert init[..k] == devices[..k];
      ProbeDevicesStops(store, args, fetch, init, k);
    } else {
      assert devices[..k] == devices;
    }
  }

  /** One more device of the loop: a fault ends the whole list there, and
      otherwise its findings follow the earlier ones. */
  lemma DeviceStep(start: Store, args: Args, fetch: Fetcher, devices: seq<Option<string>>, i: nat,
                   yielded: seq<Finding>, mid: Store, step: Step)
    requires i < |devices|
    requires ProbeDevices(start, args, fetch, devices[..i]) == Run(mid, yielded, None)
    requires step == ProbeDeviceSpec(mid, args, devices[i], fetch(devices[i]))
    ensures step.result.Failure? ==>
      ProbeDevices(start, args, fetch, devices) == Run(step.store, yielded, Some(step.result.error))
    ensures step.result.Success? ==>
      ProbeDevices(start, args, fetch, devices[..i + 1]) == Run(step.store, yielded + step.result.value, None)
  {
    assert devices[..i + 1][..i] == devices[..i];
    if step.result.Failure? {
      ProbeDevicesStops(start, args, fetch, devices, i + 1);
    }
  }

  /** Findings that are all metadata carry no raw values. */
  lemma {:induction false} RawNamesOfMetadata(fs: seq<Finding>)
    requires forall f :: f in fs ==> f.Metadata?
    ensures RawNames(fs) == []
  {
    if fs != [] {
      assert fs[0] in fs;
      assert forall f :: f in fs[1..] ==> f in fs;
      RawNamesOfMetadata(fs[1..]);
    }
  }

  /** Processing two lists of readings one after the other. */
  lemma {:induction false} ProcessedAppend(a: seq<Sample>, b: seq<Sample>)
    ensures Processed(a + b) == Processed(a) + Processed(b)
    decreases |b|
  {
    if b == [] {
      assert a + b == a;
    } else {
      assert (a + b)[..|a + b| - 1] == a + b[..|b| - 1];
      ProcessedAppend(a, b[..|b| - 1]);
    }
  }

  /** Readings that are not the current temperature leave no raw temperature
      name behind: the skip removes every one of them. */
  lemma {:induction false} ProcessedWithoutTemperature(samples: seq<Sample>)
    requires forall i :: 0 <= i < |samples| ==> !samples[i].temperature
    ensures forall m :: m in Processed(samples) ==> !IsRawTemperatureName(m)
    decreases |samples|
  {
    if samples != [] {
      ProcessedWithoutTemperature(samples[..|samples| - 1]);
    }
  }

  lemma {:induction false} NvmeSamplesNotTemperature(log: seq<NvmeEntry>)
    ensures forall i :: 0 <= i < |NvmeSamples(log)| ==> !NvmeSamples(log)[i].temperature
    decreases |log|
  {
    if log != [] {
      NvmeSamplesNotTemperature(log[..|log| - 1]);
    }
  }

  /** The metric names one device records, in order: the error-log count, the
      current temperature, then the attribute table, in which no raw temperature
      name survives. */
  lemma DeviceProcessed(doc: Document)
    ensures Processed(DeviceSamples(doc))
         == (if doc.errorLogCount.Some? then ["ata_smart_error_log_count"] else [])
          + (if doc.temperature.Some? then ["temperature"] else [])
          + Processed(OtherSamples(doc.attributes))
    ensures forall m :: m in Processed(OtherSamples(doc.attributes)) ==> !IsRawTemperatureName(m)
  {
    var e := ErrorLogSamples(doc);
    var t := TemperatureSamples(doc);
    var o := OtherSamples(doc.attributes);
    ProcessedAppend(e + t, o);
    ProcessedAppend(e, t);
    ErrorLogProcessed(doc);
    TemperatureProcessed(doc);
    OtherWithoutTemperature(doc.attributes);
  }

  lemma ErrorLogProcessed(doc: Document)
    ensures Processed(ErrorLogSamples(doc))
         == if doc.errorLogCount.Some? then ["ata_smart_error_log_count"] else []
  {
    if doc.errorLogCount.Some? {
      var e := ErrorLogSamples(doc);
      assert !IsRawTemperatureName("ata_smart_error_log_count") by {
        assert LowerAscii('a') != 't';
      }
      assert e[..0] == [];
    }
  }

  lemma TemperatureProcessed(doc: Document)
    ensures Processed(TemperatureSamples(doc)) == if doc.temperature.Some? then ["temperature"] else []
  {
    if doc.temperature.Some? {
      assert TemperatureSamples(doc)[..0] == [];
    }
  }

  lemma OtherWithoutTemperature(attrs: Attributes)
    ensures forall m :: m in Processed(OtherSamples(attrs)) ==> !IsRawTemperatureName(m)
  {
    if attrs.Nvme? {
      NvmeSamplesNotTemperature(attrs.log);
    }
    ProcessedWithoutTemperature(OtherSamples(attrs));
  }

  /** The stream of one device: its exit-status findings first, then one raw
      value `{serial}_{metric}` per recorded reading, in reading order. */
  lemma ProbeDeviceOrder(store: Store, args: Args, device: Option<string>, doc: Document)
    requires ProbeDeviceSpec(store, args, device, Success(doc)).result.Success?
    ensures var serial := SerialOf(doc);
            var status := ParseExitStatus(device, serial, doc.exitStatus, args.ignoreFailingCommands);
            var readings := CheckSamples(store, args.maxAttempts, doc.fields, SerialKey(serial), DeviceSamples(doc));
            (&& status.Success?
             && readings.result.Success?
             && ProbeDeviceSpec(store, args, device, Success(doc)).result.value == status.value + readings.result.value
             && RawNames(ProbeDeviceSpec(store, args, device, Success(doc)).result.value)
                == RawNamesFor(SerialKey(serial), Processed(DeviceSamples(doc))))
  {
    var serial := SerialOf(doc);
    var status := ParseExitStatus(device, serial, doc.exitStatus, args.ignoreFailingCommands);
    var readings := CheckSamples(store, args.maxAttempts, doc.fields, SerialKey(serial), DeviceSamples(doc));
    RawNamesOfMetadata(status.value);
    CheckSamplesRawNames(store, args.maxAttempts, doc.fields, SerialKey(serial), DeviceSamples(doc));
    RawNamesAppend(status.value, readings.result.value);
  }

  lemma SampleValuesAppend(a: seq<Sample>, b: seq<Sample>)
    ensures SampleValues(a + b) == SampleValues(a) + SampleValues(b)
  {
  }

  lemma EntryValues(e: NvmeEntry)
    ensures SampleValues(EntrySamples(e)) == match e.value case Scalar(v) => [v] case Values(vs) => vs
  {
  }

  /** Both NVMe flattenings agree: the readings' values are the log's values
      with every list spliced in place. */
  lemma {:induction false} NvmeFlattening(log: seq<NvmeEntry>)
    ensures SampleValues(NvmeSamples(log)) == NvmeValuesInOrder(log)
    decreases |log|
  {
    if log != [] {
      NvmeSamplesAppend([log[0]], log[1..]);
      assert [log[0]] + log[1..] == log;
      assert NvmeSamples([log[0]]) == EntrySamples(log[0]) by {
        assert [log[0]][..0] == [];
      }
      NvmeFlattening(log[1..]);
      SampleValuesAppend(EntrySamples(log[0]), NvmeSamples(log[1..]));
      EntryValues(log[0]);
    }
  }

  /** A device whose document was read reports the pair (its serial, a metric
      it recorded). */
  ghost predicate DeviceReports(doc: Result<Document, Fault>, k: Key, m: string)
  {
    doc.Success? && k == SerialKey(SerialOf(doc.value)) && m in Processed(DeviceSamples(doc.value))
  }

  /** Some device of the run reports the pair. */
  ghost predicate Reported(fetch: Fetcher, devices: seq<Option<string>>, k: Key, m: string)
  {
    Any(devices, d => DeviceReports(fetch(d), k, m))
  }

  /** A device that did not raise adds exactly the pairs it reports to the
      snapshot to be saved. */
  lemma ProbeDeviceTouches(store: Store, args: Args, device: Option<string>, doc: Result<Document, Fault>)
    requires ProbeDeviceSpec(store, args, device, doc).result.Success?
    ensures forall k, m :: Has(ProbeDeviceSpec(store, args, device, doc).store.current, k, m)
                       <==> Has(store.current, k, m) || DeviceReports(doc, k, m)
  {
    var d := doc.value;
    CheckSamplesTouches(store, args.maxAttempts, d.fields, SerialKey(SerialOf(d)), DeviceSamples(d));
  }

  /** A run that did not raise adds exactly the reported pairs. */
  lemma {:induction false} ProbeDevicesTouches(store: Store, args: Args, fetch: Fetcher, devices: seq<Option<string>>)
    requires ProbeDevices(store, args, fetch, devices).fault.None?
    ensures forall k, m :: Has(ProbeDevices(store, args, fetch, devices).store.current, k, m)
                       <==> Has(store.current, k, m) || Reported(fetch, devices, k, m)
    decreases |devices|
  {
    if devices != [] {
      var init := devices[..|devices| - 1];
      var dev := devices[|devices| - 1];
      var before := ProbeDevices(store, args, fetch, init);
      ProbeDevicesTouches(store, args, fetch, init);
      ProbeDeviceTouches(before.store, args, dev, fetch(dev));
      ReportedSnoc(fetch, devices);
    }
  }

  lemma ReportedSnoc(fetch: Fetcher, devices: seq<Option<string>>)
    requires devices != []
    ensures forall k, m :: Reported(fetch, devices, k, m)
                       <==> Reported(fetch, devices[..|devices| - 1], k, m)
                            || DeviceReports(fetch(devices[|devices| - 1]), k, m)
  {
    forall k, m ensures Reported(fetch, devices, k, m)
                    <==> Reported(fetch, devices[..|devices| - 1], k, m)
                         || DeviceReports(fetch(devices[|devices| - 1]), k, m) {
      ReportedSnocAt(fetch, devices, k, m);
    }
  }

  lemma ReportedSnocAt(fetch: Fetcher, devices: seq<Option<string>>, k: Key, m: string)
    requires devices != []
    ensures Reported(fetch, devices, k, m)
        <==> Reported(fetch, devices[..|devices| - 1], k, m) || DeviceReports(fetch(devices[|devices| - 1]), k, m)
  {
    AnySnoc(devices, d => DeviceReports(fetch(d), k, m));
  }

  /** Retention across devices: windows within `max_attempts + 1` values stay
      within it in both maps. */
  lemma {:induction false} ProbeDevicesBounded(store: Store, args: Args, fetch: Fetcher, devices: seq<Option<string>>)
    requires args.maxAttempts + 1 >= 0
    requires Bounded(store.loaded, args.maxAttempts + 1) && Bounded(store.current, args.maxAttempts + 1)
    ensures Bounded(ProbeDevices(store, args, fetch, devices).store.loaded, args.maxAttempts + 1)
    ensures Bounded(ProbeDevices(store, args, fetch, devices).store.current, args.maxAttempts + 1)
    decreases |devices|
  {
    if devices != [] {
      var init := devices[..|devices| - 1];
      var before := ProbeDevices(store, args, fetch, init);
      ProbeDevicesBounded(store, args, fetch, init);
      if before.fault.None? {
        var dev := devices[|devices| - 1];
        ProbeDeviceBounded(before.store, args, dev, fetch(dev));
      }
    }
  }

  /** One device keeps every window within `max_attempts + 1` values. */
  lemma ProbeDeviceBounded(store: Store, args: Args, device: Option<string>, doc: Result<Document, Fault>)
    requires args.maxAttempts + 1 >= 0
    requires Bounded(store.loaded, args.maxAttempts + 1) && Bounded(store.current, args.maxAttempts + 1)
    ensures Bounded(ProbeDeviceSpec(store, args, device, doc).store.loaded, args.maxAttempts + 1)
    ensures Bounded(ProbeDeviceSpec(store, args, device, doc).store.current, args.maxAttempts + 1)
  {
    if doc.Success? {
      var d := doc.value;
      CheckSamplesBounded(store, args.maxAttempts, d.fields, SerialKey(SerialOf(d)), DeviceSamples(d));
    }
  }

  /** With nothing loaded, no device reports an increment: its exit-status
      findings are status findings, and every window holds one value. */
  lemma {:induction false} ProbeDevicesFirstRun(store: Store, args: Args, fetch: Fetcher, devices: seq<Option<string>>)
    requires store.loaded == map[] && args.maxAttempts >= 0
    ensures ProbeDevices(store, args, fetch, devices).store.loaded == map[]
    ensures NoIncrements(ProbeDevices(store, args, fetch, devices).findings)
    decreases |devices|
  {
    if devices != [] {
      var init := devices[..|devices| - 1];
      var dev := devices[|devices| - 1];
      var before := ProbeDevices(store, args, fetch, init);
      ProbeDevicesFirstRun(store, args, fetch, init);
      if before.fault.None? {
        ProbeDeviceFirstRun(before.store, args, dev, fetch(dev));
        var step := ProbeDeviceSpec(before.store, args, dev, fetch(dev));
        if step.result.Success? {
          NoIncrementsAppend(before.findings, step.result.value);
        }
      }
    }
  }

  /** One device with nothing loaded: its exit-status findings are status
      findings, and every window holds one value. */
  lemma ProbeDeviceFirstRun(store: Store, args: Args, dev: Option<string>, doc: Result<Document, Fault>)
    requires store.loaded == map[] && args.maxAttempts >= 0
    ensures ProbeDeviceSpec(store, args, dev, doc).store.loaded == map[]
    ensures var step := ProbeDeviceSpec(store, args, dev, doc);
            step.result.Success? ==> NoIncrements(step.result.value)
  {
    if doc.Success? {
      var d := doc.value;
      if MessagesFault(dev, d.messages, args.ignoreErrorMessage).None? {
        var status := ParseExitStatus(dev, SerialOf(d), d.exitStatus, args.ignoreFailingCommands);
        if status.Success? {
          StatusNoIncrements(dev, SerialOf(d), d.exitStatus, args.ignoreFailingCommands);
          ContinueFirstRun(Step(store, status), args.maxAttempts, d.fields, SerialKey(SerialOf(d)), DeviceSamples(d));
        }
      }
    }
  }

  /** The exit status yields status findings only. */
  lemma StatusNoIncrements(dev: Option<string>, serial: Option<string>, status: int, ignoreFailingCommands: bool)
    ensures var r := ParseExitStatus(dev, serial, status, ignoreFailingCommands);
            r.Success? ==> NoIncrements(r.value)
  {
    var r := ParseExitStatus(dev, serial, status, ignoreFailingCommands);
    if r.Success? {
      ParseExitStatusOnlyStatus(dev, serial, status, ignoreFailingCommands);
      forall f | f in r.value ensures !IsIncrement(f) {
        assert f.hint.Status?;
      }
    }
  }

  /** Readings with nothing loaded add no increment to what came before. */
  lemma ContinueFirstRun(first: Step, maxAttempts: int, fields: map<string, string>, serial: Key, rest: seq<Sample>)
    requires first.store.loaded == map[] && maxAttempts >= 0
    requires first.result.Success? && NoIncrements(first.result.value)
    ensures Continue(first, maxAttempts, fields, serial, rest).store.loaded == map[]
    ensures Continue(first, maxAttempts, fields, serial, rest).result.Success?
    ensures NoIncrements(Continue(first, maxAttempts, fields, serial, rest).result.value)
  {
    FirstRunSilent(first.store, maxAttempts, fields, serial, rest);
    var next := CheckSamples(first.store, maxAttempts, fields, serial, rest);
    NoIncrementsAppend(first.result.value, next.result.value);
  }

  lemma NoIncrementsAppend(a: seq<Finding>, b: seq<Finding>)
    requires NoIncrements(a) && NoIncrements(b)
    ensures NoIncrements(a + b)
  {
    forall f | f in a + b ensures !IsIncrement(f) {
      assert f in a || f in b;
    }
  }

  /** Whether `probe` got past device discovery and listing. */
  predicate Probes(args: Args, sysBlock: seq<SysBlockEntry>, resolve: Resolver)
  {
    args.loadJson || (KeptPaths(sysBlock, SelectionOf(args, resolve)) != [] && !args.listDevices)
  }

  /** The state file is written exactly when the devices were probed and none
      raised, and what it receives is the fresh snapshot: the pairs reported by
      this run and nothing carried over from earlier runs. */
  lemma ProbeSavesThisRun(args: Args, uniqueHash: string, start: Store, sysBlock: seq<SysBlockEntry>,
                          resolve: Resolver, fetch: Fetcher, stored: Option<History>)
    ensures var o := ProbeSpec(args, uniqueHash, start, sysBlock, resolve, fetch, stored).outcome;
            (&& (o.saved.Some? <==> Probes(args, sysBlock, resolve) && o.fault.None?)
             && (o.saved.Some? ==>
                  forall k, m :: Has(o.saved.value, k, m)
                             <==> Reported(fetch, ProbedDevices(args, sysBlock, resolve), k, m)))
  {
    if Probes(args, sysBlock, resolve) {
      var loaded := if stored.Some? then stored.value else start.loaded;
      var devices := ProbedDevices(args, sysBlock, resolve);
      if ProbeDevices(Store(loaded, map[]), args, fetch, devices).fault.None? {
        ProbeDevicesTouches(Store(loaded, map[]), args, fetch, devices);
      }
    }
  }

  /** Retention across runs: when the loaded history respects the bound of
      `max_attempts + 1` values per window, so does the history saved. */
  lemma ProbeRetention(args: Args, uniqueHash: string, start: Store, sysBlock: seq<SysBlockEntry>,
                       resolve: Resolver, fetch: Fetcher, stored: Option<History>)
    requires args.maxAttempts + 1 >= 0
    requires Bounded(start.loaded, args.maxAttempts + 1) && Bounded(start.current, args.maxAttempts + 1)
    requires stored.Some? ==> Bounded(stored.value, args.maxAttempts + 1)
    ensures var run := ProbeSpec(args, uniqueHash, start, sysBlock, resolve, fetch, stored);
            (&& Bounded(run.store.loaded, args.maxAttempts + 1)
             && Bounded(run.store.current, args.maxAttempts + 1)
             && (run.outcome.saved.Some? ==> Bounded(run.outcome.saved.value, args.maxAttempts + 1)))
  {
    if Probes(args, sysBlock, resolve) {
      var loaded := if stored.Some? then stored.value else start.loaded;
      assert Bounded(map[], args.maxAttempts + 1);
      ProbeDevicesBounded(Store(loaded, map[]), args, fetch, ProbedDevices(args, sysBlock, resolve));
    }
  }

  /** First run: without a saved history the run opens with the first-run
      warning and reports no increment on any disk. */
  lemma FirstProbeSilent(args: Args, uniqueHash: string, start: Store, sysBlock: seq<SysBlockEntry>,
                         resolve: Resolver, fetch: Fetcher)
    requires start.loaded == map[] && args.maxAttempts >= 0
    requires Probes(args, sysBlock, resolve)
    ensures var o := ProbeSpec(args, uniqueHash, start, sysBlock, resolve, fetch, None).outcome;
            (&& |o.findings| >= 1
             && o.findings[0] == FirstRunWarning(uniqueHash)
             && NoIncrements(o.findings))
  {
    var devices := ProbedDevices(args, sysBlock, resolve);
    ProbeDevicesFirstRun(Store(map[], map[]), args, fetch, devices);
    var run := ProbeDevices(Store(map[], map[]), args, fetch, devices);
    var all := [FirstRunWarning(uniqueHash)] + run.findings;
    assert NoIncrements(all) by {
      forall f | f in all ensures !IsIncrement(f) {
        assert f == all[0] || f in run.findings;
      }
    }
  }

  /** The `Smart` resource. `metrics` is the history being built for the state
      file and `oldMetrics` the history loaded from it. */
  class Smart {
    const args: Args
    const uniqueHash: string
    var metrics: History
    var oldMetrics: History

    function State(): Store
      reads this
    {
      Store(oldMetrics, metrics)
    }

    constructor(args: Args, uniqueHash: string)
      ensures this.args == args && this.uniqueHash == uniqueHash
      ensures metrics == map[] && oldMetrics == map[]
    {
      this.args := args;
      this.uniqueHash := uniqueHash;
      metrics := map[];
      oldMetrics := map[];
    }

    /** `check_metric`: skip raw temperature names unless this is the current
        temperature, extend the retained window, store it, and yield an
        increment warning for a checked metric that rose within the window
        before the raw value. */
    method CheckMetric(fields: map<string, string>, serial: Key, s: Sample) returns (r: Result<seq<Finding>, Fault>)
      modifies this
      ensures Step(State(), r) == MetricStep(old(State()), args.maxAttempts, fields, serial, s)
    {
      if !s.temperature && IsRawTemperatureName(s.metric) {
        return Success([]);
      }
      var values := StoreWindow(serial, s.metric, s.value);
      MetricStepUnfold(old(State()), args.maxAttempts, fields, serial, s);
      r := JudgeWindow(fields, serial, s.metric, s.value, values);
    }

    /** The first half of `check_metric`: extend the stored window by the new
        value, dropping the oldest one past `max_attempts + 1` values. */
    method StoreWindow(serial: Key, metric: string, value: int) returns (values: seq<int>)
      modifies this
      ensures var prev := Lookup(old(oldMetrics), serial, metric);
              && values == NextWindow(prev.GetOr([]), value, args.maxAttempts)
              && metrics == Assign(old(metrics), serial, metric, values)
              && oldMetrics == if prev.Some? then Assign(old(oldMetrics), serial, metric, values) else old(oldMetrics)
    {
      var loaded := serial in oldMetrics && metric in oldMetrics[serial];
      var previous := if loaded then oldMetrics[serial][metric] else [];
      values := previous + [value];
      if |values| > args.maxAttempts + 1 {
        values := values[1..];
      }
      if loaded {
        // the list came out of old_metrics and was changed in place
        oldMetrics := Assign(oldMetrics, serial, metric, values);
      }
      metrics := Assign(metrics, serial, metric, values);
    }

    /** The second half of `check_metric`, once the window is stored: an
        increment warning when a checked metric rose within the window and is
        not excluded (an empty window raises `IndexError`), then the raw value. */
    method JudgeWindow(fields: map<string, string>, serial: Key, metric: string, value: int, values: seq<int>)
      returns (r: Result<seq<Finding>, Fault>)
      ensures r == MetricFindings(serial, metric, value, values, ExcludeMetric(CheckExclusions, fields, metric))
    {
      var raw := Raw(KeyText(serial) + "_" + metric, value);
      if metric in CheckedMetrics {
        if values == [] {
          return Failure(IndexError);
        }
        var firstValue := values[0];
        var maxValue := MaxOf(values);
        if maxValue > firstValue && !ExcludeMetric(CheckExclusions, fields, metric) {
          return Success([Metadata("warning", Increment(serial, metric, firstValue, maxValue)), raw]);
        }
      }
      return Success([raw]);
    }

    /** `_handle_smart_messages`: the first error message that is not ignored
        aborts the probe of the device. */
    method HandleSmartMessages(device: Option<string>, messages: seq<SmartMessage>) returns (fault: Option<Fault>)
      ensures fault == MessagesFault(device, messages, args.ignoreErrorMessage)
    {
      var i := 0;
      while i < |messages|
        invariant 0 <= i <= |messages|
        invariant forall j :: 0 <= j < i ==> !Fatal(messages[j], args.ignoreErrorMessage)
      {
        var msg := messages[i];
        if msg.severity == "error" && msg.text !in args.ignoreErrorMessage {
          return Some(CheckError("smartctl returned an error for " + DeviceText(device) + ": " + msg.text));
        }
        i := i + 1;
      }
      return None;
    }

    /** `_handle_other_metrics`: every row of an ATA table, or every value of the
        NVMe log (each element of a list under `{name}_{i}`), through `check_metric`. */
    method HandleOtherMetrics(fields: map<string, string>, serial: Key, attrs: Attributes)
      returns (r: Result<seq<Finding>, Fault>)
      modifies this
      ensures Step(State(), r) == CheckSamples(old(State()), args.maxAttempts, fields, serial, OtherSamples(attrs))
    {
      match attrs {
        case Sat(table) =>
          r := HandleAtaTable(fields, serial, table);
        case Nvme(log) =>
          r := HandleNvmeLog(fields, serial, log);
        case OtherType(_) =>
          r := Success([]);
      }
    }

    /** The `sat` branch: each row's raw value under the row's name. */
    method HandleAtaTable(fields: map<string, string>, serial: Key, table: seq<AtaAttribute>)
      returns (r: Result<seq<Finding>, Fault>)
      modifies this
      ensures Step(State(), r) == CheckSamples(old(State()), args.maxAttempts, fields, serial, AtaSamples(table))
    {
      ghost var start := State();
      ghost var all := AtaSamples(table);
      var acc: seq<Finding> := [];
      var i := 0;
      while i < |table|
        invariant 0 <= i <= |table|
        invariant CheckSamples(start, args.maxAttempts, fields, serial, all[..i]) == Step(State(), Success(acc))
      {
        var t := CheckSampleAt(fields, serial, Sample(table[i].name, table[i].rawValue, false), all, i, acc, start);
        if t.Failure? {
          return t;
        }
        acc := acc + t.value;
        i := i + 1;
      }
      PrefixAll(all);
      return Success(acc);
    }

    /** Reading i of a run, on top of the run over the readings before it. */
    method CheckSampleAt(fields: map<string, string>, serial: Key, x: Sample,
                         ghost all: seq<Sample>, i: nat, acc: seq<Finding>, ghost start: Store)
      returns (t: Result<seq<Finding>, Fault>)
      requires i < |all| && x == all[i]
      requires CheckSamples(start, args.maxAttempts, fields, serial, all[..i]) == Step(State(), Success(acc))
      modifies this
      ensures t.Failure? ==> CheckSamples(start, args.maxAttempts, fields, serial, all) == Step(State(), t)
      ensures t.Success? ==>
        CheckSamples(start, args.maxAttempts, fields, serial, all[..i + 1]) == Step(State(), Success(acc + t.value))
    {
      ghost var mid := State();
      t := CheckMetric(fields, serial, x);
      SampleStep(start, args.maxAttempts, fields, serial, all, i, acc, mid, Step(State(), t));
    }

    /** The `nvme` branch: each entry of the health log in order. */
    method HandleNvmeLog(fields: map<string, string>, serial: Key, log: seq<NvmeEntry>)
      returns (r: Result<seq<Finding>, Fault>)
      modifies this
      ensures Step(State(), r) == CheckSamples(old(State()), args.maxAttempts, fields, serial, NvmeSamples(log))
    {
      ghost var start := State();
      var acc: seq<Finding> := [];
      var i := 0;
      NvmeSamplesNone(log);
      while i < |log|
        invariant 0 <= i <= |log|
        invariant CheckSamples(start, args.maxAttempts, fields, serial, NvmeSamples(log[..i])) == Step(State(), Success(acc))
      {
        var t := HandleNvmeLogEntry(fields, serial, log, i, acc, start);
        if t.Failure? {
          return t;
        }
        acc := acc + t.value;
        i := i + 1;
      }
      NvmeSamplesAll(log);
      return Success(acc);
    }

    /** Entry i of the NVMe log, on top of the run over the entries before it. */
    method HandleNvmeLogEntry(fields: map<string, string>, serial: Key, log: seq<NvmeEntry>, i: nat,
                              acc: seq<Finding>, ghost start: Store)
      returns (t: Result<seq<Finding>, Fault>)
      requires i < |log|
      requires CheckSamples(start, args.maxAttempts, fields, serial, NvmeSamples(log[..i])) == Step(State(), Success(acc))
      modifies this
      ensures t.Failure? ==> CheckSamples(start, args.maxAttempts, fields, serial, NvmeSamples(log)) == Step(State(), t)
      ensures t.Success? ==>
        CheckSamples(start, args.maxAttempts, fields, serial, NvmeSamples(log[..i + 1]))
        == Step(State(), Success(acc + t.value))
    {
      ghost var mid := State();
      t := HandleNvmeEntry(fields, serial, log[i]);
      NvmeEntryStep(start, args.maxAttempts, fields, serial, log, i, acc, mid, Step(State(), t));
    }

    /** One entry of the NVMe log: a number under its own name, a list as one
        reading `{name}_{i}` per element. */
    method HandleNvmeEntry(fields: map<string, string>, serial: Key, e: NvmeEntry)
      returns (r: Result<seq<Finding>, Fault>)
      modifies this
      ensures Step(State(), r) == CheckSamples(old(State()), args.maxAttempts, fields, serial, EntrySamples(e))
    {
      match e.value {
        case Scalar(v) =>
          ghost var start := State();
          var x := Sample(e.name, v, false);
          r := CheckMetric(fields, serial, x);
          CheckSamplesSnoc(start, args.maxAttempts, fields, serial, [], x, [], start);
          assert [] + [x] == EntrySamples(e);
          if r.Success? {
            assert [] + r.value == r.value;
          }
        case Values(vs) =>
          r := HandleNvmeValues(fields, serial, e.name, vs);
      }
    }

    /** A list in the NVMe log: one reading `{name}_{i}` per element. */
    method HandleNvmeValues(fields: map<string, string>, serial: Key, name: string, vs: seq<int>)
      returns (r: Result<seq<Finding>, Fault>)
      modifies this
      ensures Step(State(), r)
           == CheckSamples(old(State()), args.maxAttempts, fields, serial, EntrySamples(NvmeEntry(name, Values(vs))))
    {
      ghost var start := State();
      ghost var all := EntrySamples(NvmeEntry(name, Values(vs)));
      var acc: seq<Finding> := [];
      var i := 0;
      while i < |vs|
        invariant 0 <= i <= |vs|
        invariant CheckSamples(start, args.maxAttempts, fields, serial, all[..i]) == Step(State(), Success(acc))
      {
        var t := CheckSampleAt(fields, serial, Sample(name + "_" + NatToString(i), vs[i], false), all, i, acc, start);
        if t.Failure? {
          return t;
        }
        acc := acc + t.value;
        i := i + 1;
      }
      PrefixAll(all);
      return Success(acc);
    }

    /** `_probe_device`: fetch the document, apply the message gate, derive the
        serial, yield the exit-status findings, then check the error-log count,
        the current temperature (a failure of which would be swallowed) and the
        attribute table. */
    method ProbeDevice(device: Option<string>, doc: Result<Document, Fault>) returns (r: Result<seq<Finding>, Fault>)
      modifies this
      ensures Step(State(), r) == ProbeDeviceSpec(old(State()), args, device, doc)
    {
      if doc.Failure? {
        return Failure(doc.error);
      }
      var d := doc.value;
      var gate := HandleSmartMessages(device, d.messages);
      if gate.Some? {
        return Failure(gate.value);
      }
      var serial := SerialOf(d);
      var status := ParseExitStatus(device, serial, d.exitStatus, args.ignoreFailingCommands);
      if status.Failure? {
        return Failure(status.error);
      }
      var key := SerialKey(serial);
      ghost var ma := args.maxAttempts;
      ghost var x0 := Step(State(), Success(status.value));
      ghost var e := ErrorLogSamples(d);
      ghost var tp := TemperatureSamples(d);
      ghost var o := OtherSamples(d.attributes);
      ContinueAppend(x0, ma, d.fields, key, e + tp, o);
      ContinueAppend(x0, ma, d.fields, key, e, tp);
      ghost var x1 := Continue(x0, ma, d.fields, key, e);
      ghost var x2 := Continue(x1, ma, d.fields, key, tp);
      var acc := status.value;
      ContinueShort(x0, ma, d.fields, key, Sample("ata_smart_error_log_count", d.errorLogCount.GetOr(0), false));
      if d.errorLogCount.Some? {
        var t := CheckMetric(d.fields, key, Sample("ata_smart_error_log_count", d.errorLogCount.value, false));
        if t.Failure? {
          return t;
        }
        acc := acc + t.value;
      }
      assert x1 == Step(State(), Success(acc));
      ContinueShort(x1, ma, d.fields, key, Sample("temperature", d.temperature.GetOr(0), true));
      if d.temperature.Some? {
        TemperatureNeverFails(State(), ma, d.fields, key, d.temperature.value);
        var t := CheckMetric(d.fields, key, Sample("temperature", d.temperature.value, true));
        acc := acc + (if t.Success? then t.value else []);
      }
      assert x2 == Step(State(), Success(acc));
      var other := HandleOtherMetrics(d.fields, key, d.attributes);
      if other.Failure? {
        return other;
      }
      return Success(acc + other.value);
    }

    /** `_list_devices`: the /sys/block entries that are disks worth probing,
        as /dev paths, in directory order. */
    method ListDevices(sysBlock: seq<SysBlockEntry>, resolve: Resolver) returns (devices: seq<string>)
      ensures devices == KeptPaths(sysBlock, SelectionOf(args, resolve))
    {
      var selected := ResolveAll(args.devices, resolve);
      var excluded := ResolveAll(args.excludeDevices, resolve);
      devices := [];
      var i := 0;
      while i < |sysBlock|
        invariant 0 <= i <= |sysBlock|
        invariant devices == KeptPaths(sysBlock[..i], SelectionOf(args, resolve))
      {
        var entry := sysBlock[i];
        assert sysBlock[..i + 1][..i] == sysBlock[..i];
        if entry.hasDeviceDir {
          // a missing type file means a disk
          var scsiType := entry.scsiType.GetOr(0);
          var devPath := "/dev/" + entry.name;
          if !(args.skipRemovable && entry.removable == Some(1)) {
            if scsiType == 0 && entry.size != 0 {
              if devPath !in excluded && !(args.devices != [] && devPath !in selected) {
                devices := devices + [devPath];
              }
            }
          }
        }
        i := i + 1;
      }
      PrefixAll(sysBlock);
    }

    /** The loop of `probe` over the devices. */
    method ProbeAll(devices: seq<Option<string>>, fetch: Fetcher) returns (yielded: seq<Finding>, fault: Option<Fault>)
      modifies this
      ensures Run(State(), yielded, fault) == ProbeDevices(old(State()), args, fetch, devices)
    {
      ghost var start := State();
      yielded := [];
      var i := 0;
      while i < |devices|
        invariant 0 <= i <= |devices|
        invariant ProbeDevices(start, args, fetch, devices[..i]) == Run(State(), yielded, None)
      {
        var r := ProbeDeviceAt(devices, i, fetch, yielded, start);
        if r.Failure? {
          return yielded, Some(r.error);
        }
        yielded := yielded + r.value;
        i := i + 1;
      }
      PrefixAll(devices);
      return yielded, None;
    }

    /** Device i of the loop, on top of the devices before it. */
    method ProbeDeviceAt(devices: seq<Option<string>>, i: nat, fetch: Fetcher, yielded: seq<Finding>,
                         ghost start: Store)
      returns (r: Result<seq<Finding>, Fault>)
      requires i < |devices|
      requires ProbeDevices(start, args, fetch, devices[..i]) == Run(State(), yielded, None)
      modifies this
      ensures r.Failure? ==> ProbeDevices(start, args, fetch, devices) == Run(State(), yielded, Some(r.error))
      ensures r.Success? ==>
        ProbeDevices(start, args, fetch, devices[..i + 1]) == Run(State(), yielded + r.value, None)
    {
      ghost var mid := State();
      r := ProbeDevice(devices[i], fetch(devices[i]));
      DeviceStep(start, args, fetch, devices, i, yielded, mid, Step(State(), r));
    }

    /** `probe`: find the devices (or take standard input), start a fresh
        `metrics`, load the history saved by the previous run, probe every
        device and save `metrics` unless a device raised. `stored` is the
        state file's `metrics` entry, None when it has none. */
    method Probe(sysBlock: seq<SysBlockEntry>, resolve: Resolver, fetch: Fetcher, stored: Option<History>)
      returns (o: ProbeOutcome)
      modifies this
      ensures ProbeRun(State(), o) == ProbeSpec(args, uniqueHash, old(State()), sysBlock, resolve, fetch, stored)
    {
      var valid: seq<string> := [];
      if !args.loadJson {
        valid := ListDevices(sysBlock, resolve);
        if valid == [] {
          return ProbeOutcome([], Some(CheckError("Could not find any device matching " + Join(args.devices, ", "))), None);
        }
        if args.listDevices {
          return ProbeOutcome([], None, None);
        }
      }
      metrics := map[];
      var warning: seq<Finding> := [];
      if stored.Some? {
        oldMetrics := stored.value;
      } else {
        warning := [Metadata("warning", Message("No data in state file " + StateFile(uniqueHash) + ", first run?"))];
      }
      var devices := if args.loadJson then [None] else AsDevices(valid);
      assert devices == ProbedDevices(args, sysBlock, resolve);
      var yielded, fault := ProbeAll(devices, fetch);
      if fault.Some? {
        return ProbeOutcome(warning + yielded, fault, None);
      }
      return ProbeOutcome(warning + yielded, None, Some(metrics));
    }
  }
}
