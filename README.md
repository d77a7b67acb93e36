# check_smart: a verified model of the S.M.A.R.T. check's decision logic

`check_smart.py` is a Nagios plugin that asks `smartctl` about every disk of a host, remembers a short
history of each disk's attribute values between runs, and reports one line of text with a Nagios state.
This project models, in Dafny, the decisions the plugin makes along the way:

- **Trend** (`trend.dfy`): `Smart.check_metric` and `Smart._exclude_metric`. Each (serial, metric) pair
  has a bounded window of recent values, kept in the loaded history (`old_metrics`) and in the history
  to be saved (`metrics`). A counter on the `CHECKED_METRICS` list whose window maximum exceeds its
  oldest value raises an "increment" warning, unless a model-family exclusion applies. Every reading
  that is not skipped also yields its raw value. `TrendProperties` proves what a whole run over many
  readings does: the retention bound, which pairs are written, the raw-value names, and first-run
  silence.
- **ExitStatus** (`exit_status.dfy`): `Smart._parse_exit_status`. It decodes smartctl's exit-status
  bits into two CheckErrors and five status findings. It is also stated as a table of (bit, level,
  message) rows, and the properties are proved through that table.
- **DeviceFilter** (`devices.dfy`): the keep/drop policy of `Smart._list_devices`. The /sys/block
  entries are input records.
- **Telemetry / Probe** (`probe.dfy`):
  - `Telemetry` holds the parsed smartctl document, serial normalisation, the fatal-message gate and
    the flattening of ATA and NVMe attributes into readings.
  - `Probe` holds the specification functions of one device (`ProbeDeviceSpec`), of a device list
    (`ProbeDevices`) and of a whole run (`ProbeSpec`).
  - It also holds the class `Smart`, whose fields `metrics` and `old_metrics` its methods update in
    place, exactly as the Python object does.
  - Each method is proved to follow the specification function, and lemmas prove what that function
    promises.
- **OrderedDict / Summary** (`summary.dfy`): `MetaDataContext.evaluate`, `SmartSummary.ok`,
  `SmartSummary._handle_result` and `SmartSummary.problem`.
  - Python dictionaries are insertion-ordered association lists.
  - The sort is a stable sort by state, worst first.
  - The problem text is built by methods with loops, proved equal to a rendering function. Lemmas
    characterise that function's messages, per-subject status lists and per-serial increments.
- **Wrappers, Text, Findings, Seqs**: Option/Result, the bits of Python string handling the plugin
  uses (`str.join`, `str(int)`, substring `in`), the nagiosplugin metric/result/fault values, and
  small sequence lemmas.

The model takes these as parameters:

- the smartctl document of a device: a `Fetcher` returning a parsed `Document` or a fault;
- the /sys/block entries, with their `device`, `type`, `size` and `removable` files already read;
- path resolution: a `Resolver` function;
- the history read from the state file: `None` when it has no `metrics` entry.

The saved history is returned as part of the probe outcome.

## Model

| member | source | states |
|---|---|---|
| Trend.ExcludeMetricIff | check_smart.py:70-82 | a metric is excluded iff some exclusion rule has some match key whose document value equals the rule's value and lists the metric (both directions) |
| Trend.RuleSilencesIff | check_smart.py:72-73 | the inner loop over one rule's match pairs from position k returns true iff one of those pairs matches the document and the rule lists the metric |
| Trend.SeagateExosExclusions | check_smart.py:47-62 | with the shipped exclusion table, a metric is excluded exactly for model family "Seagate Exos X16" or "Seagate Exos X18" and metric Raw_Read_Error_Rate or Seek_Error_Rate |
| Trend.TemperatureNames | check_smart.py:88-89 | the case-insensitive match of names starting with "temperature" followed by the end or an underscore accepts "Temperature_Celsius" and "temperature" and rejects "Airflow_Temperature_Cel" and "temperatures" |
| Trend.MaxOf | check_smart.py:103 | `max(values)` is an element of the window and no element exceeds it |
| Trend.NextWindow | check_smart.py:90-96 | the new window is the previous one with the value appended. Its length grows by one unless that would exceed max_attempts + 1, in which case exactly the oldest value is dropped |
| Trend.NextWindowBounded | check_smart.py:94-96 | a window within max_attempts + 1 stays within it, and for max_attempts >= 0 it ends with the new value |
| Trend.MetricFindings | check_smart.py:99-113 | the call fails (IndexError) iff the metric is checked and the window is empty. Otherwise the last finding is the raw value `serial_metric`. There is an increment warning with payload (serial, metric, window[0], max(window)) before it iff the metric is checked, max > first and it is not excluded |
| Trend.RisingWindowExample | check_smart.py:99-113 | the window [5, 3, 3, 7] raises increment 5 -> 7 for Reallocated_Sector_Ct and only the raw value for an unchecked metric |
| TrendProperties.CheckSamplesAppend | check_smart.py:84-113 | checking readings a then b is the same as checking a and continuing from that state with b (the state threads through, and a fault stops the rest) |
| TrendProperties.MetricStepBounded | check_smart.py:90-97 | one `check_metric` keeps every window of both histories within max_attempts + 1 |
| TrendProperties.CheckSamplesBounded | check_smart.py:90-97 | any sequence of readings keeps every window of both histories within max_attempts + 1 |
| TrendProperties.MetricStepTouches | check_smart.py:97 | one call adds exactly the pair (serial, metric) to `metrics` unless the reading is skipped, and leaves other serials' entries unchanged |
| TrendProperties.CheckSamplesTouches | check_smart.py:97 | after a run without fault, `metrics` holds exactly the earlier pairs plus (serial, m) for every processed metric m; other serials are unchanged |
| TrendProperties.MetricStepRawNames | check_smart.py:113 | a successful call yields no raw value for a skipped temperature reading and exactly one named `serial_metric` otherwise |
| TrendProperties.CheckSamplesRawNames | check_smart.py:113 | the raw values of a run are named `serial_metric` for the processed metrics, one each, in reading order |
| TrendProperties.FirstReadingSilent | check_smart.py:90-109 | with nothing loaded, one call succeeds, reports no increment and leaves the loaded history empty |
| TrendProperties.FirstRunSilent | check_smart.py:90-109 | with nothing loaded and max_attempts >= 0, any sequence of readings succeeds, yields no increment and leaves the loaded history empty |
| TrendProperties.StableWindowSilent | check_smart.py:102-104 | a window whose earlier values all equal the new value yields no increment |
| ExitStatus.ParseExitStatus | check_smart.py:155-179 | bit 0 raises "Command line did not parse for {device}" and takes precedence over bit 1, which raises "Device open failed for {device}". With both clear the call succeeds |
| ExitStatus.StatusIf | check_smart.py:156-158 | a present bit yields exactly one metadata finding with the given level whose hint is the status (subject, message), an absent bit none |
| ExitStatus.ParseExitStatusFollowsTable | check_smart.py:165-179 | with bits 0 and 1 clear, the findings are the rows for bits 2, 3, 4, 5, 7 in that order, with levels warning, critical, critical, warning, warning. Bit 2 is dropped under --ignore-failing-commands |
| ExitStatus.ParseExitStatusOnlyStatus | check_smart.py:156-158 | without an error every finding is a "status" finding whose subject is `serial or device` |
| ExitStatus.TableStatusOnly | check_smart.py:165-179 | every finding of the status table is a status finding about the given subject |
| ExitStatus.TableNoBits | check_smart.py:165-179 | when none of the rows' bits is set, the table yields nothing |
| ExitStatus.ExitStatusZero | check_smart.py:160-179 | exit status 0 yields no finding |
| ExitStatus.ExitStatusFailingState | check_smart.py:170-171 | exit status 8 yields exactly the critical "is in failing state" finding |
| ExitStatus.SameBitsSameParse | check_smart.py:160-179 | two statuses that agree on bits 0-5 and 7 decode identically |
| ExitStatus.ExitStatusIgnoresHighBits | check_smart.py:160 | adding any multiple of 256 does not change the decoding (only 8 bits are read) |
| ExitStatus.ExitStatusIgnoresBit6 | check_smart.py:160-179 | setting bit 6 does not change the decoding |
| ExitStatus.ShiftAdd | check_smart.py:160 | `(s + 2^k * m) >> k == (s >> k) + m` |
| ExitStatus.BitAddMultiple | check_smart.py:160 | adding a multiple of 2^(k+1) leaves bit k unchanged |
| DeviceFilter.KeptPathsIff | check_smart.py:120-152 | a path is listed iff some /sys/block entry with that /dev path has a device directory, a disk SCSI type (a missing type file counts as a disk), a non-zero size, is not removable when removable devices are skipped, is not excluded, and is on the include list when one is given |
| Probe.ResolveAll | check_smart.py:118-119 | each given path is replaced by its resolved form, in order; none is dropped |
| Probe.Smart.ListDevices | check_smart.py:115-153 | the loop returns exactly the filter's kept paths, in directory order |
| Telemetry.NormaliseSerial | check_smart.py:238-241 | same length, every `_` becomes `-`, every other character is kept, and no `_` remains |
| Telemetry.FirstFatal | check_smart.py:216-217 | finds the first message of severity "error" whose text is not ignored, and finds none iff no such message exists |
| Telemetry.AtaSamples | check_smart.py:224-225 | one reading per row of the ATA attribute table, in table order, carrying the row's name and raw value and not exempt from the temperature skip |
| Probe.Smart.HandleSmartMessages | check_smart.py:215-220 | the loop raises "smartctl returned an error for {device}: {text}" for the first fatal message and nothing otherwise |
| Probe.Smart.constructor | check_smart.py:64-68 | a new check keeps its arguments and hash and starts with both histories empty |
| Probe.Smart.CheckMetric | check_smart.py:84-113 | the findings and the new pair of histories are those of one `check_metric` step on the old state |
| Probe.Smart.StoreWindow | check_smart.py:90-97 | the window is the next window of the loaded one (or of [] when none is loaded). It is written to `metrics`. Because the list is shared by aliasing, it is written to `old_metrics` too, but only when it came from there |
| Probe.Smart.JudgeWindow | check_smart.py:99-113 | the findings are those of the increment rule for the window, with the exclusion looked up in the shipped table |
| Probe.Smart.HandleAtaTable | check_smart.py:223-225 | the loop over the table leaves the state and findings of checking every row in order, stopping at the first fault |
| Probe.Smart.HandleNvmeLog | check_smart.py:226-232 | the loop over the NVMe health log leaves the state and findings of checking every flattened reading in order |
| Probe.Smart.HandleNvmeEntry | check_smart.py:228-232 | one log entry is checked as its flattened readings |
| Probe.Smart.HandleNvmeValues | check_smart.py:229-230 | a list-valued entry is checked as readings `name_0 … name_{n-1}` in order |
| Probe.Smart.HandleOtherMetrics | check_smart.py:222-232 | "sat" devices check the ATA table, "nvme" devices the health log, and any other type checks nothing |
| Probe.NvmeFlattening | check_smart.py:226-232 | the values of the flattened readings are the log's values in order, list elements in place |
| Probe.Smart.ProbeDevice | check_smart.py:234-264 | the method's findings, fault and new histories are those of the per-device specification |
| Probe.ProbeDeviceOrder | check_smart.py:242-264 | a device that does not fail yields its exit-status findings first, then its readings' findings. The raw values are named after the normalised serial for exactly the processed readings |
| Probe.DeviceProcessed | check_smart.py:243-264 | readings are processed in the order error-log count (when present), temperature (when present), attribute readings; attribute readings named like a temperature are skipped |
| Probe.TemperatureNeverFails | check_smart.py:253-262 | the `temperature.current` reading never faults (it is not a checked metric) |
| Probe.ProbeDeviceTouches | check_smart.py:234-264 | a successful device probe adds to `metrics` exactly the pairs its document reports |
| Probe.ProbeDeviceBounded | check_smart.py:234-264 | probing one device keeps every window within max_attempts + 1 |
| Probe.StatusNoIncrements | check_smart.py:155-179 | exit-status findings are never increments |
| Probe.ProbeDeviceFirstRun | check_smart.py:234-264 | with nothing loaded, a device yields no increment and the loaded history stays empty |
| Probe.ProbeDevicesStops | check_smart.py:281-282 | once a device raises, later devices are not probed |
| Probe.ProbeDevicesTouches | check_smart.py:281-282 | after a loop without fault, `metrics` holds exactly the earlier pairs plus those some probed device reports |
| Probe.ProbeDevicesBounded | check_smart.py:281-282 | the loop keeps every window of both histories within max_attempts + 1 |
| Probe.ProbeDevicesFirstRun | check_smart.py:281-282 | with nothing loaded the loop yields no increment and the loaded history stays empty |
| Probe.Smart.ProbeAll | check_smart.py:281-282 | the loop's findings, fault and state are those of probing the devices in order |
| Probe.Smart.Probe | check_smart.py:266-283 | the run follows `probe`: no device raises "Could not find any device matching …", --list-devices returns without findings, otherwise a fresh `metrics`, the history (or a first-run warning), every device, and the save |
| Probe.ProbeSavesThisRun | check_smart.py:276-283 | a history is saved iff devices were probed without a fault, and it holds exactly the pairs this run's devices reported, nothing carried over from the state file |
| Probe.ProbeRetention | check_smart.py:276-283 | when the stored history respects the window bound, so do both histories after the run and the saved one |
| Probe.FirstProbeSilent | check_smart.py:181-191 | on a first run the findings start with the "No data in state file … first run?" warning and contain no increment |
| OrderedDict.Get | check_smart.py:300 | a key is absent iff it is not among the keys |
| OrderedDict.PutGet | check_smart.py:300 | assigning a key maps it to the new value, leaves other keys unchanged, and appends it to the key order only when it is new |
| Summary.Evaluate | check_smart.py:330-334 | "warning" and "critical" metadata become Warn and Critical results with their hint, and other metadata names are not evaluated. Raw values evaluate to Ok |
| Summary.OkSummary | check_smart.py:287-288 | the Ok summary is empty |
| Summary.OfState | check_smart.py:315 | the results it keeps are all of the given state and no more than the input |
| Summary.OfStateSelects | check_smart.py:315 | every result of the state is kept, and nothing is added (the kept multiset is contained in the input's) |
| Summary.SortIsStable | check_smart.py:315 | the sort is ordered worst first, is a permutation, and keeps the original order within each state |
| Summary.SortPermutes | check_smart.py:315 | the sort is a permutation of the results |
| Summary.SortKeepsOrder | check_smart.py:315 | within each state the sorted results keep their original order |
| Summary.NotOkSorted | check_smart.py:315 | dropping Ok results before or after sorting gives the same non-Ok sequence |
| Summary.GroupAllNotOk | check_smart.py:296-297 | grouping ignores Ok results |
| Summary.OkResultsIgnored | check_smart.py:296-297 | the problem text is the same with the Ok results removed |
| Summary.GroupAllMessages | check_smart.py:301-308 | the free-text messages are the texts of the non-Ok message and CheckError results, in order |
| Summary.GroupAllStatuses | check_smart.py:303-305 | each subject's status list is the messages of its non-Ok status results in order, and a subject is listed iff it has one |
| Summary.GroupAllIncrements | check_smart.py:298-300 | for each (serial, metric) the recorded change is that of the last non-Ok increment result for it |
| Summary.GroupAllStatusOrder | check_smart.py:303-305 | the subjects of the status dictionary are those of the non-Ok status results, once each, in the order they first occur |
| Summary.GroupAllSerialOrder | check_smart.py:298-300 | the serials of the increment dictionary are those of the non-Ok increment results, once each, in the order they first occur |
| Summary.GroupAllMetricOrder | check_smart.py:298-300 | within one serial, the metrics of the increment dictionary are those of its non-Ok increment results, once each, in the order they first occur |
| OrderedDict.FirstSeenElements | check_smart.py:300 | the first-seen key order holds every key that was assigned, and no other, and none twice |
| Summary.ResultsEvaluated | check_smart.py:330-334 | the results collected from findings whose metadata carries a hint are all evaluated, so `problem` accepts them |
| Summary.GroupResults | check_smart.py:315-316 | the loop over the sorted results builds the groups `_handle_result` builds |
| Summary.RenderStatuses | check_smart.py:317-318 | one "Disk S: m1, m2" line per entry of the status dictionary, in its key order (first-seen, by GroupAllStatusOrder) |
| Summary.RenderIncrements | check_smart.py:320-324 | "Disk S: increment in counter m: o -> n" for one metric, "counters" and a comma-separated list otherwise |
| Summary.RenderAllIncrements | check_smart.py:319-324 | one increment line per entry of the increment dictionary, in its key order (first-seen, by GroupAllSerialOrder) |
| Summary.Problem | check_smart.py:310-325 | the problem text is the comma-joined messages, then status lines, then increment lines of the results sorted worst first |
| Summary.AsWrittenAgrees | check_smart.py:295-308 | `_handle_result` as written groups exactly like the intended dispatch whenever no CheckError text contains "increment", "message" or "status" |
| Summary.ProblemAsWrittenAgrees | check_smart.py:310-325 | under the same condition the problem text as written equals the corrected one |
| Summary.StatusInErrorTextCrashes | check_smart.py:298-305 | the CheckError text "Could not find any device matching /dev/disk/by-id/status" crashes `problem` as written with a TypeError, while the corrected text is that message |

## Left out

- Running `sudo smartctl` and decoding its JSON (or standard input under --load-json) is a `Fetcher`
  parameter. A decode failure is any fault the fetcher returns.
- Reading /sys/block is left out: the entries are input records with the contents of their files.
  `Path.resolve` is a `Resolver` function. Every -D/-X path is compared in its resolved form; none
  is dropped. A missing path does not make `resolve` fail. The RuntimeError that a non-strict
  `resolve` raises on a symlink loop (Python 3.6 to 3.12) is not modelled.
- The state file is left out: its `metrics` entry, or its absence, is a parameter, and the saved
  history is returned. Its path is `StateFile`. The JSON round trip, which turns a `None` serial
  key into the string "null", is not modelled.
- Command-line parsing is left out. So is the rule that --list-devices excludes -D/-X, so `Probe`
  is also specified for argument combinations the parser rejects.
- The --exclude-metrics option is parsed but never read, so it has no behaviour.
- Logging is left out, as are the --checked-metrics / --non-checked-metrics printing and the sorted
  printing of --list-devices.
- The SHA-1 hash of the pickled arguments is a `uniqueHash` parameter.
- nagiosplugin's `Check` (perfdata, `ScalarContext`, exit codes) is left out. `ResultsOf` only
  records which results it collects.
- Python's KeyError and TypeError on malformed smartctl documents are left out. A `Document` holds
  only well-formed values; a missing `serial_number` is modelled.
- A negative --max-attempts is modelled: it empties the window, and a checked metric then ends the
  run with IndexError. How nagiosplugin reports that uncaught crash is not modelled.

## Findings

| source | as written | input that shows it | evidently intended | confidence | as-written member | corrected member |
|---|---|---|---|---|---|---|
| check_smart.py:298-308 | `"status" in result.hint` on the str hint of a CheckError result is a substring test, so text containing "increment", "message" or "status" takes the dict branch and `result.hint["status"]` raises TypeError | `-D /dev/disk/by-id/status` matching no device gives the CheckError "Could not find any device matching /dev/disk/by-id/status" | the CheckError text is appended as a message (the `else` branch) | not executed | Summary.StatusInErrorTextCrashes | Summary.Problem |
