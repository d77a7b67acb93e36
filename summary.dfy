/** Python dictionaries as the summary uses them: insertion-ordered association
    lists in which assigning to an existing key keeps its place. */
module OrderedDict {
  import opened Wrappers

  function Keys<K, V>(d: seq<(K, V)>): (r: seq<K>)
    ensures |r| == |d|
  {
    seq(|d|, i requires 0 <= i < |d| => d[i].0)
  }

  /** `d.get(k)` */
  function Get<K(==), V>(d: seq<(K, V)>, k: K): (r: Option<V>)
    ensures r.None? <==> k !in Keys(d)
  {
    if d == [] then None
    else
      assert Keys(d) == [d[0].0] + Keys(d[1..]);
      if d[0].0 == k then Some(d[0].1) else Get(d[1..], k)
  }

  /** `d[k] = v`: a new key goes last, an existing key keeps its position. */
  function Put<K(==), V>(d: seq<(K, V)>, k: K, v: V): seq<(K, V)>
  {
    if d == [] then [(k, v)]
    else if d[0].0 == k then [(k, v)] + d[1..]
    else [d[0]] + Put(d[1..], k, v)
  }

  /** Dictionary semantics of `Put`: the key now maps to the new value, every
      other key is unaffected, and the key order only grows at the end. */
  lemma {:induction false} PutGet<K, V>(d: seq<(K, V)>, k: K, v: V)
    ensures Get(Put(d, k, v), k) == Some(v)
    ensures forall k' :: k' != k ==> Get(Put(d, k, v), k') == Get(d, k')
    ensures Keys(Put(d, k, v)) == if k in Keys(d) then Keys(d) else Keys(d) + [k]
  {
    if d != [] {
      assert Keys(d) == [d[0].0] + Keys(d[1..]);
      if d[0].0 == k {
        assert Keys(Put(d, k, v)) == [k] + Keys(d[1..]);
      } else {
        PutGet(d[1..], k, v);
        assert Keys(Put(d, k, v)) == [d[0].0] + Keys(Put(d[1..], k, v));
      }
    }
  }

  /** The distinct elements of a sequence, each where it first occurs: the key
      order a dictionary ends with after assigning these keys in turn. */
  function FirstSeen<T(==)>(xs: seq<T>): seq<T>
    decreases |xs|
  {
    if xs == [] then []
    else
      var init := xs[..|xs| - 1];
      FirstSeen(init) + (if xs[|xs| - 1] in init then [] else [xs[|xs| - 1]])
  }

  lemma FirstSeenSnoc<T>(xs: seq<T>, x: T)
    ensures FirstSeen(xs + [x]) == FirstSeen(xs) + (if x in xs then [] else [x])
  {
    assert (xs + [x])[..|xs|] == xs;
  }

  /** `FirstSeen` keeps every element, adds none and repeats none. */
  lemma {:induction false} FirstSeenElements<T>(xs: seq<T>)
    ensures forall x :: x in FirstSeen(xs) <==> x in xs
    ensures forall i, j :: 0 <= i < j < |FirstSeen(xs)| ==> FirstSeen(xs)[i] != FirstSeen(xs)[j]
    decreases |xs|
  {
    if xs != [] {
      var init := xs[..|xs| - 1];
      FirstSeenElements(init);
      assert xs == init + [xs[|xs| - 1]];
    }
  }

  /** `collections.defaultdict(default)[k]` read without inserting. */
  function GetOr<K(==), V>(d: seq<(K, V)>, k: K, default: V): V
  {
    Get(d, k).GetOr(default)
  }
}

/** `MetaDataContext.evaluate` and `SmartSummary`: how the check's results are
    sorted, grouped and rendered into the one line of text Nagios shows. */
module Summary {
  import opened Wrappers
  import opened Text
  import opened Findings
  import opened OrderedDict
  import opened Seqs

  /** The result of one finding: a metadata finding named "warning" or
      "critical" keeps its hint at that state (any other name is not
      evaluated), and a raw value is judged by a range of `~:` for both
      thresholds, which every number satisfies. */
  function Evaluate(f: Finding): (r: Option<CheckResult>)
    ensures r.Some? <==> f.Raw? || f.level == "warning" || f.level == "critical"
    ensures f.Raw? ==> r == Some(CheckResult(Ok, NoHint))
    ensures f.Metadata? && r.Some? ==>
      r.value.hint == f.hint && (r.value.state == Warn <==> f.level == "warning")
      && (r.value.state == Critical <==> f.level == "critical")
  {
    match f
    case Raw(_, _) => Some(CheckResult(Ok, NoHint))
    case Metadata(level, hint) =>
      if level == "warning" then Some(CheckResult(Warn, hint))
      else if level == "critical" then Some(CheckResult(Critical, hint))
      else None
  }

  /** The results nagiosplugin collects from a probe: one per evaluated
      finding, in order, then an Unknown result whose hint is the text of the
      CheckError that stopped the probe. */
  function ResultsOf(findings: seq<Finding>, fault: Option<Fault>): seq<CheckResult>
    decreases |findings|
  {
    if findings == [] then
      if fault.Some? && fault.value.CheckError? then [CheckResult(Unknown, Text(fault.value.message))] else []
    else
      var r := Evaluate(findings[0]);
      (if r.Some? then [r.value] else []) + ResultsOf(findings[1..], fault)
  }

  /** Every metadata finding the probe yields carries a hint. */
  predicate HintsPresent(findings: seq<Finding>)
  {
    forall i :: 0 <= i < |findings| ==> findings[i].Metadata? ==> !findings[i].hint.NoHint?
  }

  /** The results collected from findings that carry their hints are all
      evaluated, so they can be handed to `problem`. */
  lemma {:induction false} ResultsEvaluated(findings: seq<Finding>, fault: Option<Fault>)
    requires HintsPresent(findings)
    ensures AllEvaluated(ResultsOf(findings, fault))
    decreases |findings|
  {
    if findings != [] {
      ResultsEvaluated(findings[1..], fault);
      var r := Evaluate(findings[0]);
      var head := if r.Some? then [r.value] else [];
      assert ResultsOf(findings, fault) == head + ResultsOf(findings[1..], fault);
      assert AllEvaluated(head);
    }
  }

  /** The results of one state, in their original order. */
  function OfState(rs: seq<CheckResult>, s: Severity): (r: seq<CheckResult>)
    ensures |r| <= |rs|
    ensures forall i :: 0 <= i < |r| ==> r[i].state == s
    decreases |rs|
  {
    if rs == [] then []
    else OfState(rs[..|rs| - 1], s) + (if rs[|rs| - 1].state == s then [rs[|rs| - 1]] else [])
  }

  /** `sorted(results, key=lambda x: x.state, reverse=True)`: Python's sort is
      stable, so results of one state keep their order. */
  function SortByStateDesc(rs: seq<CheckResult>): seq<CheckResult>
  {
    OfState(rs, Unknown) + OfState(rs, Critical) + OfState(rs, Warn) + OfState(rs, Ok)
  }

  predicate SortedDesc(rs: seq<CheckResult>)
  {
    forall i, j :: 0 <= i < j < |rs| ==> rs[i].state.Code() >= rs[j].state.Code()
  }

  lemma {:induction false} OfStateAppend(a: seq<CheckResult>, b: seq<CheckResult>, s: Severity)
    ensures OfState(a + b, s) == OfState(a, s) + OfState(b, s)
    decreases |b|
  {
    if b == [] {
      assert a + b == a;
    } else {
      assert (a + b)[..|a + b| - 1] == a + b[..|b| - 1];
      OfStateAppend(a, b[..|b| - 1], s);
    }
  }

  /** Filtering by a state twice, or by two states. */
  lemma {:induction false} OfStateOfState(rs: seq<CheckResult>, s: Severity, t: Severity)
    ensures OfState(OfState(rs, t), s) == if s == t then OfState(rs, t) else []
    decreases |rs|
  {
    if rs != [] {
      var init := rs[..|rs| - 1];
      var last := rs[|rs| - 1];
      OfStateOfState(init, s, t);
      OfStateAppend(OfState(init, t), if last.state == t then [last] else [], s);
      assert OfState([last], s) == if last.state == s then [last] else [] by {
        assert [last][..0] == [];
      }
    }
  }

  /** The four per-state lists, as one multiset. */
  ghost function Parts(rs: seq<CheckResult>): multiset<CheckResult>
  {
    multiset(OfState(rs, Unknown)) + multiset(OfState(rs, Critical))
    + multiset(OfState(rs, Warn)) + multiset(OfState(rs, Ok))
  }

  ghost predicate SplitsByState(rs: seq<CheckResult>)
  {
    multiset(rs) == Parts(rs)
  }

  lemma {:induction false} OfStateMultiset(rs: seq<CheckResult>)
    ensures SplitsByState(rs)
    decreases |rs|
  {
    if rs != [] {
      var init := rs[..|rs| - 1];
      OfStateMultiset(init);
      assert rs == init + [rs[|rs| - 1]];
      PartsSnoc(init, rs[|rs| - 1]);
      SnocMultiset(init, rs[|rs| - 1]);
    }
  }

  /** Appending one result adds it to exactly one of the four parts. */
  lemma PartsSnoc(init: seq<CheckResult>, x: CheckResult)
    ensures Parts(init + [x]) == Parts(init) + multiset{x}
  {
    var rs := init + [x];
    var m1 := multiset{x};
    var u, c, w, o := multiset(OfState(init, Unknown)), multiset(OfState(init, Critical)),
                      multiset(OfState(init, Warn)), multiset(OfState(init, Ok));
    var u', c', w', o' := multiset(OfState(rs, Unknown)), multiset(OfState(rs, Critical)),
                          multiset(OfState(rs, Warn)), multiset(OfState(rs, Ok));
    assert Parts(init) == u + c + w + o;
    assert Parts(rs) == u' + c' + w' + o';
    PartSnoc(init, x, Unknown);
    PartSnoc(init, x, Critical);
    PartSnoc(init, x, Warn);
    PartSnoc(init, x, Ok);
    match x.state {
      case Unknown =>
        assert u' == u + m1 && c' == c && w' == w && o' == o;
        AddToPart(u, c, w, o, m1);
      case Critical =>
        assert u' == u && c' == c + m1 && w' == w && o' == o;
        AddToPart(c, u, w, o, m1);
      case Warn =>
        assert u' == u && c' == c && w' == w + m1 && o' == o;
        AddToPart(w, u, c, o, m1);
      case Ok =>
        assert u' == u && c' == c && w' == w && o' == o + m1;
        AddToPart(o, u, c, w, m1);
    }
  }

  lemma PartSnoc(init: seq<CheckResult>, x: CheckResult, t: Severity)
    ensures multiset(OfState(init + [x], t))
         == multiset(OfState(init, t)) + (if x.state == t then multiset{x} else multiset{})
  {
    OfStateSnoc(init, x, x.state);
    if x.state == t {
      SnocMultiset(OfState(init, t), x);
    }
  }

  lemma AddToPart(p: multiset<CheckResult>, q: multiset<CheckResult>, r: multiset<CheckResult>,
                  s: multiset<CheckResult>, m: multiset<CheckResult>)
    ensures (p + m) + q + r + s == p + q + r + s + m
    ensures q + (p + m) + r + s == q + p + r + s + m
    ensures q + r + (p + m) + s == q + r + p + s + m
    ensures q + r + s + (p + m) == q + r + s + p + m
  {
  }

  lemma SnocMultiset(s: seq<CheckResult>, x: CheckResult)
    ensures multiset(s + [x]) == multiset(s) + multiset{x}
  {
  }

  /** The results of one state are selected from the input: every result of
      that state is kept, and nothing is added. */
  lemma {:induction false} OfStateSelects(rs: seq<CheckResult>, s: Severity)
    ensures forall i :: 0 <= i < |rs| && rs[i].state == s ==> rs[i] in OfState(rs, s)
    ensures multiset(OfState(rs, s)) <= multiset(rs)
    decreases |rs|
  {
    if rs != [] {
      var init := rs[..|rs| - 1];
      var x := rs[|rs| - 1];
      OfStateSelects(init, s);
      assert rs == init + [x];
      forall i | 0 <= i < |rs| && rs[i].state == s
        ensures rs[i] in OfState(rs, s)
      {
        if i < |init| {
          assert rs[i] == init[i];
        }
      }
      SnocMultiset(init, x);
      if x.state == s {
        SnocMultiset(OfState(init, s), x);
      }
    }
  }

  /** Appending one result adds it to its own state's list only. */
  lemma OfStateSnoc(init: seq<CheckResult>, x: CheckResult, s: Severity)
    requires x.state == s
    ensures forall t :: OfState(init + [x], t) == OfState(init, t) + (if t == s then [x] else [])
  {
    assert (init + [x])[..|init|] == init;
  }

  /** The output of the sort is ordered by state, worst first. */
  lemma SortOrdered(rs: seq<CheckResult>)
    ensures SortedDesc(SortByStateDesc(rs))
  {
    var u, c, w, o := OfState(rs, Unknown), OfState(rs, Critical), OfState(rs, Warn), OfState(rs, Ok);
    var out := SortByStateDesc(rs);
    forall i | 0 <= i < |out|
      ensures out[i].state.Code() == if i < |u| then 3 else if i < |u| + |c| then 2 else if i < |u| + |c| + |w| then 1 else 0
    {
      if i < |u| {
        assert out[i] == u[i];
      } else if i < |u| + |c| {
        assert out[i] == c[i - |u|];
      } else if i < |u| + |c| + |w| {
        assert out[i] == w[i - |u| - |c|];
      } else {
        assert out[i] == o[i - |u| - |c| - |w|];
      }
    }
  }

  /** The sort is a stable sort by state, worst first: its output is ordered,
      it is a permutation of its input, and each state's results keep their
      relative order. */
  lemma SortIsStable(rs: seq<CheckResult>)
    ensures SortedDesc(SortByStateDesc(rs))
    ensures multiset(SortByStateDesc(rs)) == multiset(rs)
    ensures forall s :: OfState(SortByStateDesc(rs), s) == OfState(rs, s)
  {
    SortOrdered(rs);
    SortPermutes(rs);
    forall s ensures OfState(SortByStateDesc(rs), s) == OfState(rs, s) {
      SortKeepsOrder(rs, s);
    }
  }

  lemma SortPermutes(rs: seq<CheckResult>)
    ensures multiset(SortByStateDesc(rs)) == multiset(rs)
  {
    var u, c, w, o := OfState(rs, Unknown), OfState(rs, Critical), OfState(rs, Warn), OfState(rs, Ok);
    OfStateMultiset(rs);
    assert multiset(u + c + w + o) == multiset(u) + multiset(c) + multiset(w) + multiset(o);
  }

  lemma SortKeepsOrder(rs: seq<CheckResult>, s: Severity)
    ensures OfState(SortByStateDesc(rs), s) == OfState(rs, s)
  {
    var u, c, w, o := OfState(rs, Unknown), OfState(rs, Critical), OfState(rs, Warn), OfState(rs, Ok);
    OfStateOfFour(u, c, w, o, s);
    OfStateOfState(rs, s, Unknown);
    OfStateOfState(rs, s, Critical);
    OfStateOfState(rs, s, Warn);
    OfStateOfState(rs, s, Ok);
    OnlyOnePart(OfState(u, s), OfState(c, s), OfState(w, s), OfState(o, s), OfState(rs, s));
  }

  lemma OfStateOfFour(a: seq<CheckResult>, b: seq<CheckResult>, c: seq<CheckResult>, d: seq<CheckResult>,
                      s: Severity)
    ensures OfState(a + b + c + d, s) == OfState(a, s) + OfState(b, s) + OfState(c, s) + OfState(d, s)
  {
    OfStateAppend(a + b + c, d, s);
    OfStateAppend(a + b, c, s);
    OfStateAppend(a, b, s);
  }

  lemma OnlyOnePart(a: seq<CheckResult>, b: seq<CheckResult>, c: seq<CheckResult>, d: seq<CheckResult>,
                    x: seq<CheckResult>)
    requires (a == x && b == [] && c == [] && d == []) || (a == [] && b == x && c == [] && d == [])
          || (a == [] && b == [] && c == x && d == []) || (a == [] && b == [] && c == [] && d == x)
    ensures a + b + c + d == x
  {
    if a == x && b == [] && c == [] && d == [] {
      assert a + b + c + d == a;
    } else if b == x && a == [] && c == [] && d == [] {
      assert a + b + c + d == b;
    } else if c == x && a == [] && b == [] && d == [] {
      assert a + b + c + d == c;
    } else {
      assert a + b + c + d == d;
    }
  }

  /** Per serial, the increments by metric: (oldest value, maximum). */
  type Increments = seq<(Key, seq<(string, (int, int))>)>

  /** Per subject, the status messages. */
  type Statuses = seq<(Key, seq<string>)>

  /** The three collections `problem` fills: free-text messages, increments and
      disk statuses. */
  datatype Groups = Groups(messages: seq<string>, increments: Increments, statuses: Statuses)

  const NoGroups := Groups([], [], [])

  /** Every result that reaches the summary either is Ok or carries a hint:
      only raw values, which are always Ok, come without one. */
  predicate Evaluated(r: CheckResult)
  {
    r.hint.NoHint? ==> r.state == Ok
  }

  /** `_handle_result` with the dispatch it is meant to make: an Ok result is
      ignored; an increment is recorded under its serial and metric, replacing
      an earlier one; a message is appended; a status is appended to its
      subject's list; the text of a CheckError is appended as a message. */
  function HandleResult(r: CheckResult, g: Groups): Groups
    requires Evaluated(r)
  {
    if r.state == Ok then g
    else
      match r.hint
      case Increment(serial, metric, o, n) =>
        g.(increments := Put(g.increments, serial, Put(GetOr(g.increments, serial, []), metric, (o, n))))
      case Message(text) => g.(messages := g.messages + [text])
      case Status(subject, message) =>
        g.(statuses := Put(g.statuses, subject, GetOr(g.statuses, subject, []) + [message]))
      case Text(text) => g.(messages := g.messages + [text])
  }

  predicate AllEvaluated(rs: seq<CheckResult>)
  {
    forall i :: 0 <= i < |rs| ==> Evaluated(rs[i])
  }

  /** `_handle_result` over the results in order. */
  function GroupAll(rs: seq<CheckResult>): Groups
    requires AllEvaluated(rs)
    decreases |rs|
  {
    if rs == [] then NoGroups
    else HandleResult(rs[|rs| - 1], GroupAll(rs[..|rs| - 1]))
  }

  /** "Disk S: m1, m2" */
  function StatusLine(subject: Key, messages: seq<string>): string
  {
    "Disk " + KeyText(subject) + ": " + Join(messages, ", ")
  }

  /** "metric: old -> new" */
  function IncrementText(metric: string, change: (int, int)): string
  {
    metric + ": " + IntToString(change.0) + " -> " + IntToString(change.1)
  }

  function IncrementTexts(incs: seq<(string, (int, int))>): (r: seq<string>)
    ensures |r| == |incs|
  {
    seq(|incs|, i requires 0 <= i < |incs| => IncrementText(incs[i].0, incs[i].1))
  }

  /** "Disk S: increment in counter m: o -> n" for one metric, "counters" and
      a comma-separated list for several. */
  function IncrementLine(serial: Key, incs: seq<(string, (int, int))>): string
  {
    "Disk " + KeyText(serial) + ": increment in counter" + (if |incs| == 1 then "" else "s") + " "
      + Join(IncrementTexts(incs), ", ")
  }

  function StatusLines(st: Statuses): (r: seq<string>)
    ensures |r| == |st|
  {
    seq(|st|, i requires 0 <= i < |st| => StatusLine(st[i].0, st[i].1))
  }

  function IncrementLines(inc: Increments): (r: seq<string>)
    ensures |r| == |inc|
  {
    seq(|inc|, i requires 0 <= i < |inc| => IncrementLine(inc[i].0, inc[i].1))
  }

  /** The parts of the problem text: free-text messages, then one line per
      status subject, then one line per serial with increments. */
  function ProblemLines(rs: seq<CheckResult>): seq<string>
    requires AllEvaluated(rs)
  {
    SortEvaluated(rs);
    var g := GroupAll(SortByStateDesc(rs));
    g.messages + StatusLines(g.statuses) + IncrementLines(g.increments)
  }

  /** `SmartSummary.problem` */
  function ProblemText(rs: seq<CheckResult>): string
    requires AllEvaluated(rs)
  {
    Join(ProblemLines(rs), ", ")
  }

  /** `SmartSummary.ok`: nothing beyond the state. */
  function OkSummary(rs: seq<CheckResult>): (text: string)
    ensures text == ""
  {
    ""
  }

  lemma SortEvaluated(rs: seq<CheckResult>)
    requires AllEvaluated(rs)
    ensures AllEvaluated(SortByStateDesc(rs))
  {
    SortIsStable(rs);
    var out := SortByStateDesc(rs);
    forall i | 0 <= i < |out| ensures Evaluated(out[i]) {
      assert out[i] in multiset(rs);
      var j :| 0 <= j < |rs| && rs[j] == out[i];
    }
  }

  /** The results `problem` looks at: every one that is not Ok, in order. */
  function NotOk(rs: seq<CheckResult>): (r: seq<CheckResult>)
    ensures |r| <= |rs|
    decreases |rs|
  {
    if rs == [] then []
    else NotOk(rs[..|rs| - 1]) + (if rs[|rs| - 1].state != Ok then [rs[|rs| - 1]] else [])
  }

  /** The free-text messages among the results, in order. */
  function MessageTexts(rs: seq<CheckResult>): seq<string>
    decreases |rs|
  {
    if rs == [] then []
    else
      var r := rs[|rs| - 1];
      MessageTexts(rs[..|rs| - 1])
        + (if r.state != Ok && (r.hint.Message? || r.hint.Text?) then [r.hint.text] else [])
  }

  /** The status messages about one subject, in order. */
  function StatusesAbout(rs: seq<CheckResult>, subject: Key): seq<string>
    decreases |rs|
  {
    if rs == [] then []
    else
      var r := rs[|rs| - 1];
      StatusesAbout(rs[..|rs| - 1], subject)
        + (if r.state != Ok && r.hint.Status? && r.hint.subject == subject then [r.hint.message] else [])
  }

  /** The last increment reported for one serial and metric. */
  function LastIncrement(rs: seq<CheckResult>, serial: Key, metric: string): Option<(int, int)>
    decreases |rs|
  {
    if rs == [] then None
    else
      var r := rs[|rs| - 1];
      if r.state != Ok && r.hint.Increment? && r.hint.serial == serial && r.hint.metric == metric
      then Some((r.hint.oldValue, r.hint.newValue))
      else LastIncrement(rs[..|rs| - 1], serial, metric)
  }

  /** Free-text messages are kept in result order, one per message or
      CheckError result that is not Ok. */
  lemma {:induction false} GroupAllMessages(rs: seq<CheckResult>)
    requires AllEvaluated(rs)
    ensures GroupAll(rs).messages == MessageTexts(rs)
    decreases |rs|
  {
    if rs != [] {
      GroupAllMessages(rs[..|rs| - 1]);
    }
  }

  /** Each subject's status messages are collected in result order. */
  lemma {:induction false} GroupAllStatuses(rs: seq<CheckResult>, subject: Key)
    requires AllEvaluated(rs)
    ensures GetOr(GroupAll(rs).statuses, subject, []) == StatusesAbout(rs, subject)
    ensures subject in Keys(GroupAll(rs).statuses) <==> StatusesAbout(rs, subject) != []
    decreases |rs|
  {
    if rs != [] {
      var init := rs[..|rs| - 1];
      var r := rs[|rs| - 1];
      GroupAllStatuses(init, subject);
      var g := GroupAll(init);
      if r.state != Ok && r.hint.Status? {
        PutGet(g.statuses, r.hint.subject, GetOr(g.statuses, r.hint.subject, []) + [r.hint.message]);
      }
    }
  }

  /** For a repeated serial and metric the later increment wins. */
  lemma {:induction false} GroupAllIncrements(rs: seq<CheckResult>, serial: Key, metric: string)
    requires AllEvaluated(rs)
    ensures Get(GetOr(GroupAll(rs).increments, serial, []), metric) == LastIncrement(rs, serial, metric)
    decreases |rs|
  {
    if rs != [] {
      var init := rs[..|rs| - 1];
      var r := rs[|rs| - 1];
      GroupAllIncrements(init, serial, metric);
      var g := GroupAll(init);
      if r.state != Ok && r.hint.Increment? {
        var inner := GetOr(g.increments, r.hint.serial, []);
        var change := (r.hint.oldValue, r.hint.newValue);
        PutGet(inner, r.hint.metric, change);
        PutGet(g.increments, r.hint.serial, Put(inner, r.hint.metric, change));
      }
    }
  }

  /** The subjects of the status results that are not Ok, in order. */
  function StatusSubjects(rs: seq<CheckResult>): seq<Key>
    decreases |rs|
  {
    if rs == [] then []
    else
      var r := rs[|rs| - 1];
      StatusSubjects(rs[..|rs| - 1]) + (if r.state != Ok && r.hint.Status? then [r.hint.subject] else [])
  }

  /** The serials of the increment results that are not Ok, in order. */
  function IncrementSerials(rs: seq<CheckResult>): seq<Key>
    decreases |rs|
  {
    if rs == [] then []
    else
      var r := rs[|rs| - 1];
      IncrementSerials(rs[..|rs| - 1]) + (if r.state != Ok && r.hint.Increment? then [r.hint.serial] else [])
  }

  /** The metrics of one serial's increment results that are not Ok, in order. */
  function IncrementMetrics(rs: seq<CheckResult>, serial: Key): seq<string>
    decreases |rs|
  {
    if rs == [] then []
    else
      var r := rs[|rs| - 1];
      IncrementMetrics(rs[..|rs| - 1], serial)
        + (if r.state != Ok && r.hint.Increment? && r.hint.serial == serial then [r.hint.metric] else [])
  }

  /** Status subjects are listed in the order they first occur, once each. */
  lemma {:induction false} GroupAllStatusOrder(rs: seq<CheckResult>)
    requires AllEvaluated(rs)
    ensures Keys(GroupAll(rs).statuses) == FirstSeen(StatusSubjects(rs))
    decreases |rs|
  {
    if rs != [] {
      var init := rs[..|rs| - 1];
      var r := rs[|rs| - 1];
      GroupAllStatusOrder(init);
      var g := GroupAll(init);
      HandleResultStatuses(r, g);
      if r.state != Ok && r.hint.Status? {
        var k := r.hint.subject;
        PutGet(g.statuses, k, GetOr(g.statuses, k, []) + [r.hint.message]);
        assert StatusSubjects(rs) == StatusSubjects(init) + [k];
        FirstSeenSnoc(StatusSubjects(init), k);
        FirstSeenElements(StatusSubjects(init));
      } else {
        assert StatusSubjects(rs) == StatusSubjects(init) + [];
        assert StatusSubjects(init) + [] == StatusSubjects(init);
      }
    }
  }

  /** Serials with increments are listed in the order they first occur, once each. */
  lemma {:induction false} GroupAllSerialOrder(rs: seq<CheckResult>)
    requires AllEvaluated(rs)
    ensures Keys(GroupAll(rs).increments) == FirstSeen(IncrementSerials(rs))
    decreases |rs|
  {
    if rs != [] {
      var init := rs[..|rs| - 1];
      var r := rs[|rs| - 1];
      GroupAllSerialOrder(init);
      var g := GroupAll(init);
      HandleResultIncrements(r, g);
      if r.state != Ok && r.hint.Increment? {
        var k := r.hint.serial;
        var inner := GetOr(g.increments, k, []);
        PutGet(g.increments, k, Put(inner, r.hint.metric, (r.hint.oldValue, r.hint.newValue)));
        assert IncrementSerials(rs) == IncrementSerials(init) + [k];
        FirstSeenSnoc(IncrementSerials(init), k);
        FirstSeenElements(IncrementSerials(init));
      } else {
        assert IncrementSerials(rs) == IncrementSerials(init) + [];
        assert IncrementSerials(init) + [] == IncrementSerials(init);
      }
    }
  }

  /** Within one serial, metrics are listed in the order they first occur, once each. */
  lemma {:induction false} GroupAllMetricOrder(rs: seq<CheckResult>, serial: Key)
    requires AllEvaluated(rs)
    ensures Keys(GetOr(GroupAll(rs).increments, serial, [])) == FirstSeen(IncrementMetrics(rs, serial))
    decreases |rs|
  {
    if rs != [] {
      var init := rs[..|rs| - 1];
      var r := rs[|rs| - 1];
      GroupAllMetricOrder(init, serial);
      var g := GroupAll(init);
      HandleResultIncrements(r, g);
      if r.state != Ok && r.hint.Increment? && r.hint.serial == serial {
        var m := r.hint.metric;
        var inner := GetOr(g.increments, serial, []);
        var change := (r.hint.oldValue, r.hint.newValue);
        PutGet(g.increments, serial, Put(inner, m, change));
        PutGet(inner, m, change);
        assert IncrementMetrics(rs, serial) == IncrementMetrics(init, serial) + [m];
        FirstSeenSnoc(IncrementMetrics(init, serial), m);
        FirstSeenElements(IncrementMetrics(init, serial));
      } else {
        if r.state != Ok && r.hint.Increment? {
          var k := r.hint.serial;
          PutGet(g.increments, k, Put(GetOr(g.increments, k, []), r.hint.metric, (r.hint.oldValue, r.hint.newValue)));
        }
        assert GetOr(GroupAll(rs).increments, serial, []) == GetOr(g.increments, serial, []);
        assert IncrementMetrics(rs, serial) == IncrementMetrics(init, serial) + [];
        assert IncrementMetrics(init, serial) + [] == IncrementMetrics(init, serial);
      }
    }
  }

  lemma HandleResultStatuses(r: CheckResult, g: Groups)
    requires Evaluated(r)
    ensures HandleResult(r, g).statuses
         == if r.state != Ok && r.hint.Status?
            then Put(g.statuses, r.hint.subject, GetOr(g.statuses, r.hint.subject, []) + [r.hint.message])
            else g.statuses
  {
  }

  lemma HandleResultIncrements(r: CheckResult, g: Groups)
    requires Evaluated(r)
    ensures HandleResult(r, g).increments
         == if r.state != Ok && r.hint.Increment?
            then Put(g.increments, r.hint.serial,
                     Put(GetOr(g.increments, r.hint.serial, []), r.hint.metric, (r.hint.oldValue, r.hint.newValue)))
            else g.increments
  {
  }

  /** Ok results change nothing. */
  lemma {:induction false} GroupAllNotOk(rs: seq<CheckResult>)
    requires AllEvaluated(rs)
    ensures AllEvaluated(NotOk(rs))
    ensures GroupAll(NotOk(rs)) == GroupAll(rs)
    decreases |rs|
  {
    if rs != [] {
      var init := rs[..|rs| - 1];
      var r := rs[|rs| - 1];
      GroupAllNotOk(init);
      if r.state != Ok {
        var n := NotOk(init) + [r];
        assert n[..|n| - 1] == NotOk(init);
        assert n[|n| - 1] == r;
        assert NotOk(rs) == n;
        assert GroupAll(n) == HandleResult(r, GroupAll(NotOk(init)));
      } else {
        assert NotOk(rs) == NotOk(init) + [];
        assert NotOk(init) + [] == NotOk(init);
      }
    }
  }

  lemma {:induction false} NotOkOfState(rs: seq<CheckResult>, s: Severity)
    ensures NotOk(OfState(rs, s)) == if s == Ok then [] else OfState(rs, s)
    decreases |rs|
  {
    if rs != [] {
      var init := rs[..|rs| - 1];
      var r := rs[|rs| - 1];
      NotOkOfState(init, s);
      var t := if r.state == s then [r] else [];
      NotOkAppend(OfState(init, s), t);
      if r.state == s {
        assert [r][..0] == [];
      }
    }
  }

  lemma {:induction false} NotOkAppend(a: seq<CheckResult>, b: seq<CheckResult>)
    ensures NotOk(a + b) == NotOk(a) + NotOk(b)
    decreases |b|
  {
    if b == [] {
      assert a + b == a;
    } else {
      assert (a + b)[..|a + b| - 1] == a + b[..|b| - 1];
      NotOkAppend(a, b[..|b| - 1]);
    }
  }

  /** `problem` ignores Ok results: the text is that of the other results alone. */
  lemma OkResultsIgnored(rs: seq<CheckResult>)
    requires AllEvaluated(rs)
    ensures AllEvaluated(NotOk(rs))
    ensures ProblemText(rs) == ProblemText(NotOk(rs))
  {
    var n := NotOk(rs);
    GroupAllNotOk(rs);
    SortEvaluated(rs);
    SortEvaluated(n);
    var sorted, sortedN := SortByStateDesc(rs), SortByStateDesc(n);
    GroupAllNotOk(sorted);
    GroupAllNotOk(sortedN);
    NotOkSorted(rs);
    assert GroupAll(sorted) == GroupAll(sortedN);
  }

  lemma NotOkSorted(rs: seq<CheckResult>)
    ensures NotOk(SortByStateDesc(rs)) == NotOk(SortByStateDesc(NotOk(rs)))
  {
    var n := NotOk(rs);
    forall s ensures OfState(n, s) == NotOk(OfState(rs, s)) {
      NotOkFilterCommutes(rs, s);
    }
    var u, c, w, o := OfState(rs, Unknown), OfState(rs, Critical), OfState(rs, Warn), OfState(rs, Ok);
    var u', c', w', o' := OfState(n, Unknown), OfState(n, Critical), OfState(n, Warn), OfState(n, Ok);
    NotOkAppend(u + c + w, o);
    NotOkAppend(u + c, w);
    NotOkAppend(u, c);
    NotOkAppend(u' + c' + w', o');
    NotOkAppend(u' + c', w');
    NotOkAppend(u', c');
    NotOkOfState(rs, Unknown);
    NotOkOfState(rs, Critical);
    NotOkOfState(rs, Warn);
    NotOkOfState(rs, Ok);
    NotOkOfState(n, Unknown);
    NotOkOfState(n, Critical);
    NotOkOfState(n, Warn);
    NotOkOfState(n, Ok);
  }

  lemma {:induction false} NotOkFilterCommutes(rs: seq<CheckResult>, s: Severity)
    ensures OfState(NotOk(rs), s) == NotOk(OfState(rs, s))
    decreases |rs|
  {
    if rs != [] {
      var init := rs[..|rs| - 1];
      var r := rs[|rs| - 1];
      NotOkFilterCommutes(init, s);
      var t := if r.state == s then [r] else [];
      NotOkAppend(OfState(init, s), t);
      OfStateAppend(NotOk(init), if r.state != Ok then [r] else [], s);
      assert OfState([r], s) == t by {
        assert [r][..0] == [];
      }
      assert NotOk([r]) == (if r.state != Ok then [r] else []) by {
        assert [r][..0] == [];
      }
    }
  }

  /** `SmartSummary.problem`: the results worst first through `_handle_result`,
      then one line per status subject and one per serial with increments,
      everything joined with ", ". */
  method Problem(results: seq<CheckResult>) returns (text: string)
    requires AllEvaluated(results)
    ensures text == ProblemText(results)
  {
    SortEvaluated(results);
    var g := GroupResults(SortByStateDesc(results));
    var statusLines := RenderStatuses(g.statuses);
    var incrementLines := RenderAllIncrements(g.increments);
    var messages := g.messages + statusLines + incrementLines;
    text := Join(messages, ", ");
  }

  /** The first loop of `problem`: `_handle_result` on each result in turn. */
  method GroupResults(sorted: seq<CheckResult>) returns (g: Groups)
    requires AllEvaluated(sorted)
    ensures g == GroupAll(sorted)
  {
    g := NoGroups;
    for i := 0 to |sorted|
      invariant g == GroupAll(sorted[..i])
    {
      assert sorted[..i + 1][..i] == sorted[..i];
      g := HandleResult(sorted[i], g);
    }
    PrefixAll(sorted);
  }

  /** The second loop of `problem`: one line per disk with status messages. */
  method RenderStatuses(statuses: Statuses) returns (lines: seq<string>)
    ensures lines == StatusLines(statuses)
  {
    lines := [];
    for i := 0 to |statuses|
      invariant lines == StatusLines(statuses)[..i]
    {
      var (subject, statusMessages) := statuses[i];
      lines := lines + ["Disk " + KeyText(subject) + ": " + Join(statusMessages, ", ")];
      PrefixSnoc(StatusLines(statuses), i);
    }
    PrefixAll(StatusLines(statuses));
  }

  /** The last loop of `problem`: one line per disk with increased counters. */
  method RenderAllIncrements(increments: Increments) returns (lines: seq<string>)
    ensures lines == IncrementLines(increments)
  {
    lines := [];
    for i := 0 to |increments|
      invariant lines == IncrementLines(increments)[..i]
    {
      var (serial, serialIncrements) := increments[i];
      var line := RenderIncrements(serial, serialIncrements);
      lines := lines + [line];
      PrefixSnoc(IncrementLines(increments), i);
    }
    PrefixAll(IncrementLines(increments));
  }

  /** The body of the last loop of `problem` for one serial. */
  method RenderIncrements(serial: Key, serialIncrements: seq<(string, (int, int))>) returns (line: string)
    ensures line == IncrementLine(serial, serialIncrements)
  {
    var incMessages: seq<string> := [];
    for j := 0 to |serialIncrements|
      invariant incMessages == IncrementTexts(serialIncrements)[..j]
    {
      var (metric, change) := serialIncrements[j];
      incMessages := incMessages + [metric + ": " + IntToString(change.0) + " -> " + IntToString(change.1)];
      PrefixSnoc(IncrementTexts(serialIncrements), j);
    }
    PrefixAll(IncrementTexts(serialIncrements));
    var s := if |incMessages| == 1 then "" else "s";
    line := "Disk " + KeyText(serial) + ": increment in counter" + s + " " + Join(incMessages, ", ");
  }

  /** `_handle_result` as written: its dispatch uses `in` on the hint, which
      for the dictionaries of metadata results tests for a key but for the
      text a CheckError leaves behind tests for a substring, after which the
      dictionary lookup on a string raises TypeError. */
  function HandleResultAsWritten(r: CheckResult, g: Groups): Result<Groups, string>
  {
    if r.state == Ok then Success(g)
    else
      match r.hint
      case Increment(serial, metric, o, n) =>
        Success(g.(increments := Put(g.increments, serial, Put(GetOr(g.increments, serial, []), metric, (o, n)))))
      case Message(text) => Success(g.(messages := g.messages + [text]))
      case Status(subject, message) =>
        Success(g.(statuses := Put(g.statuses, subject, GetOr(g.statuses, subject, []) + [message])))
      case Text(text) =>
        if Contains(text, "increment") || Contains(text, "message") || Contains(text, "status")
        then Failure("TypeError: string indices must be integers")
        else Success(g.(messages := g.messages + [text]))
      case NoHint => Failure("TypeError: argument of type 'NoneType' is not iterable")
  }

  function GroupAllAsWritten(rs: seq<CheckResult>): Result<Groups, string>
    decreases |rs|
  {
    if rs == [] then Success(NoGroups)
    else
      var before := GroupAllAsWritten(rs[..|rs| - 1]);
      if before.Failure? then before else HandleResultAsWritten(rs[|rs| - 1], before.value)
  }

  /** `problem` as written: the text, or the TypeError that escapes it. */
  function ProblemAsWritten(rs: seq<CheckResult>): Result<string, string>
  {
    var g := GroupAllAsWritten(SortByStateDesc(rs));
    if g.Failure? then Failure(g.error)
    else Success(Join(g.value.messages + StatusLines(g.value.statuses) + IncrementLines(g.value.increments), ", "))
  }

  /** A CheckError text that happens to contain one of the three words. */
  predicate Trips(r: CheckResult)
  {
    r.state != Ok && r.hint.Text?
    && (Contains(r.hint.text, "increment") || Contains(r.hint.text, "message") || Contains(r.hint.text, "status"))
  }

  /** Where no CheckError text contains "increment", "message" or "status",
      the code as written produces the same text as the intended dispatch. */
  lemma {:induction false} AsWrittenAgrees(rs: seq<CheckResult>)
    requires AllEvaluated(rs)
    requires forall i :: 0 <= i < |rs| ==> !Trips(rs[i])
    ensures GroupAllAsWritten(rs) == Success(GroupAll(rs))
    decreases |rs|
  {
    if rs != [] {
      AsWrittenAgrees(rs[..|rs| - 1]);
    }
  }

  lemma ProblemAsWrittenAgrees(rs: seq<CheckResult>)
    requires AllEvaluated(rs)
    requires forall i :: 0 <= i < |rs| ==> !Trips(rs[i])
    ensures ProblemAsWritten(rs) == Success(ProblemText(rs))
  {
    SortIsStable(rs);
    SortEvaluated(rs);
    var sorted := SortByStateDesc(rs);
    forall i | 0 <= i < |sorted| ensures !Trips(sorted[i]) {
      assert sorted[i] in multiset(rs);
      var j :| 0 <= j < |rs| && rs[j] == sorted[i];
    }
    AsWrittenAgrees(sorted);
  }

  lemma {:induction false} ContainsAtEnd(prefix: string, sub: string)
    ensures Contains(prefix + sub, sub)
    decreases |prefix|
  {
    if prefix == [] {
      assert (prefix + sub)[..|sub|] == sub;
    } else {
      assert (prefix + sub)[1..] == prefix[1..] + sub;
      ContainsAtEnd(prefix[1..], sub);
    }
  }

  /** The error raised when no device matches `-D /dev/disk/by-id/status`
      ends in "status": as written the summary raises TypeError instead of
      reporting it, while the intended dispatch reports the text itself. */
  lemma StatusInErrorTextCrashes()
    ensures var text := "Could not find any device matching /dev/disk/by-id/status";
            var rs := [CheckResult(Unknown, Text(text))];
            (&& AllEvaluated(rs)
             && ProblemAsWritten(rs) == Failure("TypeError: string indices must be integers")
             && ProblemText(rs) == text)
  {
    var text := "Could not find any device matching /dev/disk/by-id/status";
    var r := CheckResult(Unknown, Text(text));
    assert text == "Could not find any device matching /dev/disk/by-id/" + "status";
    ContainsAtEnd("Could not find any device matching /dev/disk/by-id/", "status");
    SingleGroups(r);
    assert HandleResult(r, NoGroups) == Groups([text], [], []);
    assert ProblemLines([r]) == [text];
  }

  /** A single result is grouped on its own, whichever dispatch is used. */
  lemma SingleGroups(r: CheckResult)
    requires AllEvaluated([r])
    ensures GroupAll(SortByStateDesc([r])) == HandleResult(r, NoGroups)
    ensures GroupAllAsWritten(SortByStateDesc([r])) == HandleResultAsWritten(r, NoGroups)
  {
    SortSingle(r);
    assert [r][..0] == [];
  }

  lemma SortSingle(r: CheckResult)
    ensures SortByStateDesc([r]) == [r]
  {
    assert [r][..0] == [];
  }
}
