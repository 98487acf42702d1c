/** The in-memory alert engine of monitoring/alert_system.py: a rule table,
    per-(rule, cluster) cooldowns, the active and history lists, and the
    summary the dashboards read. Rule conditions, which the program keeps as
    Python expressions and runs through `eval`, are a closed datatype here. */
module Alerts {
  import opened Wrappers
  import opened Seqs
  import opened Strings
  import opened OrderedMaps
  import opened Metrics

  const Info := "INFO"
  const Warning := "WARNING"
  const Critical := "CRITICAL"

  // Conditions

  /** The names a condition may mention. `Undefined` stands for any other
      identifier, which `eval` rejects with a NameError. */
  datatype Field =
    | ClusterNameField | StatusField | CostPerHour | HealthScore | EfficiencyScore
    | FailedPods | PendingPods | CpuUsage | MemoryUsage | GpuUsage
    | PowerConsumptionWatts | NodeCount
    | Undefined(name: string)

  datatype Value = Num(x: real) | Text(s: string)

  /** The evaluation environment built from one snapshot. */
  function Lookup(m: ClusterMetrics, f: Field): (v: Option<Value>)
    ensures v.None? <==> f.Undefined?
    ensures v.Some? ==> (v.value.Text? <==> f == ClusterNameField || f == StatusField)
  {
    match f
    case ClusterNameField => Some(Text(m.clusterName))
    case StatusField => Some(Text(m.status))
    case CostPerHour => Some(Num(m.costPerHour))
    case HealthScore => Some(Num(m.healthScore))
    case EfficiencyScore => Some(Num(m.efficiencyScore))
    case FailedPods => Some(Num(m.failedPods as real))
    case PendingPods => Some(Num(m.pendingPods as real))
    case CpuUsage => Some(Num(m.cpuUsage))
    case MemoryUsage => Some(Num(m.memoryUsage))
    case GpuUsage => Some(Num(m.gpuUsage))
    case PowerConsumptionWatts => Some(Num(m.powerConsumptionWatts))
    case NodeCount => Some(Num(m.nodeCount as real))
    case Undefined(_) => None
  }

  datatype Op = Gt | Lt | Ge | Le

  function Apply(op: Op, x: real, bound: real): bool
  {
    match op
    case Gt => x > bound
    case Lt => x < bound
    case Ge => x >= bound
    case Le => x <= bound
  }

  /** `field <op> number`, `field == 'text'`, and Python's `and`. */
  datatype Condition =
    | Compare(field: Field, op: Op, bound: real)
    | Equals(field: Field, text: string)
    | And(left: Condition, right: Condition)

  const NameError := Error("NameError", "name is not defined")
  const TypeError := Error("TypeError", "ordering comparison between str and float")

  /** What `eval` does with a condition: a missing name raises NameError, an
      ordering comparison on a string raises TypeError, `==` between a number
      and a string is simply false, and `and` stops at the first false or
      raising operand. */
  function Eval(c: Condition, m: ClusterMetrics): (r: Result<bool>)
    ensures c.And? ==> (r == Ok(true) <==> Eval(c.left, m) == Ok(true) && Eval(c.right, m) == Ok(true))
    ensures c.And? && Eval(c.left, m) == Ok(false) ==> r == Ok(false)
    ensures c.And? && Eval(c.left, m).Err? ==> r == Eval(c.left, m)
  {
    match c
    case Compare(f, op, bound) =>
      (match Lookup(m, f)
       case None => Err(NameError)
       case Some(Text(_)) => Err(TypeError)
       case Some(Num(x)) => Ok(Apply(op, x, bound)))
    case Equals(f, text) =>
      (match Lookup(m, f)
       case None => Err(NameError)
       case Some(Text(s)) => Ok(s == text)
       case Some(Num(_)) => Ok(false))
    case And(l, r) =>
      (match Eval(l, m)
       case Err(e) => Err(e)
       case Ok(b) => if b then Eval(r, m) else Ok(false))
  }

  /** Only known names, and orderings only on numeric fields. */
  predicate WellFormed(c: Condition)
  {
    match c
    case Compare(f, _, _) => !f.Undefined? && f != ClusterNameField && f != StatusField
    case Equals(f, _) => !f.Undefined?
    case And(l, r) => WellFormed(l) && WellFormed(r)
  }

  /** A well-formed condition never raises, on any snapshot. */
  lemma {:induction false} WellFormedNeverRaises(c: Condition, m: ClusterMetrics)
    requires WellFormed(c)
    ensures Eval(c, m).Ok?
  {
    match c
    case Compare(_, _, _) =>
    case Equals(_, _) =>
    case And(l, r) =>
      WellFormedNeverRaises(l, m);
      WellFormedNeverRaises(r, m);
  }

  // Rules

  datatype AlertRule = AlertRule(
    name: string,
    condition: Condition,
    severity: string,
    messageTemplate: Template,
    cooldownMinutes: int,
    enabled: bool)

  const IsActive := Equals(StatusField, CreateComplete)

  /** A message template: one of the default rules' texts, or a text that
      came from elsewhere (a stored rule). The model does not render
      templates; rendering is the `Renderer` parameter below. */
  datatype Template =
    | HighCostText
    | VeryHighCostText
    | LowHealthText
    | CriticalHealthText
    | FailedPodsText
    | ManyFailedPodsText
    | HighCpuText
    | HighMemoryText
    | LowEfficiencyText
    | CreationFailedText
    | HighPowerText
    | Custom(text: string)

  /** `setup_default_rules`. */
  function DefaultRules(): seq<AlertRule>
  {
    [ AlertRule("high_cost", Compare(CostPerHour, Gt, 20.0), Warning, HighCostText, 10, true),
      AlertRule("very_high_cost", Compare(CostPerHour, Gt, 50.0), Critical, VeryHighCostText, 5, true),
      AlertRule("low_health", And(Compare(HealthScore, Lt, 50.0), IsActive), Warning, LowHealthText, 15, true),
      AlertRule("critical_health", And(Compare(HealthScore, Lt, 20.0), IsActive), Critical, CriticalHealthText, 5, true),
      AlertRule("failed_pods", Compare(FailedPods, Gt, 0.0), Warning, FailedPodsText, 10, true),
      AlertRule("many_failed_pods", Compare(FailedPods, Gt, 5.0), Critical, ManyFailedPodsText, 5, true),
      AlertRule("high_cpu", And(Compare(CpuUsage, Gt, 90.0), IsActive), Warning, HighCpuText, 15, true),
      AlertRule("high_memory", And(Compare(MemoryUsage, Gt, 90.0), IsActive), Warning, HighMemoryText, 15, true),
      AlertRule("low_efficiency", And(Compare(EfficiencyScore, Lt, 30.0), IsActive), Info, LowEfficiencyText, 30, true),
      AlertRule("cluster_creation_failed", Equals(StatusField, "CREATE_FAILED"), Critical, CreationFailedText, 0, true),
      AlertRule("high_power_consumption", Compare(PowerConsumptionWatts, Gt, 5000.0), Info, HighPowerText, 60, true) ]
  }

  predicate DistinctNames(rules: seq<AlertRule>)
  {
    forall i, j :: 0 <= i < j < |rules| ==> rules[i].name != rules[j].name
  }

  predicate KnownSeverity(s: string)
  {
    s == Info || s == Warning || s == Critical
  }

  /** The default table: eleven enabled rules with distinct names, known
      severities, non-negative cooldowns and conditions that never raise. */
  lemma DefaultRulesFacts(m: ClusterMetrics)
    ensures |DefaultRules()| == 11
    ensures DistinctNames(DefaultRules())
    ensures forall i :: 0 <= i < 11 ==>
      DefaultRules()[i].enabled && KnownSeverity(DefaultRules()[i].severity)
      && DefaultRules()[i].cooldownMinutes >= 0 && Eval(DefaultRules()[i].condition, m).Ok?
    ensures DefaultRules()[9].name == "cluster_creation_failed" && DefaultRules()[9].cooldownMinutes == 0
  {
    DefaultNamesDistinct();
    DefaultRowsSound(m);
  }

  lemma DefaultNamesDistinct()
    ensures DistinctNames(DefaultRules())
  {
    var rs := DefaultRules();
    var names := ["high_cost", "very_high_cost", "low_health", "critical_health", "failed_pods",
                  "many_failed_pods", "high_cpu", "high_memory", "low_efficiency",
                  "cluster_creation_failed", "high_power_consumption"];
    assert forall i :: 0 <= i < 11 ==> rs[i].name == names[i];
  }

  lemma DefaultRowsSound(m: ClusterMetrics)
    ensures |DefaultRules()| == 11
    ensures forall i :: 0 <= i < 11 ==>
      DefaultRules()[i].enabled && KnownSeverity(DefaultRules()[i].severity)
      && DefaultRules()[i].cooldownMinutes >= 0 && Eval(DefaultRules()[i].condition, m).Ok?
  {
    var rs := DefaultRules();
    forall i | 0 <= i < 11
      ensures Eval(rs[i].condition, m).Ok?
    {
      assert WellFormed(rs[i].condition);
      WellFormedNeverRaises(rs[i].condition, m);
    }
  }

  /** `add_rule`: appended, so it is evaluated last. */
  function AddRule(rules: seq<AlertRule>, rule: AlertRule): (r: seq<AlertRule>)
    ensures |r| == |rules| + 1 && r[..|rules|] == rules && r[|rules|] == rule
  {
    rules + [rule]
  }

  /** `remove_rule`: every rule with that name goes, the rest keep their
      order. */
  function RemoveRule(rules: seq<AlertRule>, name: string): (r: seq<AlertRule>)
    ensures forall i :: 0 <= i < |r| ==> r[i].name != name && r[i] in rules
    ensures forall i :: 0 <= i < |rules| && rules[i].name != name ==> rules[i] in r
  {
    Filter(rules, (x: AlertRule) => x.name != name)
  }

  /** Removing a rule undoes adding it, and also drops any older rule of the
      same name. */
  lemma RemoveUndoesAdd(rules: seq<AlertRule>, rule: AlertRule)
    ensures RemoveRule(AddRule(rules, rule), rule.name) == RemoveRule(rules, rule.name)
  {
    var p := (x: AlertRule) => x.name != rule.name;
    FilterAppend(rules, [rule], p);
    assert Filter([rule], p) == [];
  }

  // Evaluation

  datatype Alert = Alert(
    id: string,
    ruleName: string,
    clusterName: string,
    severity: string,
    message: string,
    timestamp: int,          // seconds
    acknowledged: bool,
    resolved: bool)

  /** The cooldown key as the program builds it: rule name and cluster name
      joined with "_". It is also the stem of the alert id. */
  function AlertKey(ruleName: string, cluster: string): string
  {
    ruleName + "_" + cluster
  }

  /** The key the cooldown is meant to be indexed by: the pair itself. */
  function PairKey(ruleName: string, cluster: string): (string, string)
  {
    (ruleName, cluster)
  }

  /** Whether a key function separates the rules of one cluster. */
  ghost predicate NameInjective<K>(keyOf: (string, string) -> K, cluster: string)
  {
    forall a, b :: keyOf(a, cluster) == keyOf(b, cluster) ==> a == b
  }

  /** A key never seen passes (the program's `datetime.min` default), and
      so does one whose last firing is at least the cooldown ago. */
  predicate CooldownElapsed<K(==)>(last: map<K, int>, key: K, now: int, cooldownMinutes: int)
  {
    key !in last || now - last[key] >= cooldownMinutes * 60
  }

  /** The message renderer is a parameter: `str.format` is opaque here and
      may raise (a template naming an unknown field). */
  type Renderer = (AlertRule, ClusterMetrics) -> Result<string>

  /** One rule raises an alert: enabled, condition true without raising,
      cooldown elapsed, and message rendered without raising. */
  predicate Fires<K(==)>(rule: AlertRule, m: ClusterMetrics, now: int, last: map<K, int>, key: K, render: Renderer)
  {
    rule.enabled && Eval(rule.condition, m) == Ok(true)
    && CooldownElapsed(last, key, now, rule.cooldownMinutes) && render(rule, m).Ok?
  }

  function MakeAlert(rule: AlertRule, m: ClusterMetrics, now: int, message: string): Alert
  {
    Alert(AlertKey(rule.name, m.clusterName) + "_" + IntToString(now), rule.name, m.clusterName,
          rule.severity, message, now, false, false)
  }

  datatype Outcome<K> = Outcome(alerts: seq<Alert>, lastAlert: map<K, int>)

  /** `evaluate_conditions`, with the cooldown map keyed by `keyOf`. Rules
      are visited in order; a rule that raises is skipped and later rules
      still run. */
  function Evaluate<K(==)>(rules: seq<AlertRule>, m: ClusterMetrics, now: int, last: map<K, int>,
                           keyOf: (string, string) -> K, render: Renderer): (r: Outcome<K>)
    ensures |r.alerts| <= |rules|
    ensures forall i :: 0 <= i < |r.alerts| ==>
      r.alerts[i].clusterName == m.clusterName && r.alerts[i].timestamp == now
      && !r.alerts[i].acknowledged && !r.alerts[i].resolved
    ensures last.Keys <= r.lastAlert.Keys
    ensures forall k :: k in r.lastAlert ==> (k in last && r.lastAlert[k] == last[k]) || r.lastAlert[k] == now
    ensures forall k :: k in last && (forall j :: 0 <= j < |rules| ==> k != keyOf(rules[j].name, m.clusterName))
                        ==> r.lastAlert[k] == last[k]
    ensures forall k :: k in r.lastAlert && (forall j :: 0 <= j < |rules| ==> k != keyOf(rules[j].name, m.clusterName))
                        ==> k in last
    decreases |rules|
  {
    if |rules| == 0 then Outcome([], last)
    else
      var rule := rules[0];
      var key := keyOf(rule.name, m.clusterName);
      if Fires(rule, m, now, last, key, render) then
        var rest := Evaluate(rules[1..], m, now, last[key := now], keyOf, render);
        Outcome([MakeAlert(rule, m, now, render(rule, m).value)] + rest.alerts, rest.lastAlert)
      else
        Evaluate(rules[1..], m, now, last, keyOf, render)
  }

  /** Reference definition: the alerts of every rule that fires against the
      cooldown map as it stood before the pass. */
  function Expected<K(==)>(rules: seq<AlertRule>, m: ClusterMetrics, now: int, last: map<K, int>,
                           keyOf: (string, string) -> K, render: Renderer): seq<Alert>
  {
    if |rules| == 0 then []
    else
      var rule := rules[0];
      (if Fires(rule, m, now, last, keyOf(rule.name, m.clusterName), render)
       then [MakeAlert(rule, m, now, render(rule, m).value)] else [])
      + Expected(rules[1..], m, now, last, keyOf, render)
  }

  lemma {:induction false} ExpectedIgnoresKey<K>(rules: seq<AlertRule>, m: ClusterMetrics, now: int,
                                                      last: map<K, int>, keyOf: (string, string) -> K,
                                                      render: Renderer, key: K, t: int)
    requires forall j :: 0 <= j < |rules| ==> keyOf(rules[j].name, m.clusterName) != key
    ensures Expected(rules, m, now, last[key := t], keyOf, render) == Expected(rules, m, now, last, keyOf, render)
  {
    if |rules| > 0 {
      ExpectedIgnoresKey(rules[1..], m, now, last, keyOf, render, key, t);
    }
  }

  /** With distinct rule names and a key that tells them apart, one pass
      raises exactly the alerts of the reference definition: stamping one
      rule's key never blocks another rule in the same pass. */
  lemma {:induction false} EvaluateMatchesExpected<K>(rules: seq<AlertRule>, m: ClusterMetrics, now: int,
                                                           last: map<K, int>, keyOf: (string, string) -> K,
                                                           render: Renderer)
    requires DistinctNames(rules)
    requires NameInjective(keyOf, m.clusterName)
    ensures Evaluate(rules, m, now, last, keyOf, render).alerts == Expected(rules, m, now, last, keyOf, render)
  {
    if |rules| > 0 {
      var rule := rules[0];
      var key := keyOf(rule.name, m.clusterName);
      assert DistinctNames(rules[1..]);
      forall j | 0 <= j < |rules[1..]|
        ensures keyOf(rules[1..][j].name, m.clusterName) != key
      {
        assert rules[1..][j] == rules[j + 1];
      }
      if Fires(rule, m, now, last, key, render) {
        EvaluateMatchesExpected(rules[1..], m, now, last[key := now], keyOf, render);
        ExpectedIgnoresKey(rules[1..], m, now, last, keyOf, render, key, now);
      } else {
        EvaluateMatchesExpected(rules[1..], m, now, last, keyOf, render);
      }
    }
  }

  /** Whether some alert in the list came from the named rule. */
  predicate RaisedFor(alerts: seq<Alert>, ruleName: string)
  {
    exists i :: 0 <= i < |alerts| && alerts[i].ruleName == ruleName
  }

  lemma {:induction false} ExpectedRaisedFor<K>(rules: seq<AlertRule>, j: nat, m: ClusterMetrics, now: int,
                                                     last: map<K, int>, keyOf: (string, string) -> K,
                                                     render: Renderer)
    requires DistinctNames(rules) && j < |rules|
    ensures RaisedFor(Expected(rules, m, now, last, keyOf, render), rules[j].name)
            <==> Fires(rules[j], m, now, last, keyOf(rules[j].name, m.clusterName), render)
  {
    var rule := rules[0];
    var head := if Fires(rule, m, now, last, keyOf(rule.name, m.clusterName), render)
                then [MakeAlert(rule, m, now, render(rule, m).value)] else [];
    var tail := Expected(rules[1..], m, now, last, keyOf, render);
    assert Expected(rules, m, now, last, keyOf, render) == head + tail;
    RaisedForAppend(head, tail, rules[j].name);
    if |head| == 1 {
      assert head[0].ruleName == rule.name;
    }
    if j == 0 {
      RestNotRaised(rules, m, now, last, keyOf, render);
    } else {
      assert DistinctNames(rules[1..]);
      ExpectedRaisedFor(rules[1..], j - 1, m, now, last, keyOf, render);
      assert rules[1..][j - 1] == rules[j];
      assert rules[0].name != rules[j].name;
    }
  }

  /** An alert in a concatenation comes from one of the two parts. */
  lemma RaisedForAppend(a: seq<Alert>, b: seq<Alert>, name: string)
    ensures RaisedFor(a + b, name) <==> RaisedFor(a, name) || RaisedFor(b, name)
  {
    if RaisedFor(a + b, name) {
      var i :| 0 <= i < |a + b| && (a + b)[i].ruleName == name;
      if i < |a| {
        assert a[i] == (a + b)[i];
      } else {
        assert b[i - |a|] == (a + b)[i];
      }
    }
    if RaisedFor(a, name) {
      var i :| 0 <= i < |a| && a[i].ruleName == name;
      assert (a + b)[i] == a[i];
    }
    if RaisedFor(b, name) {
      var i :| 0 <= i < |b| && b[i].ruleName == name;
      assert (a + b)[i + |a|] == b[i];
    }
  }

  /** With distinct names, the later rules never raise for the first one. */
  lemma RestNotRaised<K>(rules: seq<AlertRule>, m: ClusterMetrics, now: int,
                         last: map<K, int>, keyOf: (string, string) -> K, render: Renderer)
    requires DistinctNames(rules) && 0 < |rules|
    ensures !RaisedFor(Expected(rules[1..], m, now, last, keyOf, render), rules[0].name)
  {
    var tail := Expected(rules[1..], m, now, last, keyOf, render);
    if RaisedFor(tail, rules[0].name) {
      var i :| 0 <= i < |tail| && tail[i].ruleName == rules[0].name;
      ExpectedOnlyFromRules(rules[1..], m, now, last, keyOf, render, i);
      assert false;
    }
  }

  lemma {:induction false} ExpectedOnlyFromRules<K>(rules: seq<AlertRule>, m: ClusterMetrics, now: int,
                                                         last: map<K, int>, keyOf: (string, string) -> K,
                                                         render: Renderer, i: nat)
    requires i < |Expected(rules, m, now, last, keyOf, render)|
    ensures exists k :: 0 <= k < |rules| && rules[k].name == Expected(rules, m, now, last, keyOf, render)[i].ruleName
  {
    var rule := rules[0];
    var head := if Fires(rule, m, now, last, keyOf(rule.name, m.clusterName), render)
                then [MakeAlert(rule, m, now, render(rule, m).value)] else [];
    var tail := Expected(rules[1..], m, now, last, keyOf, render);
    assert Expected(rules, m, now, last, keyOf, render) == head + tail;
    if i >= |head| {
      ExpectedOnlyFromRules(rules[1..], m, now, last, keyOf, render, i - |head|);
      var k :| 0 <= k < |rules[1..]| && rules[1..][k].name == tail[i - |head|].ruleName;
      assert rules[k + 1] == rules[1..][k];
    }
  }

  /** The per-rule promise of one pass: rule j raises an alert exactly when
      it is enabled, its condition holds, its (rule, cluster) cooldown has
      elapsed and its message renders. */
  lemma AlertRaisedIff<K>(rules: seq<AlertRule>, j: nat, m: ClusterMetrics, now: int,
                              last: map<K, int>, keyOf: (string, string) -> K, render: Renderer)
    requires DistinctNames(rules) && j < |rules|
    requires NameInjective(keyOf, m.clusterName)
    ensures RaisedFor(Evaluate(rules, m, now, last, keyOf, render).alerts, rules[j].name)
            <==> Fires(rules[j], m, now, last, keyOf(rules[j].name, m.clusterName), render)
  {
    EvaluateMatchesExpected(rules, m, now, last, keyOf, render);
    ExpectedRaisedFor(rules, j, m, now, last, keyOf, render);
  }

  /** The (rule, cluster) stamp moves to `now` exactly when that rule fires,
      and is left as it was otherwise. */
  lemma {:induction false} StampIff<K>(rules: seq<AlertRule>, j: nat, m: ClusterMetrics, now: int,
                                           last: map<K, int>, keyOf: (string, string) -> K, render: Renderer)
    requires DistinctNames(rules) && j < |rules|
    requires NameInjective(keyOf, m.clusterName)
    ensures var key := keyOf(rules[j].name, m.clusterName);
            var r := Evaluate(rules, m, now, last, keyOf, render);
            (Fires(rules[j], m, now, last, key, render) ==> key in r.lastAlert && r.lastAlert[key] == now)
            && (!Fires(rules[j], m, now, last, key, render) ==>
                  (key in r.lastAlert <==> key in last) && (key in last ==> r.lastAlert[key] == last[key]))
  {
    if j == 0 {
      StampFirst(rules, m, now, last, keyOf, render);
    } else {
      var key := keyOf(rules[j].name, m.clusterName);
      var key0 := keyOf(rules[0].name, m.clusterName);
      assert DistinctNames(rules[1..]);
      var last1 := AfterFirst(rules, m, now, last, keyOf, render);
      EvaluateLastStep(rules, m, now, last, keyOf, render);
      assert rules[1..][j - 1] == rules[j];
      assert key != key0;
      assert (key in last1 <==> key in last) && (key in last ==> last1[key] == last[key]);
      StampIff(rules[1..], j - 1, m, now, last1, keyOf, render);
      assert Fires(rules[j], m, now, last1, key, render) == Fires(rules[j], m, now, last, key, render);
    }
  }

  /** The cooldown map after the first rule of a pass. */
  function AfterFirst<K(==)>(rules: seq<AlertRule>, m: ClusterMetrics, now: int, last: map<K, int>,
                             keyOf: (string, string) -> K, render: Renderer): map<K, int>
    requires 0 < |rules|
  {
    var key := keyOf(rules[0].name, m.clusterName);
    if Fires(rules[0], m, now, last, key, render) then last[key := now] else last
  }

  /** The stamps of a pass are those the remaining rules leave after the
      first rule's step. */
  lemma EvaluateLastStep<K>(rules: seq<AlertRule>, m: ClusterMetrics, now: int, last: map<K, int>,
                            keyOf: (string, string) -> K, render: Renderer)
    requires 0 < |rules|
    ensures Evaluate(rules, m, now, last, keyOf, render).lastAlert
            == Evaluate(rules[1..], m, now, AfterFirst(rules, m, now, last, keyOf, render), keyOf, render).lastAlert
  {
  }

  /** The first rule's stamp: no later rule uses its key, so only its own
      firing moves it. */
  lemma StampFirst<K>(rules: seq<AlertRule>, m: ClusterMetrics, now: int,
                      last: map<K, int>, keyOf: (string, string) -> K, render: Renderer)
    requires DistinctNames(rules) && 0 < |rules|
    requires NameInjective(keyOf, m.clusterName)
    ensures var key := keyOf(rules[0].name, m.clusterName);
            var r := Evaluate(rules, m, now, last, keyOf, render);
            (Fires(rules[0], m, now, last, key, render) ==> key in r.lastAlert && r.lastAlert[key] == now)
            && (!Fires(rules[0], m, now, last, key, render) ==>
                  (key in r.lastAlert <==> key in last) && (key in last ==> r.lastAlert[key] == last[key]))
  {
    var key := keyOf(rules[0].name, m.clusterName);
    var last1 := if Fires(rules[0], m, now, last, key, render) then last[key := now] else last;
    assert Evaluate(rules, m, now, last, keyOf, render).lastAlert
        == Evaluate(rules[1..], m, now, last1, keyOf, render).lastAlert;
    var r := Evaluate(rules[1..], m, now, last1, keyOf, render);
    forall i | 0 <= i < |rules[1..]|
      ensures key != keyOf(rules[1..][i].name, m.clusterName)
    {
      assert rules[1..][i] == rules[i + 1];
    }
    assert key in last1 ==> key in r.lastAlert && r.lastAlert[key] == last1[key];
    assert key in r.lastAlert ==> key in last1;
  }

  // The alert system

  /** State of one `AlertSystem`. The cooldown map is keyed by the (rule,
      cluster) pair. */
  datatype AlertSystem = AlertSystem(
    rules: seq<AlertRule>,
    active: seq<Alert>,
    history: seq<Alert>,
    lastAlert: map<(string, string), int>)

  function Init(): (s: AlertSystem)
    ensures |s.rules| == 11 && s.active == [] && s.history == [] && s.lastAlert == map[]
  {
    AlertSystem(DefaultRules(), [], [], map[])
  }

  /** `evaluate_conditions` on the system's own state. */
  function EvaluateConditions(s: AlertSystem, m: ClusterMetrics, now: int, render: Renderer): Outcome<(string, string)>
  {
    Evaluate(s.rules, m, now, s.lastAlert, PairKey, render)
  }

  const AutoResolveSeconds := 24 * 60 * 60

  predicate Expired(a: Alert, now: int)
  {
    a.timestamp < now - AutoResolveSeconds
  }

  /** `cleanup_resolved_alerts`: alerts older than a day become resolved,
      and every resolved alert leaves the active list. */
  function Cleanup(active: seq<Alert>, now: int): (r: seq<Alert>)
    ensures |r| <= |active|
    ensures forall i :: 0 <= i < |r| ==> r[i] in active && !r[i].resolved && !Expired(r[i], now)
    ensures forall i :: 0 <= i < |active| && !active[i].resolved && !Expired(active[i], now) ==> active[i] in r
  {
    Filter(active, (a: Alert) => !a.resolved && !Expired(a, now))
  }

  /** Cleanup keeps order: it works piecewise on a concatenation, so the
      surviving old alerts stay ahead of the surviving new ones. */
  lemma CleanupAppend(a: seq<Alert>, b: seq<Alert>, now: int)
    ensures Cleanup(a + b, now) == Cleanup(a, now) + Cleanup(b, now)
  {
    FilterAppend(a, b, (x: Alert) => !x.resolved && !Expired(x, now));
  }

  lemma CleanupIdempotent(active: seq<Alert>, now: int)
    ensures Cleanup(Cleanup(active, now), now) == Cleanup(active, now)
  {
    var c := Cleanup(active, now);
    FilterAll(c, (a: Alert) => !a.resolved && !Expired(a, now));
  }

  /** `process_metrics`: evaluate, append what fired to both lists, then
      clean up. The history only grows; every fresh alert is active. */
  function ProcessMetrics(s: AlertSystem, m: ClusterMetrics, now: int, render: Renderer): (r: (AlertSystem, seq<Alert>))
    ensures r.0.rules == s.rules
    ensures |r.0.history| == |s.history| + |r.1| && r.0.history[..|s.history|] == s.history
    ensures r.0.history[|s.history|..] == r.1
    ensures forall i :: 0 <= i < |r.1| ==> r.1[i] in r.0.active
    ensures forall i :: 0 <= i < |r.0.active| ==> !r.0.active[i].resolved
    ensures r.1 == Evaluate(s.rules, m, now, s.lastAlert, PairKey, render).alerts
    ensures r.0.lastAlert == Evaluate(s.rules, m, now, s.lastAlert, PairKey, render).lastAlert
    ensures r.0.active == Cleanup(s.active, now) + Cleanup(r.1, now)
  {
    var o := EvaluateConditions(s, m, now, render);
    CleanupAppend(s.active, o.alerts, now);
    var active := Cleanup(s.active + o.alerts, now);
    assert forall i :: 0 <= i < |o.alerts| ==> (s.active + o.alerts)[|s.active| + i] == o.alerts[i];
    (AlertSystem(s.rules, active, s.history + o.alerts, o.lastAlert), o.alerts)
  }

  /** With distinct rule names, a pass raises an alert for rule `j` exactly
      when the rule fires for the cluster with its (rule, cluster) pair's
      cooldown elapsed; the pair is then stamped with `now`. */
  lemma ProcessMetricsRaisedIff(s: AlertSystem, m: ClusterMetrics, now: int, render: Renderer, j: nat)
    requires DistinctNames(s.rules) && j < |s.rules|
    ensures var r := ProcessMetrics(s, m, now, render);
            RaisedFor(r.1, s.rules[j].name) <==> Fires(s.rules[j], m, now, s.lastAlert, (s.rules[j].name, m.clusterName), render)
    ensures var r := ProcessMetrics(s, m, now, render);
            RaisedFor(r.1, s.rules[j].name) ==>
              (s.rules[j].name, m.clusterName) in r.0.lastAlert && r.0.lastAlert[(s.rules[j].name, m.clusterName)] == now
  {
    PairKeyInjective(m.clusterName);
    AlertRaisedIff(s.rules, j, m, now, s.lastAlert, PairKey, render);
    StampIff(s.rules, j, m, now, s.lastAlert, PairKey, render);
  }

  /** Position of the first active alert with the id. */
  function FindAlert(active: seq<Alert>, id: string): (r: Option<nat>)
    ensures r.Some? ==> r.value < |active| && active[r.value].id == id
    ensures r.Some? ==> forall j :: 0 <= j < r.value ==> active[j].id != id
    ensures r.None? ==> forall j :: 0 <= j < |active| ==> active[j].id != id
  {
    if |active| == 0 then None
    else if active[0].id == id then Some(0)
    else
      match FindAlert(active[1..], id)
      case None => None
      case Some(i) => Some(i + 1)
  }

  /** The loop of `acknowledge_alert` and `resolve_alert`: change the first
      alert with the id and report whether there was one. */
  function UpdateFirst(active: seq<Alert>, id: string, change: Alert -> Alert): (r: (bool, seq<Alert>))
    ensures r.0 <==> exists j :: 0 <= j < |active| && active[j].id == id
    ensures |r.1| == |active|
    ensures !r.0 ==> r.1 == active
    ensures r.0 ==> var k := FindAlert(active, id).value;
                    r.1[k] == change(active[k])
                    && forall j :: 0 <= j < |active| && j != k ==> r.1[j] == active[j]
  {
    match FindAlert(active, id)
    case None => (false, active)
    case Some(k) => (true, active[k := change(active[k])])
  }

  function Acknowledge(active: seq<Alert>, id: string): (r: (bool, seq<Alert>))
  {
    UpdateFirst(active, id, (a: Alert) => a.(acknowledged := true))
  }

  function Resolve(active: seq<Alert>, id: string): (r: (bool, seq<Alert>))
  {
    UpdateFirst(active, id, (a: Alert) => a.(resolved := true))
  }

  /** Changing flags never changes ids, so the first match stays put. */
  lemma {:induction false} FindAlertSameIds(a: seq<Alert>, b: seq<Alert>, id: string)
    requires |a| == |b|
    requires forall j :: 0 <= j < |a| ==> a[j].id == b[j].id
    ensures FindAlert(a, id) == FindAlert(b, id)
  {
    if |a| > 0 {
      FindAlertSameIds(a[1..], b[1..], id);
    }
  }

  /** Acknowledging twice is acknowledging once; likewise resolving. */
  lemma AcknowledgeIdempotent(active: seq<Alert>, id: string)
    ensures Acknowledge(Acknowledge(active, id).1, id) == Acknowledge(active, id)
  {
    var once := Acknowledge(active, id);
    FindAlertSameIds(active, once.1, id);
    if once.0 {
      var k := FindAlert(active, id).value;
      assert once.1[k := once.1[k].(acknowledged := true)] == once.1;
    }
  }

  lemma ResolveIdempotent(active: seq<Alert>, id: string)
    ensures Resolve(Resolve(active, id).1, id) == Resolve(active, id)
  {
    var once := Resolve(active, id);
    FindAlertSameIds(active, once.1, id);
    if once.0 {
      var k := FindAlert(active, id).value;
      assert once.1[k := once.1[k].(resolved := true)] == once.1;
    }
  }

  /** `get_active_alerts(severity)`: unresolved alerts, narrowed to one
      severity when a non-empty one is given. */
  function GetActiveAlerts(active: seq<Alert>, severity: Option<string>): (r: seq<Alert>)
    ensures forall a :: a in r <==> a in active && !a.resolved && (Truthy(severity) ==> a.severity == severity.value)
  {
    var unresolved := Filter(active, (a: Alert) => !a.resolved);
    if Truthy(severity) then Filter(unresolved, (a: Alert) => a.severity == severity.value) else unresolved
  }

  // The summary

  /** `len([a for a in alerts if a.severity == sev])`. */
  function CountSeverity(alerts: seq<Alert>, sev: string): nat
  {
    if |alerts| == 0 then 0
    else CountSeverity(alerts[..|alerts| - 1], sev) + (if alerts[|alerts| - 1].severity == sev then 1 else 0)
  }

  /** How many alerts name the cluster. */
  function CountCluster(alerts: seq<Alert>, cluster: string): nat
  {
    if |alerts| == 0 then 0
    else CountCluster(alerts[..|alerts| - 1], cluster) + (if alerts[|alerts| - 1].clusterName == cluster then 1 else 0)
  }

  /** The `by_cluster` loop: a counter per cluster, in order of first
      appearance. */
  function ClusterCounts(alerts: seq<Alert>): (r: OrderedMap<string, int>)
    ensures DistinctKeys(r)
  {
    if |alerts| == 0 then []
    else
      var prev := ClusterCounts(alerts[..|alerts| - 1]);
      var c := alerts[|alerts| - 1].clusterName;
      Put(prev, c, Get(prev, c).GetOr(0) + 1)
  }

  /** Each cluster's counter is its number of alerts; clusters without
      alerts have no entry. */
  lemma {:induction false} ClusterCountsExact(alerts: seq<Alert>, cluster: string)
    ensures CountCluster(alerts, cluster) == 0 ==> Get(ClusterCounts(alerts), cluster).None?
    ensures CountCluster(alerts, cluster) > 0 ==> Get(ClusterCounts(alerts), cluster) == Some(CountCluster(alerts, cluster))
  {
    if |alerts| > 0 {
      var init := alerts[..|alerts| - 1];
      var prev := ClusterCounts(init);
      var c := alerts[|alerts| - 1].clusterName;
      ClusterCountsExact(init, cluster);
      if c != cluster {
        PutOther(prev, c, Get(prev, c).GetOr(0) + 1, cluster);
      }
    }
  }

  /** The counters add up to the number of alerts. */
  lemma {:induction false} ClusterCountsSum(alerts: seq<Alert>)
    ensures SumValues(ClusterCounts(alerts)) == |alerts|
  {
    if |alerts| > 0 {
      var init := alerts[..|alerts| - 1];
      var prev := ClusterCounts(init);
      var c := alerts[|alerts| - 1].clusterName;
      var v := Get(prev, c).GetOr(0) + 1;
      assert ClusterCounts(alerts) == Put(prev, c, v);
      ClusterCountsSum(init);
      SumValuesPut(prev, c, v);
    }
  }

  /** With only the three known severities, the severity counts partition
      the alerts. */
  lemma {:induction false} SeverityCountsPartition(alerts: seq<Alert>)
    requires forall i :: 0 <= i < |alerts| ==> KnownSeverity(alerts[i].severity)
    ensures CountSeverity(alerts, Critical) + CountSeverity(alerts, Warning) + CountSeverity(alerts, Info) == |alerts|
  {
    if |alerts| > 0 {
      SeverityCountsPartition(alerts[..|alerts| - 1]);
    }
  }

  datatype Summary = Summary(
    totalActive: nat,
    critical: nat,
    warning: nat,
    info: nat,
    byCluster: OrderedMap<string, int>,
    recent: seq<Alert>)

  /** `get_alert_summary`: counts over the unresolved alerts, and the last
      ten of them. */
  function GetAlertSummary(active: seq<Alert>): (s: Summary)
    ensures s.totalActive == |GetActiveAlerts(active, None)|
    ensures SumValues(s.byCluster) == s.totalActive
    ensures forall i :: 0 <= i < |s.byCluster| ==> s.byCluster[i].1 > 0
    ensures s.critical == |GetActiveAlerts(active, Some(Critical))|
    ensures s.warning == |GetActiveAlerts(active, Some(Warning))|
    ensures s.info == |GetActiveAlerts(active, Some(Info))|
    ensures |s.recent| == Min10(s.totalActive)
    ensures GetActiveAlerts(active, None)[s.totalActive - |s.recent|..] == s.recent
    ensures forall i :: 0 <= i < |s.recent| ==> s.recent[i] in active && !s.recent[i].resolved
  {
    var view := GetActiveAlerts(active, None);
    CountSeverityFilter(view, Critical);
    CountSeverityFilter(view, Warning);
    CountSeverityFilter(view, Info);
    var byCluster := ClusterCounts(view);
    ClusterCountsSum(view);
    ClusterCountsPositive(view);
    Summary(|view|, CountSeverity(view, Critical), CountSeverity(view, Warning), CountSeverity(view, Info),
            byCluster, view[|view| - Min10(|view|)..])
  }

  /** Counting one severity from the end agrees with filtering for it. */
  lemma {:induction false} CountSeverityFilter(alerts: seq<Alert>, sev: string)
    ensures CountSeverity(alerts, sev) == |Filter(alerts, (a: Alert) => a.severity == sev)|
    decreases |alerts|
  {
    if |alerts| > 0 {
      var init := alerts[..|alerts| - 1];
      var last := alerts[|alerts| - 1];
      CountSeverityFilter(init, sev);
      assert alerts == init + [last];
      FilterAppend(init, [last], (a: Alert) => a.severity == sev);
    }
  }

  /** Every counter in `by_cluster` is positive. */
  lemma ClusterCountsPositive(alerts: seq<Alert>)
    ensures forall i :: 0 <= i < |ClusterCounts(alerts)| ==> ClusterCounts(alerts)[i].1 > 0
  {
    var m := ClusterCounts(alerts);
    forall i | 0 <= i < |m|
      ensures m[i].1 > 0
    {
      var c := m[i].0;
      FirstIndexIs(m, c, i) by {
        forall j | 0 <= j < i ensures m[j].0 != c { }
      }
      ClusterCountsExact(alerts, c);
    }
  }

  /** When every active alert has a known severity, the three severity
      counts add up to the total. */
  lemma SummarySeveritiesPartition(active: seq<Alert>)
    requires forall i :: 0 <= i < |active| ==> KnownSeverity(active[i].severity)
    ensures var s := GetAlertSummary(active);
            s.critical + s.warning + s.info == s.totalActive
  {
    var view := GetActiveAlerts(active, None);
    forall i | 0 <= i < |view| ensures KnownSeverity(view[i].severity) {
      assert view[i] in active;
    }
    SeverityCountsPartition(view);
  }

  function Min10(n: nat): (r: nat)
    ensures r <= n && r <= 10
  {
    if n < 10 then n else 10
  }

  // The cooldown key, as written and as intended

  /** Within one cluster the string key still tells rules apart. */
  lemma AlertKeyInjectiveInRule(cluster: string)
    ensures NameInjective(AlertKey, cluster)
  {
    forall a, b | AlertKey(a, cluster) == AlertKey(b, cluster)
      ensures a == b
    {
      var ka, kb := AlertKey(a, cluster), AlertKey(b, cluster);
      assert |a| == |b|;
      assert a == ka[..|a|] && b == kb[..|b|];
    }
  }

  lemma PairKeyInjective(cluster: string)
    ensures NameInjective(PairKey, cluster)
  {
  }

  /** Across clusters the string key collides: rule "high" on cluster
      "cost_web" and rule "high_cost" on cluster "web" share one key, so a
      firing of the first silences the second for the first's cooldown,
      although that pair never fired. */
  lemma CooldownKeyCollision()
    ensures AlertKey("high", "cost_web") == AlertKey("high_cost", "web")
    ensures var last := map[AlertKey("high", "cost_web") := 0];
            !CooldownElapsed(last, AlertKey("high_cost", "web"), 60, 10)
  {
    assert AlertKey("high", "cost_web") == "high_cost_web";
    assert AlertKey("high_cost", "web") == "high_cost_web";
  }

  /** With the pair as key, a firing of one (rule, cluster) pair leaves
      every other pair's cooldown as it was. */
  lemma PairCooldownIndependent(last: map<(string, string), int>, r1: string, c1: string,
                                r2: string, c2: string, t: int, now: int, cooldownMinutes: int)
    requires (r1, c1) != (r2, c2)
    ensures CooldownElapsed(last[PairKey(r1, c1) := t], PairKey(r2, c2), now, cooldownMinutes)
            == CooldownElapsed(last, PairKey(r2, c2), now, cooldownMinutes)
  {
  }

  /** The collision in a whole evaluation pass: right after rule `high`
      fired on cluster `cost_web`, a rule `high_cost` that would fire on
      cluster `web` raises nothing with the program's string key, and
      raises its alert with the pair as key. */
  lemma CollisionSilencesPass(rule: AlertRule, m: ClusterMetrics, now: int, render: Renderer)
    requires rule.name == "high_cost" && m.clusterName == "web" && rule.cooldownMinutes > 0
    requires rule.enabled && Eval(rule.condition, m) == Ok(true) && render(rule, m).Ok?
    ensures Evaluate([rule], m, now, map[AlertKey("high", "cost_web") := now], AlertKey, render).alerts == []
    ensures |Evaluate([rule], m, now, map[PairKey("high", "cost_web") := now], PairKey, render).alerts| == 1
  {
    CooldownKeyCollision();
    assert PairKey("high", "cost_web") != PairKey("high_cost", "web");
  }
}
