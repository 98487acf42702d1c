/** The database-backed alert engine of monitoring/enhanced_alert_system.py.
    Rules come from a PostgreSQL table cached in memory and reloaded every
    five minutes; cooldowns are Redis keys with a time to live; alerts are
    written to Redis indexes and to an `alerts` table. The stores are values
    here: the cooldown store maps a key to the second it expires, the table
    maps an alert id to its row. */
module EnhancedAlerts {
  import opened Wrappers
  import opened Strings
  import opened OrderedMaps
  import opened Metrics
  import opened Alerts
  import RedisKeys

  // The cooldown store

  /** Redis keys with a time to live: a key reads as present while the
      clock is before its expiry. */
  type CooldownStore = map<string, int>

  predicate Present(store: CooldownStore, key: string, now: int)
  {
    key in store && now < store[key]
  }

  /** `redis_set(key, value, ttl)` at `now`. */
  function SetWithTtl(store: CooldownStore, key: string, now: int, ttl: int): (r: CooldownStore)
    ensures ttl > 0 ==> Present(r, key, now)
    ensures forall k :: k in store && k != key ==> k in r && r[k] == store[k]
    ensures forall k :: k in r && k != key ==> k in store
  {
    store[key := now + ttl]
  }

  // Alerts

  datatype EnhancedAlert = EnhancedAlert(
    id: string,
    ruleName: string,
    clusterName: string,
    severity: string,
    message: string,
    timestamp: int,
    acknowledged: bool,
    resolved: bool,
    alertUuid: string,
    ruleUuid: Option<string>,
    clusterUuid: Option<string>,
    escalationLevel: int,
    autoResolveAt: Option<string>,
    notificationChannels: seq<string>)

  /** `__post_init__`: a missing or empty uuid is replaced by a fresh one,
      and missing channels become the empty list. */
  function PostInit(alertUuid: Option<string>, channels: Option<seq<string>>, newUuid: string): (r: (string, seq<string>))
    ensures Truthy(alertUuid) ==> r.0 == alertUuid.value
    ensures !Truthy(alertUuid) ==> r.0 == newUuid
    ensures channels.Some? ==> r.1 == channels.value
    ensures channels.None? ==> r.1 == []
  {
    var u := if Truthy(alertUuid) then alertUuid.value else newUuid;
    var c := if channels.Some? && |channels.value| > 0 then channels.value else [];
    (u, c)
  }

  const DeliveryChannels := ["console", "redis", "database"]

  /** `_create_enhanced_alert`: the rule's name and severity, the cluster's
      name and id, the three delivery channels, and a uuid the constructor
      generates since none is passed. */
  function CreateEnhancedAlert(rule: AlertRule, ruleUuid: Option<string>, m: ClusterMetrics,
                               clusterUuid: Option<string>, now: int, message: string, newUuid: string): (a: EnhancedAlert)
    ensures a.ruleName == rule.name && a.severity == rule.severity && a.clusterName == m.clusterName
    ensures a.ruleUuid == ruleUuid && a.clusterUuid == clusterUuid && a.timestamp == now
    ensures a.alertUuid == newUuid && a.notificationChannels == DeliveryChannels
    ensures !a.acknowledged && !a.resolved && a.escalationLevel == 0 && a.autoResolveAt.None?
  {
    var (u, channels) := PostInit(None, Some(DeliveryChannels), newUuid);
    EnhancedAlert(AlertKey(rule.name, m.clusterName) + "_" + IntToString(now), rule.name, m.clusterName,
                  rule.severity, message, now, false, false, u, ruleUuid, clusterUuid, 0, None, channels)
  }

  datatype AlertMetadata = AlertMetadata(
    ruleUuid: Option<string>,
    clusterUuid: Option<string>,
    escalationLevel: int,
    autoResolveAt: Option<string>,
    notificationChannels: seq<string>,
    originalId: string)

  /** The row `to_db_dict` produces: the uuid becomes the row id and the
      rest of the extension moves under `metadata`. */
  datatype AlertRow = AlertRow(
    id: string,
    ruleName: string,
    clusterName: string,
    severity: string,
    message: string,
    triggeredAt: int,
    acknowledged: bool,
    resolved: bool,
    metadata: AlertMetadata)

  function FromDbDict(row: AlertRow): EnhancedAlert
  {
    EnhancedAlert(row.metadata.originalId, row.ruleName, row.clusterName, row.severity, row.message,
                  row.triggeredAt, row.acknowledged, row.resolved, row.id, row.metadata.ruleUuid,
                  row.metadata.clusterUuid, row.metadata.escalationLevel, row.metadata.autoResolveAt,
                  row.metadata.notificationChannels)
  }

  /** `to_db_dict` loses nothing: reading the row back gives the alert. */
  function ToDbDict(a: EnhancedAlert): (row: AlertRow)
    ensures row.id == a.alertUuid && row.metadata.originalId == a.id
    ensures FromDbDict(row) == a
  {
    AlertRow(a.alertUuid, a.ruleName, a.clusterName, a.severity, a.message, a.timestamp,
             a.acknowledged, a.resolved,
             AlertMetadata(a.ruleUuid, a.clusterUuid, a.escalationLevel, a.autoResolveAt,
                           a.notificationChannels, a.id))
  }

  // Rule loading

  /** A row of the `alert_rules` table. */
  datatype RuleRow = RuleRow(
    id: string,
    name: string,
    condition: Condition,
    severity: string,
    messageTemplate: string,
    cooldownMinutes: int,
    isEnabled: bool,
    description: string,
    appliesTo: string)

  datatype CachedRule = CachedRule(rule: AlertRule, uuid: string, description: string, appliesTo: string)

  function RuleOf(row: RuleRow): AlertRule
  {
    AlertRule(row.name, row.condition, row.severity, Custom(row.messageTemplate), row.cooldownMinutes, row.isEnabled)
  }

  predicate WellCached(cache: OrderedMap<string, CachedRule>)
  {
    DistinctKeys(cache)
    && forall i :: 0 <= i < |cache| ==> cache[i].1.rule.enabled && cache[i].0 == cache[i].1.rule.name
  }

  /** The cache entry the load loop makes of a row. */
  function Entry(row: RuleRow): CachedRule
  {
    CachedRule(RuleOf(row), row.id, row.description, row.appliesTo)
  }

  /** The cache the load loop builds from the enabled rows: one entry per
      name, a later row with the same name replacing the earlier one. */
  function CacheOf(rows: seq<RuleRow>): (c: OrderedMap<string, CachedRule>)
    ensures WellCached(c)
    ensures forall i :: 0 <= i < |rows| && rows[i].isEnabled ==> rows[i].name in Keys(c)
  {
    if |rows| == 0 then []
    else
      var init := rows[..|rows| - 1];
      var row := rows[|rows| - 1];
      var prev := CacheOf(init);
      assert forall i :: 0 <= i < |init| ==> init[i] == rows[i];
      if row.isEnabled then
        var c := Put(prev, row.name, Entry(row));
        assert forall i :: 0 <= i < |prev| ==> prev[i].0 in Keys(c);
        c
      else prev
  }

  /** The last enabled row carrying `name`, if any. */
  function LastEnabled(rows: seq<RuleRow>, name: string): Option<RuleRow>
    decreases |rows|
  {
    if |rows| == 0 then None
    else
      var row := rows[|rows| - 1];
      if row.isEnabled && row.name == name then Some(row) else LastEnabled(rows[..|rows| - 1], name)
  }

  /** Row `i` is enabled, carries `name`, and no later row does both. */
  predicate LastEnabledAt(rows: seq<RuleRow>, name: string, i: int)
  {
    0 <= i < |rows| && rows[i].isEnabled && rows[i].name == name
    && forall k :: i < k < |rows| ==> !rows[k].isEnabled || rows[k].name != name
  }

  /** What `LastEnabled` answers: nothing exactly when no enabled row carries
      the name, otherwise the row at the last position that does. */
  lemma {:induction false} LastEnabledMeans(rows: seq<RuleRow>, name: string)
    ensures LastEnabled(rows, name).None? <==>
              forall i :: 0 <= i < |rows| ==> !rows[i].isEnabled || rows[i].name != name
    ensures LastEnabled(rows, name).Some? ==>
              exists i :: LastEnabledAt(rows, name, i) && rows[i] == LastEnabled(rows, name).value
    decreases |rows|
  {
    if |rows| > 0 {
      var init := rows[..|rows| - 1];
      var row := rows[|rows| - 1];
      LastEnabledMeans(init, name);
      if row.isEnabled && row.name == name {
        assert LastEnabledAt(rows, name, |rows| - 1);
      } else {
        assert forall i :: 0 <= i < |init| ==> init[i] == rows[i];
        if LastEnabled(init, name).Some? {
          var i :| LastEnabledAt(init, name, i) && init[i] == LastEnabled(init, name).value;
          assert LastEnabledAt(rows, name, i);
        }
      }
    }
  }

  /** The cache holds, for every name, the entry of the last enabled row
      carrying it, and nothing for a name no enabled row carries. */
  lemma {:induction false} CacheOfGet(rows: seq<RuleRow>, name: string)
    ensures Get(CacheOf(rows), name) == if LastEnabled(rows, name).Some? then Some(Entry(LastEnabled(rows, name).value)) else None
    decreases |rows|
  {
    if |rows| > 0 {
      var init := rows[..|rows| - 1];
      var row := rows[|rows| - 1];
      CacheOfGet(init, name);
      if row.isEnabled && row.name != name {
        PutOther(CacheOf(init), row.name, Entry(row), name);
      }
    }
  }

  /** The engine's state: the base system's rule list, the rule cache and
      its load time, the cooldown store, the alert table, and whether the
      database manager is connected. */
  datatype System = System(
    baseRules: seq<AlertRule>,
    cache: OrderedMap<string, CachedRule>,
    lastReload: Option<int>,
    cooldowns: CooldownStore,
    table: map<string, InsertedRow>,
    connected: bool)

  /** `_load_alert_rules_from_db`. A disconnected manager or a failing query
      reinstalls the default rules in the base system and leaves the cache
      and its load time alone; a successful query rebuilds the cache from
      the enabled rows. */
  function LoadRules(s: System, query: Result<seq<RuleRow>>, now: int): (r: System)
    ensures !s.connected || query.Err? ==> r == s.(baseRules := DefaultRules())
    ensures s.connected && query.Ok? ==>
              r.lastReload == Some(now) && r.baseRules == s.baseRules && WellCached(r.cache)
              && (forall i :: 0 <= i < |query.value| && query.value[i].isEnabled ==> query.value[i].name in Keys(r.cache))
              && r.cache == CacheOf(query.value)
    ensures r.cooldowns == s.cooldowns && r.table == s.table && r.connected == s.connected
  {
    if !s.connected then s.(baseRules := DefaultRules())
    else
      match query
      case Err(_) => s.(baseRules := DefaultRules())
      case Ok(rows) => s.(cache := CacheOf(rows), lastReload := Some(now))
  }

  /** `EnhancedAlertSystem(db_manager)` followed by `initialize()`: a fresh
      engine on the manager, with the rules loaded when the manager is
      connected (handler set-up is not modelled). */
  function StartEngine(connected: bool, query: Result<seq<RuleRow>>, now: int): (r: System)
    ensures r.connected == connected && r.cooldowns == map[] && r.table == map[]
    ensures r.baseRules == DefaultRules()
    ensures connected && query.Ok? ==> r.cache == CacheOf(query.value) && r.lastReload == Some(now)
    ensures !connected || query.Err? ==> r.cache == [] && r.lastReload.None?
  {
    LoadRules(System(DefaultRules(), [], None, map[], map[], connected), query, now)
  }

  /** After a successful load, the rules the next pass walks are, for each
      enabled name, the rule of the last enabled row carrying it, with that
      row's uuid; and every such rule is walked. */
  lemma LoadedRulesChecked(s: System, rows: seq<RuleRow>, now: int, name: string)
    requires s.connected
    ensures var walked := RulesToCheck(LoadRules(s, Ok(rows), now));
            LastEnabled(rows, name).Some? ==>
              exists i :: 0 <= i < |walked| && walked[i] == (RuleOf(LastEnabled(rows, name).value), Some(LastEnabled(rows, name).value.id))
  {
    var r := LoadRules(s, Ok(rows), now);
    CacheOfGet(rows, name);
    if LastEnabled(rows, name).Some? {
      var row := LastEnabled(rows, name).value;
      assert (name, Entry(row)) in r.cache;
      var i :| 0 <= i < |r.cache| && r.cache[i] == (name, Entry(row));
      assert RulesToCheck(r)[i] == (RuleOf(row), Some(row.id));
    }
  }

  /** The cache's keys are exactly the names of the enabled rows. */
  lemma CacheKeysEnabled(rows: seq<RuleRow>, name: string)
    ensures name in Keys(CacheOf(rows)) <==> exists j :: 0 <= j < |rows| && rows[j].isEnabled && rows[j].name == name
  {
    CacheOfGet(rows, name);
    LastEnabledMeans(rows, name);
    if LastEnabled(rows, name).Some? {
      var j :| LastEnabledAt(rows, name, j) && rows[j] == LastEnabled(rows, name).value;
    }
  }

  const ReloadSeconds := 5 * 60

  predicate ReloadDue(lastReload: Option<int>, now: int)
  {
    lastReload.None? || now - lastReload.value > ReloadSeconds
  }

  /** `_check_rules_reload`. */
  function CheckRulesReload(s: System, query: Result<seq<RuleRow>>, now: int): (r: System)
    ensures !ReloadDue(s.lastReload, now) ==> r == s
    ensures ReloadDue(s.lastReload, now) ==> r == LoadRules(s, query, now)
  {
    if ReloadDue(s.lastReload, now) then LoadRules(s, query, now) else s
  }

  /** A successful load is not repeated for the next five minutes; a
      failed one is retried on the next call. */
  lemma ReloadSchedule(s: System, query: Result<seq<RuleRow>>, now: int, later: int)
    requires ReloadDue(s.lastReload, now)
    requires now <= later <= now + ReloadSeconds
    ensures s.connected && query.Ok? ==> !ReloadDue(CheckRulesReload(s, query, now).lastReload, later)
    ensures (!s.connected || query.Err?) && s.lastReload.None? ==> ReloadDue(CheckRulesReload(s, query, now).lastReload, later)
  {
  }

  /** The rule list `_evaluate_alert_conditions` walks: the cache when it
      has entries (with their uuids), the base rules otherwise. */
  function RulesToCheck(s: System): (r: seq<(AlertRule, Option<string>)>)
    ensures |s.cache| > 0 ==> |r| == |s.cache|
    ensures |s.cache| > 0 ==> forall i :: 0 <= i < |r| ==> r[i] == (s.cache[i].1.rule, Some(s.cache[i].1.uuid))
    ensures |s.cache| == 0 ==> |r| == |s.baseRules|
    ensures |s.cache| == 0 ==> forall i :: 0 <= i < |r| ==> r[i] == (s.baseRules[i], None)
  {
    if |s.cache| > 0 then seq(|s.cache|, i requires 0 <= i < |s.cache| => (s.cache[i].1.rule, Some(s.cache[i].1.uuid)))
    else seq(|s.baseRules|, i requires 0 <= i < |s.baseRules| => (s.baseRules[i], None))
  }

  // Evaluation

  function CooldownKey(rule: AlertRule, m: ClusterMetrics): string
  {
    RedisKeys.AlertCooldown(rule.name, m.clusterName)
  }

  /** One rule raises an alert: enabled, Redis reachable (the cooldown read
      raises otherwise), its key absent, condition true without raising and
      message rendered. */
  predicate FiresEnhanced(rule: AlertRule, m: ClusterMetrics, now: int, store: CooldownStore,
                          connected: bool, render: Renderer)
  {
    rule.enabled && connected && !Present(store, CooldownKey(rule, m), now)
    && Eval(rule.condition, m) == Ok(true) && render(rule, m).Ok?
  }

  /** The store after a firing: the key is written only for a positive
      cooldown, living the cooldown plus ten seconds. */
  function AfterFiring(store: CooldownStore, rule: AlertRule, m: ClusterMetrics, now: int): CooldownStore
  {
    if rule.cooldownMinutes > 0
    then SetWithTtl(store, CooldownKey(rule, m), now, RedisKeys.AlertCooldownTtl(rule.cooldownMinutes))
    else store
  }

  datatype Pass = Pass(alerts: seq<EnhancedAlert>, cooldowns: CooldownStore)

  /** `_evaluate_alert_conditions`. `newUuid(n)` is the uuid the n-th alert
      of the pass receives. */
  function EvaluateEnhanced(rules: seq<(AlertRule, Option<string>)>, m: ClusterMetrics, clusterUuid: Option<string>,
                            now: int, store: CooldownStore, connected: bool, render: Renderer,
                            newUuid: nat -> string, made: nat): (r: Pass)
    ensures |r.alerts| <= |rules|
    ensures !connected ==> r == Pass([], store)
    ensures forall i :: 0 <= i < |r.alerts| ==>
      r.alerts[i].clusterName == m.clusterName && r.alerts[i].timestamp == now
      && r.alerts[i].notificationChannels == DeliveryChannels && r.alerts[i].alertUuid == newUuid(made + i)
    decreases |rules|
  {
    if |rules| == 0 then Pass([], store)
    else
      var (rule, ruleUuid) := rules[0];
      if FiresEnhanced(rule, m, now, store, connected, render) then
        var a := CreateEnhancedAlert(rule, ruleUuid, m, clusterUuid, now, render(rule, m).value, newUuid(made));
        var rest := EvaluateEnhanced(rules[1..], m, clusterUuid, now, AfterFiring(store, rule, m, now),
                                     connected, render, newUuid, made + 1);
        Pass([a] + rest.alerts, rest.cooldowns)
      else
        EvaluateEnhanced(rules[1..], m, clusterUuid, now, store, connected, render, newUuid, made)
  }

  /** A pass touches only the cooldown keys of its own rules. */
  lemma {:induction false} PassFrame(rules: seq<(AlertRule, Option<string>)>, m: ClusterMetrics,
                                     clusterUuid: Option<string>, now: int, store: CooldownStore,
                                     connected: bool, render: Renderer, newUuid: nat -> string, made: nat)
    ensures var r := EvaluateEnhanced(rules, m, clusterUuid, now, store, connected, render, newUuid, made);
            forall k :: k !in RuleKeys(rules, m) ==>
              (k in r.cooldowns <==> k in store) && (k in store ==> r.cooldowns[k] == store[k])
    decreases |rules|
  {
    if |rules| > 0 {
      var rule := rules[0].0;
      var next := StoreAfter(rule, m, now, store, connected, render);
      var made' := if FiresEnhanced(rule, m, now, store, connected, render) then made + 1 else made;
      EvaluateStep(rules, m, clusterUuid, now, store, connected, render, newUuid, made);
      PassFrame(rules[1..], m, clusterUuid, now, next, connected, render, newUuid, made');
      assert forall k :: k in RuleKeys(rules[1..], m) ==> k in RuleKeys(rules, m);
    }
  }

  /** The cooldown keys of a list of rules, for one cluster. */
  function RuleKeys(rules: seq<(AlertRule, Option<string>)>, m: ClusterMetrics): (r: set<string>)
    ensures forall j :: 0 <= j < |rules| ==> CooldownKey(rules[j].0, m) in r
  {
    set j | 0 <= j < |rules| :: CooldownKey(rules[j].0, m)
  }

  predicate DistinctRuleNames(rules: seq<(AlertRule, Option<string>)>)
  {
    forall i, j :: 0 <= i < j < |rules| ==> rules[i].0.name != rules[j].0.name
  }

  /** Cooldown keys of one cluster tell rule names apart. */
  lemma CooldownKeyInjective(a: AlertRule, b: AlertRule, m: ClusterMetrics)
    requires CooldownKey(a, m) == CooldownKey(b, m)
    ensures a.name == b.name
  {
    var ka, kb := CooldownKey(a, m), CooldownKey(b, m);
    var p := "kcloud:alerts:cooldown:";
    assert ka == p + a.name + ":" + m.clusterName;
    assert kb == p + b.name + ":" + m.clusterName;
    assert |a.name| == |b.name|;
    assert a.name == ka[|p|..|p| + |a.name|];
    assert b.name == kb[|p|..|p| + |b.name|];
  }

  /** The effect of a pass on one key: stamped when its rule fires with a
      positive cooldown, otherwise exactly as before. */
  predicate StampedOrKept(rule: AlertRule, m: ClusterMetrics, now: int, store: CooldownStore,
                          connected: bool, render: Renderer, after: CooldownStore)
  {
    var key := CooldownKey(rule, m);
    if FiresEnhanced(rule, m, now, store, connected, render) && rule.cooldownMinutes > 0
    then key in after && after[key] == now + RedisKeys.AlertCooldownTtl(rule.cooldownMinutes)
    else (key in after <==> key in store) && (key in store ==> after[key] == store[key])
  }

  /** The first rule's key, which no later rule shares. */
  lemma FirstRuleStamp(rules: seq<(AlertRule, Option<string>)>, m: ClusterMetrics,
                       clusterUuid: Option<string>, now: int, store: CooldownStore,
                       connected: bool, render: Renderer, newUuid: nat -> string, made: nat)
    requires DistinctRuleNames(rules) && 0 < |rules|
    ensures StampedOrKept(rules[0].0, m, now, store, connected, render,
                          EvaluateEnhanced(rules, m, clusterUuid, now, store, connected, render, newUuid, made).cooldowns)
  {
    var rule := rules[0].0;
    var key := CooldownKey(rule, m);
    var tail := rules[1..];
    forall i | 0 <= i < |tail|
      ensures key != CooldownKey(tail[i].0, m)
    {
      assert tail[i] == rules[i + 1];
      if key == CooldownKey(tail[i].0, m) {
        CooldownKeyInjective(rule, tail[i].0, m);
      }
    }
    assert key !in RuleKeys(tail, m);
    var made' := if FiresEnhanced(rule, m, now, store, connected, render) then made + 1 else made;
    EvaluateStep(rules, m, clusterUuid, now, store, connected, render, newUuid, made);
    PassFrame(tail, m, clusterUuid, now, StoreAfter(rule, m, now, store, connected, render),
              connected, render, newUuid, made');
  }

  /** The cooldown store after one rule's turn. */
  function StoreAfter(rule: AlertRule, m: ClusterMetrics, now: int, store: CooldownStore,
                      connected: bool, render: Renderer): CooldownStore
  {
    if FiresEnhanced(rule, m, now, store, connected, render) then AfterFiring(store, rule, m, now) else store
  }

  /** A pass is the first rule's turn followed by a pass over the rest. */
  lemma EvaluateStep(rules: seq<(AlertRule, Option<string>)>, m: ClusterMetrics,
                     clusterUuid: Option<string>, now: int, store: CooldownStore,
                     connected: bool, render: Renderer, newUuid: nat -> string, made: nat)
    requires 0 < |rules|
    ensures var f := FiresEnhanced(rules[0].0, m, now, store, connected, render);
            EvaluateEnhanced(rules, m, clusterUuid, now, store, connected, render, newUuid, made).cooldowns
            == EvaluateEnhanced(rules[1..], m, clusterUuid, now, StoreAfter(rules[0].0, m, now, store, connected, render),
                                connected, render, newUuid, if f then made + 1 else made).cooldowns
  {
  }

  /** One rule's turn leaves another rule's key, and so whether that rule
      fires, as they were. */
  lemma StoreAfterOther(rule: AlertRule, other: AlertRule, m: ClusterMetrics, now: int, store: CooldownStore,
                        connected: bool, render: Renderer)
    requires rule.name != other.name
    ensures var store1 := StoreAfter(rule, m, now, store, connected, render);
            var key := CooldownKey(other, m);
            (key in store1 <==> key in store) && (key in store ==> store1[key] == store[key])
            && FiresEnhanced(other, m, now, store1, connected, render) == FiresEnhanced(other, m, now, store, connected, render)
  {
    if CooldownKey(other, m) == CooldownKey(rule, m) {
      CooldownKeyInjective(other, rule, m);
    }
  }

  /** Processing one rule touches no other rule's key. */
  lemma {:induction false} OthersUnaffected(rules: seq<(AlertRule, Option<string>)>, j: nat, m: ClusterMetrics,
                                            clusterUuid: Option<string>, now: int, store: CooldownStore,
                                            connected: bool, render: Renderer, newUuid: nat -> string, made: nat)
    requires DistinctRuleNames(rules) && j < |rules|
    ensures StampedOrKept(rules[j].0, m, now, store, connected, render,
                          EvaluateEnhanced(rules, m, clusterUuid, now, store, connected, render, newUuid, made).cooldowns)
  {
    if j == 0 {
      FirstRuleStamp(rules, m, clusterUuid, now, store, connected, render, newUuid, made);
    } else {
      var rule := rules[0].0;
      var store1 := StoreAfter(rule, m, now, store, connected, render);
      var made1 := if FiresEnhanced(rule, m, now, store, connected, render) then made + 1 else made;
      EvaluateStep(rules, m, clusterUuid, now, store, connected, render, newUuid, made);
      assert rules[1..][j - 1] == rules[j];
      assert DistinctRuleNames(rules[1..]);
      StoreAfterOther(rule, rules[j].0, m, now, store, connected, render);
      OthersUnaffected(rules[1..], j - 1, m, clusterUuid, now, store1, connected, render, newUuid, made1);
    }
  }

  /** After a rule fires with a positive cooldown, it stays silent for that
      cluster until the cooldown plus ten seconds have passed; a rule with a
      zero cooldown never silences itself. */
  lemma CooldownSuppresses(rules: seq<(AlertRule, Option<string>)>, j: nat, m: ClusterMetrics,
                           clusterUuid: Option<string>, now: int, later: int, store: CooldownStore,
                           render: Renderer, newUuid: nat -> string, made: nat)
    requires DistinctRuleNames(rules) && j < |rules|
    requires FiresEnhanced(rules[j].0, m, now, store, true, render)
    ensures var r := EvaluateEnhanced(rules, m, clusterUuid, now, store, true, render, newUuid, made);
            ((rules[j].0.cooldownMinutes > 0 && now <= later < now + rules[j].0.cooldownMinutes * 60 + 10)
               ==> !FiresEnhanced(rules[j].0, m, later, r.cooldowns, true, render))
            && (rules[j].0.cooldownMinutes <= 0 ==> !Present(r.cooldowns, CooldownKey(rules[j].0, m), now))
  {
    OthersUnaffected(rules, j, m, clusterUuid, now, store, true, render, newUuid, made);
  }

  /** Some alert of the list was raised by the rule with this name. */
  predicate RaisedEnhanced(alerts: seq<EnhancedAlert>, name: string)
  {
    exists i :: 0 <= i < |alerts| && alerts[i].ruleName == name
  }

  /** The alerts of a pass: the first rule's alert, when it fires, ahead of
      the alerts of the rest. */
  lemma AlertsStep(rules: seq<(AlertRule, Option<string>)>, m: ClusterMetrics,
                   clusterUuid: Option<string>, now: int, store: CooldownStore,
                   connected: bool, render: Renderer, newUuid: nat -> string, made: nat)
    requires 0 < |rules|
    ensures var f := FiresEnhanced(rules[0].0, m, now, store, connected, render);
            var r := EvaluateEnhanced(rules, m, clusterUuid, now, store, connected, render, newUuid, made).alerts;
            var rest := EvaluateEnhanced(rules[1..], m, clusterUuid, now, StoreAfter(rules[0].0, m, now, store, connected, render),
                                         connected, render, newUuid, if f then made + 1 else made).alerts;
            (f ==> |r| == |rest| + 1 && r[0].ruleName == rules[0].0.name && r[1..] == rest)
            && (!f ==> r == rest)
  {
  }

  /** A name no rule of the list carries raises nothing. */
  lemma {:induction false} OnlyRulesRaise(rules: seq<(AlertRule, Option<string>)>, name: string, m: ClusterMetrics,
                                          clusterUuid: Option<string>, now: int, store: CooldownStore,
                                          connected: bool, render: Renderer, newUuid: nat -> string, made: nat)
    requires forall j :: 0 <= j < |rules| ==> rules[j].0.name != name
    ensures !RaisedEnhanced(EvaluateEnhanced(rules, m, clusterUuid, now, store, connected, render, newUuid, made).alerts, name)
    decreases |rules|
  {
    if |rules| > 0 {
      var rule := rules[0].0;
      var f := FiresEnhanced(rule, m, now, store, connected, render);
      var store1 := StoreAfter(rule, m, now, store, connected, render);
      var made1 := if f then made + 1 else made;
      var r := EvaluateEnhanced(rules, m, clusterUuid, now, store, connected, render, newUuid, made).alerts;
      var rest := EvaluateEnhanced(rules[1..], m, clusterUuid, now, store1, connected, render, newUuid, made1).alerts;
      AlertsStep(rules, m, clusterUuid, now, store, connected, render, newUuid, made);
      forall k | 0 <= k < |rules[1..]| ensures rules[1..][k].0.name != name {
        assert rules[1..][k] == rules[k + 1];
      }
      OnlyRulesRaise(rules[1..], name, m, clusterUuid, now, store1, connected, render, newUuid, made1);
      if f {
        forall i | 0 <= i < |r| ensures r[i].ruleName != name {
          if i > 0 {
            assert r[i] == rest[i - 1];
          }
        }
      }
    }
  }

  /** Putting an alert with another name in front changes nothing about
      whether a name was raised. */
  lemma RaisedBehind(r: seq<EnhancedAlert>, rest: seq<EnhancedAlert>, name: string)
    requires |r| == |rest| + 1 && r[1..] == rest && r[0].ruleName != name
    ensures RaisedEnhanced(r, name) <==> RaisedEnhanced(rest, name)
  {
    if RaisedEnhanced(r, name) {
      var i :| 0 <= i < |r| && r[i].ruleName == name;
      assert r[i] == rest[i - 1];
    }
    if RaisedEnhanced(rest, name) {
      var i :| 0 <= i < |rest| && rest[i].ruleName == name;
      assert r[i + 1] == rest[i];
    }
  }

  /** The rules after the first keep distinct names none of which is the
      first rule's. */
  lemma RestDistinct(rules: seq<(AlertRule, Option<string>)>)
    requires DistinctRuleNames(rules) && 0 < |rules|
    ensures DistinctRuleNames(rules[1..])
    ensures forall k :: 0 <= k < |rules[1..]| ==> rules[1..][k].0.name != rules[0].0.name
  {
    forall a, b | 0 <= a < b < |rules[1..]| ensures rules[1..][a].0.name != rules[1..][b].0.name {
      assert rules[1..][a] == rules[a + 1] && rules[1..][b] == rules[b + 1];
    }
    forall k | 0 <= k < |rules[1..]| ensures rules[1..][k].0.name != rules[0].0.name {
      assert rules[1..][k] == rules[k + 1];
    }
  }

  /** The first rule raises an alert exactly when it fires. */
  lemma FirstRaisedIff(rules: seq<(AlertRule, Option<string>)>, m: ClusterMetrics,
                       clusterUuid: Option<string>, now: int, store: CooldownStore,
                       connected: bool, render: Renderer, newUuid: nat -> string, made: nat)
    requires DistinctRuleNames(rules) && 0 < |rules|
    ensures RaisedEnhanced(EvaluateEnhanced(rules, m, clusterUuid, now, store, connected, render, newUuid, made).alerts,
                           rules[0].0.name)
            <==> FiresEnhanced(rules[0].0, m, now, store, connected, render)
  {
    var rule := rules[0].0;
    var f := FiresEnhanced(rule, m, now, store, connected, render);
    var store1 := StoreAfter(rule, m, now, store, connected, render);
    var made1 := if f then made + 1 else made;
    var r := EvaluateEnhanced(rules, m, clusterUuid, now, store, connected, render, newUuid, made).alerts;
    AlertsStep(rules, m, clusterUuid, now, store, connected, render, newUuid, made);
    RestDistinct(rules);
    OnlyRulesRaise(rules[1..], rule.name, m, clusterUuid, now, store1, connected, render, newUuid, made1);
    if f {
      assert r[0].ruleName == rule.name;
    }
  }

  /** With distinct rule names, a pass raises an alert for a rule exactly
      when that rule fires against the store as it was before the pass:
      enabled, Redis reachable, its cooldown key absent, its condition true
      and its message rendered. */
  lemma {:induction false} EnhancedAlertRaisedIff(rules: seq<(AlertRule, Option<string>)>, j: nat, m: ClusterMetrics,
                                                  clusterUuid: Option<string>, now: int, store: CooldownStore,
                                                  connected: bool, render: Renderer, newUuid: nat -> string, made: nat)
    requires DistinctRuleNames(rules) && j < |rules|
    ensures RaisedEnhanced(EvaluateEnhanced(rules, m, clusterUuid, now, store, connected, render, newUuid, made).alerts,
                           rules[j].0.name)
            <==> FiresEnhanced(rules[j].0, m, now, store, connected, render)
    decreases |rules|
  {
    if j == 0 {
      FirstRaisedIff(rules, m, clusterUuid, now, store, connected, render, newUuid, made);
    } else {
      var rule := rules[0].0;
      var name := rules[j].0.name;
      var f := FiresEnhanced(rule, m, now, store, connected, render);
      var store1 := StoreAfter(rule, m, now, store, connected, render);
      var made1 := if f then made + 1 else made;
      var r := EvaluateEnhanced(rules, m, clusterUuid, now, store, connected, render, newUuid, made).alerts;
      var rest := EvaluateEnhanced(rules[1..], m, clusterUuid, now, store1, connected, render, newUuid, made1).alerts;
      AlertsStep(rules, m, clusterUuid, now, store, connected, render, newUuid, made);
      RestDistinct(rules);
      assert rules[1..][j - 1] == rules[j];
      StoreAfterOther(rule, rules[j].0, m, now, store, connected, render);
      EnhancedAlertRaisedIff(rules[1..], j - 1, m, clusterUuid, now, store1, connected, render, newUuid, made1);
      if f {
        RaisedBehind(r, rest, name);
      }
    }
  }

  // Delivery

  /** The row `_database_handler` inserts: the alert's uuid as the id, the
      rule's uuid, the cluster, severity, message and time, and the metadata
      part of `to_db_dict`. The rule name and the two flags are not written. */
  datatype InsertedRow = InsertedRow(
    id: string,
    ruleId: Option<string>,
    clusterName: string,
    severity: string,
    message: string,
    triggeredAt: int,
    metadata: AlertMetadata)

  function InsertRow(a: EnhancedAlert): (row: InsertedRow)
    ensures row.id == a.alertUuid && row.ruleId == a.ruleUuid
  {
    InsertedRow(a.alertUuid, a.ruleUuid, a.clusterName, a.severity, a.message, a.timestamp, ToDbDict(a).metadata)
  }

  /** The inserted row agrees with `to_db_dict` on every column it writes,
      and the rule id is the uuid kept in the metadata. */
  lemma InsertRowAgrees(a: EnhancedAlert)
    ensures var row, d := InsertRow(a), ToDbDict(a);
            row.id == d.id && row.clusterName == d.clusterName && row.severity == d.severity
            && row.message == d.message && row.triggeredAt == d.triggeredAt && row.metadata == d.metadata
            && row.ruleId == d.metadata.ruleUuid
  {
  }

  /** A freshly created alert can be read back from its inserted row and
      its rule name: the flags it does not store are both false. */
  lemma InsertedRowRecovers(rule: AlertRule, ruleUuid: Option<string>, m: ClusterMetrics,
                            clusterUuid: Option<string>, now: int, message: string, newUuid: string)
    ensures var a := CreateEnhancedAlert(rule, ruleUuid, m, clusterUuid, now, message, newUuid);
            var row := InsertRow(a);
            FromDbDict(AlertRow(row.id, rule.name, row.clusterName, row.severity, row.message,
                                row.triggeredAt, false, false, row.metadata)) == a
  {
    var a := CreateEnhancedAlert(rule, ruleUuid, m, clusterUuid, now, message, newUuid);
    assert ToDbDict(a) == AlertRow(a.alertUuid, rule.name, a.clusterName, a.severity, a.message, a.timestamp,
                                   false, false, ToDbDict(a).metadata);
  }

  /** `_database_handler`: nothing when disconnected; otherwise an insert
      that does nothing when the id is already there. `accepts(a)` says
      whether the insert for `a` is reached and succeeds; a failing one is
      logged and swallowed, leaving the table as it was. */
  function DatabaseHandler(table: map<string, InsertedRow>, connected: bool, accepts: EnhancedAlert -> bool,
                           a: EnhancedAlert): (r: map<string, InsertedRow>)
    ensures !connected || !accepts(a) ==> r == table
    ensures connected && accepts(a) ==> a.alertUuid in r && r.Keys == table.Keys + {a.alertUuid}
    ensures forall id :: id in table ==> id in r && r[id] == table[id]
    ensures connected && accepts(a) && a.alertUuid !in table ==> r[a.alertUuid] == InsertRow(a)
  {
    if !connected || !accepts(a) || a.alertUuid in table then table
    else table[a.alertUuid := InsertRow(a)]
  }

  /** Delivering the same alert twice stores it once. */
  lemma DatabaseHandlerIdempotent(table: map<string, InsertedRow>, connected: bool, accepts: EnhancedAlert -> bool,
                                  a: EnhancedAlert)
    ensures DatabaseHandler(DatabaseHandler(table, connected, accepts, a), connected, accepts, a)
            == DatabaseHandler(table, connected, accepts, a)
  {
  }

  /** The database handler run for each alert of a pass, in order. */
  function DeliverAll(table: map<string, InsertedRow>, connected: bool, accepts: EnhancedAlert -> bool,
                      alerts: seq<EnhancedAlert>): (r: map<string, InsertedRow>)
    ensures forall id :: id in table ==> id in r && r[id] == table[id]
    ensures connected ==> forall i :: 0 <= i < |alerts| && accepts(alerts[i]) ==> alerts[i].alertUuid in r
    ensures !connected ==> r == table
    ensures forall id :: id in r && id !in table ==>
              exists i :: 0 <= i < |alerts| && alerts[i].alertUuid == id && accepts(alerts[i]) && r[id] == InsertRow(alerts[i])
    decreases |alerts|
  {
    if |alerts| == 0 then table
    else
      var t1 := DatabaseHandler(table, connected, accepts, alerts[0]);
      var r := DeliverAll(t1, connected, accepts, alerts[1..]);
      DeliverNewRows(table, t1, r, connected, accepts, alerts);
      DeliverCovers(r, connected, accepts, alerts);
      r
  }

  /** A row absent before a delivery came from an accepted alert: the first
      one, or one of the rest. */
  lemma DeliverNewRows(table: map<string, InsertedRow>, t1: map<string, InsertedRow>, r: map<string, InsertedRow>,
                       connected: bool, accepts: EnhancedAlert -> bool, alerts: seq<EnhancedAlert>)
    requires 0 < |alerts| && t1 == DatabaseHandler(table, connected, accepts, alerts[0])
    requires forall id :: id in t1 ==> id in r && r[id] == t1[id]
    requires forall id :: id in r && id !in t1 ==>
               exists i :: 0 <= i < |alerts[1..]| && alerts[1..][i].alertUuid == id && accepts(alerts[1..][i])
                           && r[id] == InsertRow(alerts[1..][i])
    ensures forall id :: id in r && id !in table ==>
              exists i :: 0 <= i < |alerts| && alerts[i].alertUuid == id && accepts(alerts[i]) && r[id] == InsertRow(alerts[i])
  {
    forall id | id in r && id !in table
      ensures exists i :: 0 <= i < |alerts| && alerts[i].alertUuid == id && accepts(alerts[i]) && r[id] == InsertRow(alerts[i])
    {
      if id in t1 {
        assert alerts[0].alertUuid == id && accepts(alerts[0]) && r[id] == InsertRow(alerts[0]);
      } else {
        var k :| 0 <= k < |alerts[1..]| && alerts[1..][k].alertUuid == id && accepts(alerts[1..][k])
                 && r[id] == InsertRow(alerts[1..][k]);
        assert alerts[k + 1] == alerts[1..][k];
      }
    }
  }

  /** When the first alert and every accepted later one have rows, every
      accepted alert has one. */
  lemma DeliverCovers(r: map<string, InsertedRow>, connected: bool, accepts: EnhancedAlert -> bool,
                      alerts: seq<EnhancedAlert>)
    requires 0 < |alerts|
    requires connected && accepts(alerts[0]) ==> alerts[0].alertUuid in r
    requires connected ==> forall i :: 0 <= i < |alerts[1..]| && accepts(alerts[1..][i]) ==> alerts[1..][i].alertUuid in r
    ensures connected ==> forall i :: 0 <= i < |alerts| && accepts(alerts[i]) ==> alerts[i].alertUuid in r
  {
    if connected {
      forall i | 0 <= i < |alerts| && accepts(alerts[i]) ensures alerts[i].alertUuid in r {
        if i > 0 {
          assert alerts[i] == alerts[1..][i - 1];
        }
      }
    }
  }

  /** `process_metrics_alerts`: reload if due, evaluate, deliver each alert.
      Every step swallows its own failures, so it always returns. */
  function ProcessMetricsAlerts(s: System, m: ClusterMetrics, clusterUuid: Option<string>, now: int,
                                query: Result<seq<RuleRow>>, render: Renderer, newUuid: nat -> string,
                                accepts: EnhancedAlert -> bool): (r: (System, seq<EnhancedAlert>))
    ensures !s.connected ==> r.1 == [] && r.0.cooldowns == s.cooldowns && r.0.table == s.table
    ensures s.connected ==> forall i :: 0 <= i < |r.1| && accepts(r.1[i]) ==> r.1[i].alertUuid in r.0.table
    ensures forall id :: id in s.table ==> id in r.0.table && r.0.table[id] == s.table[id]
    ensures forall id :: id in r.0.table && id !in s.table ==>
              exists i :: 0 <= i < |r.1| && r.1[i].alertUuid == id && accepts(r.1[i]) && r.0.table[id] == InsertRow(r.1[i])
    ensures r.0.connected == s.connected
  {
    var s1 := CheckRulesReload(s, query, now);
    var pass := EvaluateEnhanced(RulesToCheck(s1), m, clusterUuid, now, s1.cooldowns, s1.connected, render, newUuid, 0);
    (s1.(cooldowns := pass.cooldowns, table := DeliverAll(s1.table, s1.connected, accepts, pass.alerts)), pass.alerts)
  }

  /** The rule list of a system whose cache is well formed and whose base
      rules have distinct names has distinct names, before and after a
      reload. */
  lemma RulesToCheckDistinct(s: System, query: Result<seq<RuleRow>>, now: int)
    requires WellCached(s.cache) && DistinctNames(s.baseRules)
    ensures DistinctRuleNames(RulesToCheck(s))
    ensures var s1 := CheckRulesReload(s, query, now);
            WellCached(s1.cache) && DistinctNames(s1.baseRules) && DistinctRuleNames(RulesToCheck(s1))
  {
    DefaultNamesDistinct();
    var s1 := CheckRulesReload(s, query, now);
    assert WellCached(s1.cache) && DistinctNames(s1.baseRules);
    forall t: System | WellCached(t.cache) && DistinctNames(t.baseRules)
      ensures DistinctRuleNames(RulesToCheck(t))
    {
      var rs := RulesToCheck(t);
      forall i, j | 0 <= i < j < |rs| ensures rs[i].0.name != rs[j].0.name {
        if |t.cache| > 0 {
          assert rs[i].0.name == t.cache[i].0 && rs[j].0.name == t.cache[j].0;
        }
      }
    }
  }

  /** One call raises an alert for a rule of the list it walks exactly when
      that rule fires against the cooldowns as they were before the call. */
  lemma ProcessRaisedIff(s: System, m: ClusterMetrics, clusterUuid: Option<string>, now: int,
                         query: Result<seq<RuleRow>>, render: Renderer, newUuid: nat -> string,
                         accepts: EnhancedAlert -> bool, j: nat)
    requires WellCached(s.cache) && DistinctNames(s.baseRules)
    requires j < |RulesToCheck(CheckRulesReload(s, query, now))|
    ensures var rule := RulesToCheck(CheckRulesReload(s, query, now))[j].0;
            RaisedEnhanced(ProcessMetricsAlerts(s, m, clusterUuid, now, query, render, newUuid, accepts).1, rule.name)
            <==> FiresEnhanced(rule, m, now, s.cooldowns, s.connected, render)
  {
    var s1 := CheckRulesReload(s, query, now);
    RulesToCheckDistinct(s, query, now);
    EnhancedAlertRaisedIff(RulesToCheck(s1), j, m, clusterUuid, now, s1.cooldowns, s1.connected, render, newUuid, 0);
  }

  // The summary

  /** What the summary reads from Redis: the active count, the three
      severity set sizes, and the per-cluster keys `KEYS` returned with their
      set sizes. */
  datatype RedisView = RedisView(
    totalActive: nat,
    critical: nat,
    warning: nat,
    info: nat,
    clusterKeys: seq<(string, nat)>)

  datatype EnhancedSummary = EnhancedSummary(
    totalActive: nat,
    critical: nat,
    warning: nat,
    info: nat,
    byCluster: OrderedMap<string, nat>)

  /** The cluster a by-cluster key names: its last ":"-segment. */
  function ClusterOf(key: string): string { LastSegment(key, ':') }

  /** The `by_cluster` loop over the first ten keys: the name is the last
      ":"-segment, clusters with an empty set are left out. */
  function ByCluster(keys: seq<(string, nat)>): (r: OrderedMap<string, nat>)
    ensures |r| <= |keys|
    ensures forall i :: 0 <= i < |r| ==> r[i].1 > 0
  {
    if |keys| == 0 then []
    else
      var init := keys[..|keys| - 1];
      var (key, count) := keys[|keys| - 1];
      var prev := ByCluster(init);
      if count > 0 then
        var r := Put(prev, ClusterOf(key), count);
        assert forall i :: 0 <= i < |r| ==> r[i].1 > 0 by {
          forall i | 0 <= i < |r| ensures r[i].1 > 0 {
            if r[i] != (ClusterOf(key), count) {
              var j :| 0 <= j < |prev| && prev[j] == r[i];
            }
          }
        }
        r
      else prev
  }

  /** Every key with a non-empty set names a cluster of the result. */
  lemma {:induction false} ByClusterHasKey(keys: seq<(string, nat)>, i: nat)
    requires i < |keys| && keys[i].1 > 0
    ensures ClusterOf(keys[i].0) in Keys(ByCluster(keys))
    decreases |keys|
  {
    var init := keys[..|keys| - 1];
    var key, count := keys[|keys| - 1].0, keys[|keys| - 1].1;
    var prev := ByCluster(init);
    var name := ClusterOf(keys[i].0);
    if i < |init| {
      assert init[i] == keys[i];
      ByClusterHasKey(init, i);
      assert name in Keys(prev);
    }
    if count > 0 {
      var r := Put(prev, ClusterOf(key), count);
      assert ByCluster(keys) == r;
      var ks := Keys(prev);
      assert Keys(r) == ks || Keys(r) == ks + [ClusterOf(key)];
      assert name in ks || name == ClusterOf(key);
    } else {
      assert ByCluster(keys) == prev;
    }
  }

  /** The set size of the last key naming `name` with a non-empty set, or
      None when no key does. */
  function LastCount(keys: seq<(string, nat)>, name: string): Option<nat>
    decreases |keys|
  {
    if |keys| == 0 then None
    else
      var last := keys[|keys| - 1];
      if last.1 > 0 && ClusterOf(last.0) == name then Some(last.1) else LastCount(keys[..|keys| - 1], name)
  }

  /** The key a counter comes from: `i` names `name` with a non-empty set
      and no later key does. */
  predicate LastNaming(keys: seq<(string, nat)>, name: string, i: int)
  {
    0 <= i < |keys| && ClusterOf(keys[i].0) == name && keys[i].1 > 0
    && forall k :: i < k < |keys| ==> ClusterOf(keys[k].0) != name || keys[k].1 == 0
  }

  /** Some key names `name` with a non-empty set. */
  predicate Named(keys: seq<(string, nat)>, name: string)
  {
    exists i :: 0 <= i < |keys| && ClusterOf(keys[i].0) == name && keys[i].1 > 0
  }

  /** What `LastCount` answers: None exactly when no key names `name` with a
      non-empty set, otherwise the set size of the last key that does. */
  lemma {:induction false} LastCountMeans(keys: seq<(string, nat)>, name: string)
    ensures LastCount(keys, name).None? <==> !Named(keys, name)
    ensures LastCount(keys, name).Some? ==>
              exists i :: LastNaming(keys, name, i) && keys[i].1 == LastCount(keys, name).value
    decreases |keys|
  {
    if |keys| > 0 {
      var init := keys[..|keys| - 1];
      var last := keys[|keys| - 1];
      LastCountMeans(init, name);
      if last.1 > 0 && ClusterOf(last.0) == name {
        assert LastNaming(keys, name, |keys| - 1);
      } else {
        assert LastCount(keys, name) == LastCount(init, name);
        LastCountInit(keys, name);
      }
    }
  }

  /** Dropping a last key that does not name `name` changes neither whether
      `name` is named nor which key names it last. */
  lemma LastCountInit(keys: seq<(string, nat)>, name: string)
    requires 0 < |keys| && (keys[|keys| - 1].1 == 0 || ClusterOf(keys[|keys| - 1].0) != name)
    ensures Named(keys, name) <==> Named(keys[..|keys| - 1], name)
    ensures forall i :: LastNaming(keys[..|keys| - 1], name, i) ==> LastNaming(keys, name, i)
  {
    NamedInit(keys, name);
    forall i | LastNaming(keys[..|keys| - 1], name, i) ensures LastNaming(keys, name, i) {
      LastNamingInit(keys, name, i);
    }
  }

  lemma NamedInit(keys: seq<(string, nat)>, name: string)
    requires 0 < |keys| && (keys[|keys| - 1].1 == 0 || ClusterOf(keys[|keys| - 1].0) != name)
    ensures Named(keys, name) <==> Named(keys[..|keys| - 1], name)
  {
    var init := keys[..|keys| - 1];
    if Named(keys, name) {
      var i :| 0 <= i < |keys| && ClusterOf(keys[i].0) == name && keys[i].1 > 0;
      assert init[i] == keys[i];
    }
    if Named(init, name) {
      var i :| 0 <= i < |init| && ClusterOf(init[i].0) == name && init[i].1 > 0;
      assert init[i] == keys[i];
    }
  }

  lemma LastNamingInit(keys: seq<(string, nat)>, name: string, i: int)
    requires 0 < |keys| && (keys[|keys| - 1].1 == 0 || ClusterOf(keys[|keys| - 1].0) != name)
    requires LastNaming(keys[..|keys| - 1], name, i)
    ensures LastNaming(keys, name, i)
  {
    var init := keys[..|keys| - 1];
    assert init[i] == keys[i];
    forall k | i < k < |keys| ensures ClusterOf(keys[k].0) != name || keys[k].1 == 0 {
      if k < |init| {
        assert init[k] == keys[k];
      }
    }
  }

  /** The by-cluster table answers, for every name, the set size of the
      last key naming it with a non-empty set, and has no entry for a name
      no such key carries. */
  lemma {:induction false} ByClusterGet(keys: seq<(string, nat)>, name: string)
    ensures Get(ByCluster(keys), name) == LastCount(keys, name)
    decreases |keys|
  {
    if |keys| > 0 {
      var init := keys[..|keys| - 1];
      var key, count := keys[|keys| - 1].0, keys[|keys| - 1].1;
      var prev := ByCluster(init);
      ByClusterGet(init, name);
      if count > 0 {
        assert ByCluster(keys) == Put(prev, ClusterOf(key), count);
        if ClusterOf(key) != name {
          PutOther(prev, ClusterOf(key), count, name);
        }
      } else {
        assert ByCluster(keys) == prev;
      }
    }
  }

  /** `get_alert_summary`: a failing Redis read gives all-zero counts. */
  function GetAlertSummary(view: Result<RedisView>): (s: EnhancedSummary)
    ensures view.Err? ==> s == EnhancedSummary(0, 0, 0, 0, [])
    ensures view.Ok? ==> s.totalActive == view.value.totalActive && s.critical == view.value.critical
                         && s.warning == view.value.warning && s.info == view.value.info
    ensures |s.byCluster| <= 10 && forall i :: 0 <= i < |s.byCluster| ==> s.byCluster[i].1 > 0
  {
    match view
    case Err(_) => EnhancedSummary(0, 0, 0, 0, [])
    case Ok(v) =>
      var keys := if |v.clusterKeys| <= 10 then v.clusterKeys else v.clusterKeys[..10];
      EnhancedSummary(v.totalActive, v.critical, v.warning, v.info, ByCluster(keys))
  }

  /** Keys written by the Redis handler come back as their cluster names:
      every cluster among the first ten keys with alerts appears under its
      own name, provided the name has no ":". */
  lemma SummaryNamesClusters(v: RedisView, i: nat, cluster: string)
    requires i < |v.clusterKeys| && i < 10
    requires v.clusterKeys[i].0 == RedisKeys.AlertsByCluster(cluster) && ':' !in cluster
    requires v.clusterKeys[i].1 > 0
    ensures cluster in Keys(GetAlertSummary(Ok(v)).byCluster)
  {
    RedisKeys.AlertsByClusterRoundTrip(cluster);
    assert ClusterOf(v.clusterKeys[i].0) == cluster;
    var keys := if |v.clusterKeys| <= 10 then v.clusterKeys else v.clusterKeys[..10];
    assert keys[i] == v.clusterKeys[i];
    ByClusterHasKey(keys, i);
  }

  /** The summary's entry for a cluster is the set size of the last of the
      first ten keys naming it with a non-empty set. */
  lemma SummaryByClusterGet(v: RedisView, name: string)
    ensures var keys := if |v.clusterKeys| <= 10 then v.clusterKeys else v.clusterKeys[..10];
            Get(GetAlertSummary(Ok(v)).byCluster, name) == LastCount(keys, name)
  {
    var keys := if |v.clusterKeys| <= 10 then v.clusterKeys else v.clusterKeys[..10];
    ByClusterGet(keys, name);
  }
}
