# Cluster monitoring, alerting and group management, modelled in Dafny

This project models the monitoring and alerting layer, the cluster-group
bookkeeping and the pure parts of the cluster CRUD controller of the
kcloud infrastructure optimiser, a Python service that runs groups of
OpenStack Magnum Kubernetes clusters. Each Python module of that core is one
Dafny module; the contracts and lemmas state what the module promises.

- `MonitorConfig`: the three cluster templates and the monitoring defaults.
- `Metrics`: one cluster's snapshot: basic information, resource figures,
  power and cost, health and efficiency scores.
- `VirtualMonitoring`: group roll-ups, bounded per-group history, group
  alerts and recommendations.
- `RedisKeys`: the `kcloud:`-prefixed key layout and the expiry policy.
- `Alerts`: the rule table, condition evaluation with cooldowns (keyed as
  the code keys them, by `<rule>_<cluster>`, and by the (rule, cluster)
  pair; the system uses the pair, see "## Findings"), alert lifecycle and
  summary.
- `EnhancedAlerts`: database-loaded rules, Redis cooldown keys with a time to
  live, the idempotent database sink and the summary fallback.
- `EnhancedCollector`: collection with storage, caching, a trimmed history
  list and publication, and the batch collector.
- `IntegratedMonitor`: the in-memory monitoring pass, report totals,
  recommendations and status indicators.
- `DbMonitor`: the database-integrated controller with its fallback path,
  error counter, performance analysis and summaries.
- `GroupManager`: virtual groups with node and cost totals, cost estimates,
  and scale-out and scale-in across member clusters.
- `Orchestrator`: cluster groups built on the CRUD controller: creation with
  a minimum number of clusters, adding and removing members, scale
  commands, command dispatch, listing and deletion.
- `ClusterCrud`: configuration defaults, the list filter, lookup argument
  checks, status waiting, the deletion policy, the JSON Patch of an update
  (section 4.3 of RFC 6902) and the stuck-cluster cleanup.

Helper modules: `Wrappers` (Option and Result), `Seqs` (sums, filters and
means over sequences), `Strings` (substrings, joining, ASCII lower case,
decimal rendering) and `OrderedMaps` (insertion-ordered dictionaries).

Conventions. Money, power and percentages are `real`. Time is an explicit
`now` in seconds. Every call to Magnum, Redis or PostgreSQL is a parameter:
a `Result` value, or a function from the attempt number to an answer.
Simulated telemetry is an arbitrary sample argument. Python exceptions are
`Err` values. Alert conditions, which the code evaluates with `eval`, are a
closed condition datatype interpreted with Python's short-circuit `and`.

The database-integrated monitor never switches to the fallback for good.
The comment and warning at monitoring/database_integrated_monitor.py:134-136
speak of switching to the fallback system once the error limit is reached,
but the code only answers that one call from the fallback and retries the
database on the next call; the model follows the code
(`DbMonitor.ErrorThreshold`).

## Model

| member | source | states |
|---|---|---|
| MonitorConfig.GetClusterTemplate | monitoring/config.py:86-88 | the three known template ids give their table entries; every other id gives nothing |
| MonitorConfig.TemplateTableFacts | monitoring/config.py:50-72 | only the AI template has GPUs; every template has a positive hourly price and per-node power |
| MonitorConfig.DefaultConfigValid | monitoring/config.py:24-38 | the default thresholds and prices are 0.12 $/kWh, PUE 1.3, 20 $/h, 30 %, 50 %, 10 kW, 100 history entries, and form a valid configuration |
| Metrics.CollectBasicInfo | monitoring/metrics_collector.py:103-134 | a successful lookup copies status, counts, template and API address, with an empty health status read as UNKNOWN; a failed lookup gives an ERROR snapshot with no nodes and template "unknown" |
| Metrics.EffectiveTemplate | monitoring/metrics_collector.py:146-148 | an unknown template id is profiled as the development template |
| Metrics.CollectResourceMetrics | monitoring/metrics_collector.py:136-178 | only CREATE_COMPLETE clusters get telemetry; identity, power and cost are untouched; a CPU-only template reports 0 % GPU; in-range draws give utilisation in [0, 100] |
| Metrics.UtilizationFactor | monitoring/metrics_collector.py:192-194 | the load factor is in [0, 1] for in-range utilisation and 0 for an idle cluster |
| Metrics.PowerWithinPeak | monitoring/metrics_collector.py:189-203 | the load-scaled draw lies between 30 % and 100 % of the full-load draw of all nodes with cooling |
| Metrics.CalculatePowerAndCost | monitoring/metrics_collector.py:180-218 | the draw is (30 % + 70 % of the load factor) of the full-load peak of all nodes with cooling, so exactly 30 % of it idle and all of it at full load, and within that range for in-range load; cost minus the electricity part is the template price times the worker count (masters are not billed); monthly cost is 720 hours |
| Metrics.PowerMonotoneInLoad | monitoring/metrics_collector.py:189-203 | of two snapshots of the same topology, the busier one never draws less power |
| Metrics.CostMonotoneInDraw | monitoring/metrics_collector.py:205-210 | of two snapshots of the same template and worker count, the one drawing more power never costs less per hour |
| Metrics.HealthScore | monitoring/metrics_collector.py:224-248 | health is in [0, 100] and 0 for a cluster that is not CREATE_COMPLETE |
| Metrics.EfficiencyScore | monitoring/metrics_collector.py:250-263 | efficiency is in [0, 100] and 0 when the cluster is not running or draws no power |
| Metrics.CalculateScores | monitoring/metrics_collector.py:220-272 | both scores are in [0, 100], both 0 for a cluster that is not running, and nothing else changes |
| Metrics.PerfectHealth | monitoring/metrics_collector.py:225-248 | a running cluster with no failed pods, at most 5 pending, no saturation and a reachable API scores exactly 100 |
| Metrics.HealthMonotoneInFailures | monitoring/metrics_collector.py:231-232 | more failed pods never raise the health score |
| Metrics.UnknownTemplatePricedAsDev | monitoring/metrics_collector.py:184-186 | an unknown template is priced exactly as the development template |
| Metrics.CollectFullMetrics | monitoring/metrics_collector.py:274-291 | the pipeline keeps the name, bounds both scores, and a failed lookup ends as ERROR with zero scores |
| Metrics.FailedLookupCostsNothing | monitoring/metrics_collector.py:274-291 | a failed lookup is charged zero watts and zero dollars |
| Metrics.CollectedShape | monitoring/metrics_collector.py:293-306 | there is at most one result per name, and one for every name exactly when no collection raises |
| Metrics.CollectMultipleClusters | monitoring/metrics_collector.py:293-306 | the loop returns the successful collections in request order |
| VirtualMonitoring.ClusterCost | virtual_cluster_monitoring.py:152-164 | a template id containing "ai" costs 1.20 per worker node, any other 0.15 |
| VirtualMonitoring.CollectClusterMetrics | virtual_cluster_monitoring.py:86-150 | a failed lookup gives an empty ERROR snapshot; every cluster is priced; only CREATE_COMPLETE clusters get telemetry, with GPU use only when the device-plugin label mentions "gpu" and power scaled by the node count |
| VirtualMonitoring.Active | virtual_cluster_monitoring.py:176 | the active members are CREATE_COMPLETE members of the list |
| VirtualMonitoring.MemberHealth | virtual_cluster_monitoring.py:238-254 | a member's health is in [0, 100] |
| VirtualMonitoring.MemberEfficiency | virtual_cluster_monitoring.py:264-279 | a member's efficiency is capped at 100 when it draws power, and in [0, 100] for in-range telemetry |
| VirtualMonitoring.GroupHealth | virtual_cluster_monitoring.py:231-256 | the group health is in [0, 100] and 0 with no active member |
| VirtualMonitoring.GroupEfficiency | virtual_cluster_monitoring.py:258-281 | the group efficiency is 0 with no active member and in [0, 100] for in-range telemetry |
| VirtualMonitoring.RollUp | virtual_cluster_monitoring.py:175-229 | totals of nodes and cost run over every member, power over the active ones; the CPU, memory and GPU averages are the means over the active members and the two scores are the group health and efficiency of the active members; no active member gives zero averages and scores; no member gives an empty rollup |
| VirtualMonitoring.RollUpAppend | virtual_cluster_monitoring.py:175-229 | member, active-member and node counts and the cost and power totals of two member lists together are the sums of each list's |
| VirtualMonitoring.CollectGroupMetrics | virtual_cluster_monitoring.py:166-229 | one snapshot per requested name, in order |
| VirtualMonitoring.GroupEfficiencyBounded | virtual_cluster_monitoring.py:258-281 | the group efficiency is in [0, 100] whenever member telemetry is in range |
| VirtualMonitoring.Record | virtual_cluster_monitoring.py:294-302 | the rollup becomes the newest of at most 100 kept entries, the oldest dropped first, and other groups' histories are unchanged |
| VirtualMonitoring.CurrentStatus | virtual_cluster_monitoring.py:369-373 | the current status exists exactly when the history is non-empty, and is its last entry |
| VirtualMonitoring.RecordThenCurrent | virtual_cluster_monitoring.py:369-373 | after recording a rollup it is the group's current status |
| VirtualMonitoring.Candidates | virtual_cluster_monitoring.py:322-360 | exactly one candidate alert per threshold crossed (cost over 20, efficiency under 30, health under 50, power over 10 kW) |
| VirtualMonitoring.AsWrittenAppendsEverything | virtual_cluster_monitoring.py:362-366 | `VirtualMonitoring.CheckAlertsAsWritten`: with the membership test as written every candidate is appended, so the list grows by the number of candidates |
| VirtualMonitoring.AsWrittenDuplicates | virtual_cluster_monitoring.py:362-366 | a group over the cost threshold for two cycles stores the same HIGH_COST alert twice |
| VirtualMonitoring.CheckAlerts | virtual_cluster_monitoring.py:362-366 | stored alerts are kept, every candidate event ends up stored, and newly stored alerts carry the cycle's timestamp |
| VirtualMonitoring.CheckAlertsIdempotent | virtual_cluster_monitoring.py:362-366 | candidates already stored add nothing |
| VirtualMonitoring.RepeatedCycleStoresOnce | virtual_cluster_monitoring.py:322-366 | two cycles over the same rollup store each alert once |
| VirtualMonitoring.Recommendations | virtual_cluster_monitoring.py:431-453 | each recommendation appears exactly when its condition holds, including the trend rule over the last 10 of more than 10 rollups |
| RedisKeys.BuildKey | database/redis_keys.py:29-31 | a key is the namespace "kcloud", a colon and the parts joined with colons |
| RedisKeys.BuildKeyRoundTrip | database/redis_keys.py:29-31 | splitting a key built from colon-free parts at ":" gives back the namespace and the parts |
| RedisKeys.BuildKeyInjective | database/redis_keys.py:29-31 | different colon-free part lists give different keys |
| RedisKeys.ClusterCurrent | database/redis_keys.py:35-37 | the key is kcloud:cluster:<name>:current |
| RedisKeys.ClusterStatus | database/redis_keys.py:40-42 | the key is kcloud:cluster:<name>:status |
| RedisKeys.ClusterConfig | database/redis_keys.py:45-47 | the key is kcloud:cluster:<name>:config |
| RedisKeys.ClusterList | database/redis_keys.py:50-52 | the key is kcloud:cluster:active_list |
| RedisKeys.MetricsLatest | database/redis_keys.py:56-58 | the key is kcloud:metrics:<name>:latest |
| RedisKeys.MetricsHistory | database/redis_keys.py:61-63 | the key is kcloud:metrics:<name>:history:<duration> |
| RedisKeys.MetricsSummary | database/redis_keys.py:66-68 | the key is kcloud:metrics:<name>:summary:<period> |
| RedisKeys.AlertsActive | database/redis_keys.py:72-74 | the key is kcloud:alerts:active |
| RedisKeys.AlertsByCluster | database/redis_keys.py:77-79 | the key is kcloud:alerts:by_cluster:<name> |
| RedisKeys.AlertsByClusterRoundTrip | database/redis_keys.py:77-79 | the cluster name is the last colon-segment of its key when it has no colon |
| RedisKeys.AlertsBySeverity | database/redis_keys.py:82-84 | the key is kcloud:alerts:by_severity:<severity in lower case> |
| RedisKeys.SeverityKeyIgnoresCase | database/redis_keys.py:82-84 | severities that differ only in ASCII case share one key |
| RedisKeys.SeverityKeyExamples | database/redis_keys.py:82-84 | "CRITICAL" and "critical" both map to kcloud:alerts:by_severity:critical |
| RedisKeys.AlertsHistory | database/redis_keys.py:87-91 | a given non-empty date is used, otherwise today's date |
| RedisKeys.AlertCooldown | database/redis_keys.py:94-96 | the key is kcloud:alerts:cooldown:<rule>:<cluster> |
| RedisKeys.AlertCooldownInjective | database/redis_keys.py:94-96 | colon-free (rule, cluster) pairs never share a cooldown key |
| RedisKeys.DashboardCache | database/redis_keys.py:100-104 | a given non-zero timestamp is used, otherwise the current one, written in decimal |
| RedisKeys.DashboardConfig | database/redis_keys.py:107-109 | the key is kcloud:dashboard:config:<user> |
| RedisKeys.DashboardWidgets | database/redis_keys.py:112-114 | the key is kcloud:dashboard:widgets:<dashboard> |
| RedisKeys.UserSession | database/redis_keys.py:118-120 | the key is kcloud:user:<user>:session |
| RedisKeys.UserPreferences | database/redis_keys.py:123-125 | the key is kcloud:user:<user>:preferences |
| RedisKeys.UserOnline | database/redis_keys.py:128-130 | the key is kcloud:user:online |
| RedisKeys.CacheApiResponse | database/redis_keys.py:134-136 | the key is kcloud:cache:api:<endpoint>:<hash> |
| RedisKeys.CacheQueryResult | database/redis_keys.py:139-141 | the key is kcloud:cache:query:<hash> |
| RedisKeys.StatsHourly | database/redis_keys.py:145-147 | the key is kcloud:stats:hourly:<name>:<hour> |
| RedisKeys.StatsDaily | database/redis_keys.py:150-152 | the key is kcloud:stats:daily:<name>:<date> |
| RedisKeys.StatsGlobal | database/redis_keys.py:155-157 | the key is kcloud:stats:global:<metric> |
| RedisKeys.LockClusterOperation | database/redis_keys.py:161-163 | the key is kcloud:lock:cluster:<name>:<operation> |
| RedisKeys.LockMetricsCollection | database/redis_keys.py:166-168 | the key is kcloud:lock:metrics:<name> |
| RedisKeys.ClusterEventsPattern | database/redis_keys.py:189-192 | the pattern is the key layout of one cluster's events with "*" as the last part |
| RedisKeys.ClusterEventsMatch | database/redis_keys.py:189-192 | for separator-free names, a cluster's event pattern matches an event key exactly when the key belongs to that cluster, whatever the event |
| RedisKeys.UserNotificationsPattern | database/redis_keys.py:194-197 | the pattern is the key layout of one user's notifications with "*" as the last part |
| RedisKeys.UserNotificationsMatch | database/redis_keys.py:194-197 | for separator-free ids, a user's notification pattern matches a notification key exactly when the key belongs to that user |
| RedisKeys.SegmentPatternMatch | database/redis_keys.py:189-197 | a trailing-"*" pattern over a separator-free segment matches a key with the same head exactly when the segments are equal |
| RedisKeys.MetricsHistoryTtl | database/redis_keys.py:267-275 | the four known windows expire after twice their length, anything else after one hour |
| RedisKeys.AlertCooldownTtl | database/redis_keys.py:278-280 | the cooldown key outlives the cooldown by exactly 10 seconds |
| Alerts.Lookup | monitoring/alert_system.py:165-178 | exactly the twelve names of the evaluation environment are bound, and only the cluster name and status are text |
| Alerts.Eval | monitoring/alert_system.py:181 | `and` is true exactly when both sides are, short-circuits on a false left side and passes on an error from the left side |
| Alerts.WellFormedNeverRaises | monitoring/alert_system.py:181 | a condition over known names, ordering only numbers, never raises |
| Alerts.DefaultRulesFacts | monitoring/alert_system.py:61-141 | the default table has eleven enabled rules with distinct names, known severities, non-negative cooldowns and conditions that never raise; creation failure has no cooldown |
| Alerts.DefaultNamesDistinct | monitoring/alert_system.py:61-138 | the default rule names are pairwise distinct |
| Alerts.DefaultRowsSound | monitoring/alert_system.py:61-138 | every default rule is enabled, has a known severity and a condition that evaluates without raising |
| Alerts.AddRule | monitoring/alert_system.py:144-147 | the rule is appended after the existing ones |
| Alerts.RemoveRule | monitoring/alert_system.py:149-152 | every rule with the name goes and every other rule stays |
| Alerts.RemoveUndoesAdd | monitoring/alert_system.py:144-152 | removing a rule by name after adding it leaves what removing it from the original table leaves |
| Alerts.Evaluate | monitoring/alert_system.py:154-205 | at most one alert per rule, each for this cluster at this time and unacknowledged; cooldown stamps only move to now, and stamps of keys no rule uses are untouched |
| Alerts.ExpectedIgnoresKey | monitoring/alert_system.py:183-186 | a cooldown key no rule of the cluster uses does not affect which rules fire |
| Alerts.EvaluateMatchesExpected | monitoring/alert_system.py:154-205 | with distinct names and separating keys the pass raises exactly the alerts of the rules that fire against the cooldowns as they stood before it |
| Alerts.ExpectedRaisedFor | monitoring/alert_system.py:159-199 | with distinct names, a rule has an alert in the reference list exactly when it fires |
| Alerts.RaisedForAppend | monitoring/alert_system.py:199 | an alert in a concatenation comes from one of its parts |
| Alerts.RestNotRaised | monitoring/alert_system.py:159-199 | with distinct names the later rules never raise for the first rule's name |
| Alerts.ExpectedOnlyFromRules | monitoring/alert_system.py:159-199 | every alert names a rule of the table |
| Alerts.AlertRaisedIff | monitoring/alert_system.py:159-200 | rule j raises an alert exactly when it is enabled, its condition holds, its cooldown has elapsed and its message renders |
| Alerts.StampIff | monitoring/alert_system.py:183-200 | a rule's cooldown stamp moves to now when the rule fires and stays as it was when it does not |
| Alerts.Init | monitoring/alert_system.py:61-141 | a fresh system has the eleven default rules, no alerts and no cooldowns |
| Alerts.Cleanup | monitoring/alert_system.py:229-240 | exactly the unresolved alerts younger than a day stay active |
| Alerts.CleanupAppend | monitoring/alert_system.py:229-240 | cleanup keeps order: cleaning a concatenation is cleaning each part and concatenating |
| Alerts.CleanupIdempotent | monitoring/alert_system.py:229-240 | cleaning up twice is cleaning up once |
| Alerts.ProcessMetrics | monitoring/alert_system.py:207-227 | with cooldowns keyed by the (rule, cluster) pair, the corrected key of "## Findings": the returned alerts and the new cooldown stamps are those of evaluating the rules; they are appended to the history, which otherwise is unchanged; the active list is the cleaned old list followed by the cleaned new alerts, each new alert is active and no active alert is resolved |
| Alerts.ProcessMetricsRaisedIff | monitoring/alert_system.py:159-227 | with the corrected pair key and distinct rule names, a pass raises an alert for a rule exactly when the rule fires with its pair's cooldown elapsed, and the pair is then stamped with now |
| Alerts.FindAlert | monitoring/alert_system.py:244-245 | the first active alert with the id, or none when no alert has it |
| Alerts.UpdateFirst | monitoring/alert_system.py:242-258 | the answer is true exactly when some alert has the id; only the first such alert changes |
| Alerts.FindAlertSameIds | monitoring/alert_system.py:244-256 | changing flags never moves the first match |
| Alerts.AcknowledgeIdempotent | monitoring/alert_system.py:242-249 | `Alerts.Acknowledge` (`acknowledge_alert`): acknowledging twice is acknowledging once |
| Alerts.ResolveIdempotent | monitoring/alert_system.py:251-258 | `Alerts.Resolve` (`resolve_alert`): resolving twice is resolving once |
| Alerts.GetActiveAlerts | monitoring/alert_system.py:260-267 | an alert is listed exactly when it is active, unresolved and, if a severity is given, of that severity |
| Alerts.ClusterCounts | monitoring/alert_system.py:285-290 | the per-cluster counters have distinct keys |
| Alerts.ClusterCountsExact | monitoring/alert_system.py:285-290 | each cluster's counter is its number of alerts, and clusters without alerts have no counter |
| Alerts.ClusterCountsSum | monitoring/alert_system.py:285-290 | the counters add up to the number of alerts |
| Alerts.ClusterCountsPositive | monitoring/alert_system.py:285-290 | every counter is positive |
| Alerts.SeverityCountsPartition | monitoring/alert_system.py:276-280 | with only known severities the three severity counts add up to the number of alerts |
| Alerts.GetAlertSummary | monitoring/alert_system.py:269-292 | the total is the number of unresolved alerts; each severity count is the number of unresolved alerts of that severity; the cluster counters add up to the total and are positive; the recent list is the last ten unresolved alerts, or all of them when fewer |
| Alerts.CountSeverityFilter | monitoring/alert_system.py:275-279 | counting the alerts of one severity is the length of the list filtered for it |
| Alerts.SummarySeveritiesPartition | monitoring/alert_system.py:269-292 | with known severities the summary's severity counts add up to its total |
| Alerts.AlertKeyInjectiveInRule | monitoring/alert_system.py:183 | within one cluster the string key tells rules apart |
| Alerts.PairKeyInjective | monitoring/alert_system.py:183 | the (rule, cluster) pair tells rules apart |
| Alerts.CooldownKeyCollision | monitoring/alert_system.py:183-186 | rule "high" on cluster "cost_web" and rule "high_cost" on cluster "web" share a cooldown key, so one firing silences the other |
| Alerts.CollisionSilencesPass | monitoring/alert_system.py:181-200 | right after rule `high` fired on cluster `cost_web`, a firing rule `high_cost` on cluster `web` raises nothing with the string key and its alert with the pair key |
| Alerts.PairCooldownIndependent | monitoring/alert_system.py:183-186 | with the pair as key, stamping one pair leaves every other pair's cooldown as it was |
| EnhancedAlerts.SetWithTtl | monitoring/enhanced_alert_system.py:195-199 | a key written with a positive time to live reads as present at once, and no other key changes |
| EnhancedAlerts.PostInit | monitoring/enhanced_alert_system.py:41-45 | a missing or empty uuid is replaced by a fresh one and missing channels by an empty list; given values are kept |
| EnhancedAlerts.CreateEnhancedAlert | monitoring/enhanced_alert_system.py:223-238 | the alert carries the rule's name and severity, the cluster's name and uuid, the rule uuid, the three delivery channels, and starts unacknowledged at escalation level 0 |
| EnhancedAlerts.ToDbDict | monitoring/enhanced_alert_system.py:47-66 | the row id is the alert uuid, the original id goes to the metadata, and reading the row back with `EnhancedAlerts.FromDbDict` gives the alert |
| EnhancedAlerts.InsertRow | monitoring/enhanced_alert_system.py:317-333 | the inserted row's id is the alert uuid and its rule id is the rule uuid |
| EnhancedAlerts.InsertRowAgrees | monitoring/enhanced_alert_system.py:317-333 | the inserted columns agree with the alert's dictionary form, the rule id being the rule uuid it records |
| EnhancedAlerts.InsertedRowRecovers | monitoring/enhanced_alert_system.py:317-333 | the inserted row of a created alert, read back with its rule name, gives that alert |
| EnhancedAlerts.CacheOf | monitoring/enhanced_alert_system.py:101-116 | the cache has one enabled entry per name, keyed by the rule's own name, and every enabled row's name is in it |
| EnhancedAlerts.LastEnabledMeans | monitoring/enhanced_alert_system.py:101-116 | the last enabled row of a name is absent exactly when no enabled row carries it, and otherwise is the row at the last position that does |
| EnhancedAlerts.CacheOfGet | monitoring/enhanced_alert_system.py:101-116 | the cache entry of a name is the rule, uuid, description and target of the last enabled row carrying it, and there is none when no enabled row does |
| EnhancedAlerts.CacheKeysEnabled | monitoring/enhanced_alert_system.py:101-116 | the cache's keys are exactly the names of the enabled rows |
| EnhancedAlerts.LoadRules | monitoring/enhanced_alert_system.py:89-124 | disconnected or on a failing query the base system gets the default rules and nothing else changes; otherwise the cache is the one the rows build and the load time is now |
| EnhancedAlerts.StartEngine | monitoring/enhanced_alert_system.py:70-87 | a fresh engine on a manager has the default base rules and empty stores; when connected with a working query its cache is the one the rows build, loaded at now, and otherwise it has no cache and no load time |
| EnhancedAlerts.LoadedRulesChecked | monitoring/enhanced_alert_system.py:101-172 | after a successful load, the rule of each name's last enabled row is walked by the next pass with that row's uuid |
| EnhancedAlerts.CheckRulesReload | monitoring/enhanced_alert_system.py:157-161 | rules are reloaded exactly when none were loaded or the last load is more than five minutes old |
| EnhancedAlerts.ReloadSchedule | monitoring/enhanced_alert_system.py:157-161 | a successful load is not repeated for five minutes; a failed first load is retried on the next call |
| EnhancedAlerts.RulesToCheck | monitoring/enhanced_alert_system.py:168-172 | a non-empty cache is walked with its rule uuids, otherwise the base rules without uuids |
| EnhancedAlerts.EvaluateEnhanced | monitoring/enhanced_alert_system.py:163-204 | at most one alert per rule, each for this cluster at this time with a fresh uuid and the delivery channels; with the store unreachable no alert fires and nothing is written |
| EnhancedAlerts.PassFrame | monitoring/enhanced_alert_system.py:180-199 | a pass touches only the cooldown keys of its own rules |
| EnhancedAlerts.RuleKeys | monitoring/enhanced_alert_system.py:180 | every rule's cooldown key for the cluster is in the key set |
| EnhancedAlerts.CooldownKeyInjective | monitoring/enhanced_alert_system.py:180 | within one cluster different rule names have different cooldown keys |
| EnhancedAlerts.FirstRuleStamp | monitoring/enhanced_alert_system.py:180-199 | the first rule's key is stamped when it fires with a positive cooldown and otherwise kept |
| EnhancedAlerts.EvaluateStep | monitoring/enhanced_alert_system.py:171-199 | a pass is the first rule's turn followed by a pass over the rest |
| EnhancedAlerts.OthersUnaffected | monitoring/enhanced_alert_system.py:180-199 | with distinct names, every rule's key ends stamped if that rule fired with a positive cooldown and as it was otherwise |
| EnhancedAlerts.CooldownSuppresses | monitoring/enhanced_alert_system.py:180-199 | a rule that fired with a positive cooldown stays silent on that cluster for the cooldown plus ten seconds; one with no cooldown leaves no key |
| EnhancedAlerts.OnlyRulesRaise | monitoring/enhanced_alert_system.py:171-199 | no alert of a pass names a rule outside the walked list |
| EnhancedAlerts.EnhancedAlertRaisedIff | monitoring/enhanced_alert_system.py:171-199 | with distinct names, rule j has an alert in the pass exactly when it fires against the store as it stood before the pass |
| EnhancedAlerts.DatabaseHandler | monitoring/enhanced_alert_system.py:310-336 | disconnected, or with the insert refused, the table is unchanged; otherwise the alert's id becomes a key, a new id getting exactly the columns the INSERT writes, and existing rows never change |
| EnhancedAlerts.DatabaseHandlerIdempotent | monitoring/enhanced_alert_system.py:317-325 | delivering the same alert twice stores it once |
| EnhancedAlerts.DeliverAll | monitoring/enhanced_alert_system.py:148-149 | existing rows are kept; disconnected nothing is written; connected every accepted alert has a row; every new row is the inserted row of an accepted alert of the pass |
| EnhancedAlerts.ProcessMetricsAlerts | monitoring/enhanced_alert_system.py:138-155 | disconnected nothing fires or is written; connected every fired alert whose insert is accepted has a row; no stored row changes and every new row is an accepted alert's |
| EnhancedAlerts.RulesToCheckDistinct | monitoring/enhanced_alert_system.py:168-172 | the rules a pass walks have distinct names, before and after a reload |
| EnhancedAlerts.ProcessRaisedIff | monitoring/enhanced_alert_system.py:138-204 | a rule of the pass has an alert exactly when it is enabled, its condition holds, its cooldown key is absent from the store before the pass, the store is reachable and its message renders |
| EnhancedAlerts.ByCluster | monitoring/enhanced_alert_system.py:416-420 | every counter is positive and there are no more entries than keys |
| EnhancedAlerts.ByClusterHasKey | monitoring/enhanced_alert_system.py:416-420 | every key with alerts contributes its last colon-segment as a cluster name |
| EnhancedAlerts.LastCountMeans | monitoring/enhanced_alert_system.py:416-420 | the counter for a name is absent exactly when no key with alerts carries it, and otherwise the count of the last such key |
| EnhancedAlerts.ByClusterGet | monitoring/enhanced_alert_system.py:416-420 | the entry for a name is the count of the last key with alerts whose last segment is that name, and absent when there is none |
| EnhancedAlerts.GetAlertSummary | monitoring/enhanced_alert_system.py:396-435 | a failing read gives all-zero counts; otherwise the counts are the store's, with at most ten positive per-cluster counters |
| EnhancedAlerts.SummaryNamesClusters | monitoring/enhanced_alert_system.py:415-420 | a per-cluster key among the first ten with alerts shows up under its own cluster name |
| EnhancedAlerts.SummaryByClusterGet | monitoring/enhanced_alert_system.py:415-420 | each cluster's summary count is the count of the last of the first ten keys naming it, and absent when none does |
| EnhancedCollector.Enhance | monitoring/enhanced_metrics_collector.py:97-101 | every base field is kept and the collection id is the session id, an underscore and the cluster name; the other added fields take their defaults |
| EnhancedCollector.ErrorMetrics | monitoring/enhanced_metrics_collector.py:238-253 | the error snapshot names the cluster, is in state ERROR with no nodes, template "unknown", zero scores, power and cost, and comes from the error handler |
| EnhancedCollector.ErrorSnapshotInactive | monitoring/enhanced_metrics_collector.py:238-253 | an error snapshot is never a completed cluster and never claims the normal data source |
| EnhancedCollector.ToDbDict | monitoring/enhanced_metrics_collector.py:37-60 | the row keeps every base column, moves the session fields and template information into the metadata, and reads back with `EnhancedCollector.FromDbRow` as the snapshot |
| EnhancedCollector.Take | monitoring/enhanced_metrics_collector.py:203 | the trim keeps the first entries, as many as the list has up to the bound |
| EnhancedCollector.PushTrim | monitoring/enhanced_metrics_collector.py:202-203 | the pushed snapshot comes first, the old list follows shifted by one, and the list never exceeds 241 entries |
| EnhancedCollector.Reverse | monitoring/enhanced_metrics_collector.py:202 | entry i of the reversed list is entry n-1-i of the list |
| EnhancedCollector.PushAllNewestFirst | monitoring/enhanced_metrics_collector.py:202-203 | pushing snapshots one by one equals the newest-first list of all of them before the old list, cut to 241 |
| EnhancedCollector.TrimUnderPrefix | monitoring/enhanced_metrics_collector.py:202-203 | trimming before the cut does not change what the cut keeps |
| EnhancedCollector.EnsureClusterId | monitoring/enhanced_metrics_collector.py:145-173 | the id found or created, or "unknown" when the lookup fails |
| EnhancedCollector.UpdateCache | monitoring/enhanced_metrics_collector.py:175-212 | on success the latest key holds the snapshot with its expiry, the current-status key holds its name, status, health and cost with their expiry, the history becomes the pushed and trimmed list, the name joins the cluster list, and no other latest, current or history key changes; a failure changes nothing; rows and publications are untouched |
| EnhancedCollector.HistoryOfUpdates | monitoring/enhanced_metrics_collector.py:175-212 | after successive updates for one cluster its history is the newest-first list of them before the old history, cut to 241 |
| EnhancedCollector.PublishReachesClusterSubscribers | monitoring/enhanced_metrics_collector.py:214-236 | `EnhancedCollector.Publish`: for separator-free names, a cluster's event pattern receives the per-cluster update exactly when the update is about that cluster |
| EnhancedCollector.CollectAndStore | monitoring/enhanced_metrics_collector.py:70-95 | a failed collection or insert gives the error snapshot and writes nothing; otherwise the enhanced snapshot is returned, and a row is appended only when connected; earlier rows are kept |
| EnhancedCollector.StoredRowReadsBack | monitoring/enhanced_metrics_collector.py:103-137 | the row appended by a connected collection reads back as the returned snapshot with its cluster id |
| EnhancedCollector.CacheHoldsLatest | monitoring/enhanced_metrics_collector.py:175-207 | after a connected collection with a working cache, the latest key and the head of the history hold the returned snapshot and the name is listed |
| EnhancedCollector.CollectMultipleAsync | monitoring/enhanced_metrics_collector.py:255-272 | one snapshot per requested name in order: the coroutine's result, or the error snapshot for that name; the whole is the batch of those entries |
| EnhancedCollector.Batch | monitoring/enhanced_metrics_collector.py:255-272 | one entry per requested name |
| EnhancedCollector.CollectAndStoreNamed | monitoring/enhanced_metrics_collector.py:70-95 | a collection returns a snapshot under the requested name whenever the base collector names it so |
| EnhancedCollector.BatchNamesMatch | monitoring/enhanced_metrics_collector.py:260-269 | each batch entry carries the name it was requested under |
| IntegratedMonitor.MonitorFrom | monitoring/integrated_monitor.py:53-65 | the names whose collection succeeds are added with their snapshots, failing names are skipped, other entries and the rules are untouched, and alert history only grows |
| IntegratedMonitor.MonitorClusters | monitoring/integrated_monitor.py:47-67 | the result holds exactly the requested names whose collection succeeded, each with its snapshot, once each; the alert history only grows |
| IntegratedMonitor.Report | monitoring/integrated_monitor.py:176-181 | the total count is the number of collected clusters and the active count never exceeds it |
| IntegratedMonitor.SummaryTotals | monitoring/integrated_monitor.py:99-132 | the running totals of the summary printout equal the report's cost, power and active counts |
| IntegratedMonitor.FilterNonEmpty | monitoring/integrated_monitor.py:191-214 | a filtered list of running clusters is non-empty exactly when some running cluster meets the filter |
| IntegratedMonitor.TriggeredKinds | monitoring/integrated_monitor.py:196-217 | each advice kind is present exactly when its guard holds, and the fallback messages are never among them |
| IntegratedMonitor.TriggeredSpec | monitoring/integrated_monitor.py:191-217 | cost, efficiency and health advice appear exactly when some running cluster costs over 10 per hour, scores under 40 on efficiency or under 70 on health; GPU advice exactly when the GPU users average under 30 percent |
| IntegratedMonitor.RecommendationsSpec | monitoring/integrated_monitor.py:187-221 | `IntegratedMonitor.GenerateRecommendations`: the advice is never empty: the no-active message alone exactly when nothing runs, else the triggered messages, and "state good" exactly when clusters run and nothing triggers |
| IntegratedMonitor.StatusIndicatorSpec | monitoring/integrated_monitor.py:149-158 | `IntegratedMonitor.StatusIndicator`: only the five known statuses get their own indicator, all different; everything else is "[UNKNOWN]" |
| DbMonitor.Initialize | monitoring/database_integrated_monitor.py:54-103 | a working database start-up sets the manager and starts the alert engine on it with the rules loaded; a failing one falls back to the in-memory monitor, keeping the manager and the started engine when they were set before the failure and the old engine otherwise; start-up fails exactly when the fallback is needed and fails too; the counter and mode are kept |
| DbMonitor.StartedEngineRaises | monitoring/database_integrated_monitor.py:76-85 | after a database start-up the alert engine is connected, and its first pass raises an alert for a walked rule exactly when the rule is enabled, its condition holds and its message renders |
| DbMonitor.Bases | monitoring/database_integrated_monitor.py:163-165 | the base snapshots of the enhanced ones, in order |
| DbMonitor.ActiveAverageIsMean | monitoring/database_integrated_monitor.py:182-183 | the sum over running clusters divided by at least one is their mean, and zero when none runs |
| DbMonitor.ActiveAverageBounds | monitoring/database_integrated_monitor.py:182-183 | an average of percentages over the running clusters stays within 0 and 100 |
| DbMonitor.FilterKeepsBounds | monitoring/database_integrated_monitor.py:182-183 | restricting to running clusters keeps a percentage bound |
| DbMonitor.ByName | monitoring/database_integrated_monitor.py:176 | the clusters map has one entry per collected name, keyed by the snapshot's own name |
| DbMonitor.MaxOf | monitoring/database_integrated_monitor.py:201 | the maximum bounds every term and is one of them |
| DbMonitor.MinOf | monitoring/database_integrated_monitor.py:202 | the minimum bounds every term from below and is one of them |
| DbMonitor.Names | monitoring/database_integrated_monitor.py:211-212 | the names of the listed snapshots, in order |
| DbMonitor.AnalyzePerformance | monitoring/database_integrated_monitor.py:191-221 | "no active clusters" exactly when nothing runs; otherwise the three health bands count every running cluster once and each average lies between its minimum and maximum |
| DbMonitor.PartitionCounts | monitoring/database_integrated_monitor.py:215-217 | the healthy, warning and critical bands split any list of clusters |
| DbMonitor.MeanBetween | monitoring/database_integrated_monitor.py:200-207 | a mean lies between the smallest and the largest term |
| DbMonitor.SmartFound | monitoring/database_integrated_monitor.py:232-258 | the triggered notes never include the two fallback messages |
| DbMonitor.SmartRecommendations | monitoring/database_integrated_monitor.py:223-263 | never empty; the no-active note alone exactly when nothing runs; "system good" alone exactly when clusters run and nothing triggers |
| DbMonitor.CriticalAlertsNoted | monitoring/database_integrated_monitor.py:251-253 | a critical alert among the new ones always yields the urgent-alerts note with their count while some cluster runs |
| DbMonitor.BasicRecommendations | monitoring/database_integrated_monitor.py:447-463 | exactly one note, the no-active one exactly when nothing runs |
| DbMonitor.BasicAgreesWithIntegrated | monitoring/database_integrated_monitor.py:447-463 | the fallback advice flags high cost exactly when some running cluster costs over 10 per hour, as the in-memory monitor's advice does |
| DbMonitor.EnhancedReport | monitoring/database_integrated_monitor.py:160-189 | database mode; the cluster count is the number collected, with at most that many active; the health and efficiency averages are the means over running clusters; every collected name is a key of the distinct-keyed cluster map; the alert count comes from the summary; the analysis and the recommendations are those of the collected snapshots and new alerts |
| DbMonitor.EnhancedTotalsAgree | monitoring/database_integrated_monitor.py:166-179 | the cost, power, active and total counts agree with the in-memory monitor's report over the same snapshots |
| DbMonitor.FallbackReport | monitoring/database_integrated_monitor.py:142-158 | fallback mode with the monitor's clusters, their count, no alerts and no analysis |
| DbMonitor.ErrorReport | monitoring/database_integrated_monitor.py:465-480 | error mode with no clusters, zero totals, no alerts and the single paused note |
| DbMonitor.RunFallback | monitoring/database_integrated_monitor.py:142-148 | answers in fallback mode with the monitor started; fails exactly when the monitor is missing and cannot start; counter, mode and alert engine unchanged |
| DbMonitor.MonitorClustersEnhanced | monitoring/database_integrated_monitor.py:105-140 | without database mode or manager the fallback answers; a pass that does not raise answers with the enhanced report of the collected batch, the alerts of processing each snapshot in turn and the alert summary, stores the alert engine as the pass left it, and resets the counter; a raising pass increments the counter and answers with the error report below five and from the fallback at five or more; the mode flags never change |
| DbMonitor.ProcessAll | monitoring/database_integrated_monitor.py:113-117 | processing a batch keeps the connection flag, every alert names a cluster of the batch, and disconnected nothing fires or is written |
| DbMonitor.EnhancedPass | monitoring/database_integrated_monitor.py:111-121 | the pass's metrics are the collected batch, one per name; its alerts and engine are the alert loop's over that batch; its summary is the alert summary |
| DbMonitor.EnhancedAnswerCoversNames | monitoring/database_integrated_monitor.py:111-124 | a database-mode answer counts one cluster per requested name and lists each name whose collection kept it |
| DbMonitor.DisconnectedPassRaisesNothing | monitoring/database_integrated_monitor.py:113-117 | with the alert store unreachable a pass changes no cooldown or alert row and advises on no alerts |
| DbMonitor.ErrorThreshold | monitoring/database_integrated_monitor.py:131-138 | the fifth consecutive raising pass answers from the fallback, and the next non-raising pass answers in database mode with a clean counter |
| DbMonitor.EarlyFailuresReported | monitoring/database_integrated_monitor.py:131-140 | below the threshold a failure answers with the error report and counts one more error |
| GroupManager.AddCluster | virtual_cluster_group_manager.py:30-34 | the record is appended and its node count and cost, zero when absent, are added to the totals, so totals that agreed with the records still agree |
| GroupManager.Recalculate | virtual_cluster_group_manager.py:41-44 | the records are kept and the totals become their sums |
| GroupManager.RemoveCluster | virtual_cluster_group_manager.py:36-39 | exactly the records with other names remain, and the totals agree with them |
| GroupManager.AddThenRemove | virtual_cluster_group_manager.py:30-44 | adding a record with a fresh name and removing it by name gives back a consistent group unchanged |
| GroupManager.CreateVirtualGroup | virtual_cluster_group_manager.py:83-102 | a taken name gives nothing and changes nothing; otherwise an empty group with zero totals is stored under the name |
| GroupManager.EstimateUsesTemplateTable | virtual_cluster_group_manager.py:178-189 | `GroupManager.EstimateClusterCost`: the estimate is the template's per-node rate from the configuration's template table times the node count, an unknown or missing template priced as dev and a missing count as one |
| GroupManager.SpecRecord | virtual_cluster_group_manager.py:126-147 | the record is named group, dash, spec name, is in progress, has the spec's node count (default one) and the estimated cost |
| GroupManager.MissingTemplateDefaults | virtual_cluster_group_manager.py:141-144 | a spec without a template is recorded as the AI template but priced at the dev rate |
| GroupManager.AcceptedMembers | virtual_cluster_group_manager.py:125-150 | a spec's record is among the accepted records exactly when Magnum accepted the spec |
| GroupManager.AddCreated | virtual_cluster_group_manager.py:125-150 | the records of the accepted specs, in spec order, are appended after the earlier records; consistent totals stay consistent |
| GroupManager.CreateGroupWithClusters | virtual_cluster_group_manager.py:104-155 | a taken name gives nothing; otherwise the new group has the name and type asked for, holds exactly the records of the accepted specs in spec order, each in progress, with totals that agree, and is stored under its name |
| GroupManager.CreatedGroupRecords | virtual_cluster_group_manager.py:124-152 | a new group holds a spec's record exactly when Magnum accepted the spec, and its totals sum the accepted records' node counts and cost estimates |
| GroupManager.DeleteVirtualGroup | virtual_cluster_group_manager.py:307-327 | false for an unknown group; otherwise the group is dropped and, when asked, one delete request goes out per record, in order |
| GroupManager.SharesPrefix | virtual_cluster_group_manager.py:225-231 | the first m shares of n split k ways are m times n div k plus one for each of the first n mod k |
| GroupManager.SharesTotal | virtual_cluster_group_manager.py:225-231 | the k shares add up to n |
| GroupManager.ScaleOutFromSum | virtual_cluster_group_manager.py:228-236 | without a key error the walk adds exactly the shares of the active records it passes |
| GroupManager.ScaleOutCounted | virtual_cluster_group_manager.py:234 | records that all carry node counts never raise |
| GroupManager.ScaleOutFromEach | virtual_cluster_group_manager.py:220-236 | an inactive record is untouched; the j-th active record grows by its share; only node counts change |
| GroupManager.ScaleOutGroup | virtual_cluster_group_manager.py:215-238 | without active records nothing changes; otherwise the record count is kept and, absent a key error, the totals agree with the records |
| GroupManager.ScaleOutAddsExactly | virtual_cluster_group_manager.py:215-238 | with some active record, scale-out adds exactly the requested nodes and the totals agree |
| GroupManager.Insert | virtual_cluster_group_manager.py:245-247 | inserting an index keeps the order's contents plus the index and keeps it sorted by descending cost per node, ties in original order |
| GroupManager.SortIndices | virtual_cluster_group_manager.py:245-247 | the visiting order is a permutation of the record indices sorted by descending cost per node, ties in original order |
| GroupManager.ScaleInAlongRemoves | virtual_cluster_group_manager.py:249-261 | along distinct indices, without a key error, the walk removes the requested nodes or all the slack when there is less |
| GroupManager.ScaleInAlongFloor | virtual_cluster_group_manager.py:254-260 | the walk never raises a node count and never takes a shrunk record below one node; only node counts change |
| GroupManager.ScaleInCounted | virtual_cluster_group_manager.py:254 | records that all carry node counts never raise |
| GroupManager.SlackAlongAll | virtual_cluster_group_manager.py:245-261 | the slack along a permutation of all indices is the slack of all records |
| GroupManager.ScaleInGroup | virtual_cluster_group_manager.py:240-263 | the record count is kept and, absent a key error, the totals agree with the records |
| GroupManager.ScaleInRemoves | virtual_cluster_group_manager.py:240-263 | scale-in removes the requested nodes, or every node above one per record when there are fewer, leaving no shrunk record below one node |
| GroupManager.ScaleGroup | virtual_cluster_group_manager.py:191-213 | false for an unknown group; a non-horizontal policy changes nothing; a success keeps the group names; the only error is a key error |
| GroupManager.ScaleGroupReachesTarget | virtual_cluster_group_manager.py:191-263 | for records with node counts, horizontal scaling succeeds, reaches a larger target when some record is active, and shrinks by the gap or all the slack |
| ClusterCrud.MakeConfig | openstack_cluster_crud.py:37-61 | the configuration keeps every given field, and missing labels become the five default labels |
| ClusterCrud.DefaultConfig | openstack_cluster_crud.py:42-51 | the defaults: keypair "ketilinux", one master, two nodes, 50 GB volumes, floating IPs on, default labels |
| ClusterCrud.DefaultLabelsFacts | openstack_cluster_crud.py:55-61 | the default labels are five distinct keys with auto-scaling on and node bounds that read as 1 and 10 |
| ClusterCrud.Attr | openstack_cluster_crud.py:64-84 | the attribute lookup reads the record's own id and status |
| ClusterCrud.MatchLoopIff | openstack_cluster_crud.py:257-264 | the early-exit loop over the filter items accepts a record exactly when every filter equals the record's attribute |
| ClusterCrud.ListClusters | openstack_cluster_crud.py:239-273 | a listing error propagates; no or empty filters keep every record; otherwise the listing filtered in order by matching every filter item, so exactly the matching records are kept |
| ClusterCrud.GetCluster | openstack_cluster_crud.py:212-237 | an id wins and is looked up directly; a name that finds nothing is not-found; neither argument is a ValueError; any record returned comes from the lookup that was asked |
| ClusterCrud.Classify | openstack_cluster_crud.py:136-152 | a target status ends the wait; a FAILED or ERROR status outside the targets raises; a vanished cluster is success only when DELETED is a target; anything else polls again |
| ClusterCrud.WaitForStatus | openstack_cluster_crud.py:115-156 | a successful wait returns a record in a target status, or the deleted marker only when DELETED is a target |
| ClusterCrud.WaitDecidedAt | openstack_cluster_crud.py:136-154 | the wait ends with the first poll that does not ask to poll again |
| ClusterCrud.WaitTimesOut | openstack_cluster_crud.py:136-156 | when every poll asks to poll again, the wait ends in a TimeoutError |
| ClusterCrud.DeleteCluster | openstack_cluster_crud.py:360-401 | with force the answer is always true; without, true exactly when nothing raised, false exactly on not-found, and any other error is re-raised |
| ClusterCrud.DeleteSucceedsWhenGone | openstack_cluster_crud.py:383-390 | a cluster that is gone at the first poll of the deletion wait counts as deleted |
| ClusterCrud.BuildPatch | openstack_cluster_crud.py:302-323 | the patch is empty exactly when no argument is given, and has at most three operations |
| ClusterCrud.ApplyOp | openstack_cluster_crud.py:304-323 | a replace never adds or drops a label |
| ClusterCrud.ApplyPatchAppend | openstack_cluster_crud.py:302-330 | applying two patches in a row is applying their concatenation, the first error winning |
| ClusterCrud.PatchRoundTrip | openstack_cluster_crud.py:302-330 | on a cluster carrying the addressed labels, the patch applies, sets the node count when given, and the label bounds read back as the given integers; every other label is kept |
| ClusterCrud.PatchNeedsLabel | openstack_cluster_crud.py:311-323 | a bound whose label the cluster lacks makes the patch fail |
| ClusterCrud.UpdateCluster | openstack_cluster_crud.py:276-344 | a failed lookup sends nothing; no arguments answers the current record; otherwise the built patch is sent, a request error is the outcome, and without one the outcome is the wait's verdict for UPDATE_COMPLETE or CREATE_COMPLETE |
| ClusterCrud.ResizeCluster | openstack_cluster_crud.py:346-357 | a failed lookup is the outcome; otherwise only the node-count replacement is sent, a request error is the outcome, and without one the outcome is the wait's verdict for an update target status |
| ClusterCrud.CleanupFrom | openstack_cluster_crud.py:501-521 | a successful cleanup reports exactly the ids it asked to delete, all of them ids of listed clusters |
| ClusterCrud.CleanupSelects | openstack_cluster_crud.py:495-521 | the corrected loop deletes and reports exactly the stuck clusters created at or before the cutoff or undated, in listing order |
| ClusterCrud.AsWrittenAgrees | openstack_cluster_crud.py:507-510 | without offset-aware creation times the loop as written and the corrected one agree |
| ClusterCrud.CleanupStuckClustersAsWritten | openstack_cluster_crud.py:482-525 | a listing error propagates, and a success reports exactly the ids it asked to delete |
| ClusterCrud.CleanupStuckClusters | openstack_cluster_crud.py:482-525 | with the corrected time comparison of "## Findings": a listing error propagates; with parseable times the result is exactly the selected ids and every selected cluster is asked to be deleted |
| ClusterCrud.CleanupRequestsSelected | openstack_cluster_crud.py:501-518 | every selected cluster's id is among the deletion requests |
| ClusterCrud.AwareTimeAborts | openstack_cluster_crud.py:507-509 | a stuck cluster with a Z-suffixed creation time makes the code as written raise TypeError, while the corrected cleanup deletes it |
| Orchestrator.NewGroupConfig | cluster_group_orchestrator.py:43-59 | minimum and maximum default to 1 and 10, and missing labels become an empty map |
| Orchestrator.TemplateFor | cluster_group_orchestrator.py:353-361 | a group type outside the template map gets the dev template |
| Orchestrator.TemplateChoice | cluster_group_orchestrator.py:353-361 | GPU groups get the AI template, CPU groups the compute template, mixed and development groups dev, production groups prod; only the compute template is missing from the monitoring configuration's table |
| Orchestrator.LabelPrecedence | cluster_group_orchestrator.py:371-376 | a label comes from the spec if it sets it, else the group id and type, else the group's own labels |
| Orchestrator.BuildClusterConfig | cluster_group_orchestrator.py:350-377 | the request is named group, spec name (default "auto") and clock, uses the group type's template, one master and two workers by default, the merged labels and the group keypair and network |
| Orchestrator.AppendedTracked | cluster_group_orchestrator.py:244-246 | joining a cluster keeps the member count and node total in step with the member list |
| Orchestrator.AddClusterToGroup | cluster_group_orchestrator.py:208-254 | an unknown group answers False and sends nothing; otherwise the built request is sent, and the cluster joins the group exactly when the creation succeeds; nothing else changes |
| Orchestrator.FindMember | cluster_group_orchestrator.py:277-281 | the index of the first member with the id, or none when no member has it |
| Orchestrator.WithoutTracked | cluster_group_orchestrator.py:297-299 | removing a member keeps the member count and node total in step with the member list |
| Orchestrator.RemoveClusterFromGroup | cluster_group_orchestrator.py:256-310 | True exactly when the group and member exist and the unforced deletion answers True; then that member leaves, otherwise nothing changes |
| Orchestrator.SuccessesAll | cluster_group_orchestrator.py:401-407 | when every attempt succeeds, every attempt adds a member |
| Orchestrator.AutoAttemptConfig | cluster_group_orchestrator.py:401-407 | `Orchestrator.AutoSpec`: attempt j asks for a cluster named group, "auto-" and j+1, with one master and one worker |
| Orchestrator.ScaleOutAttemptConfig | cluster_group_orchestrator.py:429-430 | `Orchestrator.ScaleOutSpec`: every scale-out attempt asks for a "scale-out" cluster with one master and two workers |
| Orchestrator.AddIsJoined | cluster_group_orchestrator.py:221-254 | whatever was asked for, the table after an addition only depends on the creation's answer |
| Orchestrator.AddRepeated | cluster_group_orchestrator.py:399-407 | repeated additions append exactly the successful creations in order, touch no other group and no other field than the member list and counters |
| Orchestrator.EnsureMinClusters | cluster_group_orchestrator.py:390-407 | the group keeps its status and gains exactly the successful creations among as many attempts as it is short of its minimum, in order; other groups are untouched; when all attempts succeed it has at least its minimum |
| Orchestrator.CreateGroup | cluster_group_orchestrator.py:96-144 | the group gets the id from its name and the stamp, active status, the successful minimum-cluster creations as members with counters in step, and is stored under its id |
| Orchestrator.SliceStart | cluster_group_orchestrator.py:433 | the start of `clusters[target:]`: the target when in range, counted from the end when negative, clamped to the list |
| Orchestrator.RemoveEach | cluster_group_orchestrator.py:433-435 | removing members one by one touches only this group's member list and counters |
| Orchestrator.RemoveSuffix | cluster_group_orchestrator.py:433-435 | removing a suffix of distinct, deletable members leaves exactly the prefix |
| Orchestrator.ScaleGroupCommand | cluster_group_orchestrator.py:416-442 | a missing or unknown group is a ValueError and a missing target a TypeError, both with no change; a known group with a target always answers Ok with the new member count, which on growth is the old count plus the successful creations and at the current count is unchanged; other groups are untouched |
| Orchestrator.ScaleOutReachesTarget | cluster_group_orchestrator.py:427-430 | when every creation succeeds, a larger target is reached exactly |
| Orchestrator.ScaleInKeepsPrefix | cluster_group_orchestrator.py:431-435 | with distinct, deletable members a smaller target keeps exactly the members before the slice start, and the answer is their number |
| Orchestrator.ExecuteOptimizationCommand | cluster_group_orchestrator.py:314-346 | only a scale command or one of the three placeholder commands succeeds; placeholders change nothing; a scale command succeeds exactly when its handler does, with the handler's groups and member count; a failure changes nothing |
| Orchestrator.ListGroups | cluster_group_orchestrator.py:150-157 | exactly the stored groups, narrowed to the requested type when one is given |
| Orchestrator.RemoveFirst | cluster_group_orchestrator.py:188 | one occurrence of the member leaves the list when present; otherwise the list is unchanged |
| Orchestrator.DeleteMembers | cluster_group_orchestrator.py:182-192 | an error escapes exactly when not forced and some member's deletion raises; the remaining members are a sub-multiset of the list |
| Orchestrator.DeleteGroup | cluster_group_orchestrator.py:159-204 | an unknown group answers False; with force the group always leaves; otherwise it leaves exactly when no deletion raises, and a failure leaves it in error status with the members not yet removed |

## Left out

- Random simulated telemetry is not generated: the utilisation figures and pod counts are an arbitrary sample argument.
- Message text from `str.format`, JSON serialisation, SQL text, md5 hashing and uuid4 are opaque: rendering is a function parameter and fresh uuids come from a supplied generator.
- Floating-point rounding and `:.2f`-style formatting are not modelled; arithmetic is on `real`.
- Concurrency is not modelled: `asyncio.gather`, the monitoring threads and the sleep loops become one sequential pass or a sequence of poll answers.
- Terminal printing, dashboards, demo scripts and the REST layer are outside the core.
- `update_config_from_env` reads environment variables and is not modelled.
- The `Template` enum of monitoring/config.py is not modelled; the template table lookup is.
- Alert handlers (console, Redis, dashboard callbacks) are not invoked; handler failures are swallowed by the code and do not change the alert state.
- The Redis secondary indexes written by the enhanced Redis handler, its active-alert and acknowledgement calls and the recent-alerts list of the summary are not modelled.
- Python object aliasing between the active list and the history of the in-memory alert system is not modelled: the history keeps alerts as raised.
- `ORDER BY` in the rule query is not modelled: the rows arrive in the order given.
- The dashboard-cache update of the database-integrated monitor always fails with a swallowed NameError in the code and changes nothing, so it is left out, as are the database statistics, health check and cleanup calls.
- Reading cached metrics and history back from Redis, and the expiry of keys over time, are not modelled; keys carry their expiry instant.
- EnhancedCollector.UpdateCache: a cache failure drops the whole update, whereas the code may have written the first keys before the failing call.
- Parsing of ISO timestamps is reduced to three outcomes: a naive instant, an offset-aware instant or a parse error.
- Polling time arithmetic is not modelled: a wait is a finite sequence of poll answers, and running out of answers is the timeout.
- Escapes in RFC 6901 paths (`~0`, `~1`) are not modelled; label keys containing `/` address no label.
- List filters compare strings, integers, string lists and None only.
- `create_cluster` request assembly and its wait, `get_cluster_credentials` and `get_cluster_templates` are not modelled.
- `get_group_status`, `list_virtual_groups` and `save_groups_config` of the group manager are not modelled: they refresh from Magnum, print or write a file.
- Orchestrator timestamps, group metrics and the workload-migration call are not modelled; the migration is a no-op in the code.
- Orchestrator.ListGroups: returns a set, not a list in dictionary insertion order.
- Alerts.ProcessMetrics: keys cooldowns by the (rule, cluster) pair, the corrected key, so two pairs whose `<rule>_<cluster>` strings coincide do not silence each other as they do in the code (see "## Findings" and Alerts.CollisionSilencesPass).
- RedisKeys.ClusterEventsMatch: Redis pattern matching is modelled for the trailing `*` only; a `?`, `[` or a backslash inside a cluster name or user id would be a glob character to Redis and is read literally here.
- RedisKeys.AlertsBySeverity: lower-cases ASCII letters only, whereas Python's `str.lower` also lowers other Unicode letters; severities are ASCII words in the code.
- EnhancedAlerts.DatabaseHandler: whether the database accepts an insert is a parameter; a refused insert (for example a rule id the rules table lacks) is swallowed by the code and writes nothing, and the model does not decide which inserts are refused.
- DbMonitor.MonitorClustersEnhanced: whether the pass raises (a collector or alert engine left unset by a failed start-up, a failing Redis read) is a parameter, and a raising pass is modelled as raising before it changes the alert engine.
- Orchestrator.EnsureMinClusters: requires the group to exist; its only caller stores the group first, so the KeyError of a missing group cannot occur.

## Findings

| source | as written | input that shows it | evidently intended | confidence | as-written member | corrected member |
|---|---|---|---|---|---|---|
| virtual_cluster_monitoring.py:362-366 | each stored alert gets a `timestamp` key, so the `not in` check against a fresh candidate never matches and every trigger is stored again | a group costing 24.0 per hour in two consecutive checks: the stored list holds the high-cost alert twice | an alert already stored is not stored again | high, not executed | VirtualMonitoring.AsWrittenDuplicates | VirtualMonitoring.CheckAlertsIdempotent |
| monitoring/alert_system.py:183 | the cooldown key joins rule name and cluster name with `_`, so different pairs can share a key | rule `high` on cluster `cost_web` and rule `high_cost` on cluster `web` both use `high_cost_web`; a firing of the first silences the second | one cooldown per (rule, cluster) pair | medium (needs an added rule whose name is a prefix of another), not executed | Alerts.CollisionSilencesPass | Alerts.PairCooldownIndependent |
| openstack_cluster_crud.py:507-509 | a `Z`-suffixed creation time parses as an offset-aware datetime and is compared with the naive cutoff, which raises TypeError and aborts the cleanup | a cluster in CREATE_IN_PROGRESS created `2024-01-01T00:00:00Z`, two days before now | old stuck clusters are deleted whatever the time zone of their timestamp | high, not executed | ClusterCrud.AwareTimeAborts | ClusterCrud.CleanupSelects |
