/** The Redis key layout, pub/sub channel names and expiry policy of
    database/redis_keys.py. Every key is the namespace "kcloud" followed by
    its parts, joined with ":". */
module RedisKeys {
  import opened Wrappers
  import opened Strings

  const Namespace := "kcloud"
  const Separator: char := ':'

  /** `_build_key(*parts)`. */
  function BuildKey(parts: seq<string>): (k: string)
    ensures |parts| >= 1 ==> k == Namespace + [Separator] + Join([Separator], parts)
  {
    Join([Separator], [Namespace] + parts)
  }

  predicate NoSep(parts: seq<string>)
  {
    forall i :: 0 <= i < |parts| ==> Separator !in parts[i]
  }

  /** Splitting a key at ":" gives back the namespace and the parts, so keys
      built from separator-free parts never collide. */
  lemma BuildKeyRoundTrip(parts: seq<string>)
    requires NoSep(parts)
    ensures Split(BuildKey(parts), Separator) == [Namespace] + parts
  {
    var all := [Namespace] + parts;
    assert forall i :: 0 <= i < |all| ==> Separator !in all[i] by {
      forall i | 0 <= i < |all| ensures Separator !in all[i] {
        if i > 0 { assert all[i] == parts[i - 1]; }
      }
    }
    SplitJoin(all, Separator);
  }

  lemma BuildKeyInjective(p: seq<string>, q: seq<string>)
    requires NoSep(p) && NoSep(q)
    requires BuildKey(p) == BuildKey(q)
    ensures p == q
  {
    BuildKeyRoundTrip(p);
    BuildKeyRoundTrip(q);
    assert p == ([Namespace] + p)[1..];
    assert q == ([Namespace] + q)[1..];
  }

  /** Unfolding `BuildKey` on two, three and four parts. */
  lemma Layout2(a: string, b: string)
    ensures BuildKey([a, b]) == Namespace + ":" + a + ":" + b
  {
    var sep := [Separator];
    assert sep == ":";
    assert ([Namespace] + [a, b]) == [Namespace, a, b];
    assert [Namespace, a, b][1..] == [a, b] && [a, b][1..] == [b];
    assert Join(sep, [a, b]) == a + sep + b;
  }

  lemma Layout3(a: string, b: string, c: string)
    ensures BuildKey([a, b, c]) == Namespace + ":" + a + ":" + b + ":" + c
  {
    var sep := [Separator];
    assert sep == ":";
    assert ([Namespace] + [a, b, c]) == [Namespace, a, b, c];
    assert [Namespace, a, b, c][1..] == [a, b, c] && [a, b, c][1..] == [b, c] && [b, c][1..] == [c];
    assert Join(sep, [b, c]) == b + sep + c;
    assert Join(sep, [a, b, c]) == a + sep + b + sep + c;
  }

  lemma Layout4(a: string, b: string, c: string, d: string)
    ensures BuildKey([a, b, c, d]) == Namespace + ":" + a + ":" + b + ":" + c + ":" + d
  {
    var sep := [Separator];
    assert sep == ":";
    assert ([Namespace] + [a, b, c, d]) == [Namespace, a, b, c, d];
    assert [Namespace, a, b, c, d][1..] == [a, b, c, d] && [a, b, c, d][1..] == [b, c, d];
    assert [b, c, d][1..] == [c, d] && [c, d][1..] == [d];
    assert Join(sep, [c, d]) == c + sep + d;
    assert Join(sep, [b, c, d]) == b + sep + c + sep + d;
    assert Join(sep, [a, b, c, d]) == a + sep + b + sep + c + sep + d;
  }

  // Cluster state

  function ClusterCurrent(cluster: string): (k: string)
    ensures k == "kcloud:cluster:" + cluster + ":current"
  {
    Layout3("cluster", cluster, "current");
    BuildKey(["cluster", cluster, "current"])
  }

  function ClusterStatus(cluster: string): (k: string)
    ensures k == "kcloud:cluster:" + cluster + ":status"
  {
    Layout3("cluster", cluster, "status");
    BuildKey(["cluster", cluster, "status"])
  }

  function ClusterConfig(cluster: string): (k: string)
    ensures k == "kcloud:cluster:" + cluster + ":config"
  {
    Layout3("cluster", cluster, "config");
    BuildKey(["cluster", cluster, "config"])
  }

  function ClusterList(): (k: string)
    ensures k == "kcloud:cluster:active_list"
  {
    Layout2("cluster", "active_list");
    BuildKey(["cluster", "active_list"])
  }

  // Metrics

  function MetricsLatest(cluster: string): (k: string)
    ensures k == "kcloud:metrics:" + cluster + ":latest"
  {
    Layout3("metrics", cluster, "latest");
    BuildKey(["metrics", cluster, "latest"])
  }

  /** `metrics_history(cluster, duration="1h")`. */
  function MetricsHistory(cluster: string, duration: string): (k: string)
    ensures k == "kcloud:metrics:" + cluster + ":history:" + duration
  {
    Layout4("metrics", cluster, "history", duration);
    BuildKey(["metrics", cluster, "history", duration])
  }

  const DefaultHistoryDuration := "1h"

  /** `metrics_summary(cluster, period="hour")`. */
  function MetricsSummary(cluster: string, period: string): (k: string)
    ensures k == "kcloud:metrics:" + cluster + ":summary:" + period
  {
    Layout4("metrics", cluster, "summary", period);
    BuildKey(["metrics", cluster, "summary", period])
  }

  // Alerts

  function AlertsActive(): (k: string)
    ensures k == "kcloud:alerts:active"
  {
    Layout2("alerts", "active");
    BuildKey(["alerts", "active"])
  }

  function AlertsByCluster(cluster: string): (k: string)
    ensures k == "kcloud:alerts:by_cluster:" + cluster
  {
    Layout3("alerts", "by_cluster", cluster);
    BuildKey(["alerts", "by_cluster", cluster])
  }

  /** The summary recovers the cluster name as the last ":"-segment of its
      per-cluster key. */
  lemma AlertsByClusterRoundTrip(cluster: string)
    requires Separator !in cluster
    ensures LastSegment(AlertsByCluster(cluster), Separator) == cluster
  {
    assert AlertsByCluster(cluster) == "kcloud:alerts:by_cluster" + [Separator] + cluster;
    LastSegmentOfJoin("kcloud:alerts:by_cluster", Separator, cluster);
  }

  /** The severity part is lower-cased. */
  function AlertsBySeverity(severity: string): (k: string)
    ensures k == "kcloud:alerts:by_severity:" + Lower(severity)
  {
    Layout3("alerts", "by_severity", Lower(severity));
    BuildKey(["alerts", "by_severity", Lower(severity)])
  }

  /** Severities that differ only in ASCII case share one key. */
  lemma SeverityKeyIgnoresCase(a: string, b: string)
    requires Lower(a) == Lower(b)
    ensures AlertsBySeverity(a) == AlertsBySeverity(b)
  {
  }

  lemma SeverityKeyExamples()
    ensures AlertsBySeverity("CRITICAL") == AlertsBySeverity("critical") == "kcloud:alerts:by_severity:critical"
  {
    assert Lower("CRITICAL") == "critical";
    assert Lower("critical") == "critical";
  }

  /** `alerts_history(date=None)`: a missing or empty date means today,
      formatted as %Y%m%d by the caller's clock. */
  function AlertsHistory(date: Option<string>, today: string): (k: string)
    ensures date.Some? && |date.value| > 0 ==> k == "kcloud:alerts:history:" + date.value
    ensures !(date.Some? && |date.value| > 0) ==> k == "kcloud:alerts:history:" + today
  {
    var d := if date.Some? && |date.value| > 0 then date.value else today;
    Layout3("alerts", "history", d);
    assert Namespace + ":" + "alerts" + ":" + "history" + ":" == "kcloud:alerts:history:";
    BuildKey(["alerts", "history", d])
  }

  function AlertCooldown(rule: string, cluster: string): (k: string)
    ensures k == "kcloud:alerts:cooldown:" + rule + ":" + cluster
  {
    Layout4("alerts", "cooldown", rule, cluster);
    BuildKey(["alerts", "cooldown", rule, cluster])
  }

  /** Distinct (rule, cluster) pairs get distinct cooldown keys as long as
      neither name contains ":". */
  lemma AlertCooldownInjective(r1: string, c1: string, r2: string, c2: string)
    requires Separator !in r1 && Separator !in c1 && Separator !in r2 && Separator !in c2
    requires AlertCooldown(r1, c1) == AlertCooldown(r2, c2)
    ensures r1 == r2 && c1 == c2
  {
    var p, q := ["alerts", "cooldown", r1, c1], ["alerts", "cooldown", r2, c2];
    assert NoSep(p) && NoSep(q);
    BuildKeyInjective(p, q);
    assert p[2] == q[2] && p[3] == q[3];
  }

  // Dashboard

  /** `dashboard_cache(timestamp=None)`: a missing or zero timestamp is
      replaced by the current second. */
  function DashboardCache(timestamp: Option<int>, now: int): (k: string)
    ensures timestamp.Some? && timestamp.value != 0 ==> k == "kcloud:dashboard:cache:" + IntToString(timestamp.value)
    ensures !(timestamp.Some? && timestamp.value != 0) ==> k == "kcloud:dashboard:cache:" + IntToString(now)
  {
    var t := if timestamp.Some? && timestamp.value != 0 then timestamp.value else now;
    Layout3("dashboard", "cache", IntToString(t));
    assert Namespace + ":" + "dashboard" + ":" + "cache" + ":" == "kcloud:dashboard:cache:";
    BuildKey(["dashboard", "cache", IntToString(t)])
  }

  function DashboardConfig(userId: string): (k: string)
    ensures k == "kcloud:dashboard:config:" + userId
  {
    Layout3("dashboard", "config", userId);
    BuildKey(["dashboard", "config", userId])
  }

  function DashboardWidgets(dashboardId: string): (k: string)
    ensures k == "kcloud:dashboard:widgets:" + dashboardId
  {
    Layout3("dashboard", "widgets", dashboardId);
    BuildKey(["dashboard", "widgets", dashboardId])
  }

  // Users

  function UserSession(userId: string): (k: string)
    ensures k == "kcloud:user:" + userId + ":session"
  {
    Layout3("user", userId, "session");
    BuildKey(["user", userId, "session"])
  }

  function UserPreferences(userId: string): (k: string)
    ensures k == "kcloud:user:" + userId + ":preferences"
  {
    Layout3("user", userId, "preferences");
    BuildKey(["user", userId, "preferences"])
  }

  function UserOnline(): (k: string)
    ensures k == "kcloud:user:online"
  {
    Layout2("user", "online");
    BuildKey(["user", "online"])
  }

  // Caches, statistics and locks

  function CacheApiResponse(endpoint: string, paramsHash: string): (k: string)
    ensures k == "kcloud:cache:api:" + endpoint + ":" + paramsHash
  {
    Layout4("cache", "api", endpoint, paramsHash);
    BuildKey(["cache", "api", endpoint, paramsHash])
  }

  function CacheQueryResult(queryHash: string): (k: string)
    ensures k == "kcloud:cache:query:" + queryHash
  {
    Layout3("cache", "query", queryHash);
    BuildKey(["cache", "query", queryHash])
  }

  function StatsHourly(cluster: string, hour: string): (k: string)
    ensures k == "kcloud:stats:hourly:" + cluster + ":" + hour
  {
    Layout4("stats", "hourly", cluster, hour);
    BuildKey(["stats", "hourly", cluster, hour])
  }

  function StatsDaily(cluster: string, date: string): (k: string)
    ensures k == "kcloud:stats:daily:" + cluster + ":" + date
  {
    Layout4("stats", "daily", cluster, date);
    BuildKey(["stats", "daily", cluster, date])
  }

  function StatsGlobal(metric: string): (k: string)
    ensures k == "kcloud:stats:global:" + metric
  {
    Layout3("stats", "global", metric);
    BuildKey(["stats", "global", metric])
  }

  function LockClusterOperation(cluster: string, operation: string): (k: string)
    ensures k == "kcloud:lock:cluster:" + cluster + ":" + operation
  {
    Layout4("lock", "cluster", cluster, operation);
    BuildKey(["lock", "cluster", cluster, operation])
  }

  function LockMetricsCollection(cluster: string): (k: string)
    ensures k == "kcloud:lock:metrics:" + cluster
  {
    Layout3("lock", "metrics", cluster);
    BuildKey(["lock", "metrics", cluster])
  }

  // Pub/sub channels

  const AlertsNewChannel := "kcloud:events:alerts:new"
  const AlertsResolvedChannel := "kcloud:events:alerts:resolved"
  const MetricsUpdatedChannel := "kcloud:events:metrics:updated"
  const MetricsBatchChannel := "kcloud:events:metrics:batch"
  const ClusterStatusChangedChannel := "kcloud:events:cluster:status"
  const ClusterCreatedChannel := "kcloud:events:cluster:created"
  const ClusterDeletedChannel := "kcloud:events:cluster:deleted"
  const DashboardRefreshChannel := "kcloud:events:dashboard:refresh"
  const UserActivityChannel := "kcloud:events:user:activity"

  /** A subscription pattern ending in "*" matches exactly the keys that
      start with the text before the "*". */
  predicate GlobMatches(pattern: string, key: string)
  {
    |pattern| > 0 && pattern[|pattern| - 1] == '*' && pattern[..|pattern| - 1] <= key
  }

  /** `cluster_events_pattern`: the event key layout of one cluster with
      "*" as its last part. */
  function ClusterEventsPattern(cluster: string): (p: string)
    ensures p == BuildKey(["events", "cluster", cluster, "*"])
  {
    Layout4("events", "cluster", cluster, "*");
    "kcloud:events:cluster:" + cluster + ":*"
  }

  /** `user_notifications_pattern`: the notification key layout of one user
      with "*" as its last part. */
  function UserNotificationsPattern(userId: string): (p: string)
    ensures p == BuildKey(["notifications", "user", userId, "*"])
  {
    Layout4("notifications", "user", userId, "*");
    "kcloud:notifications:user:" + userId + ":*"
  }

  /** Behind a common head, a separator-free segment followed by ":" is a
      prefix of another separator-free segment followed by ":" only when
      the two segments are equal. */
  lemma SegmentPrefix(head: string, a: string, b: string, rest: string)
    requires Separator !in a && Separator !in b
    requires head + a + ":" <= head + b + ":" + rest
    ensures a == b
  {
    var x, y := a + ":", b + ":" + rest;
    assert forall i :: 0 <= i < |x| ==> x[i] == (head + a + ":")[|head| + i] == (head + b + ":" + rest)[|head| + i] == y[i];
    assert x[|a|] == y[|a|] == ':';
    assert y[|b|] == ':';
    assert forall i :: 0 <= i < |a| ==> a[i] == x[i] == y[i] == b[i];
  }

  /** A pattern `<head><seg>:*` matches a key `<head><other>:<rest>`
      exactly when the two separator-free segments are equal. */
  lemma SegmentPatternMatch(head: string, seg: string, other: string, rest: string)
    requires Separator !in seg && Separator !in other
    ensures GlobMatches(head + seg + ":*", head + other + ":" + rest) <==> other == seg
  {
    var p := head + seg + ":*";
    assert p[..|p| - 1] == head + seg + ":";
    if other == seg {
      assert head + other + ":" + rest == (head + seg + ":") + rest;
    }
    if GlobMatches(p, head + other + ":" + rest) {
      SegmentPrefix(head, seg, other, rest);
    }
  }

  /** A cluster's event pattern matches an event key exactly when the key
      belongs to that cluster, whatever the event. */
  lemma ClusterEventsMatch(cluster: string, other: string, event: string)
    requires Separator !in cluster && Separator !in other
    ensures GlobMatches(ClusterEventsPattern(cluster), BuildKey(["events", "cluster", other, event])) <==> other == cluster
  {
    Layout4("events", "cluster", other, event);
    SegmentPatternMatch("kcloud:events:cluster:", cluster, other, event);
  }

  /** A user's notification pattern matches a notification key exactly when
      the key belongs to that user. */
  lemma UserNotificationsMatch(userId: string, other: string, note: string)
    requires Separator !in userId && Separator !in other
    ensures GlobMatches(UserNotificationsPattern(userId), BuildKey(["notifications", "user", other, note])) <==> other == userId
  {
    Layout4("notifications", "user", other, note);
    SegmentPatternMatch("kcloud:notifications:user:", userId, other, note);
  }

  // Expiry policy, in seconds

  const ClusterCurrentTtl := 60 * 5
  const MetricsLatestTtl := 60 * 2
  const MetricsHistoryTtlDefault := 60 * 60
  const AlertsActiveTtl := 60 * 60 * 24
  const DashboardCacheTtl := 30
  const UserSessionTtl := 60 * 60 * 4
  const ApiCacheTtl := 60 * 15
  const QueryCacheTtl := 60 * 5
  const LockTtl := 60 * 2

  /** `metrics_history_ttl`: the four known windows are kept twice as long
      (two weeks for 7d); anything else falls back to one hour. */
  function MetricsHistoryTtl(duration: string): (ttl: int)
    ensures duration == "1h" ==> ttl == 7200
    ensures duration == "6h" ==> ttl == 43200
    ensures duration == "24h" ==> ttl == 172800
    ensures duration == "7d" ==> ttl == 1209600
    ensures duration !in {"1h", "6h", "24h", "7d"} ==> ttl == MetricsHistoryTtlDefault == 3600
    ensures ttl >= 3600
  {
    if duration == "1h" then 60 * 60 * 2
    else if duration == "6h" then 60 * 60 * 12
    else if duration == "24h" then 60 * 60 * 48
    else if duration == "7d" then 60 * 60 * 24 * 14
    else MetricsHistoryTtlDefault
  }

  /** `alert_cooldown_ttl`: the cooldown in seconds plus a 10-second margin,
      so the key outlives the cooldown it enforces. */
  function AlertCooldownTtl(cooldownMinutes: int): (ttl: int)
    ensures ttl > cooldownMinutes * 60
    ensures ttl - cooldownMinutes * 60 == 10
  {
    cooldownMinutes * 60 + 10
  }
}
