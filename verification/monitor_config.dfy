/** Monitoring settings and the table of Magnum cluster templates the cost
    and power model prices against (monitoring/config.py). */
module MonitorConfig {
  import opened Wrappers

  /** Thresholds and pricing knobs of the monitoring layer. */
  datatype MonitoringConfig = MonitoringConfig(
    updateInterval: int,          // seconds between cycles
    historyRetention: int,        // snapshots kept per group
    alertRetention: int,
    highCostThreshold: real,      // $/hour
    lowEfficiencyThreshold: real, // percent
    lowHealthThreshold: real,     // percent
    highPowerThreshold: real,     // watts
    electricityRate: real,        // $/kWh
    coolingOverhead: real)        // power usage effectiveness factor

  const DefaultConfig := MonitoringConfig(30, 100, 50, 20.0, 30.0, 50.0, 10000.0, 0.12, 1.3)

  /** What the monitors know about a Magnum cluster template. */
  datatype ClusterTemplate = ClusterTemplate(
    templateId: string,
    name: string,
    baseCostPerHour: real,        // $ per worker node and hour
    hasGpu: bool,
    estimatedPowerPerNode: real)  // watts at full load

  const AiTemplateId := "ai-k8s-template"
  const DevTemplateId := "dev-k8s-template"
  const ProdTemplateId := "prod-k8s-template"

  const AiTemplate := ClusterTemplate(AiTemplateId, "AI/ML 워크로드용 GPU 템플릿", 1.20, true, 1200.0)
  const DevTemplate := ClusterTemplate(DevTemplateId, "개발용 CPU 템플릿", 0.15, false, 300.0)
  const ProdTemplate := ClusterTemplate(ProdTemplateId, "운영용 고성능 템플릿", 0.30, false, 500.0)

  /** The template table, in declaration order. */
  const Templates: seq<ClusterTemplate> := [AiTemplate, DevTemplate, ProdTemplate]

  function FindTemplate(table: seq<ClusterTemplate>, id: string): (r: Option<ClusterTemplate>)
    ensures r.Some? ==> r.value in table && r.value.templateId == id
    ensures r.None? ==> forall i :: 0 <= i < |table| ==> table[i].templateId != id
  {
    if |table| == 0 then None
    else if table[0].templateId == id then Some(table[0])
    else FindTemplate(table[1..], id)
  }

  /** `CLUSTER_TEMPLATES.get(template_name)`: the entry for one of the three
      known ids, `None` for anything else. */
  function GetClusterTemplate(id: string): (r: Option<ClusterTemplate>)
    ensures id == AiTemplateId ==> r == Some(AiTemplate)
    ensures id == DevTemplateId ==> r == Some(DevTemplate)
    ensures id == ProdTemplateId ==> r == Some(ProdTemplate)
    ensures id !in {AiTemplateId, DevTemplateId, ProdTemplateId} ==> r.None?
  {
    var tail := [DevTemplate, ProdTemplate];
    assert Templates[1..] == tail && tail[1..] == [ProdTemplate];
    assert id != AiTemplateId ==> FindTemplate(Templates, id) == FindTemplate(tail, id);
    assert id != DevTemplateId ==> FindTemplate(tail, id) == FindTemplate([ProdTemplate], id);
    FindTemplate(Templates, id)
  }

  /** Only the AI template has GPUs; every template has a positive price and
      a positive per-node power draw. */
  lemma TemplateTableFacts(id: string)
    requires GetClusterTemplate(id).Some?
    ensures GetClusterTemplate(id).value.hasGpu <==> id == AiTemplateId
    ensures GetClusterTemplate(id).value.baseCostPerHour > 0.0
    ensures GetClusterTemplate(id).value.estimatedPowerPerNode > 0.0
  {
  }

  /** A well-formed configuration: the defaults satisfy it. */
  predicate ValidConfig(c: MonitoringConfig)
  {
    c.electricityRate >= 0.0 && c.coolingOverhead >= 1.0 && c.historyRetention > 0
  }

  lemma DefaultConfigValid()
    ensures ValidConfig(DefaultConfig)
    ensures DefaultConfig.electricityRate == 0.12 && DefaultConfig.coolingOverhead == 1.3
    ensures DefaultConfig.highCostThreshold == 20.0 && DefaultConfig.lowEfficiencyThreshold == 30.0
    ensures DefaultConfig.lowHealthThreshold == 50.0 && DefaultConfig.highPowerThreshold == 10000.0
    ensures DefaultConfig.historyRetention == 100
  {
  }
}
