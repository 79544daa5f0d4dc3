/**
 * The energy monitor (src/energy_monitoring.py): per-metric datapoint series for an instance,
 * a fixed-range power model over the mean CPU utilisation, the same per-region carbon model
 * as the collector, and the loop that turns every running instance into one monitoring record.
 */
module Monitor {
  import opened Wrappers
  import opened Ec2

  // ---------------------------------------------------------------------------------------
  // Instance metrics
  // ---------------------------------------------------------------------------------------

  /** One datapoint of a metrics answer. */
  datatype Datapoint = Datapoint(timestamp: string, average: real)

  /** One stored sample: the datapoint's `Timestamp` and its `Average` kept as `value`. */
  datatype Sample = Sample(timestamp: string, value: real)

  /**
   * A metrics service: for an instance id and a metric name, the datapoints of the answer
   * in the order the answer lists them, or `None` when the call raised.
   */
  type MetricsService = (string, string) -> Option<seq<Datapoint>>

  /** The series kept per instance, in the dictionary's key order. */
  const MetricNames: seq<string> :=
    ["CPUUtilization", "NetworkIn", "NetworkOut", "DiskReadBytes", "DiskWriteBytes"]

  /** The dictionary before any call: every series of `names` present and empty. */
  function Initial(names: seq<string>): (metrics: map<string, seq<Sample>>)
    ensures forall name :: name in names ==> name in metrics && metrics[name] == []
  {
    map name | name in names :: []
  }

  /** The samples of an answer's datapoints, in answer order. */
  function Samples(datapoints: seq<Datapoint>): (samples: seq<Sample>)
    ensures |samples| == |datapoints|
    ensures forall k :: 0 <= k < |datapoints| ==>
              samples[k] == Sample(datapoints[k].timestamp, datapoints[k].average)
  {
    if |datapoints| == 0 then []
    else Samples(datapoints[..|datapoints| - 1]) + [Sample(datapoints[|datapoints| - 1].timestamp, datapoints[|datapoints| - 1].average)]
  }

  /** Whether the calls for the first `count` of `names` all succeeded. */
  predicate AnsweredUpTo(service: MetricsService, instanceId: string, names: seq<string>, count: nat)
    requires count <= |names|
  {
    forall i :: 0 <= i < count ==> service(instanceId, names[i]).Some?
  }

  /** The dictionary after the first `count` of `names`: each name's samples appended to its list. */
  function Filled(service: MetricsService, instanceId: string, names: seq<string>, count: nat)
    : (metrics: map<string, seq<Sample>>)
    requires count <= |names|
    requires AnsweredUpTo(service, instanceId, names, count)
    ensures forall name :: name in names ==> name in metrics
  {
    if count == 0 then Initial(names)
    else
      var previous := Filled(service, instanceId, names, count - 1);
      var name := names[count - 1];
      previous[name := previous[name] + Samples(service(instanceId, name).value)]
  }

  /** The dictionary holds exactly the keys of `names`, whatever the number of calls answered. */
  lemma {:induction false} FilledKeys(service: MetricsService, instanceId: string, names: seq<string>, count: nat)
    requires count <= |names|
    requires AnsweredUpTo(service, instanceId, names, count)
    ensures Filled(service, instanceId, names, count).Keys == set name | name in names
  {
    if count > 0 {
      FilledKeys(service, instanceId, names, count - 1);
    }
  }

  /** No name occurs twice. */
  predicate Distinct(names: seq<string>)
  {
    forall i, j :: 0 <= i < j < |names| ==> names[i] != names[j]
  }

  /** The five metric keys are distinct, as the keys of a dictionary literal must be. */
  lemma MetricNamesDistinct()
    ensures Distinct(MetricNames)
  {
  }

  /** Answering name `count - 1` appends that answer's samples to its list. */
  lemma FilledStep(service: MetricsService, instanceId: string, names: seq<string>, count: nat)
    requires 0 < count <= |names|
    requires AnsweredUpTo(service, instanceId, names, count)
    ensures AnsweredUpTo(service, instanceId, names, count - 1)
    ensures Filled(service, instanceId, names, count)[names[count - 1]] ==
              Filled(service, instanceId, names, count - 1)[names[count - 1]] + Samples(service(instanceId, names[count - 1]).value)
  {
    assert names[count - 1] in names;
  }

  /** Answering name `count - 1` leaves the list of every other name as it was. */
  lemma FilledUnchanged(service: MetricsService, instanceId: string, names: seq<string>, count: nat, name: string)
    requires 0 < count <= |names| && name in names && name != names[count - 1]
    requires AnsweredUpTo(service, instanceId, names, count)
    ensures AnsweredUpTo(service, instanceId, names, count - 1)
    ensures Filled(service, instanceId, names, count)[name] == Filled(service, instanceId, names, count - 1)[name]
  {
  }

  /** A name after the first `count` of a list of distinct names still holds the empty list. */
  lemma {:induction false} FilledLater(service: MetricsService, instanceId: string, names: seq<string>, count: nat, j: nat)
    requires count <= j < |names| && Distinct(names)
    requires AnsweredUpTo(service, instanceId, names, count)
    ensures Filled(service, instanceId, names, count)[names[j]] == []
  {
    assert names[j] in names;
    if count > 0 {
      assert names[count - 1] != names[j];
      FilledUnchanged(service, instanceId, names, count, names[j]);
      FilledLater(service, instanceId, names, count - 1, j);
    }
  }

  /** A name among the first `count` of a list of distinct names holds exactly its own answer's samples. */
  lemma {:induction false} FilledEarlier(service: MetricsService, instanceId: string, names: seq<string>, count: nat, j: nat)
    requires j < count <= |names| && Distinct(names)
    requires AnsweredUpTo(service, instanceId, names, count)
    ensures Filled(service, instanceId, names, count)[names[j]] == Samples(service(instanceId, names[j]).value)
  {
    if j == count - 1 {
      FilledStep(service, instanceId, names, count);
      FilledLater(service, instanceId, names, count - 1, j);
      assert [] + Samples(service(instanceId, names[j]).value) == Samples(service(instanceId, names[j]).value);
    } else {
      assert names[j] != names[count - 1];
      assert names[j] in names;
      FilledUnchanged(service, instanceId, names, count, names[j]);
      FilledEarlier(service, instanceId, names, count - 1, j);
    }
  }

  /** After all five metric names, each name holds exactly its own answer's samples. */
  lemma FilledMetricNames(service: MetricsService, instanceId: string)
    requires AnsweredUpTo(service, instanceId, MetricNames, |MetricNames|)
    ensures forall j :: 0 <= j < |MetricNames| ==>
              Filled(service, instanceId, MetricNames, |MetricNames|)[MetricNames[j]] ==
              Samples(service(instanceId, MetricNames[j]).value)
  {
    MetricNamesDistinct();
    forall j | 0 <= j < |MetricNames|
      ensures Filled(service, instanceId, MetricNames, |MetricNames|)[MetricNames[j]] ==
              Samples(service(instanceId, MetricNames[j]).value)
    {
      FilledEarlier(service, instanceId, MetricNames, |MetricNames|, j);
    }
  }

  /** What `get_instance_metrics` returns: `None` when any call raised, otherwise the filled dictionary. */
  function InstanceMetrics(service: MetricsService, instanceId: string): (result: Option<map<string, seq<Sample>>>)
    ensures result.Some? <==> AnsweredUpTo(service, instanceId, MetricNames, |MetricNames|)
  {
    if AnsweredUpTo(service, instanceId, MetricNames, |MetricNames|) then
      Some(Filled(service, instanceId, MetricNames, |MetricNames|))
    else None
  }

  /**
   * When every call answered, the dictionary holds exactly the five metric keys, each with its
   * answer's datapoints in answer order.
   */
  lemma InstanceMetricsContents(service: MetricsService, instanceId: string)
    ensures var result := InstanceMetrics(service, instanceId);
            && (result.Some? ==> result.value.Keys == set name | name in MetricNames)
            && (result.Some? ==> forall j :: 0 <= j < |MetricNames| ==>
                  result.value[MetricNames[j]] == Samples(service(instanceId, MetricNames[j]).value))
  {
    if AnsweredUpTo(service, instanceId, MetricNames, |MetricNames|) {
      FilledMetricNames(service, instanceId);
      FilledKeys(service, instanceId, MetricNames, |MetricNames|);
    }
  }

  /** The inner loop of `get_instance_metrics`: append one sample per datapoint to the list under `name`. */
  method AppendDatapoints(metricsIn: map<string, seq<Sample>>, name: string, datapoints: seq<Datapoint>)
    returns (metrics: map<string, seq<Sample>>)
    requires name in metricsIn
    ensures metrics == metricsIn[name := metricsIn[name] + Samples(datapoints)]
  {
    metrics := metricsIn;
    assert datapoints[..0] == [];
    assert metricsIn[name] + Samples(datapoints[..0]) == metricsIn[name];
    assert metricsIn[name := metricsIn[name]] == metricsIn;
    var j := 0;
    while j < |datapoints|
      invariant 0 <= j <= |datapoints|
      invariant metrics == metricsIn[name := metricsIn[name] + Samples(datapoints[..j])]
    {
      assert datapoints[..j + 1][..j] == datapoints[..j];
      var sample := Sample(datapoints[j].timestamp, datapoints[j].average);
      assert metricsIn[name] + Samples(datapoints[..j + 1]) == (metricsIn[name] + Samples(datapoints[..j])) + [sample];
      metrics := metrics[name := metrics[name] + [sample]];
      j := j + 1;
    }
    assert datapoints[..j] == datapoints;
  }

  /** The metric loop of `get_instance_metrics`: one call per name, giving up at the first that raises. */
  method GetInstanceMetrics(service: MetricsService, instanceId: string) returns (result: Option<map<string, seq<Sample>>>)
    ensures result == InstanceMetrics(service, instanceId)
  {
    var metrics := Initial(MetricNames);
    var i := 0;
    while i < |MetricNames|
      invariant 0 <= i <= |MetricNames|
      invariant AnsweredUpTo(service, instanceId, MetricNames, i)
      invariant metrics == Filled(service, instanceId, MetricNames, i)
    {
      var name := MetricNames[i];
      var response := service(instanceId, name);
      if response.None? {
        return None;
      }
      assert name in metrics;
      assert AnsweredUpTo(service, instanceId, MetricNames, i + 1);
      metrics := AppendDatapoints(metrics, name, response.value);
      i := i + 1;
    }
    result := Some(metrics);
  }

  // ---------------------------------------------------------------------------------------
  // Power model
  // ---------------------------------------------------------------------------------------

  /** Sum of the sample values. */
  function Sum(samples: seq<Sample>): real
  {
    if |samples| == 0 then 0.0 else Sum(samples[..|samples| - 1]) + samples[|samples| - 1].value
  }

  /**
   * Arithmetic mean of the sample values (the `value` column's `mean()`); the mean of
   * utilisations in [0, 100] is itself in [0, 100].
   */
  function Mean(samples: seq<Sample>): (mean: real)
    requires |samples| > 0
    ensures InPercentRange(samples) ==> 0.0 <= mean <= 100.0
  {
    var n := |samples| as real;
    if InPercentRange(samples) then
      SumBounds(samples);
      assert Sum(samples) / n <= 100.0 * n / n;
      Sum(samples) / n
    else Sum(samples) / n
  }

  /** Power at a mean CPU utilisation: interpolation between 100 W and 200 W. */
  function PowerAtMean(avgCpu: real): (watts: real)
    ensures watts == 100.0 + avgCpu
    ensures 0.0 <= avgCpu <= 100.0 ==> 100.0 <= watts <= 200.0
  {
    var basePower := 100.0;
    var maxPower := 200.0;
    basePower + (maxPower - basePower) * (avgCpu / 100.0)
  }

  /**
   * `calculate_energy_consumption`: the power at the mean of the `CPUUtilization` series;
   * 0 for an empty series, and 0 when the key is missing (the error path).
   */
  function CalculateEnergyConsumption(metrics: map<string, seq<Sample>>): (watts: real)
    ensures "CPUUtilization" !in metrics ==> watts == 0.0
    ensures "CPUUtilization" in metrics && |metrics["CPUUtilization"]| == 0 ==> watts == 0.0
    ensures "CPUUtilization" in metrics && |metrics["CPUUtilization"]| > 0 ==>
              watts == 100.0 + Mean(metrics["CPUUtilization"])
  {
    if "CPUUtilization" !in metrics then 0.0
    else
      var cpu := metrics["CPUUtilization"];
      if |cpu| == 0 then 0.0 else PowerAtMean(Mean(cpu))
  }

  /** Whether every sample value lies in the utilisation range [0, 100]. */
  predicate InPercentRange(samples: seq<Sample>)
  {
    forall k :: 0 <= k < |samples| ==> 0.0 <= samples[k].value <= 100.0
  }

  /** The sum of samples in [0, 100] lies between 0 and 100 times their count. */
  lemma {:induction false} SumBounds(samples: seq<Sample>)
    requires InPercentRange(samples)
    ensures 0.0 <= Sum(samples) <= 100.0 * |samples| as real
  {
    if |samples| > 0 {
      var init := samples[..|samples| - 1];
      assert InPercentRange(init) by {
        forall k | 0 <= k < |init| ensures 0.0 <= init[k].value <= 100.0 {
          assert init[k] == samples[k];
        }
      }
      SumBounds(init);
    }
  }

  /** With a non-empty series whose every sample is in [0, 100], the power lies in [100, 200]. */
  lemma EnergyBounds(metrics: map<string, seq<Sample>>)
    requires "CPUUtilization" in metrics && |metrics["CPUUtilization"]| > 0
    requires InPercentRange(metrics["CPUUtilization"])
    ensures 100.0 <= CalculateEnergyConsumption(metrics) <= 200.0
  {
  }

  /** A higher mean CPU utilisation never gives lower power. */
  lemma EnergyMonotoneInMean(a: map<string, seq<Sample>>, b: map<string, seq<Sample>>)
    requires "CPUUtilization" in a && |a["CPUUtilization"]| > 0
    requires "CPUUtilization" in b && |b["CPUUtilization"]| > 0
    requires Mean(a["CPUUtilization"]) <= Mean(b["CPUUtilization"])
    ensures CalculateEnergyConsumption(a) <= CalculateEnergyConsumption(b)
  {
  }

  // ---------------------------------------------------------------------------------------
  // Carbon model
  // ---------------------------------------------------------------------------------------

  /** Carbon intensity in gCO2/kWh of the regions the monitor knows. */
  const CarbonFactors: map<string, int> :=
    map["us-east-1" := 400, "eu-west-1" := 200, "ap-southeast-1" := 600]

  /** Carbon intensity of a region, 500 when the region is unknown. */
  function CarbonFactor(region: string): (factor: int)
    ensures factor in {200, 400, 500, 600}
    ensures region !in CarbonFactors ==> factor == 500
  {
    if region in CarbonFactors then CarbonFactors[region] else 500
  }

  /** Carbon footprint with the source's exact arithmetic `(energy / 1000) * factor`. */
  function EstimateCarbonFootprint(energyConsumption: real, region: string): (carbon: real)
    ensures energyConsumption >= 0.0 ==> carbon >= 0.0
    ensures carbon * 1000.0 == energyConsumption * CarbonFactor(region) as real
  {
    (energyConsumption / 1000.0) * CarbonFactor(region) as real
  }

  // ---------------------------------------------------------------------------------------
  // Record building
  // ---------------------------------------------------------------------------------------

  /** One entry of `monitoring_data`. */
  datatype Record = Record(
    instanceId: string, instanceType: string, region: string,
    energyConsumption: real, carbonFootprint: real, metrics: map<string, seq<Sample>>)

  /**
   * The record of one observed instance: its energy computed from its own series, and the
   * carbon estimate of that energy in the region derived from the zone.
   */
  function RecordOf(instance: Instance, metrics: map<string, seq<Sample>>): (rec: Record)
    ensures rec.instanceId == instance.instanceId && rec.instanceType == instance.instanceType && rec.metrics == metrics
    ensures |instance.availabilityZone| > 0 ==>
              rec.region + [instance.availabilityZone[|instance.availabilityZone| - 1]] == instance.availabilityZone
    ensures "CPUUtilization" !in metrics ==> rec.energyConsumption == 0.0 && rec.carbonFootprint == 0.0
    ensures "CPUUtilization" in metrics && |metrics["CPUUtilization"]| > 0 && InPercentRange(metrics["CPUUtilization"]) ==>
              100.0 <= rec.energyConsumption <= 200.0
    ensures rec.carbonFootprint * 1000.0 == rec.energyConsumption * CarbonFactor(rec.region) as real
  {
    var region := RegionOf(instance.availabilityZone);
    var energy := CalculateEnergyConsumption(metrics);
    Record(instance.instanceId, instance.instanceType, region, energy, EstimateCarbonFootprint(energy, region), metrics)
  }

  /** The metrics lookup the monitoring loop performs for each instance id. */
  function Lookup(service: MetricsService): string -> Option<map<string, seq<Sample>>>
  {
    id => InstanceMetrics(service, id)
  }

  /** The records of the observed instances, in visiting order. */
  function Records(instances: seq<Instance>, service: MetricsService): (records: seq<Record>)
    ensures |records| == |Observed(instances, Lookup(service))|
  {
    var obs := Observed(instances, Lookup(service));
    seq(|obs|, k requires 0 <= k < |obs| => RecordOf(obs[k].0, obs[k].1))
  }

  /** One more visited instance adds one record when its metrics exist and none otherwise. */
  lemma RecordsStep(instances: seq<Instance>, x: Instance, service: MetricsService)
    ensures InstanceMetrics(service, x.instanceId).None? ==>
              Records(instances + [x], service) == Records(instances, service)
    ensures InstanceMetrics(service, x.instanceId).Some? ==>
              Records(instances + [x], service) ==
              Records(instances, service) + [RecordOf(x, InstanceMetrics(service, x.instanceId).value)]
  {
    ObservedAppend(instances, [x], Lookup(service));
    ObservedOne(x, Lookup(service));
  }

  /** The body of the inner loop of `monitor_instances`: one instance's record, when its metrics exist. */
  method MonitorInstance(ghost visited: seq<Instance>, instance: Instance, service: MetricsService, recordsIn: seq<Record>)
    returns (monitoringData: seq<Record>)
    requires recordsIn == Records(visited, service)
    ensures monitoringData == Records(visited + [instance], service)
  {
    var metrics := GetInstanceMetrics(service, instance.instanceId);
    RecordsStep(visited, instance, service);
    monitoringData := recordsIn;
    if metrics.Some? {
      monitoringData := monitoringData + [RecordOf(instance, metrics.value)];
    }
  }

  /** The inner loop of `monitor_instances`: the instances of one reservation, after those already visited. */
  method MonitorReservation(visited: seq<Instance>, reservation: Reservation, service: MetricsService, recordsIn: seq<Record>)
    returns (monitoringData: seq<Record>)
    requires recordsIn == Records(visited, service)
    ensures monitoringData == Records(visited + reservation, service)
  {
    monitoringData := recordsIn;
    ghost var prefix := visited;
    var i := 0;
    while i < |reservation|
      invariant 0 <= i <= |reservation|
      invariant prefix == visited + reservation[..i]
      invariant monitoringData == Records(prefix, service)
    {
      monitoringData := MonitorInstance(prefix, reservation[i], service, monitoringData);
      prefix := prefix + [reservation[i]];
      assert reservation[..i + 1] == reservation[..i] + [reservation[i]];
      i := i + 1;
    }
    assert reservation[..i] == reservation;
  }

  /** The loops of `monitor_instances`: one record per instance whose metrics exist, in visiting order. */
  method MonitorReservations(reservations: seq<Reservation>, service: MetricsService) returns (monitoringData: seq<Record>)
    ensures monitoringData == Records(Flatten(reservations), service)
  {
    monitoringData := [];
    var r := 0;
    while r < |reservations|
      invariant 0 <= r <= |reservations|
      invariant monitoringData == Records(Flatten(reservations[..r]), service)
    {
      monitoringData := MonitorReservation(Flatten(reservations[..r]), reservations[r], service, monitoringData);
      FlattenStep(reservations, r);
      r := r + 1;
    }
    assert reservations[..r] == reservations;
  }

  /** `monitor_instances`: the records of every running instance, or `[]` when `describe_instances` raised. */
  method MonitorInstances(described: Described, service: MetricsService) returns (monitoringData: seq<Record>)
    ensures described.DescribeFailed? ==> monitoringData == []
    ensures described.Described? ==> monitoringData == Records(Flatten(described.reservations), service)
  {
    if described.DescribeFailed? {
      return [];
    }
    monitoringData := MonitorReservations(described.reservations, service);
  }

  /**
   * Every record comes from a visited instance whose metrics exist; its region is the zone
   * minus its last character, its energy is computed from those metrics, and its carbon figure
   * is the carbon estimate of its own energy in its own region.
   */
  lemma RecordFacts(instances: seq<Instance>, service: MetricsService, k: nat)
    requires k < |Records(instances, service)|
    ensures var rec := Records(instances, service)[k];
            && rec.carbonFootprint == EstimateCarbonFootprint(rec.energyConsumption, rec.region)
            && rec.energyConsumption == CalculateEnergyConsumption(rec.metrics)
            && exists x :: x in instances && InstanceMetrics(service, x.instanceId) == Some(rec.metrics)
                 && rec.instanceId == x.instanceId && rec.instanceType == x.instanceType
                 && rec.region == RegionOf(x.availabilityZone)
  {
    var obs := Observed(instances, Lookup(service));
    var entry := obs[k];
    ObservedMembers(instances, Lookup(service), entry.0, entry.1);
    assert Lookup(service)(entry.0.instanceId) == InstanceMetrics(service, entry.0.instanceId);
  }
}
