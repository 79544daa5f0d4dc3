/**
 * The real-time data collector (scripts/collect_realtime_data.py): a per-instance-type
 * power model, a per-region carbon model, the six-metric snapshot of an instance, and the
 * loop that turns every running instance into one workload row and one energy row.
 */
module Collector {
  import opened Wrappers
  import opened Ec2

  // ---------------------------------------------------------------------------------------
  // Power model
  // ---------------------------------------------------------------------------------------

  /** Base power in watts of the instance types the collector knows. */
  const InstanceBasePower: map<string, int> :=
    map["t2.micro" := 2, "t2.small" := 4, "t2.medium" := 8,
        "t3.micro" := 2, "t3.small" := 4, "t3.medium" := 8]

  /** Base power used for an instance type missing from the table. */
  const DefaultBasePower: int := 5

  /** Base power of an instance type: a table lookup that silently falls back, never an error. */
  function BasePower(instanceType: string): (watts: int)
    ensures watts in {2, 4, 5, 8}
    ensures instanceType !in InstanceBasePower ==> watts == DefaultBasePower
  {
    if instanceType in InstanceBasePower then InstanceBasePower[instanceType] else DefaultBasePower
  }

  /** Maximum power is two and a half times the base power. */
  function MaxPower(instanceType: string): (watts: real)
    ensures watts == 2.5 * BasePower(instanceType) as real
  {
    BasePower(instanceType) as real * 2.5
  }

  /**
   * Power drawn at a CPU utilisation (percent): linear interpolation between the base and
   * the maximum power of the instance type. Utilisation is not clamped.
   */
  function EstimateEnergyConsumption(cpuUtilization: real, instanceType: string): (watts: real)
    ensures cpuUtilization == 0.0 ==> watts == BasePower(instanceType) as real
    ensures cpuUtilization == 100.0 ==> watts == MaxPower(instanceType)
    ensures 0.0 <= cpuUtilization <= 100.0 ==>
              BasePower(instanceType) as real <= watts <= MaxPower(instanceType)
  {
    var base := BasePower(instanceType) as real;
    base + (MaxPower(instanceType) - base) * (cpuUtilization / 100.0)
  }

  /** The table entries and the fallback, as the collector states them. */
  lemma BasePowerTable(instanceType: string)
    ensures instanceType in {"t2.micro", "t3.micro"} ==> BasePower(instanceType) == 2
    ensures instanceType in {"t2.small", "t3.small"} ==> BasePower(instanceType) == 4
    ensures instanceType in {"t2.medium", "t3.medium"} ==> BasePower(instanceType) == 8
    ensures instanceType !in {"t2.micro", "t2.small", "t2.medium", "t3.micro", "t3.small", "t3.medium"} ==>
              BasePower(instanceType) == 5 && MaxPower(instanceType) == 12.5
  {
  }

  /** For a fixed instance type, more CPU never means less power. */
  lemma EnergyMonotone(c1: real, c2: real, instanceType: string)
    requires c1 <= c2
    ensures EstimateEnergyConsumption(c1, instanceType) <= EstimateEnergyConsumption(c2, instanceType)
  {
    var base := BasePower(instanceType) as real;
    assert MaxPower(instanceType) - base == 1.5 * base;
    assert base > 0.0;
  }

  /** The power curve is affine in the utilisation: the increase is 1.5 % of base per CPU point. */
  lemma EnergyAffine(c1: real, c2: real, instanceType: string)
    ensures EstimateEnergyConsumption(c2, instanceType) - EstimateEnergyConsumption(c1, instanceType)
            == 1.5 * BasePower(instanceType) as real * (c2 - c1) / 100.0
  {
  }

  /** The worked example: a t3.medium at half load draws 14 W. */
  lemma EnergyExample()
    ensures EstimateEnergyConsumption(50.0, "t3.medium") == 14.0
  {
  }

  // ---------------------------------------------------------------------------------------
  // Carbon model
  // ---------------------------------------------------------------------------------------

  /** Carbon intensity in gCO2/kWh of the regions the collector knows. */
  const CarbonFactors: map<string, int> :=
    map["us-east-1" := 400, "eu-west-1" := 200, "ap-southeast-1" := 600]

  /** Carbon intensity used for a region missing from the table. */
  const DefaultCarbonFactor: int := 500

  /** Carbon intensity of a region: a table lookup with a silent fallback. */
  function CarbonFactor(region: string): (factor: int)
    ensures factor in {200, 400, 500, 600}
    ensures region !in CarbonFactors ==> factor == DefaultCarbonFactor
  {
    if region in CarbonFactors then CarbonFactors[region] else DefaultCarbonFactor
  }

  /**
   * Carbon footprint of an energy figure in a region, with the source's exact arithmetic
   * `(energy / 1000) * factor` (the units are not corrected).
   */
  function EstimateCarbonFootprint(energyConsumption: real, region: string): (carbon: real)
    ensures energyConsumption >= 0.0 ==> carbon >= 0.0
    ensures energyConsumption == 0.0 ==> carbon == 0.0
    ensures carbon * 1000.0 == energyConsumption * CarbonFactor(region) as real
  {
    (energyConsumption / 1000.0) * CarbonFactor(region) as real
  }

  /** The carbon table entries and the fallback. */
  lemma CarbonFactorTable(region: string)
    ensures region == "us-east-1" ==> CarbonFactor(region) == 400
    ensures region == "eu-west-1" ==> CarbonFactor(region) == 200
    ensures region == "ap-southeast-1" ==> CarbonFactor(region) == 600
    ensures region !in {"us-east-1", "eu-west-1", "ap-southeast-1"} ==> CarbonFactor(region) == 500
  {
  }

  /** The carbon estimate is linear in the energy for a fixed region. */
  lemma CarbonLinear(e1: real, e2: real, k: real, region: string)
    ensures EstimateCarbonFootprint(k * e1 + e2, region)
            == k * EstimateCarbonFootprint(e1, region) + EstimateCarbonFootprint(e2, region)
  {
  }

  /** The worked example: 14 W in us-east-1 gives 5.6. */
  lemma CarbonExample()
    ensures EstimateCarbonFootprint(14.0, "us-east-1") == 5.6
  {
  }

  // ---------------------------------------------------------------------------------------
  // Instance metrics
  // ---------------------------------------------------------------------------------------

  /** The metrics requested for every instance, in request order. */
  const MetricNames: seq<string> :=
    ["CPUUtilization", "MemoryUtilization", "NetworkIn", "NetworkOut", "DiskReadBytes", "DiskWriteBytes"]

  /**
   * A metrics service: for an instance id and a metric name, the `Average` of every datapoint
   * of the answer, or `None` when the call raised.
   */
  type MetricsService = (string, string) -> Option<seq<real>>

  /** The value kept for one metric: the first datapoint's average, or 0 when there is none. */
  function Reading(datapoints: seq<real>): (value: real)
    ensures |datapoints| == 0 ==> value == 0.0
    ensures |datapoints| > 0 ==> value == datapoints[0]
  {
    if |datapoints| > 0 then datapoints[0] else 0.0
  }

  /** Whether every call for the given metric names succeeded. */
  predicate AllAnswered(service: MetricsService, instanceId: string, names: seq<string>)
  {
    forall i :: 0 <= i < |names| ==> service(instanceId, names[i]).Some?
  }

  /**
   * The map filled by the metric loop after the given names, one assignment per name in order;
   * its keys are exactly those names.
   */
  function Snapshot(service: MetricsService, instanceId: string, names: seq<string>): (snapshot: map<string, real>)
    requires AllAnswered(service, instanceId, names)
    ensures snapshot.Keys == set name | name in names
  {
    if |names| == 0 then map[]
    else
      var init := names[..|names| - 1];
      var last := names[|names| - 1];
      assert names == init + [last];
      Snapshot(service, instanceId, init)[last := Reading(service(instanceId, last).value)]
  }

  /** One more answered name: the prefix stays answered and the map gains that name's reading. */
  lemma SnapshotStep(service: MetricsService, instanceId: string, names: seq<string>, i: nat)
    requires i < |names|
    requires AllAnswered(service, instanceId, names[..i]) && service(instanceId, names[i]).Some?
    ensures AllAnswered(service, instanceId, names[..i + 1])
    ensures Snapshot(service, instanceId, names[..i + 1]) ==
            Snapshot(service, instanceId, names[..i])[names[i] := Reading(service(instanceId, names[i]).value)]
  {
    assert names[..i + 1][..i] == names[..i];
    assert names[..i + 1][i] == names[i];
  }

  /** The filled map has exactly the requested names as keys, each holding its own metric's reading. */
  lemma {:induction false} SnapshotContents(service: MetricsService, instanceId: string, names: seq<string>, name: string)
    requires AllAnswered(service, instanceId, names)
    ensures name in Snapshot(service, instanceId, names) <==> name in names
    ensures name in names ==> Snapshot(service, instanceId, names)[name] == Reading(service(instanceId, name).value)
  {
    if |names| > 0 {
      var init := names[..|names| - 1];
      assert AllAnswered(service, instanceId, init) by {
        forall i | 0 <= i < |init| ensures service(instanceId, init[i]).Some? {
          assert init[i] == names[i];
        }
      }
      SnapshotContents(service, instanceId, init, name);
      assert names == init + [names[|names| - 1]];
    }
  }

  /** A snapshot that holds all six requested metrics. */
  predicate Complete(metrics: map<string, real>)
  {
    && "CPUUtilization" in metrics && "MemoryUtilization" in metrics
    && "NetworkIn" in metrics && "NetworkOut" in metrics
    && "DiskReadBytes" in metrics && "DiskWriteBytes" in metrics
  }

  /** After all six names the filled map is complete and holds each metric's own reading. */
  lemma SnapshotOfMetricNames(service: MetricsService, instanceId: string)
    requires AllAnswered(service, instanceId, MetricNames)
    ensures Complete(Snapshot(service, instanceId, MetricNames))
    ensures forall name :: name in Snapshot(service, instanceId, MetricNames) <==> name in MetricNames
    ensures forall name :: name in MetricNames ==>
              Snapshot(service, instanceId, MetricNames)[name] == Reading(service(instanceId, name).value)
  {
    forall name ensures name in Snapshot(service, instanceId, MetricNames) <==> name in MetricNames
                ensures name in MetricNames ==>
                          Snapshot(service, instanceId, MetricNames)[name] == Reading(service(instanceId, name).value)
    {
      SnapshotContents(service, instanceId, MetricNames, name);
    }
    assert MetricNames[0] in MetricNames && MetricNames[1] in MetricNames && MetricNames[2] in MetricNames;
    assert MetricNames[3] in MetricNames && MetricNames[4] in MetricNames && MetricNames[5] in MetricNames;
  }

  /**
   * After all six names the filled map is complete. This is the first fact of
   * `SnapshotOfMetricNames` on its own: `InstanceMetrics` calls it in its body, whose definition
   * then carries only this fact and not the per-name readings.
   */
  lemma SnapshotComplete(service: MetricsService, instanceId: string)
    requires AllAnswered(service, instanceId, MetricNames)
    ensures Complete(Snapshot(service, instanceId, MetricNames))
  {
    SnapshotOfMetricNames(service, instanceId);
  }

  /**
   * The snapshot `get_instance_metrics` returns: `None` when any call raised, otherwise the
   * filled map, which holds all six metrics.
   */
  function InstanceMetrics(service: MetricsService, instanceId: string): (snapshot: Option<map<string, real>>)
    ensures snapshot.Some? <==> AllAnswered(service, instanceId, MetricNames)
    ensures snapshot.Some? ==> Complete(snapshot.value)
  {
    if AllAnswered(service, instanceId, MetricNames) then
      SnapshotComplete(service, instanceId);
      Some(Snapshot(service, instanceId, MetricNames))
    else None
  }

  /**
   * A snapshot holds a reading for every requested metric (0 for a metric without datapoints)
   * and nothing else.
   */
  lemma InstanceMetricsContents(service: MetricsService, instanceId: string)
    ensures var snapshot := InstanceMetrics(service, instanceId);
            && (snapshot.Some? ==> snapshot.value.Keys == set name | name in MetricNames)
            && (snapshot.Some? ==> forall name :: name in MetricNames ==>
                  snapshot.value[name] == Reading(service(instanceId, name).value))
  {
    if AllAnswered(service, instanceId, MetricNames) {
      SnapshotOfMetricNames(service, instanceId);
    }
  }

  /** The metric loop of `get_instance_metrics`: one call per metric name, giving up at the first that raises. */
  method GetInstanceMetrics(service: MetricsService, instanceId: string) returns (snapshot: Option<map<string, real>>)
    ensures snapshot == InstanceMetrics(service, instanceId)
  {
    var metrics: map<string, real> := map[];
    var i := 0;
    while i < |MetricNames|
      invariant 0 <= i <= |MetricNames|
      invariant AllAnswered(service, instanceId, MetricNames[..i])
      invariant metrics == Snapshot(service, instanceId, MetricNames[..i])
    {
      var response := service(instanceId, MetricNames[i]);
      if response.None? {
        return None;
      }
      SnapshotStep(service, instanceId, MetricNames, i);
      if |response.value| > 0 {
        metrics := metrics[MetricNames[i] := response.value[0]];
      } else {
        metrics := metrics[MetricNames[i] := 0.0];
      }
      i := i + 1;
    }
    assert MetricNames[..i] == MetricNames;
    snapshot := Some(metrics);
  }

  // ---------------------------------------------------------------------------------------
  // Row building
  // ---------------------------------------------------------------------------------------

  /** A row of the workload table. */
  datatype WorkloadRow = WorkloadRow(
    timestamp: string, cpuUtilization: real, memoryUsage: real,
    networkIn: real, networkOut: real, workloadDemand: int)

  /** A row of the energy table. */
  datatype EnergyRow = EnergyRow(
    timestamp: string, instanceId: string, instanceType: string, region: string,
    energyConsumption: real, carbonFootprint: real, cpuUtilization: real, memoryUsage: real)

  /** Python's `int()` on a float: truncation toward zero. */
  function Truncate(x: real): (n: int)
    ensures x >= 0.0 ==> n as real <= x < n as real + 1.0
    ensures x < 0.0 ==> n as real - 1.0 < x <= n as real
  {
    if x >= 0.0 then x.Floor else -((-x).Floor)
  }

  /** `max(1, int(cpu / 20))`: a demand of at least one, one more per full 20 CPU points. */
  function WorkloadDemand(cpuUtilization: real): (demand: int)
    ensures demand >= 1
    ensures cpuUtilization >= 0.0 ==> demand == if (cpuUtilization / 20.0).Floor < 1 then 1 else (cpuUtilization / 20.0).Floor
    ensures cpuUtilization < 40.0 ==> demand == 1
  {
    var t := Truncate(cpuUtilization / 20.0);
    if t < 1 then 1 else t
  }

  /**
   * The workload row of one observed instance: the snapshot's readings and the demand estimated
   * from its CPU. The memory column is read with a default of 0, but a complete snapshot always
   * holds `MemoryUtilization`, so the default is never used.
   */
  function WorkloadRowOf(timestamp: string, metrics: map<string, real>): (row: WorkloadRow)
    requires Complete(metrics)
    ensures row.memoryUsage == metrics["MemoryUtilization"]
    ensures row.cpuUtilization == metrics["CPUUtilization"] && row.timestamp == timestamp
    ensures row.networkIn == metrics["NetworkIn"] && row.networkOut == metrics["NetworkOut"]
    ensures row.workloadDemand == WorkloadDemand(row.cpuUtilization) && row.workloadDemand >= 1
  {
    var cpu := metrics["CPUUtilization"];
    WorkloadRow(timestamp, cpu, GetOr(metrics, "MemoryUtilization", 0.0),
                metrics["NetworkIn"], metrics["NetworkOut"], WorkloadDemand(cpu))
  }

  /**
   * The energy row of one observed instance: the power model at the snapshot's CPU reading, and
   * the carbon estimate of that power in the region derived from the zone.
   */
  function EnergyRowOf(timestamp: string, instance: Instance, metrics: map<string, real>): (row: EnergyRow)
    requires Complete(metrics)
    ensures row.memoryUsage == metrics["MemoryUtilization"]
    ensures row.cpuUtilization == metrics["CPUUtilization"]
    ensures row.instanceId == instance.instanceId && row.instanceType == instance.instanceType
    ensures row.region == RegionOf(instance.availabilityZone)
    ensures row.energyConsumption == EstimateEnergyConsumption(row.cpuUtilization, instance.instanceType)
    ensures row.carbonFootprint == EstimateCarbonFootprint(row.energyConsumption, row.region)
    ensures row.timestamp == timestamp
  {
    var cpu := metrics["CPUUtilization"];
    var region := RegionOf(instance.availabilityZone);
    var energy := EstimateEnergyConsumption(cpu, instance.instanceType);
    EnergyRow(timestamp, instance.instanceId, instance.instanceType, region,
              energy, EstimateCarbonFootprint(energy, region), cpu, GetOr(metrics, "MemoryUtilization", 0.0))
  }

  /** The snapshot lookup the collection loop performs for each instance id. */
  function Lookup(service: MetricsService): string -> Option<map<string, real>>
  {
    id => InstanceMetrics(service, id)
  }

  /** Every snapshot the filter keeps holds all six metrics. */
  lemma ObservedComplete(instances: seq<Instance>, service: MetricsService, k: nat)
    requires k < |Observed(instances, Lookup(service))|
    ensures Complete(Observed(instances, Lookup(service))[k].1)
  {
    var entry := Observed(instances, Lookup(service))[k];
    ObservedMembers(instances, Lookup(service), entry.0, entry.1);
  }

  /** The workload rows of the observed instances, in order. */
  function WorkloadRows(timestamp: string, instances: seq<Instance>, service: MetricsService): (rows: seq<WorkloadRow>)
    ensures |rows| == |Observed(instances, Lookup(service))|
  {
    var obs := Observed(instances, Lookup(service));
    seq(|obs|, k requires 0 <= k < |obs| =>
      ObservedComplete(instances, service, k);
      WorkloadRowOf(timestamp, obs[k].1))
  }

  /** The energy rows of the observed instances, in order. */
  function EnergyRows(timestamp: string, instances: seq<Instance>, service: MetricsService): (rows: seq<EnergyRow>)
    ensures |rows| == |Observed(instances, Lookup(service))|
  {
    var obs := Observed(instances, Lookup(service));
    seq(|obs|, k requires 0 <= k < |obs| =>
      ObservedComplete(instances, service, k);
      EnergyRowOf(timestamp, obs[k].0, obs[k].1))
  }

  /** One more visited instance adds one workload row when its snapshot exists, none otherwise. */
  lemma WorkloadRowsStep(timestamp: string, instances: seq<Instance>, x: Instance, service: MetricsService)
    ensures InstanceMetrics(service, x.instanceId).None? ==>
              WorkloadRows(timestamp, instances + [x], service) == WorkloadRows(timestamp, instances, service)
    ensures InstanceMetrics(service, x.instanceId).Some? ==>
              WorkloadRows(timestamp, instances + [x], service) ==
              WorkloadRows(timestamp, instances, service) + [WorkloadRowOf(timestamp, InstanceMetrics(service, x.instanceId).value)]
  {
    var lookup := Lookup(service);
    ObservedAppend(instances, [x], lookup);
    ObservedOne(x, lookup);
    assert lookup(x.instanceId) == InstanceMetrics(service, x.instanceId);
    var before := WorkloadRows(timestamp, instances, service);
    var after := WorkloadRows(timestamp, instances + [x], service);
    var obs := Observed(instances, lookup);
    var obs' := Observed(instances + [x], lookup);
    var m := InstanceMetrics(service, x.instanceId);
    if m.None? {
      assert obs' == obs;
    } else {
      assert obs' == obs + [(x, m.value)];
      assert |after| == |before| + 1;
      forall k | 0 <= k < |after| ensures after[k] == (before + [WorkloadRowOf(timestamp, m.value)])[k] {
        if k < |before| {
          assert obs'[k] == obs[k];
        } else {
          assert obs'[k] == (x, m.value);
        }
      }
    }
  }

  /** One more visited instance adds one energy row when its snapshot exists, none otherwise. */
  lemma EnergyRowsStep(timestamp: string, instances: seq<Instance>, x: Instance, service: MetricsService)
    ensures InstanceMetrics(service, x.instanceId).None? ==>
              EnergyRows(timestamp, instances + [x], service) == EnergyRows(timestamp, instances, service)
    ensures InstanceMetrics(service, x.instanceId).Some? ==>
              EnergyRows(timestamp, instances + [x], service) ==
              EnergyRows(timestamp, instances, service) + [EnergyRowOf(timestamp, x, InstanceMetrics(service, x.instanceId).value)]
  {
    var lookup := Lookup(service);
    ObservedAppend(instances, [x], lookup);
    ObservedOne(x, lookup);
    assert lookup(x.instanceId) == InstanceMetrics(service, x.instanceId);
    var before := EnergyRows(timestamp, instances, service);
    var after := EnergyRows(timestamp, instances + [x], service);
    var obs := Observed(instances, lookup);
    var obs' := Observed(instances + [x], lookup);
    var m := InstanceMetrics(service, x.instanceId);
    if m.None? {
      assert obs' == obs;
    } else {
      assert obs' == obs + [(x, m.value)];
      assert |after| == |before| + 1;
      forall k | 0 <= k < |after| ensures after[k] == (before + [EnergyRowOf(timestamp, x, m.value)])[k] {
        if k < |before| {
          assert obs'[k] == obs[k];
        } else {
          assert obs'[k] == (x, m.value);
        }
      }
    }
  }

  /** Visiting instance `i` of a reservation extends both tables by that instance's rows, if it has a snapshot. */
  lemma ReservationStep(timestamp: string, visited: seq<Instance>, reservation: Reservation, i: nat, service: MetricsService)
    requires i < |reservation|
    ensures var x := reservation[i];
            var before := visited + reservation[..i];
            var after := visited + reservation[..i + 1];
            && (InstanceMetrics(service, x.instanceId).None? ==>
                  WorkloadRows(timestamp, after, service) == WorkloadRows(timestamp, before, service)
                  && EnergyRows(timestamp, after, service) == EnergyRows(timestamp, before, service))
            && (InstanceMetrics(service, x.instanceId).Some? ==>
                  WorkloadRows(timestamp, after, service) ==
                    WorkloadRows(timestamp, before, service) + [WorkloadRowOf(timestamp, InstanceMetrics(service, x.instanceId).value)]
                  && EnergyRows(timestamp, after, service) ==
                    EnergyRows(timestamp, before, service) + [EnergyRowOf(timestamp, x, InstanceMetrics(service, x.instanceId).value)])
  {
    assert visited + reservation[..i + 1] == (visited + reservation[..i]) + [reservation[i]];
    WorkloadRowsStep(timestamp, visited + reservation[..i], reservation[i], service);
    EnergyRowsStep(timestamp, visited + reservation[..i], reservation[i], service);
  }

  /** The inner loop of `collect_and_save_data`: the instances of one reservation, appended after those already visited. */
  method CollectReservation(timestamp: string, visited: seq<Instance>, reservation: Reservation, service: MetricsService,
                            workloadIn: seq<WorkloadRow>, energyIn: seq<EnergyRow>)
    returns (workloadData: seq<WorkloadRow>, energyMetrics: seq<EnergyRow>)
    requires workloadIn == WorkloadRows(timestamp, visited, service)
    requires energyIn == EnergyRows(timestamp, visited, service)
    ensures workloadData == WorkloadRows(timestamp, visited + reservation, service)
    ensures energyMetrics == EnergyRows(timestamp, visited + reservation, service)
  {
    workloadData, energyMetrics := workloadIn, energyIn;
    var i := 0;
    assert visited + reservation[..0] == visited;
    while i < |reservation|
      invariant 0 <= i <= |reservation|
      invariant workloadData == WorkloadRows(timestamp, visited + reservation[..i], service)
      invariant energyMetrics == EnergyRows(timestamp, visited + reservation[..i], service)
    {
      var instance := reservation[i];
      var metrics := GetInstanceMetrics(service, instance.instanceId);
      ReservationStep(timestamp, visited, reservation, i, service);
      if metrics.Some? {
        workloadData := workloadData + [WorkloadRowOf(timestamp, metrics.value)];
        energyMetrics := energyMetrics + [EnergyRowOf(timestamp, instance, metrics.value)];
      }
      i := i + 1;
    }
    assert reservation[..i] == reservation;
  }

  /**
   * The row-building loops of `collect_and_save_data`: for every instance of every reservation,
   * fetch its snapshot and, when there is one, append a workload row and an energy row.
   */
  method CollectRows(timestamp: string, reservations: seq<Reservation>, service: MetricsService)
    returns (workloadData: seq<WorkloadRow>, energyMetrics: seq<EnergyRow>)
    ensures workloadData == WorkloadRows(timestamp, Flatten(reservations), service)
    ensures energyMetrics == EnergyRows(timestamp, Flatten(reservations), service)
  {
    workloadData, energyMetrics := [], [];
    var r := 0;
    while r < |reservations|
      invariant 0 <= r <= |reservations|
      invariant workloadData == WorkloadRows(timestamp, Flatten(reservations[..r]), service)
      invariant energyMetrics == EnergyRows(timestamp, Flatten(reservations[..r]), service)
    {
      workloadData, energyMetrics :=
        CollectReservation(timestamp, Flatten(reservations[..r]), reservations[r], service, workloadData, energyMetrics);
      FlattenStep(reservations, r);
      r := r + 1;
    }
    assert reservations[..r] == reservations;
  }

  /**
   * `collect_and_save_data` up to the CSV writes: the rows of every running instance, or no
   * rows at all when `describe_instances` raised (the exception is caught and logged).
   */
  method CollectAndSaveData(timestamp: string, described: Described, service: MetricsService)
    returns (workloadData: seq<WorkloadRow>, energyMetrics: seq<EnergyRow>)
    ensures described.DescribeFailed? ==> workloadData == [] && energyMetrics == []
    ensures described.Described? ==>
              && workloadData == WorkloadRows(timestamp, Flatten(described.reservations), service)
              && energyMetrics == EnergyRows(timestamp, Flatten(described.reservations), service)
  {
    if described.DescribeFailed? {
      return [], [];
    }
    workloadData, energyMetrics := CollectRows(timestamp, described.reservations, service);
  }

  /** The two tables line up: row k of each comes from the same instance and the same snapshot. */
  lemma RowsAligned(timestamp: string, instances: seq<Instance>, service: MetricsService, k: nat)
    requires k < |EnergyRows(timestamp, instances, service)|
    ensures |WorkloadRows(timestamp, instances, service)| == |EnergyRows(timestamp, instances, service)|
    ensures var w := WorkloadRows(timestamp, instances, service)[k];
            var e := EnergyRows(timestamp, instances, service)[k];
            w.cpuUtilization == e.cpuUtilization && w.memoryUsage == e.memoryUsage && w.timestamp == e.timestamp
  {
  }

  /**
   * Every energy row comes from a visited instance whose snapshot exists; its region is that
   * instance's zone minus the last character, its CPU and memory columns are that snapshot's
   * readings (memory never falls back to 0), and its carbon figure is the carbon estimate of
   * the row's own energy in the row's own region.
   */
  lemma EnergyRowFacts(timestamp: string, instances: seq<Instance>, service: MetricsService, k: nat)
    requires k < |EnergyRows(timestamp, instances, service)|
    ensures var e := EnergyRows(timestamp, instances, service)[k];
            && e.carbonFootprint == EstimateCarbonFootprint(e.energyConsumption, e.region)
            && exists x :: x in instances && InstanceMetrics(service, x.instanceId).Some?
                 && e.instanceId == x.instanceId && e.instanceType == x.instanceType
                 && e.region == RegionOf(x.availabilityZone)
                 && e.cpuUtilization == InstanceMetrics(service, x.instanceId).value["CPUUtilization"]
                 && e.memoryUsage == InstanceMetrics(service, x.instanceId).value["MemoryUtilization"]
                 && e.energyConsumption == EstimateEnergyConsumption(e.cpuUtilization, x.instanceType)
  {
    var obs := Observed(instances, Lookup(service));
    var entry := obs[k];
    ObservedMembers(instances, Lookup(service), entry.0, entry.1);
    assert Lookup(service)(entry.0.instanceId) == InstanceMetrics(service, entry.0.instanceId);
  }

  /**
   * Every workload row comes from a visited instance whose snapshot exists: its CPU, memory and
   * network columns are that snapshot's readings, its timestamp is the collection time, and its
   * demand is `max(1, int(cpu / 20))` of its own CPU column, so at least one.
   */
  lemma WorkloadRowFacts(timestamp: string, instances: seq<Instance>, service: MetricsService, k: nat)
    requires k < |WorkloadRows(timestamp, instances, service)|
    ensures var w := WorkloadRows(timestamp, instances, service)[k];
            && w.timestamp == timestamp
            && w.workloadDemand == WorkloadDemand(w.cpuUtilization) && w.workloadDemand >= 1
            && exists x :: x in instances && InstanceMetrics(service, x.instanceId).Some?
                 && w.cpuUtilization == InstanceMetrics(service, x.instanceId).value["CPUUtilization"]
                 && w.memoryUsage == InstanceMetrics(service, x.instanceId).value["MemoryUtilization"]
                 && w.networkIn == InstanceMetrics(service, x.instanceId).value["NetworkIn"]
                 && w.networkOut == InstanceMetrics(service, x.instanceId).value["NetworkOut"]
  {
    var obs := Observed(instances, Lookup(service));
    var entry := obs[k];
    ObservedMembers(instances, Lookup(service), entry.0, entry.1);
    assert Lookup(service)(entry.0.instanceId) == InstanceMetrics(service, entry.0.instanceId);
  }
}
