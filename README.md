# Energy and carbon estimation core of an energy-aware workload allocator

This project models, in Dafny, the estimation and allocation core of a small cloud
"energy-aware adaptive workload allocation" system written in Python. The system polls a
cloud metrics service for every running compute instance. From the CPU utilisation it
derives a power figure and a carbon figure, writes them to tables and a monitoring feed,
and allocates a new workload to the instance with the lowest energy figure.

The core is spread over four source files. The model has one module per file, plus two
shared modules:

- `Collector` (`collector.dfy`, for `scripts/collect_realtime_data.py`) models four things:
  - the per-instance-type power model: a table of base watts with a 5 W fallback, a maximum
    of 2.5 × base, and linear interpolation on CPU %;
  - the per-region carbon model: a table with a 500 g/kWh fallback and the arithmetic
    `(energy / 1000) * factor`, kept exactly as written;
  - the six-metric snapshot of an instance, where a metric without datapoints reads 0;
  - the nested loops that add one workload row and one energy row per instance that has a
    snapshot.
- `Monitor` (`monitor.dfy`, for `src/energy_monitoring.py`) models:
  - the five per-metric datapoint series of an instance;
  - the fixed 100–200 W power model over the mean CPU. It gives 0 for an empty series or a
    missing key.
  - the duplicated carbon model;
  - the record-building loops of `monitor_instances`.
- `Allocator` (`allocator.dfy`, for `src/workload_allocator.py`) models:
  - the candidate-gathering loops;
  - the first-minimum selection that Python's `min` performs, where the earliest candidate
    wins a tie;
  - the error result when there is no candidate;
  - the scale-out threshold test.
- `Api` (`api.dfy`, for `src/api_integration.py`) models:
  - the regional sustainability table;
  - the two GET endpoints. A 404 raised inside their `try` leaves them as a 500, and so does
    a helper object whose construction fails there;
  - the construction of `EnergyMonitor`, whose gauges can be registered only once per process;
  - the S3 bucket and key of `store_metrics`;
  - the numeric filter of `publish_cloudwatch_metrics`.
- `Ec2` (`ec2.dfy`) holds the shared parts:
  - the described instances and reservations;
  - `zone[:-1]` as the region;
  - the order-preserving filter "skip instances whose metrics lookup returned `None`", used
    by all three loops.
- `Consistency` (`consistency.dfy`) proves that the three copies of the region table agree.
- `Wrappers` (`wrappers.dfy`) holds `Option` and `dict.get` with a default.

Cloud SDK calls are parameters of the model:
- a metrics service is a total function from an instance id and a metric name to the
  datapoints, or to `None` when the call raised;
- `describe_instances` is a value that holds either the reservations or the text of the
  exception it raised.

Watts and percentages are exact `real`s. Python's `int()` truncation and `zone[:-1]` on an
empty string are written out.

Three choices in the model follow the code where its comments might suggest otherwise:
- Carbon: both estimators compute `(energy / 1000) * factor`, and the model keeps exactly that,
  although the comment at `scripts/collect_realtime_data.py:101` calls the result kg CO2. With a
  factor in g/kWh and a figure in W, the result is neither grams nor kilograms of a stated
  period. For example, 14 W in us-east-1 gives 5.6.
- CPU range: no estimator clamps the CPU utilisation. The energy results hold for every input,
  and the range results (power between base and 2.5 × base, or between 100 and 200 W) require a
  utilisation in [0, 100].
- Empty candidate list: `allocate_workload` raises "No suitable instances found for workload
  allocation" and catches it in its own handler, which returns
  `{'status': 'error', 'message': ...}`. The model returns `Allocation.Error` with that text.
  No exception reaches the caller.

## Model

| member | source | states |
|---|---|---|
| `Collector.BasePower` | scripts/collect_realtime_data.py:73-83 | base power is one of 2, 4, 8 or the fallback 5; an unknown type gets 5, never an error |
| `Collector.BasePowerTable` | scripts/collect_realtime_data.py:73-84 | t2/t3 micro = 2, small = 4, medium = 8; any other type has base 5 and max 12.5 |
| `Collector.MaxPower` | scripts/collect_realtime_data.py:84 | max power is exactly 2.5 × base power |
| `Collector.EstimateEnergyConsumption` | scripts/collect_realtime_data.py:70-88 | at 0 % CPU the power is base, at 100 % it is 2.5 × base, and for CPU in [0,100] it lies in [base, 2.5 × base] |
| `Collector.EnergyMonotone` | scripts/collect_realtime_data.py:84-87 | for a fixed type, more CPU never gives less power |
| `Collector.EnergyAffine` | scripts/collect_realtime_data.py:86-87 | power rises by 1.5 % of base per CPU point (linear interpolation) |
| `Collector.EnergyExample` | scripts/collect_realtime_data.py:87 | t3.medium at 50 % draws 14.0 |
| `Collector.CarbonFactor` | scripts/collect_realtime_data.py:93-100 | the factor is one of 200, 400, 600 or the fallback 500; unknown regions get 500 |
| `Collector.CarbonFactorTable` | scripts/collect_realtime_data.py:93-100 | us-east-1 = 400, eu-west-1 = 200, ap-southeast-1 = 600, any other region 500 |
| `Collector.EstimateCarbonFootprint` | scripts/collect_realtime_data.py:90-101 | carbon × 1000 = energy × factor; non-negative for non-negative energy; 0 for 0 energy |
| `Collector.CarbonLinear` | scripts/collect_realtime_data.py:101 | carbon(k·e1 + e2) = k·carbon(e1) + carbon(e2) for a fixed region |
| `Collector.CarbonExample` | scripts/collect_realtime_data.py:100-101 | 14.0 in us-east-1 gives 5.6 |
| `Collector.Reading` | scripts/collect_realtime_data.py:59-62 | a metric with no datapoints reads 0; otherwise it reads the first datapoint's average |
| `Collector.Snapshot` | scripts/collect_realtime_data.py:48-62 | the map filled by the metric loop has exactly the answered names as keys |
| `Collector.SnapshotStep` | scripts/collect_realtime_data.py:48-62 | one more answered name keeps the prefix answered and sets that name to its reading, leaving the rest of the map as it was |
| `Collector.SnapshotContents` | scripts/collect_realtime_data.py:48-62 | after the loop over a list of names, the map's keys are exactly those names, each holding its own metric's reading |
| `Collector.SnapshotOfMetricNames` | scripts/collect_realtime_data.py:39-62 | after the six requested names, the map holds all six and nothing else |
| `Collector.SnapshotComplete` | scripts/collect_realtime_data.py:39-62 | after the six requested names the map holds all six metrics |
| `Collector.InstanceMetrics` | scripts/collect_realtime_data.py:35-68 | the result is `None` iff some call raised; otherwise the snapshot holds all six metrics |
| `Collector.InstanceMetricsContents` | scripts/collect_realtime_data.py:35-68 | a snapshot's keys are exactly the six requested names, each with its reading (0 when it has no datapoints) |
| `Collector.GetInstanceMetrics` | scripts/collect_realtime_data.py:48-64 | the metric loop returns exactly `InstanceMetrics` |
| `Collector.Truncate` | scripts/collect_realtime_data.py:142 | Python `int()`: truncation toward zero on both signs |
| `Collector.WorkloadDemand` | scripts/collect_realtime_data.py:142 | demand ≥ 1; for CPU ≥ 0 it is max(1, ⌊cpu/20⌋); below 40 % CPU it is 1 |
| `Wrappers.GetOr` | scripts/collect_realtime_data.py:139 | `get(key, default)` is the stored value for a present key and the default for an absent one |
| `Collector.WorkloadRowOf` | scripts/collect_realtime_data.py:135-143 | the row's CPU, memory, network-in and network-out are the snapshot's readings (the memory default of 0 never applies to a complete snapshot), its timestamp is the collection time, and its demand is `WorkloadDemand` of its CPU, max(1, int(cpu / 20)) |
| `Collector.EnergyRowOf` | scripts/collect_realtime_data.py:119-155 | the row's CPU and memory are the snapshot's readings, its id and type are the instance's, its region is the zone minus its last character, its energy is the power model at that CPU for the instance's type, its carbon is the carbon estimate of its own energy in that region, and its timestamp is the collection time |
| `Collector.ObservedComplete` | scripts/collect_realtime_data.py:123-124 | every snapshot the filter keeps holds all six metrics |
| `Collector.WorkloadRows` | scripts/collect_realtime_data.py:136-143 | one workload row per instance that has a snapshot |
| `Collector.EnergyRows` | scripts/collect_realtime_data.py:146-155 | one energy row per instance that has a snapshot |
| `Collector.WorkloadRowsStep` | scripts/collect_realtime_data.py:123-143 | an instance with a snapshot adds exactly its workload row, at the end; an instance without one adds nothing |
| `Collector.EnergyRowsStep` | scripts/collect_realtime_data.py:123-155 | an instance with a snapshot adds exactly its energy row, at the end; an instance without one adds nothing |
| `Collector.ReservationStep` | scripts/collect_realtime_data.py:118-155 | visiting instance i of a reservation extends both tables by that instance's rows when it has a snapshot, and leaves them unchanged otherwise |
| `Collector.CollectReservation` | scripts/collect_realtime_data.py:118-155 | the inner loop extends both tables with exactly the rows of one reservation's instances |
| `Collector.CollectRows` | scripts/collect_realtime_data.py:117-155 | the nested loops produce exactly the rows of the flattened instances, in order |
| `Collector.CollectAndSaveData` | scripts/collect_realtime_data.py:103-179 | no rows when `describe_instances` raised; otherwise the rows of all running instances |
| `Collector.RowsAligned` | scripts/collect_realtime_data.py:136-155 | the tables have equal length, and row k of each has the same CPU, memory and timestamp |
| `Collector.EnergyRowFacts` | scripts/collect_realtime_data.py:119-133 | every energy row comes from a visited instance with a snapshot; its region is the zone minus its last character; its CPU and memory are that snapshot's readings; its energy is the power model at that CPU for the instance's type; its carbon is the carbon estimate of its own energy and region |
| `Collector.WorkloadRowFacts` | scripts/collect_realtime_data.py:119-143 | every workload row comes from a visited instance with a snapshot; its CPU, memory, network-in and network-out columns are that snapshot's readings; its timestamp is the collection time; its demand is `WorkloadDemand` of its own CPU, so at least 1 |
| `Ec2.Flatten` | scripts/collect_realtime_data.py:117-118 | no reservations, no instances |
| `Ec2.FlattenStep` | scripts/collect_realtime_data.py:117-118 | visiting one more reservation appends exactly its instances |
| `Ec2.FlattenMembers` | src/energy_monitoring.py:137-138 | an instance is visited iff some reservation holds it |
| `Ec2.RegionOf` | scripts/collect_realtime_data.py:121 | the region plus the zone's last character is the zone; an empty zone gives the empty region |
| `Ec2.Observed` | scripts/collect_realtime_data.py:123-124 | the filter keeps at most as many entries as there are instances |
| `Ec2.ObservedAppend` | src/energy_monitoring.py:137-144 | the filter over a concatenation is the concatenation of the filters: order is kept and each instance is treated alone |
| `Ec2.ObservedOne` | src/workload_allocator.py:92-94 | one instance contributes its entry iff its lookup did not return `None` |
| `Ec2.ObservedMembers` | src/workload_allocator.py:90-94 | an (instance, value) pair is kept iff the instance was visited and its lookup returned that value |
| `Monitor.Initial` | src/energy_monitoring.py:61-67 | before any call, every metric name is a key holding the empty list |
| `Monitor.Samples` | src/energy_monitoring.py:80-84 | one sample per datapoint, in answer order, with the datapoint's timestamp and average |
| `Monitor.Filled` | src/energy_monitoring.py:61-84 | after any number of answered calls, every metric name is still a key |
| `Monitor.FilledKeys` | src/energy_monitoring.py:61-84 | the metric loop never adds or removes keys: they stay exactly the metric names |
| `Monitor.MetricNamesDistinct` | src/energy_monitoring.py:61-67 | the five metric keys are distinct |
| `Monitor.FilledStep` | src/energy_monitoring.py:69-84 | answering one more metric appends its samples to that metric's list |
| `Monitor.FilledUnchanged` | src/energy_monitoring.py:69-84 | answering one more metric leaves every other metric's list unchanged |
| `Monitor.FilledLater` | src/energy_monitoring.py:61-84 | with distinct names, a name not yet answered still holds the empty list |
| `Monitor.FilledEarlier` | src/energy_monitoring.py:61-84 | with distinct names, a name already answered holds exactly its own samples |
| `Monitor.FilledMetricNames` | src/energy_monitoring.py:61-86 | after all five calls, each metric name holds exactly its own answer's samples |
| `Monitor.InstanceMetrics` | src/energy_monitoring.py:55-90 | the result is `None` iff some call raised |
| `Monitor.InstanceMetricsContents` | src/energy_monitoring.py:55-90 | a dictionary that is returned has exactly the five names as keys, each with its datapoints in response order |
| `Monitor.AppendDatapoints` | src/energy_monitoring.py:80-84 | the inner loop appends the samples of all datapoints to the named list and changes nothing else |
| `Monitor.GetInstanceMetrics` | src/energy_monitoring.py:69-86 | the loops return exactly `InstanceMetrics` |
| `Monitor.Mean` | src/energy_monitoring.py:99 | the mean of samples in [0, 100] lies in [0, 100] |
| `Monitor.PowerAtMean` | src/energy_monitoring.py:99-104 | power = 100 + mean, in [100, 200] for a mean in [0, 100] |
| `Monitor.CalculateEnergyConsumption` | src/energy_monitoring.py:92-108 | a missing `CPUUtilization` key gives 0, an empty series gives 0, and a non-empty series gives 100 + mean |
| `Monitor.SumBounds` | src/energy_monitoring.py:97-99 | the sum of n samples in [0,100] lies in [0, 100·n] |
| `Monitor.EnergyBounds` | src/energy_monitoring.py:102-104 | with every sample in [0,100] the power lies in [100, 200] |
| `Monitor.EnergyMonotoneInMean` | src/energy_monitoring.py:102-104 | a higher mean CPU never gives lower power |
| `Monitor.CarbonFactor` | src/energy_monitoring.py:115-121 | the factor is one of 200, 400, 600 or 500, and 500 for an unknown region |
| `Monitor.EstimateCarbonFootprint` | src/energy_monitoring.py:110-127 | carbon × 1000 = energy × factor; non-negative for non-negative energy |
| `Monitor.RecordOf` | src/energy_monitoring.py:139-168 | the record keeps the instance's id and type and its own metrics; its region is the zone minus its last character; a missing CPU series gives 0 energy and 0 carbon; a non-empty series in [0, 100] gives energy in [100, 200]; carbon × 1000 = energy × the region's factor |
| `Monitor.Records` | src/energy_monitoring.py:136-168 | one record per instance whose metrics exist |
| `Monitor.RecordsStep` | src/energy_monitoring.py:143-168 | an instance with metrics adds exactly its record at the end; one without adds nothing |
| `Monitor.MonitorInstance` | src/energy_monitoring.py:139-168 | the loop body appends exactly the instance's record when its metrics exist, and nothing otherwise |
| `Monitor.MonitorReservation` | src/energy_monitoring.py:138-168 | the inner loop appends exactly the records of one reservation |
| `Monitor.MonitorReservations` | src/energy_monitoring.py:136-170 | the nested loops produce exactly the records of the flattened instances, in order |
| `Monitor.MonitorInstances` | src/energy_monitoring.py:129-174 | `[]` when `describe_instances` raised; otherwise the records of all running instances |
| `Monitor.RecordFacts` | src/energy_monitoring.py:139-168 | each record's carbon is the carbon estimate of its own energy and region; its energy comes from its own metrics; its region is the zone minus its last character; it comes from a visited instance whose metrics exist |
| `Allocator.Candidates` | src/workload_allocator.py:89-94 | one candidate per instance whose lookup succeeded |
| `Allocator.CandidatesMembers` | src/workload_allocator.py:90-94 | a candidate is listed iff a visited instance has that id and its lookup returned that figure; instances whose lookup returned `None` are excluded |
| `Allocator.CandidatesStep` | src/workload_allocator.py:92-94 | one more instance appends its candidate iff its lookup succeeded |
| `Allocator.GatherReservation` | src/workload_allocator.py:91-94 | the inner loop appends exactly the candidates of one reservation |
| `Allocator.GatherCandidates` | src/workload_allocator.py:89-94 | the loops produce exactly the candidates of the flattened instances, in order |
| `Allocator.FirstMinIndex` | src/workload_allocator.py:98-101 | the chosen index has a figure ≤ every candidate's and < every earlier candidate's (ties go to the first) |
| `Allocator.FirstMinimumBefore` | src/workload_allocator.py:98-101 | a first minimum is strictly below every earlier candidate |
| `Allocator.FirstMinimumUnique` | src/workload_allocator.py:98-101 | at most one index is a first minimum, so the tie rule decides the choice |
| `Allocator.Select` | src/workload_allocator.py:97-119 | error with "No suitable instances found for workload allocation" iff there is no candidate; otherwise success with the first minimum's id and its own figure |
| `Allocator.SelectIsMinimal` | src/workload_allocator.py:97-110 | with any candidate present the result is a success whose figure is ≤ every candidate's |
| `Allocator.SelectExample` | src/workload_allocator.py:98-101 | [a:10, b:5, c:5] allocates b with 5 |
| `Allocator.AllocateWorkload` | src/workload_allocator.py:80-119 | the error carries the exception text when `describe_instances` raised; otherwise the result is the selection over the gathered candidates, whatever the workload |
| `Allocator.AllocationFacts` | src/workload_allocator.py:89-112 | error iff no instance's lookup succeeded; on success the chosen instance was visited and its lookup gave the reported figure, and no instance whose lookup succeeded has a smaller figure |
| `Allocator.ScaleOutTriggered` | src/workload_allocator.py:121-128 | scale out iff the reported consumption (0 when absent) exceeds the configured threshold, or 80 when none is configured; with neither key present, no scale out |
| `Allocator.ScaleOutMonotone` | src/workload_allocator.py:125 | a larger consumption keeps the scale-out branch taken |
| `Api.GetSustainabilityMetrics` | src/api_integration.py:63-90 | the answer always has exactly the keys renewable_percentage and carbon_intensity; an unknown region gets 30 and 500 |
| `Api.SustainabilityTable` | src/api_integration.py:68-81 | us-east-1 = (35, 400), eu-west-1 = (60, 200), ap-southeast-1 = (25, 600) |
| `Api.Reraise` | src/api_integration.py:198-200 | every exception caught by the handler becomes a 500 |
| `Api.ConstructEnergyMonitor` | src/energy_monitoring.py:17-53 | construction fails when loading the configuration or creating the clients fails, or when the gauges are already registered in the process; after a construction whose setup succeeded, the gauges are registered |
| `Api.GetRegionSustainability` | src/api_integration.py:183-200 | a failed `APIIntegration()` gives a 500 with its error text; a body is the lookup's answer; any error is a 500, never a 404 |
| `Api.SustainabilityEndpointAlwaysOk` | src/api_integration.py:186-196 | the endpoint answers 200 iff the helper object was built, and then with the region's table entry: the not-found branch is dead |
| `Api.GetOrZero` | src/api_integration.py:174-175 | `get(key, 0)` is 0 for an absent key and the stored series otherwise |
| `Api.GetEnergyMetrics` | src/api_integration.py:159-181 | error iff the monitor could not be built or the metrics are `None` or empty, and then always 500 (the 404 is re-raised); a failed construction gives its own error text; a body echoes the id and the timestamp |
| `Api.EnergyEndpointReportsZero` | src/api_integration.py:166-177 | with a monitor that was built and fed by its metrics, the endpoint fails iff the metrics calls raised; otherwise it reports 0 for both energy and carbon |
| `Api.EnergyEndpointFailsAfterFirst` | src/api_integration.py:164-181 | once one request has built its monitor, every later request in the same process fails to build its own and answers 500, whatever its metrics |
| `Api.Digits` | src/api_integration.py:96 | zero-padded rendering has exactly the requested width and only digit characters |
| `Api.ParseDigitsRoundTrip` | src/api_integration.py:96 | reading back the zero-padded digits of a number that fits the width gives the number |
| `Api.HourStamp` | src/api_integration.py:96 | the `%Y-%m-%d-%H` stamp is 13 characters |
| `Api.ObjectKey` | src/api_integration.py:97 | the key is 26 characters, starts with `metrics/` and ends with `.json` |
| `Api.ObjectKeyLayout` | src/api_integration.py:96-97 | the year, month, day and hour digits sit at fixed positions of the key, separated by `-` |
| `Api.ObjectKeyRoundTrip` | src/api_integration.py:96-97 | parsing the key gives back the hour it was made from, so different hours get different keys |
| `Api.BucketName` | src/api_integration.py:95 | the configured bucket, or `eaawas-metrics` when none is configured |
| `Api.StoreRequest` | src/api_integration.py:94-103 | the upload goes to `BucketName(config)` under a key that parses back to the current hour |
| `Api.NumericData` | src/api_integration.py:116-123 | there are never more entries than items |
| `Api.NumericDataSound` | src/api_integration.py:116-123 | an entry is produced iff some item has that key and a numeric value (int, float or bool); the entry's unit is `None` |
| `Api.NumericDataAppend` | src/api_integration.py:116-123 | the filter keeps key order and treats each item alone |
| `Api.BuildMetricData` | src/api_integration.py:114-123 | the loop returns exactly `NumericData` |
| `Api.PublishCloudwatchMetrics` | src/api_integration.py:111-135 | `put_metric_data` is called, with exactly the numeric entries, iff there is one; the result is True unless that call raised |
| `Consistency.CarbonEstimatesAgree` | src/energy_monitoring.py:115-123 | the monitor's factor and carbon estimate equal the collector's for every region and energy |
| `Consistency.SustainabilityIntensityAgrees` | src/api_integration.py:68-86 | the API's carbon intensity of every region equals the estimators' carbon factor, fallback included |

## Left out

- Cloud SDK clients (EC2, CloudWatch, S3, Kubernetes) are not modelled. Their answers are
  parameters: the reservations, a metrics service that gives datapoints or `None`, and a flag
  for whether an upload raised.
- File output is not modelled: the CSV appends of `collect_and_save_data`, the JSON log lines
  of `start_monitoring`, configuration loading and logging setup. `Collector.CollectAndSaveData`
  returns the two row lists it would write.
- The values that `monitor_instances` sets on its Prometheus gauges are not modelled. Only the
  registration of the two gauges is, as a flag passed to `Api.ConstructEnergyMonitor`.
- Api.ConstructEnergyMonitor: the outcome of loading the configuration file and creating the
  cloud clients is a parameter. The registry's error is modelled by one fixed text, not by the
  library's exact message.
- Api.GetRegionSustainability: `APIIntegration()` is modelled only by its outcome, a parameter.
  Its configuration loading and client creation are not modelled.
- The polling loops of `start_collection` and `start_monitoring` (`while True` with `sleep`)
  are not modelled.
- Clock readings are parameters: the ISO timestamp of the rows and of the energy endpoint, and
  the hour of `store_metrics`. The per-entry timestamp of `metric_data` is left out.
- `get_instance_energy_metrics` (a CloudWatch query and `np.mean`) is reduced to a lookup from
  instance id to an optional figure. `np.mean` of an empty list gives NaN, and how `min` orders
  NaN is not modelled.
- IEEE floating point is not modelled: all figures are exact reals. pandas `mean` is the
  arithmetic mean.
- Api.StoreRequest: requires a four-digit year. On Linux, `strftime('%Y')` does not pad years
  below 1000.
- `store_metrics` is not modelled beyond its request: the JSON body and the True/False result
  (False when the upload raised).
- Api.GetEnergyMetrics: the detail of the 500 error is the detail of the caught 404. The
  framework's own rendering of `str(e)` for an `HTTPException` depends on its version and is
  not modelled.
- The POST `/workload/allocate` endpoint is not modelled. It builds a `WorkloadAllocator` (which
  reads a configuration file) and returns `allocate_workload`'s result.
- Allocator.ScaleOutTriggered: metric and configuration values are numbers only. A comparison
  with a non-number raises `TypeError`, which the method catches, and that case is not modelled.
- Api.Value: Python objects of other types (lists, dicts, datetimes) are one `Other` case,
  because the filter only asks whether a value is an int, float or bool.
- The dashboard, process launcher, ML training module, metrics utilities and tests are not
  part of this model. The tests call methods that do not exist in the code.
