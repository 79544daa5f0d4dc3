/**
 * The API layer (src/api_integration.py): the regional sustainability table, the S3 object
 * naming of `store_metrics`, the numeric filter of `publish_cloudwatch_metrics`, and the error
 * mapping of the two GET endpoints.
 */
module Api {
  import opened Wrappers
  import Monitor

  // ---------------------------------------------------------------------------------------
  // Sustainability metrics
  // ---------------------------------------------------------------------------------------

  /** The entry of one region: renewable share in percent and carbon intensity in gCO2/kWh. */
  function Entry(renewablePercentage: int, carbonIntensity: int): map<string, int>
  {
    map["renewable_percentage" := renewablePercentage, "carbon_intensity" := carbonIntensity]
  }

  /** The regions the API knows. */
  const SustainabilityData: map<string, map<string, int>> :=
    map["us-east-1" := Entry(35, 400), "eu-west-1" := Entry(60, 200), "ap-southeast-1" := Entry(25, 600)]

  /**
   * `get_sustainability_metrics`: the region's entry, or 30 % renewable at 500 gCO2/kWh for a
   * region the table does not know. The answer always holds both keys, so it is never empty.
   */
  function GetSustainabilityMetrics(region: string): (metrics: map<string, int>)
    ensures metrics.Keys == {"renewable_percentage", "carbon_intensity"}
    ensures region !in SustainabilityData ==> metrics["renewable_percentage"] == 30 && metrics["carbon_intensity"] == 500
  {
    if region in SustainabilityData then SustainabilityData[region] else Entry(30, 500)
  }

  /** The three known regions' entries. */
  lemma SustainabilityTable()
    ensures GetSustainabilityMetrics("us-east-1") == Entry(35, 400)
    ensures GetSustainabilityMetrics("eu-west-1") == Entry(60, 200)
    ensures GetSustainabilityMetrics("ap-southeast-1") == Entry(25, 600)
  {
  }

  // ---------------------------------------------------------------------------------------
  // GET endpoints
  // ---------------------------------------------------------------------------------------

  /**
   * The outcome of an endpoint: a body, or an HTTP error with its status code and the detail of
   * the exception that caused it.
   */
  datatype Response<T> = Ok(body: T) | HttpError(statusCode: int, detail: string)

  /**
   * The handlers' `except Exception` clause: every exception raised inside the `try`, an
   * `HTTPException` included, leaves the endpoint as a status 500.
   */
  function Reraise<T>(detail: string): (response: Response<T>)
    ensures response.HttpError? && response.statusCode == 500
  {
    HttpError(500, detail)
  }

  /**
   * The outcome of building the helper object inside a handler's `try` (`APIIntegration()` or
   * `EnergyMonitor()`): built, or the text of the exception its constructor raised (a missing or
   * malformed configuration file, a client that could not be created, a metric already registered).
   */
  datatype Construction = Constructed | ConstructionFailed(error: string)

  /** The text of the error the metrics registry raises when a metric name is registered twice. */
  const DuplicatedTimeseries: string := "Duplicated timeseries in CollectorRegistry"

  /**
   * `EnergyMonitor()` in a process whose default metrics registry may already hold the monitor's
   * two gauges: `setup` is the outcome of loading the configuration and creating the clients, and
   * `gaugesRegistered` says whether an earlier monitor already registered the gauges. The result
   * is the construction outcome and whether the gauges are registered afterwards.
   */
  function ConstructEnergyMonitor(setup: Construction, gaugesRegistered: bool): (result: (Construction, bool))
    ensures result.0.Constructed? <==> setup.Constructed? && !gaugesRegistered
    ensures setup.ConstructionFailed? ==> result.0 == setup
    ensures result.1 <==> gaugesRegistered || setup.Constructed?
  {
    if setup.ConstructionFailed? then (setup, gaugesRegistered)
    else if gaugesRegistered then (ConstructionFailed(DuplicatedTimeseries), true)
    else (Constructed, true)
  }

  /**
   * `/metrics/sustainability/{region}`: a failed `APIIntegration()` or an empty lookup answer
   * (a 404 raised inside the `try`) both leave the endpoint as a 500; otherwise the lookup's answer.
   */
  function GetRegionSustainability(construction: Construction, region: string): (response: Response<map<string, int>>)
    ensures construction.ConstructionFailed? ==> response == HttpError(500, construction.error)
    ensures response.Ok? ==> response.body == GetSustainabilityMetrics(region)
    ensures response.HttpError? ==> response.statusCode == 500
  {
    if construction.ConstructionFailed? then Reraise(construction.error)
    else
      var metrics := GetSustainabilityMetrics(region);
      if |metrics| == 0 then Reraise("Sustainability metrics not found for region")
      else Ok(metrics)
  }

  /**
   * The empty-answer branch is dead: the endpoint fails exactly when the helper object could
   * not be built, and otherwise every region gets a 200 with its table entry.
   */
  lemma SustainabilityEndpointAlwaysOk(construction: Construction, region: string)
    ensures GetRegionSustainability(construction, region).Ok? <==> construction.Constructed?
    ensures construction.Constructed? ==> GetRegionSustainability(construction, region) == Ok(GetSustainabilityMetrics(region))
  {
    var metrics := GetSustainabilityMetrics(region);
    assert "carbon_intensity" in metrics;
  }

  /** A field of the energy response: `dict.get(key, 0)` gives the stored series, or 0. */
  datatype Field = Zero | Series(samples: seq<Monitor.Sample>)

  /** The body of `/metrics/energy/{instance_id}`. */
  datatype EnergyBody = EnergyBody(instanceId: string, energyConsumption: Field, carbonFootprint: Field, timestamp: string)

  /** `metrics.get(key, 0)` on the monitor's series dictionary. */
  function GetOrZero(metrics: map<string, seq<Monitor.Sample>>, key: string): (field: Field)
    ensures key !in metrics ==> field == Zero
    ensures key in metrics ==> field == Series(metrics[key])
  {
    if key in metrics then Series(metrics[key]) else Zero
  }

  /**
   * `/metrics/energy/{instance_id}` given the outcome of `EnergyMonitor()`, the monitor's answer
   * for the instance and the clock's ISO timestamp: a failed construction, or a missing or empty
   * answer (a 404 raised inside the `try`), leaves the endpoint as a 500.
   */
  function GetEnergyMetrics(instanceId: string, construction: Construction,
                            metrics: Option<map<string, seq<Monitor.Sample>>>, now: string)
    : (response: Response<EnergyBody>)
    ensures construction.ConstructionFailed? ==> response == HttpError(500, construction.error)
    ensures response.HttpError? ==> response.statusCode == 500
    ensures response.HttpError? <==> construction.ConstructionFailed? || metrics.None? || |metrics.value| == 0
    ensures response.Ok? ==> response.body.instanceId == instanceId && response.body.timestamp == now
  {
    if construction.ConstructionFailed? then Reraise(construction.error)
    else if metrics.None? || |metrics.value| == 0 then Reraise("Instance not found")
    else
      var m := metrics.value;
      Ok(EnergyBody(instanceId, GetOrZero(m, "energy_consumption"), GetOrZero(m, "carbon_footprint"), now))
  }

  /**
   * Fed by a monitor that was built and its `get_instance_metrics`, the endpoint answers 500
   * exactly when the metrics calls raised, and otherwise reports 0 for both figures: the
   * dictionary holds only the five metric series, never an `energy_consumption` or
   * `carbon_footprint` key.
   */
  lemma EnergyEndpointReportsZero(service: Monitor.MetricsService, instanceId: string, now: string)
    ensures var response := GetEnergyMetrics(instanceId, Constructed, Monitor.InstanceMetrics(service, instanceId), now);
            && (response.HttpError? <==> Monitor.InstanceMetrics(service, instanceId).None?)
            && (response.Ok? ==> response.body.energyConsumption == Zero && response.body.carbonFootprint == Zero)
  {
    var metrics := Monitor.InstanceMetrics(service, instanceId);
    Monitor.InstanceMetricsContents(service, instanceId);
    if metrics.Some? {
      assert Monitor.MetricNames[0] in Monitor.MetricNames;
      assert "CPUUtilization" in metrics.value;
      assert "energy_consumption" !in Monitor.MetricNames;
      assert "carbon_footprint" !in Monitor.MetricNames;
    }
  }

  /**
   * Each request builds a new `EnergyMonitor`, whose gauges go into the process-wide registry:
   * once one request has built its monitor, every later request in the same process fails to
   * build its own and answers 500, whatever the instance and its metrics.
   */
  lemma EnergyEndpointFailsAfterFirst(firstSetup: Construction, laterSetup: Construction, instanceId: string,
                                      metrics: Option<map<string, seq<Monitor.Sample>>>, now: string)
    requires ConstructEnergyMonitor(firstSetup, false).0.Constructed?
    ensures var registered := ConstructEnergyMonitor(firstSetup, false).1;
            var later := ConstructEnergyMonitor(laterSetup, registered).0;
            GetEnergyMetrics(instanceId, later, metrics, now).HttpError?
            && GetEnergyMetrics(instanceId, later, metrics, now).statusCode == 500
  {
  }

  // ---------------------------------------------------------------------------------------
  // S3 storage
  // ---------------------------------------------------------------------------------------

  /** The clock reading `store_metrics` formats, to the hour, in UTC. */
  datatype UtcHour = UtcHour(year: int, month: int, day: int, hour: int)

  /** A reading that `%Y-%m-%d-%H` renders with four, two, two and two digits. */
  predicate ValidHour(t: UtcHour)
  {
    1000 <= t.year <= 9999 && 1 <= t.month <= 12 && 1 <= t.day <= 31 && 0 <= t.hour <= 23
  }

  /** Ten to the power `n`: the first number that no longer fits in `n` digits. */
  function Pow10(n: nat): (p: nat)
    ensures p > 0
  {
    if n == 0 then 1 else 10 * Pow10(n - 1)
  }

  /** The character of a decimal digit. */
  function DigitChar(d: nat): char
    requires d < 10
  {
    "0123456789"[d]
  }

  /** The value of a digit character (0 for any other character, which a key never holds there). */
  function DigitValue(c: char): (d: nat)
    ensures d < 10
  {
    if '0' <= c <= '9' then (c - '0') as nat else 0
  }

  /** Whether a character is a decimal digit. */
  predicate IsDigit(c: char)
  {
    '0' <= c <= '9'
  }

  /** The last `width` decimal digits of `n`, zero-padded on the left. */
  function Digits(n: nat, width: nat): (s: string)
    ensures |s| == width
    ensures forall i :: 0 <= i < |s| ==> IsDigit(s[i])
  {
    if width == 0 then "" else Digits(n / 10, width - 1) + [DigitChar(n % 10)]
  }

  /** The number a string of decimal digits denotes. */
  function ParseDigits(s: string): nat
  {
    if |s| == 0 then 0 else 10 * ParseDigits(s[..|s| - 1]) + DigitValue(s[|s| - 1])
  }

  /** Splitting off the last decimal digit of a number that fits `width > 0` digits. */
  lemma LastDigit(n: nat, width: nat)
    requires 0 < width && n < Pow10(width)
    ensures n == 10 * (n / 10) + n % 10 && n % 10 < 10
    ensures n / 10 < Pow10(width - 1)
  {
    assert 10 * (n / 10) <= n < 10 * Pow10(width - 1);
  }

  /** Reading the zero-padded digits back gives the number, when it fits the width. */
  lemma {:induction false} ParseDigitsRoundTrip(n: nat, width: nat)
    requires n < Pow10(width)
    ensures ParseDigits(Digits(n, width)) == n
  {
    if width > 0 {
      var s := Digits(n, width);
      var q, r := n / 10, n % 10;
      LastDigit(n, width);
      assert s == Digits(q, width - 1) + [DigitChar(r)];
      assert s[..|s| - 1] == Digits(q, width - 1);
      ParseDigitsRoundTrip(q, width - 1);
      assert DigitValue(DigitChar(r)) == r;
      assert ParseDigits(s) == 10 * q + r;
    }
  }

  /** `strftime('%Y-%m-%d-%H')`. */
  function HourStamp(t: UtcHour): (stamp: string)
    requires ValidHour(t)
    ensures |stamp| == 13
  {
    Digits(t.year, 4) + "-" + Digits(t.month, 2) + "-" + Digits(t.day, 2) + "-" + Digits(t.hour, 2)
  }

  /** The S3 key `metrics/<stamp>.json`. */
  function ObjectKey(t: UtcHour): (key: string)
    requires ValidHour(t)
    ensures |key| == 26 && key[..8] == "metrics/" && key[21..] == ".json"
  {
    "metrics/" + HourStamp(t) + ".json"
  }

  /** The reading an object key names, when it has the shape `ObjectKey` produces. */
  function ParseObjectKey(key: string): Option<UtcHour>
  {
    if |key| == 26 && key[..8] == "metrics/" && key[21..] == ".json"
       && key[12] == '-' && key[15] == '-' && key[18] == '-'
       && (forall i :: 8 <= i < 21 && i !in {12, 15, 18} ==> IsDigit(key[i]))
    then Some(UtcHour(ParseDigits(key[8..12]), ParseDigits(key[13..15]), ParseDigits(key[16..18]), ParseDigits(key[19..21])))
    else None
  }

  /** Where each field sits in an object key: the digit runs and the separators between them. */
  lemma ObjectKeyLayout(t: UtcHour)
    requires ValidHour(t)
    ensures var key := ObjectKey(t);
            && key[8..12] == Digits(t.year, 4) && key[13..15] == Digits(t.month, 2)
            && key[16..18] == Digits(t.day, 2) && key[19..21] == Digits(t.hour, 2)
            && key[12] == '-' && key[15] == '-' && key[18] == '-'
  {
    var stamp := HourStamp(t);
    var key := ObjectKey(t);
    assert key[8..21] == stamp;
    assert stamp[..4] == Digits(t.year, 4) && stamp[5..7] == Digits(t.month, 2);
    assert stamp[8..10] == Digits(t.day, 2) && stamp[11..] == Digits(t.hour, 2);
  }

  /** Each hour gets its own key: the key reads back as the hour it was made from. */
  lemma ObjectKeyRoundTrip(t: UtcHour)
    requires ValidHour(t)
    ensures ParseObjectKey(ObjectKey(t)) == Some(t)
  {
    var key := ObjectKey(t);
    ObjectKeyLayout(t);
    assert forall i :: 8 <= i < 21 && i !in {12, 15, 18} ==> IsDigit(key[i]) by {
      forall i | 8 <= i < 21 && i !in {12, 15, 18} ensures IsDigit(key[i]) {
        if i < 12 { assert key[i] == key[8..12][i - 8]; }
        else if i < 15 { assert key[i] == key[13..15][i - 13]; }
        else if i < 18 { assert key[i] == key[16..18][i - 16]; }
        else { assert key[i] == key[19..21][i - 19]; }
      }
    }
    ParseDigitsRoundTrip(t.year, 4);
    ParseDigitsRoundTrip(t.month, 2);
    ParseDigitsRoundTrip(t.day, 2);
    ParseDigitsRoundTrip(t.hour, 2);
  }

  /** The `put_object` call `store_metrics` makes (its JSON body is not modelled). */
  datatype PutObject = PutObject(bucket: string, key: string)

  /** The configured bucket, `eaawas-metrics` when the configuration names none. */
  function BucketName(config: map<string, string>): (bucket: string)
    ensures "metrics_bucket" !in config ==> bucket == "eaawas-metrics"
    ensures "metrics_bucket" in config ==> bucket == config["metrics_bucket"]
  {
    if "metrics_bucket" in config then config["metrics_bucket"] else "eaawas-metrics"
  }

  /** The upload of `store_metrics` at a given hour. */
  function StoreRequest(config: map<string, string>, now: UtcHour): (request: PutObject)
    requires ValidHour(now)
    ensures request.bucket == BucketName(config)
    ensures ParseObjectKey(request.key) == Some(now)
  {
    ObjectKeyRoundTrip(now);
    PutObject(BucketName(config), ObjectKey(now))
  }

  // ---------------------------------------------------------------------------------------
  // CloudWatch publication
  // ---------------------------------------------------------------------------------------

  /** A value of the metrics dictionary, by Python type. */
  datatype Value = Int(i: int) | Float(r: real) | Bool(b: bool) | Str(s: string) | Null | Other

  /** `isinstance(value, (int, float))`; a bool is an int in Python. */
  predicate IsNumeric(v: Value)
  {
    v.Int? || v.Float? || v.Bool?
  }

  /** One entry of `metric_data` (its per-entry clock reading is not modelled). */
  datatype MetricDatum = MetricDatum(metricName: string, value: Value, unit: string)

  /** The entries for a dictionary's items, in key order: one per numeric value. */
  function NumericData(items: seq<(string, Value)>): (data: seq<MetricDatum>)
    ensures |data| <= |items|
  {
    if |items| == 0 then []
    else
      var (key, value) := items[|items| - 1];
      var prefix := NumericData(items[..|items| - 1]);
      if IsNumeric(value) then prefix + [MetricDatum(key, value, "None")] else prefix
  }

  /** Each entry names a key of the dictionary, carries that key's numeric value, and has unit `None`. */
  lemma {:induction false} NumericDataSound(items: seq<(string, Value)>, d: MetricDatum)
    ensures d in NumericData(items) <==> d.unit == "None" && IsNumeric(d.value) && (d.metricName, d.value) in items
  {
    if |items| > 0 {
      var init := items[..|items| - 1];
      var last := items[|items| - 1];
      NumericDataSound(init, d);
      assert items == init + [last];
      assert (d.metricName, d.value) in items <==> (d.metricName, d.value) in init || (d.metricName, d.value) == last;
      if IsNumeric(last.1) {
        assert NumericData(items) == NumericData(init) + [MetricDatum(last.0, last.1, "None")];
      } else {
        assert NumericData(items) == NumericData(init);
      }
    }
  }

  /** The filter keeps order and treats each item alone. */
  lemma {:induction false} NumericDataAppend(a: seq<(string, Value)>, b: seq<(string, Value)>)
    ensures NumericData(a + b) == NumericData(a) + NumericData(b)
    decreases |b|
  {
    if |b| == 0 {
      assert a + b == a;
    } else {
      var b' := b[..|b| - 1];
      assert (a + b)[..|a + b| - 1] == a + b';
      assert (a + b)[|a + b| - 1] == b[|b| - 1];
      NumericDataAppend(a, b');
    }
  }

  /** The loop of `publish_cloudwatch_metrics` that builds `metric_data`. */
  method BuildMetricData(items: seq<(string, Value)>) returns (metricData: seq<MetricDatum>)
    ensures metricData == NumericData(items)
  {
    metricData := [];
    var i := 0;
    while i < |items|
      invariant 0 <= i <= |items|
      invariant metricData == NumericData(items[..i])
    {
      var (key, value) := items[i];
      assert items[..i + 1][..i] == items[..i];
      if IsNumeric(value) {
        metricData := metricData + [MetricDatum(key, value, "None")];
      }
      i := i + 1;
    }
    assert items[..i] == items;
  }

  /**
   * `publish_cloudwatch_metrics`: `put_metric_data` is called, with the numeric entries, only when
   * there is at least one; the result is `True` unless that call raised.
   */
  method PublishCloudwatchMetrics(items: seq<(string, Value)>, putRaises: bool)
    returns (ok: bool, published: Option<seq<MetricDatum>>)
    ensures published.Some? <==> |NumericData(items)| > 0
    ensures published.Some? ==> published.value == NumericData(items)
    ensures ok <==> published.None? || !putRaises
  {
    var metricData := BuildMetricData(items);
    if |metricData| > 0 {
      published := Some(metricData);
      ok := !putRaises;
    } else {
      published := None;
      ok := true;
    }
  }
}
