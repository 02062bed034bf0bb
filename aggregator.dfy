/** The company time-series aggregators (backend/utils.js,
    `generateCompanySensorAirData` and `generateCompanySensorWaterData`).
    Both do the same thing for their own domain: read the clock once, take
    the hour of day in UTC+8, then for each requested sensor in order either
    throw because the sensor is not in the domain's catalogue, or build one
    simulated reading per hour from 00:00 up to, not including, the current
    hour, never more than 19 of them. The model writes that loop once, over
    a `Domain`, and gives each of the two source functions a method of its
    own that runs it for its domain. */
module Aggregator {
  import opened Wrappers
  import opened Strings
  import opened Numbers
  import opened Catalog
  import opened Simulator
  import opened Random

  datatype Domain = Air | Water

  /** The `monitoring_type` each aggregator passes to `validateSensor`. */
  function MonitoringType(domain: Domain): string {
    match domain
    case Air => "air"
    case Water => "water"
  }

  /** A simulator: a sensor id and one draw to a reading or null. */
  type Reader = (string, Draw) -> Option<Decimal>

  /** The simulator each aggregator calls. */
  function DomainSimulator(domain: Domain): Reader {
    match domain
    case Air => SimulateSensorAirData
    case Water => SimulateSensorWaterData
  }

  /** Each aggregator validates against its own catalogue. */
  lemma DomainCatalogue(sensor: string)
    ensures ValidateSensor(sensor, MonitoringType(Air)) <==> sensor in AirSensors
    ensures ValidateSensor(sensor, MonitoringType(Water)) <==> sensor in WaterSensors
  {
  }

  /** A sensor that passes validation always gets a reading, never null:
      the simulators know exactly the catalogue's ids. */
  lemma ValidSensorHasReading(domain: Domain, sensor: string, r: Draw)
    requires ValidateSensor(sensor, MonitoringType(domain))
    ensures DomainSimulator(domain)(sensor, r).Some?
  {
    SimulatorsMatchCatalogue(sensor, r);
  }

  /** The value of `new Date()`, in milliseconds since the Unix epoch. */
  datatype Instant = Instant(epochMillis: int)

  /** `now.getUTCHours()`. */
  function UtcHours(now: Instant): (h: int)
    ensures 0 <= h <= 23
  {
    (now.epochMillis / 3600000) % 24
  }

  /** `(now.getUTCHours() + 8) % 24`: the hour of day in UTC+8. */
  function CurrentHour(now: Instant): (h: int)
    ensures 0 <= h <= 23
    ensures h == if UtcHours(now) < 16 then UtcHours(now) + 8 else UtcHours(now) - 16
  {
    (UtcHours(now) + 8) % 24
  }

  /** The cap on the length of a series. */
  const MaxHours: nat := 19

  /** `Math.min(currentHour, 19)`, the number of points in every series. */
  function HourCount(currentHour: int): (n: nat)
    requires 0 <= currentHour <= 23
    ensures n <= MaxHours && n <= currentHour
    ensures n == currentHour || n == MaxHours
    ensures n == 0 <==> currentHour == 0
  {
    if currentHour < MaxHours then currentHour else MaxHours
  }

  /** `` `${hour.toString().padStart(2, "0")}:00` ``. */
  function HourLabel(hour: nat): (s: string)
    ensures |s| >= 5 && s[|s| - 3..] == ":00"
  {
    var digits := PadStart(NatToString(hour), 2, '0');
    PaddedDigits(hour, 1);
    digits + ":00"
  }

  /** Before ":00" a label holds at least two digits that spell the hour:
      the padding only adds leading zeros. */
  lemma HourLabelSpellsHour(hour: nat)
    ensures var s := HourLabel(hour);
      IsDigits(s[..|s| - 3]) && DigitsValue(s[..|s| - 3]) == hour
  {
    var digits := PadStart(NatToString(hour), 2, '0');
    PaddedDigits(hour, 1);
    assert HourLabel(hour)[..|digits|] == digits;
  }

  /** Below 100 an hour label is two digits, a colon and two zeros. */
  lemma HourLabelDigits(hour: nat)
    requires hour < 100
    ensures HourLabel(hour) == [Digit(hour / 10), Digit(hour % 10), ':', '0', '0']
  {
    if hour >= 10 {
      assert NatToString(hour) == NatToString(hour / 10) + [Digit(hour % 10)];
    }
  }

  /** Reading an "HH:00" label back. */
  function ParseHourLabel(text: string): Option<nat> {
    if |text| == 5 && IsDigit(text[0]) && IsDigit(text[1]) && text[2..] == ":00"
    then Some(DigitsValue(text[..2]))
    else None
  }

  /** An hour label names its hour. */
  lemma HourLabelRoundTrip(hour: nat)
    requires hour < 100
    ensures ParseHourLabel(HourLabel(hour)) == Some(hour)
  {
    HourLabelDigits(hour);
    var text := HourLabel(hour);
    var digits := text[..2];
    assert digits[..1] == [Digit(hour / 10)];
    assert DigitsValue(digits[..1][..0]) == 0;
    assert DigitsValue(digits[..1]) == hour / 10;
    assert DigitsValue(digits) == (hour / 10) * 10 + hour % 10;
  }

  /** Labels of later hours compare greater as strings. */
  lemma HourLabelsIncrease(h1: nat, h2: nat)
    requires h1 < h2 < 100
    ensures LexLess(HourLabel(h1), HourLabel(h2))
  {
    HourLabelDigits(h1);
    HourLabelDigits(h2);
    var a, b := HourLabel(h1), HourLabel(h2);
    if h1 / 10 == h2 / 10 {
      assert a[1..][0] == Digit(h1 % 10) && b[1..][0] == Digit(h2 % 10);
    }
  }

  /** The request body: the sensor ids in the order asked, a date and a
      company name, both passed through untouched. */
  datatype CompanyRequest = CompanyRequest(sensors: seq<string>, date: string, company: string)

  /** One hourly reading; `None` is a null value. */
  datatype Point = Point(time: string, value: Option<Decimal>)

  datatype SensorSeries = SensorSeries(sensor: string, data: seq<Point>)

  datatype CompanyAggregate = CompanyAggregate(
    company: string,
    date: string,
    now: Instant,
    currentHour: int,
    sensors: seq<SensorSeries>)

  /** The message of the error thrown for an unsupported sensor. */
  function InvalidSensorMessage(sensor: string): string {
    "Invalid sensor type: " + sensor
  }

  /** The position of the first sensor the domain's catalogue rejects. */
  function FirstInvalid(domain: Domain, sensors: seq<string>): (k: Option<nat>)
    ensures k.Some? ==> k.value < |sensors| && !ValidateSensor(sensors[k.value], MonitoringType(domain))
    ensures k.Some? ==> forall j :: 0 <= j < k.value ==> ValidateSensor(sensors[j], MonitoringType(domain))
    ensures k.None? ==> forall j :: 0 <= j < |sensors| ==> ValidateSensor(sensors[j], MonitoringType(domain))
  {
    if |sensors| == 0 then None
    else if !ValidateSensor(sensors[0], MonitoringType(domain)) then Some(0)
    else match FirstInvalid(domain, sensors[1..])
      case None => None
      case Some(k) => Some(k + 1)
  }

  /** The first `count` points of a series whose draws start at `base`:
      point `j` is labelled with hour `j` and carries the reading of draw
      `base + j`. */
  function HourlyPoints(read: Reader, sensor: string, base: nat, count: nat, rand: nat -> Draw): seq<Point>
  {
    seq(count, j requires 0 <= j < count => Point(HourLabel(j), read(sensor, rand(base + j))))
  }

  /** The number of draws made before sensor `k` when every sensor takes
      `n`. */
  function Start(k: nat, n: nat): nat {
    k * n
  }

  /** The series of every sensor in `sensors`, `n` points each, drawing in
      order: sensor by sensor, hour by hour, so that sensor `k` uses draws
      `k * n` up to `k * n + n - 1`. */
  function AllSeries(read: Reader, sensors: seq<string>, n: nat, rand: nat -> Draw): seq<SensorSeries>
  {
    seq(|sensors|, k requires 0 <= k < |sensors| => SensorSeries(sensors[k], HourlyPoints(read, sensors[k], Start(k, n), n, rand)))
  }

  /** What one aggregator call returns or throws, with the clock reading
      `now` and `rand(k)` the `k`-th draw of `Math.random()` in the call. */
  function CompanySensorData(domain: Domain, request: CompanyRequest, now: Instant, rand: nat -> Draw)
    : Result<CompanyAggregate, string>
  {
    var currentHour := CurrentHour(now);
    match FirstInvalid(domain, request.sensors)
    case Some(k) => Failure(InvalidSensorMessage(request.sensors[k]))
    case None =>
      Success(CompanyAggregate(request.company, request.date, now, currentHour,
        AllSeries(DomainSimulator(domain), request.sensors, HourCount(currentHour), rand)))
  }

  /** The loop both source functions run, for either domain. */
  method GenerateCompanySensorData(domain: Domain, request: CompanyRequest, now: Instant, rand: nat -> Draw)
    returns (r: Result<CompanyAggregate, string>)
    ensures r == CompanySensorData(domain, request, now, rand)
  {
    var read := DomainSimulator(domain);
    var currentHour := CurrentHour(now);
    var n := HourCount(currentHour);
    var responseData: seq<SensorSeries> := [];
    var draws: nat := 0;
    var i := 0;
    while i < |request.sensors|
      invariant 0 <= i <= |request.sensors|
      invariant forall j :: 0 <= j < i ==> ValidateSensor(request.sensors[j], MonitoringType(domain))
      invariant responseData == AllSeries(read, request.sensors[..i], n, rand)
      invariant draws == Start(i, n)
    {
      var sensor := request.sensors[i];
      if !ValidateSensor(sensor, MonitoringType(domain)) {
        FirstInvalidAt(domain, request.sensors, i);
        return Failure(InvalidSensorMessage(sensor));
      }
      var data;
      data, draws := HourlyReadings(read, sensor, n, rand, draws);
      AllSeriesSnoc(read, request.sensors, i, n, rand);
      responseData := responseData + [SensorSeries(sensor, data)];
      assert draws == Start(i + 1, n);
      i := i + 1;
    }
    assert request.sensors[..i] == request.sensors;
    r := Success(CompanyAggregate(request.company, request.date, now, currentHour, responseData));
  }

  /** The inner loop: one reading per hour `0 .. n - 1`, each from the
      next draw, starting at draw number `draws`. */
  method HourlyReadings(read: Reader, sensor: string, n: nat, rand: nat -> Draw, draws: nat)
    returns (data: seq<Point>, next: nat)
    ensures data == HourlyPoints(read, sensor, draws, n, rand)
    ensures next == draws + n
  {
    data := [];
    next := draws;
    var hour: nat := 0;
    while hour < n
      invariant hour <= n
      invariant next == draws + hour
      invariant data == HourlyPoints(read, sensor, draws, hour, rand)
    {
      var value := read(sensor, rand(next));
      next := next + 1;
      data := data + [Point(HourLabel(hour), value)];
      hour := hour + 1;
    }
  }

  /** Extending the prefix of sensors by one adds that sensor's series. */
  lemma AllSeriesSnoc(read: Reader, sensors: seq<string>, i: nat, n: nat, rand: nat -> Draw)
    requires i < |sensors|
    ensures AllSeries(read, sensors[..i + 1], n, rand)
      == AllSeries(read, sensors[..i], n, rand) + [SensorSeries(sensors[i], HourlyPoints(read, sensors[i], Start(i, n), n, rand))]
  {
  }

  /** `generateCompanySensorAirData(request)`. */
  method GenerateCompanySensorAirData(request: CompanyRequest, now: Instant, rand: nat -> Draw)
    returns (r: Result<CompanyAggregate, string>)
    ensures r == CompanySensorData(Air, request, now, rand)
  {
    r := GenerateCompanySensorData(Air, request, now, rand);
  }

  /** `generateCompanySensorWaterData(request)`. */
  method GenerateCompanySensorWaterData(request: CompanyRequest, now: Instant, rand: nat -> Draw)
    returns (r: Result<CompanyAggregate, string>)
    ensures r == CompanySensorData(Water, request, now, rand)
  {
    r := GenerateCompanySensorData(Water, request, now, rand);
  }

  /** The first rejected sensor, once found, is the one `FirstInvalid`
      names. */
  lemma FirstInvalidAt(domain: Domain, sensors: seq<string>, i: nat)
    requires i < |sensors| && !ValidateSensor(sensors[i], MonitoringType(domain))
    requires forall j :: 0 <= j < i ==> ValidateSensor(sensors[j], MonitoringType(domain))
    ensures FirstInvalid(domain, sensors) == Some(i)
  {
  }

  /** All or nothing: the call throws exactly when some requested sensor is
      outside the domain's catalogue, and then names the first such sensor
      and returns no series at all. */
  lemma AllOrNothing(domain: Domain, request: CompanyRequest, now: Instant, rand: nat -> Draw)
    ensures CompanySensorData(domain, request, now, rand).Failure? <==>
      exists k :: 0 <= k < |request.sensors| && !ValidateSensor(request.sensors[k], MonitoringType(domain))
    ensures CompanySensorData(domain, request, now, rand).Failure? ==>
      exists k :: 0 <= k < |request.sensors|
        && !ValidateSensor(request.sensors[k], MonitoringType(domain))
        && (forall j :: 0 <= j < k ==> ValidateSensor(request.sensors[j], MonitoringType(domain)))
        && CompanySensorData(domain, request, now, rand).error == InvalidSensorMessage(request.sensors[k])
  {
  }

  /** The shape of a successful result: the request's company and date, the
      clock reading and its UTC+8 hour, and one series per requested sensor
      in request order, each with `min(currentHour, 19)` points. */
  lemma SeriesShape(domain: Domain, request: CompanyRequest, now: Instant, rand: nat -> Draw)
    requires CompanySensorData(domain, request, now, rand).Success?
    ensures var agg := CompanySensorData(domain, request, now, rand).value;
      && agg.company == request.company && agg.date == request.date && agg.now == now
      && agg.currentHour == CurrentHour(now)
      && |agg.sensors| == |request.sensors|
      && (forall i :: 0 <= i < |agg.sensors| ==>
            agg.sensors[i].sensor == request.sensors[i]
            && |agg.sensors[i].data| == HourCount(CurrentHour(now)))
  {
  }

  /** Point `j` of every series is labelled with hour `j`. */
  lemma SeriesTimes(domain: Domain, request: CompanyRequest, now: Instant, rand: nat -> Draw)
    requires CompanySensorData(domain, request, now, rand).Success?
    ensures var agg := CompanySensorData(domain, request, now, rand).value;
      forall i, j :: 0 <= i < |agg.sensors| && 0 <= j < HourCount(CurrentHour(now)) ==>
        agg.sensors[i].data[j].time == HourLabel(j)
  {
    var n := HourCount(CurrentHour(now));
    var agg := CompanySensorData(domain, request, now, rand).value;
    forall i, j | 0 <= i < |agg.sensors| && 0 <= j < n
      ensures agg.sensors[i].data[j].time == HourLabel(j)
    {
      assert agg.sensors[i].data == HourlyPoints(DomainSimulator(domain), request.sensors[i], Start(i, n), n, rand);
    }
  }

  /** Point `j` of series `i` carries the reading of sensor `i` on draw
      `Start(i, n) + j`, that is `i * n + j`: draws go sensor by sensor,
      hour by hour. */
  lemma SeriesValues(domain: Domain, request: CompanyRequest, now: Instant, rand: nat -> Draw)
    requires CompanySensorData(domain, request, now, rand).Success?
    ensures var agg := CompanySensorData(domain, request, now, rand).value;
      var n := HourCount(CurrentHour(now));
      forall i, j :: 0 <= i < |agg.sensors| && 0 <= j < n ==>
        agg.sensors[i].data[j].value == DomainSimulator(domain)(request.sensors[i], rand(Start(i, n) + j))
  {
    var n := HourCount(CurrentHour(now));
    var agg := CompanySensorData(domain, request, now, rand).value;
    assert agg.sensors == AllSeries(DomainSimulator(domain), request.sensors, n, rand);
    AllSeriesValues(DomainSimulator(domain), request.sensors, n, rand);
  }

  /** Point `j` of series `i` carries the reading of draw `Start(i, n) + j`,
      whatever the reader. */
  lemma AllSeriesValues(read: Reader, sensors: seq<string>, n: nat, rand: nat -> Draw)
    ensures var all := AllSeries(read, sensors, n, rand);
      forall i, j :: 0 <= i < |all| && 0 <= j < n ==>
        all[i].data[j].value == read(sensors[i], rand(Start(i, n) + j))
  {
    var all := AllSeries(read, sensors, n, rand);
    forall i, j | 0 <= i < |all| && 0 <= j < n
      ensures all[i].data[j].value == read(sensors[i], rand(Start(i, n) + j))
    {
      assert all[i].data == HourlyPoints(read, sensors[i], Start(i, n), n, rand);
    }
  }

  /** No point of a successful result is null: every requested sensor passed
      validation, and the simulators know every catalogue id. */
  lemma ReadingsPresent(domain: Domain, request: CompanyRequest, now: Instant, rand: nat -> Draw)
    requires CompanySensorData(domain, request, now, rand).Success?
    ensures var agg := CompanySensorData(domain, request, now, rand).value;
      forall i, j :: 0 <= i < |agg.sensors| && 0 <= j < |agg.sensors[i].data| ==>
        agg.sensors[i].data[j].value.Some?
  {
    forall i, r: Draw | 0 <= i < |request.sensors|
      ensures DomainSimulator(domain)(request.sensors[i], r).Some?
    {
      ValidSensorHasReading(domain, request.sensors[i], r);
    }
  }

  /** Every series is at most 19 points long and is empty at midnight. */
  lemma SeriesLength(domain: Domain, request: CompanyRequest, now: Instant, rand: nat -> Draw)
    requires CompanySensorData(domain, request, now, rand).Success?
    ensures forall s :: s in CompanySensorData(domain, request, now, rand).value.sensors ==>
      |s.data| <= MaxHours && (CurrentHour(now) == 0 ==> s.data == [])
  {
    SeriesShape(domain, request, now, rand);
  }

  /** PM10 at 02:00 UTC, that is 10:00 in UTC+8: one series of ten points,
      "00:00" first and "09:00" last. */
  lemma TenInTheMorning(rand: nat -> Draw)
    ensures var r := CompanySensorData(Air, CompanyRequest(["pm10"], "2025-06-30", "acme"), Instant(7200000), rand);
      && r.Success? && r.value.currentHour == 10 && |r.value.sensors| == 1
      && r.value.sensors[0].sensor == "pm10" && |r.value.sensors[0].data| == 10
      && r.value.sensors[0].data[0].time == "00:00" && r.value.sensors[0].data[9].time == "09:00"
  {
    var request := CompanyRequest(["pm10"], "2025-06-30", "acme");
    SeriesShape(Air, request, Instant(7200000), rand);
    HourLabelDigits(0);
    HourLabelDigits(9);
  }
}
