/** The CSV export of an aggregate (backend/utils.js, `jsonToCSV`): a header
    row "time,sensor,value", then one row per reading, sensor by sensor in
    the aggregate's order and hour by hour within a sensor, with an empty
    field for a null reading. Fields are joined with "," and rows with "\n",
    without quoting or escaping, and the file is named
    "<company>,<date>.csv". */
module Export {
  import opened Wrappers
  import opened Strings
  import opened Numbers
  import opened Catalog
  import opened Simulator
  import opened Random
  import opened Aggregator

  /** The `{ filename, content }` object `jsonToCSV` returns. */
  datatype CsvFile = CsvFile(filename: string, content: string)

  const Header: seq<string> := ["time", "sensor", "value"]

  /** The text a reading becomes in its row: `value ?? ""`, converted to a
      string by `join`. */
  function Field(v: Option<Decimal>): (f: string)
    ensures v.None? ==> f == ""
    ensures v.Some? ==> f == NumberToString(v.value) && |f| >= 1
  {
    match v
    case None => ""
    case Some(d) => NumberToString(d)
  }

  /** `[time, sensor, value ?? ""]`. */
  function PointRow(sensor: string, p: Point): seq<string> {
    [p.time, sensor, Field(p.value)]
  }

  /** The rows of one sensor's data, in order. */
  function PointRows(sensor: string, data: seq<Point>): seq<seq<string>> {
    seq(|data|, j requires 0 <= j < |data| => PointRow(sensor, data[j]))
  }

  /** The rows below the header, sensor by sensor. */
  function DataRows(series: seq<SensorSeries>): seq<seq<string>> {
    if |series| == 0 then []
    else
      var k := |series| - 1;
      DataRows(series[..k]) + PointRows(series[k].sensor, series[k].data)
  }

  /** The number of readings in `series`. */
  function TotalPoints(series: seq<SensorSeries>): nat {
    if |series| == 0 then 0
    else
      var k := |series| - 1;
      TotalPoints(series[..k]) + |series[k].data|
  }

  /** `rows.map((r) => r.join(","))`. */
  function Lines(rows: seq<seq<string>>): seq<string> {
    seq(|rows|, i requires 0 <= i < |rows| => Join(rows[i], ','))
  }

  /** `rows.map((r) => r.join(",")).join("\n")`. */
  function CsvContent(rows: seq<seq<string>>): string {
    Join(Lines(rows), '\n')
  }

  /** `` `${company},${date}.csv` ``. */
  function CsvFilename(company: string, date: string): (name: string)
    ensures |name| >= 4 && name[|name| - 4..] == ".csv"
  {
    company + "," + date + ".csv"
  }

  /** The comma in the file name separates the company from the date,
      unless either holds a comma itself. */
  lemma CsvFilenameSplit(company: string, date: string)
    requires ',' !in company && ',' !in date
    ensures Split(CsvFilename(company, date), ',') == [company, date + ".csv"]
  {
    assert CsvFilename(company, date) == company + [','] + (date + ".csv");
    assert ',' !in date + ".csv";
    SplitAtSeparator(company, ',', date + ".csv");
    SplitNoSeparator(date + ".csv", ',');
  }

  /** `jsonToCSV(json)`: collects the rows with the two nested loops, then
      joins them. */
  method JsonToCsv(json: CompanyAggregate) returns (file: CsvFile)
    ensures file.filename == CsvFilename(json.company, json.date)
    ensures file.content == CsvContent([Header] + DataRows(json.sensors))
  {
    var rows: seq<seq<string>> := [Header];
    var i := 0;
    while i < |json.sensors|
      invariant 0 <= i <= |json.sensors|
      invariant rows == [Header] + DataRows(json.sensors[..i])
    {
      rows := PushPointRows(rows, json.sensors[i].sensor, json.sensors[i].data);
      assert json.sensors[..i + 1][..i] == json.sensors[..i];
      i := i + 1;
    }
    assert json.sensors[..i] == json.sensors;
    file := CsvFile(CsvFilename(json.company, json.date), CsvContent(rows));
  }

  /** The inner loop: pushes one `[time, sensor, value]` row per point. */
  method PushPointRows(rows: seq<seq<string>>, sensor: string, data: seq<Point>)
    returns (out: seq<seq<string>>)
    ensures out == rows + PointRows(sensor, data)
  {
    out := rows;
    var j := 0;
    while j < |data|
      invariant 0 <= j <= |data|
      invariant out == rows + PointRows(sensor, data[..j])
    {
      assert PointRows(sensor, data[..j + 1]) == PointRows(sensor, data[..j]) + [PointRow(sensor, data[j])];
      out := out + [[data[j].time, sensor, Field(data[j].value)]];
      j := j + 1;
    }
    assert data[..j] == data;
  }

  /** One data row per reading. */
  lemma {:induction false} DataRowsLength(series: seq<SensorSeries>)
    ensures |DataRows(series)| == TotalPoints(series)
    decreases |series|
  {
    if |series| > 0 {
      DataRowsLength(series[..|series| - 1]);
    }
  }

  /** Reading `j` of sensor `i` is the row right after the readings of the
      sensors before `i` and the first `j` readings of sensor `i`. */
  lemma {:induction false} DataRowsAt(series: seq<SensorSeries>, i: nat, j: nat)
    requires i < |series| && j < |series[i].data|
    ensures TotalPoints(series[..i]) + j < |DataRows(series)|
    ensures DataRows(series)[TotalPoints(series[..i]) + j] == PointRow(series[i].sensor, series[i].data[j])
    decreases |series|
  {
    var k := |series| - 1;
    var prefix := series[..k];
    var before := DataRows(prefix);
    var rows := before + PointRows(series[k].sensor, series[k].data);
    DataRowsLength(prefix);
    DataRowsLength(series);
    assert DataRows(series) == rows;
    if i < k {
      assert prefix[..i] == series[..i];
      DataRowsAt(prefix, i, j);
      var at := TotalPoints(series[..i]) + j;
      assert at < |before| <= |rows|;
      assert rows[at] == before[at];
    } else {
      assert prefix == series[..i];
      assert TotalPoints(series[..i]) == |before|;
      assert |rows| == |before| + |series[k].data|;
      assert rows[|before| + j] == PointRows(series[k].sensor, series[k].data)[j];
    }
  }

  /** Conversely every data row is the row of some reading. */
  lemma {:induction false} DataRowsFrom(series: seq<SensorSeries>, r: nat)
    requires r < |DataRows(series)|
    ensures exists i, j :: (0 <= i < |series| && 0 <= j < |series[i].data|
      && DataRows(series)[r] == PointRow(series[i].sensor, series[i].data[j]))
    decreases |series|
  {
    var k := |series| - 1;
    var prefix := series[..k];
    DataRowsLength(prefix);
    if r < |DataRows(prefix)| {
      DataRowsFrom(prefix, r);
      var i, j :| 0 <= i < |prefix| && 0 <= j < |prefix[i].data|
        && DataRows(prefix)[r] == PointRow(prefix[i].sensor, prefix[i].data[j]);
      assert series[i] == prefix[i];
    } else {
      var j := r - |DataRows(prefix)|;
      assert DataRows(series)[r] == PointRow(series[k].sensor, series[k].data[j]);
    }
  }

  /** When every series has `n` readings there are `|series| * n` of them. */
  lemma {:induction false} TotalPointsUniform(series: seq<SensorSeries>, n: nat)
    requires forall i :: 0 <= i < |series| ==> |series[i].data| == n
    ensures TotalPoints(series) == |series| * n
    decreases |series|
  {
    if |series| > 0 {
      TotalPointsUniform(series[..|series| - 1], n);
    }
  }

  /** Reading a CSV text back: split into lines at "\n", each line into
      fields at ",". */
  function ParseCsv(content: string): seq<seq<string>> {
    var lines := Split(content, '\n');
    seq(|lines|, i requires 0 <= i < |lines| => Split(lines[i], ','))
  }

  /** A field that neither separator can break. */
  predicate Plain(field: string) {
    ',' !in field && '\n' !in field
  }

  /** A row that survives the unescaped encoding: at least one field, and
      no separator in any field. */
  predicate PlainFields(row: seq<string>) {
    |row| >= 1 && forall f :: 0 <= f < |row| ==> Plain(row[f])
  }

  /** At least one row, each of them plain. */
  predicate PlainRows(rows: seq<seq<string>>) {
    |rows| >= 1 && forall i :: 0 <= i < |rows| ==> PlainFields(rows[i])
  }

  /** Without escaping, the encoding can be read back exactly when no field
      holds a separator. */
  lemma CsvRoundTrip(rows: seq<seq<string>>)
    requires PlainRows(rows)
    ensures ParseCsv(CsvContent(rows)) == rows
  {
    var lines := Lines(rows);
    forall i | 0 <= i < |lines|
      ensures '\n' !in lines[i]
      ensures Split(lines[i], ',') == rows[i]
    {
      JoinChars(rows[i], ',', '\n');
      SplitJoin(rows[i], ',');
    }
    SplitJoin(lines, '\n');
  }

  /** A comma in a field is not escaped: it splits the field in two when
      the file is read back. */
  lemma CommaBreaksRows()
    ensures ParseCsv(CsvContent([["a,b"]])) == [["a", "b"]]
  {
    var rows := [["a,b"]];
    var content := CsvContent(rows);
    assert Lines(rows) == ["a,b"];
    assert content == "a,b";
    SplitNoSeparator(content, '\n');
    assert "a" + [','] + "b" == "a,b";
    SplitAtSeparator("a", ',', "b");
    SplitNoSeparator("b", ',');
    assert Split("a,b", ',') == ["a", "b"];
    assert ParseCsv(content)[0] == ["a", "b"];
  }

  /** Neither the sensor id nor any time label of a series holds a
      separator. */
  predicate PlainSeries(s: SensorSeries) {
    Plain(s.sensor) && forall j :: 0 <= j < |s.data| ==> Plain(s.data[j].time)
  }

  predicate PlainAggregate(json: CompanyAggregate) {
    forall i :: 0 <= i < |json.sensors| ==> PlainSeries(json.sensors[i])
  }

  /** Every data row of a plain aggregate is plain: its time and sensor by
      assumption, its value because printed numbers hold no separator. */
  lemma {:induction false} DataRowsPlain(series: seq<SensorSeries>)
    requires forall i :: 0 <= i < |series| ==> PlainSeries(series[i])
    ensures forall r :: 0 <= r < |DataRows(series)| ==> PlainFields(DataRows(series)[r])
    decreases |series|
  {
    if |series| > 0 {
      var k := |series| - 1;
      var prefix := series[..k];
      DataRowsPlain(prefix);
      var rows := PointRows(series[k].sensor, series[k].data);
      forall j | 0 <= j < |rows|
        ensures PlainFields(rows[j])
      {
        var p := series[k].data[j];
        assert rows[j] == [p.time, series[k].sensor, Field(p.value)];
        if p.value.Some? {
          NumberToStringNoSeparators(p.value.value);
        }
      }
      assert DataRows(series) == DataRows(prefix) + rows;
    }
  }

  /** The header and the data rows of a plain aggregate come back unchanged
      from the exported text. */
  lemma JsonToCsvRoundTrip(json: CompanyAggregate)
    requires PlainAggregate(json)
    ensures ParseCsv(CsvContent([Header] + DataRows(json.sensors))) == [Header] + DataRows(json.sensors)
  {
    DataRowsPlain(json.sensors);
    var rows := [Header] + DataRows(json.sensors);
    assert PlainFields(Header);
    assert forall r :: 1 <= r < |rows| ==> rows[r] == DataRows(json.sensors)[r - 1];
    CsvRoundTrip(rows);
  }

  /** Every aggregate the aggregators return is plain: catalogue ids and
      "HH:00" labels hold neither separator. */
  lemma AggregateIsPlain(domain: Domain, request: CompanyRequest, now: Instant, rand: nat -> Draw)
    requires CompanySensorData(domain, request, now, rand).Success?
    ensures PlainAggregate(CompanySensorData(domain, request, now, rand).value)
  {
    var agg := CompanySensorData(domain, request, now, rand).value;
    var n := HourCount(CurrentHour(now));
    SeriesShape(domain, request, now, rand);
    SeriesTimes(domain, request, now, rand);
    forall i | 0 <= i < |agg.sensors|
      ensures Plain(agg.sensors[i].sensor)
    {
      assert ValidateSensor(request.sensors[i], MonitoringType(domain));
      match domain
      case Air => AirIdsPlain(request.sensors[i]);
      case Water => WaterIdsPlain(request.sensors[i]);
    }
    forall h | 0 <= h < n
      ensures Plain(HourLabel(h))
    {
      HourLabelDigits(h);
    }
  }

  /** No catalogue id holds a comma or a line break. */
  lemma AirIdsPlain(sensor: string)
    requires sensor in AirSensors
    ensures Plain(sensor)
  {
  }

  lemma WaterIdsPlain(sensor: string)
    requires sensor in WaterSensors
    ensures Plain(sensor)
  {
  }

  /** The export of an aggregator's result has one line per reading below
      the header, `|sensors| * min(currentHour, 19)` in all, and reads back
      into exactly those rows. */
  lemma ExportOfAggregate(domain: Domain, request: CompanyRequest, now: Instant, rand: nat -> Draw)
    requires CompanySensorData(domain, request, now, rand).Success?
    ensures var agg := CompanySensorData(domain, request, now, rand).value;
      var rows := [Header] + DataRows(agg.sensors);
      && ParseCsv(CsvContent(rows)) == rows
      && |rows| == 1 + |request.sensors| * HourCount(CurrentHour(now))
  {
    var agg := CompanySensorData(domain, request, now, rand).value;
    SeriesShape(domain, request, now, rand);
    AggregateIsPlain(domain, request, now, rand);
    JsonToCsvRoundTrip(agg);
    DataRowsLength(agg.sensors);
    TotalPointsUniform(agg.sensors, HourCount(CurrentHour(now)));
  }

  /** A single reading of 450 ppm of CO2 at midnight for "acme" on
      "2025-06-30". */
  lemma ExportExample(json: CompanyAggregate)
    requires json == CompanyAggregate("acme", "2025-06-30", Instant(0), 8,
        [SensorSeries("co2", [Point("00:00", Some(Decimal(450, 0)))])])
    ensures CsvFilename(json.company, json.date) == "acme,2025-06-30.csv"
    ensures CsvContent([Header] + DataRows(json.sensors)) == "time,sensor,value\n00:00,co2,450"
  {
    ExampleFilename();
    ExampleRows(json.sensors);
    assert [Header] + DataRows(json.sensors) == [Header, ["00:00", "co2", "450"]];
    ExampleContent();
  }

  lemma ExampleFilename()
    ensures CsvFilename("acme", "2025-06-30") == "acme,2025-06-30.csv"
  {
  }

  lemma ExampleContent()
    ensures CsvContent([Header, ["00:00", "co2", "450"]]) == "time,sensor,value\n00:00,co2,450"
  {
    ContentOfTwo(Header, ["00:00", "co2", "450"]);
    HeaderLine();
    RowLine();
    TwoLines("time,sensor,value", "00:00,co2,450");
  }

  lemma ContentOfTwo(a: seq<string>, b: seq<string>)
    ensures CsvContent([a, b]) == Join([Join(a, ','), Join(b, ',')], '\n')
  {
    assert Lines([a, b]) == [Join(a, ','), Join(b, ',')];
  }

  lemma ExampleRows(series: seq<SensorSeries>)
    requires series == [SensorSeries("co2", [Point("00:00", Some(Decimal(450, 0)))])]
    ensures DataRows(series) == [["00:00", "co2", "450"]]
  {
    FourHundredFifty();
    assert series[..0] == [];
    assert PointRows("co2", series[0].data) == [["00:00", "co2", "450"]];
  }

  lemma TwoLines(a: string, b: string)
    ensures Join([a, b], '\n') == a + "\n" + b
  {
    assert [a, b][1..] == [b];
  }

  lemma FourHundredFifty()
    ensures NumberToString(Decimal(450, 0)) == "450"
  {
    assert NatToString(4) == "4";
    assert NatToString(45) == "45";
    assert NatToString(450) == "450";
  }

  lemma HeaderLine()
    ensures Join(Header, ',') == "time,sensor,value"
  {
    JoinThree("time", "sensor", "value", ',');
  }

  lemma RowLine()
    ensures Join(["00:00", "co2", "450"], ',') == "00:00,co2,450"
  {
    JoinThree("00:00", "co2", "450", ',');
  }

  lemma JoinThree(a: string, b: string, c: string, sep: char)
    ensures Join([a, b, c], sep) == a + [sep] + b + [sep] + c
  {
    assert [a, b, c][1..] == [b, c];
    assert [b, c][1..] == [c];
    assert Join([c], sep) == c;
    assert Join([b, c], sep) == b + [sep] + c;
  }
}
