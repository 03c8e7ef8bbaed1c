/**
 * File import (components/data/DataImport.tsx): the extension decides the parser,
 * tokenised CSV rows or parsed JSON elements become points, and a successful
 * import hands exactly one new dataset to the store. The CSV tokenizer, the JSON
 * parser, `parseFloat`, the random colour and the clock are inputs here.
 */
module DataImport {
  import opened Common
  import opened Types
  import opened JsText
  import opened DataContext

  const UnsupportedFormat := "Unsupported file format. Please use CSV or JSON files."
  const JsonFailed := "Failed to parse JSON data"
  const ReadFailed := "Failed to read file"

  /** The message of the CSV tokenizer's error callback. */
  function CsvParsingError(message: string): string {
    "CSV parsing error: " + message
  }

  /** `Point ${index + 1}` */
  function DefaultLabel(i: nat): string {
    "Point " + NatToString(i + 1)
  }

  /** Two different positions never get the same default label. */
  lemma DefaultLabelInjective(i: nat, j: nat)
    requires DefaultLabel(i) == DefaultLabel(j)
    ensures i == j
  {
    var p := "Point ";
    assert DefaultLabel(i)[|p|..] == NatToString(i + 1);
    assert DefaultLabel(j)[|p|..] == NatToString(j + 1);
    NatToStringInjective(i + 1, j + 1);
  }

  // ---------------------------------------------------------------- dispatch

  /** `file.name.split('.').pop()?.toLowerCase()` */
  function Extension(fileName: string): (e: string)
    ensures '.' !in fileName ==> e == ToLower(fileName)
    ensures |e| <= |fileName|
  {
    ToLower(LastSegment(fileName, '.'))
  }

  /** The extension is the lower-cased text after the last dot: the file name ends with it, up to case, right after a dot. */
  lemma ExtensionIsLastSegment(fileName: string)
    ensures var raw := fileName[|fileName| - |Extension(fileName)|..];
            ToLower(raw) == Extension(fileName) && '.' !in raw
    ensures |Extension(fileName)| < |fileName| ==> fileName[|fileName| - |Extension(fileName)| - 1] == '.'
  {
  }

  datatype Parser = CsvParser | JsonParser | NoParser

  function ParserFor(fileName: string): (p: Parser)
    ensures p == CsvParser <==> Extension(fileName) == "csv"
    ensures p == JsonParser <==> Extension(fileName) == "json"
  {
    var e := Extension(fileName);
    if e == "csv" then CsvParser else if e == "json" then JsonParser else NoParser
  }

  // ---------------------------------------------------------------- CSV

  /** A row object from the header-mode tokenizer: its keys in order, and its fields. */
  datatype CsvRow = CsvRow(keys: seq<string>, fields: map<string, string>)

  /** A row as the tokenizer builds it: distinct keys, each with a field and no other field. */
  ghost predicate WellFormedRow(row: CsvRow) {
    && (forall a, b :: 0 <= a < b < |row.keys| ==> row.keys[a] != row.keys[b])
    && (forall k :: k in row.fields <==> k in row.keys)
  }

  /** `row[key]` */
  function Get(row: CsvRow, key: string): Option<string> {
    if key in row.fields then Some(row.fields[key]) else None
  }

  /** `Object.keys(row)[n]` used as a property name: past the last key it reads as "undefined". */
  function KeyAt(row: CsvRow, n: nat): string {
    if n < |row.keys| then row.keys[n] else "undefined"
  }

  /** A string field is truthy when present and non-empty. */
  predicate Truthy(s: Option<string>) {
    s.Some? && s.value != ""
  }

  /** The text `parseFloat` is given for y: `row[keys[1]] || row.value`; None stands for the fallback `0`. */
  function CsvYText(row: CsvRow): Option<string> {
    var second := Get(row, KeyAt(row, 1));
    if Truthy(second) then second
    else if Truthy(Get(row, "value")) then Get(row, "value")
    else None
  }

  /**
   * The point for row i: x is the position, the label is never empty (a non-empty
   * first column, else `Point {i+1}`), and the timestamp is the clock reading `now`.
   */
  function CsvPoint(row: CsvRow, i: nat, parseFloat: string -> real, now: string): (pt: DataPoint)
    ensures pt.x == i as real && pt.timestamp == Some(now)
    ensures pt.labelText.Some? && pt.labelText.value != ""
    ensures CsvYText(row).None? ==> pt.y == 0.0
  {
    var first := Get(row, KeyAt(row, 0));
    DataPoint(
      i as real,
      match CsvYText(row) case Some(t) => parseFloat(t) case None => 0.0,
      Some(if Truthy(first) then first.value else DefaultLabel(i)),
      Some(now))
  }

  /**
   * `results.data.map((row, index) => point)`: one point per row, in row order, each
   * stamped by its own clock reading `stampAt(index)`.
   */
  function CsvPoints(rows: seq<CsvRow>, parseFloat: string -> real, stampAt: nat -> string): (pts: seq<DataPoint>)
    ensures |pts| == |rows|
    ensures forall i :: 0 <= i < |pts| ==> pts[i].x == i as real && pts[i].timestamp == Some(stampAt(i))
    ensures forall i, j :: 0 <= i < j < |pts| ==> pts[i].x < pts[j].x
  {
    var pts := seq(|rows|, i requires 0 <= i < |rows| => CsvPoint(rows[i], i, parseFloat, stampAt(i)));
    assert forall i :: 0 <= i < |rows| ==> pts[i] == CsvPoint(rows[i], i, parseFloat, stampAt(i));
    pts
  }

  /**
   * The CSV rules, stated on the row itself: one point per row with x its position;
   * y parsed from the second column when that is non-empty, else from a non-empty
   * `value` column, else 0; the label is a non-empty first column, else `Point {i+1}`.
   */
  lemma CsvPointRules(rows: seq<CsvRow>, parseFloat: string -> real, stampAt: nat -> string, i: nat)
    requires i < |rows| && WellFormedRow(rows[i]) && "undefined" !in rows[i].keys
    ensures |CsvPoints(rows, parseFloat, stampAt)| == |rows|
    ensures var row, pt := rows[i], CsvPoints(rows, parseFloat, stampAt)[i];
      && pt.x == i as real
      && pt.timestamp == Some(stampAt(i))
      && (|row.keys| >= 2 && row.fields[row.keys[1]] != "" ==> pt.y == parseFloat(row.fields[row.keys[1]]))
      && (((|row.keys| < 2 || row.fields[row.keys[1]] == "") && "value" in row.fields && row.fields["value"] != "")
            ==> pt.y == parseFloat(row.fields["value"]))
      && (((|row.keys| < 2 || row.fields[row.keys[1]] == "") && ("value" !in row.fields || row.fields["value"] == ""))
            ==> pt.y == 0.0)
      && (|row.keys| >= 1 && row.fields[row.keys[0]] != "" ==> pt.labelText == Some(row.fields[row.keys[0]]))
      && ((|row.keys| == 0 || row.fields[row.keys[0]] == "") ==> pt.labelText == Some(DefaultLabel(i)))
  {
  }

  /** The rules above exclude a header named "undefined": a one-column row reads its y from such a column. */
  lemma CsvUndefinedKey(parseFloat: string -> real, stampAt: nat -> string)
    ensures var row := CsvRow(["undefined"], map["undefined" := "7"]);
            WellFormedRow(row) && CsvPoints([row], parseFloat, stampAt)[0].y == parseFloat("7")
  {
  }

  // ---------------------------------------------------------------- JSON

  /**
   * An element of the parsed array: `null` (reading a field of it throws), or a
   * value whose fields x, y, value (numbers) and label, timestamp (strings) may
   * be absent. A number, string or array element reads every field as absent.
   */
  datatype JsonItem = NullItem | Item(x: Option<real>, y: Option<real>, value: Option<real>,
                                      labelText: Option<string>, timestamp: Option<string>)

  /** The top-level value `JSON.parse` produced. */
  datatype JsonDoc = ArrayDoc(items: seq<JsonItem>) | NonArrayDoc

  /** A number field is truthy when present and not 0. */
  predicate NumTruthy(n: Option<real>) {
    n.Some? && n.value != 0.0
  }

  /**
   * `{ x: item.x || index, y: item.y || item.value || 0, label: item.label || ..., timestamp: item.timestamp || now }`:
   * x is 0 only for the first element, the label is never empty, and the timestamp
   * is the element's own when it has a non-empty one.
   */
  function JsonPoint(item: JsonItem, i: nat, now: string): (pt: DataPoint)
    requires item.Item?
    ensures pt.x == 0.0 ==> i == 0
    ensures pt.labelText.Some? && pt.labelText.value != ""
    ensures pt.timestamp == Some(if Truthy(item.timestamp) then item.timestamp.value else now)
  {
    DataPoint(
      if NumTruthy(item.x) then item.x.value else i as real,
      if NumTruthy(item.y) then item.y.value else if NumTruthy(item.value) then item.value.value else 0.0,
      Some(if Truthy(item.labelText) then item.labelText.value else DefaultLabel(i)),
      Some(if Truthy(item.timestamp) then item.timestamp.value else now))
  }

  /**
   * `jsonData.map(...)`, each element read with its own clock reading `stampAt(index)`;
   * it throws, and nothing is produced, when some element is null.
   */
  function JsonPoints(items: seq<JsonItem>, stampAt: nat -> string): (r: Option<seq<DataPoint>>)
    ensures r.None? <==> exists i :: 0 <= i < |items| && items[i].NullItem?
    ensures r.Some? ==> |r.value| == |items|
  {
    if exists i :: 0 <= i < |items| && items[i].NullItem? then None
    else Some(seq(|items|, i requires 0 <= i < |items| => JsonPoint(items[i], i, stampAt(i))))
  }

  /**
   * JavaScript's `||` on the fields: an absent or zero x falls back to the index,
   * a zero or absent y falls through to value and then to 0, and a missing or
   * empty label becomes `Point {i+1}`.
   */
  lemma JsonFallbacks(items: seq<JsonItem>, stampAt: nat -> string, i: nat)
    requires i < |items| && JsonPoints(items, stampAt).Some?
    ensures var it, pt := items[i], JsonPoints(items, stampAt).value[i];
      && (it.x == None || it.x == Some(0.0) ==> pt.x == i as real)
      && (it.x.Some? && it.x.value != 0.0 ==> pt.x == it.x.value)
      && (it.y.Some? && it.y.value != 0.0 ==> pt.y == it.y.value)
      && ((it.y == None || it.y == Some(0.0)) && it.value.Some? && it.value.value != 0.0 ==> pt.y == it.value.value)
      && ((it.y == None || it.y == Some(0.0)) && (it.value == None || it.value == Some(0.0)) ==> pt.y == 0.0)
      && (it.labelText.Some? && it.labelText.value != "" ==> pt.labelText == it.labelText)
      && (it.labelText == None || it.labelText == Some("") ==> pt.labelText == Some(DefaultLabel(i)))
      && (it.timestamp.Some? && it.timestamp.value != "" ==> pt.timestamp == it.timestamp)
      && (it.timestamp == None || it.timestamp == Some("") ==> pt.timestamp == Some(stampAt(i)))
  {
    assert JsonPoints(items, stampAt).value[i] == JsonPoint(items[i], i, stampAt(i));
  }

  // ---------------------------------------------------------------- import

  /** What the chosen reader delivered for the file. */
  datatype CsvOutcome = CsvRows(rows: seq<CsvRow>) | CsvError(message: string)
  datatype JsonOutcome = JsonText(doc: JsonDoc) | JsonSyntaxError | JsonReadError

  /** The file's name and what each reader would deliver for it; only the one the extension selects is used. */
  datatype UploadedFile = UploadedFile(name: string, csv: CsvOutcome, json: JsonOutcome)

  /** `user?.id || ''`: the signed-in user's id, or the empty string when nobody is signed in. */
  function OwnerId(user: Option<User>): (id: string)
    ensures user.Some? ==> id == user.value.id
    ensures user.None? ==> id == ""
  {
    match user
    case Some(u) => u.id
    case None => ""
  }

  /** The fixed fields every import gives the new dataset: a visible line chart owned by the signed-in user. */
  function Finish(name: string, data: seq<DataPoint>, color: string, user: Option<User>): (input: DatasetInput)
    ensures input.chartType == Line && input.visible && input.userId == OwnerId(user)
    ensures input.name == name && input.data == data && input.color == color
  {
    DatasetInput(name, data, color, Line, true, OwnerId(user))
  }

  /** How many points a successful import of the file produces. */
  function InputCount(file: UploadedFile): nat {
    match ParserFor(file.name)
    case CsvParser => (match file.csv case CsvRows(rows) => |rows| case CsvError(_) => 0)
    case JsonParser =>
      (match file.json case JsonText(ArrayDoc(items)) => |items| case _ => 0)
    case NoParser => 0
  }

  /** The dataset an upload hands to addDataset, or the error message the user sees. */
  function ImportFile(file: UploadedFile, user: Option<User>, parseFloat: string -> real,
                      color: string, stampAt: nat -> string): (r: Result<DatasetInput>)
    ensures ParserFor(file.name) == NoParser ==> r == Failure(UnsupportedFormat)
    ensures r.Success? ==> && r.value.chartType == Line && r.value.visible
                           && r.value.userId == OwnerId(user) && r.value.color == color
                           && |r.value.data| == InputCount(file)
    ensures (ParserFor(file.name) == JsonParser && file.json.JsonText? && file.json.doc.NonArrayDoc?)
              ==> r == Failure(JsonFailed)
  {
    match ParserFor(file.name)
    case NoParser => Failure(UnsupportedFormat)
    case CsvParser =>
      (match file.csv
       case CsvError(message) => Failure(CsvParsingError(message))
       case CsvRows(rows) =>
         Success(Finish(RemoveFirst(file.name, ".csv"), CsvPoints(rows, parseFloat, stampAt), color, user)))
    case JsonParser =>
      (match file.json
       case JsonReadError => Failure(ReadFailed)
       case JsonSyntaxError => Failure(JsonFailed)
       case JsonText(NonArrayDoc) => Failure(JsonFailed)
       case JsonText(ArrayDoc(items)) =>
         (match JsonPoints(items, stampAt)
          case None => Failure(JsonFailed)
          case Some(points) => Success(Finish(RemoveFirst(file.name, ".json"), points, color, user))))
  }

  /** Which uploads succeed: tokenised CSV, or a JSON array without a null element, under a matching extension. */
  lemma ImportSucceedsIff(file: UploadedFile, user: Option<User>, parseFloat: string -> real, color: string, stampAt: nat -> string)
    ensures ImportFile(file, user, parseFloat, color, stampAt).Success? <==>
              || (ParserFor(file.name) == CsvParser && file.csv.CsvRows?)
              || (ParserFor(file.name) == JsonParser && file.json.JsonText? && file.json.doc.ArrayDoc?
                  && forall i :: 0 <= i < |file.json.doc.items| ==> !file.json.doc.items[i].NullItem?)
  {
  }

  /** A successful import's name is the file name with the first case-sensitive `.csv` or `.json` cut out. */
  lemma ImportName(file: UploadedFile, user: Option<User>, parseFloat: string -> real, color: string, stampAt: nat -> string)
    requires ImportFile(file, user, parseFloat, color, stampAt).Success?
    ensures ImportFile(file, user, parseFloat, color, stampAt).value.name ==
              RemoveFirst(file.name, if ParserFor(file.name) == CsvParser then ".csv" else ".json")
  {
  }

  /** A successful import's points are exactly the mapped CSV rows or the mapped JSON elements. */
  lemma ImportPoints(file: UploadedFile, user: Option<User>, parseFloat: string -> real, color: string, stampAt: nat -> string)
    requires ImportFile(file, user, parseFloat, color, stampAt).Success?
    ensures ParserFor(file.name) == CsvParser ==>
              file.csv.CsvRows? && ImportFile(file, user, parseFloat, color, stampAt).value.data == CsvPoints(file.csv.rows, parseFloat, stampAt)
    ensures ParserFor(file.name) == JsonParser ==>
              file.json.JsonText? && file.json.doc.ArrayDoc? && JsonPoints(file.json.doc.items, stampAt).Some?
              && ImportFile(file, user, parseFloat, color, stampAt).value.data == JsonPoints(file.json.doc.items, stampAt).value
  {
  }

  /** An upper-case extension still selects the CSV parser... */
  lemma UpperCaseExtensionSelectsCsv()
    ensures ParserFor("DATA.CSV") == CsvParser
  {
    var s := "DATA.CSV";
    var k := LastIndexOf(s, '.').value;
    assert s[4] == '.';
    assert k == 4 by {
      assert s[5] != '.' && s[6] != '.' && s[7] != '.';
      assert s[..4] == "DATA";
    }
    assert LastSegment(s, '.') == "CSV";
    var e := ToLower("CSV");
    assert e[0] == 'c' && e[1] == 's' && e[2] == 'v';
    assert e == "csv";
  }

  /** ...but the case-sensitive `replace` leaves it in the dataset name. */
  lemma UpperCaseExtensionKept()
    ensures RemoveFirst("DATA.CSV", ".csv") == "DATA.CSV"
  {
    var s, p := "DATA.CSV", ".csv";
    forall j: nat
      ensures !OccursAt(s, p, j)
    {
      NoLowerCsvAt(s, j);
    }
    assert IndexOfFrom(s, p, 0).None?;
  }

  /** `.csv` does not occur at any position of `DATA.CSV`. */
  lemma NoLowerCsvAt(s: string, j: nat)
    requires s == "DATA.CSV"
    ensures !OccursAt(s, ".csv", j)
  {
    if j + 4 <= |s| {
      var w := s[j..j + 4];
      assert w[0] == s[j] && w[1] == s[j + 1];
      if j < 4 {
        assert w[0] != '.';
      } else {
        assert w[1] != 'c';
      }
    }
  }

  /** A file name whose stem has no dot loses exactly its `.csv` suffix. */
  lemma CsvSuffixStripped(stem: string)
    requires '.' !in stem
    ensures RemoveFirst(stem + ".csv", ".csv") == stem
  {
    var s := stem + ".csv";
    var n := |stem|;
    forall j: nat | j < n
      ensures !OccursAt(s, ".csv", j)
    {
      assert s[j] == stem[j] != '.';
      assert s[j..j + 4][0] == s[j];
    }
    assert s[n..n + 4] == ".csv";
    RemoveFirstCutsFirst(s, ".csv", n);
    assert s[..n] == stem && s[n + 4..] == [];
  }

  /** The CSV example: header `timestamp,value` and three dated rows. */
  lemma CsvExample(parseFloat: string -> real, stampAt: nat -> string)
    ensures var rows := [
              CsvRow(["timestamp", "value"], map["timestamp" := "2024-01-01", "value" := "10"]),
              CsvRow(["timestamp", "value"], map["timestamp" := "2024-01-02", "value" := "15"]),
              CsvRow(["timestamp", "value"], map["timestamp" := "2024-01-03", "value" := "12"])];
            var pts := CsvPoints(rows, parseFloat, stampAt);
            && |pts| == 3
            && pts[0] == DataPoint(0.0, parseFloat("10"), Some("2024-01-01"), Some(stampAt(0)))
            && pts[1] == DataPoint(1.0, parseFloat("15"), Some("2024-01-02"), Some(stampAt(1)))
            && pts[2] == DataPoint(2.0, parseFloat("12"), Some("2024-01-03"), Some(stampAt(2)))
  {
  }

  /** The JSON example `[{"x":1,"y":10},{"x":2,"y":15},{"x":3,"y":12}]`: x and y kept, labels defaulted. */
  lemma JsonExample(stampAt: nat -> string)
    ensures var items := [Item(Some(1.0), Some(10.0), None, None, None),
                          Item(Some(2.0), Some(15.0), None, None, None),
                          Item(Some(3.0), Some(12.0), None, None, None)];
            JsonPoints(items, stampAt) == Some([
              DataPoint(1.0, 10.0, Some("Point 1"), Some(stampAt(0))),
              DataPoint(2.0, 15.0, Some("Point 2"), Some(stampAt(1))),
              DataPoint(3.0, 12.0, Some("Point 3"), Some(stampAt(2)))])
  {
    var items := [Item(Some(1.0), Some(10.0), None, None, None),
                  Item(Some(2.0), Some(15.0), None, None, None),
                  Item(Some(3.0), Some(12.0), None, None, None)];
    assert forall i :: 0 <= i < |items| ==> !items[i].NullItem?;
    assert DefaultLabel(0) == "Point 1" && DefaultLabel(1) == "Point 2" && DefaultLabel(2) == "Point 3";
    var pts := JsonPoints(items, stampAt).value;
    assert pts[0] == JsonPoint(items[0], 0, stampAt(0)) == DataPoint(1.0, 10.0, Some("Point 1"), Some(stampAt(0)));
    assert pts[1] == JsonPoint(items[1], 1, stampAt(1)) == DataPoint(2.0, 15.0, Some("Point 2"), Some(stampAt(1)));
    assert pts[2] == JsonPoint(items[2], 2, stampAt(2)) == DataPoint(3.0, 12.0, Some("Point 3"), Some(stampAt(2)));
    assert |pts| == 3;
    assert pts == [pts[0], pts[1], pts[2]];
  }

  // ---------------------------------------------------------------- sample

  /**
   * `Array.from({ length: 20 }, (_, i) => point)`: y and the timestamp come from
   * floating-point, random and clock calls, so they are given per index.
   */
  function SamplePoints(wave: nat -> real, stampAt: nat -> string): (ps: seq<DataPoint>)
    ensures |ps| == 20
    ensures forall i :: 0 <= i < 20 ==> ps[i].x == i as real && ps[i].y == wave(i)
    ensures forall i :: 0 <= i < 20 ==> ps[i].labelText == Some(DefaultLabel(i)) && ps[i].timestamp == Some(stampAt(i))
  {
    seq(20, i requires 0 <= i < 20 => DataPoint(i as real, wave(i), Some(DefaultLabel(i)), Some(stampAt(i))))
  }

  /** The sample's x values strictly increase and no two of its labels are equal. */
  lemma SampleShape(wave: nat -> real, stampAt: nat -> string)
    ensures var ps := SamplePoints(wave, stampAt);
      && (forall i, j :: 0 <= i < j < 20 ==> ps[i].x < ps[j].x)
      && (forall i, j :: 0 <= i < j < 20 ==> ps[i].labelText != ps[j].labelText)
  {
    var ps := SamplePoints(wave, stampAt);
    forall i, j | 0 <= i < j < 20
      ensures ps[i].labelText != ps[j].labelText
    {
      if DefaultLabel(i) == DefaultLabel(j) {
        DefaultLabelInjective(i, j);
      }
    }
  }

  /** The upload panel: the `importing` flag, the error line, and the store it adds to. */
  class ImportPanel {
    var importing: bool
    var error: string
    const store: DataProvider

    constructor (store: DataProvider)
      ensures this.store == store && !importing && error == ""
    {
      this.store := store;
      importing := false;
      error := "";
    }

    /**
     * handleFileUpload: on success the store gains exactly the imported dataset
     * and the error is cleared; on failure the store is untouched and the error
     * shows the message. Either way importing ends false.
     */
    method HandleFileUpload(file: UploadedFile, user: Option<User>, parseFloat: string -> real,
                            color: string, stampAt: nat -> string, id: string, createdAt: string)
      modifies this, store
      ensures !importing
      ensures store.chartConfig == old(store.chartConfig)
      ensures match ImportFile(file, user, parseFloat, color, stampAt)
              case Success(input) =>
                error == "" && store.datasets == old(store.datasets) + [Stamp(input, id, createdAt)]
              case Failure(message) =>
                error == message && store.datasets == old(store.datasets)
    {
      importing := true;
      error := "";
      var outcome := ImportFile(file, user, parseFloat, color, stampAt);
      match outcome {
        case Success(input) =>
          store.AddDataset(input, id, createdAt);
        case Failure(message) =>
          error := message;
      }
      importing := false;
    }

    /** generateSampleData: adds one line dataset of twenty points named `Sample Data {millis}`. */
    method GenerateSampleData(wave: nat -> real, stampAt: nat -> string, millis: nat,
                              user: Option<User>, color: string, id: string, createdAt: string)
      modifies store
      ensures store.chartConfig == old(store.chartConfig)
      ensures store.datasets == old(store.datasets) +
                [Stamp(Finish("Sample Data " + NatToString(millis), SamplePoints(wave, stampAt), color, user),
                       id, createdAt)]
    {
      var input := Finish("Sample Data " + NatToString(millis), SamplePoints(wave, stampAt), color, user);
      store.AddDataset(input, id, createdAt);
    }
  }
}
