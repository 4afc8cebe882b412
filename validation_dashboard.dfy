/** The validation dashboard (`src/components/ValidationDashboard.tsx`): the locally kept list of
    validation records, its seven-day chart data and summary numbers, the records a scanned QR
    code adds, and the mock records the list starts with. Times are milliseconds since the
    epoch; the clock and `Math.random` are parameters. */
module ValidationDashboard {
  import opened Wrappers
  import opened Numbers
  import Text
  import Sorting
  import QrGenerator
  import Cbc
  import Base64Url

  datatype Place = Place(latitude: real, longitude: real, address: string)

  /** A validation record; `deviceId` is absent when a scanned text has no `/` in it. */
  datatype ValidationRecord = ValidationRecord(id: string, time: int, deviceId: Option<string>,
                                               deviceName: string, location: Place, status: string,
                                               reason: Option<string>)

  const Success := "success"
  const Failed := "failed"

  function TimeOf(v: ValidationRecord): int { v.time }

  // ---------------------------------------------------------------------------------------------
  // getDailyValidationData

  /** How many records with status `status` fall in the half-open interval `[lo, hi)`. */
  function CountIn(vs: seq<ValidationRecord>, lo: int, hi: int, status: string): nat {
    if vs == [] then 0
    else (if lo <= vs[0].time < hi && vs[0].status == status then 1 else 0) + CountIn(vs[1..], lo, hi, status)
  }

  /** Counting over `[a, c)` is counting over `[a, b)` and then over `[b, c)`. */
  lemma {:induction false} CountSplit(vs: seq<ValidationRecord>, a: int, b: int, c: int, status: string)
    requires a <= b <= c
    ensures CountIn(vs, a, c, status) == CountIn(vs, a, b, status) + CountIn(vs, b, c, status)
  {
    if vs != [] {
      CountSplit(vs[1..], a, b, c, status);
    }
  }

  /** The chart's entry for one day. */
  datatype DayBucket = DayBucket(date: int, success: nat, failed: nat, total: nat)

  /** One bucket per pair of neighbouring day starts: the successful and the failed records in
      `[days[i], days[i + 1])`, and their sum. */
  function Buckets(vs: seq<ValidationRecord>, days: seq<int>): (r: seq<DayBucket>)
    ensures |r| == if |days| == 0 then 0 else |days| - 1
    ensures forall i :: 0 <= i < |r| ==>
      r[i].date == days[i]
      && r[i].success == CountIn(vs, days[i], days[i + 1], Success)
      && r[i].failed == CountIn(vs, days[i], days[i + 1], Failed)
      && r[i].total == r[i].success + r[i].failed
    decreases |days|
  {
    if |days| < 2 then []
    else
      var s, f := CountIn(vs, days[0], days[1], Success), CountIn(vs, days[0], days[1], Failed);
      var rest := Buckets(vs, days[1..]);
      assert forall i :: 0 < i < |days| ==> days[1..][i - 1] == days[i];
      [DayBucket(days[0], s, f, s + f)] + rest
  }

  /** `getDailyValidationData()`. `days` holds the local midnights of the six days before today,
      of today and of tomorrow, in that order: eight day starts bound the seven buckets, oldest
      first. */
  function DailyValidationData(vs: seq<ValidationRecord>, days: seq<int>): (r: seq<DayBucket>)
    requires |days| == 8
    ensures |r| == 7
  {
    Buckets(vs, days)
  }

  ghost predicate Increasing(days: seq<int>) {
    forall i, j :: 0 <= i < j < |days| ==> days[i] < days[j]
  }

  /** With increasing day starts no record lies in two buckets. */
  lemma BucketsDisjoint(days: seq<int>, t: int, i: int, j: int)
    requires Increasing(days) && 0 <= i < j < |days| - 1
    requires days[i] <= t < days[i + 1]
    ensures !(days[j] <= t < days[j + 1])
  {
  }

  function SumTotals(bs: seq<DayBucket>): nat {
    if bs == [] then 0 else bs[0].total + SumTotals(bs[1..])
  }

  /** Together the buckets count every successful or failed record of the whole range exactly
      once. */
  lemma {:induction false} BucketsCoverRange(vs: seq<ValidationRecord>, days: seq<int>)
    requires |days| >= 1 && Increasing(days)
    ensures SumTotals(Buckets(vs, days)) ==
            CountIn(vs, days[0], days[|days| - 1], Success) + CountIn(vs, days[0], days[|days| - 1], Failed)
    decreases |days|
  {
    var last := days[|days| - 1];
    if |days| == 1 {
      CountSplit(vs, last, last, last, Success);
      CountSplit(vs, last, last, last, Failed);
    } else {
      BucketsCoverRange(vs, days[1..]);
      CountSplit(vs, days[0], days[1], last, Success);
      CountSplit(vs, days[0], days[1], last, Failed);
    }
  }

  // ---------------------------------------------------------------------------------------------
  // getValidationStats

  function CountStatus(vs: seq<ValidationRecord>, status: string): (n: nat)
    ensures n <= |vs|
  {
    if vs == [] then 0 else (if vs[0].status == status then 1 else 0) + CountStatus(vs[1..], status)
  }

  datatype Stats = Stats(total: nat, successful: nat, failed: int, successRate: string)

  /** `(successful / total * 100).toFixed(1)`, or `'0'` for an empty list. */
  function SuccessRate(successful: nat, total: nat): string {
    if total > 0 then FormatFixed(successful as real / total as real * 100.0, 1) else "0"
  }

  /** `getValidationStats()`: every record that is not a success counts as failed. */
  function ValidationStats(vs: seq<ValidationRecord>): (s: Stats)
    ensures s.total == |vs| && s.successful <= s.total && s.failed == s.total - s.successful
    ensures s.total == 0 ==> s.successRate == "0"
  {
    var total := |vs|;
    var successful := CountStatus(vs, Success);
    Stats(total, successful, total - successful, SuccessRate(successful, total))
  }

  /** When every record is a success or a failure, the failed number is the number of failed
      records. */
  lemma {:induction false} FailedAreFailures(vs: seq<ValidationRecord>)
    requires forall k :: 0 <= k < |vs| ==> vs[k].status == Success || vs[k].status == Failed
    ensures ValidationStats(vs).failed == CountStatus(vs, Failed)
  {
    if vs != [] {
      FailedAreFailures(vs[1..]);
    }
  }

  /** A non-empty list's rate reads back as the success percentage rounded to one decimal, at
      most 0.05 away from it. */
  lemma SuccessRateReadsBack(successful: nat, total: nat)
    requires total > 0
    ensures var pct := successful as real / total as real * 100.0;
            ParseDecimal(SuccessRate(successful, total)) == Some(FixedValue(pct, 1))
            && -0.5 <= (FixedValue(pct, 1) - pct) * 10.0 <= 0.5
  {
    var pct := successful as real / total as real * 100.0;
    assert SuccessRate(successful, total) == FormatFixed(pct, 1);
    OneDecimal(pct);
  }

  /** A value written with one decimal reads back as itself rounded to one decimal. */
  lemma OneDecimal(x: real)
    ensures ParseDecimal(FormatFixed(x, 1)) == Some(FixedValue(x, 1))
    ensures -0.5 <= (FixedValue(x, 1) - x) * 10.0 <= 0.5
  {
    FixedParses(x, 1);
    OneDecimalClose(x);
  }

  /** Rounded to one decimal, a value is at most 0.05 away. */
  lemma OneDecimalClose(x: real)
    ensures -0.5 <= (FixedValue(x, 1) - x) * 10.0 <= 0.5
  {
    FixedClose(x, 1);
    var e := FixedValue(x, 1) - x;
    assert Pow(10, 1) == 10;
    assert e * (Pow(10, 1) as real) == e * 10.0;
  }

  // ---------------------------------------------------------------------------------------------
  // processQRCode

  /** A device as the dashboard reads it from stored JSON. Only an array `location` has
      elements `[0]` and `[1]`; an object location, as the device managers keep, has none. */
  datatype StoredLocation = AsArray(items: seq<real>) | NotArray
  datatype StoredDevice = StoredDevice(id: string, name: string, location: StoredLocation, address: Option<string>)

  const DefaultLatitude := 48.1887
  const DefaultLongitude := 16.3767
  const UnknownLocation := "Unknown Location"
  const ScanFailureReason := "QR code validation failed"

  /** `urlParts[urlParts.length - 2]` of `qrData.split('/')`; absent when there is no `/`. */
  function SegmentBeforeLast(qrData: string): (r: Option<string>)
    ensures r.Some? ==> '/' !in r.value
  {
    var parts := Text.Split(qrData, '/');
    if |parts| >= 2 then Some(parts[|parts| - 2]) else None
  }

  /** The query text in front of the device id in a generated validation URL. */
  const CodeQuery := "validate?code="

  /** The device id of a scanned code: the segment before the last `/`, without the
      `validate?code=` in front that the generator's URLs put there. */
  function DeviceIdOf(qrData: string): Option<string> {
    match SegmentBeforeLast(qrData)
    case Some(segment) =>
      Some(if Text.StartsWith(segment, CodeQuery) then segment[|CodeQuery|..] else segment)
    case None => None
  }

  /** Five `/`-free pieces joined by `/` split back into those pieces. */
  lemma FiveSegments(a: string, b: string, c: string, d: string, e: string)
    requires '/' !in a && '/' !in b && '/' !in c && '/' !in d && '/' !in e
    ensures Text.Split(a + "/" + b + "/" + c + "/" + d + "/" + e, '/') == [a, b, c, d, e]
  {
    var r3 := d + "/" + e;
    var r2 := c + "/" + r3;
    var r1 := b + "/" + r2;
    Text.SplitWithoutSeparator(e, '/');
    PieceInFront(d, e, [e]);
    PieceInFront(c, r3, [d, e]);
    PieceInFront(b, r2, [c, d, e]);
    PieceInFront(a, r1, [b, c, d, e]);
    JoinedRightToLeft(a, b, c, d, e);
  }

  /** A `/`-free piece put in front with a `/` becomes the first segment. */
  lemma PieceInFront(a: string, rest: string, segments: seq<string>)
    requires '/' !in a && Text.Split(rest, '/') == segments
    ensures Text.Split(a + "/" + rest, '/') == [a] + segments
  {
    Text.SplitAfterPiece(a, '/', rest);
  }

  lemma JoinedRightToLeft(a: string, b: string, c: string, d: string, e: string)
    ensures a + "/" + b + "/" + c + "/" + d + "/" + e == a + "/" + (b + "/" + (c + "/" + (d + "/" + e)))
  {
  }

  lemma NoSlashInConcat(x: string, y: string)
    requires '/' !in x && '/' !in y
    ensures '/' !in x + y
  {
    assert forall i :: 0 <= i < |x + y| ==> (x + y)[i] == if i < |x| then x[i] else y[i - |x|];
  }

  /** The generator's base URL, cut where its `/`s are. */
  lemma BaseUrlPieces()
    ensures QrGenerator.BaseUrl == "http:" + "/" + "" + "/" + "localhost:8080" + "/" + CodeQuery
  {
    assert "http:" + "/" + "" + "/" == "http://";
    assert "http://" + "localhost:8080" + "/" == "http://localhost:8080/";
    assert "http://localhost:8080/" + CodeQuery == QrGenerator.BaseUrl;
  }

  /** The pieces of the base URL hold no `/`. */
  lemma BaseUrlPiecesSlashFree()
    ensures '/' !in "http:" && '/' !in "localhost:8080" && '/' !in CodeQuery
  {
    assert forall i :: 0 <= i < |CodeQuery| ==> CodeQuery[i] != '/';
    assert forall i :: 0 <= i < |"localhost:8080"| ==> "localhost:8080"[i] != '/';
    assert forall i :: 0 <= i < |"http:"| ==> "http:"[i] != '/';
  }

  /** The generator's URL, cut at `/`: scheme, empty piece, host, query with the id, payload. */
  lemma GeneratedUrlSegments(deviceId: string, encrypted: string)
    requires '/' !in deviceId && '/' !in encrypted
    ensures Text.Split(QrGenerator.ValidationUrl(deviceId, encrypted), '/') ==
            ["http:", "", "localhost:8080", CodeQuery + deviceId, encrypted]
  {
    BaseUrlPieces();
    BaseUrlPiecesSlashFree();
    var front := "http:" + "/" + "" + "/" + "localhost:8080" + "/";
    assert QrGenerator.BaseUrl == front + CodeQuery;
    assert QrGenerator.ValidationUrl(deviceId, encrypted) == front + (CodeQuery + deviceId) + "/" + encrypted;
    NoSlashInConcat(CodeQuery, deviceId);
    FiveSegments("http:", "", "localhost:8080", CodeQuery + deviceId, encrypted);
  }

  /** Read as written, the segment before the last `/` of a generated URL is the query text
      with the id, never the id itself. */
  lemma AsWrittenMissesDeviceId(deviceId: string, encrypted: string)
    requires '/' !in deviceId && '/' !in encrypted
    ensures SegmentBeforeLast(QrGenerator.ValidationUrl(deviceId, encrypted)) == Some(CodeQuery + deviceId)
    ensures SegmentBeforeLast(QrGenerator.ValidationUrl(deviceId, encrypted)) != Some(deviceId)
  {
    GeneratedUrlSegments(deviceId, encrypted);
  }

  /** The corrected reading recovers the device id from every generated code. */
  lemma DeviceIdOfGeneratedCode(c: Cbc.BlockCipher, secret: string, totp: string, lat: string, lng: string,
                                iv: Cbc.Block, deviceId: string)
    requires '/' !in deviceId
    ensures DeviceIdOf(QrGenerator.ValidationUrl(deviceId, QrGenerator.EncryptTotp(c, secret, totp, lat, lng, iv))) == Some(deviceId)
  {
    var encrypted := QrGenerator.EncryptTotp(c, secret, totp, lat, lng, iv);
    Base64Url.EncodeIsPathSafe(QrGenerator.Frame(c, QrGenerator.DeriveKey(secret), iv, QrGenerator.PlainText(totp, lat, lng)));
    GeneratedUrlSegments(deviceId, encrypted);
    assert (CodeQuery + deviceId)[..|CodeQuery|] == CodeQuery;
    assert (CodeQuery + deviceId)[|CodeQuery|..] == deviceId;
  }

  /** It also reads the `https://host/<device_id>/<data>` shape the page expects. */
  lemma DeviceIdOfPathCode(host: string, deviceId: string, data: string)
    requires '/' !in host && '/' !in deviceId && '/' !in data && !Text.StartsWith(deviceId, CodeQuery)
    ensures DeviceIdOf("https:" + "/" + "" + "/" + host + "/" + deviceId + "/" + data) == Some(deviceId)
  {
    FiveSegments("https:", "", host, deviceId, data);
  }

  /** `devices.find(d => d.id === deviceId)`: the first device with that id. */
  function FindDevice(devices: seq<StoredDevice>, id: Option<string>): (r: Option<StoredDevice>)
    ensures r.Some? ==> r.value in devices && id == Some(r.value.id)
    ensures r.None? ==> forall d :: d in devices ==> id != Some(d.id)
  {
    if devices == [] then None
    else if id == Some(devices[0].id) then Some(devices[0])
    else FindDevice(devices[1..], id)
  }

  /** `device.location?.[index] || fallback`: an element that is absent or zero gives the
      fallback. */
  function Coordinate(location: StoredLocation, index: nat, fallback: real): (r: real)
    ensures r != 0.0 || fallback == 0.0
    ensures location.AsArray? && index < |location.items| && location.items[index] != 0.0 ==> r == location.items[index]
  {
    if location.AsArray? && index < |location.items| && location.items[index] != 0.0
    then location.items[index] else fallback
  }

  /** A device stored at latitude 0 is recorded at the default latitude. */
  lemma ZeroLatitudeFallsBack(d: StoredDevice)
    requires d.location.AsArray? && |d.location.items| >= 1 && d.location.items[0] == 0.0
    ensures Coordinate(d.location, 0, DefaultLatitude) == DefaultLatitude
  {
  }

  /** `${deviceId}` in the fallback name, with `undefined` for a missing id. */
  function IdText(id: Option<string>): string {
    if id.Some? then id.value else "undefined"
  }

  /** The record a scan of device `deviceId` adds at time `now`, with `success` standing for
      `Math.random() > 0.2`: a stored device lends its name, coordinates and address; an unknown
      one is named after the id and placed at the default location. */
  function RecordFor(deviceId: Option<string>, devices: seq<StoredDevice>, now: int, success: bool): (r: ValidationRecord)
    ensures r.deviceId == deviceId && r.time == now
    ensures r.status == (if success then Success else Failed)
    ensures r.reason == (if success then None else Some(ScanFailureReason))
    ensures FindDevice(devices, deviceId).None? ==>
      r.deviceName == "Unknown Device (" + IdText(deviceId) + ")"
      && r.location == Place(DefaultLatitude, DefaultLongitude, UnknownLocation)
    ensures FindDevice(devices, deviceId).Some? ==> r.deviceName == FindDevice(devices, deviceId).value.name
  {
    var device := match FindDevice(devices, deviceId)
                  case Some(d) => d
                  case None => StoredDevice("", "Unknown Device (" + IdText(deviceId) + ")", NotArray, Some(UnknownLocation));
    var address := if device.address.Some? && device.address.value != "" then device.address.value else UnknownLocation;
    ValidationRecord("val-" + IntToString(now), now, deviceId, device.name,
                     Place(Coordinate(device.location, 0, DefaultLatitude), Coordinate(device.location, 1, DefaultLongitude), address),
                     if success then Success else Failed, if success then None else Some(ScanFailureReason))
  }

  /** The record `processQRCode` adds, for the id it takes as written: the segment before the
      last `/`. */
  function ScanRecord(qrData: string, devices: seq<StoredDevice>, now: int, success: bool): ValidationRecord {
    RecordFor(SegmentBeforeLast(qrData), devices, now, success)
  }

  /** The record with the id read as the generator writes it (see `DeviceIdOf`). */
  function CorrectedScanRecord(qrData: string, devices: seq<StoredDevice>, now: int, success: bool): ValidationRecord {
    RecordFor(DeviceIdOf(qrData), devices, now, success)
  }

  /** As written, a scan of a generated URL is recorded for the unknown device
      `validate?code=<id>` at the default place, whatever devices are stored under `<id>`. */
  lemma ScanOfGeneratedUrlIsUnknown(deviceId: string, encrypted: string, devices: seq<StoredDevice>, now: int, success: bool)
    requires '/' !in deviceId && '/' !in encrypted
    requires forall d :: d in devices ==> d.id != CodeQuery + deviceId
    ensures var r := ScanRecord(QrGenerator.ValidationUrl(deviceId, encrypted), devices, now, success);
            && r.deviceId == Some(CodeQuery + deviceId)
            && r.deviceName == "Unknown Device (" + CodeQuery + deviceId + ")"
            && r.location == Place(DefaultLatitude, DefaultLongitude, UnknownLocation)
  {
    AsWrittenMissesDeviceId(deviceId, encrypted);
  }

  /** Corrected, a scan of a generated URL is recorded for the device it was generated for,
      under that device's stored name. */
  lemma CorrectedScanFindsDevice(c: Cbc.BlockCipher, secret: string, totp: string, lat: string, lng: string,
                                 iv: Cbc.Block, deviceId: string, devices: seq<StoredDevice>, now: int, success: bool)
    requires '/' !in deviceId
    requires FindDevice(devices, Some(deviceId)).Some?
    ensures var r := CorrectedScanRecord(QrGenerator.ValidationUrl(deviceId, QrGenerator.EncryptTotp(c, secret, totp, lat, lng, iv)),
                                         devices, now, success);
            && r.deviceId == Some(deviceId)
            && r.deviceName == FindDevice(devices, Some(deviceId)).value.name
  {
    DeviceIdOfGeneratedCode(c, secret, totp, lat, lng, iv, deviceId);
  }

  // ---------------------------------------------------------------------------------------------
  // generateMockValidations

  /** The random draws of one loop round: a device index below 3, whether it succeeded
      (`Math.random() > 0.3`), the time step below one day in milliseconds, and a reason index
      below 4. */
  datatype Roll = Roll(device: nat, success: bool, step: nat, reason: nat)

  predicate ValidRoll(r: Roll) {
    r.device < 3 && r.step < 24 * 60 * 60 * 1000 && r.reason < 4
  }

  const MockDeviceIds := ["dev1", "dev2", "dev3"]
  const MockDeviceNames := ["ESP32 Office", "ESP32 Cafe", "ESP32 Park"]
  const MockPlaces := [Place(48.1907, 16.3747, "Stephansplatz 1, 1010 Wien"),
                       Place(48.1957, 16.3687, "Universitätsring, 1010 Wien"),
                       Place(48.1857, 16.3797, "Stadtpark, 1030 Wien")]
  const FailReasons := ["QR code expired", "Location mismatch", "Invalid signature", "Device not found"]

  /** The record of round `i`: device and place share the drawn index, the time lies `i` steps
      before `now`, and only a failure carries a reason. */
  function MockRecord(i: nat, roll: Roll, now: int): (v: ValidationRecord)
    requires ValidRoll(roll)
    ensures v.status == Success || v.status == Failed
    ensures v.status == Failed <==> v.reason.Some?
    ensures v.time <= now
  {
    assert i * roll.step >= 0;
    ValidationRecord("val-" + NatToString(i + 1), now - i * roll.step, Some(MockDeviceIds[roll.device]),
                     MockDeviceNames[roll.device], MockPlaces[roll.device],
                     if roll.success then Success else Failed,
                     if roll.success then None else Some(FailReasons[roll.reason]))
  }

  /** The records of rounds `0..|rolls|-1`, in round order. */
  function MockRecords(now: int, rolls: seq<Roll>): (r: seq<ValidationRecord>)
    requires forall k :: 0 <= k < |rolls| ==> ValidRoll(rolls[k])
    ensures |r| == |rolls|
    ensures forall k :: 0 <= k < |rolls| ==> r[k] == MockRecord(k, rolls[k], now)
  {
    seq(|rolls|, k requires 0 <= k < |rolls| => MockRecord(k, rolls[k], now))
  }

  /** The loop of `generateMockValidations`: one record pushed per round. */
  method PushMockRecords(now: int, rolls: seq<Roll>) returns (results: seq<ValidationRecord>)
    requires forall k :: 0 <= k < |rolls| ==> ValidRoll(rolls[k])
    ensures results == MockRecords(now, rolls)
  {
    results := [];
    var i := 0;
    while i < |rolls|
      invariant 0 <= i <= |rolls|
      invariant results == MockRecords(now, rolls[..i])
    {
      assert rolls[..i + 1][..i] == rolls[..i];
      assert results + [MockRecord(i, rolls[i], now)] == MockRecords(now, rolls[..i + 1]);
      results := results + [MockRecord(i, rolls[i], now)];
      i := i + 1;
    }
    assert rolls[..i] == rolls;
  }

  /** `generateMockValidations(count)`: one record per round, then sorted newest first. */
  method GenerateMockValidations(count: nat, now: int, rolls: seq<Roll>) returns (r: seq<ValidationRecord>)
    requires |rolls| == count && forall k :: 0 <= k < count ==> ValidRoll(rolls[k])
    ensures |r| == count
    ensures Sorting.NewestFirst(r, TimeOf)
    ensures multiset(r) == multiset(MockRecords(now, rolls))
    ensures forall v :: v in r ==> (v.status == Success || v.status == Failed) && (v.status == Failed <==> v.reason.Some?)
  {
    var results := PushMockRecords(now, rolls);
    var a := new ValidationRecord[|results|](k requires 0 <= k < |results| => results[k]);
    assert a[..] == results;
    Sorting.SortNewestFirst(a, TimeOf);
    r := a[..];
    assert |r| == |multiset(r)| == |multiset(results)| == count;
    forall v | v in r
      ensures (v.status == Success || v.status == Failed) && (v.status == Failed <==> v.reason.Some?)
    {
      assert v in multiset(results);
      var k :| 0 <= k < |results| && results[k] == v;
    }
  }

  // ---------------------------------------------------------------------------------------------
  // The component

  datatype Toast = Toast(title: string, description: string, destructive: bool)

  const QrErrorToast := Toast("QR Code Error", "Invalid QR code format. Please try again.", true)

  class Dashboard {
    var validations: seq<ValidationRecord>
    var showScanner: bool
    /** What storage holds under `geoProofValidations`. */
    var saved: Option<seq<ValidationRecord>>
    var toasts: seq<Toast>

    constructor(saved: Option<seq<ValidationRecord>>)
      ensures validations == [] && !showScanner && this.saved == saved && toasts == []
    {
      validations := [];
      showScanner := false;
      this.saved := saved;
      toasts := [];
    }

    /** The mount effect: stored records are shown; without any, twenty mock records are made,
        shown and stored. */
    method Mount(now: int, rolls: seq<Roll>)
      requires |rolls| == 20 && forall k :: 0 <= k < 20 ==> ValidRoll(rolls[k])
      modifies this
      ensures old(saved).Some? ==> validations == old(saved).value && saved == old(saved)
      ensures old(saved).None? ==> (saved == Some(validations) && |validations| == 20
        && Sorting.NewestFirst(validations, TimeOf)
        && multiset(validations) == multiset(MockRecords(now, rolls)))
      ensures showScanner == old(showScanner) && toasts == old(toasts)
    {
      if saved.Some? {
        validations := saved.value;
      } else {
        var mockData := GenerateMockValidations(20, now, rolls);
        validations := mockData;
        saved := Some(mockData);
      }
    }

    /** `processQRCode`. The scanner closes. When the stored devices can be read, the scan's
        record goes in front of the others, the list is stored, and a toast tells the outcome;
        otherwise only an error toast appears. `storedDevices` is `None` when reading them throws:
        the stored JSON does not parse, it parses to a value that is not an array (no `find`),
        or the array holds a `null` whose `id` cannot be read. Absent storage reads as the
        empty list. */
    method ProcessQrCode(qrData: string, storedDevices: Option<seq<StoredDevice>>, now: int, success: bool)
      modifies this
      ensures !showScanner
      ensures storedDevices.Some? ==> (
        validations == [ScanRecord(qrData, storedDevices.value, now, success)] + old(validations)
        && saved == Some(validations)
        && toasts == old(toasts) + [if success
             then Toast("Validation Successful", "Successfully validated location for " + validations[0].deviceName, false)
             else Toast("Validation Failed", ScanFailureReason, true)])
      ensures storedDevices.None? ==> (validations == old(validations) && saved == old(saved)
        && toasts == old(toasts) + [QrErrorToast])
    {
      showScanner := false;
      if storedDevices.None? {
        toasts := toasts + [QrErrorToast];
        return;
      }
      var newValidation := ScanRecord(qrData, storedDevices.value, now, success);
      validations := [newValidation] + validations;
      saved := Some(validations);
      if newValidation.status == Success {
        toasts := toasts + [Toast("Validation Successful", "Successfully validated location for " + newValidation.deviceName, false)];
      } else {
        toasts := toasts + [Toast("Validation Failed", ScanFailureReason, true)];
      }
    }
  }
}
