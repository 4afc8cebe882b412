/** The device registry and QR validation endpoints of the Flask backend (`backend/app.py`).
    The store is a map from device id to row; users are the set of known user ids. Verifying a
    JWT, checking a TOTP code, the block cipher and the clock are parameters. */
module DeviceApi {
  import opened Wrappers
  import opened Bytes
  import opened PyJson
  import Text
  import Utf8
  import Pkcs7
  import Cbc
  import Base64Url
  import Numbers
  import QrGenerator

  /** A row of the `device` table. Values taken from request bodies are kept as received; the
      conversions SQLite's column affinity applies are not modelled. `Storable` says which rows
      a commit accepts. */
  datatype DeviceRow = DeviceRow(
    id: string,
    userId: int,
    name: Json,
    hashedDeviceKey: Json,
    secret: Json,
    description: Json,
    status: Json,
    qrRefreshTime: Json,
    maxValidations: Json,
    latitude: Json,
    longitude: Json,
    address: Json,
    lastValidation: Option<string>,
    image: Json)

  /** A value the SQLite driver can bind to a column: lists and objects are refused. */
  predicate Scalar(j: Json) {
    !j.JArr? && !j.JObj?
  }

  /** The rows a commit accepts: `name` and `hashed_device_key` are `nullable=False`, and every
      column holds a value the driver can bind. Any other row makes the commit raise. */
  predicate Storable(d: DeviceRow) {
    && d.name != JNull && d.hashedDeviceKey != JNull
    && Scalar(d.name) && Scalar(d.hashedDeviceKey) && Scalar(d.secret) && Scalar(d.description)
    && Scalar(d.status) && Scalar(d.qrRefreshTime) && Scalar(d.maxValidations)
    && Scalar(d.latitude) && Scalar(d.longitude) && Scalar(d.address) && Scalar(d.image)
  }

  /** `Device.to_dict()`: the wire form of a row. `lastValidation` holds the ISO text of the
      stored time. */
  function ToDict(d: DeviceRow): map<string, Json> {
    map[
      "id" := JStr(d.id),
      "name" := d.name,
      "description" := d.description,
      "status" := d.status,
      "qrRefreshTime" := d.qrRefreshTime,
      "maxValidations" := d.maxValidations,
      "location" := if d.latitude != JNull && d.longitude != JNull then JArr([d.latitude, d.longitude]) else JNull,
      "address" := d.address,
      "lastValidation" := if d.lastValidation.Some? then JStr(d.lastValidation.value) else JNull,
      "image" := d.image,
      "secret" := d.secret,
      "hashed_device_key" := d.hashedDeviceKey
    ]
  }

  /** The wire form has exactly the twelve keys of `to_dict`. */
  lemma ToDictKeys(d: DeviceRow)
    ensures ToDict(d).Keys == {"id", "name", "description", "status", "qrRefreshTime", "maxValidations",
                               "location", "address", "lastValidation", "image", "secret", "hashed_device_key"}
  {
  }

  /** `location` is the pair exactly when both coordinates are set and null otherwise;
      `lastValidation` is null exactly when there was none. */
  lemma ToDictValues(d: DeviceRow)
    ensures var r := ToDict(d);
      && "location" in r && "lastValidation" in r && "id" in r && "secret" in r
      && (r["location"].JArr? <==> d.latitude != JNull && d.longitude != JNull)
      && (r["location"].JArr? ==> r["location"].items == [d.latitude, d.longitude])
      && (!r["location"].JArr? ==> r["location"] == JNull)
      && (r["lastValidation"] == JNull <==> d.lastValidation.None?)
      && r["id"] == JStr(d.id) && r["secret"] == d.secret
  {
  }

  /** What `jwt.decode` makes of a token: the `user_id` claim, or one of the two failures that
      `verify_token` turns into 401. */
  datatype TokenCheck = UserId(id: int) | Expired | Invalid

  /** The reasons the handlers abort with, each with its status code. */
  datatype Reason =
    | MissingToken | TokenExpired | TokenInvalid
    | InvalidJson | MissingFields | DuplicateId | UserNotFound
    | DeviceNotFound | NotAuthorized
    | MissingSecret | DecryptionError | InvalidDataFormat | InvalidTotp

  function StatusOf(reason: Reason): (code: int)
    ensures code in {400, 401, 403, 404}
  {
    match reason
    case MissingToken | TokenExpired | TokenInvalid => 401
    case NotAuthorized => 403
    case UserNotFound | DeviceNotFound => 404
    case _ => 400
  }

  /** A handler's outcome: a JSON reply, an `abort`, or an exception Flask answers with 500. */
  datatype Response = Reply(status: int, body: Json) | Abort(reason: Reason) | ServerError

  function Code(r: Response): int {
    match r
    case Reply(status, _) => status
    case Abort(reason) => StatusOf(reason)
    case ServerError => 500
  }

  /** The bearer token of an `Authorization` header: absent, empty or not starting with
      `"Bearer "` gives none; otherwise the second piece of `header.split(' ')`. */
  function BearerToken(header: Option<string>): (t: Option<string>)
    ensures t.Some? <==> header.Some? && Text.StartsWith(header.value, "Bearer ")
    ensures t.Some? ==> ' ' !in t.value
  {
    if header.None? || header.value == "" || !Text.StartsWith(header.value, "Bearer ") then None
    else
      var h := header.value;
      BearerPieces(h);
      Some(Text.Split(h, ' ')[1])
  }

  /** A header starting with `"Bearer "` splits into at least two pieces, the second being the
      text up to the next space. */
  lemma BearerPieces(h: string)
    requires Text.StartsWith(h, "Bearer ")
    ensures |Text.Split(h, ' ')| >= 2
    ensures Text.Split(h, ' ')[1] == Text.Split(h[7..], ' ')[0]
  {
    assert h == "Bearer" + [' '] + h[7..];
    Text.SplitAfterPiece("Bearer", ' ', h[7..]);
  }

  /** The header guard and `verify_token` together: the caller's user id, or the 401 to answer. */
  function Authenticate(header: Option<string>, checkToken: string -> TokenCheck): (r: Result<int, Reason>)
    ensures BearerToken(header).None? ==> r == Err(MissingToken)
    ensures r.Err? ==> StatusOf(r.error) == 401
    ensures r.Ok? <==> BearerToken(header).Some? && checkToken(BearerToken(header).value).UserId?
  {
    match BearerToken(header)
    case None => Err(MissingToken)
    case Some(token) =>
      match checkToken(token)
      case UserId(id) => Ok(id)
      case Expired => Err(TokenExpired)
      case Invalid => Err(TokenInvalid)
  }

  /** The fields `add_device` insists on. */
  const RequiredFields: seq<string> := ["id", "name", "location", "hashed_device_key"]

  /** `all(field in data for field in required_fields)`, stopping at the first missing field;
      `None` when `in` raises. */
  function AllPresent(data: Json, fields: seq<string>): (r: Option<bool>)
    ensures data.JObj? ==> r == Some(forall k :: 0 <= k < |fields| ==> fields[k] in data.fields)
    decreases |fields|
  {
    if |fields| == 0 then Some(true)
    else
      match HasKey(data, fields[0])
      case None => None
      case Some(false) => Some(false)
      case Some(true) => AllPresent(data, fields[1..])
  }

  /** The id of an add request whose body is an object with a text `id`. */
  function RequestId(data: Json): (r: Option<string>)
    ensures r.Some? ==> data.JObj? && "id" in data.fields && data.fields["id"] == JStr(r.value)
  {
    if data.JObj? && "id" in data.fields && data.fields["id"].JStr? then Some(data.fields["id"].s) else None
  }

  /** `(data['location'][0], data['location'][1]) if data.get('location') and
      len(data['location']) == 2 else (None, None)`; `None` when `len` or indexing raises. */
  function Coordinates(location: Json): (r: Option<(Json, Json)>)
    ensures !Truthy(location) ==> r == Some((JNull, JNull))
    ensures r.Some? && r.value != (JNull, JNull) ==> Len(location) == Some(2)
    ensures location.JArr? && |location.items| == 2 ==> r == Some((location.items[0], location.items[1]))
    ensures location.JArr? && |location.items| != 2 ==> r == Some((JNull, JNull))
  {
    if !Truthy(location) then Some((JNull, JNull))
    else
      match Len(location)
      case None => None
      case Some(n) =>
        if n != 2 then Some((JNull, JNull))
        else
          match (Index(location, 0), Index(location, 1))
          case (Some(a), Some(b)) => Some((a, b))
          case _ => None
  }

  /** The value a column with a default gets from `add_device`'s INSERT: the ORM leaves a `None`
      attribute out of the statement, so both an absent key and an explicit `null` give the
      column default. */
  function WithDefault(fields: map<string, Json>, key: string, default: Json): (r: Json)
    ensures key in fields && fields[key] != JNull ==> r == fields[key]
    ensures key !in fields || fields[key] == JNull ==> r == default
    ensures default != JNull ==> r != JNull
  {
    match Get(fields, key, JNull)
    case JNull => default
    case v => v
  }

  /** The row `add_device` builds from a request object, owned by `userId`; `None` when reading
      the location raises. */
  function NewDevice(id: string, fields: map<string, Json>, userId: int): (r: Option<DeviceRow>)
    requires "name" in fields && "location" in fields && "hashed_device_key" in fields
    ensures r.Some? <==> Coordinates(fields["location"]).Some?
    ensures r.Some? ==> var d := r.value;
      && d.id == id && d.userId == userId && d.lastValidation.None?
      && d.name == fields["name"] && d.hashedDeviceKey == fields["hashed_device_key"]
      && d.secret == (if "secret" in fields then fields["secret"] else JNull)
      && d.description == (if "description" in fields then fields["description"] else JNull)
      && d.address == (if "address" in fields then fields["address"] else JNull)
      && d.image == (if "image" in fields then fields["image"] else JNull)
      && d.status == (if "status" in fields && fields["status"] != JNull then fields["status"] else JStr("active"))
      && d.qrRefreshTime == (if "qrRefreshTime" in fields && fields["qrRefreshTime"] != JNull then fields["qrRefreshTime"] else JNum(60.0))
      && d.maxValidations == (if "maxValidations" in fields && fields["maxValidations"] != JNull then fields["maxValidations"] else JNum(5.0))
      && (d.latitude, d.longitude) == Coordinates(fields["location"]).value
  {
    match Coordinates(fields["location"])
    case None => None
    case Some((lat, lng)) =>
      Some(DeviceRow(
        id := id,
        userId := userId,
        name := fields["name"],
        hashedDeviceKey := fields["hashed_device_key"],
        secret := GetOrNull(fields, "secret"),
        description := GetOrNull(fields, "description"),
        status := WithDefault(fields, "status", JStr("active")),
        qrRefreshTime := WithDefault(fields, "qrRefreshTime", JNum(60.0)),
        maxValidations := WithDefault(fields, "maxValidations", JNum(5.0)),
        latitude := lat,
        longitude := lng,
        address := GetOrNull(fields, "address"),
        lastValidation := None,
        image := GetOrNull(fields, "image")))
  }

  /** The fields `update_device` changes: each one present in the request replaces the stored
      value; the location changes only for a truthy two-element value, the secret only when the
      key is present. `None` when reading the location raises. */
  function Merge(d: DeviceRow, fields: map<string, Json>): (r: Option<DeviceRow>)
    ensures "location" !in fields ==> r.Some?
    ensures r.Some? ==> var m := r.value;
      && m.id == d.id && m.userId == d.userId && m.hashedDeviceKey == d.hashedDeviceKey
      && m.lastValidation == d.lastValidation
      && ("name" !in fields ==> m.name == d.name)
      && ("description" !in fields ==> m.description == d.description)
      && ("status" !in fields ==> m.status == d.status)
      && ("qrRefreshTime" !in fields ==> m.qrRefreshTime == d.qrRefreshTime)
      && ("maxValidations" !in fields ==> m.maxValidations == d.maxValidations)
      && ("address" !in fields ==> m.address == d.address)
      && ("image" !in fields ==> m.image == d.image)
      && ("secret" !in fields ==> m.secret == d.secret)
    ensures r.Some? ==> var m := r.value;
      && ("name" in fields ==> m.name == fields["name"])
      && ("description" in fields ==> m.description == fields["description"])
      && ("status" in fields ==> m.status == fields["status"])
      && ("qrRefreshTime" in fields ==> m.qrRefreshTime == fields["qrRefreshTime"])
      && ("maxValidations" in fields ==> m.maxValidations == fields["maxValidations"])
      && ("address" in fields ==> m.address == fields["address"])
      && ("image" in fields ==> m.image == fields["image"])
      && ("secret" in fields ==> m.secret == fields["secret"])
  {
    match LocationUpdate(fields)
    case None => None
    case Some(c) =>
      Some(d.(
        name := Get(fields, "name", d.name),
        description := Get(fields, "description", d.description),
        status := Get(fields, "status", d.status),
        qrRefreshTime := Get(fields, "qrRefreshTime", d.qrRefreshTime),
        maxValidations := Get(fields, "maxValidations", d.maxValidations),
        latitude := if c.Some? then c.value.0 else d.latitude,
        longitude := if c.Some? then c.value.1 else d.longitude,
        address := Get(fields, "address", d.address),
        image := Get(fields, "image", d.image),
        secret := Get(fields, "secret", d.secret)))
  }

  /** The new coordinates an update body asks for: `Some(None)` to keep them, `None` when
      reading the location raises. */
  function LocationUpdate(fields: map<string, Json>): Option<Option<(Json, Json)>> {
    if "location" !in fields then Some(None)
    else match Coordinates(fields["location"])
      case None => None
      case Some(c) => if Truthy(fields["location"]) && Len(fields["location"]) == Some(2) then Some(Some(c)) else Some(None)
  }

  /** The location moves only with a truthy two-element value, and then to exactly its elements. */
  lemma MergeLocation(d: DeviceRow, fields: map<string, Json>)
    requires Merge(d, fields).Some?
    ensures var m := Merge(d, fields).value;
      if "location" in fields && Truthy(fields["location"]) && Len(fields["location"]) == Some(2)
      then (m.latitude, m.longitude) == Coordinates(fields["location"]).value
      else m.latitude == d.latitude && m.longitude == d.longitude
  {
  }

  /** An empty request changes nothing: merging no fields is the identity. */
  lemma MergeNothing(d: DeviceRow)
    ensures Merge(d, map[]) == Some(d)
  {
  }

  /** The key `decrypt_totp` uses: `secret_key.encode('utf-8').ljust(32, b'\0')[:32]`. */
  function DecryptionKey(secret: string): (k: Cbc.Key)
  {
    var e := Utf8.Encode(secret);
    if |e| >= 32 then e[..32] else e + Zeros(32 - |e|)
  }

  /** The validator derives the same key as the generator. */
  lemma KeysAgree(secret: string)
    ensures DecryptionKey(secret) == QrGenerator.DeriveKey(secret)
  {
    var e := Utf8.Encode(secret);
    var a, b := DecryptionKey(secret), QrGenerator.DeriveKey(secret);
    forall i | 0 <= i < 32 ensures a[i] == b[i] {
      if i < |e| {
        assert a[i] == e[i];
      } else {
        assert a[i] == 0;
      }
    }
  }

  /** Why `decrypt_totp` raises: the secret is not text, the payload is not base64, the IV or
      ciphertext has the wrong length, the padding is wrong, or the plaintext is not UTF-8. */
  datatype DecryptFailure =
    | SecretNotText
    | BadBase64(b64: Base64Url.DecodeError)
    | BadCipherInput(cbc: Cbc.CbcError)
    | BadPadding(pad: Pkcs7.UnpadError)
    | BadText

  /** `decrypt_totp(secret, cipher_text)`: the first 16 decoded octets are the IV, the rest the
      ciphertext. */
  function DecryptTotp(c: Cbc.BlockCipher, secret: Json, cipherText: string): (r: Result<string, DecryptFailure>)
    ensures !secret.JStr? ==> r == Err(SecretNotText)
  {
    if !secret.JStr? then Err(SecretNotText)
    else
      var key := DecryptionKey(secret.s);
      match Base64Url.Decode(cipherText)
      case Err(e) => Err(BadBase64(e))
      case Ok(framed) =>
        var n := if |framed| < 16 then |framed| else 16;
        var iv, body := framed[..n], framed[n..];
        match Cbc.DecryptWithIv(c, key, iv, body)
        case Err(e) => Err(BadCipherInput(e))
        case Ok(padded) =>
          match Pkcs7.Unpad(padded)
          case Err(e) => Err(BadPadding(e))
          case Ok(plain) =>
            match Utf8.Decode(plain)
            case None => Err(BadText)
            case Some(text) => Ok(text)
  }

  /** `totp_number, esp_lat, esp_lng = data.split('|')` followed by `float()` of both
      coordinates; `None` is the `ValueError`. */
  function ParsePayload(text: string): (r: Option<(string, real, real)>)
    ensures r.Some? <==> |Text.Split(text, '|')| == 3
                         && Numbers.ParseDecimal(Text.Split(text, '|')[1]).Some?
                         && Numbers.ParseDecimal(Text.Split(text, '|')[2]).Some?
    ensures r.Some? ==> r.value.0 == Text.Split(text, '|')[0]
  {
    var parts := Text.Split(text, '|');
    if |parts| != 3 then None
    else
      match (Numbers.ParseDecimal(parts[1]), Numbers.ParseDecimal(parts[2]))
      case (Some(lat), Some(lng)) => Some((parts[0], lat, lng))
      case _ => None
  }

  /** End to end: the URL the generator makes for a device carries, after the id and a `/`, a
      payload that the validator decrypts with the same secret and parses back to the TOTP code
      and coordinates the generator used. */
  lemma GeneratedUrlReadsBack(c: Cbc.BlockCipher, devices: map<string, Option<string>>, deviceId: string,
                              lat: string, lng: string, secret: Option<string>,
                              totpNow: string -> Option<string>, iv: Cbc.Block, latValue: real, lngValue: real)
    requires Cbc.Inverts(c)
    requires QrGenerator.SecretFor(devices, deviceId, secret).Ok?
    requires totpNow(QrGenerator.SecretFor(devices, deviceId, secret).value).Some?
    requires '|' !in totpNow(QrGenerator.SecretFor(devices, deviceId, secret).value).value
    requires Numbers.ParseDecimal(lat) == Some(latValue) && Numbers.ParseDecimal(lng) == Some(lngValue)
    ensures var s := QrGenerator.SecretFor(devices, deviceId, secret).value;
            var code := totpNow(s).value;
            var payload := QrGenerator.EncryptTotp(c, s, code, lat, lng, iv);
            && QrGenerator.GenerateTotpQr(c, devices, deviceId, lat, lng, secret, totpNow, iv)
               == Ok(QrGenerator.ValidationUrl(deviceId, payload))
            && DecryptTotp(c, JStr(s), payload).Ok?
            && ParsePayload(DecryptTotp(c, JStr(s), payload).value) == Some((code, latValue, lngValue))
  {
    var s := QrGenerator.SecretFor(devices, deviceId, secret).value;
    var code := totpNow(s).value;
    GeneratedPayloadDecrypts(c, s, code, lat, lng, iv);
    GeneratedPayloadParses(code, lat, lng, latValue, lngValue);
  }

  /** An add request's body: an object carrying every required field, with a text id. */
  predicate CompleteRequest(data: Json) {
    && data.JObj? && "id" in data.fields && data.fields["id"].JStr?
    && "name" in data.fields && "location" in data.fields && "hashed_device_key" in data.fields
  }

  /** Round trip of the QR payload: what the generator encrypts for a device, the validator
      decrypts with the same secret back to `totp|lat|lng`, and parses back to the TOTP code and
      the coordinates, provided the block cipher's decryption inverts its encryption. */
  lemma GeneratedPayloadDecrypts(c: Cbc.BlockCipher, secret: string, totp: string, lat: string, lng: string, iv: Cbc.Block)
    requires Cbc.Inverts(c)
    ensures DecryptTotp(c, JStr(secret), QrGenerator.EncryptTotp(c, secret, totp, lat, lng, iv))
         == Ok(QrGenerator.PlainText(totp, lat, lng))
  {
    var key := QrGenerator.DeriveKey(secret);
    KeysAgree(secret);
    var plain := QrGenerator.PlainText(totp, lat, lng);
    var padded := Pkcs7.Pad(Utf8.Encode(plain));
    var framed := QrGenerator.Frame(c, key, iv, plain);
    Base64Url.DecodeEncode(framed);
    assert framed[..16] == iv && framed[16..] == Cbc.Encrypt(c, key, iv, padded);
    Cbc.DecryptEncrypt(c, key, iv, padded);
    Pkcs7.UnpadPad(Utf8.Encode(plain));
    Utf8.DecodeEncode(plain);
  }

  /** The decrypted payload of a generated code parses back to the code and coordinates it was
      made from, when the code holds no `|` and both coordinates are decimal text. */
  lemma GeneratedPayloadParses(totp: string, lat: string, lng: string, latValue: real, lngValue: real)
    requires '|' !in totp
    requires Numbers.ParseDecimal(lat) == Some(latValue) && Numbers.ParseDecimal(lng) == Some(lngValue)
    ensures ParsePayload(QrGenerator.PlainText(totp, lat, lng)) == Some((totp, latValue, lngValue))
  {
    Numbers.DecimalCharsOnly(lat);
    Numbers.DecimalCharsOnly(lng);
    QrGenerator.PlainTextFields(totp, lat, lng);
  }

  /** The assignments of `update_device`, one field after another, on a copy of the row; `None`
      when reading the location raises. */
  method MergeFields(d: DeviceRow, fields: map<string, Json>) returns (r: Option<DeviceRow>)
    ensures r == Merge(d, fields)
  {
    var device := d;
    device := device.(name := Get(fields, "name", device.name));
    device := device.(description := Get(fields, "description", device.description));
    device := device.(status := Get(fields, "status", device.status));
    device := device.(qrRefreshTime := Get(fields, "qrRefreshTime", device.qrRefreshTime));
    device := device.(maxValidations := Get(fields, "maxValidations", device.maxValidations));
    if "location" in fields && Truthy(fields["location"]) {
      var loc := fields["location"];
      var n := Len(loc);
      if n.None? {
        return None;
      }
      if n.value == 2 {
        var lat, lng := Index(loc, 0), Index(loc, 1);
        if lat.None? || lng.None? {
          return None;
        }
        device := device.(latitude := lat.value);
        device := device.(longitude := lng.value);
      }
    }
    device := device.(address := Get(fields, "address", device.address));
    device := device.(image := Get(fields, "image", device.image));
    if "secret" in fields {
      device := device.(secret := fields["secret"]);
    }
    r := Some(device);
  }

  class DeviceStore {
    var devices: map<string, DeviceRow>
    var users: set<int>

    /** Every row is filed under its own id and is one a commit accepts. */
    predicate Valid()
      reads this
    {
      forall id :: id in devices ==> devices[id].id == id && Storable(devices[id])
    }

    constructor(users: set<int>)
      ensures Valid()
      ensures this.devices == map[] && this.users == users
    {
      this.devices := map[];
      this.users := users;
    }

    /** `GET /api/devices/<id>`: the device's wire form, or 404. */
    method GetDevice(deviceId: string) returns (r: Response)
      ensures deviceId in devices ==> r == Reply(200, JObj(ToDict(devices[deviceId])))
      ensures deviceId !in devices ==> r == Abort(DeviceNotFound)
    {
      if deviceId !in devices {
        return Abort(DeviceNotFound);
      }
      r := Reply(200, JObj(ToDict(devices[deviceId])));
    }

    /** `POST /api/devices`: the checks run in order (401, 400 for an empty body, 400 for a
        missing field, 400 for a taken id, 404 for an unknown user) and only then is exactly one
        device, owned by the caller, inserted; a row the commit refuses is a 500. */
    method AddDevice(header: Option<string>, checkToken: string -> TokenCheck, data: Json) returns (r: Response)
      requires Valid()
      modifies this
      ensures Valid() && users == old(users)
      ensures Authenticate(header, checkToken).Err? ==> r == Abort(Authenticate(header, checkToken).error)
      ensures Authenticate(header, checkToken).Ok? && !Truthy(data) ==> r == Abort(InvalidJson)
      ensures (Authenticate(header, checkToken).Ok? && Truthy(data) && AllPresent(data, RequiredFields) == Some(false))
              ==> r == Abort(MissingFields)
      ensures Authenticate(header, checkToken).Ok? && CompleteRequest(data) ==> (
        var u := Authenticate(header, checkToken).value;
        var id := data.fields["id"].s;
        var row := NewDevice(id, data.fields, u);
        && (id in old(devices) ==> r == Abort(DuplicateId))
        && (id !in old(devices) && u !in users ==> r == Abort(UserNotFound))
        && (id !in old(devices) && u in users && row.Some? && Storable(row.value) ==>
              r == Reply(201, JObj(ToDict(row.value))) && devices == old(devices)[id := row.value])
        && (id !in old(devices) && u in users && !(row.Some? && Storable(row.value)) ==> r == ServerError))
      ensures r.Reply? ==> (
        && r.status == 201 && RequestId(data).Some? && AllPresent(data, RequiredFields) == Some(true)
        && var id := RequestId(data).value;
        && id !in old(devices) && id in devices
        && Authenticate(header, checkToken) == Ok(devices[id].userId)
        && devices[id].userId in users
        && NewDevice(id, data.fields, devices[id].userId) == Some(devices[id])
        && devices == old(devices)[id := devices[id]]
        && r.body == JObj(ToDict(devices[id])))
      ensures !r.Reply? ==> devices == old(devices)
    {
      var auth := Authenticate(header, checkToken);
      if auth.Err? {
        return Abort(auth.error);
      }
      var userId := auth.value;
      if !Truthy(data) {
        return Abort(InvalidJson);
      }
      var present := AllPresent(data, RequiredFields);
      if present.None? {
        return ServerError;
      }
      if !present.value {
        return Abort(MissingFields);
      }
      if !data.JObj? || !data.fields["id"].JStr? {
        return ServerError;
      }
      var fields := data.fields;
      var id := fields["id"].s;
      if id in devices {
        return Abort(DuplicateId);
      }
      if userId !in users {
        return Abort(UserNotFound);
      }
      var row := NewDevice(id, fields, userId);
      if row.None? || !Storable(row.value) {
        return ServerError;
      }
      devices := devices[id := row.value];
      r := Reply(201, JObj(ToDict(row.value)));
    }

    /** `PUT /api/devices/<id>`: 401, then 404 for an unknown device, then 403 for a device of
        another user, then 400 for an empty body; only then are the request's fields merged into
        the row, one after another, and the row committed. */
    method UpdateDevice(deviceId: string, header: Option<string>, checkToken: string -> TokenCheck, data: Json) returns (r: Response)
      requires Valid()
      modifies this
      ensures Valid() && users == old(users)
      ensures Authenticate(header, checkToken).Err? ==> r == Abort(Authenticate(header, checkToken).error)
      ensures Authenticate(header, checkToken).Ok? && deviceId !in old(devices) ==> r == Abort(DeviceNotFound)
      ensures (Authenticate(header, checkToken).Ok? && deviceId in old(devices)
               && old(devices)[deviceId].userId != Authenticate(header, checkToken).value) ==> r == Abort(NotAuthorized)
      ensures (Authenticate(header, checkToken).Ok? && deviceId in old(devices)
               && old(devices)[deviceId].userId == Authenticate(header, checkToken).value) ==> (
        && (!Truthy(data) ==> r == Abort(InvalidJson))
        && (Truthy(data) && !data.JObj? ==> r == ServerError)
        && (Truthy(data) && data.JObj? ==>
              var m := Merge(old(devices)[deviceId], data.fields);
              && (m.Some? && Storable(m.value) ==>
                    r == Reply(200, JObj(ToDict(m.value))) && devices == old(devices)[deviceId := m.value])
              && (!(m.Some? && Storable(m.value)) ==> r == ServerError)))
      ensures r.Reply? ==> (
        && r.status == 200 && data.JObj? && deviceId in old(devices) && deviceId in devices
        && Authenticate(header, checkToken) == Ok(old(devices)[deviceId].userId)
        && Merge(old(devices)[deviceId], data.fields) == Some(devices[deviceId])
        && devices == old(devices)[deviceId := devices[deviceId]]
        && r.body == JObj(ToDict(devices[deviceId])))
      ensures !r.Reply? ==> devices == old(devices)
    {
      var auth := Authenticate(header, checkToken);
      if auth.Err? {
        return Abort(auth.error);
      }
      if deviceId !in devices {
        return Abort(DeviceNotFound);
      }
      var device := devices[deviceId];
      if device.userId != auth.value {
        return Abort(NotAuthorized);
      }
      if !Truthy(data) {
        return Abort(InvalidJson);
      }
      if !data.JObj? {
        return ServerError;
      }
      var merged := MergeFields(device, data.fields);
      if merged.None? || !Storable(merged.value) {
        return ServerError;
      }
      device := merged.value;
      devices := devices[deviceId := device];
      r := Reply(200, JObj(ToDict(device)));
    }

    /** `DELETE /api/devices/<id>`: 401, then 404, then 403; only the owner removes a device,
        and nothing else is removed. */
    method DeleteDevice(deviceId: string, header: Option<string>, checkToken: string -> TokenCheck) returns (r: Response)
      requires Valid()
      modifies this
      ensures Valid() && users == old(users)
      ensures Authenticate(header, checkToken).Err? ==> r == Abort(Authenticate(header, checkToken).error)
      ensures Authenticate(header, checkToken).Ok? && deviceId !in old(devices) ==> r == Abort(DeviceNotFound)
      ensures (Authenticate(header, checkToken).Ok? && deviceId in old(devices)
               && old(devices)[deviceId].userId != Authenticate(header, checkToken).value) ==> r == Abort(NotAuthorized)
      ensures (Authenticate(header, checkToken).Ok? && deviceId in old(devices)
               && old(devices)[deviceId].userId == Authenticate(header, checkToken).value) ==>
              r == Reply(200, JObj(map["message" := JStr("Device deleted successfully")]))
              && devices == old(devices) - {deviceId}
      ensures r.Reply? ==> (r.status == 200 && deviceId in old(devices)
        && Authenticate(header, checkToken) == Ok(old(devices)[deviceId].userId)
        && devices == old(devices) - {deviceId})
      ensures !r.Reply? ==> devices == old(devices)
    {
      var auth := Authenticate(header, checkToken);
      if auth.Err? {
        return Abort(auth.error);
      }
      if deviceId !in devices {
        return Abort(DeviceNotFound);
      }
      if devices[deviceId].userId != auth.value {
        return Abort(NotAuthorized);
      }
      devices := devices - {deviceId};
      r := Reply(200, JObj(map["message" := JStr("Device deleted successfully")]));
    }

    /** `GET /api/validate/<id>/<data>`: 404 for an unknown device, 400 for a device without a
        secret, for a payload that does not decrypt, for one that is not `totp|lat|lng` with
        decimal coordinates, and for a wrong TOTP code; only then is the validation time
        recorded and the coordinates echoed. `totpVerify` is `pyotp.TOTP(secret).verify(code)`
        at the current time, `None` when it raises on a secret that is not base32. */
    method ValidateTotp(c: Cbc.BlockCipher, deviceId: string, dataEnc: string,
                        totpVerify: (string, string) -> Option<bool>, now: string) returns (r: Response)
      requires Valid()
      modifies this
      ensures Valid() && users == old(users)
      ensures deviceId !in old(devices) ==> r == Abort(DeviceNotFound)
      ensures deviceId in old(devices) && !Truthy(old(devices)[deviceId].secret) ==> r == Abort(MissingSecret)
      ensures (deviceId in old(devices) && Truthy(old(devices)[deviceId].secret)
               && DecryptTotp(c, old(devices)[deviceId].secret, dataEnc).Err?) ==> r == Abort(DecryptionError)
      ensures (deviceId in old(devices) && Truthy(old(devices)[deviceId].secret)
               && DecryptTotp(c, old(devices)[deviceId].secret, dataEnc).Ok?
               && ParsePayload(DecryptTotp(c, old(devices)[deviceId].secret, dataEnc).value).None?)
              ==> r == Abort(InvalidDataFormat)
      ensures (deviceId in old(devices) && Truthy(old(devices)[deviceId].secret)
               && DecryptTotp(c, old(devices)[deviceId].secret, dataEnc).Ok?
               && ParsePayload(DecryptTotp(c, old(devices)[deviceId].secret, dataEnc).value).Some?) ==> (
        var row := old(devices)[deviceId];
        var p := ParsePayload(DecryptTotp(c, row.secret, dataEnc).value).value;
        && (totpVerify(row.secret.s, p.0) == Some(true) ==>
              && devices == old(devices)[deviceId := row.(lastValidation := Some(now))]
              && r == Reply(200, JObj(map["status" := JStr("success"), "device_id" := JStr(deviceId),
                                          "location" := JArr([JNum(p.1), JNum(p.2)])])))
        && (totpVerify(row.secret.s, p.0) == Some(false) ==> r == Abort(InvalidTotp))
        && (totpVerify(row.secret.s, p.0).None? ==> r == ServerError))
      ensures !r.Reply? ==> devices == old(devices)
    {
      if deviceId !in devices {
        return Abort(DeviceNotFound);
      }
      var device := devices[deviceId];
      if !Truthy(device.secret) {
        return Abort(MissingSecret);
      }
      var decrypted := DecryptTotp(c, device.secret, dataEnc);
      if decrypted.Err? {
        return Abort(DecryptionError);
      }
      var payload := ParsePayload(decrypted.value);
      if payload.None? {
        return Abort(InvalidDataFormat);
      }
      var (totp, lat, lng) := payload.value;
      var verified := totpVerify(device.secret.s, totp);
      if verified.None? {
        return ServerError;
      }
      if !verified.value {
        return Abort(InvalidTotp);
      }
      devices := devices[deviceId := device.(lastValidation := Some(now))];
      r := Reply(200, JObj(map["status" := JStr("success"), "device_id" := JStr(deviceId),
                               "location" := JArr([JNum(lat), JNum(lng)])]));
    }
  }
}
