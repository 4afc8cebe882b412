/** The QR code generator for a device (`backend/esp32/python_generator.py`): it derives a
    256-bit key from the device secret, encrypts `totp|lat|lng` with AES-256-CBC under a fresh IV,
    and builds the validation URL that the QR code carries. The cipher, the random IV and the
    current TOTP value are parameters. */
module QrGenerator {
  import opened Bytes
  import opened Wrappers
  import Utf8
  import Pkcs7
  import Cbc
  import Base64Url
  import Text

  /** The URL prefix every generated code starts with. */
  const BaseUrl := "http://localhost:8080/validate?code="

  /** `key.encode('utf-8').ljust(32, b'\0')[:32]`: the secret's octets, zero-filled or cut to
      exactly 32. */
  function DeriveKey(secret: string): (k: Cbc.Key)
    ensures var e := Utf8.Encode(secret);
            (forall i :: 0 <= i < 32 && i < |e| ==> k[i] == e[i])
            && (forall i :: |e| <= i < 32 ==> k[i] == 0)
  {
    var e := Utf8.Encode(secret);
    (e + Zeros(32))[..32]
  }

  /** `f"{totp_number}|{lat}|{lng}"`, with the coordinates given as their text. */
  function PlainText(totp: string, lat: string, lng: string): string {
    totp + "|" + lat + "|" + lng
  }

  /** The plaintext splits back into its three fields when none of them holds a `|`. */
  lemma PlainTextFields(totp: string, lat: string, lng: string)
    requires '|' !in totp && '|' !in lat && '|' !in lng
    ensures Text.Split(PlainText(totp, lat, lng), '|') == [totp, lat, lng]
  {
    var parts := [totp, lat, lng];
    Text.SplitJoin(parts, '|');
    assert parts[1..] == [lat, lng] && parts[1..][1..] == [lng];
    assert Text.Join(parts[1..], '|') == lat + "|" + lng;
    assert Text.Join(parts, '|') == totp + "|" + (lat + "|" + lng);
    assert PlainText(totp, lat, lng) == totp + "|" + (lat + "|" + lng);
  }

  /** The padded, enciphered plaintext behind its IV. */
  function Frame(c: Cbc.BlockCipher, key: Cbc.Key, iv: Cbc.Block, plain: string): (r: seq<byte>)
    ensures |r| > 16 && r[..16] == iv && (|r| - 16) % 16 == 0
  {
    var padded := Pkcs7.Pad(Utf8.Encode(plain));
    iv + Cbc.Encrypt(c, key, iv, padded)
  }

  /** `encrypt_totp(key, totp_number, lat, lng)` with `os.urandom(16)` given as `iv`. */
  function EncryptTotp(c: Cbc.BlockCipher, secret: string, totp: string, lat: string, lng: string, iv: Cbc.Block): string {
    Base64Url.Encode(Frame(c, DeriveKey(secret), iv, PlainText(totp, lat, lng)))
  }

  /** `f"{base_url}{device_id}/{encrypted_data}"`. */
  function ValidationUrl(deviceId: string, encrypted: string): (url: string)
    ensures Text.StartsWith(url, BaseUrl)
    ensures url[|BaseUrl|..] == deviceId + "/" + encrypted
  {
    BaseUrl + deviceId + "/" + encrypted
  }

  /** Why `generate_totp_qr` gives no URL: the device is not in the database (`ValueError`), or
      the secret cannot be used to compute a TOTP value (the stored secret is NULL or not base32). */
  datatype GenerateError = DeviceNotFound(deviceId: string) | UnusableSecret

  /** The secret `generate_totp_qr` works with: the one passed in, otherwise the device's stored
      one; a missing row is the `ValueError`, a NULL secret one `pyotp` cannot use. */
  function SecretFor(devices: map<string, Option<string>>, deviceId: string, secret: Option<string>): (r: Result<string, GenerateError>)
    ensures secret.Some? ==> r == Ok(secret.value)
    ensures secret.None? && deviceId !in devices ==> r == Err(DeviceNotFound(deviceId))
    ensures secret.None? && deviceId in devices ==>
              (r.Ok? <==> devices[deviceId].Some?) && (r.Ok? ==> r.value == devices[deviceId].value)
    ensures r.Err? ==> secret.None?
  {
    if secret.Some? then Ok(secret.value)
    else if deviceId !in devices then Err(DeviceNotFound(deviceId))
    else if devices[deviceId].None? then Err(UnusableSecret)
    else Ok(devices[deviceId].value)
  }

  /** The URL `generate_totp_qr(device_id, lat, lng, secret)` encodes in its QR code: the base
      URL, the device id, `/` and the payload encrypted under the secret in use with the current
      TOTP value. `totpNow` is `pyotp.TOTP(secret).now()` at the current time, `None` when it
      raises. */
  function GenerateTotpQr(c: Cbc.BlockCipher, devices: map<string, Option<string>>, deviceId: string,
                          lat: string, lng: string, secret: Option<string>,
                          totpNow: string -> Option<string>, iv: Cbc.Block): (r: Result<string, GenerateError>)
    ensures SecretFor(devices, deviceId, secret).Err? ==> r == Err(SecretFor(devices, deviceId, secret).error)
    ensures SecretFor(devices, deviceId, secret).Ok? ==>
      var s := SecretFor(devices, deviceId, secret).value;
      && (totpNow(s).None? ==> r == Err(UnusableSecret))
      && (totpNow(s).Some? ==> r == Ok(ValidationUrl(deviceId, EncryptTotp(c, s, totpNow(s).value, lat, lng, iv))))
    ensures r.Ok? ==> Text.StartsWith(r.value, BaseUrl)
  {
    match SecretFor(devices, deviceId, secret)
    case Err(e) => Err(e)
    case Ok(s) =>
      match totpNow(s)
      case None => Err(UnusableSecret)
      case Some(code) => Ok(ValidationUrl(deviceId, EncryptTotp(c, s, code, lat, lng, iv)))
  }
}
