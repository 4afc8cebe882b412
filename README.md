# GeoProof core, modelled in Dafny

GeoProof checks that a person was physically at a device. An ESP32 device shows a QR code
holding a URL. The URL carries the device id and a payload: the TOTP code, latitude and
longitude, encrypted with AES-256-CBC and base64url-encoded. A Flask backend keeps the device
registry, decrypts and checks scanned payloads, and records the validation time. A React front end lists, filters, adds and
edits devices, shows validation statistics, and handles sign-in, settings, profile and token
transfers.

This project models:

- **Backend.** The device endpoints of `backend/app.py` (`DeviceApi`) over a map-based store,
  with the JSON values the handlers receive (`PyJson`).
- **QR code generation.** The generator of `backend/esp32/python_generator.py` (`QrGenerator`),
  built on executable models of UTF-8 (`Utf8`), PKCS#7 padding (`Pkcs7`), CBC chaining (`Cbc`)
  and URL-safe base64 (`Base64Url`).
- **Front end.** The pages and components, each as a class whose methods change its state
  fields as the handlers do:
  - `StreamPage`, `DeviceRegistryPage`, `DeviceManagement`, `DeviceManagement2`,
    `CollectionPage`, `ValidationDashboard`, `SettingsPage`, `AuthContext`, `ValidatePage`
    and `ProfilePage`.
  - A handler that awaits a request is split in two. A `Start…` method runs up to the request;
    a `Finish…` method takes the outcome.
  - Toasts, navigations, requests and storage writes are recorded in sequence fields.
- **Shared modules.**
  - `Text`: `split`, `join`, `startsWith`, `includes` and lowercasing.
  - `Numbers`: `parseInt`, number-to-text, Python's `float()` on decimal text, and `toFixed`.
  - `Sorting`: the newest-first in-place sort that two pages use.

The model takes the following as parameters:

- the block cipher, which is only assumed to be inverted by its decryption (`Cbc.Inverts`);
- JWT checking, TOTP computation and verification;
- the clock and the random draws;
- every network answer.

The main results:

- A payload the generator encrypts for a device decrypts and parses back to the same TOTP code
  and coordinates in the validator.
- Both sides derive the same key.
- Each backend endpoint runs its guards in the order its handler states:
  - `add_device`: 401, then 400 for an empty body, a missing field and a taken id, then 404
    for an unknown user;
  - `update_device`: 401, then 404, then 403 for another user's device, then 400 for an empty
    body;
  - `delete_device`: 401, then 404, then 403;
  - `validate_totp`: 404, then 400 for a missing secret, a payload that does not decrypt, a
    malformed payload and a wrong code.
- A request that passes every guard succeeds and changes exactly the row it names, unless the
  commit or pyotp fails (500). Every refused request leaves the store unchanged, and every row
  stays filed under its own id in a form the database accepts.
- A URL the generator makes for a device carries a payload that the validator decrypts and
  parses back to the same TOTP code and coordinates.
- The device id the dashboard takes out of a scanned QR URL is wrong for the URLs the generator
  produces. See "## Findings".

## Model

| member | source | states |
|---|---|---|
| DeviceApi.ToDictKeys | backend/app.py:65-79 | the wire form has exactly the twelve keys of `to_dict` |
| DeviceApi.ToDictValues | backend/app.py:65-79 | `location` is `[lat, lng]` exactly when both are set, otherwise null; `lastValidation` is null exactly when never validated; id and secret are copied |
| DeviceApi.StatusOf | backend/app.py:105-107 | every abort reason maps to one of 400, 401, 403, 404 |
| DeviceApi.BearerToken | backend/app.py:161-165 | a token exists exactly when the header is present and starts with "Bearer "; it is the second space-separated piece and holds no space |
| DeviceApi.BearerPieces | backend/app.py:165 | a "Bearer " header splits into at least two pieces, the second being the text after "Bearer " up to the next space |
| DeviceApi.Authenticate | backend/app.py:100-107 | a missing or malformed header gives 401 before the token is checked; every failure is a 401; success exactly when the token checks out |
| DeviceApi.AllPresent | backend/app.py:173-174 | on an object, true exactly when every required key is present |
| DeviceApi.RequestId | backend/app.py:177 | an id is read only from an object whose `id` is that text |
| DeviceApi.Coordinates | backend/app.py:195-196 | a falsy location gives (None, None); a two-element list gives its elements; any other length gives (None, None) |
| DeviceApi.WithDefault | backend/app.py:56-58 | a column with a default gets the body's value when it is present and not null, and the default otherwise; with a non-null default the result is never null |
| DeviceApi.NewDevice | backend/app.py:185-200 | the new row has the request's id, the caller as owner and no validation time; name and key come from the body; secret, description, address and image from the body or null; status 'active', refresh 60 and 5 validations unless given as a non-null value (an explicit null takes the column default); the coordinates above |
| DeviceApi.Merge | backend/app.py:225-236 | every field present in the body takes the body's value and every absent one keeps its old value; id, owner, key and validation time never change |
| DeviceApi.MergeLocation | backend/app.py:230-232 | the location changes only for a truthy two-element list, and then to exactly its elements |
| DeviceApi.MergeNothing | backend/app.py:225-236 | an empty body changes nothing |
| DeviceApi.MergeFields | backend/app.py:225-236 | the field-by-field assignments of `update_device` give exactly the merged row, or fail exactly when reading the location raises |
| DeviceApi.KeysAgree | backend/app.py:247 | the validator derives the same 32-octet key as the generator |
| DeviceApi.DecryptTotp | backend/app.py:244-253 | a secret that is not text fails before anything is decoded |
| DeviceApi.ParsePayload | backend/app.py:269-273 | succeeds exactly when the text splits into three pieces at the bars and both coordinates are decimal text; the code is the first piece |
| DeviceApi.GeneratedPayloadDecrypts | backend/app.py:244-253 | for an inverting cipher, decrypting a generated payload with the same secret gives back the code and both coordinate texts joined by bars |
| DeviceApi.GeneratedPayloadParses | backend/app.py:269-271 | the decrypted text of a generated payload parses back to the code and both coordinates |
| DeviceApi.GeneratedUrlReadsBack | backend/app.py:244-273 | the URL the generator makes is the base URL, the id, '/' and a payload that the validator decrypts with the same secret and parses back to the TOTP code and coordinates used |
| DeviceApi.DeviceStore.GetDevice | backend/app.py:152-157 | the device's wire form with 200, or 404 |
| DeviceApi.DeviceStore.AddDevice | backend/app.py:159-203 | 401, then 400 for an empty body, 400 for a missing field, 400 for a taken id, 404 for an unknown user; a complete request from a known user with a new id is answered 201 and inserts exactly the row built from it, or 500 when the commit refuses that row; a refusal leaves the store unchanged; the store invariant is kept |
| DeviceApi.DeviceStore.UpdateDevice | backend/app.py:205-240 | 401, then 404, then 403 for another user's device, then 400 for an empty body; the owner's object body is answered 200 with the merged row, which replaces exactly that row, or 500 when reading the location raises or the commit refuses the row; a refusal leaves the store unchanged; the store invariant is kept |
| DeviceApi.DeviceStore.DeleteDevice | backend/app.py:292-310 | 401, then 404, then 403; the owner's request is answered 200 and removes exactly that device; a refusal leaves the store unchanged |
| DeviceApi.DeviceStore.ValidateTotp | backend/app.py:255-290 | 404, then 400 for a missing secret, a failed decryption, a malformed payload and a wrong code; a verified code is answered 200 with the coordinates and sets exactly that device's validation time; a secret `pyotp` cannot use is a 500 |
| PyJson.Len | backend/app.py:195 | `len` is defined exactly on text, lists and objects |
| PyJson.Index | backend/app.py:195-196 | `x[i]` is defined exactly on text and lists within bounds |
| PyJson.HasKey | backend/app.py:174 | `key in x` on an object tests its keys and raises on null, booleans and numbers |
| PyJson.GetOrNull | backend/app.py:190-191 | `get` without a default gives null for an absent key |
| QrGenerator.DeriveKey | backend/esp32/python_generator.py:38-39 | the key is the secret's UTF-8 octets, zero-filled or cut to 32 |
| QrGenerator.PlainTextFields | backend/esp32/python_generator.py:48 | the bar-joined code and coordinates split back into the three fields when none of them holds a bar |
| QrGenerator.Frame | backend/esp32/python_generator.py:51-57 | the frame is the IV followed by whole ciphertext blocks |
| QrGenerator.ValidationUrl | backend/esp32/python_generator.py:93 | the URL is the base URL followed by `<device id>/<payload>` |
| QrGenerator.GenerateTotpQr | backend/esp32/python_generator.py:62-93 | the secret is the one given, else the stored one; an unknown device or an unusable secret is an error; otherwise the URL is the base URL, the id, '/' and the payload encrypted under that secret with the current TOTP value |
| Utf8.Encode | backend/esp32/python_generator.py:51 | never shorter than the text |
| Utf8.Decode | backend/app.py:253 | never longer than the octets |
| Utf8.DecodeEncode | backend/app.py:253 | decoding the encoding of any text gives the text back |
| Utf8.EncodeAscii | backend/esp32/python_generator.py:38 | ASCII text encodes one octet per character, each its code |
| Pkcs7.Pad | backend/esp32/python_generator.py:51 | the result is whole blocks, the data followed by 1 to 16 octets that each hold the pad length |
| Pkcs7.Unpad | backend/app.py:252 | a successful unpad is a proper prefix, at most a block shorter |
| Pkcs7.UnpadPad | backend/app.py:252 | unpadding a padded text gives it back |
| Pkcs7.PadUnpad | backend/app.py:252 | padding what unpad accepted restores the input |
| Cbc.Encrypt | backend/esp32/python_generator.py:54 | CBC encryption keeps the length of whole-block data |
| Cbc.Decrypt | backend/app.py:252 | CBC decryption succeeds exactly on whole blocks and keeps the length |
| Cbc.DecryptWithIv | backend/app.py:249-251 | an IV that is not 16 octets is refused; success exactly for a 16-octet IV and whole blocks |
| Cbc.DecryptEncrypt | backend/app.py:251-252 | with an inverting cipher, CBC decryption undoes CBC encryption |
| Base64Url.Encode | backend/esp32/python_generator.py:60 | four characters per started group of three octets |
| Base64Url.Decode | backend/app.py:248 | non-ASCII input is refused |
| Base64Url.EncodeIsPathSafe | backend/esp32/python_generator.py:60 | the encoding is ASCII and holds no '/' |
| Base64Url.DecodeEncode | backend/app.py:248 | decoding the encoding of any octets gives them back |
| Text.Split | backend/app.py:269 | at least one piece, none holding the separator |
| Text.JoinSplit | backend/app.py:269 | joining the pieces of a split restores the text |
| Text.SplitJoin | backend/app.py:269 | splitting a join of separator-free pieces gives the pieces back |
| Text.ContainsIffOccurs | src/pages/DeviceRegistryPage.tsx:51-62 | `includes` holds exactly when the text occurs at some position |
| Text.ToLowerIsLower | src/pages/DeviceRegistryPage.tsx:44 | lowercasing gives lowercase text and is idempotent |
| Numbers.NatToString | src/pages/CollectionPage.tsx:110 | non-empty decimal digits without a leading zero, whose value is the number |
| Numbers.NumberRoundTrip | src/components/DeviceManagement2.tsx:154-171 | `parseInt` of a number's text gives the number back, NaN included |
| Numbers.FixedParses | src/components/DeviceManagement2.tsx:139-146 | `toFixed(d)` text reads back as the rounded value |
| Numbers.FixedClose | src/components/DeviceManagement2.tsx:139-146 | the rounded value is within half a unit of the last decimal |
| Sorting.SortNewestFirst | src/pages/StreamPage.tsx:25 | afterwards no record precedes a strictly newer one, and the records are a permutation of the input |
| StreamPage.TotalPages | src/pages/StreamPage.tsx:45 | the page count is the ceiling of n / 10 |
| StreamPage.PageSlice | src/pages/StreamPage.tsx:46 | at most ten items, exactly those at the page's positions, and non-empty while the page starts inside the list |
| StreamPage.PagesPrefix | src/pages/StreamPage.tsx:46 | the first k pages are the first 10·k items in order |
| StreamPage.AllPages | src/pages/StreamPage.tsx:45-46 | reading every page in turn gives the whole list once, in order |
| StreamPage.StreamPage.FetchValidations | src/pages/StreamPage.tsx:15-31 | a fetched list is stored sorted newest first and as a permutation; a failure stores the message; loading ends |
| StreamPage.StreamPage.Render | src/pages/StreamPage.tsx:37-46 | loading exactly while loading; otherwise a non-empty error; otherwise exactly the current page of the list, at most ten items, with pagination exactly when there are more than ten |
| StreamPage.StreamPage.Previous | src/pages/StreamPage.tsx:122 | one page back, never below 1 |
| StreamPage.StreamPage.Next | src/pages/StreamPage.tsx:128 | one page on, never past the last page |
| DeviceRegistryPage.Filter | src/pages/DeviceRegistryPage.tsx:51-62 | a device is listed exactly when it is in the list and matches the search and the status |
| DeviceRegistryPage.FilterAppend | src/pages/DeviceRegistryPage.tsx:51-62 | filtering keeps the list's order |
| DeviceRegistryPage.FilterSingle | src/pages/DeviceRegistryPage.tsx:51-62 | a one-device list is kept exactly when the device passes |
| DeviceRegistryPage.NoFilterKeepsAll | src/pages/DeviceRegistryPage.tsx:51-62 | an empty search with status 'all' lists every device in order |
| DeviceRegistryPage.StatusNarrows | src/pages/DeviceRegistryPage.tsx:60-61 | a status other than 'all' keeps only devices with exactly that status |
| DeviceRegistryPage.NonEmptyFilterOccurs | src/pages/DeviceRegistryPage.tsx:52-59 | a non-empty search matches exactly when it occurs in a present, lowercased field |
| DeviceRegistryPage.TypedNameFinds | src/pages/DeviceRegistryPage.tsx:43-59 | typing a device's name in any case finds it |
| DeviceRegistryPage.RegistryPage.StartFetch | src/pages/DeviceRegistryPage.tsx:23-27 | loading starts and the error is cleared |
| DeviceRegistryPage.RegistryPage.FinishFetch | src/pages/DeviceRegistryPage.tsx:28-40 | the list is stored; or the message (or the default text) is the error and is shown in a destructive toast; loading ends |
| DeviceRegistryPage.RegistryPage.HandleFilterChange | src/pages/DeviceRegistryPage.tsx:43-45 | the search becomes the lowercased input |
| DeviceRegistryPage.RegistryPage.HandleStatusFilterChange | src/pages/DeviceRegistryPage.tsx:47-49 | the status filter becomes the choice |
| DeviceRegistryPage.RegistryPage.Render | src/pages/DeviceRegistryPage.tsx:100-106 | loading exactly while loading; otherwise a non-empty error; otherwise exactly the filtered devices in list order |
| DeviceManagement.FormReadsBack | src/components/DeviceManagement.tsx:53-69 | the refresh-time text the form gets reads back through `parseInt` as the device's refresh time |
| DeviceManagement.Merge | src/components/DeviceManagement.tsx:87-92 | the form's fields replace the device's; id, last validation, status and image are kept |
| DeviceManagement.UpdateById | src/components/DeviceManagement.tsx:87-92 | length and order kept; devices with the edited id are merged, all others unchanged |
| DeviceManagement.UpdateWithOwnForm | src/components/DeviceManagement.tsx:87-92 | re-submitting a device's unchanged form leaves the list as it was |
| DeviceManagement.NewDevice | src/components/DeviceManagement.tsx:112-120 | the id is `device-` followed by the time's text; the form's fields with the refresh time parsed; active, placeholder image, validated now |
| DeviceManagement.DeviceManager.HandleChange | src/components/DeviceManagement.tsx:49-51 | exactly the named field changes |
| DeviceManagement.DeviceManager.HandleEdit | src/components/DeviceManagement.tsx:53-69 | edit mode on that device, the form filled from it |
| DeviceManagement.DeviceManager.HandleAdd | src/components/DeviceManagement.tsx:71-80 | edit mode off, the default form |
| DeviceManagement.DeviceManager.HandleSubmit | src/components/DeviceManagement.tsx:82-143 | while editing, update by id with the "Device Updated" and "Firmware Generated" toasts; otherwise append one new device with the "Device Added" toast and one naming its id and key; then the default form and no edit mode |
| DeviceManagement2.FormReadsBack | src/components/DeviceManagement2.tsx:154-171 | the refresh-time text the form gets reads back through `parseInt` as the device's refresh time |
| DeviceManagement2.Merge | src/components/DeviceManagement2.tsx:220-233 | the form's fields replace the device's; id, last validation, status and image are kept |
| DeviceManagement2.MergeOwnForm | src/components/DeviceManagement2.tsx:220-233 | merging a device's own form gives it back |
| DeviceManagement2.UpdateById | src/components/DeviceManagement2.tsx:220-233 | length and order kept; devices with the edited id are merged, all others unchanged |
| DeviceManagement2.UpdateAbsentId | src/components/DeviceManagement2.tsx:220-233 | an edit of an id nobody has changes nothing |
| DeviceManagement2.UpdateWithOwnForm | src/components/DeviceManagement2.tsx:220-233 | re-submitting a device's unchanged form leaves the list as it was |
| DeviceManagement2.NewDevice | src/components/DeviceManagement2.tsx:256-265 | the id is `device-` followed by the time's text; the form's fields and address with the refresh time parsed; active, placeholder image, validated now |
| DeviceManagement2.NewIdsDiffer | src/components/DeviceManagement2.tsx:256-257 | adds at different times get different ids |
| DeviceManagement2.SubmitKeepsDistinctIds | src/components/DeviceManagement2.tsx:217-265 | an edit keeps ids distinct, and so does an add whose time-based id is new |
| DeviceManagement2.CoordinateTextReadsBack | src/components/DeviceManagement2.tsx:139-146 | the fallback address reads back as both coordinates rounded to four decimals |
| DeviceManagement2.CoordinateTextClose | src/components/DeviceManagement2.tsx:139-146 | each rounded coordinate is within half a unit of the fourth decimal |
| DeviceManagement2.DeviceManager.HandleChange | src/components/DeviceManagement2.tsx:150-152 | exactly the named field changes |
| DeviceManagement2.DeviceManager.HandleEdit | src/components/DeviceManagement2.tsx:154-171 | edit mode on that device, the form filled from it |
| DeviceManagement2.DeviceManager.HandleAdd | src/components/DeviceManagement2.tsx:173-183 | edit mode off, the default form |
| DeviceManagement2.DeviceManager.HandleSubmit | src/components/DeviceManagement2.tsx:217-309 | while editing, update by id with the "Device Updated" and "Firmware Generated" toasts; otherwise append one new device with the "Device Added" toast, one naming its id and key, and the firmware toast; then the default form and no edit mode |
| DeviceManagement2.DeviceManager.MarkerMoved | src/components/DeviceManagement2.tsx:120-147 | a non-empty address name moves the marker and sets the address; an answer without one changes nothing; an error moves the marker and writes the coordinates |
| CollectionPage.Remove | src/pages/CollectionPage.tsx:75 | the address is gone and every other address keeps its count |
| CollectionPage.RemoveAbsent | src/pages/CollectionPage.tsx:75 | removing an unselected address changes nothing |
| CollectionPage.RemoveAppend | src/pages/CollectionPage.tsx:75 | removal keeps the order of what it keeps |
| CollectionPage.Toggle | src/pages/CollectionPage.tsx:72-76 | the address is selected exactly when checked; checking adds one occurrence; other addresses keep their counts |
| CollectionPage.CheckThenUncheck | src/pages/CollectionPage.tsx:72-76 | checking and then unchecking equals unchecking alone |
| CollectionPage.SendFailureText | src/pages/CollectionPage.tsx:117-124 | the failure text is never empty and is the server's message when there is one |
| CollectionPage.CollectionPage.StartFetch | src/pages/CollectionPage.tsx:35-40 | without a token loading ends and nothing is requested; otherwise the list is requested |
| CollectionPage.CollectionPage.FinishFetch | src/pages/CollectionPage.tsx:41-65 | the list is stored, or a toast reports the failure; loading ends |
| CollectionPage.CollectionPage.HandleCheckboxChange | src/pages/CollectionPage.tsx:72-76 | the selection becomes its toggle |
| CollectionPage.CollectionPage.OpenSendModal | src/pages/CollectionPage.tsx:140 | the button works only while something is selected, and then opens the dialog and changes nothing else |
| CollectionPage.CollectionPage.SetSendModalOpen | src/pages/CollectionPage.tsx:205 | the dialog takes the given state |
| CollectionPage.CollectionPage.SetRecipientAddress | src/pages/CollectionPage.tsx:197 | the recipient takes the typed text |
| CollectionPage.CollectionPage.HandleSendToken | src/pages/CollectionPage.tsx:78-125 | a missing recipient or empty selection only toasts; a success clears, closes, counts the tokens and refetches; a failure only toasts |
| ValidationDashboard.CountSplit | src/components/ValidationDashboard.tsx:133-139 | counts over adjacent time ranges add up |
| ValidationDashboard.Buckets | src/components/ValidationDashboard.tsx:129-147 | one bucket per day, each counting that day's successes and failures, with total their sum |
| ValidationDashboard.DailyValidationData | src/components/ValidationDashboard.tsx:121-148 | exactly seven day buckets |
| ValidationDashboard.BucketsDisjoint | src/components/ValidationDashboard.tsx:133-136 | a time falls into at most one day |
| ValidationDashboard.BucketsCoverRange | src/components/ValidationDashboard.tsx:121-148 | the bucket totals add up to the successes and failures of the whole range |
| ValidationDashboard.CountStatus | src/components/ValidationDashboard.tsx:358 | a count never exceeds the list |
| ValidationDashboard.ValidationStats | src/components/ValidationDashboard.tsx:356-363 | total is the length, failed is total minus successful, and the rate is "0" for no records |
| ValidationDashboard.FailedAreFailures | src/components/ValidationDashboard.tsx:359 | when every status is success or failed, the failed figure counts the failures |
| ValidationDashboard.SuccessRateReadsBack | src/components/ValidationDashboard.tsx:360 | the rate text reads back within half a unit of the first decimal of the percentage |
| ValidationDashboard.SegmentBeforeLast | src/components/ValidationDashboard.tsx:301-302 | the second-to-last segment holds no '/' |
| ValidationDashboard.GeneratedUrlSegments | src/components/ValidationDashboard.tsx:301 | a generated URL splits into exactly five segments |
| ValidationDashboard.AsWrittenMissesDeviceId | src/components/ValidationDashboard.tsx:301-302 | for every generated URL, the segment taken is `validate?code=<id>`, never the id |
| ValidationDashboard.DeviceIdOfGeneratedCode | src/components/ValidationDashboard.tsx:301-302 | the corrected extraction recovers the device id of every generated code |
| ValidationDashboard.DeviceIdOfPathCode | src/components/ValidationDashboard.tsx:300-302 | on the URL shape the comment describes, it still gives the id |
| ValidationDashboard.FindDevice | src/components/ValidationDashboard.tsx:305-306 | a found device is stored under the scanned id; otherwise none has it |
| ValidationDashboard.Coordinate | src/components/ValidationDashboard.tsx:322-323 | a non-zero stored coordinate is used; otherwise the fallback |
| ValidationDashboard.ZeroLatitudeFallsBack | src/components/ValidationDashboard.tsx:322 | a stored latitude of exactly 0 is replaced by the default |
| ValidationDashboard.RecordFor | src/components/ValidationDashboard.tsx:305-331 | the record carries the given id and the time, the rolled status, a reason exactly for failures, and the stored device's name or, for an unknown id, `Unknown Device (<id>)` at the default place |
| ValidationDashboard.ScanOfGeneratedUrlIsUnknown | src/components/ValidationDashboard.tsx:301-331 | as written, a scan of any generated URL is recorded for the unknown device `validate?code=<id>` at the default place |
| ValidationDashboard.CorrectedScanFindsDevice | src/components/ValidationDashboard.tsx:301-331 | with the corrected id, a scan of a generated URL is recorded under the stored name of the device it was made for |
| ValidationDashboard.MockRecord | src/components/ValidationDashboard.tsx:187-208 | status success or failed, a reason exactly for failures, never later than now |
| ValidationDashboard.PushMockRecords | src/components/ValidationDashboard.tsx:186-209 | the loop pushes one record per round, the i-th made from the i-th roll, in round order |
| ValidationDashboard.GenerateMockValidations | src/components/ValidationDashboard.tsx:163-214 | count records, newest first, a permutation of the generated ones, each well formed |
| ValidationDashboard.Dashboard.Mount | src/components/ValidationDashboard.tsx:36-45 | stored records are loaded; otherwise twenty mock records are made and stored |
| ValidationDashboard.Dashboard.ProcessQrCode | src/components/ValidationDashboard.tsx:292-354 | the scanner closes; the record for the segment before the last '/' is prepended and stored, with a toast; unreadable storage leaves the records and shows the error toast |
| SettingsPage.MockSecret | src/components/SettingsPage.tsx:39-41 | sixteen base32 characters, the i-th picked by the i-th draw |
| SettingsPage.EverySecretIsDrawn | src/components/SettingsPage.tsx:39-41 | every sixteen-character base32 secret is produced by some draws |
| SettingsPage.ClearPasswords | src/components/SettingsPage.tsx:78-83 | the email is kept and the three password fields are empty |
| SettingsPage.SettingsPage.HandleProfileChange | src/components/SettingsPage.tsx:47-50 | exactly the named field changes |
| SettingsPage.SettingsPage.HandleNotificationChange | src/components/SettingsPage.tsx:52-54 | exactly the named switch changes; the three lower switches move only while e-mail notifications are on |
| SettingsPage.SettingsPage.HandleSaveProfile | src/components/SettingsPage.tsx:56-84 | submitted only with an e-mail address; mismatched new passwords only toast; otherwise the profile is stored and the password fields are cleared |
| SettingsPage.SettingsPage.HandleSaveNotifications | src/components/SettingsPage.tsx:86-96 | the switches are stored |
| SettingsPage.SettingsPage.SetSetupStep | src/components/SettingsPage.tsx:36-45 | entering step 1 without a secret draws one; the setup invariant is kept |
| SettingsPage.SettingsPage.SetTwoFACode | src/components/SettingsPage.tsx:410 | the code takes the typed text |
| SettingsPage.SettingsPage.VerifyTwoFACode | src/components/SettingsPage.tsx:102-120 | a six-digit code enables 2FA and ends setup; anything else only toasts |
| SettingsPage.SettingsPage.DisableTwoFA | src/components/SettingsPage.tsx:122-130 | 2FA off and the secret forgotten |
| SettingsPage.SettingsPage.ToggleTwoFA | src/components/SettingsPage.tsx:372-378 | switching off disables 2FA, clears the secret, keeps the step and appends the disabled toast; switching on starts setup at step 1 with the kept secret or, when there is none, the one drawn, appends no toast and never enables |
| SettingsPage.SettingsPage.CancelSetup | src/components/SettingsPage.tsx:426 | back to step 0 with 2FA still off |
| AuthContext.UseAuth | src/contexts/AuthContext.tsx:82-88 | fails exactly outside a provider, with the stated message; otherwise the provider's value |
| AuthContext.AuthProvider.Value | src/contexts/AuthContext.tsx:66-76 | the token is read from storage; under the invariant, signed in exactly when a token is stored |
| AuthContext.AuthProvider.constructor | src/contexts/AuthContext.tsx:17-20 | the token is read from storage; signed in exactly when a token is stored; no user id |
| AuthContext.AuthProvider.MountEffect | src/contexts/AuthContext.tsx:22-27 | the effect changes nothing the invariant does not already say |
| AuthContext.AuthProvider.Login | src/contexts/AuthContext.tsx:29-41 | success stores token and user name, sets the user id and signs in; failure changes nothing but a toast and rethrows |
| AuthContext.AuthProvider.Register | src/contexts/AuthContext.tsx:43-51 | only a toast; the session and storage never change |
| AuthContext.AuthProvider.Logout | src/contexts/AuthContext.tsx:53-64 | success removes the token but keeps the user name, clears the user id and signs out; failure changes nothing but a toast and rethrows |
| ValidatePage.ReturnPath | src/pages/ValidatePage.tsx:28 | the way back is `/validate?code=` followed by the code |
| ValidatePage.ReturnPathInjective | src/pages/ValidatePage.tsx:28 | different codes give different ways back |
| ValidatePage.ValidatePage.StartValidation | src/pages/ValidatePage.tsx:40-49 | without code or token nothing happens; otherwise status loading and one request |
| ValidatePage.ValidatePage.EntryEffect | src/pages/ValidatePage.tsx:16-38 | no code: to the history, no request; no session or token: to the login page with the way back, no request; otherwise validation starts |
| ValidatePage.ValidatePage.FinishValidation | src/pages/ValidatePage.tsx:51-73 | an ok answer stores the result and succeeds; otherwise error; both move to the history marked as from a validation |
| ValidatePage.ValidatePage.ViewHistory | src/pages/ValidatePage.tsx:82 | the failure view's button moves to the history |
| ProfilePage.OrEmpty | src/pages/ProfilePage.tsx:49-51 | a null field becomes empty text; text is kept |
| ProfilePage.FormOf | src/pages/ProfilePage.tsx:48-52 | the form holds each field's text, empty for null |
| ProfilePage.Shown | src/pages/ProfilePage.tsx:198-210 | never empty; the field's text when it has one |
| ProfilePage.ViewMatchesForm | src/pages/ProfilePage.tsx:198-210 | the view shows the form's text, or "Not set" exactly when the form would start empty or holds "Not set" |
| ProfilePage.SaveFailureText | src/pages/ProfilePage.tsx:101-118 | the failure text is never empty and is the server's or the error's message when there is one |
| ProfilePage.ProfilePage.Render | src/pages/ProfilePage.tsx:125-131 | loading exactly while loading without a profile; without a token always loading |
| ProfilePage.ProfilePage.StartFetch | src/pages/ProfilePage.tsx:33-42 | without a token nothing changes; otherwise loading and one request |
| ProfilePage.ProfilePage.FinishFetch | src/pages/ProfilePage.tsx:43-62 | the profile is stored and fills the form, or a toast; loading ends |
| ProfilePage.ProfilePage.HandleInputChange | src/pages/ProfilePage.tsx:68-71 | exactly the named field changes |
| ProfilePage.ProfilePage.HandleEditToggle | src/pages/ProfilePage.tsx:73-83 | edit mode flips; cancelling an edit of a loaded profile refills the form from it |
| ProfilePage.ProfilePage.StartSubmit | src/pages/ProfilePage.tsx:85-99 | without a token nothing changes; otherwise loading and the form is sent |
| ProfilePage.ProfilePage.FinishSubmit | src/pages/ProfilePage.tsx:101-122 | a save replaces the profile and leaves edit mode; a failure keeps both and toasts; loading ends |

## Left out

- AES, TOTP, JWT and password hashing are library calls, so they are parameters. The block
  cipher is only assumed to be inverted by its decryption.
- The database session, migrations, Flask routing, static files, QR image rendering and file
  saving are left out. The store is a map from id to row, and the row keeps each value as the
  request sent it. SQLite's column affinity is not modelled: see the three lines below. A NULL
  name or key, or a list or object in any column, makes the commit raise, which is a 500
  (`DeviceApi.Storable`). An explicit null for a column with a default is left out of the
  INSERT, so the default applies (`DeviceApi.NewDevice`). The lengths of `String` columns are
  not enforced by SQLite and are not modelled.
- DeviceApi.DeviceStore.AddDevice stores and answers a number or boolean as received. SQLite
  stores it as text in a `String` column, and turns numeric text into a number in an `Integer`
  or `Float` column. The 201 reply is read back from the row, so it shows the converted values.
  The JSON values here do not tell an integer from a float, so the text SQLite writes cannot be
  derived from them.
- DeviceApi.DeviceStore.UpdateDevice has the same gap: its 200 reply shows values as received,
  where the source shows them converted by column affinity.
- DeviceApi.DeviceStore.ValidateTotp refuses a secret stored as a number with a 400
  (`DecryptionError`), and a number-zero secret as missing. In the source the secret column
  holds the number's text, which is used as the key; `0` becomes the truthy text "0".
- DeviceApi.DeviceStore.AddDevice answers 500 for an `id` that is not text, such as a JSON
  number. SQLite would store its text through the TEXT column and the endpoint would answer
  201; the lookup of such an id is not modelled.
- `register`, `login`, `logout`, `get_devices` and `get_my_devices` in `backend/app.py` are not
  part of this model. The bearer guard they share with the modelled endpoints is modelled once
  (`DeviceApi.BearerToken`).
- `DeviceApi.DeviceStore.ValidateTotp` does not model the second secret check at
  backend/app.py:276-277. It is unreachable after the first one.
- Numbers.ParseDecimal accepts only `[+|-] digits [. digits]` or `[+|-] . digits`. Python's
  `float()` also takes exponents, `inf`, `nan`, underscores and surrounding blanks. Python's
  `repr` of a float is taken as given text.
- Numbers.NumberToString writes every integer in plain decimal digits. JavaScript numbers are
  doubles: `String` switches to exponent notation from 1e21 on, and integers above 2^53 lose
  precision. Neither is modelled.
- Numbers.NumberRoundTrip therefore holds for all integers here. In JavaScript it fails from
  1e21 on, where `parseInt` reads only the digits before the exponent.
- Numbers.FormatFixed rounds an exact real half away from zero. JavaScript rounds the nearest
  binary double, and switches to exponent notation from 1e21 on; neither is modelled.
- Sorting.SortNewestFirst does not prove stability; `Array.prototype.sort` is stable.
  Timestamps are integers, so an invalid date (NaN) is not modelled.
- Text.ToLower lowercases ASCII letters only.
- Map rendering, the camera, the scanner loop, the chart, the theme switch and the
  `getTwoFAQRUrl` image URL are left out. They are browser, timer or display work with no
  state the pages keep.
- `handleDownloadFirmware` in `src/components/DeviceManagement2.tsx` is left out. It refers to
  variables that do not exist, and otherwise only builds a download.
- SettingsPage.SettingsPage.HandleSaveProfile requires only a non-empty e-mail address. The
  browser's check of the `type="email"` syntax is not modelled.
- DeviceManagement2.DeviceManager.HandleSubmit appends the "Firmware Generated" toast of an add
  at once. The source shows it 1.5 seconds later through `setTimeout`.
- The Download buttons, variants and durations of the device managers' toasts are not modelled.
- The `[name]: value` updates accept any input name in the source. The model takes only the
  names of the rendered inputs.
- ValidationDashboard.ProcessQrCode does not model a stored device without a name. Its
  `location` is read as the array form the code indexes. Stored devices written as objects
  always fall back to the default coordinates.
- The random draws, `Date.now()`, ISO time text and the JSON parse of stored records are
  parameters.
- The fetch-and-toast effects of the pages run once. Re-running an effect when its dependencies
  change is not modelled, because the token and code are constant while a page is shown.

## Findings

| source | as written | input that shows it | evidently intended | confidence | as-written member | corrected member |
|---|---|---|---|---|---|---|
| src/components/ValidationDashboard.tsx:301-302 | the device id is taken as the second-to-last '/' segment of the scanned URL | `http://localhost:8080/validate?code=dev1/<payload>` with a stored device `dev1`: the id taken is `validate?code=dev1`, so the scan is recorded for `Unknown Device (validate?code=dev1)` at the default place | take the text after `validate?code=` in that segment, which is the id the generator put into the URL | high (proved on all generated URLs; not executed) | ValidationDashboard.ScanOfGeneratedUrlIsUnknown | ValidationDashboard.CorrectedScanFindsDevice |
