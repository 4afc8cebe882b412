/** The device manager with a map picker (`src/components/DeviceManagement2.tsx`): a local list of
    devices, one form used both to add a device and to edit one, and a draggable marker whose
    new position is turned into an address. The component repeats the form handling of
    `src/components/DeviceManagement.tsx`, so `FormOf`, `Merge`, `UpdateById` and the lemmas about
    them mirror their twins in module `DeviceManagement` over this module's own `Device`, which
    also carries an address. */
module DeviceManagement2 {
  import opened Wrappers
  import opened Numbers
  import Text

  datatype Location = Location(lat: real, lng: real)

  /** A device in the local list. `refreshTime` and `maxValidations` come out of `parseInt`,
      so either can be NaN. */
  datatype Device = Device(id: string, name: string, description: string, refreshTime: JsNumber,
                           maxValidations: JsNumber, location: Location, address: string,
                           lastValidation: string, status: string, image: string)

  /** The form; the refresh time is kept as the text of the select box. */
  datatype FormData = FormData(name: string, description: string, refreshTime: string,
                               maxValidations: JsNumber, location: Location, address: string)

  /** The empty form: no name, description or address, refresh "60", at most 5 validations,
      the marker on 48.1887/16.3767. */
  const DefaultForm := FormData("", "", "60", Num(5), Location(48.1887, 16.3767), "")

  const PlaceholderImage := "https://placehold.co/100x100"

  /** The two devices the list starts with. */
  const InitialDevices := [
    Device("device-1", "ESP32-CAM Front Door", "Mounted near the front entrance", Num(60), Num(5),
           Location(48.1857, 16.3717), "Stephansplatz 1, 1010 Wien", "2023-05-15T14:30:00Z",
           "active", PlaceholderImage),
    Device("device-2", "ESP32 Warehouse Gate", "Monitors the warehouse entrance", Num(120), Num(10),
           Location(48.1927, 16.3577), "Warehouse Entrance, 1020 Wien", "2023-05-14T10:15:00Z",
           "inactive", PlaceholderImage)]

  /** The edits the form's inputs make through `handleChange`. */
  datatype FieldChange = Name(text: string) | Description(text: string) | RefreshTime(text: string)
                       | MaxValidations(count: JsNumber)

  /** `handleEdit`'s copy of a device into the form; the refresh time becomes its text. */
  function FormOf(d: Device): (f: FormData)
    ensures f.name == d.name && f.description == d.description && f.maxValidations == d.maxValidations
    ensures f.location == d.location && f.address == d.address
  {
    FormData(d.name, d.description, NumberToString(d.refreshTime), d.maxValidations, d.location, d.address)
  }

  /** The refresh time's text in the form reads back through `parseInt` as the device's own. */
  lemma FormReadsBack(d: Device)
    ensures ParseInt(FormOf(d).refreshTime) == d.refreshTime
  {
    NumberRoundTrip(d.refreshTime);
  }

  /** The edited device: the form's fields over the old ones, the refresh time parsed back to a
      number. Id, last validation, status and image are kept. */
  function Merge(d: Device, f: FormData): (r: Device)
    ensures r.id == d.id && r.lastValidation == d.lastValidation && r.status == d.status && r.image == d.image
    ensures r.name == f.name && r.description == f.description && r.maxValidations == f.maxValidations
    ensures r.refreshTime == ParseInt(f.refreshTime) && r.location == f.location && r.address == f.address
  {
    d.(name := f.name, description := f.description, refreshTime := ParseInt(f.refreshTime),
       maxValidations := f.maxValidations, location := f.location, address := f.address)
  }

  /** Submitting the form of a device unchanged gives back that device. */
  lemma {:induction false} MergeOwnForm(d: Device)
    ensures Merge(d, FormOf(d)) == d
  {
    FormReadsBack(d);
  }

  /** `devices.map(...)` of an edit submit: every device with the edited id is merged with the
      form, every other device is kept, and the list keeps its length and order. The twin of
      `DeviceManagement.UpdateById`. */
  function UpdateById(devices: seq<Device>, id: string, f: FormData): (r: seq<Device>)
    ensures |r| == |devices|
    ensures forall k :: 0 <= k < |r| && devices[k].id != id ==> r[k] == devices[k]
    ensures forall k :: 0 <= k < |r| && devices[k].id == id ==> r[k] == Merge(devices[k], f)
  {
    seq(|devices|, k requires 0 <= k < |devices| => if devices[k].id == id then Merge(devices[k], f) else devices[k])
  }

  /** An edit of an id no device has changes nothing. */
  lemma UpdateAbsentId(devices: seq<Device>, id: string, f: FormData)
    requires forall k :: 0 <= k < |devices| ==> devices[k].id != id
    ensures UpdateById(devices, id, f) == devices
  {
  }

  /** Re-submitting the unchanged form of a listed device leaves the list as it was, provided no
      other device shares its id. */
  lemma {:induction false} UpdateWithOwnForm(devices: seq<Device>, d: Device)
    requires forall k :: 0 <= k < |devices| && devices[k].id == d.id ==> devices[k] == d
    ensures UpdateById(devices, d.id, FormOf(d)) == devices
  {
    var r := UpdateById(devices, d.id, FormOf(d));
    forall k | 0 <= k < |r| ensures r[k] == devices[k] {
      if devices[k].id == d.id {
        MergeOwnForm(d);
      }
    }
  }

  /** The device an add submit appends: id `device-<now>`, the form's fields, the refresh time
      parsed, validated at `nowIso`, active, with the placeholder image. */
  function NewDevice(f: FormData, now: int, nowIso: string): (r: Device)
    ensures r.id == "device-" + IntToString(now)
    ensures r.status == "active" && r.image == PlaceholderImage && r.lastValidation == nowIso
    ensures r.name == f.name && r.description == f.description && r.maxValidations == f.maxValidations
    ensures r.refreshTime == ParseInt(f.refreshTime) && r.location == f.location && r.address == f.address
  {
    var id := "device-" + IntToString(now);
    Device(id, f.name, f.description, ParseInt(f.refreshTime), f.maxValidations, f.location,
           f.address, nowIso, "active", PlaceholderImage)
  }

  /** Ids are distinct. The page does not enforce this; two adds in the same millisecond
      would break it. */
  ghost predicate DistinctIds(devices: seq<Device>) {
    forall i, j :: 0 <= i < j < |devices| ==> devices[i].id != devices[j].id
  }

  /** An edit keeps ids distinct, and so does an add whose timestamp id is new. */
  lemma {:induction false} SubmitKeepsDistinctIds(devices: seq<Device>, id: string, f: FormData, now: int, nowIso: string)
    requires DistinctIds(devices)
    ensures DistinctIds(UpdateById(devices, id, f))
    ensures (forall k :: 0 <= k < |devices| ==> devices[k].id != NewDevice(f, now, nowIso).id)
            ==> DistinctIds(devices + [NewDevice(f, now, nowIso)])
  {
    var r := UpdateById(devices, id, f);
    assert forall k :: 0 <= k < |r| ==> r[k].id == devices[k].id;
  }

  /** Adds in different milliseconds get different ids: the time reads back from the id. */
  lemma NewIdsDiffer(f: FormData, g: FormData, now1: int, now2: int, iso1: string, iso2: string)
    requires now1 != now2
    ensures NewDevice(f, now1, iso1).id != NewDevice(g, now2, iso2).id
  {
    var a, b := IntToString(now1), IntToString(now2);
    IntRoundTrip(now1);
    IntRoundTrip(now2);
    assert a != b;
    assert ("device-" + a)[7..] == a && ("device-" + b)[7..] == b;
  }

  /** The address shown when reverse geocoding fails: both coordinates with four decimals. */
  function CoordinateText(loc: Location): string {
    "Lat: " + FormatFixed(loc.lat, 4) + ", Lng: " + FormatFixed(loc.lng, 4)
  }

  /** Both numbers in the fallback address read back as the coordinates rounded to four
      decimals. */
  lemma CoordinateTextReadsBack(loc: Location)
    ensures var a, b := FormatFixed(loc.lat, 4), FormatFixed(loc.lng, 4);
            CoordinateText(loc) == "Lat: " + a + ", Lng: " + b
            && ParseDecimal(a) == Some(FixedValue(loc.lat, 4))
            && ParseDecimal(b) == Some(FixedValue(loc.lng, 4))
  {
    FixedParses(loc.lat, 4);
    FixedParses(loc.lng, 4);
  }

  /** Each rounded coordinate in the fallback address is within half a unit of the fourth
      decimal place of the marker's coordinate. */
  lemma CoordinateTextClose(loc: Location)
    ensures -0.5 <= (FixedValue(loc.lat, 4) - loc.lat) * 10000.0 <= 0.5
    ensures -0.5 <= (FixedValue(loc.lng, 4) - loc.lng) * 10000.0 <= 0.5
  {
    FixedClose(loc.lat, 4);
    FixedClose(loc.lng, 4);
    assert Pow(10, 4) == 10000 by {
      assert Pow(10, 2) == 100;
    }
  }

  /** How the reverse-geocoding request ended: an answer, with its `display_name` when it has
      one, or an error. */
  datatype Geocode = Answered(displayName: Option<string>) | Failed

  /** A toast the page shows; the Download button some of them carry is not modelled. */
  datatype Toast = Toast(title: string, description: string)

  /** The toasts of an edit submit for a form named `name`. */
  function UpdateToasts(name: string): seq<Toast> {
    [Toast("Device Updated", name + " has been successfully updated."),
     Toast("Firmware Generated", "New firmware is ready for download.")]
  }

  class DeviceManager {
    var devices: seq<Device>
    var editingDevice: Option<Device>
    var formData: FormData
    var toasts: seq<Toast>

    constructor()
      ensures devices == InitialDevices && editingDevice == None && formData == DefaultForm && toasts == []
    {
      devices := InitialDevices;
      editingDevice := None;
      formData := DefaultForm;
      toasts := [];
    }

    /** `handleChange`: exactly the named form field takes the new value. */
    method HandleChange(change: FieldChange)
      modifies this
      ensures formData.name == (if change.Name? then change.text else old(formData.name))
      ensures formData.description == (if change.Description? then change.text else old(formData.description))
      ensures formData.refreshTime == (if change.RefreshTime? then change.text else old(formData.refreshTime))
      ensures formData.maxValidations == (if change.MaxValidations? then change.count else old(formData.maxValidations))
      ensures formData.location == old(formData.location) && formData.address == old(formData.address)
      ensures devices == old(devices) && editingDevice == old(editingDevice) && toasts == old(toasts)
    {
      match change {
        case Name(text) => formData := formData.(name := text);
        case Description(text) => formData := formData.(description := text);
        case RefreshTime(text) => formData := formData.(refreshTime := text);
        case MaxValidations(count) => formData := formData.(maxValidations := count);
      }
    }

    /** `handleEdit`: the device becomes the one being edited and its fields fill the form. */
    method HandleEdit(device: Device)
      modifies this
      ensures editingDevice == Some(device) && formData == FormOf(device)
      ensures devices == old(devices) && toasts == old(toasts)
    {
      editingDevice := Some(device);
      formData := FormOf(device);
    }

    /** `handleAdd`: leave edit mode with an empty form. */
    method HandleAdd()
      modifies this
      ensures editingDevice == None && formData == DefaultForm
      ensures devices == old(devices) && toasts == old(toasts)
    {
      editingDevice := None;
      formData := DefaultForm;
    }

    /** `handleSubmit`: in edit mode the devices with the edited id take the form's values and
        two toasts announce the update; otherwise one new device is appended and its id and a
        fresh key are shown. The firmware toast of an add comes last. The form is then emptied and edit mode ends. `now` and `nowIso`
        are `Date.now()` and the current time as ISO text; `key` is the random key text. */
    method HandleSubmit(now: int, nowIso: string, key: string)
      modifies this
      ensures old(editingDevice).Some? ==> devices == UpdateById(old(devices), old(editingDevice).value.id, old(formData))
      ensures old(editingDevice).Some? ==> toasts == old(toasts) + UpdateToasts(old(formData).name)
      ensures old(editingDevice).None? ==> devices == old(devices) + [NewDevice(old(formData), now, nowIso)]
      ensures old(editingDevice).None? ==> (toasts == old(toasts)
           + [Toast("Device Added", old(formData).name + " has been successfully added."),
              Toast("Device Credentials", "Device ID: " + NewDevice(old(formData), now, nowIso).id + " | Key: " + key)]
           + [Toast("Firmware Generated", "New firmware is ready for download.")])
      ensures editingDevice == None && formData == DefaultForm
    {
      if editingDevice.Some? {
        devices := UpdateById(devices, editingDevice.value.id, formData);
        toasts := toasts + UpdateToasts(formData.name);
      } else {
        var newDevice := Device("device-" + IntToString(now), formData.name, formData.description,
                                ParseInt(formData.refreshTime), formData.maxValidations,
                                formData.location, formData.address, nowIso, "active", PlaceholderImage);
        devices := devices + [newDevice];
        toasts := toasts + [Toast("Device Added", formData.name + " has been successfully added.")];
        toasts := toasts + [Toast("Device Credentials", "Device ID: " + newDevice.id + " | Key: " + key)];
        toasts := toasts + [Toast("Firmware Generated", "New firmware is ready for download.")];
      }
      formData := DefaultForm;
      editingDevice := None;
    }

    /** The marker's `dragend` handler once the reverse-geocoding request settles: a non-empty
        `display_name` moves the location and sets the address together; an answer without one
        changes nothing; an error moves the location and writes the coordinates as the address. */
    method MarkerMoved(position: Location, outcome: Geocode)
      modifies this
      ensures outcome.Answered? && outcome.displayName.Some? && outcome.displayName.value != "" ==>
        formData == old(formData).(location := position, address := outcome.displayName.value)
      ensures outcome.Answered? && (outcome.displayName.None? || outcome.displayName.value == "") ==>
        formData == old(formData)
      ensures outcome.Failed? ==> formData == old(formData).(location := position, address := CoordinateText(position))
      ensures devices == old(devices) && editingDevice == old(editingDevice) && toasts == old(toasts)
    {
      match outcome {
        case Answered(displayName) =>
          if displayName.Some? && displayName.value != "" {
            formData := formData.(location := position, address := displayName.value);
          }
        case Failed =>
          formData := formData.(location := position, address := CoordinateText(position));
      }
    }
  }
}
