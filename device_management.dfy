/** The first device manager (`src/components/DeviceManagement.tsx`): a local list of devices and
    one form used both to add a device and to edit one; it has no address or map picker. */
module DeviceManagement {
  import opened Wrappers
  import opened Numbers
  import Text

  datatype Location = Location(lat: real, lng: real)

  /** A device in the local list. `refreshTime` and `maxValidations` come out of `parseInt`,
      so either can be NaN. */
  datatype Device = Device(id: string, name: string, description: string, refreshTime: JsNumber,
                           maxValidations: JsNumber, location: Location, lastValidation: string,
                           status: string, image: string)

  /** The form; the refresh time is kept as the text of the select box. */
  datatype FormData = FormData(name: string, description: string, refreshTime: string,
                               maxValidations: JsNumber, location: Location)

  /** The empty form: no name or description, refresh "60", at most 5 validations, location
      48.1887/16.3767. */
  const DefaultForm := FormData("", "", "60", Num(5), Location(48.1887, 16.3767))

  const PlaceholderImage := "https://placehold.co/100x100"

  /** The two devices the list starts with. */
  const InitialDevices := [
    Device("device-1", "ESP32-CAM Front Door", "Mounted near the front entrance", Num(60), Num(5),
           Location(48.1857, 16.3717), "2023-05-15T14:30:00Z", "active", PlaceholderImage),
    Device("device-2", "ESP32 Warehouse Gate", "Monitors the warehouse entrance", Num(120), Num(10),
           Location(48.1927, 16.3577), "2023-05-14T10:15:00Z", "inactive", PlaceholderImage)]

  /** The edits the form's inputs make through `handleChange`. */
  datatype FieldChange = Name(text: string) | Description(text: string) | RefreshTime(text: string)
                       | MaxValidations(count: JsNumber)

  /** `handleEdit`'s copy of a device into the form; the refresh time becomes its text. */
  function FormOf(d: Device): (f: FormData)
    ensures f.name == d.name && f.description == d.description
    ensures f.maxValidations == d.maxValidations && f.location == d.location
  {
    FormData(d.name, d.description, NumberToString(d.refreshTime), d.maxValidations, d.location)
  }

  /** The refresh time's text in the form reads back through `parseInt` as the device's own. */
  lemma FormReadsBack(d: Device)
    ensures ParseInt(FormOf(d).refreshTime) == d.refreshTime
  {
    NumberRoundTrip(d.refreshTime);
  }

  /** `{ ...device, ...formData, refreshTime: parseInt(formData.refreshTime) }`: the form's fields
      over the old ones. Id, last validation, status and image are kept. */
  function Merge(d: Device, f: FormData): (r: Device)
    ensures r.id == d.id && r.lastValidation == d.lastValidation && r.status == d.status && r.image == d.image
    ensures r.name == f.name && r.description == f.description && r.maxValidations == f.maxValidations
    ensures r.refreshTime == ParseInt(f.refreshTime) && r.location == f.location
  {
    d.(name := f.name, description := f.description, refreshTime := ParseInt(f.refreshTime),
       maxValidations := f.maxValidations, location := f.location)
  }

  /** An edit submit's `devices.map(...)`: devices with the edited id are merged with the form,
      all others are kept; length and order are unchanged. */
  function UpdateById(devices: seq<Device>, id: string, f: FormData): (r: seq<Device>)
    ensures |r| == |devices|
    ensures forall k :: 0 <= k < |r| && devices[k].id != id ==> r[k] == devices[k]
    ensures forall k :: 0 <= k < |r| && devices[k].id == id ==> r[k] == Merge(devices[k], f)
  {
    seq(|devices|, k requires 0 <= k < |devices| => if devices[k].id == id then Merge(devices[k], f) else devices[k])
  }

  /** Re-submitting the unchanged form of a listed device leaves the list as it was, provided no
      other device shares its id. */
  lemma {:induction false} UpdateWithOwnForm(devices: seq<Device>, d: Device)
    requires forall k :: 0 <= k < |devices| && devices[k].id == d.id ==> devices[k] == d
    ensures UpdateById(devices, d.id, FormOf(d)) == devices
  {
    var r := UpdateById(devices, d.id, FormOf(d));
    forall k | 0 <= k < |r| ensures r[k] == devices[k] {
      if devices[k].id == d.id {
        FormReadsBack(d);
        assert Merge(d, FormOf(d)) == d;
      }
    }
  }

  /** The device an add submit appends: id `device-<now>`, the form's fields, the refresh time
      parsed, validated at `nowIso`, active, with the placeholder image. */
  function NewDevice(f: FormData, now: int, nowIso: string): (r: Device)
    ensures r.id == "device-" + IntToString(now)
    ensures r.status == "active" && r.image == PlaceholderImage && r.lastValidation == nowIso
    ensures r.name == f.name && r.description == f.description && r.maxValidations == f.maxValidations
    ensures r.refreshTime == ParseInt(f.refreshTime) && r.location == f.location
  {
    var id := "device-" + IntToString(now);
    Device(id, f.name, f.description, ParseInt(f.refreshTime), f.maxValidations, f.location,
           nowIso, "active", PlaceholderImage)
  }

  /** A toast the page shows; the Download button some of them carry is not modelled. */
  datatype Toast = Toast(title: string, description: string)

  /** The toasts of an edit submit for a form named `name`. */
  function UpdateToasts(name: string): seq<Toast> {
    [Toast("Device Updated", name + " has been successfully updated."),
     Toast("Firmware Generated", "New firmware is ready for download.")]
  }

  class DeviceManager {
    var devices: seq<Device>
    var editingDevice: Option<Device>
    var formData: FormData
    var toasts: seq<Toast>

    constructor()
      ensures devices == InitialDevices && editingDevice == None && formData == DefaultForm && toasts == []
    {
      devices := InitialDevices;
      editingDevice := None;
      formData := DefaultForm;
      toasts := [];
    }

    /** `handleChange`: exactly the named form field takes the new value. */
    method HandleChange(change: FieldChange)
      modifies this
      ensures formData.name == (if change.Name? then change.text else old(formData.name))
      ensures formData.description == (if change.Description? then change.text else old(formData.description))
      ensures formData.refreshTime == (if change.RefreshTime? then change.text else old(formData.refreshTime))
      ensures formData.maxValidations == (if change.MaxValidations? then change.count else old(formData.maxValidations))
      ensures formData.location == old(formData.location)
      ensures devices == old(devices) && editingDevice == old(editingDevice) && toasts == old(toasts)
    {
      match change {
        case Name(text) => formData := formData.(name := text);
        case Description(text) => formData := formData.(description := text);
        case RefreshTime(text) => formData := formData.(refreshTime := text);
        case MaxValidations(count) => formData := formData.(maxValidations := count);
      }
    }

    /** `handleEdit`: the device becomes the one being edited and its fields fill the form. */
    method HandleEdit(device: Device)
      modifies this
      ensures editingDevice == Some(device) && formData == FormOf(device)
      ensures devices == old(devices) && toasts == old(toasts)
    {
      editingDevice := Some(device);
      formData := FormOf(device);
    }

    /** `handleAdd`: leave edit mode with an empty form. */
    method HandleAdd()
      modifies this
      ensures editingDevice == None && formData == DefaultForm
      ensures devices == old(devices) && toasts == old(toasts)
    {
      editingDevice := None;
      formData := DefaultForm;
    }

    /** `handleSubmit`: in edit mode the devices with the edited id take the form's values and
        two toasts announce the update; otherwise one new device is appended and its id and a
        fresh key are shown. The form is then emptied and edit mode ends. `now` and `nowIso`
        are `Date.now()` and the current time as ISO text; `key` is the random key text. */
    method HandleSubmit(now: int, nowIso: string, key: string)
      modifies this
      ensures old(editingDevice).Some? ==> devices == UpdateById(old(devices), old(editingDevice).value.id, old(formData))
      ensures old(editingDevice).Some? ==> toasts == old(toasts) + UpdateToasts(old(formData).name)
      ensures old(editingDevice).None? ==> devices == old(devices) + [NewDevice(old(formData), now, nowIso)]
      ensures old(editingDevice).None? ==> (toasts == old(toasts)
           + [Toast("Device Added", old(formData).name + " has been successfully added."),
              Toast("Device Credentials", "Device ID: " + NewDevice(old(formData), now, nowIso).id + " | Key: " + key)])
      ensures editingDevice == None && formData == DefaultForm
    {
      if editingDevice.Some? {
        devices := UpdateById(devices, editingDevice.value.id, formData);
        toasts := toasts + UpdateToasts(formData.name);
      } else {
        var newDevice := Device("device-" + IntToString(now), formData.name, formData.description,
                                ParseInt(formData.refreshTime), formData.maxValidations,
                                formData.location, nowIso, "active", PlaceholderImage);
        devices := devices + [newDevice];
        toasts := toasts + [Toast("Device Added", formData.name + " has been successfully added.")];
        toasts := toasts + [Toast("Device Credentials", "Device ID: " + newDevice.id + " | Key: " + key)];
      }
      formData := DefaultForm;
      editingDevice := None;
    }
  }
}
