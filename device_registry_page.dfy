/** The public device registry (`src/pages/DeviceRegistryPage.tsx`): every registered device,
    narrowed by a case-insensitive search text and a status choice. */
module DeviceRegistryPage {
  import opened Wrappers
  import opened Text

  /** A device as the registry lists it; `description` and `address` may be absent. */
  datatype RegistryDevice = RegistryDevice(id: string, name: string, description: Option<string>,
                                           address: Option<string>, owner: string, status: string)

  /** `field?.toLowerCase().includes(filter)`: an absent field never matches. */
  predicate OptionalMatches(field: Option<string>, filter: string) {
    field.Some? && Contains(ToLower(field.value), filter)
  }

  /** The search half of the filter: the empty text, or a substring of one of the lowercased
      name, description, address, owner or id. */
  predicate MatchesFilter(d: RegistryDevice, filter: string) {
    filter == ""
    || Contains(ToLower(d.name), filter)
    || OptionalMatches(d.description, filter)
    || OptionalMatches(d.address, filter)
    || Contains(ToLower(d.owner), filter)
    || Contains(ToLower(d.id), filter)
  }

  /** The status half of the filter: `'all'` or exactly the device's status. */
  predicate MatchesStatus(d: RegistryDevice, statusFilter: string) {
    statusFilter == "all" || d.status == statusFilter
  }

  predicate Keep(d: RegistryDevice, filter: string, statusFilter: string) {
    MatchesFilter(d, filter) && MatchesStatus(d, statusFilter)
  }

  /** `devices.filter(...)`: the devices that pass both halves, in list order. */
  function Filter(devices: seq<RegistryDevice>, filter: string, statusFilter: string): (r: seq<RegistryDevice>)
    ensures |r| <= |devices|
    ensures forall d :: d in r <==> d in devices && Keep(d, filter, statusFilter)
  {
    if devices == [] then []
    else
      var rest := Filter(devices[1..], filter, statusFilter);
      assert forall d :: d in devices <==> d == devices[0] || d in devices[1..];
      if Keep(devices[0], filter, statusFilter) then [devices[0]] + rest else rest
  }

  /** Filtering a concatenation filters each part and keeps their order; with `FilterSingle`
      this pins the result down as the order-preserving subsequence of kept devices. */
  lemma {:induction false} FilterAppend(a: seq<RegistryDevice>, b: seq<RegistryDevice>, filter: string, statusFilter: string)
    ensures Filter(a + b, filter, statusFilter) == Filter(a, filter, statusFilter) + Filter(b, filter, statusFilter)
    decreases |a|
  {
    if a != [] {
      var ab := a + b;
      assert ab[0] == a[0] && ab[1..] == a[1..] + b;
      FilterAppend(a[1..], b, filter, statusFilter);
      var fa, fb := Filter(a[1..], filter, statusFilter), Filter(b, filter, statusFilter);
      if Keep(a[0], filter, statusFilter) {
        assert Filter(ab, filter, statusFilter) == [a[0]] + (fa + fb);
        assert Filter(a, filter, statusFilter) == [a[0]] + fa;
        assert [a[0]] + (fa + fb) == [a[0]] + fa + fb;
      } else {
        assert Filter(ab, filter, statusFilter) == fa + fb;
        assert Filter(a, filter, statusFilter) == fa;
      }
    } else {
      assert a + b == b;
    }
  }

  /** A one-device list is kept exactly when the device passes. */
  lemma FilterSingle(d: RegistryDevice, filter: string, statusFilter: string)
    ensures Filter([d], filter, statusFilter) == if Keep(d, filter, statusFilter) then [d] else []
  {
    assert [d][1..] == [];
  }

  /** The empty search with status `'all'` lists every device, in order. */
  lemma {:induction false} NoFilterKeepsAll(devices: seq<RegistryDevice>)
    ensures Filter(devices, "", "all") == devices
  {
    if devices != [] {
      NoFilterKeepsAll(devices[1..]);
    }
  }

  /** A status other than `'all'` keeps only devices that have exactly that status. */
  lemma StatusNarrows(devices: seq<RegistryDevice>, filter: string, statusFilter: string)
    requires statusFilter != "all"
    ensures forall d :: d in Filter(devices, filter, statusFilter) ==> d.status == statusFilter
  {
  }

  /** A non-empty search matches exactly when it occurs, at some position, in one of the
      lowercased fields that are present. */
  lemma NonEmptyFilterOccurs(d: RegistryDevice, filter: string)
    requires filter != ""
    ensures MatchesFilter(d, filter) <==>
      (exists i: nat :: OccursAt(ToLower(d.name), filter, i))
      || (d.description.Some? && exists i: nat :: OccursAt(ToLower(d.description.value), filter, i))
      || (d.address.Some? && exists i: nat :: OccursAt(ToLower(d.address.value), filter, i))
      || (exists i: nat :: OccursAt(ToLower(d.owner), filter, i))
      || (exists i: nat :: OccursAt(ToLower(d.id), filter, i))
  {
    ContainsIffOccurs(ToLower(d.name), filter);
    if d.description.Some? {
      ContainsIffOccurs(ToLower(d.description.value), filter);
    }
    if d.address.Some? {
      ContainsIffOccurs(ToLower(d.address.value), filter);
    }
    ContainsIffOccurs(ToLower(d.owner), filter);
    ContainsIffOccurs(ToLower(d.id), filter);
  }

  /** Typing a device's name, in any mix of cases, finds that device. */
  lemma {:induction false} TypedNameFinds(d: RegistryDevice, typed: string)
    requires ToLower(typed) == ToLower(d.name)
    ensures MatchesFilter(d, ToLower(typed))
  {
    assert StartsWith(ToLower(d.name), ToLower(typed));
  }

  /** What the page body shows: the loading line, the error line, or the table of filtered
      devices. */
  datatype View = Loading | Failed(message: string) | Table(rows: seq<RegistryDevice>)

  /** How the awaited `getDevices()` ended: the list, or a thrown error with its message
      (`""` for an error without one). */
  datatype FetchOutcome = Fetched(list: seq<RegistryDevice>) | Threw(message: string)

  const DefaultFetchError := "Failed to fetch devices"

  /** A toast the page shows: the failed fetch's destructive one. */
  datatype Toast = Toast(title: string, description: string, destructive: bool)

  class RegistryPage {
    var devices: seq<RegistryDevice>
    var isLoading: bool
    var error: Option<string>
    var filter: string
    var statusFilter: string
    var toasts: seq<Toast>

    /** The stored search text is always lowercase. */
    ghost predicate Valid()
      reads this
    {
      IsLower(filter)
    }

    constructor()
      ensures devices == [] && isLoading && error == None && filter == "" && statusFilter == "all" && toasts == []
      ensures Valid()
    {
      devices := [];
      isLoading := true;
      error := None;
      filter := "";
      statusFilter := "all";
      toasts := [];
    }

    /** The part of `fetchDevices` before the request is awaited. */
    method StartFetch()
      modifies this
      ensures isLoading && error == None
      ensures devices == old(devices) && filter == old(filter) && statusFilter == old(statusFilter)
      ensures toasts == old(toasts)
    {
      isLoading := true;
      error := None;
    }

    /** The part of `fetchDevices` after the request settles: a list replaces the devices; a
        failure records its message, or the default text, keeps the old list and shows that
        message in a destructive toast; loading ends either way. */
    method FinishFetch(outcome: FetchOutcome)
      modifies this
      ensures !isLoading
      ensures outcome.Fetched? ==> devices == outcome.list && error == old(error) && toasts == old(toasts)
      ensures outcome.Threw? ==> (devices == old(devices)
        && error == Some(if outcome.message != "" then outcome.message else DefaultFetchError)
        && toasts == old(toasts) + [Toast("Error Fetching Devices", error.value, true)])
      ensures filter == old(filter) && statusFilter == old(statusFilter)
    {
      match outcome {
        case Fetched(list) =>
          devices := list;
        case Threw(message) =>
          var errorMsg := if message != "" then message else DefaultFetchError;
          error := Some(errorMsg);
          toasts := toasts + [Toast("Error Fetching Devices", errorMsg, true)];
      }
      isLoading := false;
    }

    /** The search box stores its text lowercased. */
    method HandleFilterChange(value: string)
      modifies this
      ensures Valid()
      ensures filter == ToLower(value)
      ensures devices == old(devices) && isLoading == old(isLoading) && error == old(error)
      ensures statusFilter == old(statusFilter) && toasts == old(toasts)
    {
      ToLowerIsLower(value);
      filter := ToLower(value);
    }

    method HandleStatusFilterChange(value: string)
      modifies this
      ensures statusFilter == value
      ensures devices == old(devices) && isLoading == old(isLoading) && error == old(error)
      ensures filter == old(filter) && toasts == old(toasts)
    {
      statusFilter := value;
    }

    /** The body: loading first, then a non-empty error, otherwise the filtered table. */
    function Render(): (v: View)
      reads this
      ensures v.Loading? <==> isLoading
      ensures !isLoading && error.Some? && error.value != "" ==> v == Failed(error.value)
      ensures !isLoading && !(error.Some? && error.value != "") ==>
        v.Table? && v.rows == Filter(devices, filter, statusFilter)
      ensures v.Table? ==> forall d :: d in v.rows <==> d in devices && Keep(d, filter, statusFilter)
    {
      if isLoading then Loading
      else if error.Some? && error.value != "" then Failed(error.value)
      else Table(Filter(devices, filter, statusFilter))
    }
  }
}
