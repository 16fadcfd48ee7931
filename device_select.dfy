/** The media-device picker (frontend/components/livekit/device-select.tsx). */
module DeviceSelect {
  import opened Common

  /** A `MediaDeviceInfo` as the picker uses it. */
  datatype MediaDevice = MediaDevice(deviceId: string, caption: string)

  /** One `SelectItem` of the menu. */
  datatype SelectItem = SelectItem(key: string, value: string, caption: string)

  function ItemOf(d: MediaDevice): SelectItem {
    SelectItem(d.deviceId, d.deviceId, d.caption)
  }

  /** The menu items: devices with an empty id are skipped, the others keep their order. */
  function ListedItems(devices: seq<MediaDevice>): (items: seq<SelectItem>)
    ensures |items| <= |devices|
    ensures forall i :: 0 <= i < |items| ==> items[i].key == items[i].value && items[i].value != ""
    ensures forall d :: d in devices && d.deviceId != "" ==> ItemOf(d) in items
    ensures forall it :: it in items ==> exists d :: d in devices && d.deviceId != "" && it == ItemOf(d)
  {
    if devices == [] then []
    else if devices[0].deviceId == "" then ListedItems(devices[1..])
    else [ItemOf(devices[0])] + ListedItems(devices[1..])
  }

  /** Listing distributes over concatenation, so the menu keeps the devices' relative order. */
  lemma {:induction false} ListedItemsAppend(a: seq<MediaDevice>, b: seq<MediaDevice>)
    ensures ListedItems(a + b) == ListedItems(a) + ListedItems(b)
  {
    if a != [] {
      assert (a + b)[1..] == a[1..] + b;
      ListedItemsAppend(a[1..], b);
    } else {
      assert a + b == b;
    }
  }

  datatype Size = Default | Sm

  /** `props.size || 'default'`. */
  function EffectiveSize(size: Option<Size>): (s: Size)
    ensures size.Some? ==> s == size.value
    ensures size.None? ==> s == Default
  {
    size.GetOr(Default)
  }

  /** The selected device's label is rendered unless the picker is small. */
  function ShowsValueLabel(size: Option<Size>): (shown: bool)
    ensures shown <==> size != Some(Sm)
  {
    EffectiveSize(size) != Sm
  }

  /** The picker's React state: whether it is open, and the permission-request flag. */
  class DeviceSelectState {
    var open: bool
    var requestPermissions: Option<bool>

    /** Mounting: the flag starts at the `requestPermissions` prop (possibly undefined). */
    constructor (requestPermissionsProp: Option<bool>)
      ensures !open && requestPermissions == requestPermissionsProp
    {
      open := false;
      requestPermissions := requestPermissionsProp;
    }

    /**
     * `onOpenChange`, followed by the layout effect on `open`: opening latches the
     * permission request on; nothing ever turns it off again.
     */
    method SetOpen(o: bool)
      modifies this
      ensures open == o
      ensures o ==> requestPermissions == Some(true)
      ensures !o ==> requestPermissions == old(requestPermissions)
      ensures old(requestPermissions) == Some(true) ==> requestPermissions == Some(true)
    {
      open := o;
      if open {
        requestPermissions := Some(true);
      }
    }
  }
}
