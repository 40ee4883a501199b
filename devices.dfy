/** The streaming service's Connect devices and playback state, as the app
    caches them and the speaker driver reads them. */
module Devices {
  import opened Values

  /** An entry of the service's device list. */
  datatype DeviceInfo = DeviceInfo(id: string, isActive: bool, isRestricted: bool, volumePercent: real)

  /** The item being played; the driver passes it on untouched. */
  datatype Item = Item(id: string)

  /** The service's current playback state. */
  datatype PlaybackState = PlaybackState(
    deviceId: string,
    item: Option<Item>,
    isPlaying: bool,
    progressMs: real,
    repeatState: string,
    shuffleState: bool)

  /** getState's lookup in the device list (device.js:199): the first device
      with the id; 'device_not_found' when there is none. */
  function FindDevice(devices: seq<DeviceInfo>, id: string): (r: Result<DeviceInfo, Error>)
    ensures r.Ok? ==> r.value.id == id && r.value in devices
    ensures r.Ok? ==> exists i :: 0 <= i < |devices| && devices[i] == r.value && forall j :: 0 <= j < i ==> devices[j].id != id
    ensures r.Err? <==> forall d :: d in devices ==> d.id != id
    ensures r.Err? ==> r.error == DeviceNotFound
  {
    if devices == [] then Err(DeviceNotFound)
    else if devices[0].id == id then Ok(devices[0])
    else
      var rest := FindDevice(devices[1..], id);
      if rest.Ok? then
        var i :| 0 <= i < |devices[1..]| && devices[1..][i] == rest.value && forall j :: 0 <= j < i ==> devices[1..][j].id != id;
        assert devices[i + 1] == rest.value;
        assert forall j :: 1 <= j < i + 1 ==> devices[j] == devices[1..][j - 1];
        rest
      else
        assert forall d :: d in devices ==> d == devices[0] || d in devices[1..];
        rest
  }
}
