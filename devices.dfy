/** The device records returned by the sensor API and the widget's choice of one of them
    (`getDevice`). */
module Devices {

  /** One sensor event: the reading and when it was taken. */
  datatype SensorEvent = SensorEvent(val: int, createdAt: string)

  /** A device as listed by the API: its identifier, its name and its newest event per sensor
      kind ("te", "hu", "il", "mo"). */
  datatype Device = Device(id: string, name: string, newestEvents: map<string, SensorEvent>)

  /** What `getDevice` yields: the first match, the not-found value (`NaN`), or the
      `TypeError` thrown when neither `deviceID` nor `deviceName` is configured, which
      leaves the filtered list `undefined`. */
  datatype Lookup = Found(device: Device) | NotFound | NoSelector

  /** The key a device is compared on: its identifier when selecting by identifier, else its name. */
  function Key(d: Device, byId: bool): string {
    if byId then d.id else d.name
  }

  /** Position `i` holds the first device of `data` whose key is `wanted`. */
  predicate FirstMatchAt(data: seq<Device>, byId: bool, wanted: string, i: int) {
    0 <= i < |data| && Key(data[i], byId) == wanted &&
    forall j :: 0 <= j < i ==> Key(data[j], byId) != wanted
  }

  lemma FirstMatchAfterMiss(data: seq<Device>, byId: bool, wanted: string, k: int)
    requires data != [] && Key(data[0], byId) != wanted
    requires FirstMatchAt(data[1..], byId, wanted, k)
    ensures FirstMatchAt(data, byId, wanted, k + 1) && data[k + 1] == data[1..][k]
  {
    forall j | 1 <= j < k + 1
      ensures Key(data[j], byId) != wanted
    {
      assert data[j] == data[1..][j - 1];
    }
  }

  /** `data.filter(value => key(value) == wanted)`: the matching devices, in list order. */
  function Matching(data: seq<Device>, byId: bool, wanted: string): (r: seq<Device>)
    ensures forall d :: d in r ==> d in data && Key(d, byId) == wanted
    ensures forall d :: d in data && Key(d, byId) == wanted ==> d in r
    ensures r != [] ==> exists i :: FirstMatchAt(data, byId, wanted, i) && data[i] == r[0]
  {
    if data == [] then []
    else if Key(data[0], byId) == wanted then
      assert FirstMatchAt(data, byId, wanted, 0);
      [data[0]] + Matching(data[1..], byId, wanted)
    else
      var rest := Matching(data[1..], byId, wanted);
      if rest == [] then rest
      else
        var k :| FirstMatchAt(data[1..], byId, wanted, k) && data[1..][k] == rest[0];
        FirstMatchAfterMiss(data, byId, wanted, k);
        rest
  }

  /** `getDevice(data)`: filter on `deviceID` when it is set, otherwise on `deviceName`,
      and take the first device left. */
  function GetDevice(data: seq<Device>, deviceID: string, deviceName: string): (r: Lookup)
    ensures r.NoSelector? <==> deviceID == "" && deviceName == ""
    ensures r.Found? ==> exists i :: FirstMatchAt(data, deviceID != "", if deviceID != "" then deviceID else deviceName, i) &&
                                     data[i] == r.device
    ensures r.NotFound? <==> (deviceID != "" || deviceName != "") &&
                             forall d :: d in data ==> Key(d, deviceID != "") != (if deviceID != "" then deviceID else deviceName)
  {
    if deviceID == "" && deviceName == "" then NoSelector
    else
      var devices := if deviceID != "" then Matching(data, true, deviceID) else Matching(data, false, deviceName);
      if |devices| > 0 then Found(devices[0]) else NotFound
  }

  /** A configured identifier decides alone: the configured name is then ignored. */
  lemma IdTakesPrecedence(data: seq<Device>, deviceID: string, name1: string, name2: string)
    requires deviceID != ""
    ensures GetDevice(data, deviceID, name1) == GetDevice(data, deviceID, name2)
  {
  }
}
