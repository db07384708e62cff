/** The dashboard's water-level monitor (src/components/WaterLevelMonitor.tsx):
    the fill percentage shown for the selected device, and the component state
    its two loaders update from the HTTP server's replies. */
module Monitor {
  import opened Wrappers
  import opened HttpApi
  import opened OrderedMaps

  const InitialTargetWeight := 300.0
  const DevicesLoadError := "No se pudieron cargar los dispositivos. Verifica la conexión al servidor."
  const DataLoadError := "No se pudieron cargar los datos. Verifica la conexión al servidor."

  /** JavaScript truthiness of the selection: a non-empty id. */
  predicate IsSelected(selected: Option<string>)
  {
    selected.Some? && selected.value != ""
  }

  function Min(a: real, b: real): real { if a <= b then a else b }

  function Max(a: real, b: real): real { if a >= b then a else b }

  /** The fill level of one reading: full once the device reports the goal
      reached, otherwise the weight as a share of the target, clamped to
      [0, 100]. */
  function FillLevel(d: Reading, targetWeight: real): (pct: real)
    requires targetWeight != 0.0
    ensures 0.0 <= pct <= 100.0
    ensures d.objetivoAlcanzado ==> pct == 100.0
    ensures !d.objetivoAlcanzado && 0.0 <= d.peso / targetWeight * 100.0 <= 100.0 ==>
              pct == d.peso / targetWeight * 100.0
    ensures !d.objetivoAlcanzado && d.peso / targetWeight * 100.0 < 0.0 ==> pct == 0.0
    ensures !d.objetivoAlcanzado && d.peso / targetWeight * 100.0 > 100.0 ==> pct == 100.0
  {
    var raw := if d.objetivoAlcanzado then 100.0 else d.peso / targetWeight * 100.0;
    Min(Max(0.0, raw), 100.0)
  }

  /** The properties every plain object inherits from `Object.prototype`: a
      lookup `deviceData[id]` under one of these names finds a truthy
      function or object even when no reading was stored under it. */
  const InheritedMembers: set<string> := {
    "__proto__", "constructor", "hasOwnProperty", "isPrototypeOf",
    "propertyIsEnumerable", "toLocaleString", "toString", "valueOf",
    "__defineGetter__", "__defineSetter__", "__lookupGetter__", "__lookupSetter__"
  }

  /** The fill level at a zero target, where JavaScript divides by zero: a
      positive weight gives Infinity, clamped to 100, a negative one
      -Infinity, clamped to 0, and a zero weight 0/0, which is NaN (None). */
  function ZeroTargetLevel(d: Reading): (pct: Option<real>)
    ensures d.objetivoAlcanzado || d.peso > 0.0 ==> pct == Some(100.0)
    ensures !d.objetivoAlcanzado && d.peso < 0.0 ==> pct == Some(0.0)
    ensures !d.objetivoAlcanzado && d.peso == 0.0 ==> pct == None
  {
    if d.objetivoAlcanzado || d.peso > 0.0 then Some(100.0)
    else if d.peso < 0.0 then Some(0.0)
    else None
  }

  /** `calculateWaterPercentage`, with None standing for NaN: 0 with no
      selection or no reading for the selected device, otherwise the fill
      level of its reading. A selected id that names an inherited member and
      has no reading of its own passes the `!deviceData[selectedDevice]` test,
      and its `peso` is `undefined`, so the result is NaN. */
  function WaterPercentage(selected: Option<string>, deviceData: map<string, Reading>,
                           targetWeight: real): (pct: Option<real>)
    ensures pct.Some? ==> 0.0 <= pct.value <= 100.0
    ensures !IsSelected(selected) ==> pct == Some(0.0)
    ensures IsSelected(selected) && selected.value !in deviceData ==>
              pct == (if selected.value in InheritedMembers then None else Some(0.0))
    ensures IsSelected(selected) && selected.value in deviceData && targetWeight != 0.0 ==>
              pct == Some(FillLevel(deviceData[selected.value], targetWeight))
    ensures IsSelected(selected) && selected.value in deviceData && targetWeight == 0.0 ==>
              pct == ZeroTargetLevel(deviceData[selected.value])
    ensures pct.None? <==>
              && IsSelected(selected)
              && (if selected.value in deviceData
                  then targetWeight == 0.0 && !deviceData[selected.value].objetivoAlcanzado
                       && deviceData[selected.value].peso == 0.0
                  else selected.value in InheritedMembers)
  {
    if !IsSelected(selected) then Some(0.0)
    else if selected.value !in deviceData then
      if selected.value in InheritedMembers then None else Some(0.0)
    else if targetWeight == 0.0 then ZeroTargetLevel(deviceData[selected.value])
    else Some(FillLevel(deviceData[selected.value], targetWeight))
  }

  /** The `"__proto__"` device, which the `/api/devices` reply never carries
      but the device list does, is auto-selected on an empty selection and
      then shows NaN. */
  lemma ProtoDeviceShowsNaN(ids: seq<string>, deviceData: map<string, Reading>, targetWeight: real)
    requires |ids| > 0 && ids[0] == ProtoKey && ProtoKey !in deviceData
    ensures AutoSelect(None, ids) == Some(ProtoKey)
    ensures WaterPercentage(AutoSelect(None, ids), deviceData, targetWeight).None?
  {
  }

  /** With a positive target, a heavier reading never shows a lower level. */
  lemma FillLevelMonotone(d1: Reading, d2: Reading, targetWeight: real)
    requires targetWeight > 0.0
    requires d1.objetivoAlcanzado == d2.objetivoAlcanzado
    requires d1.peso <= d2.peso
    ensures FillLevel(d1, targetWeight) <= FillLevel(d2, targetWeight)
  {
  }

  /** With a positive target, a weight at or above the target shows a full
      container even when the device has not flagged the goal. */
  lemma FullAtTarget(d: Reading, targetWeight: real)
    requires targetWeight > 0.0
    requires d.peso >= targetWeight
    ensures FillLevel(d, targetWeight) == 100.0
  {
  }

  /** The selection after a device list arrives: the first id when nothing is
      selected yet, the current selection otherwise. */
  function AutoSelect(selected: Option<string>, ids: seq<string>): (r: Option<string>)
    ensures |ids| > 0 && !IsSelected(selected) ==> r == Some(ids[0])
    ensures |ids| == 0 || IsSelected(selected) ==> r == selected
    ensures IsSelected(r) ==> r == selected || r.value in ids
  {
    if |ids| > 0 && !IsSelected(selected) then Some(ids[0]) else selected
  }

  /** The state of one `WaterLevelMonitor` component. */
  class DeviceMonitor {
    var devices: seq<string>
    var selectedDevice: Option<string>
    var deviceData: map<string, Reading>
    var loading: bool
    var error: Option<string>
    var targetWeight: real
    var lastUpdate: Option<string>

    constructor ()
      ensures devices == [] && selectedDevice == None && deviceData == map[]
      ensures loading && error == None && targetWeight == InitialTargetWeight && lastUpdate == None
    {
      devices, selectedDevice, deviceData := [], None, map[];
      loading, error, targetWeight, lastUpdate := true, None, InitialTargetWeight, None;
    }

    /** `loadDevices`, given the parsed `/api/device-list` reply, or None when
        the request failed. */
    method LoadDevices(response: Option<seq<string>>)
      modifies this
      ensures response.None? ==> devices == old(devices) && selectedDevice == old(selectedDevice)
                                 && error == Some(DevicesLoadError)
      ensures response.Some? ==> devices == response.value && error == None
                                 && selectedDevice == AutoSelect(old(selectedDevice), response.value)
      ensures deviceData == old(deviceData) && loading == old(loading)
      ensures targetWeight == old(targetWeight) && lastUpdate == old(lastUpdate)
    {
      match response {
        case None =>
          error := Some(DevicesLoadError);
        case Some(ids) =>
          devices := ids;
          if |ids| > 0 && !IsSelected(selectedDevice) {
            selectedDevice := Some(ids[0]);
          }
          error := None;
      }
    }

    /** `loadDeviceData`, given the parsed `/api/devices` reply, or None when
        the request failed; `now` is the local time of the reply. */
    method LoadDeviceData(response: Option<map<string, Reading>>, now: string)
      modifies this
      ensures !loading
      ensures response.None? ==> deviceData == old(deviceData) && lastUpdate == old(lastUpdate)
                                 && error == Some(DataLoadError)
      ensures response.Some? ==> deviceData == response.value && lastUpdate == Some(now) && error == None
      ensures devices == old(devices) && selectedDevice == old(selectedDevice)
      ensures targetWeight == old(targetWeight)
    {
      loading := true;
      match response {
        case None =>
          error := Some(DataLoadError);
        case Some(readings) =>
          deviceData := readings;
          lastUpdate := Some(now);
          error := None;
      }
      loading := false;
    }
  }
}
