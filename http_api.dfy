/** The request/response variant of the server (server/server-http.js). A
    device reports a reading with `GET /water-data`; the dashboard reads the
    readings back, asks for a tare (zero the weight) or sets a target weight.
    Every reading is kept in one insertion-ordered map from device id to the
    latest reading.

    As in the hub, each state-changing handler is specified by a pure function
    from the old map and the request to the new map and the reply, and the
    `HttpServer` class performs the same update in place. */
module HttpApi {
  import opened Wrappers
  import opened OrderedMaps

  /** The record the HTTP server stores per device. */
  datatype Reading = Reading(
    timestamp: string,
    peso: real,               // weight, grams
    distancia: real,          // distance to the object, centimetres
    objetivoAlcanzado: bool,  // the target weight is reached
    objetoPresente: bool      // an object sits on the scale
  )

  /** A request parameter (query string or JSON body field): absent, or its text. */
  type Param = Option<string>

  /** What `parseFloat` makes of a text: a number, or None where it yields NaN. */
  type FloatParser = string -> Option<real>

  const SimulatedDeviceId := "water-level-sensor-01"
  const SimulatedTargetGrams := 300.0
  const SimulatedPresenceCm := 5.0

  const MissingDeviceId := "Error: deviceId es obligatorio"
  const MissingTarget := "Error: target es obligatorio"
  const TargetNotANumber := "Error: target debe ser un número"
  const DataReceived := "Datos recibidos correctamente"
  const TareSent := "Comando de tara enviado correctamente"
  const TargetSetMessage := "Peso objetivo establecido correctamente"
  const SimulatedMessage := "Datos simulados generados correctamente"

  /** A reply as the handler sends it. */
  datatype Reply =
    | Text(status: nat, body: string)                    // res.status(s).send(body)
    | Ack(status: nat, success: bool, message: string)   // res.json({ success, message })
    | TargetSet(message: string, targetWeight: real)     // res.json({ success: true, message, targetWeight })
    | Simulated(message: string, data: Reading)          // res.json({ success: true, message, data })

  /** The map a handler leaves behind and its reply. */
  datatype Handled = Handled(devices: OMap<Reading>, reply: Reply)

  /** JavaScript truthiness of a string parameter: present and non-empty. */
  predicate Truthy(p: Param)
  {
    p.Some? && p.value != ""
  }

  /** `parseFloat(p) || 0`: the parsed number, or 0 where parsing fails or the
      parameter is absent. */
  function NumberOrZero(p: Param, parseFloat: FloatParser): (x: real)
    ensures p.Some? && parseFloat(p.value).Some? ==> x == parseFloat(p.value).value
    ensures p.None? || parseFloat(p.value).None? ==> x == 0.0
  {
    if p.Some? then
      match parseFloat(p.value)
      case Some(v) => v
      case None => 0.0
    else 0.0
  }

  /** The query of `GET /water-data`. */
  datatype WaterQuery = WaterQuery(
    deviceId: Param, peso: Param, distancia: Param,
    objetivoAlcanzado: Param, objetoPresente: Param)

  /** The reading `/water-data` stores: numbers fall back to 0, flags are true
      only for the exact text `'true'`. */
  function Ingested(q: WaterQuery, now: string, parseFloat: FloatParser): (r: Reading)
    ensures r.timestamp == now
    ensures r.peso == NumberOrZero(q.peso, parseFloat)
    ensures r.distancia == NumberOrZero(q.distancia, parseFloat)
    ensures r.objetivoAlcanzado <==> q.objetivoAlcanzado == Some("true")
    ensures r.objetoPresente <==> q.objetoPresente == Some("true")
  {
    Reading(now, NumberOrZero(q.peso, parseFloat), NumberOrZero(q.distancia, parseFloat),
            q.objetivoAlcanzado == Some("true"), q.objetoPresente == Some("true"))
  }

  /** `GET /water-data`. */
  function OnWaterData(m: OMap<Reading>, q: WaterQuery, now: string, parseFloat: FloatParser): (h: Handled)
    requires m.Valid()
    ensures h.devices.Valid()
    ensures !Truthy(q.deviceId) ==> h == Handled(m, Text(400, MissingDeviceId))
    ensures Truthy(q.deviceId) ==>
      var id := q.deviceId.value;
      && h.reply == Text(200, DataReceived)
      && h.devices.vals.Keys == m.vals.Keys + {id}
      && h.devices.vals[id] == Ingested(q, now, parseFloat)
      && (forall k :: k in m.vals && k != id ==> h.devices.vals[k] == m.vals[k])
      && m.keys <= h.devices.keys
  {
    if !Truthy(q.deviceId) then Handled(m, Text(400, MissingDeviceId))
    else Handled(m.Set(q.deviceId.value, Ingested(q, now, parseFloat)), Text(200, DataReceived))
  }

  /** `POST /api/tare`: on a known device the weight drops to 0 and the time is
      refreshed; an unknown device is answered with success all the same. */
  function OnTare(m: OMap<Reading>, deviceId: Param, now: string): (h: Handled)
    requires m.Valid()
    ensures h.devices.Valid()
    ensures h.devices.keys == m.keys && h.devices.vals.Keys == m.vals.Keys
    ensures !Truthy(deviceId) ==> h == Handled(m, Ack(400, false, MissingDeviceId))
    ensures Truthy(deviceId) ==> h.reply == Ack(200, true, TareSent)
    ensures Truthy(deviceId) && deviceId.value !in m.vals ==> h.devices == m
    ensures Truthy(deviceId) && deviceId.value in m.vals ==>
      var id := deviceId.value;
      var (before, after) := (m.vals[id], h.devices.vals[id]);
      && after.peso == 0.0
      && after.distancia == before.distancia
      && after.objetivoAlcanzado == before.objetivoAlcanzado
      && after.objetoPresente == before.objetoPresente
      && after.timestamp == now
      && (forall k :: k in m.vals && k != id ==> h.devices.vals[k] == m.vals[k])
  {
    if !Truthy(deviceId) then Handled(m, Ack(400, false, MissingDeviceId))
    else if deviceId.value in m.vals then
      var id := deviceId.value;
      Handled(m.Set(id, m.vals[id].(peso := 0.0, timestamp := now)), Ack(200, true, TareSent))
    else Handled(m, Ack(200, true, TareSent))
  }

  /** `POST /api/set-target`: validates the device id, then the presence of
      the target, then that it is a number; on a known device the goal flag
      becomes `peso >= target`. The target itself is not stored, only echoed. */
  function OnSetTarget(m: OMap<Reading>, deviceId: Param, target: Param, now: string,
                       parseFloat: FloatParser): (h: Handled)
    requires m.Valid()
    ensures h.devices.Valid()
    ensures h.devices.keys == m.keys && h.devices.vals.Keys == m.vals.Keys
    ensures !Truthy(deviceId) ==> h == Handled(m, Ack(400, false, MissingDeviceId))
    ensures Truthy(deviceId) && target.None? ==> h == Handled(m, Ack(400, false, MissingTarget))
    ensures Truthy(deviceId) && target.Some? && parseFloat(target.value).None? ==>
              h == Handled(m, Ack(400, false, TargetNotANumber))
    ensures Truthy(deviceId) && target.Some? && parseFloat(target.value).Some? ==>
      var (id, goal) := (deviceId.value, parseFloat(target.value).value);
      && h.reply == TargetSet(TargetSetMessage, goal)
      && (id !in m.vals ==> h.devices == m)
      && (id in m.vals ==>
            var (before, after) := (m.vals[id], h.devices.vals[id]);
            && (after.objetivoAlcanzado <==> before.peso >= goal)
            && after.peso == before.peso
            && after.distancia == before.distancia
            && after.objetoPresente == before.objetoPresente
            && after.timestamp == now
            && (forall k :: k in m.vals && k != id ==> h.devices.vals[k] == m.vals[k]))
  {
    if !Truthy(deviceId) then Handled(m, Ack(400, false, MissingDeviceId))
    else if target.None? then Handled(m, Ack(400, false, MissingTarget))
    else match parseFloat(target.value)
      case None => Handled(m, Ack(400, false, TargetNotANumber))
      case Some(goal) =>
        var id := deviceId.value;
        var reply := TargetSet(TargetSetMessage, goal);
        if id in m.vals then
          var before := m.vals[id];
          Handled(m.Set(id, before.(objetivoAlcanzado := before.peso >= goal, timestamp := now)), reply)
        else Handled(m, reply)
  }

  /** `GET /simulate-data`, with the two random draws passed in: the reading
      is stored under the fixed simulated id, its goal flag set from 300 g and
      its presence flag from 5 cm. */
  function OnSimulate(m: OMap<Reading>, peso: real, distancia: real, now: string): (h: Handled)
    requires m.Valid()
    ensures h.devices.Valid()
    ensures h.devices.vals.Keys == m.vals.Keys + {SimulatedDeviceId}
    ensures m.keys <= h.devices.keys
    ensures (forall k :: k in m.vals && k != SimulatedDeviceId ==> h.devices.vals[k] == m.vals[k])
    ensures var r := h.devices.vals[SimulatedDeviceId];
      && r.peso == peso && r.distancia == distancia && r.timestamp == now
      && (r.objetivoAlcanzado <==> peso >= SimulatedTargetGrams)
      && (r.objetoPresente <==> distancia < SimulatedPresenceCm)
      && h.reply == Simulated(SimulatedMessage, r)
  {
    var r := Reading(now, peso, distancia, peso >= SimulatedTargetGrams, distancia < SimulatedPresenceCm);
    Handled(m.Set(SimulatedDeviceId, r), Simulated(SimulatedMessage, r))
  }

  /** A state-changing request. */
  datatype Request =
    | WaterDataReq(query: WaterQuery, now: string)
    | TareReq(deviceId: Param, now: string)
    | SetTargetReq(deviceId: Param, target: Param, now: string)
    | SimulateReq(peso: real, distancia: real, now: string)

  function Serve(m: OMap<Reading>, req: Request, parseFloat: FloatParser): (h: Handled)
    requires m.Valid()
    ensures h.devices.Valid()
  {
    match req
    case WaterDataReq(q, now) => OnWaterData(m, q, now, parseFloat)
    case TareReq(id, now) => OnTare(m, id, now)
    case SetTargetReq(id, target, now) => OnSetTarget(m, id, target, now, parseFloat)
    case SimulateReq(peso, distancia, now) => OnSimulate(m, peso, distancia, now)
  }

  /** Requests handled one after another, as the event loop runs them. */
  function ServeAll(m: OMap<Reading>, reqs: seq<Request>, parseFloat: FloatParser): (r: OMap<Reading>)
    requires m.Valid()
    ensures r.Valid()
    decreases |reqs|
  {
    if reqs == [] then m
    else ServeAll(Serve(m, reqs[0], parseFloat).devices, reqs[1..], parseFloat)
  }

  /** A request that may add `id` to the map: a reading reported under it,
      or a simulated reading when it is the simulated id. */
  predicate MayAdd(req: Request, id: string)
  {
    || (req.WaterDataReq? && req.query.deviceId == Some(id))
    || (req.SimulateReq? && id == SimulatedDeviceId)
  }

  /** One request removes no id, keeps the known order, and adds only an id
      it may add. */
  lemma ServeKeepsKeys(m: OMap<Reading>, req: Request, parseFloat: FloatParser)
    requires m.Valid()
    ensures m.keys <= Serve(m, req, parseFloat).devices.keys
    ensures forall k :: k in Serve(m, req, parseFloat).devices.vals && k !in m.vals ==> MayAdd(req, k)
  {
  }

  /** No request removes a device or reorders the known ids, and every id the
      map gains comes from a `/water-data` reading under that id or from
      `/simulate-data`; tare and set-target never add one. */
  lemma {:induction false} KeysOnlyGrow(m: OMap<Reading>, reqs: seq<Request>, parseFloat: FloatParser)
    requires m.Valid()
    ensures m.keys <= ServeAll(m, reqs, parseFloat).keys
    ensures forall k :: k in ServeAll(m, reqs, parseFloat).vals && k !in m.vals ==>
              exists i :: 0 <= i < |reqs| && MayAdd(reqs[i], k)
    decreases |reqs|
  {
    if reqs != [] {
      var next := Serve(m, reqs[0], parseFloat).devices;
      var last := ServeAll(next, reqs[1..], parseFloat);
      assert ServeAll(m, reqs, parseFloat) == last;
      ServeKeepsKeys(m, reqs[0], parseFloat);
      KeysOnlyGrow(next, reqs[1..], parseFloat);
      forall k | k in last.vals && k !in m.vals
        ensures exists i :: 0 <= i < |reqs| && MayAdd(reqs[i], k)
      {
        if k in next.vals {
          assert MayAdd(reqs[0], k);
        } else {
          var i :| 0 <= i < |reqs[1..]| && MayAdd(reqs[1..][i], k);
          assert MayAdd(reqs[i + 1], k);
        }
      }
    }
  }

  /** The body of `GET /api/devices`. */
  datatype DevicesResponse = DevicesResponse(devices: map<string, Reading>, count: nat, timestamp: string)

  /** The body of `GET /api/device-list`. */
  datatype DeviceListResponse = DeviceListResponse(devices: seq<string>, count: nat)

  class HttpServer {
    /** `deviceData`: device id to latest reading, in first-insertion order. */
    var devices: OMap<Reading>

    ghost predicate Valid()
      reads this
    {
      devices.Valid()
    }

    constructor ()
      ensures Valid() && devices == Empty()
    {
      devices := Empty();
    }

    method WaterData(q: WaterQuery, now: string, parseFloat: FloatParser) returns (reply: Reply)
      requires Valid()
      modifies this
      ensures Valid()
      ensures Handled(devices, reply) == OnWaterData(old(devices), q, now, parseFloat)
    {
      if !Truthy(q.deviceId) {
        return Text(400, MissingDeviceId);
      }
      devices := devices.Set(q.deviceId.value, Ingested(q, now, parseFloat));
      reply := Text(200, DataReceived);
    }

    /** `GET /api/devices`: copies every entry into the reply object, where a
        device registered as `"__proto__"` gains no property (the prototype
        setter runs); `count` is the size of the map all the same. */
    method ApiDevices(now: string) returns (r: DevicesResponse)
      requires Valid()
      ensures r.devices == devices.vals - {ProtoKey}
      ensures r.count == |devices.vals|
      ensures ProtoKey in devices.vals ==> |r.devices| + 1 == r.count
      ensures ProtoKey !in devices.vals ==> |r.devices| == r.count
      ensures r.timestamp == now
    {
      var copy: map<string, Reading> := map[];
      var i := 0;
      while i < |devices.keys|
        invariant 0 <= i <= |devices.keys|
        invariant forall k :: k in copy <==> k in devices.keys[..i] && k != ProtoKey
        invariant forall k :: k in copy ==> copy[k] == devices.vals[k]
      {
        var id := devices.keys[i];
        if id != ProtoKey {
          copy := copy[id := devices.vals[id]];
        }
        assert devices.keys[..i + 1] == devices.keys[..i] + [id];
        i := i + 1;
      }
      assert devices.keys[..i] == devices.keys;
      r := DevicesResponse(copy, devices.Size(), now);
    }

    /** `GET /api/device-list`: the ids in first-insertion order and their number. */
    function ApiDeviceList(): (r: DeviceListResponse)
      reads this
      requires Valid()
      ensures r.devices == devices.keys
      ensures r.count == |devices.vals|
    {
      DeviceListResponse(devices.keys, devices.Size())
    }

    method Tare(deviceId: Param, now: string) returns (reply: Reply)
      requires Valid()
      modifies this
      ensures Valid()
      ensures Handled(devices, reply) == OnTare(old(devices), deviceId, now)
    {
      if !Truthy(deviceId) {
        return Ack(400, false, MissingDeviceId);
      }
      var id := deviceId.value;
      if id in devices.vals {
        var data := devices.vals[id];
        data := data.(peso := 0.0);
        devices := devices.Set(id, data.(timestamp := now));
      }
      reply := Ack(200, true, TareSent);
    }

    method SetTarget(deviceId: Param, target: Param, now: string, parseFloat: FloatParser)
      returns (reply: Reply)
      requires Valid()
      modifies this
      ensures Valid()
      ensures Handled(devices, reply) == OnSetTarget(old(devices), deviceId, target, now, parseFloat)
    {
      if !Truthy(deviceId) {
        return Ack(400, false, MissingDeviceId);
      }
      if target.None? {
        return Ack(400, false, MissingTarget);
      }
      var targetWeight := parseFloat(target.value);
      if targetWeight.None? {
        return Ack(400, false, TargetNotANumber);
      }
      var id := deviceId.value;
      if id in devices.vals {
        var data := devices.vals[id];
        var reached := data.peso >= targetWeight.value;
        devices := devices.Set(id, data.(objetivoAlcanzado := reached, timestamp := now));
      }
      reply := TargetSet(TargetSetMessage, targetWeight.value);
    }

    method SimulateData(peso: real, distancia: real, now: string) returns (reply: Reply)
      requires Valid()
      modifies this
      ensures Valid()
      ensures Handled(devices, reply) == OnSimulate(old(devices), peso, distancia, now)
    {
      var reached := peso >= SimulatedTargetGrams;
      var present := distancia < SimulatedPresenceCm;
      devices := devices.Set(SimulatedDeviceId, Reading(now, peso, distancia, reached, present));
      reply := Simulated(SimulatedMessage, devices.vals[SimulatedDeviceId]);
    }
  }
}
