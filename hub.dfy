/** The real-time hub of server/index.js. Devices connect on the `/device`
    channel, bind their connection to a device id with `register` and stream
    `data`; observers connect on the `/client` channel, receive the current
    state and send `command`s. All of them share one insertion-ordered map from
    device id to the device's latest record, which is saved to and loaded from
    a snapshot document.

    Each handler is specified by a pure step function (`OnRegister`, `OnData`,
    `OnDisconnect`, `OnCommand`) from the old state to the new state and the
    events it emits; the `Hub` class carries the map and performs the same
    steps in place. */
module Hub {
  import opened Wrappers
  import opened OrderedMaps

  /** A JSON scalar as a device sends it in a measurement field. */
  datatype Value = Null | Bool(b: bool) | Num(n: real) | Str(s: string)

  /** A device's record: the fields of its last `data` message together with
      `timestamp`; the empty object after `register` alone. */
  type Record = map<string, Value>

  /** A Socket.IO payload once `typeof data === 'string' ? JSON.parse(data) : data`
      has run: the fields of the resulting value, or `Malformed` when the text
      does not parse (the handler's `catch`). */
  datatype Payload = Fields(fields: Record) | Malformed

  /** Who receives an event: every observer (`clientIO.emit`), only the observer
      that just connected (`socket.emit`), or every device (`deviceIO.emit`). */
  datatype Audience = Observers | NewObserver | Devices

  datatype Event =
    | DeviceList(devices: seq<string>)
    | DeviceData(deviceId: string, data: Record)
    | DeviceStatus(deviceId: string, status: string)
    | Command(name: string, payload: Record)

  datatype Emission = Emit(to: Audience, event: Event)

  const DeviceIdKey := "deviceId"
  const TimestampKey := "timestamp"
  const Offline := "offline"
  const CommandPrefix := "command:"

  /** The device id a payload names, when it is truthy (`parsedData && parsedData.deviceId`). */
  function DeviceIdOf(p: Payload): (id: Option<string>)
    ensures id.Some? <==> p.Fields? && DeviceIdKey in p.fields && p.fields[DeviceIdKey].Str?
                          && p.fields[DeviceIdKey].s != ""
    ensures id.Some? ==> id.value != "" && p.fields[DeviceIdKey] == Str(id.value)
  {
    if p.Fields? && DeviceIdKey in p.fields then
      match p.fields[DeviceIdKey]
      case Str(s) => if s != "" then Some(s) else None
      case _ => None
    else None
  }

  /** `{ timestamp: now, ...fields }`: every payload field is kept, a payload
      `timestamp` included, and the hub's time is added only when the payload
      has none. */
  function Stamped(fields: Record, now: string): (r: Record)
    ensures r.Keys == fields.Keys + {TimestampKey}
    ensures forall k :: k in fields ==> r[k] == fields[k]
    ensures TimestampKey !in fields ==> r[TimestampKey] == Str(now)
  {
    map[TimestampKey := Str(now)] + fields
  }

  /** The state a device-side handler leaves behind: the shared map, the
      connection's owned id, and what was emitted. */
  datatype Outcome = Outcome(registry: OMap<Record>, owner: Option<string>, emitted: seq<Emission>)

  /** The `register` handler. */
  function OnRegister(m: OMap<Record>, owner: Option<string>, p: Payload): (o: Outcome)
    requires m.Valid()
    ensures o.registry.Valid()
    ensures DeviceIdOf(p).None? ==> o == Outcome(m, owner, [])
    ensures DeviceIdOf(p).Some? ==>
      var id := DeviceIdOf(p).value;
      && o.owner == Some(id)
      && o.registry.vals.Keys == m.vals.Keys + {id}
      && (forall k :: k in m.vals ==> o.registry.vals[k] == m.vals[k])
      && (id !in m.vals ==> o.registry.vals[id] == map[] && o.registry.keys == m.keys + [id])
      && (id in m.vals ==> o.registry.keys == m.keys)
      && o.emitted == [Emit(Observers, DeviceList(o.registry.keys))]
  {
    match DeviceIdOf(p)
    case None => Outcome(m, owner, [])
    case Some(id) =>
      var r := if id in m.vals then m else m.Set(id, map[]);
      Outcome(r, Some(id), [Emit(Observers, DeviceList(r.keys))])
  }

  /** The `data` handler. */
  function OnData(m: OMap<Record>, owner: Option<string>, p: Payload, now: string): (o: Outcome)
    requires m.Valid()
    ensures o.registry.Valid() && o.owner == owner
    ensures p.Malformed? || owner.None? ==> o == Outcome(m, owner, [])
    ensures p.Fields? && owner.Some? ==>
      var id := owner.value;
      && o.registry.vals.Keys == m.vals.Keys + {id}
      && o.registry.vals[id] == Stamped(p.fields, now)
      && (forall k :: k in m.vals && k != id ==> o.registry.vals[k] == m.vals[k])
      && m.keys <= o.registry.keys
      && o.emitted == [Emit(Observers, DeviceData(id, Stamped(p.fields, now)))]
  {
    if p.Fields? && owner.Some? then
      var r := m.Set(owner.value, Stamped(p.fields, now));
      Outcome(r, owner, [Emit(Observers, DeviceData(owner.value, r.vals[owner.value]))])
    else Outcome(m, owner, [])
  }

  /** The device-side `disconnect` handler: it announces the owned id as
      offline and touches nothing else. */
  function OnDisconnect(owner: Option<string>): (out: seq<Emission>)
    ensures out == [] <==> owner.None?
    ensures owner.Some? ==> out == [Emit(Observers, DeviceStatus(owner.value, Offline))]
  {
    match owner
    case None => []
    case Some(id) => [Emit(Observers, DeviceStatus(id, Offline))]
  }

  /** A `command` payload as it arrives: the handler does not parse it, so
      it is either an object, given by its fields, or any other value (a JSON
      text among them), which has no `deviceId` property. */
  datatype CommandPayload = Object(fields: Record) | NotObject

  /** The observer-side `command` handler: an object naming a device is
      re-emitted, unchanged, to every device connection under the event name
      `command:<deviceId>`, whether or not any device registered that id; a
      command sent as text names no device and is ignored. */
  function OnCommand(p: CommandPayload): (out: seq<Emission>)
    ensures p.NotObject? ==> out == []
    ensures p.Object? ==> (out == [] <==> DeviceIdOf(Fields(p.fields)).None?)
    ensures p.Object? && DeviceIdOf(Fields(p.fields)).Some? ==>
      out == [Emit(Devices, Command(CommandPrefix + DeviceIdOf(Fields(p.fields)).value, p.fields))]
  {
    match p
    case NotObject => []
    case Object(fields) =>
      match DeviceIdOf(Fields(fields))
      case None => []
      case Some(id) => [Emit(Devices, Command(CommandPrefix + id, fields))]
  }

  /** One message on a device connection. */
  datatype DeviceMessage = RegisterMsg(payload: Payload) | DataMsg(payload: Payload, now: string) | Disconnected

  function Step(m: OMap<Record>, owner: Option<string>, msg: DeviceMessage): (o: Outcome)
    requires m.Valid()
    ensures o.registry.Valid()
  {
    match msg
    case RegisterMsg(p) => OnRegister(m, owner, p)
    case DataMsg(p, now) => OnData(m, owner, p, now)
    case Disconnected => Outcome(m, owner, OnDisconnect(owner))
  }

  /** The messages of one device connection, handled in arrival order. */
  function Run(m: OMap<Record>, owner: Option<string>, msgs: seq<DeviceMessage>): (o: Outcome)
    requires m.Valid()
    ensures o.registry.Valid()
    decreases |msgs|
  {
    if msgs == [] then Outcome(m, owner, [])
    else
      var first := Step(m, owner, msgs[0]);
      var rest := Run(first.registry, first.owner, msgs[1..]);
      Outcome(rest.registry, rest.owner, first.emitted + rest.emitted)
  }

  /** One message on a device connection removes no record, keeps the order
      of the known ids, and leaves an owned id with a record. */
  lemma StepKeepsRecords(m: OMap<Record>, owner: Option<string>, msg: DeviceMessage)
    requires m.Valid()
    ensures m.keys <= Step(m, owner, msg).registry.keys
    ensures m.vals.Keys <= Step(m, owner, msg).registry.vals.Keys
    ensures (owner.Some? ==> owner.value in m.vals) ==>
              var o := Step(m, owner, msg); o.owner.Some? ==> o.owner.value in o.registry.vals
  {
  }

  /** Whatever a device connection sends, no record is ever removed and the
      first-insertion order of the ids already known is kept; and once the
      connection owns an id, that id has a record. */
  lemma {:induction false} RunKeepsRecords(m: OMap<Record>, owner: Option<string>, msgs: seq<DeviceMessage>)
    requires m.Valid()
    ensures m.keys <= Run(m, owner, msgs).registry.keys
    ensures m.vals.Keys <= Run(m, owner, msgs).registry.vals.Keys
    ensures (owner.Some? ==> owner.value in m.vals) ==>
              var o := Run(m, owner, msgs); o.owner.Some? ==> o.owner.value in o.registry.vals
    decreases |msgs|
  {
    if msgs != [] {
      var first := Step(m, owner, msgs[0]);
      StepKeepsRecords(m, owner, msgs[0]);
      RunKeepsRecords(first.registry, first.owner, msgs[1..]);
      assert Run(m, owner, msgs).registry == Run(first.registry, first.owner, msgs[1..]).registry;
      assert Run(m, owner, msgs).owner == Run(first.registry, first.owner, msgs[1..]).owner;
    }
  }

  /** Registering twice with the same payload is the same as registering once. */
  lemma RegisterIdempotent(m: OMap<Record>, owner: Option<string>, p: Payload)
    requires m.Valid()
    ensures var once := OnRegister(m, owner, p);
            OnRegister(once.registry, once.owner, p) == once
  {
  }

  /** Last write wins: a second `data` replaces the first record wholesale, no
      field of the earlier payload survives. */
  lemma LastWriteWins(m: OMap<Record>, id: string, p1: Payload, p2: Payload, t1: string, t2: string)
    requires m.Valid() && p2.Fields?
    ensures var first := OnData(m, Some(id), p1, t1);
            OnData(first.registry, Some(id), p2, t2).registry == OnData(m, Some(id), p2, t2).registry
  {
    if p1.Fields? {
      SetTwice(m, id, Stamped(p1.fields, t1), Stamped(p2.fields, t2));
    }
  }

  /** The saved snapshot file as `loadSavedData` finds it. */
  datatype SavedFile = Missing | Unreadable | Document(doc: OMap<Record>)

  /** One device connection: its `let deviceId`, null until a valid `register`. */
  class DeviceSocket {
    var deviceId: Option<string>

    constructor ()
      ensures deviceId == None
    {
      deviceId := None;
    }
  }

  class Hub {
    /** `deviceData`: device id to latest record, in first-insertion order. */
    var registry: OMap<Record>

    ghost predicate Valid()
      reads this
    {
      registry.Valid()
    }

    constructor ()
      ensures Valid() && registry == Empty()
    {
      registry := Empty();
    }

    /** `socket.on('register', ...)`. */
    method Register(socket: DeviceSocket, p: Payload) returns (out: seq<Emission>)
      requires Valid()
      modifies this, socket
      ensures Valid()
      ensures Outcome(registry, socket.deviceId, out) == OnRegister(old(registry), old(socket.deviceId), p)
    {
      out := [];
      var id := DeviceIdOf(p);
      if id.Some? {
        socket.deviceId := id;
        if id.value !in registry.vals {
          registry := registry.Set(id.value, map[]);
        }
        out := [Emit(Observers, DeviceList(registry.keys))];
      }
    }

    /** `socket.on('data', ...)`. */
    method Data(socket: DeviceSocket, p: Payload, now: string) returns (out: seq<Emission>)
      requires Valid()
      modifies this
      ensures Valid()
      ensures Outcome(registry, socket.deviceId, out) == OnData(old(registry), socket.deviceId, p, now)
    {
      out := [];
      if p.Fields? && socket.deviceId.Some? {
        var id := socket.deviceId.value;
        registry := registry.Set(id, Stamped(p.fields, now));
        out := [Emit(Observers, DeviceData(id, registry.vals[id]))];
      }
    }

    /** `socket.on('disconnect', ...)` on a device connection: the map is not touched. */
    method Disconnect(socket: DeviceSocket) returns (out: seq<Emission>)
      ensures out == OnDisconnect(socket.deviceId)
    {
      out := [];
      if socket.deviceId.Some? {
        out := [Emit(Observers, DeviceStatus(socket.deviceId.value, Offline))];
      }
    }

    /** `clientIO.on('connection', ...)`: the new observer gets the id list,
        then one record event per device, in map order, empty records included. */
    method ObserverConnect() returns (out: seq<Emission>)
      requires Valid()
      ensures |out| == |registry.keys| + 1
      ensures out[0] == Emit(NewObserver, DeviceList(registry.keys))
      ensures forall i :: 0 <= i < |registry.keys| ==>
                out[i + 1] == Emit(NewObserver, DeviceData(registry.keys[i], registry.vals[registry.keys[i]]))
    {
      out := [Emit(NewObserver, DeviceList(registry.keys))];
      var i := 0;
      while i < |registry.keys|
        invariant 0 <= i <= |registry.keys|
        invariant |out| == i + 1
        invariant out[0] == Emit(NewObserver, DeviceList(registry.keys))
        invariant forall j :: 0 <= j < i ==>
                    out[j + 1] == Emit(NewObserver, DeviceData(registry.keys[j], registry.vals[registry.keys[j]]))
      {
        var id := registry.keys[i];
        out := out + [Emit(NewObserver, DeviceData(id, registry.vals[id]))];
        i := i + 1;
      }
    }

    /** `saveData`: copies every entry, in map order, into the plain object
        that is written to disk; a device registered as `"__proto__"` gains
        no property there (the prototype setter runs), so it is not saved. */
    method Save() returns (doc: OMap<Record>)
      requires Valid()
      ensures doc == registry.Remove(ProtoKey)
      ensures doc.Valid() && doc.vals == registry.vals - {ProtoKey}
      ensures ProtoKey !in registry.vals ==> doc == registry
    {
      doc := Empty();
      var i := 0;
      while i < |registry.keys|
        invariant 0 <= i <= |registry.keys|
        invariant doc == Prefix(registry, i).Remove(ProtoKey)
      {
        var id := registry.keys[i];
        PrefixRemoveGrow(registry, i, ProtoKey);
        if id != ProtoKey {
          doc := doc.Set(id, registry.vals[id]);
        }
        i := i + 1;
      }
      PrefixAll(registry);
    }

    /** `loadSavedData`: sets every saved entry, in document order; a missing
        or unreadable file leaves the map as it is. */
    method Load(file: SavedFile)
      requires Valid()
      requires file.Document? ==> file.doc.Valid()
      modifies this
      ensures Valid()
      ensures file.Document? ==> registry == old(registry).SetAll(file.doc.keys, file.doc.vals)
      ensures !file.Document? ==> registry == old(registry)
    {
      if file.Document? {
        var doc := file.doc;
        var i := 0;
        while i < |doc.keys|
          invariant 0 <= i <= |doc.keys|
          invariant registry.Valid()
          invariant registry.SetAll(doc.keys[i..], doc.vals) == old(registry).SetAll(doc.keys, doc.vals)
        {
          var id := doc.keys[i];
          assert doc.keys[i..][1..] == doc.keys[i + 1..];
          registry := registry.Set(id, doc.vals[id]);
          i := i + 1;
        }
      }
    }
  }

  /** Loading a snapshot overrides the record of every saved id, keeps every
      other record, and keeps the ids already known in their order. */
  lemma LoadOverrides(m: OMap<Record>, d: OMap<Record>)
    requires m.Valid() && d.Valid()
    ensures var r := m.SetAll(d.keys, d.vals);
      && m.keys <= r.keys
      && r.vals.Keys == m.vals.Keys + d.vals.Keys
      && (forall k :: k in d.vals ==> r.vals[k] == d.vals[k])
      && (forall k :: k in m.vals && k !in d.vals ==> r.vals[k] == m.vals[k])
  {
    SetAllVals(m, d.keys, d.vals);
    SetAllKeepsOrder(m, d.keys, d.vals);
  }

  /** Saving and then loading into a freshly started hub reproduces the
      mapping, with the same records in the same order. */
  lemma SaveLoadRoundTrip(m: OMap<Record>)
    requires m.Valid()
    ensures Empty<Record>().SetAll(m.keys, m.vals) == m
  {
    RebuildFrom(m, 0);
    assert Prefix(m, 0) == Empty<Record>();
    assert m.keys[0..] == m.keys;
  }

  /** `saveData` on one hub, then a new process whose `loadSavedData` reads
      the written document: the new hub holds the same records in the same
      order, except for a device registered as `"__proto__"`, which is lost. */
  method SaveAndRestart(h: Hub) returns (restarted: Hub)
    requires h.Valid()
    ensures fresh(restarted) && restarted.Valid()
    ensures restarted.registry == h.registry.Remove(ProtoKey)
    ensures ProtoKey !in h.registry.vals ==> restarted.registry == h.registry
  {
    var doc := h.Save();
    restarted := new Hub();
    restarted.Load(Document(doc));
    SaveLoadRoundTrip(doc);
  }
}
