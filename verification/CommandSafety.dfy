/**
  From a request line to the bytes a headphone receives: the text and JSON front ends, connecting on demand,
  and which runs of the daemon can put the dangerous payloads on the wire.
 */
module CommandSafety {
  import opened Base
  import opened Text
  import opened SonyDevice
  import Ipc = IpcProtocol

  /** The tables and the number parser of the program; every result holds for all of them. */
  datatype World = World(
    registry: string -> Profile,
    integerOf: string -> Option<int>,
    presetOf: string -> int,
    presetKnown: int -> bool)

  /** What a request amounts to. Only ConnectTo, DisconnectNow and Acts touch the headphones. */
  datatype Outcome =
    | Listed
    | NotConfirmed
    | RawDisabled
    | StatusReported
    | NotConnected
    | Reported
    | UnknownPreset
    | UnknownCommand
    | BadRequest
    | NotSupported
    | ServiceError
    | InternalError
    | ConnectTo(name: string)
    | DisconnectNow
    | Acts(op: DeviceOp)

  /** What looking for devices yields: an exception, nothing, or at least one device, the first of this name. */
  datatype Discovery = Throws | Nothing | First(name: string)

  // ---------------------------------------------------------------- the text front end

  function SetAnc(enabled: bool): DeviceOp {
    Setter(SetNoiseControl(if enabled then Cancelling else Off, 0, false))
  }

  function SetAmbient(level: int, voice: bool): DeviceOp {
    Setter(SetNoiseControl(Ambient, level, voice))
  }

  predicate SaysOff(args: seq<string>) {
    args != [] && ToLower(args[0]) == "off"
  }

  /** The i-th argument as a clamped number, or a default if it is missing or not a number. */
  function NumberArg(w: World, args: seq<string>, i: nat, low: int, high: int, otherwise: int): int {
    if i >= |args| then otherwise
    else match w.integerOf(args[i])
      case None => otherwise
      case Some(n) => Clamp(n, low, high)
  }

  function PresetName(args: seq<string>): string {
    if args == [] then "off"
    else if args[0] == "preset" && |args| > 1 then args[1]
    else args[0]
  }

  function CustomStart(args: seq<string>): nat {
    if args != [] && ToLower(args[0]) == "custom" then 1 else 0
  }

  function CustomBands(w: World, args: seq<string>): (bands: seq<int>)
    ensures |bands| == 5
  {
    seq(5, i requires 0 <= i => NumberArg(w, args, CustomStart(args) + 1 + i, -10, 10, 0))
  }

  /** What a command does once the device is known to be connected. */
  function DeviceCommand(w: World, cmd: Ipc.Command): Outcome {
    match cmd.kind
    case Info => Reported
    case Battery => Reported
    case EqGet => Reported
    case Anc => Acts(SetAnc(!SaysOff(cmd.args)))
    case Ambient =>
      if SaysOff(cmd.args) then Acts(SetAnc(false))
      else Acts(SetAmbient(NumberArg(w, cmd.args, 0, 1, 20, 10), false))
    case EqPreset =>
      var preset := w.presetOf(PresetName(cmd.args));
      if 0 <= preset <= 255 then Acts(Setter(SetEqualizerPreset(preset))) else UnknownPreset
    case EqCustom =>
      Acts(Setter(SetEqualizerCustom(NumberArg(w, cmd.args, CustomStart(cmd.args), -10, 10, 0),
                                     CustomBands(w, cmd.args))))
    case Dsee => Acts(Setter(SetDsee(!SaysOff(cmd.args))))
    case AutoPowerOff => Acts(Setter(SetAutoPowerOff(NumberArg(w, cmd.args, 0, 0, 5, 0))))
    case SpeakToChat => Acts(Setter(SetSpeakToChat(!SaysOff(cmd.args))))
    case AdaptiveVolume => Acts(Setter(SetAdaptiveVolume(!SaysOff(cmd.args))))
    case Reset => Acts(Setter(Request.Reset))
    case FactoryReset => Acts(Setter(Request.FactoryReset))
    case _ => UnknownCommand
  }

  /** The gates, in the order the program takes them: confirmation comes before any look at the device. */
  function TextOutcome(w: World, cmd: Ipc.Command, connected: bool, found: Discovery): Outcome {
    if cmd.kind.Devices? then (if found.Throws? then InternalError else Listed)
    else if Ipc.NeedsConfirmation(cmd) then NotConfirmed
    else if cmd.kind.Raw? then RawDisabled
    else if cmd.kind.Status? then StatusReported
    else if !connected then NotConnected
    else DeviceCommand(w, cmd)
  }

  // ---------------------------------------------------------------- the JSON front end

  /**
    A parsed JSON request. wellFormed: an object with an id, the right version, a method name and object
    parameters. A parameter is None if it is missing without a default or has the wrong type; confirm and
    voice are Some(false) if missing.
   */
  datatype JsonRequest = JsonRequest(
    wellFormed: bool,
    action: string,
    confirm: Option<bool>,
    enabled: Option<bool>,
    level: Option<int>,
    voice: Option<bool>,
    preset: Option<int>,
    bands: Option<seq<int>>,
    clearBass: Option<int>,
    index: Option<int>,
    address: Option<string>,
    name: Option<string>)

  predicate InRange(x: Option<int>, low: int, high: int) {
    x.Some? && low <= x.value <= high
  }

  predicate IsHexDigit(c: char) {
    '0' <= c <= '9' || 'a' <= c <= 'f' || 'A' <= c <= 'F'
  }

  predicate IsAddress(text: string) {
    |text| == 17 && forall i :: 0 <= i < 17 ==> if i % 3 == 2 then text[i] == ':' else IsHexDigit(text[i])
  }

  /** A switch parameter: the feature must be supported and the value a boolean. */
  function Switched(supported: bool, r: JsonRequest, on: DeviceOp, off: DeviceOp): Outcome {
    if !supported then NotSupported
    else if r.enabled.None? then BadRequest
    else Acts(if r.enabled.value then on else off)
  }

  function JsonAmbient(r: JsonRequest, c: Capabilities): Outcome {
    if !c.ambientSound then NotSupported
    else if r.voice.None? then BadRequest
    else if r.voice.value && !c.focusOnVoice then NotSupported
    else if InRange(r.level, 1, 20) then Acts(SetAmbient(r.level.value, r.voice.value))
    else BadRequest
  }

  function JsonPreset(w: World, r: JsonRequest, c: Capabilities): Outcome {
    if !c.equalizer then NotSupported
    else if InRange(r.preset, 0, 255) && w.presetKnown(r.preset.value)
    then Acts(Setter(SetEqualizerPreset(r.preset.value)))
    else BadRequest
  }

  function JsonCustom(r: JsonRequest, c: Capabilities): Outcome {
    if !c.equalizer then NotSupported
    else if r.bands.Some? && |r.bands.value| == 5 && (forall b <- r.bands.value :: -10 <= b <= 10)
            && InRange(r.clearBass, -10, 10)
    then Acts(Setter(SetEqualizerCustom(r.clearBass.value, r.bands.value)))
    else BadRequest
  }

  function JsonDeviceCommand(w: World, r: JsonRequest, c: Capabilities): Outcome {
    if r.action == "anc" then Switched(c.noiseCancelling, r, SetAnc(true), SetAnc(false))
    else if r.action == "ambient" then JsonAmbient(r, c)
    else if r.action == "eqPreset" then JsonPreset(w, r, c)
    else if r.action == "eqCustom" then JsonCustom(r, c)
    else JsonFeature(r, c)
  }

  function JsonFeature(r: JsonRequest, c: Capabilities): Outcome {
    if r.action == "dsee" then Switched(c.dsee, r, Setter(SetDsee(true)), Setter(SetDsee(false)))
    else if r.action == "speakToChat" then
      Switched(c.speakToChat, r, Setter(SetSpeakToChat(true)), Setter(SetSpeakToChat(false)))
    else if r.action == "adaptiveVolume" then
      Switched(c.adaptiveVolume, r, Setter(SetAdaptiveVolume(true)), Setter(SetAdaptiveVolume(false)))
    else if r.action == "autoPowerOff" then
      if !c.autoPowerOff then NotSupported
      else if InRange(r.index, 0, 5) then Acts(Setter(SetAutoPowerOff(r.index.value)))
      else BadRequest
    else if r.action == "reset" then if c.reset then Acts(Setter(Request.Reset)) else NotSupported
    else if r.action == "factoryReset" then
      if !c.factoryReset then NotSupported
      else if r.confirm == Some(true) then Acts(Setter(Request.FactoryReset))
      else BadRequest
    else BadRequest
  }

  function JsonOutcome(w: World, r: JsonRequest, connected: bool, c: Capabilities, found: Discovery): Outcome {
    if !r.wellFormed then BadRequest
    else if r.action == "snapshot" then Reported
    else if r.action == "devices" then (if found.Throws? then ServiceError else Listed)
    else if r.action == "connect" then
      if r.address.Some? && IsAddress(r.address.value) && r.name.Some? then ConnectTo(r.name.value) else BadRequest
    else if r.action == "disconnect" then DisconnectNow
    else if !connected then NotConnected
    else JsonDeviceCommand(w, r, c)
  }

  // ---------------------------------------------------------------- one request line

  /** Whether the first character that is not a blank, carriage return or tab opens a JSON value. */
  predicate IsJson(line: string) {
    line != "" &&
    if line[0] == ' ' || line[0] == '\r' || line[0] == '\t' then IsJson(line[1..])
    else line[0] == '{' || line[0] == '['
  }

  /** Whether the daemon takes the Bluetooth link to serve the line. */
  predicate NeedsConnection(line: string) {
    var cmd := Ipc.ParseCommand(line);
    && !IsJson(line) && !Ipc.NeedsConfirmation(cmd)
    && !cmd.kind.Raw? && !cmd.kind.Devices? && !cmd.kind.Status?
  }

  /**
    A request as it meets the environment: its line, the JSON value the line holds if it is one, what looking
    for devices yields, the fate of a connect, and the fate of a device operation.
   */
  datatype Arrival = Arrival(line: string, json: JsonRequest, found: Discovery, connect: ConnectIo, io: Io)

  /** A connect ordered by the service: if it does not end with a live link, the device is disconnected. */
  function ServiceConnected(w: World, d: Device, name: string, io: ConnectIo): Device {
    Connected(d, name, w.registry(name), io)
  }

  /** Whether serving the line starts with a connect to the first discovered device. */
  predicate Demands(d: Device, a: Arrival) {
    !d.running && NeedsConnection(a.line) && a.found.First?
  }

  /** Whether looking for a device to connect to throws, which ends the line with an internal error. */
  predicate DemandThrows(d: Device, a: Arrival) {
    !d.running && NeedsConnection(a.line) && a.found.Throws?
  }

  function AfterDemand(w: World, d: Device, a: Arrival): Device {
    if Demands(d, a) then ServiceConnected(w, d, a.found.name, a.connect) else d
  }

  function DemandWrites(w: World, d: Device, a: Arrival): seq<Payload> {
    if Demands(d, a) then ConnectWrites(AfterDemand(w, d, a), a.connect) else []
  }

  function OutcomeOf(w: World, d: Device, a: Arrival): Outcome {
    if IsJson(a.line) then JsonOutcome(w, a.json, d.running, d.capabilities, a.found)
    else TextOutcome(w, Ipc.ParseCommand(a.line), d.running, a.found)
  }

  /** The outcome of serving the line from the beginning. */
  function LineOutcome(w: World, d: Device, a: Arrival): Outcome {
    if DemandThrows(d, a) then InternalError else OutcomeOf(w, AfterDemand(w, d, a), a)
  }

  /** One payload on the wire: the generation it was built for, the name last connected to, and its event. */
  datatype Entry = Entry(payload: Payload, built: Option<Version>, name: string, event: nat)

  function Tagged(payloads: seq<Payload>, d: Device, event: nat): (entries: seq<Entry>)
    ensures |entries| == |payloads|
    ensures forall i :: 0 <= i < |entries| ==> entries[i] == Entry(payloads[i], d.protocol, d.requested, event)
  {
    seq(|payloads|, i requires 0 <= i < |payloads| => Entry(payloads[i], d.protocol, d.requested, event))
  }

  /** The device after an outcome, and what was written on the way. */
  function Performed(w: World, d: Device, outcome: Outcome, connect: ConnectIo, io: Io): (Device, seq<Payload>) {
    match outcome
    case ConnectTo(name) =>
      var t := ServiceConnected(w, d, name, connect);
      (t, ConnectWrites(t, connect))
    case DisconnectNow => (d.(running := false), [])
    case Acts(op) => (AfterOp(d, op), Written(d, op, io))
    case _ => (d, [])
  }

  /** Serving one line: connect on demand, then execute. */
  function Served(w: World, d: Device, a: Arrival, event: nat): (Device, seq<Entry>) {
    var t := AfterDemand(w, d, a);
    var (after, written) := Performed(w, t, LineOutcome(w, d, a), a.connect, a.io);
    (after, Tagged(DemandWrites(w, d, a), t, event) + Tagged(written, after, event))
  }

  /** The custom equalizer values of a command. */
  method ExecuteCustom(w: World, args: seq<string>) returns (clearBass: int, bands: seq<int>)
    ensures clearBass == NumberArg(w, args, CustomStart(args), -10, 10, 0)
    ensures bands == CustomBands(w, args)
  {
    var start := CustomStart(args);
    clearBass := 0;
    if start < |args| {
      var n := w.integerOf(args[start]);
      clearBass := if n.Some? then Clamp(n.value, -10, 10) else 0;
    }
    bands := [0, 0, 0, 0, 0];
    var i := 0;
    while i < 5 && start + 1 + i < |args|
      invariant 0 <= i <= 5 && |bands| == 5
      invariant forall k :: 0 <= k < i ==> bands[k] == CustomBands(w, args)[k]
      invariant forall k :: i <= k < 5 ==> bands[k] == 0
    {
      var n := w.integerOf(args[start + 1 + i]);
      if n.Some? {
        bands := bands[i := Clamp(n.value, -10, 10)];
      }
      i := i + 1;
    }
    forall k | i <= k < 5
      ensures bands[k] == CustomBands(w, args)[k]
    {
      assert NumberArg(w, args, start + 1 + k, -10, 10, 0) == 0;
    }
  }

  /** A failing connect is swallowed, a failing search for devices is not. */
  method ConnectOnDemand(w: World, device: DeviceObject, a: Arrival) returns (thrown: bool)
    modifies device
    ensures thrown <==> DemandThrows(old(device.View()), a)
    ensures device.View() == AfterDemand(w, old(device.View()), a)
    ensures device.wire == old(device.wire) + DemandWrites(w, old(device.View()), a)
  {
    thrown := false;
    if device.running || !NeedsConnection(a.line) {
      return;
    }
    match a.found {
      case Throws => thrown := true;
      case Nothing =>
      case First(name) =>
        var failed := device.Connect(name, w.registry(name), a.connect);
    }
  }

  method Perform(w: World, device: DeviceObject, outcome: Outcome, connect: ConnectIo, io: Io)
    modifies device
    ensures device.View() == Performed(w, old(device.View()), outcome, connect, io).0
    ensures device.wire == old(device.wire) + Performed(w, old(device.View()), outcome, connect, io).1
  {
    match outcome {
      case ConnectTo(name) =>
        var thrown := device.Connect(name, w.registry(name), connect);
      case DisconnectNow =>
        device.Disconnect();
      case Acts(op) =>
        device.Run(op, io);
      case _ =>
    }
  }

  /** Parses a line, passes it through the gates and carries it out on the device. */
  method ExecuteLine(w: World, device: DeviceObject, a: Arrival) returns (outcome: Outcome)
    modifies device
    ensures outcome == OutcomeOf(w, old(device.View()), a)
    ensures device.View() == Performed(w, old(device.View()), outcome, a.connect, a.io).0
    ensures device.wire == old(device.wire) + Performed(w, old(device.View()), outcome, a.connect, a.io).1
  {
    if IsJson(a.line) {
      outcome := JsonOutcome(w, a.json, device.running, device.capabilities, a.found);
    } else {
      outcome := TextOutcome(w, Ipc.ParseCommand(a.line), device.running, a.found);
    }
    Perform(w, device, outcome, a.connect, a.io);
  }

  /** What the executor does with a line that was not cancelled. */
  method Serve(w: World, device: DeviceObject, a: Arrival) returns (outcome: Outcome)
    modifies device
    ensures outcome == LineOutcome(w, old(device.View()), a)
    ensures device.View() == Performed(w, AfterDemand(w, old(device.View()), a), outcome, a.connect, a.io).0
    ensures device.wire == old(device.wire) + DemandWrites(w, old(device.View()), a)
                           + Performed(w, AfterDemand(w, old(device.View()), a), outcome, a.connect, a.io).1
  {
    ghost var d := device.View();
    var thrown := ConnectOnDemand(w, device, a);
    assert device.View() == AfterDemand(w, d, a);
    if thrown {
      return InternalError;
    }
    outcome := ExecuteLine(w, device, a);
  }

  // ---------------------------------------------------------------- who may write what

  /** A line that asks for the factory reset and confirms it, read off the line alone. */
  predicate Confirms(a: Arrival) {
    if IsJson(a.line) then a.json.wellFormed && a.json.action == "factoryReset" && a.json.confirm == Some(true)
    else
      var words := Ipc.Words(a.line);
      && words != [] && ToLower(words[0]) == "factoryreset"
      && exists i :: 1 <= i < |words| && ToLower(words[i]) == Ipc.CONFIRM_ARG
  }

  lemma FactoryResetVerb(verb: string, sub: string)
    ensures Ipc.KindOf(verb, sub).FactoryReset? <==> verb == "factoryreset"
  {
    if verb == "factoryreset" {
      assert |verb| == 12 && verb[0] == 'f';
    }
  }

  lemma ConfirmedText(line: string)
    ensures var cmd := Ipc.ParseCommand(line); var words := Ipc.Words(line);
            cmd.kind.FactoryReset? && !Ipc.NeedsConfirmation(cmd) <==>
            words != [] && ToLower(words[0]) == "factoryreset"
            && exists i :: 1 <= i < |words| && ToLower(words[i]) == Ipc.CONFIRM_ARG
  {
    var words := Ipc.Words(line);
    if words != [] {
      FactoryResetVerb(ToLower(words[0]), if |words| > 1 then ToLower(words[1]) else "");
      ConfirmedArgs(words);
    }
  }

  lemma ConfirmedArgs(words: seq<string>)
    requires words != []
    ensures (exists arg <- words[1..] :: ToLower(arg) == Ipc.CONFIRM_ARG) <==>
            (exists i :: 1 <= i < |words| && ToLower(words[i]) == Ipc.CONFIRM_ARG)
  {
    if i :| 1 <= i < |words| && ToLower(words[i]) == Ipc.CONFIRM_ARG {
      assert words[i] == words[1..][i - 1];
    }
  }

  lemma TextWipes(w: World, cmd: Ipc.Command, connected: bool, found: Discovery)
    ensures TextOutcome(w, cmd, connected, found) == Acts(Setter(Request.FactoryReset)) <==>
            cmd.kind.FactoryReset? && !Ipc.NeedsConfirmation(cmd) && connected
  {
  }

  lemma JsonWipes(w: World, r: JsonRequest, connected: bool, c: Capabilities, found: Discovery)
    ensures JsonOutcome(w, r, connected, c, found) == Acts(Setter(Request.FactoryReset)) <==>
            r.wellFormed && r.action == "factoryReset" && r.confirm == Some(true) && connected && c.factoryReset
  {
    if r.action == "factoryReset" {
      assert |r.action| == 12 && r.action[0] == 'f';
    }
  }

  /** The factory reset is attempted exactly for a confirmed request with a live link and, over JSON, the feature. */
  lemma OutcomeWipes(w: World, d: Device, a: Arrival)
    ensures OutcomeOf(w, d, a) == Acts(Setter(Request.FactoryReset)) <==>
            Confirms(a) && d.running && (IsJson(a.line) ==> d.capabilities.factoryReset)
  {
    if IsJson(a.line) {
      JsonWipes(w, a.json, d.running, d.capabilities, a.found);
    } else {
      TextWipes(w, Ipc.ParseCommand(a.line), d.running, a.found);
      ConfirmedText(a.line);
    }
  }

  // ---------------------------------------------------------------- runs of the daemon

  /**
    Everything that reaches the device object: request lines, connects the service makes on its own, release
    of the link, the two maintenance duties of a tick, and loss of the link.
   */
  datatype Event =
    | Arrives(arrival: Arrival)
    | Connects(name: string, connect: ConnectIo)
    | Releases
    | TicksSettings(io: Io)
    | TicksBattery(io: Io)
    | LosesLink

  datatype System = System(device: Device, log: seq<Entry>)

  function Initial(w: World): System {
    System(Device(None, false, V1, w.registry("").capabilities, 0, ""), [])
  }

  function Maintained(d: Device, op: DeviceOp, io: Io, event: nat): (Device, seq<Entry>) {
    if d.running then (AfterOp(d, op), Tagged(Written(d, op, io), d, event)) else (d, [])
  }

  function Happened(w: World, d: Device, e: Event, event: nat): (Device, seq<Entry>) {
    match e
    case Arrives(arrival) => Served(w, d, arrival, event)
    case Connects(name, connect) =>
      var t := ServiceConnected(w, d, name, connect);
      (t, Tagged(ConnectWrites(t, connect), t, event))
    case Releases => (d.(running := false), [])
    case TicksSettings(io) => Maintained(d, RefreshStep, io, event)
    case TicksBattery(io) => Maintained(d, RefreshBattery, io, event)
    case LosesLink => (d.(running := false), [])
  }

  /** The daemon after a run, with everything it has written. */
  function After(w: World, events: seq<Event>): System
    decreases |events|
  {
    if events == [] then Initial(w)
    else
      var k := |events| - 1;
      var before := After(w, events[..k]);
      var (device, entries) := Happened(w, before.device, events[k], k);
      System(device, before.log + entries)
  }

  /** The current protocol object speaks the generation of the name last connected to, with its features. */
  ghost predicate Current(w: World, d: Device) {
    d.protocol.Some? ==>
      d.protocol.value == w.registry(d.requested).protocol && d.capabilities == w.registry(d.requested).capabilities
  }

  /** What may be on the wire: nothing dangerous, except a V2 battery request, and the wipe where allowed. */
  ghost predicate Safe(d: Device, p: Payload, mayWipe: bool) {
    && d.protocol.Some? && p != []
    && (p[0] == POWER_OFF ==> d.protocol == Some(V2) && d.capabilities.battery)
    && (p == WIPE ==> mayWipe && d.protocol == Some(V2) && d.capabilities.factoryReset)
  }

  lemma OpIsSafe(d: Device, op: DeviceOp, io: Io)
    requires op.Setter? ==> op.request != GetBattery && op.request != InitDevice
    ensures forall p <- Written(d, op, io) :: Safe(d, p, op == Setter(Request.FactoryReset))
  {
    var gated := Gated(d, op);
    if gated.Some? {
      var payloads := Payloads(d.protocol.value, gated.value, io.answered);
      ReachedOnly(payloads, io);
      forall p | p in Written(d, op, io)
        ensures Safe(d, p, op == Setter(Request.FactoryReset))
      {
        DangerousPayloads(d.protocol.value, gated.value, io.answered, p);
      }
    }
  }

  lemma ConnectIsSafe(d: Device, io: ConnectIo)
    ensures forall p <- ConnectWrites(d, io) :: Safe(d, p, false)
  {
    if d.protocol.Some? && io.sessionUp {
      var init := Payloads(d.protocol.value, InitDevice, io.init.answered);
      ReachedOnly(init, io.init);
      forall p | p in Reached(init, io.init)
        ensures Safe(d, p, false)
      {
        DangerousPayloads(d.protocol.value, InitDevice, io.init.answered, p);
      }
      OpIsSafe(d, RefreshBattery, IoAt(io.refreshes, 0));
      OpIsSafe(d, RefreshNoiseControl, IoAt(io.refreshes, 1));
      OpIsSafe(d, RefreshEqualizer, IoAt(io.refreshes, 2));
      OpIsSafe(d, RefreshDsee, IoAt(io.refreshes, 3));
    }
  }

  /** A request line never asks the protocol for a battery reading or the handshake. */
  lemma OutcomesAreSetters(w: World, d: Device, a: Arrival)
    ensures var outcome := OutcomeOf(w, d, a);
            outcome.Acts? ==> outcome.op.Setter? && outcome.op.request != GetBattery && outcome.op.request != InitDevice
  {
  }

  /** The requests that wipe: confirmed, on a live V2 link to a model with the feature, and the write goes through. */
  predicate Wipes(w: World, d: Device, a: Arrival) {
    var t := AfterDemand(w, d, a);
    && Confirms(a)
    && t.running && t.protocol == Some(V2) && t.capabilities.factoryReset
    && a.io.reached != [] && a.io.reached[0]
  }

  /** A log entry is justified by the profile of the name last connected to and by the event it came from. */
  ghost predicate Justified(w: World, e: Event, entry: Entry) {
    var profile := w.registry(entry.name);
    && entry.payload != [] && entry.built == Some(profile.protocol)
    && (entry.payload[0] == POWER_OFF ==> profile.protocol == V2 && profile.capabilities.battery)
    && (entry.payload == WIPE ==>
          && profile.protocol == V2 && profile.capabilities.factoryReset
          && e.Arrives? && Confirms(e.arrival))
  }

  lemma TaggedJustified(w: World, e: Event, payloads: seq<Payload>, d: Device, k: nat, mayWipe: bool)
    requires Current(w, d) && forall p <- payloads :: Safe(d, p, mayWipe)
    requires mayWipe ==> e.Arrives? && Confirms(e.arrival)
    ensures forall entry <- Tagged(payloads, d, k) :: entry.event == k && Justified(w, e, entry)
    ensures !mayWipe ==> forall entry <- Tagged(payloads, d, k) :: entry.payload != WIPE
  {
    forall entry | entry in Tagged(payloads, d, k)
      ensures entry.payload in payloads && entry == Entry(entry.payload, d.protocol, d.requested, k)
    {
      var i :| 0 <= i < |payloads| && Tagged(payloads, d, k)[i] == entry;
      assert entry.payload == payloads[i];
    }
  }

  /** The wiping write of a factory reset: one payload, or none. */
  lemma FactoryResetWrites(d: Device, io: Io)
    ensures Written(d, Setter(Request.FactoryReset), io) ==
            if d.protocol == Some(V2) && d.capabilities.factoryReset && io.reached != [] && io.reached[0]
            then [WIPE] else []
  {
    if d.protocol.Some? && d.capabilities.factoryReset {
      var payloads := Payloads(d.protocol.value, Request.FactoryReset, io.answered);
      var rest := Io(io.answered, if io.reached == [] then [] else io.reached[1..]);
      assert payloads != [] ==> payloads[0] == WIPE && payloads[1..] == [];
      assert Reached([], rest) == [];
    }
  }

  /** What carrying a request out writes is safe, and wipes at most once and only by the factory reset. */
  lemma PerformedIsSafe(w: World, d: Device, outcome: Outcome, connect: ConnectIo, io: Io)
    requires outcome.Acts? ==>
               outcome.op.Setter? && outcome.op.request != GetBattery && outcome.op.request != InitDevice
    ensures var (after, written) := Performed(w, d, outcome, connect, io);
            var mayWipe := outcome == Acts(Setter(Request.FactoryReset));
            && (forall p <- written :: Safe(after, p, mayWipe))
            && (WIPE in written ==> written == [WIPE])
            && (WIPE in written <==>
                  mayWipe && d.protocol == Some(V2) && d.capabilities.factoryReset && io.reached != [] && io.reached[0])
  {
    match outcome {
      case ConnectTo(name) =>
        ConnectIsSafe(ServiceConnected(w, d, name, connect), connect);
      case Acts(op) =>
        OpIsSafe(d, op, io);
        FactoryResetWrites(d, io);
      case _ =>
    }
  }

  predicate HasWipe(entries: seq<Entry>) {
    exists entry <- entries :: entry.payload == WIPE
  }

  /** At most one of the entries wipes. */
  ghost predicate WipesOnce(entries: seq<Entry>) {
    forall i, j :: 0 <= i < j < |entries| ==> entries[i].payload != WIPE || entries[j].payload != WIPE
  }

  lemma ConcatWipes(first: seq<Entry>, second: seq<Entry>)
    requires !HasWipe(first)
    ensures HasWipe(first + second) <==> HasWipe(second)
    ensures WipesOnce(second) ==> WipesOnce(first + second)
  {
    forall i | 0 <= i < |first|
      ensures first[i].payload != WIPE
    {
      assert first[i] in first;
    }
  }

  lemma TaggedWipes(payloads: seq<Payload>, d: Device, k: nat)
    ensures HasWipe(Tagged(payloads, d, k)) <==> WIPE in payloads
    ensures (WIPE in payloads ==> payloads == [WIPE]) ==> WipesOnce(Tagged(payloads, d, k))
  {
    var entries := Tagged(payloads, d, k);
    forall i | 0 <= i < |payloads|
      ensures entries[i] in entries && entries[i].payload == payloads[i]
    {
    }
  }

  lemma ServedIsJustified(w: World, d: Device, a: Arrival, k: nat)
    requires Current(w, d)
    ensures var (after, entries) := Served(w, d, a, k);
            && Current(w, after)
            && (forall entry <- entries :: entry.event == k && Justified(w, Arrives(a), entry))
            && WipesOnce(entries) && (HasWipe(entries) <==> Wipes(w, d, a))
  {
    var t := AfterDemand(w, d, a);
    var demanded := DemandWrites(w, d, a);
    OutcomesAreSetters(w, t, a);
    OutcomeWipes(w, t, a);
    ServedParts(w, t, a, demanded, LineOutcome(w, d, a), k);
  }

  lemma ServedParts(w: World, t: Device, a: Arrival, demanded: seq<Payload>, outcome: Outcome, k: nat)
    requires Current(w, t) && (demanded == [] || demanded == ConnectWrites(t, a.connect))
    requires outcome.Acts? ==>
               outcome.op.Setter? && outcome.op.request != GetBattery && outcome.op.request != InitDevice
    requires outcome == Acts(Setter(Request.FactoryReset)) ==> Confirms(a)
    ensures var (after, written) := Performed(w, t, outcome, a.connect, a.io);
            var entries := Tagged(demanded, t, k) + Tagged(written, after, k);
            && Current(w, after)
            && (forall entry <- entries :: entry.event == k && Justified(w, Arrives(a), entry))
            && WipesOnce(entries)
            && (HasWipe(entries) <==>
                  && outcome == Acts(Setter(Request.FactoryReset)) && t.protocol == Some(V2)
                  && t.capabilities.factoryReset && a.io.reached != [] && a.io.reached[0])
  {
    var (after, written) := Performed(w, t, outcome, a.connect, a.io);
    ConnectIsSafe(t, a.connect);
    PerformedIsSafe(w, t, outcome, a.connect, a.io);
    TaggedJustified(w, Arrives(a), demanded, t, k, false);
    TaggedJustified(w, Arrives(a), written, after, k, outcome == Acts(Setter(Request.FactoryReset)));
    TaggedWipes(written, after, k);
    ConcatWipes(Tagged(demanded, t, k), Tagged(written, after, k));
  }

  lemma HappenedIsJustified(w: World, d: Device, e: Event, k: nat)
    requires Current(w, d)
    ensures var (after, entries) := Happened(w, d, e, k);
            && Current(w, after)
            && (forall entry <- entries :: entry.event == k && Justified(w, e, entry))
            && WipesOnce(entries) && (HasWipe(entries) <==> e.Arrives? && Wipes(w, d, e.arrival))
  {
    match e
    case Arrives(arrival) => ServedIsJustified(w, d, arrival, k);
    case Connects(name, connect) =>
      var t := ServiceConnected(w, d, name, connect);
      ConnectIsSafe(t, connect);
      TaggedJustified(w, e, ConnectWrites(t, connect), t, k, false);
    case TicksSettings(io) =>
      OpIsSafe(d, RefreshStep, io);
      TaggedJustified(w, e, Written(d, RefreshStep, io), d, k, false);
    case TicksBattery(io) =>
      OpIsSafe(d, RefreshBattery, io);
      TaggedJustified(w, e, Written(d, RefreshBattery, io), d, k, false);
    case _ =>
  }

  lemma {:induction false} RunIsJustified(w: World, events: seq<Event>)
    ensures var s := After(w, events);
            && Current(w, s.device)
            && forall entry <- s.log :: entry.event < |events| && Justified(w, events[entry.event], entry)
    decreases |events|
  {
    if events != [] {
      var k := |events| - 1;
      RunIsJustified(w, events[..k]);
      HappenedIsJustified(w, After(w, events[..k]).device, events[k], k);
    }
  }

  /** If the payload starts with 0x22, it was built for V2, for a V2 model with a battery reading. */
  ghost predicate SwitchesNothingOff(w: World, entry: Entry) {
    entry.payload != [] && entry.payload[0] == POWER_OFF ==>
      && entry.built == Some(V2) && w.registry(entry.name).protocol == V2
      && w.registry(entry.name).capabilities.battery
  }

  /**
    Power-off safety: in every run, whatever names are connected to and whichever writes fail, opcode 0x22 is
    only written by a protocol object built for V2, while the name last connected to is a V2 model with a
    battery reading.
   */
  lemma {:induction false} PowerOffSafety(w: World, events: seq<Event>)
    ensures forall entry <- After(w, events).log :: SwitchesNothingOff(w, entry)
  {
    RunIsJustified(w, events);
  }

  /** Some entry of the log is a wipe written by event k. */
  predicate WipedBy(log: seq<Entry>, k: nat) {
    exists entry <- log :: entry.payload == WIPE && entry.event == k
  }

  /** Event k of the run is a confirmed request that finds what a factory reset needs. */
  predicate MustWipe(w: World, events: seq<Event>, k: nat)
    requires k < |events|
  {
    events[k].Arrives? && Wipes(w, After(w, events[..k]).device, events[k].arrival)
  }

  /** The wiping entries come from different events, in order. */
  ghost predicate WipingEventsIncrease(log: seq<Entry>) {
    forall i, j :: 0 <= i < j < |log| && log[i].payload == WIPE && log[j].payload == WIPE ==>
      log[i].event < log[j].event
  }

  /** The entry comes from a confirmed request, for a V2 model with the feature. */
  ghost predicate WipeIsWanted(w: World, events: seq<Event>, entry: Entry) {
    && entry.event < |events| && events[entry.event].Arrives? && Confirms(events[entry.event].arrival)
    && w.registry(entry.name).protocol == V2 && w.registry(entry.name).capabilities.factoryReset
  }

  lemma AppendedWipes(log: seq<Entry>, entries: seq<Entry>, k: nat)
    requires WipingEventsIncrease(log) && forall entry <- log :: entry.event < k
    requires WipesOnce(entries) && forall entry <- entries :: entry.event == k
    ensures WipingEventsIncrease(log + entries)
    ensures forall j: nat :: WipedBy(log + entries, j) <==> if j == k then HasWipe(entries) else WipedBy(log, j)
  {
    forall j: nat
      ensures WipedBy(log + entries, j) <==> if j == k then HasWipe(entries) else WipedBy(log, j)
    {
      assert forall entry :: entry in log + entries <==> entry in log || entry in entries;
    }
  }

  /**
    Factory-reset safety, exactly: the events that wipe are the confirmed requests that find a live link to a
    V2 model with the feature, each wipes once, and nothing else ever writes those bytes.
   */
  lemma {:induction false} FactoryResetSafety(w: World, events: seq<Event>)
    ensures WipingEventsIncrease(After(w, events).log)
    ensures forall k :: 0 <= k < |events| ==> (WipedBy(After(w, events).log, k) <==> MustWipe(w, events, k))
    ensures forall entry <- After(w, events).log :: entry.payload == WIPE ==> WipeIsWanted(w, events, entry)
    decreases |events|
  {
    RunIsJustified(w, events);
    if events != [] {
      var k := |events| - 1;
      var before := After(w, events[..k]);
      FactoryResetSafety(w, events[..k]);
      RunIsJustified(w, events[..k]);
      HappenedIsJustified(w, before.device, events[k], k);
      AppendedWipes(before.log, Happened(w, before.device, events[k], k).1, k);
      forall j | 0 <= j < k
        ensures MustWipe(w, events, j) <==> MustWipe(w, events[..k], j)
      {
        assert events[..k][..j] == events[..j];
      }
    }
  }

  lemma RefusedBeforeDevice(w: World, cmd: Ipc.Command, connected: bool, found: Discovery)
    requires Ipc.NeedsConfirmation(cmd) || cmd.kind.Raw? || cmd.kind.Devices? || cmd.kind.Status?
    ensures TextOutcome(w, cmd, connected, found) in
            {Listed, InternalError, NotConfirmed, RawDisabled, StatusReported}
  {
  }

  /**
    A text line the daemon does not take the link for cannot act on a device either, whatever the link; in
    particular an unconfirmed factory reset neither takes the link nor writes anything.
   */
  lemma NoLinkNoAction(w: World, d: Device, a: Arrival, k: nat)
    requires !IsJson(a.line)
    ensures !NeedsConnection(a.line) ==> Served(w, d, a, k) == (d, [])
    ensures Ipc.ParseCommand(a.line).kind.FactoryReset? && !Confirms(a) ==> !NeedsConnection(a.line)
  {
    ConfirmedText(a.line);
    if !NeedsConnection(a.line) {
      RefusedBeforeDevice(w, Ipc.ParseCommand(a.line), d.running, a.found);
      assert AfterDemand(w, d, a) == d;
      assert Served(w, d, a, k).1 == [];
    }
  }

  lemma {:induction false} JsonStartsWord(line: string)
    requires IsJson(line)
    ensures Ipc.Words(line) != [] && Ipc.Words(line)[0] != ""
    ensures Ipc.Words(line)[0][0] == '{' || Ipc.Words(line)[0][0] == '['
  {
    if line[0] == ' ' || line[0] == '\r' || line[0] == '\t' {
      JsonStartsWord(line[1..]);
    } else {
      assert Ipc.WordLength(line) > 0;
    }
  }

  /** The confirmation the client appends once its user agrees is the one the daemon asks for. */
  lemma ConfirmedByClient(line: string, a: Arrival)
    requires Ipc.ParseCommand(line).kind.FactoryReset? && a.line == line + " " + Ipc.CONFIRM_ARG
    ensures Confirms(a) && NeedsConnection(a.line)
  {
    var words := Ipc.Words(line);
    FactoryResetVerb(ToLower(words[0]), if |words| > 1 then ToLower(words[1]) else "");
    Ipc.ConfirmationAppended(line);
    Ipc.ConfirmArgIsLower();
    Ipc.WordsAppend(line, Ipc.CONFIRM_ARG);
    assert Ipc.Words(a.line)[0] == words[0];
    ConfirmedText(a.line);
    assert |words[0]| == 12 && LowerChar(words[0][0]) == ToLower(words[0])[0] == 'f';
    if IsJson(a.line) {
      JsonStartsWord(a.line);
    }
  }

  // ---------------------------------------------------------------- values survive the layers

  /** The codes of the automatic power-off: never, four fixed times, and when taken off. */
  function PowerOffIndex(first: byte, second: byte): Option<int> {
    if first == 0x11 && second == 0x00 then Some(0)
    else if first == second <= 3 then Some(first + 1)
    else if first == 0x10 && second == 0x00 then Some(5)
    else None
  }

  function Signed(b: byte): int {
    b as int - 10
  }

  /** The custom equalizer values in the ten bytes of such a payload. */
  function CustomRead(p: Payload): Request
    requires |p| == 10
  {
    SetEqualizerCustom(Signed(p[4]), [Signed(p[5]), Signed(p[6]), Signed(p[7]), Signed(p[8]), Signed(p[9])])
  }

  predicate IsFlag(b: byte) {
    b <= 1
  }

  /** The ten bytes of a custom equalizer setting, five bands and clear bass around a middle of ten. */
  predicate IsCustom(p: Payload, inquired: byte) {
    |p| == 10 && p[..4] == [0x58, inquired, 0xa0, 0x06] && forall i :: 4 <= i < 10 ==> p[i] <= 20
  }

  /** What a first-generation headphone is told by a payload, read strictly; queries included. */
  function UnderstoodV1(p: Payload): Option<Request> {
    if |p| == 8 && p[..2] == [0x68, 0x02] && p[3] == 0x01 && p[5] == 0x01 && IsFlag(p[6]) then
      if p[2] == 0x00 && p[4] == 0x00 && p[7] == 0 then Some(SetNoiseControl(Off, 0, p[6] == 1))
      else if p[2] == 0x11 && p[4] == 0x02 && p[7] == 0 then Some(SetNoiseControl(Cancelling, 0, p[6] == 1))
      else if p[2] == 0x11 && p[4] == 0x00 && 1 <= p[7] <= 20 then Some(SetNoiseControl(Ambient, p[7], p[6] == 1))
      else None
    else if |p| == 4 && p[..2] == [0x58, 0x01] && p[3] == 0x00 then Some(SetEqualizerPreset(p[2]))
    else if IsCustom(p, 0x01) then Some(CustomRead(p))
    else if p in {[0x10, 0x00], [0x10, 0x01], [0x10, 0x02]} then Some(GetBattery)
    else if p == [0x66, 0x02] then Some(GetNoiseControl)
    else if p == [0x56, 0x01] then Some(GetEqualizer)
    else if p == [0x04, 0x02] then Some(GetFirmware)
    else if p == [0x18, 0x00] then Some(GetCodec)
    else None
  }

  /** What a second-generation headphone is told; its two 0xf8 switches are inverted. */
  function UnderstoodV2(p: Payload): Option<Request> {
    if |p| == 7 && p[..3] == [0x68, 0x17, 0x01] && IsFlag(p[5]) then
      if p[3] == 0 && p[4] == 0 && p[6] == 1 then Some(SetNoiseControl(Off, 0, p[5] == 1))
      else if p[3] == 1 && p[4] == 0 && p[6] == 1 then Some(SetNoiseControl(Cancelling, 0, p[5] == 1))
      else if p[3] == 1 && p[4] == 1 && 1 <= p[6] <= 20 then Some(SetNoiseControl(Ambient, p[6], p[5] == 1))
      else None
    else if |p| == 4 && p[..2] == [0x58, 0x00] && p[3] == 0x00 then Some(SetEqualizerPreset(p[2]))
    else if IsCustom(p, 0x00) then Some(CustomRead(p))
    else if |p| == 3 && p[..2] == [0xe8, 0x01] && IsFlag(p[2]) then Some(SetDsee(p[2] == 1))
    else if |p| == 4 && p[..2] == [0x28, 0x05] then
      (match PowerOffIndex(p[2], p[3]) case Some(i) => Some(SetAutoPowerOff(i)) case None => None)
    else if |p| == 4 && p[..2] == [0xf8, 0x0c] && IsFlag(p[2]) && p[3] == 0x01 then Some(SetSpeakToChat(p[2] == 0))
    else if |p| == 3 && p[..2] == [0xf8, 0x0a] && IsFlag(p[2]) then Some(SetAdaptiveVolume(p[2] == 0))
    else if p == [0xf8, 0x09, 0x00] then Some(Request.Reset)
    else if p == [0xf8, 0x09, 0x01] then Some(Request.FactoryReset)
    else UnderstoodQuery(p)
  }

  function UnderstoodQuery(p: Payload): Option<Request> {
    if p == [0x00, 0x00] then Some(InitDevice)
    else if p in {[0x22, 0x00], [0x22, 0x09], [0x22, 0x0a]} then Some(GetBattery)
    else if p == [0x66, 0x17] then Some(GetNoiseControl)
    else if p == [0x56, 0x00] then Some(GetEqualizer)
    else if p == [0xe6, 0x01] then Some(GetDsee)
    else if p == [0x04, 0x02] then Some(GetFirmware)
    else if p == [0x12, 0x02] then Some(GetCodec)
    else if p == [0x26, 0x05] then Some(GetAutoPowerOff)
    else if p == [0xf6, 0x0c] then Some(GetSpeakToChat)
    else if p == [0xf6, 0x0a] then Some(GetAdaptiveVolume)
    else None
  }

  function Understood(v: Version, p: Payload): Option<Request> {
    if v == V1 then UnderstoodV1(p) else UnderstoodV2(p)
  }

  /** A setter whose values a payload can carry. */
  predicate InRanges(request: Request) {
    match request
    case SetNoiseControl(mode, level, voice) => if mode == Ambient then 1 <= level <= 20 else level == 0
    case SetEqualizerPreset(preset) => 0 <= preset <= 255
    case SetEqualizerCustom(clearBass, bands) =>
      |bands| == 5 && -10 <= clearBass <= 10 && forall b <- bands :: -10 <= b <= 10
    case SetAutoPowerOff(index) => 0 <= index <= 5
    case SetDsee(_) => true
    case SetSpeakToChat(_) => true
    case SetAdaptiveVolume(_) => true
    case Reset => true
    case FactoryReset => true
    case _ => false
  }

  /** An action with every value in the range the headphones accept. */
  ghost predicate Reasonable(outcome: Outcome) {
    outcome.Acts? ==> outcome.op.Setter? && InRanges(outcome.op.request)
  }

  lemma CustomInRange(w: World, args: seq<string>)
    ensures forall b <- CustomBands(w, args) :: -10 <= b <= 10
  {
    forall i | 0 <= i < 5
      ensures -10 <= CustomBands(w, args)[i] <= 10
    {
      assert CustomBands(w, args)[i] == NumberArg(w, args, CustomStart(args) + 1 + i, -10, 10, 0);
    }
  }

  lemma TextInRange(w: World, cmd: Ipc.Command, connected: bool, found: Discovery)
    ensures Reasonable(TextOutcome(w, cmd, connected, found))
  {
    CustomInRange(w, cmd.args);
  }

  lemma JsonPartsInRange(w: World, r: JsonRequest, c: Capabilities)
    ensures Reasonable(JsonAmbient(r, c)) && Reasonable(JsonPreset(w, r, c)) && Reasonable(JsonCustom(r, c))
  {
  }

  lemma JsonFeatureInRange(r: JsonRequest, c: Capabilities)
    ensures Reasonable(JsonFeature(r, c))
  {
  }

  lemma JsonInRange(w: World, r: JsonRequest, connected: bool, c: Capabilities, found: Discovery)
    ensures Reasonable(JsonOutcome(w, r, connected, c, found))
  {
    JsonPartsInRange(w, r, c);
    JsonFeatureInRange(r, c);
  }

  lemma CustomUnderstood(inquired: byte, clearBass: int, bands: seq<int>)
    requires InRanges(SetEqualizerCustom(clearBass, bands))
    ensures var p := CustomPayload(inquired, clearBass, bands);
            IsCustom(p, inquired) && CustomRead(p) == SetEqualizerCustom(clearBass, bands)
  {
    var p := CustomPayload(inquired, clearBass, bands);
    assert forall i :: 0 <= i < 5 ==> bands[i] in bands && p[5 + i] == EqualizerByte(bands[i]);
    assert CustomRead(p).bands == bands;
  }

  /**
    Reading back what a setter sends gives the setter, in either generation that sends anything for it, and
    reading back a query gives the query; the handshake of the first generation is its noise control query.
   */
  lemma PayloadUnderstood(v: Version, request: Request, answered: bool, p: Payload)
    requires (InRanges(request) || IsQuery(request)) && p in Payloads(v, request, answered)
    ensures Understood(v, p) == Some(if v == V1 && request == InitDevice then GetNoiseControl else request)
  {
    if IsQuery(request) {
      if v == V1 {
        V1QueryUnderstood(request, answered, p);
      } else {
        V2QueryUnderstood(request, answered, p);
      }
    } else {
      SetterUnderstood(v, request, answered, p);
    }
  }

  lemma V1QueryUnderstood(request: Request, answered: bool, p: Payload)
    requires IsQuery(request) && p in V1Payloads(request, answered)
    ensures UnderstoodV1(p) == Some(if request == InitDevice then GetNoiseControl else request)
  {
    assert |p| == 2;
  }

  lemma V2QueryUnderstood(request: Request, answered: bool, p: Payload)
    requires IsQuery(request) && p in V2Payloads(request, answered)
    ensures UnderstoodV2(p) == Some(request)
  {
    assert |p| == 2 && UnderstoodV2(p) == UnderstoodQuery(p);
  }

  lemma SetterUnderstood(v: Version, request: Request, answered: bool, p: Payload)
    requires InRanges(request) && p in Payloads(v, request, answered)
    ensures Understood(v, p) == Some(request)
  {
    assert p == Payloads(v, request, answered)[0];
    match request
    case SetEqualizerCustom(clearBass, bands) => CustomUnderstood(p[1], clearBass, bands);
    case _ =>
  }

  /**
    Both front ends only let values through that a payload can carry, and whatever operation a request line
    amounts to, a headphone of either generation reads exactly that operation off the payload.
   */
  lemma {:induction false} ValuesSurvive(w: World, d: Device, a: Arrival, v: Version, answered: bool, p: Payload)
    requires OutcomeOf(w, d, a).Acts?
    ensures var op := OutcomeOf(w, d, a).op;
            op.Setter? && (p in Payloads(v, op.request, answered) ==> Understood(v, p) == Some(op.request))
  {
    TextInRange(w, Ipc.ParseCommand(a.line), d.running, a.found);
    JsonInRange(w, a.json, d.running, d.capabilities, a.found);
    var op := OutcomeOf(w, d, a).op;
    if p in Payloads(v, op.request, answered) {
      PayloadUnderstood(v, op.request, answered, p);
    }
  }

  /** The text front end clamps on its own: it hands on the level that was typed exactly if it is in range. */
  lemma AmbientAsTyped(w: World, args: seq<string>, raw: string, n: int, found: Discovery)
    requires args != [] && !SaysOff(args) && w.integerOf(args[0]) == Some(n)
    ensures TextOutcome(w, Ipc.Command(Ipc.Ambient, args, raw), true, found) == Acts(SetAmbient(n, false)) <==>
            1 <= n <= 20
  {
  }

  // ---------------------------------------------------------------- what the words of a line ask for

  /** The line consists of this verb, in any case, and these arguments. */
  predicate Says(line: string, verb: string, args: seq<string>) {
    var words := Ipc.Words(line);
    words != [] && ToLower(words[0]) == verb && words[1..] == args
  }

  predicate StartsWithLetter(verb: string) {
    verb != "" && 'a' <= verb[0] <= 'z'
  }

  lemma SaysCommand(line: string, verb: string, args: seq<string>)
    requires Says(line, verb, args) && StartsWithLetter(verb)
    ensures !IsJson(line)
    ensures Ipc.ParseCommand(line) ==
            Ipc.Command(Ipc.KindOf(verb, if args == [] then "" else ToLower(args[0])), args, line)
  {
    var words := Ipc.Words(line);
    assert args == [] <==> |words| == 1;
    assert |words[0]| == |verb| && LowerChar(words[0][0]) == verb[0];
    if IsJson(line) {
      JsonStartsWord(line);
    }
  }

  /** n is the number the i-th argument stands for, forced into the range, or the default without a number there. */
  ghost predicate NumberAt(w: World, args: seq<string>, i: nat, low: int, high: int, otherwise: int, n: int) {
    if i < |args| && w.integerOf(args[i]).Some? then
      var m := w.integerOf(args[i]).value;
      low <= n <= high && (low <= m <= high ==> n == m) && (m < low ==> n == low) && (m > high ==> n == high)
    else n == otherwise
  }

  /** The first argument is the word off. */
  predicate Off1(args: seq<string>) {
    |args| > 0 && ToLower(args[0]) == "off"
  }

  lemma AncLine(w: World, d: Device, a: Arrival, args: seq<string>)
    requires Says(a.line, "anc", args) && d.running
    ensures OutcomeOf(w, d, a) ==
            Acts(Setter(SetNoiseControl(if Off1(args) then NoiseMode.Off else Cancelling, 0, false)))
  {
    SaysCommand(a.line, "anc", args);
  }

  lemma AmbientLine(w: World, d: Device, a: Arrival, args: seq<string>) returns (level: int)
    requires Says(a.line, "ambient", args) && d.running
    ensures NumberAt(w, args, 0, 1, 20, 10, level)
    ensures OutcomeOf(w, d, a) == Acts(Setter(if Off1(args) then SetNoiseControl(NoiseMode.Off, 0, false)
                                              else SetNoiseControl(NoiseMode.Ambient, level, false)))
  {
    SaysCommand(a.line, "ambient", args);
    level := NumberArg(w, args, 0, 1, 20, 10);
  }

  lemma DseeLine(w: World, d: Device, a: Arrival, args: seq<string>)
    requires Says(a.line, "dsee", args) && d.running
    ensures OutcomeOf(w, d, a) == Acts(Setter(SetDsee(!Off1(args))))
  {
    SaysCommand(a.line, "dsee", args);
  }

  lemma SpeakToChatLine(w: World, d: Device, a: Arrival, args: seq<string>)
    requires Says(a.line, "speaktochat", args) && d.running
    ensures OutcomeOf(w, d, a) == Acts(Setter(SetSpeakToChat(!Off1(args))))
  {
    SaysCommand(a.line, "speaktochat", args);
  }

  lemma AdaptiveVolumeLine(w: World, d: Device, a: Arrival, args: seq<string>)
    requires Says(a.line, "adaptivevolume", args) && d.running
    ensures OutcomeOf(w, d, a) == Acts(Setter(SetAdaptiveVolume(!Off1(args))))
  {
    SaysCommand(a.line, "adaptivevolume", args);
  }

  lemma AutoPowerOffLine(w: World, d: Device, a: Arrival, verb: string, args: seq<string>) returns (index: int)
    requires (verb == "autopoweroff" || verb == "apo") && Says(a.line, verb, args) && d.running
    ensures NumberAt(w, args, 0, 0, 5, 0, index)
    ensures OutcomeOf(w, d, a) == Acts(Setter(SetAutoPowerOff(index)))
  {
    SaysCommand(a.line, verb, args);
    index := NumberArg(w, args, 0, 0, 5, 0);
  }

  lemma EqCustomLine(w: World, d: Device, a: Arrival, args: seq<string>) returns (clearBass: int, bands: seq<int>)
    requires Says(a.line, "eq", args) && args != [] && ToLower(args[0]) == "custom" && d.running
    ensures |bands| == 5 && NumberAt(w, args, 1, -10, 10, 0, clearBass)
    ensures forall i: nat :: i < 5 ==> NumberAt(w, args, 2 + i, -10, 10, 0, bands[i])
    ensures OutcomeOf(w, d, a) == Acts(Setter(SetEqualizerCustom(clearBass, bands)))
  {
    SaysCommand(a.line, "eq", args);
    clearBass, bands := NumberArg(w, args, 1, -10, 10, 0), CustomBands(w, args);
    forall i: nat | i < 5
      ensures NumberAt(w, args, 2 + i, -10, 10, 0, bands[i])
    {
      assert bands[i] == NumberArg(w, args, CustomStart(args) + 1 + i, -10, 10, 0);
    }
  }

  /** Without get, preset or custom the first argument is the preset; preset itself is only skipped in lower case. */
  lemma EqPresetLine(w: World, d: Device, a: Arrival, args: seq<string>, name: string)
    requires Says(a.line, "eq", args) && d.running
    requires args != [] ==> ToLower(args[0]) != "get" && ToLower(args[0]) != "custom"
    requires name == if args == [] then "off" else if args[0] == "preset" && |args| > 1 then args[1] else args[0]
    ensures OutcomeOf(w, d, a) ==
            if 0 <= w.presetOf(name) <= 255 then Acts(Setter(SetEqualizerPreset(w.presetOf(name)))) else UnknownPreset
  {
    SaysCommand(a.line, "eq", args);
  }

  lemma ResetLine(w: World, d: Device, a: Arrival, args: seq<string>)
    requires Says(a.line, "reset", args) && d.running
    ensures OutcomeOf(w, d, a) == Acts(Setter(Request.Reset))
  {
    SaysCommand(a.line, "reset", args);
  }

  /** The verbs that read, and those that never reach the device. */
  lemma ReadingLines(w: World, d: Device, a: Arrival, verb: string, args: seq<string>)
    requires Says(a.line, verb, args) && StartsWithLetter(verb)
    ensures verb == "info" || verb == "battery" || (verb == "eq" && args != [] && ToLower(args[0]) == "get") ==>
              OutcomeOf(w, d, a) == if d.running then Reported else NotConnected
    ensures verb == "devices" ==> OutcomeOf(w, d, a) == if a.found.Throws? then InternalError else Listed
    ensures verb == "status" ==> OutcomeOf(w, d, a) == StatusReported
    ensures verb == "raw" ==> OutcomeOf(w, d, a) == RawDisabled
    ensures verb !in VERBS ==> OutcomeOf(w, d, a) == if d.running then UnknownCommand else NotConnected
  {
    SaysCommand(a.line, verb, args);
  }

  const VERBS := {"devices", "info", "battery", "anc", "ambient", "eq", "dsee", "autopoweroff", "apo", "speaktochat",
                  "adaptivevolume", "status", "reset", "factoryreset", "raw"}

  /** Without a link every line that would act is refused, whatever it asks for. */
  lemma NothingWithoutLink(w: World, d: Device, a: Arrival)
    requires !d.running
    ensures !OutcomeOf(w, d, a).Acts?
  {
  }

  // ---------------------------------------------------------------- the two front ends

  /** The feature a profile must have for the JSON front end to pass an operation on. */
  predicate Featured(c: Capabilities, request: Request) {
    match request
    case SetNoiseControl(mode, _, voice) =>
      if mode == NoiseMode.Ambient then c.ambientSound && (voice ==> c.focusOnVoice) else c.noiseCancelling
    case SetEqualizerPreset(_) => c.equalizer
    case SetEqualizerCustom(_, _) => c.equalizer
    case SetDsee(_) => c.dsee
    case SetSpeakToChat(_) => c.speakToChat
    case SetAdaptiveVolume(_) => c.adaptiveVolume
    case SetAutoPowerOff(_) => c.autoPowerOff
    case Reset => c.reset
    case FactoryReset => c.factoryReset
    case _ => false
  }

  /** What a JSON request asks for, if its parameters are there and in range. */
  ghost predicate Requests(w: World, r: JsonRequest, request: Request) {
    match request
    case SetNoiseControl(mode, level, voice) =>
      if mode == NoiseMode.Ambient
      then r.action == "ambient" && r.level == Some(level) && 1 <= level <= 20 && r.voice == Some(voice)
      else r.action == "anc" && level == 0 && !voice && r.enabled == Some(mode == Cancelling)
    case SetEqualizerPreset(preset) =>
      r.action == "eqPreset" && r.preset == Some(preset) && 0 <= preset <= 255 && w.presetKnown(preset)
    case SetEqualizerCustom(clearBass, bands) =>
      && r.action == "eqCustom" && r.clearBass == Some(clearBass) && -10 <= clearBass <= 10
      && r.bands == Some(bands) && |bands| == 5 && forall b <- bands :: -10 <= b <= 10
    case SetDsee(enabled) => r.action == "dsee" && r.enabled == Some(enabled)
    case SetSpeakToChat(enabled) => r.action == "speakToChat" && r.enabled == Some(enabled)
    case SetAdaptiveVolume(enabled) => r.action == "adaptiveVolume" && r.enabled == Some(enabled)
    case SetAutoPowerOff(index) => r.action == "autoPowerOff" && r.index == Some(index) && 0 <= index <= 5
    case Reset => r.action == "reset"
    case FactoryReset => r.action == "factoryReset" && r.confirm == Some(true)
    case _ => false
  }

  /** The same without naming the action. */
  ghost predicate Carried(w: World, r: JsonRequest, c: Capabilities, request: Request, action: string) {
    Requests(w, r.(action := action), request) && Featured(c, request)
  }

  lemma PartsPass(w: World, r: JsonRequest, c: Capabilities, request: Request)
    ensures JsonAmbient(r, c) == Acts(Setter(request)) <==> Carried(w, r, c, request, "ambient")
    ensures JsonPreset(w, r, c) == Acts(Setter(request)) <==> Carried(w, r, c, request, "eqPreset")
    ensures JsonCustom(r, c) == Acts(Setter(request)) <==> Carried(w, r, c, request, "eqCustom")
  {
  }

  lemma FeaturePasses(w: World, r: JsonRequest, c: Capabilities, request: Request)
    requires r.action !in {"anc", "ambient", "eqPreset", "eqCustom"}
    ensures JsonFeature(r, c) == Acts(Setter(request)) <==> Requests(w, r, request) && Featured(c, request)
  {
  }

  lemma NamedPasses(w: World, r: JsonRequest, c: Capabilities, request: Request)
    requires r.action in {"anc", "ambient", "eqPreset", "eqCustom"}
    ensures JsonDeviceCommand(w, r, c) == Acts(Setter(request)) <==> Requests(w, r, request) && Featured(c, request)
  {
    PartsPass(w, r, c, request);
    assert r.(action := r.action) == r;
  }

  lemma DevicePasses(w: World, r: JsonRequest, c: Capabilities, request: Request)
    ensures JsonDeviceCommand(w, r, c) == Acts(Setter(request)) <==> Requests(w, r, request) && Featured(c, request)
  {
    if r.action in {"anc", "ambient", "eqPreset", "eqCustom"} {
      NamedPasses(w, r, c, request);
    } else {
      FeaturePasses(w, r, c, request);
    }
  }

  /** None of the five actions that do not go to the device is one of a setter. */
  lemma ServiceActions(w: World, r: JsonRequest, request: Request)
    requires r.action in {"snapshot", "devices", "connect", "disconnect"}
    ensures !Requests(w, r, request)
  {
  }

  /**
    The JSON front end passes on exactly the operations that are asked for with parameters in range, on a
    connected device that has the feature.
   */
  lemma {:induction false} JsonPassesExactly(w: World, d: Device, a: Arrival, request: Request)
    requires IsJson(a.line)
    ensures OutcomeOf(w, d, a) == Acts(Setter(request)) <==>
            a.json.wellFormed && d.running && Requests(w, a.json, request) && Featured(d.capabilities, request)
  {
    DevicePasses(w, a.json, d.capabilities, request);
    if a.json.action in {"snapshot", "devices", "connect", "disconnect"} {
      ServiceActions(w, a.json, request);
    }
  }

  /** A text line and a JSON request that name the same thing with the same values. */
  ghost predicate SameValues(w: World, verb: string, args: seq<string>, r: JsonRequest) {
    if verb == "anc" then r.action == "anc" && r.enabled == Some(!Off1(args))
    else if verb == "ambient" then
      if Off1(args) then r.action == "anc" && r.enabled == Some(false)
      else
        && |args| > 0 && r.action == "ambient" && r.level.Some? && w.integerOf(args[0]) == r.level
        && r.voice == Some(false)
    else if verb == "dsee" then r.action == "dsee" && r.enabled == Some(!Off1(args))
    else if verb == "speaktochat" then r.action == "speakToChat" && r.enabled == Some(!Off1(args))
    else if verb == "adaptivevolume" then r.action == "adaptiveVolume" && r.enabled == Some(!Off1(args))
    else if verb == "autopoweroff" || verb == "apo" then
      |args| > 0 && r.action == "autoPowerOff" && r.index.Some? && w.integerOf(args[0]) == r.index
    else if verb == "eq" && |args| > 1 && args[0] == "preset" then
      r.action == "eqPreset" && r.preset == Some(w.presetOf(args[1]))
    else if verb == "eq" && |args| > 6 && args[0] == "custom" then
      && r.action == "eqCustom" && r.clearBass.Some? && w.integerOf(args[1]) == r.clearBass
      && r.bands.Some? && |r.bands.value| == 5
      && forall i: nat :: i < 5 ==> w.integerOf(args[2 + i]) == Some(r.bands.value[i])
    else if verb == "reset" then r.action == "reset"
    else
      && verb == "factoryreset" && r.action == "factoryReset"
      && exists i :: 0 <= i < |args| && ToLower(args[i]) == Ipc.CONFIRM_ARG
  }

  lemma SameSwitch(w: World, d: Device, a: Arrival, verb: string, args: seq<string>, r: JsonRequest, request: Request)
    requires verb in {"anc", "dsee", "speaktochat", "adaptivevolume", "reset", "ambient"}
    requires Says(a.line, verb, args) && d.running && SameValues(w, verb, args, r) && Requests(w, r, request)
    ensures OutcomeOf(w, d, a) == Acts(Setter(request))
  {
    if verb == "anc" {
      AncLine(w, d, a, args);
    } else if verb == "dsee" {
      DseeLine(w, d, a, args);
    } else if verb == "speaktochat" {
      SpeakToChatLine(w, d, a, args);
    } else if verb == "adaptivevolume" {
      AdaptiveVolumeLine(w, d, a, args);
    } else if verb == "reset" {
      ResetLine(w, d, a, args);
    } else {
      var level := AmbientLine(w, d, a, args);
    }
  }

  lemma SameEq(w: World, d: Device, a: Arrival, args: seq<string>, r: JsonRequest, request: Request)
    requires Says(a.line, "eq", args) && d.running && SameValues(w, "eq", args, r) && Requests(w, r, request)
    ensures OutcomeOf(w, d, a) == Acts(Setter(request))
  {
    LowerWords();
    if args[0] == "preset" {
      EqPresetLine(w, d, a, args, args[1]);
    } else {
      var clearBass, bands := EqCustomLine(w, d, a, args);
      forall i: nat | i < 5
        ensures bands[i] == r.bands.value[i]
      {
        assert r.bands.value[i] in r.bands.value && NumberAt(w, args, 2 + i, -10, 10, 0, bands[i]);
      }
      assert bands == r.bands.value;
    }
  }

  lemma LowerWords()
    ensures ToLower("preset") == "preset" && ToLower("custom") == "custom"
  {
  }

  lemma SameFactoryReset(w: World, d: Device, a: Arrival, args: seq<string>)
    requires Says(a.line, "factoryreset", args) && d.running
    requires exists i :: 0 <= i < |args| && ToLower(args[i]) == Ipc.CONFIRM_ARG
    ensures OutcomeOf(w, d, a) == Acts(Setter(Request.FactoryReset))
  {
    SaysCommand(a.line, "factoryreset", args);
    var i :| 0 <= i < |args| && ToLower(args[i]) == Ipc.CONFIRM_ARG;
    assert Ipc.Words(a.line)[i + 1] == args[i];
    OutcomeWipes(w, d, a);
  }

  /** Every setter there is can be asked for in both ways, and the device then gets the same operation. */
  lemma {:induction false} FrontEndsAgree(w: World, d: Device, a: Arrival, verb: string, args: seq<string>, b: Arrival)
    requires Says(a.line, verb, args) && IsJson(b.line) && SameValues(w, verb, args, b.json)
    requires OutcomeOf(w, d, b).Acts?
    ensures OutcomeOf(w, d, a) == OutcomeOf(w, d, b)
  {
    OutcomesAreSetters(w, d, b);
    var request := OutcomeOf(w, d, b).op.request;
    JsonPassesExactly(w, d, b, request);
    if verb in {"anc", "dsee", "speaktochat", "adaptivevolume", "reset", "ambient"} {
      SameSwitch(w, d, a, verb, args, b.json, request);
    } else if verb == "eq" {
      SameEq(w, d, a, args, b.json, request);
    } else if verb == "factoryreset" {
      SameFactoryReset(w, d, a, args);
    } else {
      var index := AutoPowerOffLine(w, d, a, verb, args);
    }
  }

  // ---------------------------------------------------------------- taking and leaving the link

  predicate OpensAt(line: string, i: nat) {
    i < |line| && (line[i] == '{' || line[i] == '[') && forall j :: 0 <= j < i ==> line[j] in {' ', '\t', '\r'}
  }

  /** Exactly the lines whose first character beyond blanks, tabs and carriage returns opens a value. */
  lemma {:induction false} JsonLines(line: string)
    ensures IsJson(line) <==> exists i: nat :: OpensAt(line, i)
  {
    if line != "" && line[0] in {' ', '\t', '\r'} {
      JsonLines(line[1..]);
      if IsJson(line) {
        var i: nat :| OpensAt(line[1..], i);
        assert forall j :: 0 < j < i + 1 ==> line[j] == line[1..][j - 1];
        assert OpensAt(line, i + 1);
      } else if i: nat :| OpensAt(line, i) {
        assert forall j :: 0 <= j < i - 1 ==> line[1..][j] == line[j + 1];
        assert OpensAt(line[1..], i - 1);
      }
    } else if IsJson(line) {
      assert OpensAt(line, 0);
    }
  }

  lemma LookingVerbs(verb: string, sub: string)
    ensures Ipc.KindOf(verb, sub).Devices? <==> verb == "devices"
    ensures Ipc.KindOf(verb, sub).Status? <==> verb == "status"
    ensures Ipc.KindOf(verb, sub).Raw? <==> verb == "raw"
  {
  }

  /** The text lines that do not take the link: the two that only look, raw, and an unconfirmed factory reset. */
  lemma LinkTakenExactly(line: string)
    requires !IsJson(line) && Ipc.Words(line) != []
    ensures var words := Ipc.Words(line); var verb := ToLower(words[0]);
            NeedsConnection(line) <==>
            && verb !in {"devices", "status", "raw"}
            && (verb == "factoryreset" ==> exists i :: 1 <= i < |words| && ToLower(words[i]) == Ipc.CONFIRM_ARG)
  {
    var words := Ipc.Words(line);
    var verb, sub := ToLower(words[0]), if |words| > 1 then ToLower(words[1]) else "";
    LookingVerbs(verb, sub);
    FactoryResetVerb(verb, sub);
    ConfirmedText(line);
    assert Ipc.ParseCommand(line).kind == Ipc.KindOf(verb, sub);
  }

  /** The JSON requests for the link itself: a connect resolves the name anew, a disconnect releases the link. */
  lemma JsonLinks(w: World, d: Device, a: Arrival, event: nat)
    requires IsJson(a.line) && a.json.wellFormed
    ensures a.json.action == "connect"
            && a.json.address.Some? && IsAddress(a.json.address.value) && a.json.name.Some? ==>
              var t := Served(w, d, a, event).0;
              && t.requested == a.json.name.value
              && t.protocol == (if a.connect.transportUp then Some(w.registry(t.requested).protocol) else None)
              && (t.running <==> a.connect.transportUp && a.connect.sessionUp && !a.connect.lost)
    ensures a.json.action == "disconnect" ==> Served(w, d, a, event) == (d.(running := false), [])
  {
    assert !NeedsConnection(a.line);
    if a.json.action == "disconnect" {
      assert Served(w, d, a, event).1 == [];
    }
  }

  /** A JSON request that is malformed, or neither about the link nor passed on to the device, changes nothing. */
  lemma JsonInert(w: World, d: Device, a: Arrival, event: nat)
    requires IsJson(a.line)
    requires a.json.wellFormed ==>
               && a.json.action != "disconnect"
               && (a.json.action == "connect" ==>
                     a.json.address.None? || !IsAddress(a.json.address.value) || a.json.name.None?)
               && forall request :: !(d.running && Requests(w, a.json, request) && Featured(d.capabilities, request))
    ensures Served(w, d, a, event) == (d, [])
  {
    assert !NeedsConnection(a.line);
    var outcome := OutcomeOf(w, d, a);
    if outcome.Acts? {
      OutcomesAreSetters(w, d, a);
      JsonPassesExactly(w, d, a, outcome.op.request);
    }
    JsonLinkOutcomes(w, d, a);
    assert !outcome.Acts? ==> Served(w, d, a, event).1 == [];
  }

  lemma JsonLinkOutcomes(w: World, d: Device, a: Arrival)
    requires IsJson(a.line)
    ensures OutcomeOf(w, d, a).ConnectTo? ==>
              && a.json.wellFormed && a.json.action == "connect"
              && a.json.address.Some? && IsAddress(a.json.address.value) && a.json.name.Some?
    ensures OutcomeOf(w, d, a).DisconnectNow? ==> a.json.wellFormed && a.json.action == "disconnect"
  {
  }

  /**
    Connecting on demand: a text line changes whom the daemon is connected to exactly if there is no link, the
    line needs one and a device was found, and then it is the first one; if the search throws nothing happens.
   */
  lemma LinkOnDemand(w: World, d: Device, a: Arrival, event: nat)
    requires !IsJson(a.line)
    ensures var t := Served(w, d, a, event).0;
            if !d.running && NeedsConnection(a.line) && a.found.First? then
              && t.requested == a.found.name && t.version == w.registry(a.found.name).protocol
              && t.capabilities == w.registry(a.found.name).capabilities
              && (t.running <==> a.connect.transportUp && a.connect.sessionUp && !a.connect.lost)
            else t == d
    ensures !d.running && NeedsConnection(a.line) && a.found.Throws? ==> Served(w, d, a, event) == (d, [])
  {
    var t := AfterDemand(w, d, a);
    OutcomesAreSetters(w, t, a);
    TextKeepsLink(w, t, a);
    if DemandThrows(d, a) {
      assert Served(w, d, a, event).1 == [];
    }
  }

  lemma TextKeepsLink(w: World, d: Device, a: Arrival)
    requires !IsJson(a.line)
    ensures !OutcomeOf(w, d, a).ConnectTo? && !OutcomeOf(w, d, a).DisconnectNow?
  {
  }
}
