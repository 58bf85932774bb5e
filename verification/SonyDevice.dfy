/**
  What a device object writes: the payloads of both protocol generations, the per-model gates in front of
  them, and the connect sequence that decides which generation is spoken.
 */
module SonyDevice {
  import opened Base
  import Session

  datatype Version = V1 | V2

  datatype Capabilities = Capabilities(
    battery: bool,
    noiseCancelling: bool,
    ambientSound: bool,
    focusOnVoice: bool,
    equalizer: bool,
    dsee: bool,
    speakToChat: bool,
    adaptiveVolume: bool,
    autoPowerOff: bool,
    firmwareInfo: bool,
    codecInfo: bool,
    reset: bool,
    factoryReset: bool)

  datatype Profile = Profile(protocol: Version, capabilities: Capabilities)

  type Payload = seq<byte>

  /** Switches a V1 device off; asks a V2 device for its battery level. */
  const POWER_OFF: byte := 0x22

  /** Wipes the pairing. */
  const WIPE: Payload := [0xf8, 0x09, 0x01]

  datatype NoiseMode = Off | Cancelling | Ambient

  /** The operations of the protocol interface. */
  datatype Request =
    | InitDevice
    | GetBattery
    | GetNoiseControl
    | SetNoiseControl(mode: NoiseMode, level: int, voice: bool)
    | GetEqualizer
    | SetEqualizerPreset(preset: int)
    | SetEqualizerCustom(clearBass: int, bands: seq<int>)
    | GetDsee
    | SetDsee(enabled: bool)
    | GetFirmware
    | GetCodec
    | GetAutoPowerOff
    | SetAutoPowerOff(index: int)
    | GetSpeakToChat
    | SetSpeakToChat(enabled: bool)
    | GetAdaptiveVolume
    | SetAdaptiveVolume(enabled: bool)
    | Reset
    | FactoryReset

  function Byte(x: int): byte {
    x % 256
  }

  function Flag(b: bool): byte {
    if b then 1 else 0
  }

  function Clamp(x: int, low: int, high: int): int {
    if x < low then low else if x > high then high else x
  }

  function EqualizerByte(x: int): byte {
    Clamp(x, -10, 10) + 10
  }

  function CustomPayload(inquired: byte, clearBass: int, bands: seq<int>): Payload {
    [0x58, inquired, 0xa0, 0x06, EqualizerByte(clearBass)]
      + seq(|bands|, i requires 0 <= i < |bands| => EqualizerByte(bands[i]))
  }

  method BuildCustomPayload(inquired: byte, clearBass: int, bands: seq<int>) returns (payload: Payload)
    ensures payload == CustomPayload(inquired, clearBass, bands)
  {
    payload := [0x58, inquired, 0xa0, 0x06, EqualizerByte(clearBass)];
    for i := 0 to |bands|
      invariant |payload| == 5 + i
      invariant forall k :: 0 <= k < 5 + i ==> payload[k] == CustomPayload(inquired, clearBass, bands)[k]
    {
      payload := payload + [EqualizerByte(bands[i])];
    }
  }

  /**
    The payloads a V1 request tries to write, in order; none if it is unsupported. A single battery reading
    that is answered ends the battery request.
   */
  function V1Payloads(r: Request, answered: bool): seq<Payload> {
    match r
    case InitDevice => [[0x66, 0x02]]
    case GetBattery => if answered then [[0x10, 0x00]] else [[0x10, 0x00], [0x10, 0x01], [0x10, 0x02]]
    case GetNoiseControl => [[0x66, 0x02]]
    case SetNoiseControl(mode, level, voice) =>
      [[0x68, 0x02, if mode == Off then 0x00 else 0x11, 0x01, if mode == Cancelling then 0x02 else 0x00, 0x01,
        Flag(voice), if mode == Ambient then Clamp(level, 1, 20) else 0]]
    case GetEqualizer => [[0x56, 0x01]]
    case SetEqualizerPreset(preset) => [[0x58, 0x01, Byte(preset), 0x00]]
    case SetEqualizerCustom(clearBass, bands) => [CustomPayload(0x01, clearBass, bands)]
    case GetFirmware => [[0x04, 0x02]]
    case GetCodec => [[0x18, 0x00]]
    case _ => []
  }

  function AutoPowerOffCode(index: int): (byte, byte)
    requires 0 <= index < 6
  {
    [(0x11, 0x00), (0x00, 0x00), (0x01, 0x01), (0x02, 0x02), (0x03, 0x03), (0x10, 0x00)][index]
  }

  function V2Payloads(r: Request, answered: bool): seq<Payload> {
    match r
    case InitDevice => [[0x00, 0x00]]
    case GetBattery => if answered then [[0x22, 0x00]] else [[0x22, 0x00], [0x22, 0x09], [0x22, 0x0a]]
    case GetNoiseControl => [[0x66, 0x17]]
    case SetNoiseControl(mode, level, voice) =>
      [[0x68, 0x17, 0x01, Flag(mode != Off), Flag(mode == Ambient), Flag(voice), Byte(if level > 0 then level else 1)]]
    case GetEqualizer => [[0x56, 0x00]]
    case SetEqualizerPreset(preset) => [[0x58, 0x00, Byte(preset), 0x00]]
    case SetEqualizerCustom(clearBass, bands) => [CustomPayload(0x00, clearBass, bands)]
    case GetDsee => [[0xe6, 0x01]]
    case SetDsee(enabled) => [[0xe8, 0x01, Flag(enabled)]]
    case GetFirmware => [[0x04, 0x02]]
    case GetCodec => [[0x12, 0x02]]
    case GetAutoPowerOff => [[0x26, 0x05]]
    case SetAutoPowerOff(index) =>
      if 0 <= index < 6 then [[0x28, 0x05, AutoPowerOffCode(index).0, AutoPowerOffCode(index).1]] else []
    case GetSpeakToChat => [[0xf6, 0x0c]]
    case SetSpeakToChat(enabled) => [[0xf8, 0x0c, Flag(!enabled), 0x01]]
    case GetAdaptiveVolume => [[0xf6, 0x0a]]
    case SetAdaptiveVolume(enabled) => [[0xf8, 0x0a, Flag(!enabled)]]
    case Reset => [[0xf8, 0x09, 0x00]]
    case FactoryReset => [[0xf8, 0x09, 0x01]]
  }

  function Payloads(v: Version, r: Request, answered: bool): seq<Payload> {
    if v == V1 then V1Payloads(r, answered) else V2Payloads(r, answered)
  }

  /** Opcode 0x22 is only ever V2's battery request, and the wiping bytes only ever V2's factory reset. */
  lemma DangerousPayloads(v: Version, r: Request, answered: bool, p: Payload)
    requires p in Payloads(v, r, answered)
    ensures p != []
    ensures p[0] == POWER_OFF <==> v == V2 && r == GetBattery
    ensures p == WIPE <==> v == V2 && r == FactoryReset
  {
    assert |WIPE| == 3 && WIPE[0] == 0xf8 && WIPE[1] == 0x09 && WIPE[2] == 0x01;
    assert p == Payloads(v, r, answered)[0] || r == GetBattery;
  }

  /** The opcode and subtype each query waits for, payload by payload; setters wait for none. */
  function V1Replies(r: Request, answered: bool): seq<(byte, int)> {
    match r
    case InitDevice => [(0x67, 0x02)]
    case GetBattery => if answered then [(0x11, 0x00)] else [(0x11, 0x00), (0x11, 0x01), (0x11, 0x02)]
    case GetNoiseControl => [(0x67, 0x02)]
    case GetEqualizer => [(0x57, 0x01)]
    case GetFirmware => [(0x05, -1)]
    case GetCodec => [(0x19, -1)]
    case _ => []
  }

  function V2Replies(r: Request, answered: bool): seq<(byte, int)> {
    match r
    case InitDevice => [(0x01, -1)]
    case GetBattery => if answered then [(0x23, 0x00)] else [(0x23, 0x00), (0x23, 0x09), (0x23, 0x0a)]
    case GetNoiseControl => [(0x67, -1)]
    case GetEqualizer => [(0x57, -1)]
    case GetDsee => [(0xe7, 0x01)]
    case GetFirmware => [(0x05, -1)]
    case GetCodec => [(0x13, -1)]
    case GetAutoPowerOff => [(0x27, -1)]
    case GetSpeakToChat => [(0xf7, 0x0c)]
    case GetAdaptiveVolume => [(0xf7, 0x0a)]
    case _ => []
  }

  function Replies(v: Version, r: Request, answered: bool): seq<(byte, int)> {
    if v == V1 then V1Replies(r, answered) else V2Replies(r, answered)
  }

  predicate IsQuery(r: Request) {
    r in {InitDevice, GetBattery, GetNoiseControl, GetEqualizer, GetDsee, GetFirmware, GetCodec, GetAutoPowerOff,
          GetSpeakToChat, GetAdaptiveVolume}
  }

  /** Every payload of a query waits for the reply to itself: the next opcode, with its own second byte. */
  lemma QueriesAwaitTheirReply(v: Version, r: Request, answered: bool, i: nat, reply: Payload)
    requires IsQuery(r) && i < |Payloads(v, r, answered)|
    requires var p := Payloads(v, r, answered)[i]; |reply| >= 2 && reply[0] == p[0] + 1 && reply[1] == p[1]
    ensures |Replies(v, r, answered)| == |Payloads(v, r, answered)|
    ensures Session.Matches(reply, Replies(v, r, answered)[i].0, Replies(v, r, answered)[i].1)
  {
  }

  lemma V1RepliesDoNotCross(r: Request, answered: bool, i: nat, r': Request, answered': bool, j: nat, reply: Payload)
    requires IsQuery(r) && i < |V1Payloads(r, answered)| && j < |V1Replies(r', answered')|
    requires var p := V1Payloads(r, answered)[i]; |reply| >= 2 && reply[0] == p[0] + 1 && reply[1] == p[1]
    requires Session.Matches(reply, V1Replies(r', answered')[j].0, V1Replies(r', answered')[j].1)
    ensures j < |V1Payloads(r', answered')| && V1Payloads(r', answered')[j] == V1Payloads(r, answered)[i]
  {
    assert |V1Payloads(r, answered)[i]| == 2;
  }

  lemma V2RepliesDoNotCross(r: Request, answered: bool, i: nat, r': Request, answered': bool, j: nat, reply: Payload)
    requires IsQuery(r) && i < |V2Payloads(r, answered)| && j < |V2Replies(r', answered')|
    requires var p := V2Payloads(r, answered)[i]; |reply| >= 2 && reply[0] == p[0] + 1 && reply[1] == p[1]
    requires Session.Matches(reply, V2Replies(r', answered')[j].0, V2Replies(r', answered')[j].1)
    ensures j < |V2Payloads(r', answered')| && V2Payloads(r', answered')[j] == V2Payloads(r, answered)[i]
  {
    assert |V2Payloads(r, answered)[i]| == 2;
  }

  /** And that reply satisfies no query of the generation that sends anything else. */
  lemma RepliesDoNotCross(v: Version, r: Request, answered: bool, i: nat, r': Request, answered': bool, j: nat,
                          reply: Payload)
    requires IsQuery(r) && i < |Payloads(v, r, answered)| && j < |Replies(v, r', answered')|
    requires var p := Payloads(v, r, answered)[i]; |reply| >= 2 && reply[0] == p[0] + 1 && reply[1] == p[1]
    requires Session.Matches(reply, Replies(v, r', answered')[j].0, Replies(v, r', answered')[j].1)
    ensures j < |Payloads(v, r', answered')| && Payloads(v, r', answered')[j] == Payloads(v, r, answered)[i]
  {
    if v == V1 {
      V1RepliesDoNotCross(r, answered, i, r', answered', j, reply);
    } else {
      V2RepliesDoNotCross(r, answered, i, r', answered', j, reply);
    }
  }

  // ---------------------------------------------------------------- the device object

  /** What happens to one request: whether its first query is answered, and which payloads reach the wire. */
  datatype Io = Io(answered: bool, reached: seq<bool>)

  function Reached(payloads: seq<Payload>, io: Io): seq<Payload> {
    if payloads == [] then []
    else
      var rest := Reached(payloads[1..], Io(io.answered, if io.reached == [] then [] else io.reached[1..]));
      if io.reached != [] && io.reached[0] then [payloads[0]] + rest else rest
  }

  lemma {:induction false} ReachedOnly(payloads: seq<Payload>, io: Io)
    ensures forall p <- Reached(payloads, io) :: p in payloads
    ensures |Reached(payloads, io)| <= |payloads|
    decreases |payloads|
  {
    if payloads != [] {
      ReachedOnly(payloads[1..], Io(io.answered, if io.reached == [] then [] else io.reached[1..]));
    }
  }

  /**
    protocol is the generation of the current protocol object. requested is history: the name given to the
    most recent connect.
   */
  datatype Device = Device(
    protocol: Option<Version>,
    running: bool,
    version: Version,
    capabilities: Capabilities,
    refreshStep: nat,
    requested: string)

  datatype DeviceOp =
    | RefreshBattery
    | RefreshNoiseControl
    | RefreshEqualizer
    | RefreshDsee
    | RefreshStep
    | Setter(request: Request)

  /** The request an operation makes of the protocol, after the gates of the device object. */
  function Gated(d: Device, op: DeviceOp): Option<Request> {
    var c := d.capabilities;
    if d.protocol.None? then None
    else match op
      case RefreshBattery => if c.battery then Some(GetBattery) else None
      case RefreshNoiseControl => if c.noiseCancelling || c.ambientSound then Some(GetNoiseControl) else None
      case RefreshEqualizer => if c.equalizer then Some(GetEqualizer) else None
      case RefreshDsee => if c.dsee then Some(GetDsee) else None
      case RefreshStep => if d.running then StepRequest(c, d.refreshStep % 9) else None
      case Setter(SetEqualizerPreset(preset)) => if 0 <= preset <= 255 then Some(SetEqualizerPreset(preset)) else None
      case Setter(SetSpeakToChat(enabled)) => if c.speakToChat then Some(SetSpeakToChat(enabled)) else None
      case Setter(SetAdaptiveVolume(enabled)) => if c.adaptiveVolume then Some(SetAdaptiveVolume(enabled)) else None
      case Setter(Reset) => if c.reset then Some(Reset) else None
      case Setter(FactoryReset) => if c.factoryReset then Some(FactoryReset) else None
      case Setter(request) => Some(request)
  }

  /** The nine maintenance steps; optional features are only probed where the profile has them. */
  function StepRequest(c: Capabilities, step: nat): Option<Request> {
    if step == 0 then (if c.noiseCancelling || c.ambientSound then Some(GetNoiseControl) else None)
    else if step == 1 then (if c.equalizer then Some(GetEqualizer) else None)
    else if step == 2 then (if c.dsee then Some(GetDsee) else None)
    else if step == 3 && c.codecInfo then Some(GetCodec)
    else if step == 4 && c.firmwareInfo then Some(GetFirmware)
    else if step == 5 && c.speakToChat then Some(GetSpeakToChat)
    else if step == 6 && c.adaptiveVolume then Some(GetAdaptiveVolume)
    else if step == 7 && c.autoPowerOff then Some(GetAutoPowerOff)
    else None
  }

  /** The payloads an operation puts on the wire. */
  function Written(d: Device, op: DeviceOp, io: Io): seq<Payload> {
    match Gated(d, op)
    case None => []
    case Some(request) => Reached(Payloads(d.protocol.value, request, io.answered), io)
  }

  /** What a profile must say before the device object lets a setter through. */
  predicate LetsThrough(c: Capabilities, request: Request) {
    match request
    case SetEqualizerPreset(preset) => 0 <= preset <= 255
    case SetSpeakToChat(_) => c.speakToChat
    case SetAdaptiveVolume(_) => c.adaptiveVolume
    case Reset => c.reset
    case FactoryReset => c.factoryReset
    case _ => true
  }

  /** With a protocol object and a write that goes through, a setter is sent exactly if the profile allows it. */
  lemma SettersGated(d: Device, request: Request, io: Io)
    requires |io.reached| >= 3 && forall i :: 0 <= i < |io.reached| ==> io.reached[i]
    ensures Written(d, Setter(request), io) ==
            if d.protocol.Some? && LetsThrough(d.capabilities, request)
            then Payloads(d.protocol.value, request, io.answered) else []
  {
    if d.protocol.Some? && LetsThrough(d.capabilities, request) {
      AllReached(Payloads(d.protocol.value, request, io.answered), io);
    }
  }

  /** Every write of the request goes through. */
  predicate GoesThrough(io: Io) {
    |io.reached| >= 3 && forall i :: 0 <= i < |io.reached| ==> io.reached[i]
  }

  function Asked(d: Device, wanted: bool, request: Request, io: Io): seq<Payload>
    requires d.protocol.Some?
  {
    if wanted then Payloads(d.protocol.value, request, io.answered) else []
  }

  /** What goes over the wire when a session comes up: the handshake, then battery, noise control, equalizer, DSEE. */
  lemma ConnectScript(d: Device, io: ConnectIo)
    requires d.protocol.Some? && io.sessionUp && |io.refreshes| >= 4 && GoesThrough(io.init)
    requires forall i :: 0 <= i < |io.refreshes| ==> GoesThrough(io.refreshes[i])
    ensures var c := d.capabilities;
            ConnectWrites(d, io) ==
            Payloads(d.protocol.value, InitDevice, io.init.answered)
            + (Asked(d, c.battery, GetBattery, io.refreshes[0])
               + Asked(d, c.noiseCancelling || c.ambientSound, GetNoiseControl, io.refreshes[1])
               + Asked(d, c.equalizer, GetEqualizer, io.refreshes[2])
               + Asked(d, c.dsee, GetDsee, io.refreshes[3]))
  {
    AllReached(Payloads(d.protocol.value, InitDevice, io.init.answered), io.init);
    OpScript(d, RefreshBattery, GetBattery, d.capabilities.battery, io.refreshes[0]);
    OpScript(d, RefreshNoiseControl, GetNoiseControl, d.capabilities.noiseCancelling || d.capabilities.ambientSound,
             io.refreshes[1]);
    OpScript(d, RefreshEqualizer, GetEqualizer, d.capabilities.equalizer, io.refreshes[2]);
    OpScript(d, RefreshDsee, GetDsee, d.capabilities.dsee, io.refreshes[3]);
  }

  lemma OpScript(d: Device, op: DeviceOp, request: Request, wanted: bool, io: Io)
    requires d.protocol.Some? && GoesThrough(io) && Gated(d, op) == if wanted then Some(request) else None
    ensures Written(d, op, io) == Asked(d, wanted, request, io)
  {
    if wanted {
      assert |Payloads(d.protocol.value, request, io.answered)| <= 3;
      AllReached(Payloads(d.protocol.value, request, io.answered), io);
    }
  }

  lemma {:induction false} AllReached(payloads: seq<Payload>, io: Io)
    requires |io.reached| >= |payloads| && forall i :: 0 <= i < |io.reached| ==> io.reached[i]
    ensures Reached(payloads, io) == payloads
    decreases |payloads|
  {
    if payloads != [] {
      AllReached(payloads[1..], Io(io.answered, io.reached[1..]));
      assert payloads == [payloads[0]] + payloads[1..];
    }
  }

  /** A refresh asks its question exactly if there is a protocol object and the profile has the feature. */
  lemma RefreshesGated(d: Device, request: Request)
    ensures Gated(d, RefreshBattery) == Some(request) <==>
            d.protocol.Some? && d.capabilities.battery && request == GetBattery
    ensures Gated(d, RefreshNoiseControl) == Some(request) <==>
            d.protocol.Some? && Advertised(d.capabilities, request) && request == GetNoiseControl
    ensures Gated(d, RefreshEqualizer) == Some(request) <==>
            d.protocol.Some? && Advertised(d.capabilities, request) && request == GetEqualizer
    ensures Gated(d, RefreshDsee) == Some(request) <==>
            d.protocol.Some? && Advertised(d.capabilities, request) && request == GetDsee
    ensures Gated(d, RefreshStep) == Some(request) <==>
            && d.protocol.Some? && d.running
            && Advertised(d.capabilities, request) && d.refreshStep % 9 == TurnOf(request)
  {
    StepsCoverFeatures(d.capabilities, request, d.refreshStep % 9);
  }

  /** The features a profile advertises, by the request that reads them. */
  predicate Advertised(c: Capabilities, request: Request) {
    match request
    case GetNoiseControl => c.noiseCancelling || c.ambientSound
    case GetEqualizer => c.equalizer
    case GetDsee => c.dsee
    case GetCodec => c.codecInfo
    case GetFirmware => c.firmwareInfo
    case GetSpeakToChat => c.speakToChat
    case GetAdaptiveVolume => c.adaptiveVolume
    case GetAutoPowerOff => c.autoPowerOff
    case _ => false
  }

  /** Whose turn a maintenance step is; nobody's from the ninth on. */
  function TurnOf(request: Request): nat {
    match request
    case GetNoiseControl => 0
    case GetEqualizer => 1
    case GetDsee => 2
    case GetCodec => 3
    case GetFirmware => 4
    case GetSpeakToChat => 5
    case GetAdaptiveVolume => 6
    case GetAutoPowerOff => 7
    case _ => 8
  }

  /** Nine consecutive maintenance steps ask for every advertised feature once, and for nothing else. */
  lemma StepsCoverFeatures(c: Capabilities, request: Request, step: nat)
    ensures StepRequest(c, step) == Some(request) <==> Advertised(c, request) && step == TurnOf(request)
  {
  }

  function AfterOp(d: Device, op: DeviceOp): Device {
    if op.RefreshStep? && d.protocol.Some? && d.running
    then d.(refreshStep := (d.refreshStep + 1) % 0x1_0000_0000) else d
  }

  /** The device after some maintenance steps. */
  function AfterSteps(d: Device, count: nat): Device {
    if count == 0 then d else AfterOp(AfterSteps(d, count - 1), RefreshStep)
  }

  lemma {:induction false} StepsCount(d: Device, count: nat)
    requires d.protocol.Some? && d.running && d.refreshStep + count < 0x1_0000_0000
    ensures AfterSteps(d, count) == d.(refreshStep := d.refreshStep + count)
  {
    if count > 0 {
      StepsCount(d, count - 1);
    }
  }

  /**
    Over any nine consecutive maintenance steps on a live link, every advertised feature is asked for exactly
    once, at the k-th; only the overflow of the 32-bit step counter can disturb that.
   */
  lemma {:induction false} NineSteps(d: Device, request: Request) returns (k: nat)
    requires d.protocol.Some? && d.running && d.refreshStep + 9 < 0x1_0000_0000
    ensures k < 9
    ensures forall j: nat :: j < 9 ==>
              (Gated(AfterSteps(d, j), RefreshStep) == Some(request) <==> Advertised(d.capabilities, request) && j == k)
  {
    k := OncePerNine(d.refreshStep, TurnOf(request));
    forall j: nat | j < 9
      ensures Gated(AfterSteps(d, j), RefreshStep) == Some(request) <==> Advertised(d.capabilities, request) && j == k
    {
      StepsCount(d, j);
      StepsCoverFeatures(d.capabilities, request, (d.refreshStep + j) % 9);
      assert AtTurn(d.refreshStep, j, TurnOf(request)) <==> j == k;
    }
  }

  predicate AtTurn(start: nat, k: nat, turn: nat) {
    (start + k) % 9 == turn
  }

  lemma OncePerNine(start: nat, turn: nat) returns (k: nat)
    requires turn < 9
    ensures k < 9 && forall j: nat :: j < 9 ==> (AtTurn(start, j, turn) <==> j == k)
  {
    k := if turn >= start % 9 then turn - start % 9 else turn + 9 - start % 9;
  }

  /**
    What a connect meets: whether the transport and the session come up, the fate of its five requests, and
    whether the link is lost before the last of them is done.
   */
  datatype ConnectIo = ConnectIo(transportUp: bool, sessionUp: bool, init: Io, refreshes: seq<Io>, lost: bool)

  function IoAt(ios: seq<Io>, i: nat): Io {
    if i < |ios| then ios[i] else Io(false, [])
  }

  function RefreshWrites(d: Device, ios: seq<Io>): seq<Payload> {
    Written(d, RefreshBattery, IoAt(ios, 0)) + Written(d, RefreshNoiseControl, IoAt(ios, 1))
      + Written(d, RefreshEqualizer, IoAt(ios, 2)) + Written(d, RefreshDsee, IoAt(ios, 3))
  }

  /** The device after a connect: the old session is gone and the generation follows from the name alone. */
  function Connected(d: Device, name: string, profile: Profile, io: ConnectIo): Device {
    Device(if io.transportUp then Some(profile.protocol) else None, io.transportUp && io.sessionUp && !io.lost,
           profile.protocol, profile.capabilities, 0, name)
  }

  function ConnectWrites(d: Device, io: ConnectIo): seq<Payload> {
    if d.protocol.None? || !io.sessionUp then []
    else Reached(Payloads(d.protocol.value, InitDevice, io.init.answered), io.init)
           + RefreshWrites(d, io.refreshes)
  }

  lemma WrittenIgnoresLink(d: Device, up: bool, op: DeviceOp, io: Io)
    requires !op.RefreshStep?
    ensures Written(d.(running := up), op, io) == Written(d, op, io)
  {
    assert Gated(d.(running := up), op) == Gated(d, op);
  }

  lemma RefreshIgnoresLink(d: Device, up: bool, ios: seq<Io>)
    ensures RefreshWrites(d.(running := up), ios) == RefreshWrites(d, ios)
  {
    WrittenIgnoresLink(d, up, RefreshBattery, IoAt(ios, 0));
    WrittenIgnoresLink(d, up, RefreshNoiseControl, IoAt(ios, 1));
    WrittenIgnoresLink(d, up, RefreshEqualizer, IoAt(ios, 2));
    WrittenIgnoresLink(d, up, RefreshDsee, IoAt(ios, 3));
  }

  lemma Joined(w: seq<Payload>, a: seq<Payload>, b: seq<Payload>, c: seq<Payload>, d: seq<Payload>)
    ensures w + a + b + c + d == w + (a + b + c + d)
  {
  }

  class DeviceObject {
    var protocol: Option<Version>
    var running: bool
    var version: Version
    var capabilities: Capabilities
    var refreshStep: nat
    var wire: seq<Payload>
    ghost var requested: string

    ghost function View(): Device reads this {
      Device(protocol, running, version, capabilities, refreshStep, requested)
    }

    constructor (capabilities: Capabilities)
      ensures View() == Device(None, false, V1, capabilities, 0, "") && wire == []
    {
      protocol, running, version, refreshStep, wire := None, false, V1, 0, [];
      this.capabilities := capabilities;
      requested := "";
    }

    method Disconnect()
      modifies this`running
      ensures View() == old(View()).(running := false)
    {
      running := false;
    }

    method Run(op: DeviceOp, io: Io)
      modifies this`refreshStep, this`wire
      ensures View() == AfterOp(old(View()), op)
      ensures wire == old(wire) + Written(old(View()), op, io)
    {
      var d := Device(protocol, running, version, capabilities, refreshStep, "");
      var request := Gated(d, op);
      if op.RefreshStep? && protocol.Some? && running {
        refreshStep := (refreshStep + 1) % 0x1_0000_0000;
      }
      if request.Some? {
        wire := wire + Reached(Payloads(protocol.value, request.value, io.answered), io);
      }
    }

    method RefreshAll(ios: seq<Io>)
      modifies this`refreshStep, this`wire
      ensures View() == old(View()) && wire == old(wire) + RefreshWrites(View(), ios)
    {
      ghost var d, start := View(), wire;
      Run(RefreshBattery, IoAt(ios, 0));
      assert View() == d;
      Run(RefreshNoiseControl, IoAt(ios, 1));
      assert View() == d;
      Run(RefreshEqualizer, IoAt(ios, 2));
      assert View() == d;
      Run(RefreshDsee, IoAt(ios, 3));
      Joined(start, Written(d, RefreshBattery, IoAt(ios, 0)), Written(d, RefreshNoiseControl, IoAt(ios, 1)),
             Written(d, RefreshEqualizer, IoAt(ios, 2)), Written(d, RefreshDsee, IoAt(ios, 3)));
    }

    /** The handshake and the first refreshes of a session that is up. */
    method Introduce(io: ConnectIo)
      requires protocol.Some? && io.sessionUp
      modifies this`running, this`refreshStep, this`wire
      ensures View() == old(View()).(running := !io.lost)
      ensures wire == old(wire) + ConnectWrites(View(), io)
    {
      ghost var d, start := View(), wire;
      var init := Reached(Payloads(protocol.value, InitDevice, io.init.answered), io.init);
      wire := wire + init;
      RefreshAll(io.refreshes);
      RefreshIgnoresLink(d, !io.lost, io.refreshes);
      assert wire == start + (init + RefreshWrites(d, io.refreshes));
      running := !io.lost;
    }

    /**
      Connects. The profile, and with it the generation, is resolved from the name on every call, and the
      previous protocol object is gone before the transport is even opened. A link lost during the requests
      is not reported here; only the session knows of it.
     */
    method Connect(name: string, profile: Profile, io: ConnectIo) returns (thrown: bool)
      modifies this
      ensures View() == Connected(old(View()), name, profile, io)
      ensures thrown <==> !(io.transportUp && io.sessionUp)
      ensures wire == old(wire) + ConnectWrites(View(), io)
    {
      if running {
        Disconnect();
      }
      requested := name;
      version := profile.protocol;
      capabilities := profile.capabilities;
      protocol := None;
      refreshStep := 0;
      running := false;
      if !io.transportUp {
        return true;
      }
      protocol := Some(version);
      if !io.sessionUp {
        return true;
      }
      running := true;
      Introduce(io);
      return false;
    }
  }
}
