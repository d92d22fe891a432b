/**
 * The chair command link: the controller that holds the six clamped axes,
 * opens and closes the UDP session, sends one packet per send interval and
 * reports what it does to its logger.
 *
 * The UDP socket layer is the `Network` object the controller is given: it
 * decides whether creating a client fails and, through a finite script,
 * which sends throw.  The logger is the event list `events`.
 */
module ChairLink {
  import opened Wrappers
  import opened Motion
  import opened Packets
  import opened Numbers

  /** One datagram as handed to the socket: payload and destination. */
  datatype Datagram = Datagram(payload: seq<byte>, host: string, port: int)

  datatype Preset = Forward | Backward | LeftTurn | RightTurn

  /** What the controller reports through `LogMessage`, `LogError` and `LogSentPacket`. */
  datatype Event =
    | Connected(host: string, port: int)
    | ConnectFailed
    | Disconnected
    | PacketSent(datagram: Datagram)
    | SendFailed
    | PresetExecuted(preset: Preset)
    | MotionReset
    | ProtocolChanged(useAltProtocol: bool)

  /** `s` without its first `k` elements (all of them when there are fewer). */
  function Drop(s: seq<bool>, k: nat): (r: seq<bool>)
    ensures |r| == if k <= |s| then |s| - k else 0
    ensures forall i :: 0 <= i < |r| ==> r[i] == s[k + i]
  {
    if k <= |s| then s[k..] else []
  }

  /** The length of the run of failing sends at the head of a send script. */
  function LeadingFailures(outcomes: seq<bool>): (n: nat)
    ensures n <= |outcomes|
    ensures forall i :: 0 <= i < n ==> outcomes[i]
    ensures n < |outcomes| ==> !outcomes[n]
  {
    if outcomes == [] || !outcomes[0] then 0 else 1 + LeadingFailures(outcomes[1..])
  }

  /**
   * What a disconnect reports when `failures` sends fail before one gets
   * through: the reset, then either the final packet or a send error and a
   * nested disconnect, then "disconnected" once per level.
   */
  function DisconnectEvents(failures: nat, last: Datagram): seq<Event>
  {
    [MotionReset]
    + (if failures == 0 then [PacketSent(last)] else [SendFailed] + DisconnectEvents(failures - 1, last))
    + [Disconnected]
  }

  /**
   * The disconnect report event by event: a reset and a send error per
   * failed attempt, the reset and the packet of the attempt that got
   * through, then one "disconnected" per level of re-entry.
   */
  function DisconnectEventAt(failures: nat, last: Datagram, i: nat): Event
  {
    if i < 2 * failures then (if i % 2 == 0 then MotionReset else SendFailed)
    else if i == 2 * failures then MotionReset
    else if i == 2 * failures + 1 then PacketSent(last)
    else Disconnected
  }

  /** The recursive report and the event-by-event description agree. */
  lemma {:induction false} DisconnectEventsLayout(failures: nat, last: Datagram)
    ensures |DisconnectEvents(failures, last)| == 3 * failures + 3
    ensures forall i :: 0 <= i < 3 * failures + 3 ==> DisconnectEvents(failures, last)[i] == DisconnectEventAt(failures, last, i)
  {
    if failures > 0 {
      var inner := DisconnectEvents(failures - 1, last);
      DisconnectEventsLayout(failures - 1, last);
      var e := DisconnectEvents(failures, last);
      assert e == [MotionReset, SendFailed] + inner + [Disconnected];
      forall i | 2 <= i < 3 * failures + 2
        ensures e[i] == DisconnectEventAt(failures, last, i)
      {
        assert e[i] == inner[i - 2];
        assert (i - 2) % 2 == i % 2;
      }
    }
  }

  /**
   * Whatever the number of failed attempts, a disconnect delivers exactly
   * one packet, the neutral one it was asked for, and its report ends with
   * "disconnected".
   */
  lemma DisconnectDeliversOnce(failures: nat, last: Datagram)
    ensures |DisconnectEvents(failures, last)| == 3 * failures + 3
    ensures forall i :: 0 <= i < |DisconnectEvents(failures, last)| ==>
      (DisconnectEvents(failures, last)[i].PacketSent? <==> i == 2 * failures + 1)
    ensures DisconnectEvents(failures, last)[2 * failures + 1] == PacketSent(last)
    ensures DisconnectEvents(failures, last)[|DisconnectEvents(failures, last)| - 1] == Disconnected
  {
    DisconnectEventsLayout(failures, last);
  }

  /**
   * One level of re-entry: when the first send of a disconnect fails, the
   * nested disconnect sees one failure fewer, and its report wrapped in the
   * outer level's events is the report of the whole disconnect.
   */
  lemma NestedDisconnect(outcomes: seq<bool>, events0: seq<Event>, last: Datagram)
    requires LeadingFailures(outcomes) > 0
    ensures LeadingFailures(outcomes[1..]) == LeadingFailures(outcomes) - 1
    ensures Drop(outcomes[1..], LeadingFailures(outcomes)) == Drop(outcomes, LeadingFailures(outcomes) + 1)
    ensures events0 + [MotionReset] + [SendFailed] + DisconnectEvents(LeadingFailures(outcomes) - 1, last) + [Disconnected]
         == events0 + DisconnectEvents(LeadingFailures(outcomes), last)
  {
    var g := LeadingFailures(outcomes);
    var inner := DisconnectEvents(g - 1, last);
    assert DisconnectEvents(g, last) == [MotionReset] + ([SendFailed] + inner) + [Disconnected];
  }

  /** What the outside world sees of the link: session state, pose, log, wire and send script. */
  datatype Link = Link(connected: bool, pose: Pose, events: seq<Event>, sent: seq<Datagram>, outcomes: seq<bool>)

  /**
   * The link after a disconnect from `l` whose packet is `neutral`: each
   * failure at the head of the send script costs one level of re-entry, the
   * first send that gets through carries the neutral pose, and the session
   * ends closed.
   */
  function AfterDisconnect(l: Link, neutral: Datagram): Link
  {
    var g := LeadingFailures(l.outcomes);
    Link(false, Neutral, l.events + DisconnectEvents(g, neutral), l.sent + [neutral], Drop(l.outcomes, g + 1))
  }

  /**
   * The link after one send of `packet` from `l`: either the packet goes
   * out, or the send fails, is reported, and forces a disconnect.
   */
  function AfterCommand(l: Link, packet: Datagram, neutral: Datagram): Link
  {
    if LeadingFailures(l.outcomes) == 0 then
      l.(events := l.events + [PacketSent(packet)], sent := l.sent + [packet], outcomes := Drop(l.outcomes, 1))
    else
      AfterDisconnect(l.(events := l.events + [SendFailed], outcomes := l.outcomes[1..]), neutral)
  }

  /**
   * The disconnect branch taken step by step (reset the pose, send it, then
   * report "disconnected" and end closed) has exactly the outcome
   * `AfterDisconnect` states in closed form.
   */
  lemma DisconnectSteps(l: Link, neutral: Datagram)
    ensures var r := AfterCommand(l.(pose := Neutral, events := l.events + [MotionReset]), neutral, neutral);
      AfterDisconnect(l, neutral) == r.(connected := false, events := r.events + [Disconnected])
  {
    if LeadingFailures(l.outcomes) > 0 {
      NestedDisconnect(l.outcomes, l.events, neutral);
    }
  }

  /**
   * Every command puts exactly one datagram on the wire, whatever the send
   * script holds: the commanded packet when the first send succeeds,
   * otherwise the neutral packet of the forced disconnect.  It consumes the
   * whole run of failures plus the send that succeeds, leaves the session
   * open only when the first send succeeds, and never moves the pose
   * anywhere but to neutral.
   */
  lemma CommandDeliversOnce(l: Link, packet: Datagram, neutral: Datagram, limit: real)
    ensures var r := AfterCommand(l, packet, neutral);
      && |r.sent| == |l.sent| + 1 && r.sent[..|l.sent|] == l.sent
      && r.sent[|l.sent|] == (if LeadingFailures(l.outcomes) == 0 then packet else neutral)
      && r.outcomes == Drop(l.outcomes, LeadingFailures(l.outcomes) + 1)
      && (r.connected <==> l.connected && LeadingFailures(l.outcomes) == 0)
      && (0.0 <= limit && WithinLimits(l.pose, limit) ==> WithinLimits(r.pose, limit))
  {
    var r := AfterCommand(l, packet, neutral);
    if LeadingFailures(l.outcomes) > 0 {
      NestedDisconnect(l.outcomes, l.events, neutral);
      assert r.sent == l.sent + [neutral];
    } else {
      assert r.sent == l.sent + [packet];
    }
  }

  /**
   * On a network that never fails, a command sends its packet and keeps the
   * session, and a disconnect sends one neutral packet and closes it.
   */
  lemma ReliableLink(l: Link, packet: Datagram, neutral: Datagram)
    requires l.outcomes == []
    ensures AfterCommand(l, packet, neutral) == l.(events := l.events + [PacketSent(packet)], sent := l.sent + [packet])
    ensures AfterDisconnect(l, neutral)
         == Link(false, Neutral, l.events + [MotionReset, PacketSent(neutral), Disconnected], l.sent + [neutral], [])
  {
  }

  /**
   * One failing send: the failure is reported once, and the forced
   * disconnect still resets the pose and puts the neutral packet on the
   * wire before the session ends.
   */
  lemma SingleSendFailure(l: Link, packet: Datagram, neutral: Datagram)
    requires l.outcomes == [true]
    ensures AfterCommand(l, packet, neutral)
         == Link(false, Neutral, l.events + [SendFailed, MotionReset, PacketSent(neutral), Disconnected], l.sent + [neutral], [])
  {
    assert LeadingFailures(l.outcomes[1..]) == 0;
  }

  /**
   * The host's datagram socket layer.  `allocationFails` says whether
   * creating a client throws; `outcomes` scripts the next sends (true: the
   * send throws) and sends beyond the script succeed; `sent` records every
   * datagram that left the host.
   */
  class Network {
    var allocationFails: bool
    var outcomes: seq<bool>
    var sent: seq<Datagram>

    constructor(allocationFails: bool, outcomes: seq<bool>)
      ensures this.allocationFails == allocationFails && this.outcomes == outcomes && sent == []
    {
      this.allocationFails := allocationFails;
      this.outcomes := outcomes;
      sent := [];
    }

    /** `new UdpClient()`: null when the socket cannot be created. */
    method OpenClient() returns (c: UdpClient?)
      ensures allocationFails ==> c == null
      ensures !allocationFails ==> c != null && fresh(c) && c.net == this && !c.closed
    {
      if allocationFails {
        c := null;
      } else {
        c := new UdpClient(this);
      }
    }
  }

  /** A UDP client bound to no address: every send names its destination. */
  class UdpClient {
    const net: Network
    var closed: bool

    constructor(net: Network)
      ensures this.net == net && !closed
    {
      this.net := net;
      closed := false;
    }

    /**
     * `Send(data, bytes, host, port)`: consumes one scripted outcome; when
     * it does not throw, the datagram is recorded as sent.
     */
    method Send(data: array<byte>, bytes: int, host: string, port: int) returns (ok: bool)
      requires !closed && 0 <= bytes <= data.Length
      modifies net
      ensures ok <==> (old(net.outcomes) == [] || !old(net.outcomes)[0])
      ensures net.outcomes == Drop(old(net.outcomes), 1)
      ensures net.sent == if ok then old(net.sent) + [Datagram(data[..bytes], host, port)] else old(net.sent)
      ensures net.allocationFails == old(net.allocationFails)
    {
      ok := net.outcomes == [] || !net.outcomes[0];
      if ok {
        net.sent := net.sent + [Datagram(data[..bytes], host, port)];
      }
      net.outcomes := Drop(net.outcomes, 1);
    }

    method Close()
      modifies this
      ensures closed
    {
      closed := true;
    }
  }

  class ChairController {
    const net: Network
    /** `BitConverter.GetBytes(float)`. */
    const floatBytes: real -> Bytes4

    /** The UI input fields wired in the inspector: their text, or None when not assigned. */
    const ipInput: Option<string>
    const portInput: Option<string>

    var udpClient: UdpClient?
    var chairIP: string
    var chairPort: int
    var isConnected: bool

    var useAltProtocol: bool
    var sendInterval: real
    var sendTimer: real

    var pitch: real
    var roll: real
    var yaw: real
    var sway: real
    var surge: real
    var heave: real

    const maxPitch: real := AxisLimit
    const maxRoll: real := AxisLimit
    const maxYaw: real := AxisLimit
    const maxSway: real := AxisLimit
    const maxSurge: real := AxisLimit
    const maxHeave: real := AxisLimit

    /** Everything reported to the logger, oldest first. */
    var events: seq<Event>

    function Axes(): Pose
      reads this
    {
      Pose(pitch, roll, yaw, sway, surge, heave)
    }

    /** The safety invariant: every axis within its limit. */
    ghost predicate WithinSafetyLimits()
      reads this
    {
      WithinLimits(Axes(), AxisLimit)
    }

    /** The session invariant: a client exists, open and on the network, exactly while connected. */
    ghost predicate Valid()
      reads this, udpClient
    {
      && WithinSafetyLimits()
      && (isConnected <==> udpClient != null)
      && (udpClient != null ==> !udpClient.closed && udpClient.net == net)
    }

    /** The datagram a send would carry for pose `p` with the current protocol and destination. */
    function DatagramFor(p: Pose): Datagram
      reads this
    {
      Datagram(PacketFor(p, useAltProtocol, floatBytes), chairIP, chairPort)
    }

    /** The controller and its network as the outside world sees them. */
    function Observed(): Link
      reads this, net
    {
      Link(isConnected, Axes(), events, net.sent, net.outcomes)
    }

    /** A controller in its initial state: disconnected, neutral pose, default destination and rate. */
    constructor(net: Network, floatBytes: real -> Bytes4, ipInput: Option<string>, portInput: Option<string>)
      ensures Valid()
      ensures this.net == net && this.floatBytes == floatBytes
      ensures this.ipInput == ipInput && this.portInput == portInput
      ensures !isConnected && udpClient == null && Axes() == Neutral
      ensures chairIP == "192.168.0.15" && chairPort == 20000
      ensures !useAltProtocol && sendInterval == 0.05 && sendTimer == 0.0
      ensures events == []
    {
      this.net := net;
      this.floatBytes := floatBytes;
      this.ipInput := ipInput;
      this.portInput := portInput;
      udpClient := null;
      chairIP := "192.168.0.15";
      chairPort := 20000;
      isConnected := false;
      useAltProtocol := false;
      sendInterval := 0.05;
      sendTimer := 0.0;
      pitch, roll, yaw, sway, surge, heave := 0.0, 0.0, 0.0, 0.0, 0.0, 0.0;
      events := [];
    }

    /** `LogMessage`, `LogError` and `LogSentPacket`: one event to the logger. */
    method Report(e: Event)
      modifies this`events
      ensures events == old(events) + [e]
    {
      events := events + [e];
    }

    function GetPitch(): (r: real)
      reads this
      requires WithinSafetyLimits()
      ensures -maxPitch <= r <= maxPitch
    {
      pitch
    }

    function GetRoll(): (r: real)
      reads this
      requires WithinSafetyLimits()
      ensures -maxRoll <= r <= maxRoll
    {
      roll
    }

    function GetYaw(): (r: real)
      reads this
      requires WithinSafetyLimits()
      ensures -maxYaw <= r <= maxYaw
    {
      yaw
    }

    function GetSway(): (r: real)
      reads this
      requires WithinSafetyLimits()
      ensures -maxSway <= r <= maxSway
    {
      sway
    }

    function GetSurge(): (r: real)
      reads this
      requires WithinSafetyLimits()
      ensures -maxSurge <= r <= maxSurge
    {
      surge
    }

    function GetHeave(): (r: real)
      reads this
      requires WithinSafetyLimits()
      ensures -maxHeave <= r <= maxHeave
    {
      heave
    }

    method SetPitch(value: real)
      requires WithinSafetyLimits()
      modifies this`pitch
      ensures WithinSafetyLimits()
      ensures pitch == Clamp(value, -maxPitch, maxPitch)
    {
      pitch := Clamp(value, -maxPitch, maxPitch);
    }

    method SetRoll(value: real)
      requires WithinSafetyLimits()
      modifies this`roll
      ensures WithinSafetyLimits()
      ensures roll == Clamp(value, -maxRoll, maxRoll)
    {
      roll := Clamp(value, -maxRoll, maxRoll);
    }

    method SetYaw(value: real)
      requires WithinSafetyLimits()
      modifies this`yaw
      ensures WithinSafetyLimits()
      ensures yaw == Clamp(value, -maxYaw, maxYaw)
    {
      yaw := Clamp(value, -maxYaw, maxYaw);
    }

    method SetSway(value: real)
      requires WithinSafetyLimits()
      modifies this`sway
      ensures WithinSafetyLimits()
      ensures sway == Clamp(value, -maxSway, maxSway)
    {
      sway := Clamp(value, -maxSway, maxSway);
    }

    method SetSurge(value: real)
      requires WithinSafetyLimits()
      modifies this`surge
      ensures WithinSafetyLimits()
      ensures surge == Clamp(value, -maxSurge, maxSurge)
    {
      surge := Clamp(value, -maxSurge, maxSurge);
    }

    method SetHeave(value: real)
      requires WithinSafetyLimits()
      modifies this`heave
      ensures WithinSafetyLimits()
      ensures heave == Clamp(value, -maxHeave, maxHeave)
    {
      heave := Clamp(value, -maxHeave, maxHeave);
    }

    method SetPitchFromSlider(value: real)
      requires WithinSafetyLimits()
      modifies this`pitch
      ensures WithinSafetyLimits()
      ensures pitch == Clamp(SliderValue(value, maxPitch), -maxPitch, maxPitch)
    {
      SetPitch((value * 2.0 - 1.0) * maxPitch);
    }

    method SetRollFromSlider(value: real)
      requires WithinSafetyLimits()
      modifies this`roll
      ensures WithinSafetyLimits()
      ensures roll == Clamp(SliderValue(value, maxRoll), -maxRoll, maxRoll)
    {
      SetRoll((value * 2.0 - 1.0) * maxRoll);
    }

    method SetYawFromSlider(value: real)
      requires WithinSafetyLimits()
      modifies this`yaw
      ensures WithinSafetyLimits()
      ensures yaw == Clamp(SliderValue(value, maxYaw), -maxYaw, maxYaw)
    {
      SetYaw((value * 2.0 - 1.0) * maxYaw);
    }

    method SetSwayFromSlider(value: real)
      requires WithinSafetyLimits()
      modifies this`sway
      ensures WithinSafetyLimits()
      ensures sway == Clamp(SliderValue(value, maxSway), -maxSway, maxSway)
    {
      SetSway((value * 2.0 - 1.0) * maxSway);
    }

    method SetSurgeFromSlider(value: real)
      requires WithinSafetyLimits()
      modifies this`surge
      ensures WithinSafetyLimits()
      ensures surge == Clamp(SliderValue(value, maxSurge), -maxSurge, maxSurge)
    {
      SetSurge((value * 2.0 - 1.0) * maxSurge);
    }

    method SetHeaveFromSlider(value: real)
      requires WithinSafetyLimits()
      modifies this`heave
      ensures WithinSafetyLimits()
      ensures heave == Clamp(SliderValue(value, maxHeave), -maxHeave, maxHeave)
    {
      SetHeave((value * 2.0 - 1.0) * maxHeave);
    }

    method PresetForward()
      requires WithinSafetyLimits()
      modifies this`pitch, this`roll, this`surge, this`events
      ensures WithinSafetyLimits()
      ensures Axes() == old(Axes()).(pitch := -5.0, roll := 0.0, surge := 10.0)
      ensures events == old(events) + [PresetExecuted(Forward)]
    {
      SetPitch(-5.0);
      SetRoll(0.0);
      SetSurge(10.0);
      Report(PresetExecuted(Forward));
    }

    method PresetBackward()
      requires WithinSafetyLimits()
      modifies this`pitch, this`roll, this`surge, this`events
      ensures WithinSafetyLimits()
      ensures Axes() == old(Axes()).(pitch := 5.0, roll := 0.0, surge := -10.0)
      ensures events == old(events) + [PresetExecuted(Backward)]
    {
      SetPitch(5.0);
      SetRoll(0.0);
      SetSurge(-10.0);
      Report(PresetExecuted(Backward));
    }

    method PresetLeftTurn()
      requires WithinSafetyLimits()
      modifies this`yaw, this`roll, this`events
      ensures WithinSafetyLimits()
      ensures Axes() == old(Axes()).(yaw := 5.0, roll := 5.0)
      ensures events == old(events) + [PresetExecuted(LeftTurn)]
    {
      SetYaw(5.0);
      SetRoll(5.0);
      Report(PresetExecuted(LeftTurn));
    }

    method PresetRightTurn()
      requires WithinSafetyLimits()
      modifies this`yaw, this`roll, this`events
      ensures WithinSafetyLimits()
      ensures Axes() == old(Axes()).(yaw := -5.0, roll := -5.0)
      ensures events == old(events) + [PresetExecuted(RightTurn)]
    {
      SetYaw(-5.0);
      SetRoll(-5.0);
      Report(PresetExecuted(RightTurn));
    }

    method ResetAllMotion()
      requires WithinSafetyLimits()
      modifies this`pitch, this`roll, this`yaw, this`sway, this`surge, this`heave, this`events
      ensures Axes() == Neutral
      ensures events == old(events) + [MotionReset]
    {
      SetPitch(0.0);
      SetRoll(0.0);
      SetYaw(0.0);
      SetSway(0.0);
      SetSurge(0.0);
      SetHeave(0.0);
      Report(MotionReset);
    }

    method ToggleProtocolType()
      modifies this`useAltProtocol, this`events
      ensures useAltProtocol == !old(useAltProtocol)
      ensures events == old(events) + [ProtocolChanged(useAltProtocol)]
    {
      useAltProtocol := !useAltProtocol;
      Report(ProtocolChanged(useAltProtocol));
    }

    /**
     * Builds the packet for the current pose in the selected protocol and
     * sends it to the chair.  A send that throws is reported and re-enters
     * `ToggleConnection` while still connected, which disconnects.
     */
    method SendChairCommand()
      requires Valid() && isConnected
      modifies this`pitch, this`roll, this`yaw, this`sway, this`surge, this`heave
      modifies this`isConnected, this`udpClient, this`events, this`chairIP, this`chairPort, net, udpClient
      decreases |net.outcomes|, 0
      ensures Valid()
      ensures chairIP == old(chairIP) && chairPort == old(chairPort)
      ensures net.allocationFails == old(net.allocationFails)
      ensures Observed() == AfterCommand(old(Observed()), DatagramFor(old(Axes())), DatagramFor(Neutral))
      ensures isConnected ==> udpClient == old(udpClient)
      ensures !isConnected ==> udpClient == null && old(udpClient).closed
    {
      var data: array<byte>;
      if useAltProtocol {
        data := CreateEB9002Packet(Axes(), floatBytes);
      } else {
        data := CreateEB9001Packet(Axes(), floatBytes);
      }
      assert data[..data.Length] == data[..];
      var ok := udpClient.Send(data, data.Length, chairIP, chairPort);
      if ok {
        Report(PacketSent(Datagram(data[..], chairIP, chairPort)));
      } else {
        Report(SendFailed);
        ghost var l := Observed();
        assert l == old(Observed()).(events := old(events) + [SendFailed], outcomes := old(net.outcomes)[1..]);
        ToggleConnection();
      }
    }

    /** Connects when disconnected, disconnects when connected. */
    method ToggleConnection()
      requires Valid()
      modifies this`pitch, this`roll, this`yaw, this`sway, this`surge, this`heave
      modifies this`isConnected, this`udpClient, this`events, this`chairIP, this`chairPort, net, udpClient
      decreases |net.outcomes|, 2
      ensures Valid()
      ensures net.allocationFails == old(net.allocationFails)
      ensures old(isConnected) ==>
        && chairIP == old(chairIP) && chairPort == old(chairPort)
        && Observed() == AfterDisconnect(old(Observed()), DatagramFor(Neutral))
        && old(udpClient).closed
      ensures !old(isConnected) ==>
        && chairIP == (if ipInput.Some? then ipInput.value else old(chairIP))
        && chairPort == (if portInput.Some? then TryParseInt(portInput.value).GetOr(0) else old(chairPort))
      ensures !old(isConnected) && old(net.allocationFails) ==>
        Observed() == old(Observed()).(events := old(events) + [ConnectFailed])
      ensures !old(isConnected) && !old(net.allocationFails) ==>
        && Observed() == AfterCommand(old(Observed()).(connected := true, events := old(events) + [Connected(chairIP, chairPort)]),
                                      DatagramFor(old(Axes())), DatagramFor(Neutral))
        && (isConnected ==> fresh(udpClient))
    {
      if !isConnected {
        Connect();
      } else {
        Disconnect();
      }
    }

    /**
     * The connect branch of `ToggleConnection`: take the destination from
     * the input fields (a port that does not parse becomes 0), create the
     * client, mark the session connected and send the current pose at once.
     * A client that cannot be created is reported and nothing else changes.
     */
    method Connect()
      requires Valid() && !isConnected
      modifies this`pitch, this`roll, this`yaw, this`sway, this`surge, this`heave
      modifies this`isConnected, this`udpClient, this`events, this`chairIP, this`chairPort, net
      decreases |net.outcomes|, 1
      ensures Valid()
      ensures net.allocationFails == old(net.allocationFails)
      ensures chairIP == (if ipInput.Some? then ipInput.value else old(chairIP))
      ensures chairPort == (if portInput.Some? then TryParseInt(portInput.value).GetOr(0) else old(chairPort))
      ensures old(net.allocationFails) ==> Observed() == old(Observed()).(events := old(events) + [ConnectFailed])
      ensures !old(net.allocationFails) ==>
        && Observed() == AfterCommand(old(Observed()).(connected := true, events := old(events) + [Connected(chairIP, chairPort)]),
                                      DatagramFor(old(Axes())), DatagramFor(Neutral))
        && (isConnected ==> fresh(udpClient))
    {
      if ipInput.Some? {
        chairIP := ipInput.value;
      }
      if portInput.Some? {
        chairPort := TryParseInt(portInput.value).GetOr(0);
      }
      ghost var ip, port := chairIP, chairPort;
      var c := net.OpenClient();
      if c == null {
        Report(ConnectFailed);
      } else {
        udpClient := c;
        isConnected := true;
        Report(Connected(chairIP, chairPort));
        assert Observed() == old(Observed()).(connected := true, events := old(events) + [Connected(chairIP, chairPort)]);
        SendChairCommand();
      }
      assert chairIP == ip && chairPort == port;
    }

    /**
     * The disconnect branch of `ToggleConnection`: reset the pose, send it,
     * close the client and mark the session disconnected.  A failing send
     * re-enters and disconnects one level deeper first.
     */
    method Disconnect()
      requires Valid() && isConnected
      modifies this`pitch, this`roll, this`yaw, this`sway, this`surge, this`heave
      modifies this`isConnected, this`udpClient, this`events, this`chairIP, this`chairPort, net, udpClient
      decreases |net.outcomes|, 1
      ensures Valid()
      ensures net.allocationFails == old(net.allocationFails)
      ensures chairIP == old(chairIP) && chairPort == old(chairPort)
      ensures Observed() == AfterDisconnect(old(Observed()), DatagramFor(Neutral))
      ensures old(udpClient).closed
    {
      if udpClient != null {
        ResetAllMotion();
        SendChairCommand();
        if udpClient != null {
          udpClient.Close();
          udpClient := null;
        }
        // Otherwise a nested disconnect already closed the client and
        // `udpClient.Close()` throws a NullReferenceException, which the
        // catch around it only writes to the console.
      }
      isConnected := false;
      Report(Disconnected);
      DisconnectSteps(old(Observed()), DatagramFor(Neutral));
    }

    /**
     * The send timer of `Update`: while connected, accumulate the frame
     * time and, once the interval is reached, send one packet and restart
     * the timer from zero.
     */
    method Update(deltaTime: real)
      requires Valid()
      modifies this`pitch, this`roll, this`yaw, this`sway, this`surge, this`heave
      modifies this`isConnected, this`udpClient, this`events, this`sendTimer, this`chairIP, this`chairPort, net, udpClient
      ensures Valid()
      ensures chairIP == old(chairIP) && chairPort == old(chairPort)
      ensures !old(isConnected) ==> unchanged(this, net)
      ensures old(isConnected) && old(sendTimer) + deltaTime < old(sendInterval) ==>
        && sendTimer == old(sendTimer) + deltaTime
        && udpClient == old(udpClient) && Observed() == old(Observed())
      ensures old(isConnected) && old(sendTimer) + deltaTime >= old(sendInterval) ==>
        && sendTimer == 0.0
        && Observed() == AfterCommand(old(Observed()), DatagramFor(old(Axes())), DatagramFor(Neutral))
    {
      if isConnected {
        sendTimer := sendTimer + deltaTime;
        if sendTimer >= sendInterval {
          SendChairCommand();
          sendTimer := 0.0;
        }
      }
    }
  }
}
