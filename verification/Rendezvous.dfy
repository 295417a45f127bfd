/** The rendezvous handshake (section 4.3.2 of draft-sharabayko-srt): two peers that call
    each other decide by their cookies who initiates. */
module RendezvousMode {
  import opened SeqNumbers
  import opened Packets
  import opened StreamKeys
  import opened Hsv5

  datatype RendezvousState =
    | Waving
    | AttentionInitiator(hsv5: VsInfo, initiator: StartedInitiator)
    | AttentionResponder
    | InitiatedResponder(connection: ConnectionSettings)
    | InitiatedInitiator(initiator: StartedInitiator)
    | FineResponder(connection: ConnectionSettings)
    | FineInitiator(hsv5: VsInfo, initiator: StartedInitiator)
    | Established(connection: ConnectionSettings, agreement: Option<Handshake>)

  datatype Packet = Shake(hs: Handshake) | Data | KeepAlive | OtherControl

  /** `ticked` says that the peer has sent something. */
  datatype Peer = Peer(
    settings: InitSettings,
    cookie: int,
    state: RendezvousState,
    lastPacket: Handshake,
    ticked: bool,
    startingSeqNum: SeqNumber)

  datatype Role = Initiator | Responder | Contest

  datatype ConnectionResult =
    | Nothing
    | SendPacket(packet: Handshake)
    | Connected(toSend: Option<Handshake>)
    | Rejected(toSend: Option<Handshake>)
    | Stopped

  // Cookies are compared by the sign of their wrapping 32-bit difference.
  function RoleOf(cookie: int, other: int): Role {
    var d := (cookie - other) % U32_RANGE;
    if d == 0 then Contest else if d < 0x8000_0000 then Initiator else Responder
  }

  /** Two peers take different roles unless their cookies are equal or exactly half the
      number space apart. */
  lemma {:induction false} RolesDiffer(a: int, b: int)
    ensures (RoleOf(a, b) == Initiator && RoleOf(b, a) == Responder)
            || (RoleOf(a, b) == Responder && RoleOf(b, a) == Initiator)
            <==> (a - b) % U32_RANGE != 0 && (a - b) % U32_RANGE != 0x8000_0000
  {
  }

  /** Cookies half the range apart: each peer waits for the other to initiate. */
  lemma {:induction false} CookiesHalfApart()
    ensures RoleOf(0, 0x8000_0000) == Responder && RoleOf(0x8000_0000, 0) == Responder
  {
  }

  function PacketOf(p: Peer, shake: ShakeType, info: VsInfo): Handshake {
    Handshake(p.startingSeqNum, p.settings.maxPacketSize, p.settings.maxFlowSize, shake, p.settings.localSockId,
      p.cookie, info)
  }

  function NewPeer(settings: InitSettings, cookie: int, seqNum: SeqNumber): Peer {
    var wave := Handshake(seqNum, settings.maxPacketSize, settings.maxFlowSize, Waveahand, settings.localSockId,
        cookie, EMPTY_FLAGS);
    Peer(settings, cookie, Waving, wave, false, seqNum)
  }

  /** Moves to a state and sends a conclusion. */
  function Conclude(p: Peer, state: RendezvousState, seqNum: SeqNumber, info: VsInfo): (Peer, ConnectionResult) {
    var p' := p.(state := state, startingSeqNum := seqNum);
    var packet := PacketOf(p', Conclusion, info);
    (p'.(lastPacket := packet), SendPacket(packet))
  }

  function Connect(
    p: Peer, c: ConnectionSettings, agreement: Option<Handshake>, toSend: Option<Handshake>): (Peer, ConnectionResult)
  {
    (p.(state := Established(c, agreement)), Connected(toSend))
  }

  function Ext(h: Handshake): Option<SrtControl> {
    if h.info.V5? then h.info.info.extHs else None
  }

  // ---- What a peer does with a packet ----

  /** The response of a responder to a request. */
  ghost function Respond(
    x: Crypto, p: Peer, h: Handshake, next: ConnectionSettings -> RendezvousState): (Peer, ConnectionResult)
    requires x.Sound()
  {
    match GenResponse(x, p.settings, h, None)
    case Accept(info, c) => Conclude(p, next(c), h.initSeqNum, info)
    case NotHandled => (p, Nothing)
    case Reject(reason) => (p, Rejected(Some(h.(shakeType := Rejection(reason), socketId := p.settings.localSockId))))
    case Unimplemented => (p, Stopped)
  }

  ghost predicate Implemented(p: Peer, packet: Packet) {
    packet.Shake? && packet.hs.info.V5? ==> CryptoImplemented(p.settings.keySettings, packet.hs.info.info)
  }

  /** The transition table; `keys` are what the key generator would give. */
  ghost function React(x: Crypto, p: Peer, packet: Packet, keys: StreamEncryptionKeys): (Peer, ConnectionResult)
    requires x.Sound() && FreshKeys(p.settings, keys)
  {
    var (hsv5, initiator) := StartInitiation(x, p.settings, None, keys);
    match (p.state, packet)
    case (Waving, Shake(h)) =>
      (match (h.shakeType, RoleOf(p.cookie, h.synCookie))
       case (_, Contest) => (p, Nothing)
       case (Waveahand, Initiator) => Conclude(p, AttentionInitiator(hsv5, initiator), p.startingSeqNum, hsv5)
       case (Waveahand, Responder) => Conclude(p, AttentionResponder, h.initSeqNum, EMPTY_FLAGS)
       case (Conclusion, Initiator) =>
         if h.info.V5? && Ext(h).None? then Conclude(p, FineInitiator(hsv5, initiator), p.startingSeqNum, hsv5)
             else (p, Nothing)
       case (Conclusion, Responder) =>
         if Ext(h).Some? && Ext(h).value.HandshakeRequest? && p.ticked then Respond(x, p, h, c => FineResponder(c))
             else (p, Nothing)
       case (Rejection(_), _) => (p, Rejected(None))
       case _ => (p, Nothing))
    case (AttentionInitiator(request, i), Shake(h)) =>
      if h.shakeType == Conclusion && h.info.V5? && Ext(h).None?
      then Conclude(p, InitiatedInitiator(i), p.startingSeqNum, request)
      else Finish(p, i, h, EMPTY_FLAGS)
    case (InitiatedInitiator(i), Shake(h)) => Finish(p, i, h, EMPTY_FLAGS)
    case (FineInitiator(request, i), Shake(h)) => Finish(p, i, h, request)
    case (AttentionResponder, Shake(h)) =>
      if h.shakeType == Conclusion && Ext(h).Some? && Ext(h).value.HandshakeRequest?
      then Respond(x, p, h, c => InitiatedResponder(c))
      else (p, Nothing)
    case (InitiatedResponder(c), _) =>
      if packet.Shake? && (packet.hs.info.V4? || packet.hs.shakeType == Waveahand
          || (packet.hs.shakeType == Conclusion && Ext(packet.hs).Some?))
      then (p, Nothing)
      else Connect(p, c, None, Some(PacketOf(p, Agreement, EMPTY_FLAGS)))
    case (FineResponder(c), _) =>
      if packet.Data? || packet.KeepAlive? || (packet.Shake? && packet.hs.shakeType == Agreement)
      then Connect(p, c, None, None)
      else (p, Nothing)
    case (Established(_, agreement), Shake(h)) =>
      if h.shakeType == Conclusion && agreement.Some? then (p, SendPacket(agreement.value)) else (p, Nothing)
    case _ => (p, Nothing)
  }

  /** An initiator that has its response is connected and says so. */
  function Finish(p: Peer, i: StartedInitiator, h: Handshake, info: VsInfo): (Peer, ConnectionResult) {
    var c := FinishInitiation(i, h);
    if h.shakeType == Conclusion && c.Some? then
      var agreement := Some(PacketOf(p, Agreement, info));
      Connect(p, c.value, agreement, agreement)
    else (p, Nothing)
  }

  // ---- Two peers and the network ----

  /** The peers are named by the role their cookies give them. The sets hold everything
      ever sent to a peer: any of it may arrive any number of times, in any order, or
      never. `chosen` are the keys the initiator generated. */
  datatype World = World(
    initiator: Peer,
    responder: Peer,
    toInitiator: set<Packet>,
    toResponder: set<Packet>,
    chosen: Option<StreamEncryptionKeys>)

  datatype WorldStep =
    | InitiatorTicks
    | ResponderTicks
    | InitiatorReceives(packet: Packet, keys: StreamEncryptionKeys)
    | ResponderReceives(packet: Packet)
    | InitiatorSends(packet: Packet)
    | ResponderSends(packet: Packet)

  ghost predicate Opens(x: Crypto, w: World) {
    && x.Sound()
    && w.initiator == NewPeer(w.initiator.settings, w.initiator.cookie, w.initiator.startingSeqNum)
    && w.responder == NewPeer(w.responder.settings, w.responder.cookie, w.responder.startingSeqNum)
    && RoleOf(w.initiator.cookie, w.responder.cookie) == Initiator
    && RoleOf(w.responder.cookie, w.initiator.cookie) == Responder
    && Compatible(w.initiator.settings.keySettings, w.responder.settings.keySettings)
    && w.toInitiator == {} && w.toResponder == {} && w.chosen.None?
  }

  /** Only a connected peer sends anything but handshakes. */
  ghost predicate CanStep(w: World, step: WorldStep) {
    match step
    case InitiatorReceives(p, keys) => p in w.toInitiator && FreshKeys(w.initiator.settings, keys)
    case ResponderReceives(p) => p in w.toResponder
    case InitiatorSends(p) => w.initiator.state.Established? && !p.Shake?
    case ResponderSends(p) => w.responder.state.Established? && !p.Shake?
    case _ => true
  }

  function Emitted(r: ConnectionResult): set<Packet> {
    match r
    case SendPacket(h) => {Shake(h)}
    case Connected(Some(h)) => {Shake(h)}
    case Rejected(Some(h)) => {Shake(h)}
    case _ => {}
  }

  /** A connected peer no longer repeats its last handshake. */
  function Tick(p: Peer): (Peer, set<Packet>) {
    if p.state.Established? then (p, {}) else (p.(ticked := true), {Shake(p.lastPacket)})
  }

  ghost function Apply(x: Crypto, w: World, step: WorldStep): World
    requires x.Sound() && CanStep(w, step)
  {
    match step
    case InitiatorTicks =>
      var (p, out) := Tick(w.initiator);
      w.(initiator := p, toResponder := w.toResponder + out)
    case ResponderTicks =>
      var (p, out) := Tick(w.responder);
      w.(responder := p, toInitiator := w.toInitiator + out)
    case InitiatorReceives(packet, keys) =>
      var (p, r) := React(x, w.initiator, packet, keys);
      w.(initiator := p, toResponder := w.toResponder + Emitted(r),
         chosen := if w.initiator.state.Waving? && !p.state.Waving? then Some(keys) else w.chosen)
    case ResponderReceives(packet) =>
      var (p, r) := React(x, w.responder, packet, AnyKeys(w.responder.settings));
      w.(responder := p, toInitiator := w.toInitiator + Emitted(r))
    case InitiatorSends(packet) => w.(toResponder := w.toResponder + {packet})
    case ResponderSends(packet) => w.(toInitiator := w.toInitiator + {packet})
  }

  /** A responder generates no keys. */
  ghost function AnyKeys(s: InitSettings): (keys: StreamEncryptionKeys)
    ensures FreshKeys(s, keys)
  {
    var n := if s.keySettings.Some? then s.keySettings.value.keySize.AsUsize() else 16;
    StreamEncryptionKeys(seq(16, i => 0), Some(seq(n, i => 0)), None)
  }

  // ---- The invariant ----

  ghost function Started(x: Crypto, w: World): (VsInfo, StartedInitiator)
    requires x.Sound() && w.chosen.Some? && FreshKeys(w.initiator.settings, w.chosen.value)
  {
    StartInitiation(x, w.initiator.settings, None, w.chosen.value)
  }

  /** The one request the initiator sends. */
  ghost function Request(x: Crypto, w: World): Handshake
    requires x.Sound() && w.chosen.Some? && FreshKeys(w.initiator.settings, w.chosen.value)
  {
    PacketOf(w.initiator, Conclusion, Started(x, w).0)
  }

  ghost function Answer(x: Crypto, w: World): GenResult
    requires Common(x, w) && w.chosen.Some?
  {
    GenResponse(x, w.responder.settings, Request(x, w), None)
  }

  /** The one response the responder sends. */
  ghost function Response(x: Crypto, w: World): Handshake
    requires Common(x, w) && w.chosen.Some? && Answer(x, w).Accept?
  {
    PacketOf(w.responder.(startingSeqNum := w.initiator.startingSeqNum), Conclusion, Answer(x, w).info)
  }

  /** The refusal of a responder that wants keys: the request back, marked. */
  ghost function Refusal(x: Crypto, w: World): Handshake
    requires Common(x, w) && w.chosen.Some?
  {
    Request(x, w).(shakeType := Rejection(Unsecure), socketId := w.responder.settings.localSockId)
  }

  ghost predicate Common(x: Crypto, w: World) {
    && x.Sound()
    && RoleOf(w.initiator.cookie, w.responder.cookie) == Initiator
    && RoleOf(w.responder.cookie, w.initiator.cookie) == Responder
    && Compatible(w.initiator.settings.keySettings, w.responder.settings.keySettings)
    && (w.chosen.Some? ==> FreshKeys(w.initiator.settings, w.chosen.value))
  }

  /** What the initiator may have sent. */
  ghost predicate FromInitiator(x: Crypto, w: World, p: Packet)
    requires Common(x, w)
  {
    match p
    case Shake(h) =>
      && h.synCookie == w.initiator.cookie
      && (|| (h.shakeType == Waveahand && h.info == EMPTY_FLAGS && h.initSeqNum == w.initiator.startingSeqNum)
          || (w.chosen.Some? && h == Request(x, w))
          || (w.chosen.Some? && w.initiator.state.Established? && h.shakeType == Agreement
              && (h.info == EMPTY_FLAGS || h.info == Started(x, w).0)))
    case _ => w.initiator.state.Established?
  }

  ghost predicate Responded(w: World) {
    w.responder.state.InitiatedResponder? || w.responder.state.FineResponder? || w.responder.state.Established?
  }

  /** What the responder may have sent. */
  ghost predicate FromResponder(x: Crypto, w: World, p: Packet)
    requires Common(x, w)
  {
    match p
    case Shake(h) =>
      || (h.synCookie == w.responder.cookie && h.shakeType in {Waveahand, Conclusion, Agreement}
         && h.info == EMPTY_FLAGS)
      || (w.chosen.Some? && Responded(w) && Answer(x, w).Accept? && h == Response(x, w))
      || (w.chosen.Some? && Answer(x, w) == Reject(Unsecure) && h == Refusal(x, w))
    case _ => w.responder.state.Established?
  }

  ghost predicate InitiatorOk(x: Crypto, w: World)
    requires Common(x, w)
  {
    && FromInitiator(x, w, Shake(w.initiator.lastPacket))
    && w.initiator.lastPacket.shakeType == (if w.initiator.state.Waving? then Waveahand else Conclusion)
    && (w.initiator.state.Waving? <==> w.chosen.None?)
    && match w.initiator.state
       case Waving => true
       case AttentionInitiator(h, i) => (h, i) == Started(x, w)
       case FineInitiator(h, i) => (h, i) == Started(x, w)
       case InitiatedInitiator(i) => i == Started(x, w).1
       case Established(c, agreement) =>
         && Responded(w) && Answer(x, w).Accept? && Some(c) == FinishInitiation(Started(x, w).1, Response(x, w))
         && agreement.Some? && FromInitiator(x, w, Shake(agreement.value)) && agreement.value.shakeType == Agreement
       case _ => false
  }

  /** The responder has accepted the request, holds what that gives, and repeats its
      response. */
  ghost predicate Answers(x: Crypto, w: World, c: ConnectionSettings)
    requires Common(x, w)
  {
    && w.chosen.Some? && Answer(x, w).Accept? && c == Answer(x, w).settings
    && w.responder.lastPacket == Response(x, w)
  }

  ghost predicate ResponderOk(x: Crypto, w: World)
    requires Common(x, w)
  {
    && FromResponder(x, w, Shake(w.responder.lastPacket))
    && w.responder.lastPacket.shakeType == (if w.responder.state.Waving? then Waveahand else Conclusion)
    && match w.responder.state
       case Waving => true
       case AttentionResponder => true
       case InitiatedResponder(c) => Answers(x, w, c)
       case FineResponder(c) => Answers(x, w, c)
       case Established(c, agreement) =>
         && Answers(x, w, c) && agreement.None? && w.initiator.state.Established?
       case _ => false
  }

  ghost predicate Inv(x: Crypto, w: World) {
    && Common(x, w)
    && InitiatorOk(x, w) && ResponderOk(x, w)
    && (forall p | p in w.toResponder :: FromInitiator(x, w, p))
    && (forall p | p in w.toInitiator :: FromResponder(x, w, p))
  }

  lemma {:induction false} OpensSafe(x: Crypto, w: World)
    requires Opens(x, w)
    ensures Inv(x, w)
  {
    hide RoleOf;
  }

  lemma {:induction false} InitiatorTicksSafe(x: Crypto, w: World)
    requires Inv(x, w)
    ensures Inv(x, Apply(x, w, InitiatorTicks))
  {
    hide RoleOf, StartInitiation, GenResponse, FinishInitiation;
    var (p, out) := Tick(w.initiator);
    InitiatorFrame(x, w, Apply(x, w, InitiatorTicks), out);
  }

  lemma {:induction false} ResponderTicksSafe(x: Crypto, w: World)
    requires Inv(x, w)
    ensures Inv(x, Apply(x, w, ResponderTicks))
  {
    hide RoleOf, StartInitiation, GenResponse, FinishInitiation;
    var (p, out) := Tick(w.responder);
    ResponderFrame(x, w, Apply(x, w, ResponderTicks), out);
  }

  lemma {:induction false} SendSafe(x: Crypto, w: World, step: WorldStep)
    requires Inv(x, w) && CanStep(w, step) && (step.InitiatorSends? || step.ResponderSends?)
    ensures Inv(x, Apply(x, w, step))
  {
    hide RoleOf, StartInitiation, GenResponse;
  }

  /** The request is accepted if the key settings are equal, and refused otherwise. */
  lemma {:induction false} AnswerIsResponse(x: Crypto, w: World)
    requires Common(x, w) && w.chosen.Some?
    ensures Started(x, w).0.V5? && IsRequest(Started(x, w).0.info)
    ensures CryptoImplemented(w.responder.settings.keySettings, Started(x, w).0.info)
    ensures if w.initiator.settings.keySettings == w.responder.settings.keySettings
            then Answer(x, w).Accept? && Answer(x, w).info.V5?
                 && Answer(x, w).info.info.extHs.Some? && Answer(x, w).info.info.extHs.value.HandshakeResponse?
            else Answer(x, w) == Reject(Unsecure)
  {
    if w.initiator.settings.keySettings == w.responder.settings.keySettings {
      RequestIsAccepted(x, w.initiator.settings, w.responder.settings, None, w.chosen.value, Request(x, w), None);
    } else {
      RequestIsRefused(x, w.initiator.settings, w.responder.settings, None, w.chosen.value, Request(x, w), None);
    }
    hide Wrapping, GenResponse, RoleOf;
  }

  lemma {:induction false} PacketsImplemented(x: Crypto, w: World, p: Packet)
    requires Common(x, w)
    ensures FromResponder(x, w, p) && (w.initiator.state.Waving? <==> w.chosen.None?) ==> Implemented(w.initiator, p)
    ensures FromInitiator(x, w, p) ==> Implemented(w.responder, p)
  {
    if w.chosen.Some? { AnswerIsResponse(x, w); }
    hide Wrapping, GenResponse, RoleOf, StartInitiation;
  }

  /** A step of the initiator keeps the invariant if it leaves the initiator in order and
      sends only what it may. */
  lemma {:induction false} InitiatorFrame(x: Crypto, w: World, w': World, out: set<Packet>)
    requires Inv(x, w) && Common(x, w')
    requires w' == w.(initiator := w'.initiator, chosen := w'.chosen, toResponder := w.toResponder + out)
    requires w'.initiator.startingSeqNum == w.initiator.startingSeqNum
    requires w'.initiator.settings == w.initiator.settings && w'.initiator.cookie == w.initiator.cookie
    requires w.chosen.None? || w'.chosen == w.chosen
    requires w.initiator.state.Established? ==> w'.initiator.state.Established?
    requires InitiatorOk(x, w') && forall p | p in out :: FromInitiator(x, w', p)
    ensures Inv(x, w')
  {
    hide RoleOf, StartInitiation, GenResponse, FinishInitiation;
    if w.chosen.Some? {
      assert Request(x, w) == Request(x, w') && Answer(x, w) == Answer(x, w');
    }
    forall p | p in w.toResponder ensures FromInitiator(x, w', p) {}
    forall p | p in w.toInitiator ensures FromResponder(x, w', p) {}
    assert FromResponder(x, w', Shake(w.responder.lastPacket));
    hide FromInitiator, FromResponder, Answer, InitiatorOk;
  }

  /** All an initiator does: generate keys and send its request, repeat the request,
      finish on a response, or, connected, repeat its agreement. */
  ghost predicate InitiatorDoes(
    x: Crypto, p: Peer, packet: Packet, keys: StreamEncryptionKeys, p': Peer, out: set<Packet>)
    requires x.Sound() && FreshKeys(p.settings, keys)
  {
    var (hsv5, i) := StartInitiation(x, p.settings, None, keys);
    || (p' == p && out == {})
    || (p.state.Waving? && out == {Shake(p'.lastPacket)} && p'.lastPacket == PacketOf(p, Conclusion, hsv5)
        && p' == p.(state := p'.state, lastPacket := p'.lastPacket)
        && (p'.state == AttentionInitiator(hsv5, i) || p'.state == FineInitiator(hsv5, i)))
    || (p.state.AttentionInitiator? && out == {Shake(p'.lastPacket)}
        && p' == p.(state := InitiatedInitiator(p.state.initiator),
           lastPacket := PacketOf(p, Conclusion, p.state.hsv5)))
    || ((p.state.AttentionInitiator? || p.state.InitiatedInitiator? || p.state.FineInitiator?)
        && packet.Shake? && packet.hs.shakeType == Conclusion
        && p' == p.(state := p'.state) && p'.state.Established? && p'.state.agreement.Some?
        && Some(p'.state.connection) == FinishInitiation(p.state.initiator, packet.hs)
        && p'.state.agreement.value
           == PacketOf(p, Agreement, if p.state.FineInitiator? then p.state.hsv5 else EMPTY_FLAGS)
        && out == {Shake(p'.state.agreement.value)})
    || (p.state.Established? && p' == p && p.state.agreement.Some? && out == {Shake(p.state.agreement.value)})
  }

  lemma {:induction false} InitiatorReaction(x: Crypto, p: Peer, packet: Packet, keys: StreamEncryptionKeys)
    requires x.Sound() && FreshKeys(p.settings, keys)
    requires p.state.Waving? && packet.Shake? ==> RoleOf(p.cookie, packet.hs.synCookie) == Initiator
    requires !p.state.AttentionResponder? && !p.state.InitiatedResponder? && !p.state.FineResponder?
    ensures var (p', r) := React(x, p, packet, keys); InitiatorDoes(x, p, packet, keys, p', Emitted(r))
  {
    hide RoleOf, StartInitiation, GenResponse, FinishInitiation, CryptoImplemented;
  }

  lemma {:induction false} InitiatorReceivesSafe(x: Crypto, w: World, p: Packet, keys: StreamEncryptionKeys)
    requires Inv(x, w) && CanStep(w, InitiatorReceives(p, keys))
    ensures Implemented(w.initiator, p) && Inv(x, Apply(x, w, InitiatorReceives(p, keys)))
  {
    hide RoleOf, StartInitiation, GenResponse, FinishInitiation, CryptoImplemented;
    assert FromResponder(x, w, p);
    PacketsImplemented(x, w, p);
    InitiatorReaction(x, w.initiator, p, keys);
    hide React;
    var (i, r) := React(x, w.initiator, p, keys);
    var w' := Apply(x, w, InitiatorReceives(p, keys));
    if i == w.initiator && Emitted(r) == {} {
      assert w.toResponder + {} == w.toResponder;
      assert w' == w;
    } else {
      if w.chosen.Some? { ResponseFinishes(x, w, p); }
      InitiatorStays(x, w, p, keys, i, Emitted(r));
      InitiatorFrame(x, w, w', Emitted(r));
    }
  }

  /** Only the one response finishes an initiator. */
  lemma {:induction false} ResponseFinishes(x: Crypto, w: World, p: Packet)
    requires Inv(x, w) && w.chosen.Some? && FromResponder(x, w, p)
    ensures p.Shake? && FinishInitiation(Started(x, w).1, p.hs).Some? ==>
              Responded(w) && Answer(x, w).Accept? && p.hs == Response(x, w)
  {
    hide RoleOf, StartInitiation, GenResponse, InitiatorOk, ResponderOk;
    AnswerIsResponse(x, w);
  }

  /** After any of these the initiator is in order and has sent only what it may. */
  lemma {:induction false} InitiatorStays(
    x: Crypto, w: World, p: Packet, keys: StreamEncryptionKeys, i: Peer, out: set<Packet>)
    requires Inv(x, w) && FreshKeys(w.initiator.settings, keys) && FromResponder(x, w, p)
    requires InitiatorDoes(x, w.initiator, p, keys, i, out) && !(i == w.initiator && out == {})
    requires w.chosen.Some? && p.Shake? && FinishInitiation(Started(x, w).1, p.hs).Some? ==>
               Responded(w) && Answer(x, w).Accept? && p.hs == Response(x, w)
    ensures var w' := w.(initiator := i, toResponder := w.toResponder + out,
                         chosen := if w.initiator.state.Waving? && !i.state.Waving? then Some(keys) else w.chosen);
            Common(x, w') && InitiatorOk(x, w') && forall q | q in out :: FromInitiator(x, w', q)
  {
    hide RoleOf, StartInitiation, GenResponse, FinishInitiation, ResponderOk;
  }

  lemma {:induction false} ResponderFrame(x: Crypto, w: World, w': World, out: set<Packet>)
    requires Inv(x, w)
    requires w' == w.(responder := w'.responder, toInitiator := w.toInitiator + out)
    requires w'.responder.settings == w.responder.settings && w'.responder.cookie == w.responder.cookie
    requires w.responder.state.Established? ==> w'.responder.state.Established?
    requires Responded(w) ==> Responded(w')
    requires ResponderOk(x, w') && forall p | p in out :: FromResponder(x, w', p)
    ensures Inv(x, w')
  {
    hide RoleOf, StartInitiation, GenResponse, FinishInitiation;
    if w.chosen.Some? {
      assert Request(x, w) == Request(x, w') && Answer(x, w) == Answer(x, w');
    }
    forall p | p in w.toResponder ensures FromInitiator(x, w', p) {}
    forall p | p in w.toInitiator ensures FromResponder(x, w', p) {}
    assert InitiatorOk(x, w');
    hide FromInitiator, FromResponder, Answer, InitiatorOk, ResponderOk;
  }

  /** All a responder does: greet, answer or refuse a request, or be connected. */
  ghost predicate ResponderDoes(x: Crypto, p: Peer, packet: Packet, p': Peer, out: set<Packet>)
    requires x.Sound()
  {
    || (p' == p && out == {})
    || (p.state.Waving? && p'.state.AttentionResponder? && out == {Shake(p'.lastPacket)}
        && p'.settings == p.settings && p'.cookie == p.cookie
        && p'.lastPacket == PacketOf(p', Conclusion, EMPTY_FLAGS))
    || ((p.state.Waving? || p.state.AttentionResponder?) && out == {Shake(p'.lastPacket)}
        && packet.Shake? && packet.hs.shakeType == Conclusion && packet.hs.info.V5? && IsRequest(packet.hs.info.info)
        && p'.settings == p.settings && p'.cookie == p.cookie && p'.startingSeqNum == packet.hs.initSeqNum
        && GenResponse(x, p.settings, packet.hs, None).Accept?
        && p'.lastPacket == PacketOf(p', Conclusion, GenResponse(x, p.settings, packet.hs, None).info)
        && (|| p'.state == FineResponder(GenResponse(x, p.settings, packet.hs, None).settings)
            || p'.state == InitiatedResponder(GenResponse(x, p.settings, packet.hs, None).settings)))
    || ((p.state.Waving? || p.state.AttentionResponder?) && p' == p
        && packet.Shake? && packet.hs.shakeType == Conclusion && packet.hs.info.V5? && IsRequest(packet.hs.info.info)
        && GenResponse(x, p.settings, packet.hs, None) == Reject(Unsecure)
        && out == {Shake(packet.hs.(shakeType := Rejection(Unsecure), socketId := p.settings.localSockId))})
    || ((p.state.InitiatedResponder? || p.state.FineResponder?)
        && (packet.Shake? ==>
              packet.hs.shakeType != Waveahand && (packet.hs.shakeType == Conclusion ==> Ext(packet.hs).None?))
        && p' == p.(state := Established(p.state.connection, None))
        && out <= {Shake(PacketOf(p, Agreement, EMPTY_FLAGS))})
  }

  lemma {:induction false} ResponderReaction(x: Crypto, p: Peer, packet: Packet, keys: StreamEncryptionKeys)
    requires x.Sound() && FreshKeys(p.settings, keys)
    requires p.state.Waving? && packet.Shake? ==> RoleOf(p.cookie, packet.hs.synCookie) == Responder
    requires !p.state.AttentionInitiator? && !p.state.InitiatedInitiator? && !p.state.FineInitiator?
    requires p.state.Established? ==> p.state.agreement.None?
    requires packet.Shake? && packet.hs.shakeType == Conclusion && packet.hs.info.V5?
             && IsRequest(packet.hs.info.info) ==>
               GenResponse(x, p.settings, packet.hs, None).Accept?
                 || GenResponse(x, p.settings, packet.hs, None) == Reject(Unsecure)
    ensures var (p', r) := React(x, p, packet, keys); ResponderDoes(x, p, packet, p', Emitted(r))
  {
    hide RoleOf, StartInitiation, GenResponse, FinishInitiation, CryptoImplemented;
  }

  lemma {:induction false} ResponderReceivesSafe(x: Crypto, w: World, p: Packet)
    requires Inv(x, w) && CanStep(w, ResponderReceives(p))
    ensures Implemented(w.responder, p) && Inv(x, Apply(x, w, ResponderReceives(p)))
  {
    hide RoleOf, StartInitiation, GenResponse, FinishInitiation, CryptoImplemented;
    assert FromInitiator(x, w, p);
    PacketsImplemented(x, w, p);
    if w.chosen.Some? { AnswerIsResponse(x, w); }
    ResponderReaction(x, w.responder, p, AnyKeys(w.responder.settings));
    hide React;
    var (q, r) := React(x, w.responder, p, AnyKeys(w.responder.settings));
    var w' := Apply(x, w, ResponderReceives(p));
    if q == w.responder && Emitted(r) == {} {
      assert w.toInitiator + {} == w.toInitiator;
      assert w' == w;
    } else {
      ResponderStays(x, w, p, q, Emitted(r));
      ResponderFrame(x, w, w', Emitted(r));
    }
  }

  lemma {:induction false} ResponderStays(x: Crypto, w: World, p: Packet, q: Peer, out: set<Packet>)
    requires Inv(x, w) && FromInitiator(x, w, p)
    requires w.chosen.Some? ==> Started(x, w).0.V5? && IsRequest(Started(x, w).0.info)
    requires ResponderDoes(x, w.responder, p, q, out) && !(q == w.responder && out == {})
    ensures var w' := w.(responder := q, toInitiator := w.toInitiator + out);
            ResponderOk(x, w') && forall o | o in out :: FromResponder(x, w', o)
  {
    hide RoleOf, StartInitiation, GenResponse, FinishInitiation, CryptoImplemented;
  }

  // ---- Every run ----

  lemma {:induction false} StepSafe(x: Crypto, w: World, step: WorldStep)
    requires Inv(x, w) && CanStep(w, step)
    ensures step.InitiatorReceives? ==> Implemented(w.initiator, step.packet)
    ensures step.ResponderReceives? ==> Implemented(w.responder, step.packet)
    ensures Inv(x, Apply(x, w, step))
  {
    match step
    case InitiatorTicks => InitiatorTicksSafe(x, w);
    case ResponderTicks => ResponderTicksSafe(x, w);
    case InitiatorReceives(p, keys) => InitiatorReceivesSafe(x, w, p, keys);
    case ResponderReceives(p) => ResponderReceivesSafe(x, w, p);
    case InitiatorSends(_) => SendSafe(x, w, step);
    case ResponderSends(_) => SendSafe(x, w, step);
  }

  /** The world after some steps; None if one of them cannot be taken. */
  ghost function Execute(x: Crypto, w: World, steps: seq<WorldStep>): Option<World>
    requires Inv(x, w)
    decreases |steps|
  {
    if steps == [] then Some(w)
    else if !CanStep(w, steps[0]) then None
    else
      StepSafe(x, w, steps[0]);
      Execute(x, Apply(x, w, steps[0]), steps[1..])
  }

  lemma {:induction false} RunSafe(x: Crypto, w: World, steps: seq<WorldStep>)
    requires Inv(x, w) && Execute(x, w, steps).Some?
    ensures Inv(x, Execute(x, w, steps).value)
    decreases |steps|
  {
    assert x.Sound();
    hide Inv, Apply;
    if steps != [] {
      StepSafe(x, w, steps[0]);
      RunSafe(x, Apply(x, w, steps[0]), steps[1..]);
    }
  }

  /** Whatever the network does, the responder is connected only when the initiator is;
      the initiator only when the responder has accepted its request; and what the two
      have taken from the negotiation is dual. */
  lemma {:induction false} PeersAgree(x: Crypto, w: World, steps: seq<WorldStep>)
    requires Opens(x, w) && (OpensSafe(x, w); Execute(x, w, steps).Some?)
    ensures var e := (OpensSafe(x, w); Execute(x, w, steps).value);
            && (e.responder.state.Established? ==> e.initiator.state.Established?)
            && (e.initiator.state.Established? ==>
                 Responded(e) && Dual(e.initiator.state.connection, e.responder.state.connection))
  {
    OpensSafe(x, w);
    RunSafe(x, w, steps);
    var e := Execute(x, w, steps).value;
    hide RoleOf, StartInitiation, Execute, Opens;
    if e.initiator.state.Established? {
      ResponseMirrors(x, e);
    }
  }

  lemma {:induction false} ResponseMirrors(x: Crypto, w: World)
    requires Common(x, w) && w.chosen.Some? && Answer(x, w).Accept?
    ensures var c := FinishInitiation(Started(x, w).1, Response(x, w));
            c.Some? && Dual(c.value, Answer(x, w).settings)
  {
    AnswerIsResponse(x, w);
    var keys := w.chosen.value;
    RequestIsAccepted(x, w.initiator.settings, w.responder.settings, None, keys, Request(x, w), None);
    NegotiationMirrors(x, w.initiator.settings, w.responder.settings, None, keys, Request(x, w), Response(x, w), None);
    hide RoleOf, Wrapping, GenResponse;
  }

  /** A peer that has one role keeps it, in every run. */
  lemma {:induction false} RolesHold(x: Crypto, w: World, steps: seq<WorldStep>)
    requires Opens(x, w) && (OpensSafe(x, w); Execute(x, w, steps).Some?)
    ensures var e := (OpensSafe(x, w); Execute(x, w, steps).value);
            && !e.initiator.state.AttentionResponder? && !e.initiator.state.InitiatedResponder?
               && !e.initiator.state.FineResponder?
            && !e.responder.state.AttentionInitiator? && !e.responder.state.InitiatedInitiator?
               && !e.responder.state.FineInitiator?
  {
    OpensSafe(x, w);
    RunSafe(x, w, steps);
    hide RoleOf, StartInitiation, Execute, Opens;
  }

  lemma {:induction false} ExecuteStep(x: Crypto, w: World, step: WorldStep, rest: seq<WorldStep>)
    requires Inv(x, w) && CanStep(w, step)
    ensures step.InitiatorReceives? ==> Implemented(w.initiator, step.packet)
    ensures step.ResponderReceives? ==> Implemented(w.responder, step.packet)
    ensures x.Sound() && Inv(x, Apply(x, w, step))
    ensures Execute(x, w, [step] + rest) == Execute(x, Apply(x, w, step), rest)
  {
    StepSafe(x, w, step);
    assert x.Sound();
    hide Inv, Apply, CanStep;
    assert ([step] + rest)[0] == step && ([step] + rest)[1..] == rest;
  }

  lemma {:induction false} NoSteps(x: Crypto, w: World)
    requires Inv(x, w)
    ensures Execute(x, w, []) == Some(w)
  {
  }

  lemma {:induction false} ReactSettings(x: Crypto, p: Peer, packet: Packet, keys: StreamEncryptionKeys)
    requires x.Sound() && FreshKeys(p.settings, keys)
    ensures React(x, p, packet, keys).0.settings == p.settings
  {
    hide RoleOf, StartInitiation, GenResponse, FinishInitiation;
  }

  lemma {:induction false} RunSettings(x: Crypto, w: World, steps: seq<WorldStep>)
    requires Inv(x, w) && Execute(x, w, steps).Some?
    ensures var e := Execute(x, w, steps).value;
            e.initiator.settings == w.initiator.settings && e.responder.settings == w.responder.settings
    decreases |steps|
  {
    assert x.Sound();
    hide Inv, React;
    if steps != [] {
      StepSafe(x, w, steps[0]);
      if steps[0].InitiatorReceives? { ReactSettings(x, w.initiator, steps[0].packet, steps[0].keys); }
      if steps[0].ResponderReceives? {
        ReactSettings(x, w.responder, steps[0].packet, AnyKeys(w.responder.settings));
      }
      RunSettings(x, Apply(x, w, steps[0]), steps[1..]);
    }
  }

  /** A responder that wants keys and an initiator without are never connected. */
  lemma {:induction false} UnequalPeersRefuse(x: Crypto, w: World, steps: seq<WorldStep>)
    requires Opens(x, w) && (OpensSafe(x, w); Execute(x, w, steps).Some?)
    requires w.initiator.settings.keySettings != w.responder.settings.keySettings
    ensures var e := (OpensSafe(x, w); Execute(x, w, steps).value);
            !e.initiator.state.Established? && !e.responder.state.Established?
  {
    OpensSafe(x, w);
    RunSafe(x, w, steps);
    RunSettings(x, w, steps);
    var e := Execute(x, w, steps).value;
    if e.chosen.Some? { AnswerIsResponse(x, e); }
    hide RoleOf, StartInitiation, Execute, Opens, GenResponse;
  }

  // ---- From every world the peers can still connect ----

  /** An initiator that waits for a response. */
  predicate AwaitsResponse(s: RendezvousState) {
    s.AttentionInitiator? || s.InitiatedInitiator? || s.FineInitiator?
  }

  predicate AwaitsAgreement(s: RendezvousState) {
    s.InitiatedResponder? || s.FineResponder?
  }

  ghost predicate SameEnds(w: World, w': World) {
    w'.initiator.settings == w.initiator.settings && w'.responder.settings == w.responder.settings
  }

  /** Whatever a waving initiator hears first from its responder, it sends its request. */
  lemma {:induction false} GreetingStartsInitiator(x: Crypto, w: World, keys: StreamEncryptionKeys) returns (w': World)
    requires Inv(x, w) && w.initiator.state.Waving? && FreshKeys(w.initiator.settings, keys)
    requires Shake(w.responder.lastPacket) in w.toInitiator
    ensures var hears := InitiatorReceives(Shake(w.responder.lastPacket), keys);
            x.Sound() && CanStep(w, hears) && w' == Apply(x, w, hears)
    ensures Inv(x, w') && AwaitsResponse(w'.initiator.state) && SameEnds(w, w')
  {
    hide RoleOf, StartInitiation, GenResponse, FinishInitiation, CryptoImplemented;
    var hears := InitiatorReceives(Shake(w.responder.lastPacket), keys);
    StepSafe(x, w, hears);
    w' := Apply(x, w, hears);
  }

  /** A waving responder that has sent something, or an attending one, answers the request
      whenever it arrives. */
  lemma {:induction false} RequestIsAnswered(x: Crypto, w: World) returns (w': World)
    requires Inv(x, w) && w.initiator.settings.keySettings == w.responder.settings.keySettings
    requires w.responder.state == AttentionResponder || (w.responder.state == Waving && w.responder.ticked)
    requires w.chosen.Some? && Shake(Request(x, w)) in w.toResponder
    ensures var hears := ResponderReceives(Shake(Request(x, w)));
            x.Sound() && CanStep(w, hears) && w' == Apply(x, w, hears)
    ensures Inv(x, w') && AwaitsAgreement(w'.responder.state) && w'.initiator == w.initiator && SameEnds(w, w')
  {
    hide RoleOf, StartInitiation, GenResponse, FinishInitiation, CryptoImplemented, React, Compatible;
    AnswerIsResponse(x, w);
    var hears := ResponderReceives(Shake(Request(x, w)));
    RequestReaction(x, w.responder, Request(x, w), AnyKeys(w.responder.settings));
    StepSafe(x, w, hears);
    w' := Apply(x, w, hears);
  }

  lemma {:induction false} RequestReaction(x: Crypto, p: Peer, h: Handshake, keys: StreamEncryptionKeys)
    requires x.Sound() && FreshKeys(p.settings, keys)
    requires p.state == AttentionResponder || (p.state == Waving && p.ticked)
    requires h.shakeType == Conclusion && RoleOf(p.cookie, h.synCookie) == Responder
    requires h.info.V5? && IsRequest(h.info.info) && GenResponse(x, p.settings, h, None).Accept?
    ensures var p' := React(x, p, Shake(h), keys).0; AwaitsAgreement(p'.state) && p'.settings == p.settings
  {
    hide RoleOf, StartInitiation, GenResponse, FinishInitiation, CryptoImplemented;
  }

  /** The response establishes an initiator that waits, whichever way it came to wait. */
  lemma {:induction false} ResponseEstablishes(x: Crypto, w: World, keys: StreamEncryptionKeys) returns (w': World)
    requires Inv(x, w) && AwaitsResponse(w.initiator.state) && FreshKeys(w.initiator.settings, keys)
    requires w.chosen.Some? && Answer(x, w).Accept? && Shake(Response(x, w)) in w.toInitiator
    ensures var hears := InitiatorReceives(Shake(Response(x, w)), keys);
            x.Sound() && CanStep(w, hears) && w' == Apply(x, w, hears)
    ensures Inv(x, w') && w'.initiator.state.Established? && w'.responder == w.responder && SameEnds(w, w')
    ensures w'.initiator.state.agreement.Some? && Shake(w'.initiator.state.agreement.value) in w'.toResponder
  {
    ResponseMirrors(x, w);
    AnswerIsResponse(x, w);
    hide RoleOf, StartInitiation, GenResponse, CryptoImplemented, FinishInitiation, Dual;
    var hears := InitiatorReceives(Shake(Response(x, w)), keys);
    StepSafe(x, w, hears);
    w' := Apply(x, w, hears);
  }

  /** An established initiator that hears the response again repeats its agreement. */
  lemma {:induction false} ResponseIsAgreedAgain(x: Crypto, w: World, keys: StreamEncryptionKeys) returns (w': World)
    requires Inv(x, w) && w.initiator.state.Established? && FreshKeys(w.initiator.settings, keys)
    requires w.chosen.Some? && Answer(x, w).Accept? && Shake(Response(x, w)) in w.toInitiator
    ensures var hears := InitiatorReceives(Shake(Response(x, w)), keys);
            x.Sound() && CanStep(w, hears) && w' == Apply(x, w, hears)
    ensures Inv(x, w') && w'.initiator == w.initiator && w'.responder == w.responder
    ensures w.initiator.state.agreement.Some? && Shake(w.initiator.state.agreement.value) in w'.toResponder
  {
    hide RoleOf, StartInitiation, GenResponse, CryptoImplemented, FinishInitiation, Dual;
    var hears := InitiatorReceives(Shake(Response(x, w)), keys);
    StepSafe(x, w, hears);
    w' := Apply(x, w, hears);
  }

  /** The agreement establishes a responder that waits for it. */
  lemma {:induction false} AgreementEstablishes(x: Crypto, w: World) returns (w': World)
    requires Inv(x, w) && w.initiator.state.Established? && AwaitsAgreement(w.responder.state)
    requires w.initiator.state.agreement.Some? && Shake(w.initiator.state.agreement.value) in w.toResponder
    ensures var hears := ResponderReceives(Shake(w.initiator.state.agreement.value));
            x.Sound() && CanStep(w, hears) && w' == Apply(x, w, hears)
    ensures Inv(x, w') && w'.initiator.state.Established? && w'.responder.state.Established?
  {
    if w.chosen.Some? { AnswerIsResponse(x, w); }
    hide RoleOf, StartInitiation, GenResponse, FinishInitiation, CryptoImplemented;
    var hears := ResponderReceives(Shake(w.initiator.state.agreement.value));
    StepSafe(x, w, hears);
    w' := Apply(x, w, hears);
  }

  /** So does anything but a handshake, which only a connected initiator sends. */
  lemma {:induction false} TrafficEstablishes(x: Crypto, w: World, p: Packet) returns (w': World)
    requires Inv(x, w) && AwaitsAgreement(w.responder.state) && p in w.toResponder && (p.Data? || p.KeepAlive?)
    ensures x.Sound() && CanStep(w, ResponderReceives(p)) && w' == Apply(x, w, ResponderReceives(p))
    ensures Inv(x, w') && w'.initiator.state.Established? && w'.responder.state.Established?
  {
    hide RoleOf, StartInitiation, GenResponse, FinishInitiation, CryptoImplemented;
    assert FromInitiator(x, w, p);
    StepSafe(x, w, ResponderReceives(p));
    w' := Apply(x, w, ResponderReceives(p));
  }

  /** A waving responder that hears a wave pays attention, takes over the initiator's number
      and says so. */
  lemma {:induction false} WaveStartsResponder(x: Crypto, w: World, h: Handshake) returns (w': World)
    requires Inv(x, w) && w.responder.state.Waving? && Shake(h) in w.toResponder && h.shakeType == Waveahand
    ensures x.Sound() && CanStep(w, ResponderReceives(Shake(h))) && w' == Apply(x, w, ResponderReceives(Shake(h)))
    ensures Inv(x, w') && w'.responder.state == AttentionResponder
    ensures w'.responder.startingSeqNum == w.initiator.startingSeqNum
    ensures Shake(w'.responder.lastPacket) in w'.toInitiator && w'.responder.lastPacket.info == EMPTY_FLAGS
  {
    hide RoleOf, StartInitiation, GenResponse, FinishInitiation, CryptoImplemented;
    assert FromInitiator(x, w, Shake(h));
    StepSafe(x, w, ResponderReceives(Shake(h)));
    w' := Apply(x, w, ResponderReceives(Shake(h)));
  }

  /** An attending initiator that hears the attention of its responder sends its request
      again. */
  lemma {:induction false} AttentionRepeatsRequest(x: Crypto, w: World, h: Handshake, keys: StreamEncryptionKeys)
    returns (w': World)
    requires Inv(x, w) && w.initiator.state.AttentionInitiator? && FreshKeys(w.initiator.settings, keys)
    requires Shake(h) in w.toInitiator && h.shakeType == Conclusion && h.info == EMPTY_FLAGS
    ensures var hears := InitiatorReceives(Shake(h), keys);
            x.Sound() && CanStep(w, hears) && w' == Apply(x, w, hears)
    ensures Inv(x, w') && w'.initiator.state.InitiatedInitiator?
    ensures w.chosen.Some? && Common(x, w) && Shake(Request(x, w)) in w'.toResponder
  {
    hide RoleOf, StartInitiation, GenResponse, FinishInitiation, CryptoImplemented;
    var hears := InitiatorReceives(Shake(h), keys);
    StepSafe(x, w, hears);
    w' := Apply(x, w, hears);
  }

  /** A peer that is not connected repeats its last packet. */
  lemma {:induction false} TicksRepeat(x: Crypto, w: World)
    requires Inv(x, w)
    ensures x.Sound() && Inv(x, Apply(x, w, InitiatorTicks)) && Inv(x, Apply(x, w, ResponderTicks))
    ensures !w.initiator.state.Established? ==>
              var w' := Apply(x, w, InitiatorTicks);
              w' == w.(initiator := w.initiator.(ticked := true),
                       toResponder := w.toResponder + {Shake(w.initiator.lastPacket)})
    ensures !w.responder.state.Established? ==>
              var w' := Apply(x, w, ResponderTicks);
              w' == w.(responder := w.responder.(ticked := true),
                       toInitiator := w.toInitiator + {Shake(w.responder.lastPacket)})
  {
    InitiatorTicksSafe(x, w);
    ResponderTicksSafe(x, w);
    hide RoleOf, StartInitiation, GenResponse, FinishInitiation, CryptoImplemented, InitiatorOk, ResponderOk;
  }

  /** What a peer repeats: the initiator its request, once it has one, and the responder its
      response. */
  lemma {:induction false} LastPackets(x: Crypto, w: World)
    requires Inv(x, w)
    ensures Common(x, w)
    ensures w.initiator.state.Waving? ==> !Responded(w)
    ensures !w.initiator.state.Waving? ==> w.chosen.Some? && w.initiator.lastPacket == Request(x, w)
    ensures Responded(w) ==> w.chosen.Some? && Answer(x, w).Accept? && w.responder.lastPacket == Response(x, w)
    ensures w.responder.state.Established? ==> w.initiator.state.Established?
    ensures !Responded(w) ==> !w.initiator.state.Established? && w.responder.state in {Waving, AttentionResponder}
    ensures !w.initiator.state.Waving? && !w.initiator.state.Established? ==> AwaitsResponse(w.initiator.state)
    ensures Responded(w) && !w.responder.state.Established? ==> AwaitsAgreement(w.responder.state)
  {
    hide RoleOf, StartInitiation, GenResponse, FinishInitiation, CryptoImplemented;
  }

  lemma {:induction false} ThenSteps(x: Crypto, w: World, first: seq<WorldStep>, next: seq<WorldStep>)
    requires Inv(x, w) && Execute(x, w, first).Some?
    ensures Inv(x, Execute(x, w, first).value)
    ensures Execute(x, w, first + next) == Execute(x, Execute(x, w, first).value, next)
    decreases |first|
  {
    hide Inv, Apply, CanStep, Execute;
    RunSafe(x, w, first);
    if first == [] {
      NoSteps(x, w);
      assert first + next == next;
    } else {
      var step, rest := first[0], first[1..];
      FirstStep(x, w, first);
      ExecuteStep(x, w, step, rest);
      assert [step] + rest == first;
      ThenSteps(x, Apply(x, w, step), rest, next);
      ExecuteStep(x, w, step, rest + next);
      assert [step] + (rest + next) == first + next;
    }
  }

  lemma {:induction false} FirstStep(x: Crypto, w: World, steps: seq<WorldStep>)
    requires Inv(x, w) && Execute(x, w, steps).Some? && steps != []
    ensures CanStep(w, steps[0])
  {
    assert x.Sound();
    hide Inv, Apply, CanStep;
  }

  lemma {:induction false} TwoSteps(x: Crypto, w: World, a: WorldStep, b: WorldStep)
    requires Inv(x, w) && CanStep(w, a)
    requires x.Sound() && CanStep(Apply(x, w, a), b)
    ensures Execute(x, w, [a, b]) == Some(Apply(x, Apply(x, w, a), b))
  {
    ExecuteStep(x, w, a, [b]);
    ExecuteStep(x, Apply(x, w, a), b, []);
    StepSafe(x, w, a);
    StepSafe(x, Apply(x, w, a), b);
    NoSteps(x, Apply(x, Apply(x, w, a), b));
    hide Inv, Apply, CanStep, Execute;
    assert [a] + [b] == [a, b] && [b] + [] == [b];
  }

  lemma {:induction false} InitiatorStarts(x: Crypto, w: World, keys: StreamEncryptionKeys)
    returns (steps: seq<WorldStep>)
    requires Inv(x, w) && FreshKeys(w.initiator.settings, keys)
    ensures Execute(x, w, steps).Some?
    ensures var e := Execute(x, w, steps).value; Inv(x, e) && !e.initiator.state.Waving? && SameEnds(w, e)
  {
    hide Inv, Execute, Apply, CanStep, Request, Response, Answer, RoleOf, FreshKeys;
    if !w.initiator.state.Waving? {
      NoSteps(x, w);
      return [];
    }
    LastPackets(x, w);
    CanTick(w);
    TicksRepeat(x, w);
    var w1 := Apply(x, w, ResponderTicks);
    var w2 := GreetingStartsInitiator(x, w1, keys);
    steps := [ResponderTicks, InitiatorReceives(Shake(w1.responder.lastPacket), keys)];
    TwoSteps(x, w, steps[0], steps[1]);
  }

  lemma {:induction false} CanTick(w: World)
    ensures CanStep(w, InitiatorTicks) && CanStep(w, ResponderTicks)
  {
  }

  lemma {:induction false} ResponderAnswers(x: Crypto, w: World) returns (steps: seq<WorldStep>)
    requires Inv(x, w) && !w.initiator.state.Waving?
    requires w.initiator.settings.keySettings == w.responder.settings.keySettings
    ensures Execute(x, w, steps).Some?
    ensures var e := Execute(x, w, steps).value;
            Inv(x, e) && Responded(e) && !e.initiator.state.Waving? && SameEnds(w, e)
  {
    hide Inv, Execute, Apply, CanStep, Request, Response, Answer, RoleOf, FreshKeys;
    if Responded(w) {
      NoSteps(x, w);
      return [];
    }
    LastPackets(x, w);
    CanTick(w);
    TicksRepeat(x, w);
    var w1 := Apply(x, w, InitiatorTicks);
    CanTick(w1);
    TicksRepeat(x, w1);
    var w2 := Apply(x, w1, ResponderTicks);
    LastPackets(x, w2);
    var w3 := RequestIsAnswered(x, w2);
    var hears := ResponderReceives(Shake(Request(x, w2)));
    steps := [InitiatorTicks] + [ResponderTicks, hears];
    ExecuteStep(x, w, InitiatorTicks, [ResponderTicks, hears]);
    TwoSteps(x, w1, ResponderTicks, hears);
  }

  lemma {:induction false} InitiatorFinishes(x: Crypto, w: World, keys: StreamEncryptionKeys)
    returns (steps: seq<WorldStep>)
    requires Inv(x, w) && Responded(w) && !w.initiator.state.Waving? && FreshKeys(w.initiator.settings, keys)
    ensures Execute(x, w, steps).Some?
    ensures var e := Execute(x, w, steps).value;
            Inv(x, e) && Responded(e) && e.initiator.state.Established? && SameEnds(w, e)
  {
    hide Inv, Execute, Apply, CanStep, Request, Response, Answer, RoleOf, FreshKeys;
    if w.initiator.state.Established? {
      NoSteps(x, w);
      return [];
    }
    LastPackets(x, w);
    CanTick(w);
    TicksRepeat(x, w);
    var w1 := Apply(x, w, ResponderTicks);
    LastPackets(x, w1);
    var w2 := ResponseEstablishes(x, w1, keys);
    steps := [ResponderTicks, InitiatorReceives(Shake(Response(x, w1)), keys)];
    TwoSteps(x, w, steps[0], steps[1]);
  }

  lemma {:induction false} ResponderFinishes(x: Crypto, w: World, keys: StreamEncryptionKeys)
    returns (steps: seq<WorldStep>)
    requires Inv(x, w) && Responded(w) && w.initiator.state.Established? && FreshKeys(w.initiator.settings, keys)
    ensures Execute(x, w, steps).Some?
    ensures var e := Execute(x, w, steps).value; e.initiator.state.Established? && e.responder.state.Established?
  {
    hide Inv, Execute, Apply, CanStep, Request, Response, Answer, RoleOf, FreshKeys;
    if w.responder.state.Established? {
      NoSteps(x, w);
      return [];
    }
    LastPackets(x, w);
    CanTick(w);
    TicksRepeat(x, w);
    var w1 := Apply(x, w, ResponderTicks);
    LastPackets(x, w1);
    var w2 := ResponseIsAgreedAgain(x, w1, keys);
    var w3 := AgreementEstablishes(x, w2);
    var again := InitiatorReceives(Shake(Response(x, w1)), keys);
    var last := ResponderReceives(Shake(w2.initiator.state.agreement.value));
    steps := [ResponderTicks] + [again, last];
    ExecuteStep(x, w, ResponderTicks, [again, last]);
    TwoSteps(x, w1, again, last);
  }

  /** Progress: with equal key settings, however a run went on so far and whatever it lost,
      it can be continued so that both peers are connected. */
  lemma {:induction false} EveryRunCanConnect(x: Crypto, w: World, steps: seq<WorldStep>, keys: StreamEncryptionKeys)
    returns (more: seq<WorldStep>)
    requires Opens(x, w) && (OpensSafe(x, w); Execute(x, w, steps).Some?) && FreshKeys(w.initiator.settings, keys)
    requires w.initiator.settings.keySettings == w.responder.settings.keySettings
    ensures Inv(x, w) && Execute(x, w, steps + more).Some?
    ensures var e := Execute(x, w, steps + more).value;
            e.initiator.state.Established? && e.responder.state.Established?
  {
    hide Opens, Inv, Execute, FreshKeys, Responded;
    OpensSafe(x, w);
    RunSafe(x, w, steps);
    RunSettings(x, w, steps);
    var w0 := Execute(x, w, steps).value;
    var a := InitiatorStarts(x, w0, keys);
    var w1 := Execute(x, w0, a).value;
    var b := ResponderAnswers(x, w1);
    var w2 := Execute(x, w1, b).value;
    var c := InitiatorFinishes(x, w2, keys);
    var w3 := Execute(x, w2, c).value;
    var d := ResponderFinishes(x, w3, keys);
    ThenSteps(x, w2, c, d);
    ThenSteps(x, w1, b, c + d);
    ThenSteps(x, w0, a, b + (c + d));
    more := a + (b + (c + d));
    ThenSteps(x, w, steps, more);
  }

  /** In particular there is a run that connects both peers. */
  lemma {:induction false} PeersConnect(x: Crypto, w: World, keys: StreamEncryptionKeys) returns (steps: seq<WorldStep>)
    requires Opens(x, w) && FreshKeys(w.initiator.settings, keys)
    requires w.initiator.settings.keySettings == w.responder.settings.keySettings
    ensures Inv(x, w) && Execute(x, w, steps).Some?
    ensures var e := Execute(x, w, steps).value; e.initiator.state.Established? && e.responder.state.Established?
  {
    hide *;
    OpensSafe(x, w);
    NoSteps(x, w);
    steps := EveryRunCanConnect(x, w, [], keys);
    assert [] + steps == steps;
  }
  // ---- The object ----

  class Rendezvous {
    const crypto: Crypto
    const initSettings: InitSettings
    const cookie: int
    var state: RendezvousState
    var lastPacket: Handshake
    var sent: bool
    var startingSeqNum: SeqNumber

    function Value(): Peer
      reads this
    {
      Peer(initSettings, cookie, state, lastPacket, sent, startingSeqNum)
    }

    constructor (crypto: Crypto, initSettings: InitSettings, cookie: int, startingSeqNum: SeqNumber)
      ensures Value() == NewPeer(initSettings, cookie, startingSeqNum) && this.crypto == crypto
    {
      this.crypto, this.initSettings, this.cookie, this.startingSeqNum := crypto, initSettings, cookie, startingSeqNum;
      lastPacket := Handshake(startingSeqNum, initSettings.maxPacketSize, initSettings.maxFlowSize, Waveahand,
                              initSettings.localSockId, cookie, EMPTY_FLAGS);
      state, sent := Waving, false;
    }

    method SendConclusion(info: VsInfo) returns (r: ConnectionResult)
      modifies this`lastPacket
      ensures r == SendPacket(lastPacket) && lastPacket == PacketOf(Value(), Conclusion, info)
    {
      lastPacket := PacketOf(Value(), Conclusion, info);
      return SendPacket(lastPacket);
    }

    method HandleWaving(h: Handshake, keys: StreamEncryptionKeys) returns (r: ConnectionResult)
      requires state.Waving? && crypto.Sound() && FreshKeys(initSettings, keys)
      modifies this
      ensures (Value(), r) == React(crypto, old(Value()), Shake(h), keys)
    {
      hide StartInitiation, GenResponse, CryptoImplemented;
      var d := (cookie - h.synCookie) % U32_RANGE;
      if d == 0 { return Nothing; }
      var initiates := d < 0x8000_0000;
      match h.shakeType {
        case Waveahand =>
          if initiates {
            var hsv5, i := StartHsv5Initiation(crypto, initSettings, None, keys);
            state := AttentionInitiator(hsv5, i);
            r := SendConclusion(hsv5);
          } else {
            startingSeqNum := h.initSeqNum;
            state := AttentionResponder;
            r := SendConclusion(EMPTY_FLAGS);
          }
        case Conclusion =>
          if h.info.V4? { return Nothing; }
          var ext := Ext(h);
          if initiates && ext.None? {
            var hsv5, i := StartHsv5Initiation(crypto, initSettings, None, keys);
            state := FineInitiator(hsv5, i);
            r := SendConclusion(hsv5);
          } else if !initiates && ext.Some? && ext.value.HandshakeRequest? && sent {
            r := Answer(h, true);
          } else {
            r := Nothing;
          }
        case Rejection(_) => r := ConnectionResult.Rejected(None);
        case _ => r := Nothing;
      }
    }

    /** The answer to a request, from waving (`fine`) or from attention. */
    method Answer(h: Handshake, fine: bool) returns (r: ConnectionResult)
      requires crypto.Sound()
      modifies this
      ensures (Value(), r) == Respond(crypto, old(Value()), h, c => if fine then FineResponder(c)
              else InitiatedResponder(c))
    {
      hide GenResponse, CryptoImplemented;
      var response := GenHsv5Response(crypto, initSettings, h, None);
      match response {
        case Accept(info, c) =>
          startingSeqNum := h.initSeqNum;
          state := if fine then FineResponder(c) else InitiatedResponder(c);
          r := SendConclusion(info);
        case NotHandled => r := Nothing;
        case Reject(reason) =>
          r := ConnectionResult.Rejected(Some(h.(shakeType := Rejection(reason),
            socketId := initSettings.localSockId)));
        case Unimplemented => r := Stopped;
      }
    }

    method SetConnected(c: ConnectionSettings, agreement: Option<Handshake>, toSend: Option<Handshake>)
      returns (r: ConnectionResult)
      modifies this`state
      ensures (Value(), r) == Connect(old(Value()), c, agreement, toSend)
    {
      state := Established(c, agreement);
      return ConnectionResult.Connected(toSend);
    }

    /** What the three initiator states do with a response. */
    method FinishWith(h: Handshake, i: StartedInitiator, info: VsInfo) returns (r: ConnectionResult)
      modifies this`state
      ensures (Value(), r) == Finish(old(Value()), i, h, info)
    {
      if h.shakeType != Conclusion { return Nothing; }
      var c := FinishInitiation(i, h);
      if c.None? { return Nothing; }
      var agreement := PacketOf(Value(), Agreement, info);
      r := SetConnected(c.value, Some(agreement), Some(agreement));
    }

    method HandleAttentionInitiator(h: Handshake, hsv5: VsInfo, i: StartedInitiator) returns (r: ConnectionResult)
      requires state == AttentionInitiator(hsv5, i)
      modifies this
      ensures (Value(), r) ==
              if h.shakeType == Conclusion && h.info.V5? && Ext(h).None?
              then Conclude(old(Value()), InitiatedInitiator(i), old(startingSeqNum), hsv5)
              else Finish(old(Value()), i, h, EMPTY_FLAGS)
    {
      if h.shakeType == Conclusion && h.info.V5? && Ext(h).None? {
        state := InitiatedInitiator(i);
        r := SendConclusion(hsv5);
      } else {
        r := FinishWith(h, i, EMPTY_FLAGS);
      }
    }

    method HandleInitiatedResponder(packet: Packet, c: ConnectionSettings) returns (r: ConnectionResult)
      modifies this`state
      ensures (Value(), r) ==
              if packet.Shake? && (|| packet.hs.info.V4? || packet.hs.shakeType == Waveahand
                                   || (packet.hs.shakeType == Conclusion && Ext(packet.hs).Some?))
              then (old(Value()), Nothing)
              else Connect(old(Value()), c, None, Some(PacketOf(old(Value()), Agreement, EMPTY_FLAGS)))
    {
      if packet.Shake? {
        var h := packet.hs;
        if h.info.V4? { return Nothing; }
        if h.shakeType == Conclusion && h.info.info.extHs.Some? { return Nothing; }
        if h.shakeType == Waveahand { return Nothing; }
      }
      r := SetConnected(c, None, Some(PacketOf(Value(), Agreement, EMPTY_FLAGS)));
    }

    /** Before the peer is connected. */
    method HandlePacket(packet: Packet, keys: StreamEncryptionKeys) returns (r: ConnectionResult)
      requires !state.Established? && crypto.Sound() && FreshKeys(initSettings, keys)
      modifies this
      ensures (Value(), r) == React(crypto, old(Value()), packet, keys)
    {
      hide StartInitiation, GenResponse, CryptoImplemented, RoleOf, FinishInitiation;
      if state.InitiatedResponder? {
        r := HandleInitiatedResponder(packet, state.connection);
      } else if state.FineResponder? {
        if packet.Data? || packet.KeepAlive? || (packet.Shake? && packet.hs.shakeType == Agreement) {
          r := SetConnected(state.connection, None, None);
        } else {
          r := Nothing;
        }
      } else if !packet.Shake? {
        r := Nothing;
      } else if state.Waving? {
        r := HandleWaving(packet.hs, keys);
      } else if state.AttentionInitiator? {
        r := HandleAttentionInitiator(packet.hs, state.hsv5, state.initiator);
      } else if state.InitiatedInitiator? {
        r := FinishWith(packet.hs, state.initiator, EMPTY_FLAGS);
      } else if state.FineInitiator? {
        r := FinishWith(packet.hs, state.initiator, state.hsv5);
      } else {
        var ext := Ext(packet.hs);
        if packet.hs.shakeType == Conclusion && ext.Some? && ext.value.HandshakeRequest? {
          r := Answer(packet.hs, false);
        } else {
          r := Nothing;
        }
      }
    }

    method HandleTick() returns (r: ConnectionResult)
      requires !state.Established?
      modifies this`sent
      ensures (Value(), Emitted(r)) == Tick(old(Value()))
    {
      sent := true;
      return SendPacket(lastPacket);
    }
  }
}
