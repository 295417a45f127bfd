/** The version 5 handshake negotiation shared by all connection modes. Durations, clocks
    and settings that stay local to one side are left out. */
module Hsv5 {
  import opened SeqNumbers
  import opened Packets
  import opened StreamKeys

  type StreamId = string

  datatype SrtHandshake = SrtHandshake(sendLatency: int, recvLatency: int)

  datatype SrtControl =
    | HandshakeRequest(hs: SrtHandshake)
    | HandshakeResponse(hs: SrtHandshake)
    | KeyRefreshRequest(km: KeyingMaterial)
    | KeyRefreshResponse(km: KeyingMaterial)
    | OtherExtension

  datatype HsV5Info = HsV5Info(keySize: KeySize, extHs: Option<SrtControl>, extKm: Option<SrtControl>,
      sid: Option<StreamId>)

  const EMPTY_FLAGS: VsInfo := V5(HsV5Info(Unspecified, None, None, None))

  datatype VsInfo = V4 | V5(info: HsV5Info)

  datatype RejectReason = PeerRejects | BadSecret | Unsecure | Version | OtherReason(code: int)

  datatype ShakeType = Induction | Waveahand | Conclusion | Agreement | Rejection(reason: RejectReason)

  datatype Handshake = Handshake(
    initSeqNum: SeqNumber,
    maxPacketSize: nat,
    maxFlowSize: nat,
    shakeType: ShakeType,
    socketId: SocketId,
    synCookie: int,
    info: VsInfo)

  /** What a side brings to the negotiation. */
  datatype InitSettings = InitSettings(
    localSockId: SocketId,
    keySettings: Option<KeySettings>,
    sendLatency: int,
    recvLatency: int,
    maxPacketSize: nat,
    maxFlowSize: nat)

  datatype CipherSettings = CipherSettings(keySettings: KeySettings, streamKeys: StreamEncryptionKeys)

  /** What a side takes from it. */
  datatype ConnectionSettings = ConnectionSettings(
    localSockId: SocketId,
    remoteSockId: SocketId,
    initSeqNum: SeqNumber,
    maxPacketSize: nat,
    maxFlowSize: nat,
    sendLatency: int,
    recvLatency: int,
    cipher: Option<CipherSettings>,
    streamId: Option<StreamId>)

  datatype StartedInitiator = StartedInitiator(cipher: Option<CipherSettings>, settings: InitSettings,
      streamId: Option<StreamId>)

  function Max(a: int, b: int): int {
    if a < b then b else a
  }

  function MinSize(a: nat, b: nat): nat {
    if a < b then a else b
  }

  function MaxSize(a: nat, b: nat): nat {
    if a < b then b else a
  }

  ghost predicate FreshKeys(s: InitSettings, keys: StreamEncryptionKeys) {
    s.keySettings.Some? ==> keys.Fit(s.keySettings.value.keySize)
  }

  // ---- Initiator ----

  function InitiatorCipher(s: InitSettings, keys: StreamEncryptionKeys): Option<CipherSettings> {
    if s.keySettings.Some? then Some(CipherSettings(s.keySettings.value, keys)) else None
  }

  ghost function StartInitiation(
    x: Crypto, s: InitSettings, streamId: Option<StreamId>, keys: StreamEncryptionKeys): (VsInfo, StartedInitiator)
    requires x.Sound() && FreshKeys(s, keys)
  {
    var size := if s.keySettings.Some? then s.keySettings.value.keySize else Unspecified;
    var extKm := if s.keySettings.Some? then Some(KeyRefreshRequest(Wrapping(x, s.keySettings.value, keys))) else None;
    (V5(HsV5Info(size, Some(HandshakeRequest(SrtHandshake(s.sendLatency, s.recvLatency))), extKm, streamId)),
     StartedInitiator(InitiatorCipher(s, keys), s, streamId))
  }

  /** None when the response is not one. */
  function FinishInitiation(i: StartedInitiator, response: Handshake): Option<ConnectionSettings> {
    match response.info
    case V4 => None
    case V5(incoming) =>
      match incoming.extHs
      case Some(HandshakeResponse(hs)) =>
        Some(ConnectionSettings(
               i.settings.localSockId,
               response.socketId,
               response.initSeqNum,
               MinSize(i.settings.maxPacketSize, response.maxPacketSize),
               MaxSize(i.settings.maxFlowSize, response.maxFlowSize),
               Max(i.settings.sendLatency, hs.recvLatency),
               Max(i.settings.recvLatency, hs.sendLatency),
               i.cipher,
               i.streamId))
      case _ => None
  }

  method StartHsv5Initiation(x: Crypto, s: InitSettings, streamId: Option<StreamId>, keys: StreamEncryptionKeys)
    returns (info: VsInfo, i: StartedInitiator)
    requires x.Sound() && FreshKeys(s, keys)
    ensures (info, i) == StartInitiation(x, s, streamId, keys)
  {
    hide Wrapping;
    var size, extKm := Unspecified, None;
    if s.keySettings.Some? {
      var km := WrapWith(x, s.keySettings.value, keys);
      size, extKm := s.keySettings.value.keySize, Some(KeyRefreshRequest(km));
    }
    info := V5(HsV5Info(size, Some(HandshakeRequest(SrtHandshake(s.sendLatency, s.recvLatency))), extKm, streamId));
    i := StartedInitiator(InitiatorCipher(s, keys), s, streamId);
  }

  // ---- Responder ----

  datatype GenResult =
    | Accept(info: VsInfo, settings: ConnectionSettings)
    | NotHandled
    | Reject(reason: RejectReason)
    | Unimplemented

  predicate IsRequest(info: HsV5Info) {
    info.extHs.Some? && info.extHs.value.HandshakeRequest?
  }

  /** The combinations of key settings that the source implements. */
  predicate CryptoImplemented(keySettings: Option<KeySettings>, incoming: HsV5Info) {
    IsRequest(incoming) ==>
    match (keySettings, incoming.extKm)
    case (Some(ks), Some(KeyRefreshRequest(km))) => ks.keySize == incoming.keySize && Readable(km)
    case (Some(_), Some(_)) => false
    case (None, Some(_)) => false
    case (_, None) => true
  }

  /** `granted` are the key settings an access controller may have set. */
  ghost function GenResponse(x: Crypto, s: InitSettings, request: Handshake, granted: Option<KeySettings>): GenResult
    requires x.Sound()
  {
    if request.info.V4? then Reject(Version)
    else
      var incoming := request.info.info;
      var keySettings := if granted.Some? then granted else s.keySettings;
      match incoming.extHs
      case Some(HandshakeRequest(hs)) =>
        (match (keySettings, incoming.extKm)
         case (Some(ks), Some(KeyRefreshRequest(km))) =>
           if ks.keySize != incoming.keySize then Unimplemented
           else
             (match Unwrapping(x, ks, km)
              case Keys(keys) => Accepted(x, s, request, hs, Some(CipherSettings(ks, keys)))
              case Unreadable => Unimplemented
              case _ => Reject(BadSecret))
         case (None, None) => Accepted(x, s, request, hs, None)
         case (Some(_), None) => Reject(Unsecure)
         case _ => Unimplemented)
      case _ => NotHandled
  }

  ghost function Accepted(
    x: Crypto, s: InitSettings, request: Handshake, hs: SrtHandshake, cipher: Option<CipherSettings>): (r: GenResult)
    requires x.Sound() && request.info.V5?
    ensures r.Accept? && r.settings.cipher == cipher
  {
    var sid := request.info.info.sid;
    var extKm :=
      if cipher.Some? && cipher.value.streamKeys.Fit(cipher.value.keySettings.keySize)
      then Some(KeyRefreshResponse(Wrapping(x, cipher.value.keySettings, cipher.value.streamKeys)))
      else None;
    Accept(
      V5(HsV5Info(if cipher.Some? then cipher.value.keySettings.keySize else Unspecified,
                  Some(HandshakeResponse(SrtHandshake(s.sendLatency, s.recvLatency))), extKm, sid)),
      ConnectionSettings(
        s.localSockId,
        request.socketId,
        request.initSeqNum,
        MinSize(s.maxPacketSize, request.maxPacketSize),
        MaxSize(s.maxFlowSize, request.maxFlowSize),
        Max(s.sendLatency, hs.recvLatency),
        Max(s.recvLatency, hs.sendLatency),
        cipher,
        sid))
  }

  /** Unimplemented where the source stops. */
  method GenHsv5Response(x: Crypto, s: InitSettings, request: Handshake, granted: Option<KeySettings>)
    returns (r: GenResult)
    requires x.Sound()
    ensures r == GenResponse(x, s, request, granted)
    ensures r == Unimplemented <==>
            request.info.V5? && !CryptoImplemented(if granted.Some? then granted else s.keySettings, request.info.info)
  {
    hide Wrapping, Unwrapping;
    if request.info.V4? { return Reject(Version); }
    var incoming := request.info.info;
    if !IsRequest(incoming) { return NotHandled; }
    var keySettings := if granted.Some? then granted else s.keySettings;
    var cipher, extKm := None, None;
    if keySettings.Some? {
      if incoming.extKm.None? { return Reject(Unsecure); }
      if !incoming.extKm.value.KeyRefreshRequest?
          || keySettings.value.keySize != incoming.keySize { return Unimplemented; }
      var u := UnwrapFrom(x, keySettings.value, incoming.extKm.value.km);
      if u == Unreadable { return Unimplemented; }
      if !u.Keys? { return Reject(BadSecret); }
      UnwrappedFit(x, keySettings.value, incoming.extKm.value.km);
      cipher := Some(CipherSettings(keySettings.value, u.keys));
      if u.keys.even.Some? || u.keys.odd.Some? {
        var km := WrapWith(x, keySettings.value, u.keys);
        extKm := Some(KeyRefreshResponse(km));
      }
    } else if incoming.extKm.Some? {
      return Unimplemented;
    }
    var hs := incoming.extHs.value.hs;
    r := Accept(
      V5(HsV5Info(if cipher.Some? then cipher.value.keySettings.keySize else Unspecified,
                  Some(HandshakeResponse(SrtHandshake(s.sendLatency, s.recvLatency))), extKm, incoming.sid)),
      ConnectionSettings(
        s.localSockId, request.socketId, request.initSeqNum,
        MinSize(s.maxPacketSize, request.maxPacketSize), MaxSize(s.maxFlowSize, request.maxFlowSize),
        Max(s.sendLatency, hs.recvLatency), Max(s.recvLatency, hs.sendLatency),
        cipher, incoming.sid));
  }

  // ---- Agreement ----

  /** The two sides see the same connection: ids and latencies crossed, initial number,
      stream and keys equal. */
  ghost predicate Mirrored(i: ConnectionSettings, r: ConnectionSettings) {
    && i.localSockId == r.remoteSockId && i.remoteSockId == r.localSockId
    && i.sendLatency == r.recvLatency && i.recvLatency == r.sendLatency
    && i.initSeqNum == r.initSeqNum
    && i.cipher == r.cipher
    && i.streamId == r.streamId
  }

  ghost predicate Dual(i: ConnectionSettings, r: ConnectionSettings) {
    Mirrored(i, r) && i.maxPacketSize == r.maxPacketSize && i.maxFlowSize == r.maxFlowSize
  }

  /** A request from a side with the same key settings is accepted, with its keys. */
  lemma {:induction false} RequestIsAccepted(
    x: Crypto, si: InitSettings, sr: InitSettings, sid: Option<StreamId>, keys: StreamEncryptionKeys,
    request: Handshake, granted: Option<KeySettings>)
    requires x.Sound() && FreshKeys(si, keys)
    requires si.keySettings == if granted.Some? then granted else sr.keySettings
    requires request.info == StartInitiation(x, si, sid, keys).0
    ensures CryptoImplemented(si.keySettings, request.info.info)
    ensures GenResponse(x, sr, request, granted) ==
            Accepted(x, sr, request, SrtHandshake(si.sendLatency, si.recvLatency), InitiatorCipher(si, keys))
  {
    hide Accepted;
    if si.keySettings.Some? {
      var ks := si.keySettings.value;
      var km := Wrapping(x, ks, keys);
      UnwrapsToWrapped(x, ks, keys, km);
    }
    hide Wrapping, Unwrapping;
  }

  /** A request without keys to a side that wants them is refused. */
  lemma {:induction false} RequestIsRefused(
    x: Crypto, si: InitSettings, sr: InitSettings, sid: Option<StreamId>, keys: StreamEncryptionKeys,
    request: Handshake, granted: Option<KeySettings>)
    requires x.Sound() && si.keySettings.None? && (granted.Some? || sr.keySettings.Some?)
    requires request.info == StartInitiation(x, si, sid, keys).0
    ensures CryptoImplemented(if granted.Some? then granted else sr.keySettings, request.info.info)
    ensures GenResponse(x, sr, request, granted) == Reject(Unsecure)
  {
    hide Accepted, Wrapping, Unwrapping;
  }

  /** The combinations of key settings that end in agreement or in a refusal: equal ones, and
      none on the side that asks. */
  predicate Compatible(asking: Option<KeySettings>, answering: Option<KeySettings>) {
    asking == answering || asking.None?
  }

  /** What the two sides take from a request and the response to it mirrors each other,
      whichever packet and flow sizes the two packets carried. */
  lemma {:induction false} NegotiationMirrors(
    x: Crypto, si: InitSettings, sr: InitSettings, sid: Option<StreamId>, keys: StreamEncryptionKeys,
    request: Handshake, response: Handshake, granted: Option<KeySettings>)
    requires x.Sound() && FreshKeys(si, keys)
    requires si.keySettings == if granted.Some? then granted else sr.keySettings
    requires request.info == StartInitiation(x, si, sid, keys).0 && request.socketId == si.localSockId
    requires GenResponse(x, sr, request, granted).Accept?
    requires response.info == GenResponse(x, sr, request, granted).info
    requires response.socketId == sr.localSockId && response.initSeqNum == request.initSeqNum
    ensures var c := FinishInitiation(StartInitiation(x, si, sid, keys).1, response);
            c.Some? && Mirrored(c.value, GenResponse(x, sr, request, granted).settings)
  {
    RequestIsAccepted(x, si, sr, sid, keys, request, granted);
    hide Wrapping, Unwrapping, GenResponse;
  }

  /** The larger, or the smaller, of what two sides ask. */
  predicate Greatest(v: int, a: int, b: int) {
    a <= v && b <= v && (v == a || v == b)
  }

  predicate Least(v: int, a: int, b: int) {
    v <= a && v <= b && (v == a || v == b)
  }

  /** What the two sides take from the negotiation: each direction has the larger of the
      latencies that its two ends ask for, packets are as small as the smaller side wants, the flow
      window is the larger, and both sides have the keys of the one that asked. */
  lemma {:induction false} NegotiatedValues(
    x: Crypto, si: InitSettings, sr: InitSettings, sid: Option<StreamId>, keys: StreamEncryptionKeys,
    request: Handshake, response: Handshake, granted: Option<KeySettings>)
    requires x.Sound() && FreshKeys(si, keys)
    requires si.keySettings == if granted.Some? then granted else sr.keySettings
    requires request.info == StartInitiation(x, si, sid, keys).0
    requires GenResponse(x, sr, request, granted).Accept?
    requires response.info == GenResponse(x, sr, request, granted).info
    ensures var r := GenResponse(x, sr, request, granted).settings;
            && Greatest(r.sendLatency, sr.sendLatency, si.recvLatency)
            && Greatest(r.recvLatency, sr.recvLatency, si.sendLatency)
            && Least(r.maxPacketSize, sr.maxPacketSize, request.maxPacketSize)
            && Greatest(r.maxFlowSize, sr.maxFlowSize, request.maxFlowSize)
            && r.initSeqNum == request.initSeqNum && r.streamId == sid
            && r.cipher == if si.keySettings.Some? then Some(CipherSettings(si.keySettings.value, keys)) else None
    ensures var c := FinishInitiation(StartInitiation(x, si, sid, keys).1, response);
            && c.Some? && Greatest(c.value.sendLatency, si.sendLatency, sr.recvLatency)
            && Greatest(c.value.recvLatency, si.recvLatency, sr.sendLatency)
            && Least(c.value.maxPacketSize, si.maxPacketSize, response.maxPacketSize)
            && Greatest(c.value.maxFlowSize, si.maxFlowSize, response.maxFlowSize)
            && c.value.initSeqNum == response.initSeqNum && c.value.streamId == sid
  {
    RequestIsAccepted(x, si, sr, sid, keys, request, granted);
    hide Wrapping, Unwrapping, GenResponse;
  }

  /** What a responder makes of any request, by the key settings it goes by and the key
      material that comes with it. */
  lemma {:induction false} ResponseExactly(x: Crypto, s: InitSettings, request: Handshake, granted: Option<KeySettings>)
    requires x.Sound()
    ensures var r := GenResponse(x, s, request, granted);
            var ks := if granted.Some? then granted else s.keySettings;
            && (r == Reject(Version) <==> request.info.V4?)
            && (request.info.V5? ==>
                  var info := request.info.info;
                  && (r == NotHandled <==> !IsRequest(info))
                  && (r == Reject(Unsecure) <==> IsRequest(info) && ks.Some? && info.extKm.None?)
                  && (r == Unimplemented <==> !CryptoImplemented(ks, info))
                  && (r == Reject(BadSecret) <==>
                        && IsRequest(info) && ks.Some? && info.extKm.Some? && CryptoImplemented(ks, info)
                        && !Unwrapping(x, ks.value, info.extKm.value.km).Keys?)
                  && (r.Accept? ==> r.settings.cipher.Some? == ks.Some?))
  {
    hide Wrapping, Unwrapping, Readable, Accepted;
    var ks := if granted.Some? then granted else s.keySettings;
    if request.info.V5? && ks.Some? && request.info.info.extKm.Some?
       && request.info.info.extKm.value.KeyRefreshRequest?
    {
      UnreadableExactly(x, ks.value, request.info.info.extKm.value.km);
    }
  }
}
