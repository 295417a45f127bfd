/** Key refresh (section 6 of draft-sharabayko-srt): the sender announces a new key ahead
    of time, repeats it until the receiver echoes it, and only then switches to it. */
module KeyRefresh {
  import opened Packets
  import opened StreamKeys

  datatype SenderKeys = SenderKeys(
    settings: KeySettings,
    period: nat,
    preAnnouncement: nat,
    keys: StreamEncryptionKeys,
    active: DataEncryption,
    untilPreAnnouncement: nat,
    untilTransmit: nat,
    untilSwitch: nat,
    last: Option<KeyingMaterial>)

  // The configuration is accepted only if a key serves at least twice as long as it is announced ahead.
  predicate ValidRefresh(period: nat, preAnnouncement: nat) {
    0 < preAnnouncement && 2 * preAnnouncement <= period
  }

  /** The two countdowns keep the announcement exactly one pre-announcement period ahead
      of the switch. */
  predicate InStep(e: SenderKeys) {
    var ahead := e.untilPreAnnouncement + e.preAnnouncement;
    && e.untilPreAnnouncement <= e.period
    && (e.untilSwitch == ahead <= e.period || e.untilSwitch == ahead - e.period)
  }

  ghost predicate EncInv(x: Crypto, e: SenderKeys) {
    && x.Sound()
    && ValidRefresh(e.period, e.preAnnouncement) && InStep(e)
    && e.active != Clear
    && e.keys.Fit(e.settings.keySize) && e.keys.even.Some? && e.keys.odd.Some?
    && (e.last.Some? ==> e.last.value == Wrapping(x, e.settings, e.keys))
  }

  function Start(settings: KeySettings, period: nat, preAnnouncement: nat, keys: StreamEncryptionKeys): SenderKeys
    requires ValidRefresh(period, preAnnouncement)
  {
    SenderKeys(settings, period, preAnnouncement, keys, Even, period - preAnnouncement, 0, period, None)
  }

  function Flip(sek: DataEncryption): DataEncryption {
    match sek
    case Even => Odd
    case Odd => Even
    case Clear => Clear
  }

  /** A new key for the slot that is not in use. */
  function Commission(k: StreamEncryptionKeys, active: DataEncryption, freshKey: Key): StreamEncryptionKeys {
    match active
    case Even => k.(odd := Some(freshKey))
    case Odd => k.(even := Some(freshKey))
    case Clear => k
  }

  predicate Announces(e: SenderKeys) {
    e.untilPreAnnouncement == 0 && e.last.None?
  }

  predicate Switches(e: SenderKeys) {
    e.untilSwitch == 0 && e.last.None?
  }

  /** What one packet does to the state; `freshKey` is the key the generator would give. */
  ghost function Turn(x: Crypto, e: SenderKeys, freshKey: Key): SenderKeys
    requires EncInv(x, e) && |freshKey| == e.settings.keySize.AsUsize()
  {
    var keys := if Announces(e) then Commission(e.keys, e.active, freshKey) else e.keys;
    var last := if Announces(e) then Some(Wrapping(x, e.settings, keys)) else e.last;
    var wait := if e.untilPreAnnouncement == 0 then 0 else e.untilTransmit;
    e.(keys := keys,
       last := last,
       active := if Switches(e) then Flip(e.active) else e.active,
       untilPreAnnouncement := (if e.untilPreAnnouncement == 0 then e.period else e.untilPreAnnouncement) - 1,
       untilSwitch := (if e.untilSwitch == 0 then e.period else e.untilSwitch) - 1,
       untilTransmit := if last.None? then wait else if wait == 0 then Min(e.preAnnouncement, 1_000) else wait - 1)
  }

  /** The key material that goes out with the packet, if any. */
  ghost function Sends(x: Crypto, e: SenderKeys, freshKey: Key): Option<KeyingMaterial>
    requires EncInv(x, e) && |freshKey| == e.settings.keySize.AsUsize()
  {
    if e.untilPreAnnouncement == 0 || e.untilTransmit == 0 then Turn(x, e, freshKey).last else None
  }

  function Min(a: nat, b: nat): nat {
    if a < b then a else b
  }

  function Confirm(e: SenderKeys, km: KeyingMaterial): SenderKeys {
    if e.last == Some(km) then e.(last := None, untilTransmit := 0) else e
  }

  lemma {:induction false} TurnSafe(x: Crypto, e: SenderKeys, freshKey: Key)
    requires EncInv(x, e) && |freshKey| == e.settings.keySize.AsUsize()
    ensures var e' := Turn(x, e, freshKey);
            && EncInv(x, e')
            && (Announces(e) ==> !Switches(e))
            && e'.keys.GetKey(e.active) == e.keys.GetKey(e.active)
            && e'.keys.salt == e.keys.salt && e'.settings == e.settings
            && (Sends(x, e, freshKey).Some? ==> Sends(x, e, freshKey).value == Wrapping(x, e'.settings, e'.keys))
  {
    hide Wrapping;
  }

  // ---- The sender, step by step ----

  class EncryptionState {
    const crypto: Crypto
    var settings: KeySettings
    var period: nat
    var preAnnouncement: nat
    var streamKeys: StreamEncryptionKeys
    var activeSek: DataEncryption
    var packetsUntilPreAnnouncement: nat
    var packetsUntilTransmit: nat
    var packetsUntilKeySwitch: nat
    var lastKeyMaterial: Option<KeyingMaterial>

    function Value(): SenderKeys
      reads this
    {
      SenderKeys(settings, period, preAnnouncement, streamKeys, activeSek, packetsUntilPreAnnouncement,
                      packetsUntilTransmit, packetsUntilKeySwitch, lastKeyMaterial)
    }

    ghost predicate Valid()
      reads this
    {
      EncInv(crypto, Value())
    }

    constructor (crypto: Crypto, settings: KeySettings, period: nat, preAnnouncement: nat, keys: StreamEncryptionKeys)
      requires crypto.Sound() && ValidRefresh(period, preAnnouncement)
      requires keys.Fit(settings.keySize) && keys.even.Some? && keys.odd.Some?
      ensures Valid() && Value() == Start(settings, period, preAnnouncement, keys) && this.crypto == crypto
    {
      this.crypto, this.settings, this.period, this.preAnnouncement := crypto, settings, period, preAnnouncement;
      streamKeys, activeSek := keys, Even;
      packetsUntilPreAnnouncement, packetsUntilTransmit, packetsUntilKeySwitch := period - preAnnouncement, 0, period;
      lastKeyMaterial := None;
    }

    /** One turn of the refresh protocol, after the packet. */
    method Advance(freshKey: Key) returns (km: Option<KeyingMaterial>)
      requires Valid() && |freshKey| == settings.keySize.AsUsize()
      modifies this
      ensures Valid() && Value() == Turn(crypto, old(Value()), freshKey)
      ensures km == Sends(crypto, old(Value()), freshKey)
    {
      hide Wrapping;
      TurnSafe(crypto, Value(), freshKey);
      TrySchedulePreAnnouncement(freshKey);
      TrySwitchStreamKeys();
      km := TrySendKeyMaterial();
      packetsUntilPreAnnouncement := packetsUntilPreAnnouncement - 1;
      packetsUntilKeySwitch := packetsUntilKeySwitch - 1;
    }

    method TryEncryptPacket(packet: DataPacket) returns (r: DataPacket)
      requires Valid()
      ensures Some(r) == Enciphered(crypto, streamKeys, activeSek, packet)
    {
      var data := Cipher(crypto, streamKeys, activeSek, packet.seqNumber, packet.payload);
      r := packet.(encryption := activeSek, payload := data.value);
    }

    method TrySchedulePreAnnouncement(freshKey: Key)
      requires Valid() && |freshKey| == settings.keySize.AsUsize()
      modifies this
      ensures var e := old(Value());
              Value() ==
              if e.untilPreAnnouncement != 0 then e
              else
                var keys := if e.last.None? then Commission(e.keys, e.active, freshKey) else e.keys;
                e.(untilPreAnnouncement := e.period, untilTransmit := 0, keys := keys,
                   last := if e.last.None? then Some(Wrapping(crypto, e.settings, keys)) else e.last)
    {
      hide Wrapping;
      if packetsUntilPreAnnouncement == 0 {
        packetsUntilPreAnnouncement := period;
        packetsUntilTransmit := 0;
        if lastKeyMaterial.None? {
          streamKeys := Commission(streamKeys, activeSek, freshKey);
          var km := WrapWith(crypto, settings, streamKeys);
          lastKeyMaterial := Some(km);
        }
      }
    }

    method TrySwitchStreamKeys()
      modifies this`packetsUntilKeySwitch, this`activeSek
      ensures packetsUntilKeySwitch == if old(packetsUntilKeySwitch) == 0 then period else old(packetsUntilKeySwitch)
      ensures activeSek == if old(packetsUntilKeySwitch) == 0 && lastKeyMaterial.None? then Flip(old(activeSek))
              else old(activeSek)
    {
      if packetsUntilKeySwitch == 0 {
        packetsUntilKeySwitch := period;
        if lastKeyMaterial.None? {
          activeSek := match activeSek case Even => Odd case Odd => Even case Clear => Clear;
        }
      }
    }

    method TrySendKeyMaterial() returns (km: Option<KeyingMaterial>)
      modifies this`packetsUntilTransmit
      ensures km == if old(packetsUntilTransmit) == 0 then lastKeyMaterial else None
      ensures packetsUntilTransmit ==
              if lastKeyMaterial.None? then old(packetsUntilTransmit)
              else if old(packetsUntilTransmit) == 0 then Min(preAnnouncement, 1_000)
              else old(packetsUntilTransmit) - 1
    {
      if lastKeyMaterial.None? { return None; }
      if packetsUntilTransmit == 0 {
        packetsUntilTransmit := if preAnnouncement < 1_000 then preAnnouncement else 1_000;
        return lastKeyMaterial;
      }
      packetsUntilTransmit := packetsUntilTransmit - 1;
      return None;
    }

    method HandleResponse(km: KeyingMaterial) returns (r: ResponseResult)
      requires Valid()
      modifies this`packetsUntilTransmit, this`lastKeyMaterial
      ensures Valid() && Value() == Confirm(old(Value()), km)
      ensures r == if old(lastKeyMaterial) == Some(km) then Confirmed
                   else if old(lastKeyMaterial).None? then NoKeys
                   else InvalidRefreshResponse
    {
      hide Wrapping;
      if lastKeyMaterial.None? { return NoKeys; }
      if lastKeyMaterial != Some(km) { return InvalidRefreshResponse; }
      packetsUntilTransmit := 0;
      lastKeyMaterial := None;
      return Confirmed;
    }
  }

  datatype ResponseResult = Confirmed | NoKeys | InvalidRefreshResponse

  // ---- Packets ----

  /** A packet enciphered with the key of a parity, if there is one. */
  function Enciphered(x: Crypto, k: StreamEncryptionKeys, sek: DataEncryption, p: DataPacket): Option<DataPacket>
    requires |k.salt| == 16
  {
    var data := Cipher(x, k, sek, p.seqNumber, p.payload);
    if data.None? then None else Some(p.(encryption := sek, payload := data.value))
  }

  datatype Decrypted =
    | Plain(bytes: nat, packet: DataPacket)
    | UnexpectedUnencryptedPacket(packet: DataPacket)
    | UnexpectedEncryptedPacket(packet: DataPacket)
    | DecryptionFailure

  /** What a receiver with these keys, or none, makes of a packet. */
  function Deciphered(x: Crypto, k: Option<StreamEncryptionKeys>, p: DataPacket): Decrypted
    requires k.Some? ==> |k.value.salt| == 16
  {
    match (p.encryption, k)
    case (Clear, None) => Plain(0, p)
    case (Clear, Some(_)) => UnexpectedUnencryptedPacket(p)
    case (_, None) => UnexpectedEncryptedPacket(p)
    case (sek, Some(keys)) =>
      match Cipher(x, keys, sek, p.seqNumber, p.payload)
      case None => DecryptionFailure
      case Some(data) => Plain(|p.payload|, p.(encryption := Clear, payload := data))
  }

  /** Whoever holds the same salt and key of a parity reads the packet as it was. */
  lemma {:induction false} PacketRoundTrip(
    x: Crypto, k: StreamEncryptionKeys, k': StreamEncryptionKeys, sek: DataEncryption, p: DataPacket)
    requires |k.salt| == 16 && k.salt == k'.salt && k.GetKey(sek) == k'.GetKey(sek) && k.GetKey(sek).Some?
    requires sek != Clear && p.encryption == Clear
    ensures Enciphered(x, k, sek, p).Some?
    ensures Deciphered(x, Some(k'), Enciphered(x, k, sek, p).value) == Plain(|p.payload|, p)
  {
    CipherTwice(x, k, k', sek, p.seqNumber, p.payload);
    hide StreamIv;
  }

  /** The sender's encryption, if the connection has any. */
  class Encryption {
    var state: EncryptionState?

    ghost predicate Valid()
      reads this, state
    {
      state != null ==> state.Valid()
    }

    constructor (state: EncryptionState?)
      requires state != null ==> state.Valid()
      ensures Valid() && this.state == state
    {
      this.state := state;
    }

    method Encrypt(packet: DataPacket, freshKey: Key) returns (bytes: nat, r: DataPacket, km: Option<KeyingMaterial>)
      requires Valid() && (state != null ==> |freshKey| == state.settings.keySize.AsUsize())
      modifies state
      ensures Valid()
      ensures state == null ==> (bytes, r, km) == (0, packet, None)
      ensures state != null ==>
                && Some(r) == Enciphered(state.crypto, old(state.streamKeys), old(state.activeSek), packet)
                && bytes == |packet.payload|
                && state.Value() == Turn(state.crypto, old(state.Value()), freshKey)
                && km == Sends(state.crypto, old(state.Value()), freshKey)
    {
      hide Wrapping, Cipher;
      if state == null { return 0, packet, None; }
      r := state.TryEncryptPacket(packet);
      km := state.Advance(freshKey);
      bytes := |packet.payload|;
    }

    /** An unencrypted connection takes any response. */
    method HandleKeyRefreshResponse(km: KeyingMaterial) returns (r: ResponseResult)
      requires Valid()
      modifies state
      ensures Valid()
      ensures state == null ==> r == Confirmed
      ensures state != null ==>
                && state.Value() == Confirm(old(state.Value()), km)
                && r == if old(state.lastKeyMaterial) == Some(km) then Confirmed
                        else if old(state.lastKeyMaterial).None? then NoKeys
                        else InvalidRefreshResponse
    {
      hide Wrapping;
      if state == null { return Confirmed; }
      r := state.HandleResponse(km);
    }
  }

  // ---- The receiver ----

  /** Stops where the source does. */
  datatype RefreshResult = Echo(km: KeyingMaterial) | NoKeysToRefresh | BadMaterial(error: UnwrapResult) | Stops

  class Decryption {
    const crypto: Crypto
    const settings: KeySettings
    var streamKeys: Option<StreamEncryptionKeys>

    constructor (crypto: Crypto, settings: KeySettings, keys: Option<StreamEncryptionKeys>)
      ensures this.crypto == crypto && this.settings == settings && streamKeys == keys
    {
      this.crypto, this.settings, streamKeys := crypto, settings, keys;
    }

    method Decrypt(packet: DataPacket) returns (r: Decrypted)
      requires streamKeys.Some? ==> |streamKeys.value.salt| == 16
      ensures r == Deciphered(crypto, streamKeys, packet)
    {
      hide Cipher;
      if packet.encryption == Clear {
        return if streamKeys.None? then Plain(0, packet) else UnexpectedUnencryptedPacket(packet);
      }
      if streamKeys.None? { return UnexpectedEncryptedPacket(packet); }
      var data := Cipher(crypto, streamKeys.value, packet.encryption, packet.seqNumber, packet.payload);
      if data.None? { return DecryptionFailure; }
      return Plain(|packet.payload|, packet.(encryption := Clear, payload := data.value));
    }

    method RefreshKeyMaterial(km: KeyingMaterial) returns (r: RefreshResult)
      requires crypto.Sound()
      modifies this`streamKeys
      ensures old(streamKeys).None? ==> streamKeys == None && r == NoKeysToRefresh
      ensures old(streamKeys).Some? ==> streamKeys == Some(Install(crypto, settings, old(streamKeys).value, km))
      ensures old(streamKeys).Some? ==>
                var u := Unwrapping(crypto, settings, km);
                r == if u.Keys? then Echo(km) else if u == Unreadable then Stops else BadMaterial(u)
      ensures r == Stops <==> old(streamKeys).Some? && !Readable(km)
    {
      hide Unwrapping;
      if streamKeys.None? { return NoKeysToRefresh; }
      var u := UnwrapFrom(crypto, settings, km);
      if u == Unreadable { return Stops; }
      if !u.Keys? { return BadMaterial(u); }
      streamKeys := Some(u.keys);
      return Echo(km);
    }
  }

  /** The receiver's keys after a request. */
  ghost function Install(x: Crypto, ks: KeySettings, k: StreamEncryptionKeys, km: KeyingMaterial): StreamEncryptionKeys
    requires x.Sound()
  {
    var u := Unwrapping(x, ks, km);
    if u.Keys? then u.keys else k
  }
}
