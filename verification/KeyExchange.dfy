/** Sender and receiver of a key refresh, joined by a channel that may lose key requests
    but keeps their order, and by one that may do anything to the responses. */
module KeyExchange {
  import opened Packets
  import opened StreamKeys
  import opened KeyRefresh

  /** `used` are all keys generated so far. */
  datatype Link = Link(
    enc: SenderKeys,
    requests: seq<KeyingMaterial>,
    dec: StreamEncryptionKeys,
    responses: set<KeyingMaterial>,
    used: set<Key>)

  datatype LinkStep =
    | EncryptPacket(freshKey: Key)
    | LoseRequest(i: nat)
    | DeliverRequest
    | DeliverResponse(km: KeyingMaterial)

  /** Both ends start from the keys of the handshake. */
  ghost predicate Opens(x: Crypto, l: Link) {
    && x.Sound()
    && ValidRefresh(l.enc.period, l.enc.preAnnouncement)
    && l.enc == Start(l.enc.settings, l.enc.period, l.enc.preAnnouncement, l.enc.keys)
    && l.enc.keys.Fit(l.enc.settings.keySize) && l.enc.keys.even.Some? && l.enc.keys.odd.Some?
    && l.dec == l.enc.keys && l.requests == [] && l.responses == {}
    && l.used == {l.enc.keys.even.value, l.enc.keys.odd.value}
  }

  /** A freshly generated key has never been used before. */
  ghost predicate CanStep(x: Crypto, l: Link, step: LinkStep) {
    match step
    case EncryptPacket(k) => |k| == l.enc.settings.keySize.AsUsize() && k !in l.used
    case LoseRequest(i) => i < |l.requests|
    case DeliverRequest => l.requests != []
    case DeliverResponse(km) => km in l.responses
  }

  ghost function Apply(x: Crypto, l: Link, step: LinkStep): Link
    requires EncInv(x, l.enc) && CanStep(x, l, step)
  {
    match step
    case EncryptPacket(k) =>
      var km := Sends(x, l.enc, k);
      l.(enc := Turn(x, l.enc, k), used := l.used + {k},
         requests := if km.Some? then l.requests + [km.value] else l.requests)
    case LoseRequest(i) => l.(requests := l.requests[..i] + l.requests[i + 1..])
    case DeliverRequest =>
      l.(requests := l.requests[1..],
         dec := Install(x, l.enc.settings, l.dec, l.requests[0]),
         responses := if Unwrapping(x, l.enc.settings, l.requests[0]).Keys? then l.responses + {l.requests[0]}
           else l.responses)
    case DeliverResponse(km) => l.(enc := Confirm(l.enc, km))
  }

  // ---- The invariant ----

  /** The material wraps `k`, whose keys were generated before. */
  ghost predicate Wraps(x: Crypto, l: Link, km: KeyingMaterial, k: StreamEncryptionKeys)
    requires x.Sound()
  {
    && k.Fit(l.enc.settings.keySize) && k.even.Some? && k.odd.Some?
    && k.even.value in l.used && k.odd.value in l.used
    && km == Wrapping(x, l.enc.settings, k)
  }

  /** A request in flight still carries the key in use. */
  ghost predicate CarriesActive(x: Crypto, l: Link, km: KeyingMaterial)
    requires x.Sound()
  {
    exists k :: Wraps(x, l, km, k) && k.salt == l.enc.keys.salt
      && k.GetKey(l.enc.active) == l.enc.keys.GetKey(l.enc.active)
  }

  ghost function Newest(x: Crypto, l: Link): KeyingMaterial
    requires EncInv(x, l.enc)
  {
    Wrapping(x, l.enc.settings, l.enc.keys)
  }

  /** The receiver holds exactly the sender's keys, and only repeats are in flight. */
  ghost predicate Synchronized(x: Crypto, l: Link)
    requires EncInv(x, l.enc)
  {
    l.dec == l.enc.keys && forall r | r in l.requests :: r == Newest(x, l)
  }

  ghost predicate Inv(x: Crypto, l: Link) {
    && EncInv(x, l.enc)
    && Wraps(x, l, Newest(x, l), l.enc.keys)
    && |l.dec.salt| == 16 && l.dec.salt == l.enc.keys.salt
    && l.dec.GetKey(l.enc.active) == l.enc.keys.GetKey(l.enc.active)
    && (forall r | r in l.requests :: CarriesActive(x, l, r))
    && (forall r | r in l.responses :: exists k :: Wraps(x, l, r, k))
    && (forall i, j | 0 <= i < j < |l.requests| :: l.requests[i] == Newest(x, l) ==> l.requests[j] == Newest(x, l))
    && (l.enc.last.None? || Newest(x, l) in l.responses ==> Synchronized(x, l))
  }

  lemma {:induction false} OpensSafe(x: Crypto, l: Link)
    requires Opens(x, l)
    ensures Inv(x, l)
  {
    hide Wrapping;
  }

  /** New material differs from everything sent before. */
  lemma {:induction false} FreshIsNew(
    x: Crypto, l: Link, k: Key, keys: StreamEncryptionKeys, km: KeyingMaterial, keys': StreamEncryptionKeys)
    requires x.Sound() && k !in l.used && Wraps(x, l, km, keys')
    requires keys.Fit(l.enc.settings.keySize) && (keys.even == Some(k) || keys.odd == Some(k))
    ensures km != Wrapping(x, l.enc.settings, keys)
  {
    WrappingInjective(x, l.enc.settings, keys', keys);
    hide Wrapping;
  }

  lemma {:induction false} ReadsBack(x: Crypto, l: Link, km: KeyingMaterial, k: StreamEncryptionKeys)
    requires x.Sound() && Wraps(x, l, km, k)
    ensures Readable(km) && Unwrapping(x, l.enc.settings, km) == Keys(k)
  {
    assert Readable(km);
    UnwrapsToWrapped(x, l.enc.settings, k, km);
  }

  /** Keys generated so far only grow, so what wrapped used keys still does. */
  lemma {:induction false} WrapsStays(x: Crypto, l: Link, l': Link, km: KeyingMaterial, k: StreamEncryptionKeys)
    requires x.Sound() && Wraps(x, l, km, k) && l.used <= l'.used && l'.enc.settings == l.enc.settings
    ensures Wraps(x, l', km, k)
  {
  }

  lemma {:induction false} CarriesStays(x: Crypto, l: Link, l': Link, km: KeyingMaterial)
    requires x.Sound() && CarriesActive(x, l, km) && l.used <= l'.used && l'.enc.settings == l.enc.settings
    requires l'.enc.keys.salt == l.enc.keys.salt && l'.enc.active == l.enc.active
    requires l'.enc.keys.GetKey(l.enc.active) == l.enc.keys.GetKey(l.enc.active)
    ensures CarriesActive(x, l', km)
  {
    hide Wrapping;
    var k :| Wraps(x, l, km, k) && k.salt == l.enc.keys.salt
        && k.GetKey(l.enc.active) == l.enc.keys.GetKey(l.enc.active);
    WrapsStays(x, l, l', km, k);
  }

  /** A packet that announces a new key. */
  lemma {:induction false} AnnounceSafe(x: Crypto, l: Link, freshKey: Key)
    requires Inv(x, l) && CanStep(x, l, EncryptPacket(freshKey)) && Announces(l.enc)
    ensures Inv(x, Apply(x, l, EncryptPacket(freshKey)))
  {
    hide Wrapping;
    var l' := Apply(x, l, EncryptPacket(freshKey));
    TurnSafe(x, l.enc, freshKey);
    forall r | r in l.requests ensures CarriesActive(x, l', r) && r != Newest(x, l') {
      CarriesStays(x, l, l', r);
      FreshIsNew(x, l, freshKey, l'.enc.keys, r, l.enc.keys);
    }
    assert Wraps(x, l', Newest(x, l'), l'.enc.keys);
    assert CarriesActive(x, l', Newest(x, l'));
    forall r | r in l.responses ensures (exists k :: Wraps(x, l', r, k)) && r != Newest(x, l') {
      var k :| Wraps(x, l, r, k);
      WrapsStays(x, l, l', r, k);
      FreshIsNew(x, l, freshKey, l'.enc.keys, r, k);
    }
  }

  /** A packet that does not: it may switch to the announced key or repeat it. */
  lemma {:induction false} ContinueSafe(x: Crypto, l: Link, freshKey: Key)
    requires Inv(x, l) && CanStep(x, l, EncryptPacket(freshKey)) && !Announces(l.enc)
    ensures Inv(x, Apply(x, l, EncryptPacket(freshKey)))
  {
    hide Wrapping;
    var l' := Apply(x, l, EncryptPacket(freshKey));
    TurnSafe(x, l.enc, freshKey);
    WrapsStays(x, l, l', Newest(x, l), l.enc.keys);
    assert CarriesActive(x, l', Newest(x, l'));
    forall r | r in l.requests ensures CarriesActive(x, l', r) {
      if !Switches(l.enc) { CarriesStays(x, l, l', r); }
    }
    forall r | r in l.responses ensures exists k :: Wraps(x, l', r, k) {
      var k :| Wraps(x, l, r, k);
      WrapsStays(x, l, l', r, k);
    }
  }

  lemma {:induction false} LoseSafe(x: Crypto, l: Link, i: nat)
    requires Inv(x, l) && i < |l.requests|
    ensures Inv(x, Apply(x, l, LoseRequest(i)))
  {
    hide Wrapping;
    var l' := Apply(x, l, LoseRequest(i));
    forall r | r in l'.requests ensures r in l.requests {}
    forall r | r in l.requests ensures CarriesActive(x, l', r) { CarriesStays(x, l, l', r); }
    forall r | r in l.responses ensures exists k :: Wraps(x, l', r, k) {
      var k :| Wraps(x, l, r, k);
      WrapsStays(x, l, l', r, k);
    }
  }

  lemma {:induction false} DeliverSafe(x: Crypto, l: Link)
    requires Inv(x, l) && l.requests != []
    ensures Readable(l.requests[0]) && Inv(x, Apply(x, l, DeliverRequest))
  {
    hide Wrapping, Unwrapping;
    var r0 := l.requests[0];
    assert r0 in l.requests && CarriesActive(x, l, r0);
    var k0 :| Wraps(x, l, r0, k0) && k0.salt == l.enc.keys.salt
        && k0.GetKey(l.enc.active) == l.enc.keys.GetKey(l.enc.active);
    ReadsBack(x, l, r0, k0);
    var l' := Apply(x, l, DeliverRequest);
    assert l'.dec == k0;
    forall r | r in l'.requests ensures CarriesActive(x, l', r) {
      assert r in l.requests;
      CarriesStays(x, l, l', r);
    }
    WrapsStays(x, l, l', r0, k0);
    forall r | r in l.responses ensures exists k :: Wraps(x, l', r, k) {
      var k :| Wraps(x, l, r, k);
      WrapsStays(x, l, l', r, k);
    }
    if r0 == Newest(x, l) {
      ReadsBack(x, l, r0, l.enc.keys);
    }
  }

  lemma {:induction false} ConfirmSafe(x: Crypto, l: Link, km: KeyingMaterial)
    requires Inv(x, l) && km in l.responses
    ensures Inv(x, l.(enc := Confirm(l.enc, km)))
  {
    hide Wrapping;
    var l' := l.(enc := Confirm(l.enc, km));
    forall r | r in l.requests ensures CarriesActive(x, l', r) { CarriesStays(x, l, l', r); }
    forall r | r in l.responses ensures exists k :: Wraps(x, l', r, k) {
      var k :| Wraps(x, l, r, k);
      WrapsStays(x, l, l', r, k);
    }
  }

  lemma {:induction false} StepSafe(x: Crypto, l: Link, step: LinkStep)
    requires Inv(x, l) && CanStep(x, l, step)
    ensures step.DeliverRequest? ==> Readable(l.requests[0])
    ensures Inv(x, Apply(x, l, step))
  {
    match step {
      case EncryptPacket(k) => if Announces(l.enc) { AnnounceSafe(x, l, k); } else { ContinueSafe(x, l, k); }
      case LoseRequest(i) => LoseSafe(x, l, i);
      case DeliverRequest => DeliverSafe(x, l);
      case DeliverResponse(km) => ConfirmSafe(x, l, km);
    }
  }

  // ---- Runs ----

  /** The state after the steps, if each of them can be taken. */
  ghost function Execute(x: Crypto, l: Link, steps: seq<LinkStep>): Option<Link> {
    if steps == [] then Some(l)
    else
      var before := Execute(x, l, steps[..|steps| - 1]);
      var step := steps[|steps| - 1];
      if before.Some? && CanTake(x, before.value, step) then Some(Apply(x, before.value, step)) else None
  }

  ghost predicate CanTake(x: Crypto, l: Link, step: LinkStep) {
    EncInv(x, l.enc) && CanStep(x, l, step)
  }

  /** Every state of a run satisfies the invariant, and a request that arrives can always
      be read. */
  lemma {:induction false} RunSafe(x: Crypto, l: Link, steps: seq<LinkStep>)
    requires Inv(x, l)
    ensures var r := Execute(x, l, steps);
            r.Some? ==> Inv(x, r.value) && forall step :: CanStep(x, r.value, step) ==> CanTake(x, r.value, step)
  {
    hide Inv, Apply, CanStep, Wrapping;
    if steps != [] {
      var before := Execute(x, l, steps[..|steps| - 1]);
      RunSafe(x, l, steps[..|steps| - 1]);
      if before.Some? && CanStep(x, before.value, steps[|steps| - 1]) {
        StepSafe(x, before.value, steps[|steps| - 1]);
      }
    }
    var r := Execute(x, l, steps);
    if r.Some? {
      TakesAll(x, r.value);
    }
  }

  lemma {:induction false} TakesAll(x: Crypto, l: Link)
    requires Inv(x, l)
    ensures forall step :: CanStep(x, l, step) ==> CanTake(x, l, step)
  {
    hide Wrapping, Unwrapping;
    if l.requests != [] {
      DeliverSafe(x, l);
    }
  }

  /** Whatever requests were lost and whatever became of the responses, a packet the
      sender enciphers now is deciphered by the receiver to what it was. */
  lemma {:induction false} NewPacketsAreReadable(x: Crypto, l: Link, steps: seq<LinkStep>, p: DataPacket)
    requires Opens(x, l) && Execute(x, l, steps).Some? && p.encryption == Clear
    ensures var now := Execute(x, l, steps).value;
            && |now.enc.keys.salt| == 16 && |now.dec.salt| == 16
            && var sent := Enciphered(x, now.enc.keys, now.enc.active, p);
               sent.Some? && Deciphered(x, Some(now.dec), sent.value) == Plain(|p.payload|, p)
  {
    OpensSafe(x, l);
    RunSafe(x, l, steps);
    hide Wrapping, Execute, CanStep, CanTake;
    var now := Execute(x, l, steps).value;
    PacketRoundTrip(x, now.enc.keys, now.dec, now.enc.active, p);
  }

  /** The sender changes parity only while the receiver holds exactly its keys. */
  lemma {:induction false} SwitchOnlyWhenConfirmed(x: Crypto, l: Link, steps: seq<LinkStep>, freshKey: Key)
    requires Opens(x, l) && Execute(x, l, steps).Some?
    requires var now := Execute(x, l, steps).value;
             EncInv(x, now.enc) && |freshKey| == now.enc.settings.keySize.AsUsize()
    ensures var now := Execute(x, l, steps).value;
            Turn(x, now.enc, freshKey).active != now.enc.active ==> now.enc.last.None? && now.dec == now.enc.keys
  {
    OpensSafe(x, l);
    RunSafe(x, l, steps);
    hide Wrapping, Execute, CanStep, CanTake;
  }

  // ---- How long a retired key is kept ----

  function PacketCount(steps: seq<LinkStep>): nat {
    if steps == [] then 0
    else PacketCount(steps[..|steps| - 1]) + if steps[|steps| - 1].EncryptPacket? then 1 else 0
  }

  lemma {:induction false} KeysStay(x: Crypto, l: Link, steps: seq<LinkStep>)
    requires Inv(x, l) && Execute(x, l, steps).Some? && PacketCount(steps) <= l.enc.untilPreAnnouncement
    ensures var now := Execute(x, l, steps).value;
            && now.enc.keys == l.enc.keys
               && now.enc.untilPreAnnouncement == l.enc.untilPreAnnouncement - PacketCount(steps)
            && (l.enc.last.None? ==> now.enc.last.None?)
  {
    hide Wrapping, Unwrapping, Inv;
    if steps != [] {
      KeysStay(x, l, steps[..|steps| - 1]);
    }
  }

  /** After a switch the retired key stays in its slot while at least `period -
      preAnnouncement` further packets are enciphered: none of the next
      `period - preAnnouncement - 1` packets touches the keys, and the one after them is
      enciphered before it does. */
  lemma {:induction false} RetiredKeyIsKept(x: Crypto, l: Link, freshKey: Key, more: seq<LinkStep>)
    requires Inv(x, l) && Switches(l.enc) && CanStep(x, l, EncryptPacket(freshKey))
    requires var after := Apply(x, l, EncryptPacket(freshKey));
             Execute(x, after, more).Some? && PacketCount(more) <= l.enc.period - l.enc.preAnnouncement - 1
    ensures var after := Apply(x, l, EncryptPacket(freshKey));
            && after.enc.active == Flip(l.enc.active)
            && Execute(x, after, more).value.enc.keys.GetKey(l.enc.active) == l.enc.keys.GetKey(l.enc.active)
  {
    StepSafe(x, l, EncryptPacket(freshKey));
    hide Wrapping, Execute;
    var after := Apply(x, l, EncryptPacket(freshKey));
    KeysStay(x, after, more);
  }

  /** And for as long the receiver holds the same keys. */
  lemma {:induction false} ReceiverKeepsRetiredKey(x: Crypto, l: Link, freshKey: Key, more: seq<LinkStep>)
    requires Inv(x, l) && Switches(l.enc) && CanStep(x, l, EncryptPacket(freshKey))
    requires var after := Apply(x, l, EncryptPacket(freshKey));
             Execute(x, after, more).Some? && PacketCount(more) <= l.enc.period - l.enc.preAnnouncement - 1
    ensures Execute(x, Apply(x, l, EncryptPacket(freshKey)), more).value.dec == l.enc.keys
  {
    StepSafe(x, l, EncryptPacket(freshKey));
    var after := Apply(x, l, EncryptPacket(freshKey));
    assert after.enc.keys == l.enc.keys && after.enc.last.None?;
    KeysStay(x, after, more);
    hide Wrapping, Execute, CanStep, CanTake, Apply;
    RunSafe(x, after, more);
    var now := Execute(x, after, more).value;
    assert Synchronized(x, now);
  }

  /** So a packet enciphered with the retired key is still deciphered to what it was, however
      late it arrives within those packets. */
  lemma {:induction false} OldPacketsStayReadable(x: Crypto, l: Link, freshKey: Key, more: seq<LinkStep>, p: DataPacket)
    requires Inv(x, l) && Switches(l.enc) && CanStep(x, l, EncryptPacket(freshKey)) && p.encryption == Clear
    requires var after := Apply(x, l, EncryptPacket(freshKey));
             Execute(x, after, more).Some? && PacketCount(more) <= l.enc.period - l.enc.preAnnouncement - 1
    ensures var now := Execute(x, Apply(x, l, EncryptPacket(freshKey)), more).value;
            && |l.enc.keys.salt| == 16 && |now.dec.salt| == 16
            && var sent := Enciphered(x, l.enc.keys, l.enc.active, p);
               sent.Some? && Deciphered(x, Some(now.dec), sent.value) == Plain(|p.payload|, p)
  {
    ReceiverKeepsRetiredKey(x, l, freshKey, more);
    assert l.enc.keys.GetKey(l.enc.active).Some? && l.enc.active != Clear && |l.enc.keys.salt| == 16;
    hide *;
    PacketRoundTrip(x, l.enc.keys, l.enc.keys, l.enc.active, p);
  }

  // ---- Why requests must keep their order ----

  /** Whether the last step of a run announces a key for the slot. */
  ghost predicate AnnouncesFor(x: Crypto, l: Link, steps: seq<LinkStep>, sek: DataEncryption)
    requires steps != []
  {
    var before := Execute(x, l, steps[..|steps| - 1]);
    && before.Some? && steps[|steps| - 1].EncryptPacket?
    && Announces(before.value.enc) && Flip(before.value.enc.active) == sek
  }

  ghost predicate Announcing(x: Crypto, l: Link, steps: seq<LinkStep>)
    requires steps != []
  {
    AnnouncesFor(x, l, steps, Even) || AnnouncesFor(x, l, steps, Odd)
  }

  /** The keys of the handshake and of every announcement of a run, in order. */
  ghost function Announced(x: Crypto, l: Link, steps: seq<LinkStep>): (h: seq<StreamEncryptionKeys>)
    ensures h != []
  {
    if steps == [] then [l.enc.keys]
    else
      var before := Announced(x, l, steps[..|steps| - 1]);
      var now := Execute(x, l, steps);
      if Announcing(x, l, steps) && now.Some? then before + [now.value.enc.keys] else before
  }

  /** Which announcement brought the key that is in the slot now; 0 is the handshake. */
  ghost function Since(x: Crypto, l: Link, steps: seq<LinkStep>, sek: DataEncryption): nat {
    if steps == [] then 0
    else if AnnouncesFor(x, l, steps, sek) then |Announced(x, l, steps[..|steps| - 1])|
    else Since(x, l, steps[..|steps| - 1], sek)
  }

  /** Keys of an announcement: complete, generated before, with the salt of the handshake. */
  ghost predicate OfRun(l: Link, k: StreamEncryptionKeys) {
    && k.Fit(l.enc.settings.keySize) && k.even.Some? && k.odd.Some? && k.salt == l.enc.keys.salt
    && k.even.value in l.used && k.odd.value in l.used
  }

  ghost predicate Dated(l: Link, h: seq<StreamEncryptionKeys>, sek: DataEncryption, since: nat) {
    since < |h| && forall a | 0 <= a < |h| :: h[a].GetKey(sek) == l.enc.keys.GetKey(sek) <==> since <= a
  }

  ghost predicate Historic(l: Link, h: seq<StreamEncryptionKeys>) {
    h != [] && h[|h| - 1] == l.enc.keys && forall a | 0 <= a < |h| :: OfRun(l, h[a])
  }

  /** What a step does to the sender's keys: nothing, or a new key for the slot not in use. */
  lemma {:induction false} StepKeys(x: Crypto, l: Link, step: LinkStep)
    requires Inv(x, l) && CanTake(x, l, step)
    ensures var l' := Apply(x, l, step);
            && l'.enc.settings == l.enc.settings && l.used <= l'.used && l.enc.active != Clear && OfRun(l', l'.enc.keys)
            && (if step.EncryptPacket? && Announces(l.enc)
                then l'.enc.keys == Commission(l.enc.keys, l.enc.active, step.freshKey) && step.freshKey !in l.used
                else l'.enc.keys == l.enc.keys)
  {
    if step.EncryptPacket? { TurnSafe(x, l.enc, step.freshKey); }
    hide Wrapping, Unwrapping, CarriesActive, Synchronized, InStep;
  }

  lemma {:induction false} OfRunStays(l: Link, l': Link, h: seq<StreamEncryptionKeys>)
    requires forall a | 0 <= a < |h| :: OfRun(l, h[a])
    requires l'.enc.settings == l.enc.settings && l.used <= l'.used && l'.enc.keys.salt == l.enc.keys.salt
    ensures forall a | 0 <= a < |h| :: OfRun(l', h[a])
  {
    forall a | 0 <= a < |h| ensures OfRun(l', h[a]) { assert OfRun(l, h[a]); }
  }

  lemma {:induction false} AnnouncementDates(
    l: Link, l': Link, k: Key, h: seq<StreamEncryptionKeys>, sek: DataEncryption, since: nat)
    requires Historic(l, h) && Dated(l, h, sek, since) && sek != Clear && l.enc.active != Clear
    requires l'.enc.keys == Commission(l.enc.keys, l.enc.active, k) && k !in l.used
    ensures Dated(l', h + [l'.enc.keys], sek, if Flip(l.enc.active) == sek then |h| else since)
  {
    forall a | 0 <= a < |h| ensures h[a].GetKey(sek) != Some(k) { assert OfRun(l, h[a]); }
    hide Historic, OfRun;
  }

  lemma {:induction false} HistoryStep(
    x: Crypto, l: Link, step: LinkStep, h: seq<StreamEncryptionKeys>, sek: DataEncryption, since: nat)
    requires Inv(x, l) && CanTake(x, l, step) && sek != Clear && Historic(l, h) && Dated(l, h, sek, since)
    ensures var l' := Apply(x, l, step);
            var announces := step.EncryptPacket? && Announces(l.enc);
            var h' := if announces then h + [l'.enc.keys] else h;
            Historic(l', h') && Dated(l', h', sek, if announces && Flip(l.enc.active) == sek then |h| else since)
  {
    StepKeys(x, l, step);
    hide Inv, Apply, CanTake, OfRun, Dated, Historic, Announces;
    var l' := Apply(x, l, step);
    if step.EncryptPacket? && Announces(l.enc) {
      AnnouncementDates(l, l', step.freshKey, h, sek, since);
      HistoryGrows(l, l', h);
    } else {
      HistorySame(l, l', h, sek, since);
    }
  }

  lemma {:induction false} HistoryGrows(l: Link, l': Link, h: seq<StreamEncryptionKeys>)
    requires Historic(l, h) && OfRun(l', l'.enc.keys)
    requires l'.enc.settings == l.enc.settings && l.used <= l'.used && l'.enc.keys.salt == l.enc.keys.salt
    ensures Historic(l', h + [l'.enc.keys])
  {
    hide OfRun;
    OfRunStays(l, l', h);
  }

  lemma {:induction false} HistorySame(l: Link, l': Link, h: seq<StreamEncryptionKeys>, sek: DataEncryption, since: nat)
    requires Historic(l, h) && Dated(l, h, sek, since)
    requires l'.enc.settings == l.enc.settings && l.used <= l'.used && l'.enc.keys == l.enc.keys
    ensures Historic(l', h) && Dated(l', h, sek, since)
  {
    hide OfRun;
    OfRunStays(l, l', h);
  }

  lemma {:induction false} AnnouncedNext(x: Crypto, l: Link, steps: seq<LinkStep>, step: LinkStep, sek: DataEncryption)
    requires Execute(x, l, steps).Some? && Execute(x, l, steps + [step]).Some?
    requires Execute(x, l, steps).value.enc.active != Clear
    ensures var before, now := Execute(x, l, steps).value, Execute(x, l, steps + [step]).value;
            var h := Announced(x, l, steps);
            var announces := step.EncryptPacket? && Announces(before.enc);
            && CanTake(x, before, step) && now == Apply(x, before, step)
            && Announced(x, l, steps + [step]) == (if announces then h + [now.enc.keys] else h)
            && Since(x, l, steps + [step], sek) == if announces && Flip(before.enc.active) == sek then |h|
               else Since(x, l, steps, sek)
  {
    hide Apply, CanTake, Announces;
    assert (steps + [step])[..|steps|] == steps && (steps + [step])[|steps|] == step;
  }

  lemma {:induction false} HistoryHolds(x: Crypto, l: Link, steps: seq<LinkStep>, sek: DataEncryption)
    requires Opens(x, l) && Execute(x, l, steps).Some? && sek != Clear
    ensures var now := Execute(x, l, steps).value;
            Inv(x, now) && Historic(now, Announced(x, l, steps))
              && Dated(now, Announced(x, l, steps), sek, Since(x, l, steps, sek))
  {
    if steps == [] {
      OpensSafe(x, l);
    } else {
      var all, step := steps[..|steps| - 1], steps[|steps| - 1];
      assert steps == all + [step];
      HistoryHolds(x, l, all, sek);
      var before := Execute(x, l, all).value;
      assert before.enc.active != Clear;
      hide Inv, Apply, CanTake, Historic, Dated, Opens, Announced, Since, Announces;
      AnnouncedNext(x, l, all, step, sek);
      HistoryStep(x, before, step, Announced(x, l, all), sek, Since(x, l, all, sek));
      StepTaken(x, before, step);
    }
  }

  lemma {:induction false} StepTaken(x: Crypto, l: Link, step: LinkStep)
    requires Inv(x, l) && CanTake(x, l, step)
    ensures Inv(x, Apply(x, l, step))
  {
    hide Inv, Apply;
    StepSafe(x, l, step);
  }

  /** A request that arrives now, whenever it was sent, leaves the two ends agreed exactly
      when it was announced no earlier than the key in use. */
  lemma {:induction false} RequestAgrees(x: Crypto, l: Link, steps: seq<LinkStep>, a: nat)
    requires Opens(x, l) && Execute(x, l, steps).Some? && a < |Announced(x, l, steps)|
    ensures var now := Execute(x, l, steps).value;
            var keys := Announced(x, l, steps)[a];
            && keys.Fit(now.enc.settings.keySize)
            && var km := Wrapping(x, now.enc.settings, keys);
               && Readable(km)
               && var keys := Install(x, now.enc.settings, now.dec, km);
                  (keys.GetKey(now.enc.active) == now.enc.keys.GetKey(now.enc.active)
                   <==> Since(x, l, steps, now.enc.active) <= a)
  {
    var now := Execute(x, l, steps).value;
    OpensSafe(x, l);
    RunSafe(x, l, steps);
    HistoryHolds(x, l, steps, now.enc.active);
    var keys := Announced(x, l, steps)[a];
    assert OfRun(now, keys);
    ReadsBack(x, now, Wrapping(x, now.enc.settings, keys), keys);
    hide Wrapping, Unwrapping, Announced, Since, Execute, Inv;
  }

  // ---- A run that reordering breaks ----

  /** The sender stands at this point of a refresh with period 2, announced 1 ahead. */
  ghost predicate At(
    e: SenderKeys, keys: StreamEncryptionKeys, active: DataEncryption, pre: nat, switch: nat, transmit: nat,
      last: Option<KeyingMaterial>)
  {
    && e.period == 2 && e.preAnnouncement == 1 && e.keys == keys && e.active == active
    && e.untilPreAnnouncement == pre && e.untilSwitch == switch && e.untilTransmit == transmit && e.last == last
  }

  lemma {:induction false} Then(x: Crypto, l: Link, steps: seq<LinkStep>, step: LinkStep)
    requires Execute(x, l, steps).Some? && CanTake(x, Execute(x, l, steps).value, step)
    ensures Execute(x, l, steps + [step]) == Some(Apply(x, Execute(x, l, steps).value, step))
  {
    hide Apply, CanTake;
    assert (steps + [step])[..|steps|] == steps;
  }

  /** One packet, from any point. */
  lemma {:induction false} PacketFrom(x: Crypto, l: Link, k: Key)
    requires EncInv(x, l.enc) && l.enc.period == 2 && l.enc.preAnnouncement == 1
    requires |k| == l.enc.settings.keySize.AsUsize() && k !in l.used
    ensures CanTake(x, l, EncryptPacket(k))
    ensures var l', e := Apply(x, l, EncryptPacket(k)), l.enc;
            var keys := if Announces(e) then Commission(e.keys, e.active, k) else e.keys;
            var last := if Announces(e) then Some(Wrapping(x, e.settings, keys)) else e.last;
            var wait := if e.untilPreAnnouncement == 0 then 0 else e.untilTransmit;
            && EncInv(x, l'.enc) && l'.enc.settings == e.settings
            && At(l'.enc, keys, if Switches(e) then Flip(e.active) else e.active,
                  if e.untilPreAnnouncement == 0 then 1 else e.untilPreAnnouncement - 1,
                  if e.untilSwitch == 0 then 1 else e.untilSwitch - 1,
                  if last.None? then wait else if wait == 0 then 1 else wait - 1,
                  last)
            && l' == l.(enc := l'.enc, used := l.used + {k},
                        requests := if wait == 0 && last.Some? then l.requests + [last.value] else l.requests)
  {
    TurnSafe(x, l.enc, k);
    hide Wrapping;
  }

  /** A request or a response arrives. */
  lemma {:induction false} RequestArrives(x: Crypto, l: Link, keys: StreamEncryptionKeys)
    requires EncInv(x, l.enc) && keys.Fit(l.enc.settings.keySize) && l.requests != []
    requires l.requests[0] == Wrapping(x, l.enc.settings, keys)
    ensures Readable(l.requests[0]) && CanTake(x, l, DeliverRequest)
    ensures Apply(x, l, DeliverRequest) ==
            l.(requests := l.requests[1..], dec := keys, responses := l.responses + {l.requests[0]})
  {
    hide Unwrapping, EncInv;
    assert x.Sound() by { SoundOf(x, l.enc); }
    assert Readable(l.requests[0]);
    hide Wrapping;
    UnwrapsToWrapped(x, l.enc.settings, keys, l.requests[0]);
  }

  lemma {:induction false} SoundOf(x: Crypto, e: SenderKeys)
    requires EncInv(x, e)
    ensures x.Sound()
  {
  }

  lemma {:induction false} ResponseArrives(x: Crypto, l: Link, km: KeyingMaterial)
    requires EncInv(x, l.enc) && km in l.responses && l.enc.last == Some(km)
    ensures CanTake(x, l, DeliverResponse(km))
    ensures Apply(x, l, DeliverResponse(km)) == l.(enc := l.enc.(last := None, untilTransmit := 0))
    ensures EncInv(x, l.enc.(last := None, untilTransmit := 0))
  {
    hide Wrapping;
  }

  /** Keys that were never generated before. */
  ghost predicate NewKeys(l: Link, k: seq<Key>) {
    && (forall i | 0 <= i < |k| :: |k[i]| == l.enc.settings.keySize.AsUsize() && k[i] !in l.used)
    && (forall i, j | 0 <= i < j < |k| :: k[i] != k[j])
  }

  lemma {:induction false} Unmoved(x: Crypto, l: Link)
    ensures Execute(x, l, []) == Some(l)
  {
  }

  /** Four packets announce a key and repeat the announcement. */
  lemma {:induction false} Announcing4(x: Crypto, l: Link, k: seq<Key>) returns (steps: seq<LinkStep>, l': Link)
    requires EncInv(x, l.enc) && At(l.enc, l.enc.keys, Even, 1, 2, 0, None)
    requires NewKeys(l, k) && |k| == 7 && l.requests == []
    ensures Execute(x, l, steps) == Some(l') && EncInv(x, l'.enc) && l'.enc.settings == l.enc.settings
    ensures var keys := l.enc.keys.(odd := Some(k[1]));
            && keys.Fit(l.enc.settings.keySize)
            && var km := Wrapping(x, l.enc.settings, keys);
               && At(l'.enc, keys, Even, 1, 0, 1, Some(km))
               && l' == l.(enc := l'.enc, requests := [km, km], used := l.used + {k[0]} + {k[1]} + {k[2]} + {k[3]})
  {
    hide Wrapping, Execute, Apply, CanTake, EncInv;
    Unmoved(x, l);
    var e0, e1, e2, e3 := EncryptPacket(k[0]), EncryptPacket(k[1]), EncryptPacket(k[2]), EncryptPacket(k[3]);
    PacketFrom(x, l, k[0]);
    Then(x, l, [], e0);
    var l1 := Apply(x, l, e0);
    PacketFrom(x, l1, k[1]);
    Then(x, l, [] + [e0], e1);
    var l2 := Apply(x, l1, e1);
    PacketFrom(x, l2, k[2]);
    Then(x, l, [] + [e0] + [e1], e2);
    var l3 := Apply(x, l2, e2);
    PacketFrom(x, l3, k[3]);
    Then(x, l, [] + [e0] + [e1] + [e2], e3);
    steps, l' := [] + [e0] + [e1] + [e2] + [e3], Apply(x, l3, e3);
    KeysFit(x, l2.enc);
  }

  lemma {:induction false} KeysFit(x: Crypto, e: SenderKeys)
    requires EncInv(x, e)
    ensures e.keys.Fit(e.settings.keySize) && e.keys.even.Some? && e.keys.odd.Some?
  {
    hide Wrapping;
  }

  /** The first copy is confirmed, the sender switches and announces the next key: the
      second copy and the new request are on their way. */
  lemma {:induction false} SecondAnnouncement(
    x: Crypto, l: Link, l': Link, steps: seq<LinkStep>, k: seq<Key>, keys: StreamEncryptionKeys)
    returns (more: seq<LinkStep>, at: Link)
    requires Execute(x, l, steps) == Some(l') && EncInv(x, l'.enc) && |k| == 7 && keys.Fit(l'.enc.settings.keySize)
    requires |k[4]| == |k[5]| == l'.enc.settings.keySize.AsUsize()
    requires k[4] !in l'.used && k[5] !in l'.used && k[4] != k[5]
    requires var km := Wrapping(x, l'.enc.settings, keys);
             At(l'.enc, keys, Even, 1, 0, 1, Some(km)) && l'.requests == [km, km]
    ensures Execute(x, l, more) == Some(at) && EncInv(x, at.enc) && at.enc.settings == l'.enc.settings
    ensures var newest := keys.(even := Some(k[5]));
            && newest.Fit(at.enc.settings.keySize)
            && var km, km' := Wrapping(x, at.enc.settings, keys), Wrapping(x, at.enc.settings, newest);
               At(at.enc, newest, Odd, 1, 0, 1, Some(km')) && at.requests == [km, km']
                 && at.used == l'.used + {k[4]} + {k[5]}
  {
    hide Wrapping, Execute, Apply, CanTake, EncInv;
    var km := l'.requests[0];
    assert [km, km][1..] == [km];
    RequestArrives(x, l', keys);
    Then(x, l, steps, DeliverRequest);
    var l1 := Apply(x, l', DeliverRequest);
    ResponseArrives(x, l1, km);
    Then(x, l, steps + [DeliverRequest], DeliverResponse(km));
    var l2 := Apply(x, l1, DeliverResponse(km));
    PacketFrom(x, l2, k[4]);
    var e4, e5 := EncryptPacket(k[4]), EncryptPacket(k[5]);
    Then(x, l, steps + [DeliverRequest] + [DeliverResponse(km)], e4);
    var l3 := Apply(x, l2, e4);
    PacketFrom(x, l3, k[5]);
    Then(x, l, steps + [DeliverRequest] + [DeliverResponse(km)] + [e4], e5);
    more, at := steps + [DeliverRequest] + [DeliverResponse(km)] + [e4] + [e5], Apply(x, l3, e5);
    KeysFit(x, at.enc);
  }

  /** If the two requests now change places, the late copy undoes the new key after it was
      confirmed, and the next switch leaves the two ends with different keys. */
  lemma {:induction false} LateCopyBreaks(
    x: Crypto, at: Link, k: Key, keys: StreamEncryptionKeys, newest: StreamEncryptionKeys)
    returns (steps: seq<LinkStep>)
    requires EncInv(x, at.enc) && keys.Fit(at.enc.settings.keySize) && newest.Fit(at.enc.settings.keySize)
    requires |k| == at.enc.settings.keySize.AsUsize() && k !in at.used && keys.even != newest.even
    requires var km, km' := Wrapping(x, at.enc.settings, keys), Wrapping(x, at.enc.settings, newest);
             At(at.enc, newest, Odd, 1, 0, 1, Some(km')) && at.requests == [km', km]
    ensures Execute(x, at, steps).Some?
    ensures var end := Execute(x, at, steps).value;
            end.dec.GetKey(end.enc.active) != end.enc.keys.GetKey(end.enc.active)
  {
    hide Wrapping, Execute, Apply, CanTake, EncInv;
    var km, km' := at.requests[1], at.requests[0];
    assert [km', km][1..] == [km] && [km][1..] == [];
    Unmoved(x, at);
    RequestArrives(x, at, newest);
    Then(x, at, [], DeliverRequest);
    var l1 := Apply(x, at, DeliverRequest);
    ResponseArrives(x, l1, km');
    Then(x, at, [] + [DeliverRequest], DeliverResponse(km'));
    var l2 := Apply(x, l1, DeliverResponse(km'));
    RequestArrives(x, l2, keys);
    Then(x, at, [] + [DeliverRequest] + [DeliverResponse(km')], DeliverRequest);
    var l3 := Apply(x, l2, DeliverRequest);
    PacketFrom(x, l3, k);
    Then(x, at, [] + [DeliverRequest] + [DeliverResponse(km')] + [DeliverRequest], EncryptPacket(k));
    steps := [] + [DeliverRequest] + [DeliverResponse(km')] + [DeliverRequest] + [EncryptPacket(k)];
  }

  lemma {:induction false} OpensAt(x: Crypto, l: Link)
    requires Opens(x, l) && l.enc.period == 2 && l.enc.preAnnouncement == 1
    ensures EncInv(x, l.enc) && l.enc.keys.even.Some? && l.enc.keys.even.value in l.used
    ensures At(l.enc, l.enc.keys, Even, 1, 2, 0, None) && l.requests == []
  {
    hide Wrapping;
  }

  /** So a run in which two requests change places ends with the receiver unable to read
      what the sender enciphers. */
  lemma {:induction false} ReorderingBreaks(x: Crypto, l: Link, k: seq<Key>)
    returns (steps: seq<LinkStep>, more: seq<LinkStep>)
    requires Opens(x, l) && l.enc.period == 2 && l.enc.preAnnouncement == 1 && NewKeys(l, k) && |k| == 7
    ensures Execute(x, l, steps).Some? && |Execute(x, l, steps).value.requests| == 2
    ensures var at := Execute(x, l, steps).value;
            var swapped := at.(requests := [at.requests[1], at.requests[0]]);
            && Execute(x, swapped, more).Some?
            && var end := Execute(x, swapped, more).value;
               end.dec.GetKey(end.enc.active) != end.enc.keys.GetKey(end.enc.active)
  {
    hide Opens, EncInv, Execute, Inv, Wrapping, At, StreamEncryptionKeys.Fit;
    OpensAt(x, l);
    var first, l1 := Announcing4(x, l, k);
    var keys := l.enc.keys.(odd := Some(k[1]));
    var at;
    steps, at := SecondAnnouncement(x, l, l1, first, k, keys);
    var newest := keys.(even := Some(k[5]));
    var swapped := at.(requests := [at.requests[1], at.requests[0]]);
    more := LateCopyBreaks(x, swapped, k[6], keys, newest);
  }
}
