/** The caller-listener handshake (section 4.3.1 of draft-sharabayko-srt), with and without
    an access controller. */
module CallerListener {
  import opened SeqNumbers
  import opened Packets
  import opened StreamKeys
  import opened Hsv5

  datatype ConnectState =
    | Configured
    | InductionResponseWait(request: Handshake)
    | ConclusionResponseWait(request: Handshake, initiator: StartedInitiator)
    | Open(connection: ConnectionSettings)
    | Refused(reason: RejectReason)

  datatype Caller = Caller(settings: InitSettings, streamId: Option<StreamId>, startingSeqNum: SeqNumber,
      state: ConnectState)

  datatype ListenState =
    | InductionWait
    | ConclusionWait(cookie: int, inductionResponse: Handshake)
    | AccessControlRequested(cookie: int, shake: Handshake)
    | Accepted(connection: ConnectionSettings, response: Handshake)

  datatype Listener = Listener(settings: InitSettings, accessControl: bool, state: ListenState)

  /** What the access controller says. */
  datatype AccessControlResponse = Grant(keySettings: Option<KeySettings>) | Deny(reason: RejectReason) | Drop

  datatype Outcome =
    | Nothing
    | Send(packet: Handshake)
    | Connected(toSend: Option<Handshake>)
    | RequestAccess(remoteSocketId: SocketId, streamId: Option<StreamId>, keySize: KeySize)
    | Rejected(toSend: Option<Handshake>)
    | Stopped

  // ---- The caller ----

  function InductionRequest(c: Caller): Handshake {
    Handshake(c.startingSeqNum, c.settings.maxPacketSize, c.settings.maxFlowSize, Induction, c.settings.localSockId, 0,
      V4)
  }

  function CallerTick(c: Caller): (Caller, Outcome) {
    match c.state
    case Configured => (c.(state := InductionResponseWait(InductionRequest(c))), Send(InductionRequest(c)))
    case InductionResponseWait(request) => (c, Send(request))
    case ConclusionResponseWait(request, _) => (c, Send(request))
    case _ => (c, Nothing)
  }

  /** A handshake from the listener; `keys` are what the key generator would give. */
  ghost function CallerReceives(x: Crypto, c: Caller, h: Handshake, keys: StreamEncryptionKeys): (Caller, Outcome)
    requires x.Sound() && FreshKeys(c.settings, keys)
  {
    match c.state
    case InductionResponseWait(_) =>
      if h.shakeType == Induction && h.info.V5? then
        var (hsv5, initiator) := StartInitiation(x, c.settings, c.streamId, keys);
        var request := h.(shakeType := Conclusion, socketId := c.settings.localSockId, info := hsv5,
            initSeqNum := c.startingSeqNum);
        (c.(state := ConclusionResponseWait(request, initiator)), Send(request))
      else (c, Nothing)
    case ConclusionResponseWait(_, initiator) =>
      if h.shakeType == Conclusion then
        match FinishInitiation(initiator, h) {
          case Some(connection) => (c.(state := Open(connection)), Connected(None))
          case None => (c, Nothing)
        }
      else if h.shakeType.Rejection? then (c.(state := Refused(h.shakeType.reason)), Rejected(None))
      else (c, Nothing)
    case _ => (c, Nothing)
  }

  // ---- The listener ----

  function Refusal(l: Listener, shake: Handshake, reason: RejectReason): (Listener, Outcome) {
    (l.(state := InductionWait),
     Rejected(Some(shake.(shakeType := Rejection(reason), socketId := l.settings.localSockId))))
  }

  function Effective(l: Listener, granted: Option<KeySettings>): Option<KeySettings> {
    if granted.Some? then granted else l.settings.keySettings
  }

  /** The response to a request; key settings that were granted replace the listener's. */
  ghost function Accepts(
    x: Crypto, l: Listener, cookie: int, shake: Handshake, granted: Option<KeySettings>): (Listener, Outcome)
    requires x.Sound()
  {
    var l' := l.(settings := l.settings.(keySettings := Effective(l, granted)));
    match GenResponse(x, l.settings, shake, granted)
    case Accept(hsv5, connection) =>
      var response := shake.(synCookie := cookie, socketId := l.settings.localSockId, info := hsv5,
          shakeType := Conclusion);
      (l'.(state := Accepted(connection, response)), Connected(Some(response)))
    case NotHandled => (l', Nothing)
    case Reject(reason) => Refusal(l', shake, reason)
    case Unimplemented => (l', Stopped)
  }

  /** The source implements the key settings that would be used. */
  ghost predicate Implemented(l: Listener, h: Handshake) {
    l.state.ConclusionWait? && h.shakeType == Conclusion && h.info.V5? && !l.accessControl ==>
      CryptoImplemented(l.settings.keySettings, h.info.info)
  }

  /** A handshake from the caller; `cookie` is what a new induction would be given. */
  ghost function ListenerReceives(x: Crypto, l: Listener, h: Handshake, cookie: int): (Listener, Outcome)
    requires x.Sound()
  {
    match l.state
    case InductionWait =>
      if h.shakeType == Induction then
        var response := h.(synCookie := cookie, socketId := l.settings.localSockId, info := EMPTY_FLAGS);
        (l.(state := ConclusionWait(cookie, response)), Send(response))
      else (l, Nothing)
    case ConclusionWait(expected, inductionResponse) =>
      if h.shakeType == Induction then (l, Send(inductionResponse))
      else if h.shakeType == Conclusion && h.info.V5? && h.synCookie == expected then
        if l.accessControl then
          (l.(state := AccessControlRequested(expected, h)),
            RequestAccess(h.socketId, h.info.info.sid, h.info.info.keySize))
        else Accepts(x, l, expected, h, l.settings.keySettings)
      else (l, Nothing)
    case AccessControlRequested(_, _) => (l, Nothing)
    // a connection answers any handshake with the response it was opened with
    case Accepted(_, response) => (l, Send(response))
  }

  ghost function ListenerDecides(x: Crypto, l: Listener, response: AccessControlResponse): (Listener, Outcome)
    requires x.Sound()
  {
    match l.state
    case AccessControlRequested(cookie, shake) =>
      (match response
       case Grant(granted) => Accepts(x, l, cookie, shake, granted)
       case Deny(reason) => Refusal(l, shake, reason)
       case Drop => Refusal(l, shake, PeerRejects))
    case _ => (l, Nothing)
  }

  // ---- The two ends and the network ----

  /** The sets hold everything ever sent to an end: any of it may arrive any number of
      times, in any order, or never. `chosen` are the keys the caller generated. */
  datatype World = World(
    caller: Caller,
    listener: Listener,
    toCaller: set<Handshake>,
    toListener: set<Handshake>,
    request: Option<Handshake>,
    chosen: Option<StreamEncryptionKeys>)

  datatype WorldStep =
    | CallerTicks
    | CallerGets(packet: Handshake, keys: StreamEncryptionKeys)
    | ListenerGets(packet: Handshake, cookie: int)
    | AccessDecided(response: AccessControlResponse)

  ghost predicate Opens(x: Crypto, w: World) {
    && x.Sound()
    && w.caller.state.Configured? && w.listener.state.InductionWait?
    && (!w.listener.accessControl ==> Compatible(w.caller.settings.keySettings, w.listener.settings.keySettings))
    && w.toCaller == {} && w.toListener == {} && w.request.None? && w.chosen.None?
  }

  /** An access controller that grants, grants what makes the key settings match, or asks for
      keys where the caller has none. */
  ghost predicate CanStep(w: World, step: WorldStep) {
    match step
    case CallerTicks => true
    case CallerGets(h, keys) => h in w.toCaller && FreshKeys(w.caller.settings, keys)
    case ListenerGets(h, _) => h in w.toListener
    case AccessDecided(response) =>
      && w.listener.state.AccessControlRequested?
      && (response.Grant? ==> Compatible(w.caller.settings.keySettings, Effective(w.listener, response.keySettings)))
  }

  function Emitted(o: Outcome): set<Handshake> {
    match o
    case Send(h) => {h}
    case Connected(Some(h)) => {h}
    case Rejected(Some(h)) => {h}
    case _ => {}
  }

  /** The code the step runs is implemented. */
  ghost predicate Defined(w: World, step: WorldStep) {
    match step
    case ListenerGets(h, _) => Implemented(w.listener, h)
    case AccessDecided(Grant(granted)) =>
      w.listener.state.AccessControlRequested? ==>
        && w.listener.state.shake.info.V5?
        && CryptoImplemented(Effective(w.listener, granted), w.listener.state.shake.info.info)
    case _ => true
  }

  ghost function Apply(x: Crypto, w: World, step: WorldStep): World
    requires x.Sound() && CanStep(w, step)
  {
    match step
    case CallerTicks =>
      var (c, o) := CallerTick(w.caller);
      w.(caller := c, toListener := w.toListener + Emitted(o))
    case CallerGets(h, keys) =>
      var (c, o) := CallerReceives(x, w.caller, h, keys);
      if w.caller.state.InductionResponseWait? && c.state.ConclusionResponseWait?
      then w.(caller := c, toListener := w.toListener + Emitted(o), request := Some(c.state.request),
          chosen := Some(keys))
      else w.(caller := c, toListener := w.toListener + Emitted(o))
    case ListenerGets(h, cookie) =>
      var (l, o) := ListenerReceives(x, w.listener, h, cookie);
      w.(listener := l, toCaller := w.toCaller + Emitted(o))
    case AccessDecided(response) =>
      var (l, o) := ListenerDecides(x, w.listener, response);
      w.(listener := l, toCaller := w.toCaller + Emitted(o))
  }

  // ---- The invariant ----

  ghost function Started(x: Crypto, w: World): (VsInfo, StartedInitiator)
    requires x.Sound() && w.chosen.Some? && FreshKeys(w.caller.settings, w.chosen.value)
  {
    StartInitiation(x, w.caller.settings, w.caller.streamId, w.chosen.value)
  }

  /** The caller asks once, with the keys it generated. */
  ghost predicate RequestOk(x: Crypto, w: World) {
    && x.Sound()
    && (!w.listener.accessControl ==> Compatible(w.caller.settings.keySettings, w.listener.settings.keySettings))
    && (w.request.Some? <==> w.chosen.Some?)
    && (w.chosen.Some? ==>
          && FreshKeys(w.caller.settings, w.chosen.value)
          && var h := w.request.value;
             h.shakeType == Conclusion && h.info == Started(x, w).0
             && h.socketId == w.caller.settings.localSockId && h.initSeqNum == w.caller.startingSeqNum)
  }

  ghost predicate FromCaller(w: World, h: Handshake) {
    h == InductionRequest(w.caller) || Some(h) == w.request
  }

  /** Conclusions come from an accepted connection only. */
  ghost predicate FromListener(w: World, h: Handshake) {
    || h.shakeType.Induction?
    || h.shakeType.Rejection?
    || (w.listener.state.Accepted? && h == w.listener.state.response)
  }

  ghost predicate CallerOk(x: Crypto, w: World)
    requires RequestOk(x, w)
  {
    match w.caller.state
    case Configured => w.request.None?
    case InductionResponseWait(request) => w.request.None? && request == InductionRequest(w.caller)
    case ConclusionResponseWait(request, i) => w.request == Some(request) && i == Started(x, w).1
    case Open(c) =>
      && w.request.Some? && w.listener.state.Accepted?
      && Some(c) == FinishInitiation(Started(x, w).1, w.listener.state.response)
    case Refused(_) => true
  }

  ghost predicate ListenerOk(x: Crypto, w: World)
    requires RequestOk(x, w)
  {
    match w.listener.state
    case InductionWait => true
    case ConclusionWait(_, response) => response.shakeType == Induction && response.info == EMPTY_FLAGS
    case AccessControlRequested(_, shake) => w.listener.accessControl && w.request == Some(shake)
    case Accepted(c, response) =>
      && w.request.Some? && response.shakeType == Conclusion
      && var i := FinishInitiation(Started(x, w).1, response);
         i.Some? && Mirrored(i.value, c)
  }

  ghost predicate Inv(x: Crypto, w: World) {
    && RequestOk(x, w) && CallerOk(x, w) && ListenerOk(x, w)
    && (forall h | h in w.toListener :: FromCaller(w, h))
    && (forall h | h in w.toCaller :: FromListener(w, h))
  }

  lemma {:induction false} CallerTicksSafe(x: Crypto, w: World)
    requires Inv(x, w)
    ensures Inv(x, Apply(x, w, CallerTicks))
  {
    hide StartInitiation, FinishInitiation, Mirrored;
  }

  lemma {:induction false} CallerGetsSafe(x: Crypto, w: World, h: Handshake, keys: StreamEncryptionKeys)
    requires Inv(x, w) && CanStep(w, CallerGets(h, keys))
    ensures Inv(x, Apply(x, w, CallerGets(h, keys)))
  {
    assert FromListener(w, h);
    hide StartInitiation, Mirrored;
    assert FinishInitiation(Started(x, if w.chosen.Some? then w else w.(chosen := Some(keys))).1, h).Some? ==>
        h.info.V5?;
    hide FinishInitiation;
  }

  /** The listener's answer to the one request opens a mirrored connection. */
  lemma {:induction false} AcceptsMirrors(x: Crypto, w: World, cookie: int, granted: Option<KeySettings>)
    requires RequestOk(x, w) && w.request.Some?
    requires Effective(w.listener, granted) == w.caller.settings.keySettings
    ensures var shake := w.request.value;
            && shake.info.V5? && CryptoImplemented(Effective(w.listener, granted), shake.info.info)
            && var (l, o) := Accepts(x, w.listener, cookie, shake, granted);
               && l.state.Accepted? && o == Connected(Some(l.state.response))
                  && l.state.response.shakeType == Conclusion
               && l.settings.keySettings == w.caller.settings.keySettings && l.accessControl == w.listener.accessControl
               && var i := FinishInitiation(Started(x, w).1, l.state.response);
                  i.Some? && Mirrored(i.value, l.state.connection)
  {
    var shake, keys := w.request.value, w.chosen.value;
    RequestIsAccepted(x, w.caller.settings, w.listener.settings, w.caller.streamId, keys, shake, granted);
    var (l, o) := Accepts(x, w.listener, cookie, shake, granted);
    NegotiationMirrors(x, w.caller.settings, w.listener.settings, w.caller.streamId, keys, shake, l.state.response,
      granted);
  }

  /** A step of the listener keeps the invariant if it leaves the listener in order and
      sends only what it may. */
  lemma {:induction false} ListenerFrame(x: Crypto, w: World, w': World, out: set<Handshake>)
    requires Inv(x, w) && w' == w.(listener := w'.listener, toCaller := w.toCaller + out)
    requires w.listener.state.Accepted? ==> w'.listener == w.listener
    requires RequestOk(x, w') && ListenerOk(x, w') && forall h | h in out :: FromListener(w', h)
    ensures Inv(x, w')
  {
    hide StartInitiation, FinishInitiation, Mirrored;
  }

  /** The request does not depend on the listener but for its settings. */
  lemma {:induction false} RequestStays(x: Crypto, w: World, l: Listener)
    requires RequestOk(x, w) && l.accessControl == w.listener.accessControl
    requires !l.accessControl ==> Compatible(w.caller.settings.keySettings, l.settings.keySettings)
    ensures x.Sound() && RequestOk(x, w.(listener := l))
    ensures w.chosen.Some? <==> w.request.Some?
    ensures w.chosen.Some? ==>
              FreshKeys(w.caller.settings, w.chosen.value) && Started(x, w.(listener := l)) == Started(x, w)
    ensures !w.listener.accessControl ==> Compatible(w.caller.settings.keySettings, w.listener.settings.keySettings)
    ensures w.request.Some? ==> w.request.value.shakeType == Conclusion && w.request.value.info.V5?
  {
    hide Wrapping;
  }

  /** What a listener may do and send. */
  ghost predicate Stays(x: Crypto, w: World, l: Listener, o: Outcome) {
    var w' := w.(listener := l);
    && (w.listener.state.Accepted? ==> l == w.listener)
    && RequestOk(x, w') && ListenerOk(x, w') && forall q | q in Emitted(o) :: FromListener(w', q)
  }

  lemma {:induction false} ListenerStays(x: Crypto, w: World, h: Handshake, cookie: int)
    requires RequestOk(x, w) && ListenerOk(x, w) && FromCaller(w, h)
    ensures Implemented(w.listener, h)
    ensures var (l, o) := ListenerReceives(x, w.listener, h, cookie); Stays(x, w, l, o)
  {
    RequestStays(x, w, w.listener);
    var (l, o) := ListenerReceives(x, w.listener, h, cookie);
    if w.listener.state.ConclusionWait? && h.shakeType == Conclusion {
      hide FinishInitiation, Mirrored, GenResponse, RequestOk, Started, Stays;
      ListenerConcludes(x, w, h, cookie);
    } else {
      hide FinishInitiation, Mirrored, Accepts, RequestOk, Started, CryptoImplemented;
      RequestStays(x, w, l);
    }
  }

  lemma {:induction false} ListenerConcludes(x: Crypto, w: World, h: Handshake, cookie: int)
    requires RequestOk(x, w) && ListenerOk(x, w) && w.listener.state.ConclusionWait? && Some(h) == w.request
    ensures Implemented(w.listener, h)
    ensures var (l, o) := ListenerReceives(x, w.listener, h, cookie); Stays(x, w, l, o)
  {
    RequestStays(x, w, w.listener);
    if w.listener.accessControl {
      hide FinishInitiation, Mirrored, Accepts, RequestOk, Started, CryptoImplemented;
      var (l, o) := ListenerReceives(x, w.listener, h, cookie);
      RequestStays(x, w, l);
    } else {
      hide FinishInitiation, Mirrored, Accepts, RequestOk, Started, CryptoImplemented, Stays, ListenerOk, Effective;
      EffectiveIs(w.listener);
      AcceptedStays(x, w, w.listener.state.cookie, w.listener.settings.keySettings);
    }
  }

  lemma {:induction false} EffectiveIs(l: Listener)
    ensures Effective(l, l.settings.keySettings) == l.settings.keySettings
  {
  }

  lemma {:induction false} CryptoIsSound(x: Crypto, w: World)
    requires RequestOk(x, w)
    ensures x.Sound()
  {
  }

  /** The listener's answer to the one request leaves it in order. */
  lemma {:induction false} AcceptedStays(x: Crypto, w: World, cookie: int, granted: Option<KeySettings>)
    requires RequestOk(x, w) && w.request.Some? && !w.listener.state.Accepted?
    requires Compatible(w.caller.settings.keySettings, Effective(w.listener, granted))
    ensures w.request.value.info.V5? && CryptoImplemented(Effective(w.listener, granted), w.request.value.info.info)
    ensures var (l, o) := Accepts(x, w.listener, cookie, w.request.value, granted); Stays(x, w, l, o)
  {
    hide FinishInitiation, Mirrored, Accepts, RequestOk, Started, CryptoImplemented, Effective;
    CryptoIsSound(x, w);
    if Effective(w.listener, granted) == w.caller.settings.keySettings {
      AcceptsMirrors(x, w, cookie, granted);
    } else {
      AcceptsRefuses(x, w, cookie, granted);
    }
    var (l, o) := Accepts(x, w.listener, cookie, w.request.value, granted);
    RequestStays(x, w, l);
  }

  /** A listener that wants keys refuses a caller without. */
  lemma {:induction false} AcceptsRefuses(x: Crypto, w: World, cookie: int, granted: Option<KeySettings>)
    requires RequestOk(x, w) && w.request.Some?
    requires w.caller.settings.keySettings.None? && Effective(w.listener, granted).Some?
    ensures w.request.value.info.V5? && CryptoImplemented(Effective(w.listener, granted), w.request.value.info.info)
    ensures var (l, o) := Accepts(x, w.listener, cookie, w.request.value, granted);
            && l.state.InductionWait? && o.Rejected? && o.toSend.Some?
               && o.toSend.value.shakeType == Rejection(Unsecure)
            && l.settings.keySettings == Effective(w.listener, granted) && l.accessControl == w.listener.accessControl
  {
    RequestIsRefused(x, w.caller.settings, w.listener.settings, w.caller.streamId, w.chosen.value, w.request.value,
      granted);
    hide GenResponse, StartInitiation, CryptoImplemented;
  }

  lemma {:induction false} ListenerGetsSafe(x: Crypto, w: World, h: Handshake, cookie: int)
    requires Inv(x, w) && CanStep(w, ListenerGets(h, cookie))
    ensures Defined(w, ListenerGets(h, cookie))
    ensures Inv(x, Apply(x, w, ListenerGets(h, cookie)))
  {
    assert FromCaller(w, h);
    ListenerStays(x, w, h, cookie);
    hide StartInitiation, FinishInitiation, Mirrored, ListenerReceives, FromListener, FromCaller, Stays;
    var (l, o) := ListenerReceives(x, w.listener, h, cookie);
    StayedIsInv(x, w, Apply(x, w, ListenerGets(h, cookie)), l, o);
  }

  lemma {:induction false} SameSender(v: World, w: World, h: Handshake)
    requires v.listener == w.listener && FromListener(v, h)
    ensures FromListener(w, h)
  {
  }

  lemma {:induction false} AccessDecidedSafe(x: Crypto, w: World, response: AccessControlResponse)
    requires Inv(x, w) && CanStep(w, AccessDecided(response))
    ensures Defined(w, AccessDecided(response))
    ensures Inv(x, Apply(x, w, AccessDecided(response)))
  {
    RequestStays(x, w, w.listener);
    var (l, o) := ListenerDecides(x, w.listener, response);
    DecisionStays(x, w, response);
    hide FinishInitiation, Mirrored, RequestOk, Started, CryptoImplemented;
    hide ListenerDecides, FromListener, FromCaller, ListenerOk;
    StayedIsInv(x, w, Apply(x, w, AccessDecided(response)), l, o);
  }

  lemma {:induction false} DecisionStays(x: Crypto, w: World, response: AccessControlResponse)
    requires RequestOk(x, w) && ListenerOk(x, w) && CanStep(w, AccessDecided(response))
    ensures Defined(w, AccessDecided(response))
    ensures var (l, o) := ListenerDecides(x, w.listener, response); Stays(x, w, l, o)
  {
    RequestStays(x, w, w.listener);
    if response.Grant? {
      hide FinishInitiation, Mirrored, RequestOk, Started, CryptoImplemented, Accepts, Effective, Stays;
      AcceptedStays(x, w, w.listener.state.cookie, response.keySettings);
    } else {
      hide FinishInitiation, Mirrored, RequestOk, Started, CryptoImplemented, Accepts, Effective;
      RequestStays(x, w, ListenerDecides(x, w.listener, response).0);
    }
  }

  lemma {:induction false} StayedIsInv(x: Crypto, w: World, w': World, l: Listener, o: Outcome)
    requires Inv(x, w) && Stays(x, w, l, o) && w' == w.(listener := l, toCaller := w.toCaller + Emitted(o))
    ensures Inv(x, w')
  {
    hide StartInitiation, FinishInitiation, Mirrored, FromListener, FromCaller;
    var v := w.(listener := l);
    assert RequestOk(x, v) && ListenerOk(x, v) && RequestOk(x, w') && ListenerOk(x, w');
    forall q | q in Emitted(o) ensures FromListener(w', q) {
      assert FromListener(v, q);
      SameSender(v, w', q);
    }
    ListenerFrame(x, w, w', Emitted(o));
  }

  lemma {:induction false} OpensSafe(x: Crypto, w: World)
    requires Opens(x, w)
    ensures Inv(x, w)
  {
  }

  lemma {:induction false} StepSafe(x: Crypto, w: World, step: WorldStep)
    requires Inv(x, w) && CanStep(w, step)
    ensures Defined(w, step) && Inv(x, Apply(x, w, step))
  {
    match step
    case CallerTicks => CallerTicksSafe(x, w);
    case CallerGets(h, keys) => CallerGetsSafe(x, w, h, keys);
    case ListenerGets(h, cookie) => ListenerGetsSafe(x, w, h, cookie);
    case AccessDecided(response) => AccessDecidedSafe(x, w, response);
  }

  // ---- Every run ----

  /** The world after some steps; None if one of them cannot be taken. */
  ghost function Execute(x: Crypto, w: World, steps: seq<WorldStep>): Option<World>
    requires Inv(x, w)
    decreases |steps|
  {
    if steps == [] then Some(w)
    else if !CanStep(w, steps[0]) then None
    else
      StepSafe(x, w, steps[0]);
      Execute(x, Apply(x, w, steps[0]), steps[1..])
  }

  lemma {:induction false} RunSafe(x: Crypto, w: World, steps: seq<WorldStep>)
    requires Inv(x, w) && Execute(x, w, steps).Some?
    ensures Inv(x, Execute(x, w, steps).value)
    decreases |steps|
  {
    assert x.Sound();
    hide Inv, Apply;
    if steps != [] {
      StepSafe(x, w, steps[0]);
      RunSafe(x, Apply(x, w, steps[0]), steps[1..]);
    }
  }

  /** Whatever the network and the access controller do, the caller is connected only when
      the listener is, and then the two connections mirror each other. */
  lemma {:induction false} EndsAgree(x: Crypto, w: World, steps: seq<WorldStep>)
    requires Opens(x, w) && (OpensSafe(x, w); Execute(x, w, steps).Some?)
    ensures var e := (OpensSafe(x, w); Execute(x, w, steps).value);
            e.caller.state.Open? ==>
              e.listener.state.Accepted? && Mirrored(e.caller.state.connection, e.listener.state.connection)
  {
    OpensSafe(x, w);
    RunSafe(x, w, steps);
    hide Execute, StartInitiation, FinishInitiation, Mirrored;
  }

  lemma {:induction false} ExecuteStep(x: Crypto, w: World, step: WorldStep, rest: seq<WorldStep>)
    requires Inv(x, w) && CanStep(w, step)
    ensures Defined(w, step) && Inv(x, Apply(x, w, step))
    ensures Execute(x, w, [step] + rest) == Execute(x, Apply(x, w, step), rest)
  {
    StepSafe(x, w, step);
    assert x.Sound();
    hide Inv, Apply, CanStep;
    assert ([step] + rest)[0] == step && ([step] + rest)[1..] == rest;
  }

  /** The caller has been given its cookie and has asked. */
  ghost predicate Asked(w: World) {
    && w.caller.state.ConclusionResponseWait? && w.request == Some(w.caller.state.request)
       && w.caller.state.request in w.toListener
    && w.listener.state.ConclusionWait? && w.caller.state.request.synCookie == w.listener.state.cookie
  }

  /** The listener has answered. */
  ghost predicate Answered(w: World, w': World) {
    && w'.caller == w.caller && w'.listener.state.Accepted?
    && w'.listener.state.response in w'.toCaller && w'.listener.state.response.shakeType == Conclusion
  }

  /** Without access control the listener accepts a request with its cookie. */
  lemma {:induction false} RequestIsTaken(x: Crypto, w: World, cookie: int)
    requires Inv(x, w) && Asked(w) && !w.listener.accessControl
    requires w.listener.settings.keySettings == w.caller.settings.keySettings
    ensures x.Sound() && w.request.Some?
    ensures var third := ListenerGets(w.request.value, cookie);
            CanStep(w, third) && Inv(x, Apply(x, w, third)) && Answered(w, Apply(x, w, third))
  {
    hide Inv, RequestOk, Started, StartInitiation, FinishInitiation, Mirrored, CryptoImplemented, Accepts;
    RequestIsOk(x, w);
    AcceptsMirrors(x, w, w.listener.state.cookie, w.listener.settings.keySettings);
    StepSafe(x, w, ListenerGets(w.request.value, cookie));
  }

  lemma {:induction false} RequestIsOk(x: Crypto, w: World)
    requires Inv(x, w)
    ensures x.Sound() && RequestOk(x, w) && (w.request.Some? ==> w.request.value.shakeType == Conclusion)
  {
    hide StartInitiation, FinishInitiation, Mirrored;
  }

  lemma {:induction false} AccessIsAsked(x: Crypto, w: World, cookie: int)
    requires Inv(x, w) && Asked(w) && w.listener.accessControl
    ensures x.Sound() && w.request.Some? && w.listener.state.ConclusionWait?
    ensures var third := ListenerGets(w.request.value, cookie);
            && CanStep(w, third) && Defined(w, third)
            && var w' := Apply(x, w, third);
               && Inv(x, w') && w'.caller == w.caller && w'.request == w.request
               && w'.listener == w.listener.(state := AccessControlRequested(w.listener.state.cookie, w.request.value))
  {
    assert w.request.value.info.V5?;
    hide StartInitiation, FinishInitiation, Mirrored, CryptoImplemented, Accepts;
    StepSafe(x, w, ListenerGets(w.request.value, cookie));
  }

  lemma {:induction false} GrantAnswers(x: Crypto, w: World, granted: Option<KeySettings>)
    requires Inv(x, w) && w.listener.state.AccessControlRequested?
    requires Effective(w.listener, granted) == w.caller.settings.keySettings
    ensures var fourth := AccessDecided(Grant(granted));
            CanStep(w, fourth) && Defined(w, fourth) && Inv(x, Apply(x, w, fourth)) && Answered(w, Apply(x, w, fourth))
  {
    hide Inv, RequestOk, Started, StartInitiation, FinishInitiation, Mirrored, CryptoImplemented, Accepts;
    AccessIsForRequest(x, w);
    AcceptsMirrors(x, w, w.listener.state.cookie, granted);
    StepSafe(x, w, AccessDecided(Grant(granted)));
  }

  lemma {:induction false} AccessIsForRequest(x: Crypto, w: World)
    requires Inv(x, w) && w.listener.state.AccessControlRequested?
    ensures x.Sound() && RequestOk(x, w) && w.request == Some(w.listener.state.shake) && w.listener.accessControl
  {
    hide StartInitiation, FinishInitiation, Mirrored;
  }

  lemma {:induction false} ResponseOpens(x: Crypto, w: World, keys: StreamEncryptionKeys) returns (w': World)
    requires Inv(x, w) && w.caller.state.ConclusionResponseWait? && Answered(w, w) && FreshKeys(w.caller.settings, keys)
    ensures var last := CallerGets(w.listener.state.response, keys);
            CanStep(w, last) && Defined(w, last) && w' == Apply(x, w, last) && Inv(x, w') && w'.caller.state.Open?
  {
    hide StartInitiation, Mirrored, FinishInitiation;
    var last := CallerGets(w.listener.state.response, keys);
    StepSafe(x, w, last);
    w' := Apply(x, w, last);
  }

  lemma {:induction false} NoSteps(x: Crypto, w: World)
    requires Inv(x, w)
    ensures Execute(x, w, []) == Some(w)
  {
  }

  // ---- The cookie ----

  /** Whatever handshake arrives, a listener that waits for a conclusion moves on only if it
      is one with the cookie it gave. */
  lemma {:induction false} CookieIsChecked(x: Crypto, l: Listener, h: Handshake, cookie: int)
    requires x.Sound() && l.state.ConclusionWait? && ListenerReceives(x, l, h, cookie).0 != l
    ensures h.shakeType == Conclusion && h.info.V5? && h.synCookie == l.state.cookie
  {
    hide Accepts;
  }

  /** And whatever arrives, a waiting listener repeats its induction response, and a
      connected one its conclusion. */
  lemma {:induction false} ListenerRepeats(x: Crypto, l: Listener, h: Handshake, cookie: int)
    requires x.Sound()
    ensures l.state.ConclusionWait? && h.shakeType == Induction ==>
              ListenerReceives(x, l, h, cookie) == (l, Send(l.state.inductionResponse))
    ensures l.state.Accepted? ==> ListenerReceives(x, l, h, cookie) == (l, Send(l.state.response))
  {
    hide Accepts;
  }

  /** No refusal was ever sent. */
  ghost predicate Unrefused(w: World) {
    forall h | h in w.toCaller :: !h.shakeType.Rejection?
  }

  /** The cookie that a handshake would have to carry. */
  predicate Matches(l: Listener, synCookie: int) {
    !l.state.InductionWait? && (l.state.ConclusionWait? ==> synCookie == l.state.cookie)
  }

  /** Until something is refused there is one cookie: the listener's, in every induction
      response and in the request. */
  ghost predicate OneCookie(w: World) {
    && (w.listener.state.ConclusionWait? ==> w.listener.state.inductionResponse.synCookie == w.listener.state.cookie)
    && (forall h | h in w.toCaller && h.shakeType == Induction :: Matches(w.listener, h.synCookie))
    && (w.request.Some? ==> Matches(w.listener, w.request.value.synCookie))
    && !w.caller.state.Refused?
  }

  /** What a listener does to its state and sends, as far as the cookie goes. */
  lemma {:induction false} ListenerCookie(x: Crypto, l: Listener, h: Handshake, cookie: int)
    requires x.Sound() && (l.state.ConclusionWait? ==> l.state.inductionResponse.synCookie == l.state.cookie)
    requires l.state.ConclusionWait? ==> l.state.inductionResponse.shakeType == Induction
    requires l.state.Accepted? ==> l.state.response.shakeType == Conclusion
    ensures var (l', o) := ListenerReceives(x, l, h, cookie);
            (forall q | q in Emitted(o) :: !q.shakeType.Rejection?) ==>
              && (l'.state.InductionWait? ==> l.state.InductionWait?)
              && (l'.state.ConclusionWait? ==>
                    && l'.state.inductionResponse.synCookie == l'.state.cookie
                    && (l.state.ConclusionWait? ==> l'.state.cookie == l.state.cookie))
              && (forall q | q in Emitted(o) && q.shakeType == Induction :: Matches(l', q.synCookie))
  {
    hide GenResponse;
  }

  lemma {:induction false} DecisionCookie(x: Crypto, l: Listener, response: AccessControlResponse)
    requires x.Sound() && l.state.AccessControlRequested?
    ensures var (l', o) := ListenerDecides(x, l, response);
            (forall q | q in Emitted(o) :: !q.shakeType.Rejection?) ==>
              && (l'.state.Accepted? || l'.state.AccessControlRequested?)
              && (forall q | q in Emitted(o) && q.shakeType == Induction :: Matches(l', q.synCookie))
  {
    hide GenResponse;
  }

  lemma {:induction false} StepCookie(x: Crypto, w: World, step: WorldStep)
    requires Inv(x, w) && OneCookie(w) && CanStep(w, step)
    ensures x.Sound()
    ensures Unrefused(Apply(x, w, step)) ==> OneCookie(Apply(x, w, step)) && Unrefused(w)
  {
    hide StartInitiation, FinishInitiation, Mirrored, CryptoImplemented;
    match step
    case CallerTicks =>
    case CallerGets(h, keys) =>
    case ListenerGets(h, cookie) =>
      ListenerCookie(x, w.listener, h, cookie);
      hide ListenerReceives;
    case AccessDecided(response) =>
      DecisionCookie(x, w.listener, response);
      hide ListenerDecides;
  }

  // ---- Every call that is not refused can be connected ----

  lemma {:induction false} RunCookie(x: Crypto, w: World, steps: seq<WorldStep>)
    requires Inv(x, w) && OneCookie(w) && Execute(x, w, steps).Some? && Unrefused(Execute(x, w, steps).value)
    ensures OneCookie(Execute(x, w, steps).value) && Unrefused(w)
    decreases |steps|
  {
    assert x.Sound();
    hide Inv, Apply, CanStep, OneCookie, Unrefused;
    if steps != [] {
      StepSafe(x, w, steps[0]);
      StepCookie(x, w, steps[0]);
      var w1 := Apply(x, w, steps[0]);
      RunRefusals(x, w1, steps[1..]);
      RunCookie(x, w1, steps[1..]);
    }
  }

  /** What was refused stays refused. */
  lemma {:induction false} RunRefusals(x: Crypto, w: World, steps: seq<WorldStep>)
    requires Inv(x, w) && Execute(x, w, steps).Some? && Unrefused(Execute(x, w, steps).value)
    ensures Unrefused(w)
    decreases |steps|
  {
    assert x.Sound();
    hide Inv, CanStep, CallerReceives, ListenerReceives, ListenerDecides;
    if steps != [] {
      StepSafe(x, w, steps[0]);
      RunRefusals(x, Apply(x, w, steps[0]), steps[1..]);
      assert w.toCaller <= Apply(x, w, steps[0]).toCaller;
    }
  }

  ghost predicate Leads(x: Crypto, w: World, steps: seq<WorldStep>, w': World) {
    Inv(x, w) && Execute(x, w, steps) == Some(w')
  }

  lemma {:induction false} LeadsOn(x: Crypto, w: World, steps: seq<WorldStep>, w1: World, step: WorldStep)
    requires Leads(x, w, steps, w1) && Inv(x, w1) && CanStep(w1, step)
    ensures x.Sound() && Leads(x, w, steps + [step], Apply(x, w1, step)) && Inv(x, Apply(x, w1, step))
    decreases |steps|
  {
    assert x.Sound();
    StepSafe(x, w1, step);
    hide Inv, Apply, CanStep;
    if steps == [] {
      ExecuteStep(x, w1, step, []);
      NoSteps(x, Apply(x, w1, step));
      assert [] + [step] == [step] + [] == [step];
    } else {
      StepSafe(x, w, steps[0]);
      var w0 := Apply(x, w, steps[0]);
      LeadsOn(x, w0, steps[1..], w1, step);
      ExecuteStep(x, w, steps[0], steps[1..] + [step]);
      assert [steps[0]] + (steps[1..] + [step]) == steps + [step];
    }
  }

  /** The caller, not yet given its cookie, is given it. */
  lemma {:induction false} CookieIsGiven(
    x: Crypto, w: World, steps: seq<WorldStep>, w0: World, keys: StreamEncryptionKeys, cookie: int)
    returns (more: seq<WorldStep>, w': World)
    requires Leads(x, w, steps, w0) && Inv(x, w0) && OneCookie(w0) && FreshKeys(w0.caller.settings, keys)
    requires w0.caller.state.Configured? || w0.caller.state.InductionResponseWait?
    ensures steps <= more && Leads(x, w, more, w') && Inv(x, w') && w'.caller.state.ConclusionResponseWait?
    ensures w'.caller.settings == w0.caller.settings && w'.listener.settings == w0.listener.settings
    ensures w'.listener.accessControl == w0.listener.accessControl
    ensures w'.request.Some? && Matches(w'.listener, w'.request.value.synCookie)
  {
    hide StartInitiation, FinishInitiation, Mirrored, CryptoImplemented, Leads, Execute;
    var w1 := Apply(x, w0, CallerTicks);
    LeadsOn(x, w, steps, w0, CallerTicks);
    var asks := ListenerGets(InductionRequest(w0.caller), cookie);
    LeadsOn(x, w, steps + [CallerTicks], w1, asks);
    var w2 := Apply(x, w1, asks);
    assert w2.listener.state.ConclusionWait? && w2.listener.state.inductionResponse in w2.toCaller;
    var takes := CallerGets(w2.listener.state.inductionResponse, keys);
    LeadsOn(x, w, steps + [CallerTicks] + [asks], w2, takes);
    more, w' := steps + [CallerTicks] + [asks] + [takes], Apply(x, w2, takes);
  }

  /** The access controller's answer that would make the key settings match. */
  predicate Grants(w: World, granted: Option<KeySettings>) {
    Effective(w.listener, if w.listener.accessControl then granted else None) == w.caller.settings.keySettings
  }

  lemma {:induction false} AsksAgain(x: Crypto, w: World)
    requires Inv(x, w) && w.caller.state.ConclusionResponseWait? && w.listener.state.ConclusionWait?
    requires w.request.Some? && Matches(w.listener, w.request.value.synCookie)
    ensures x.Sound() && CanStep(w, CallerTicks)
    ensures var w' := Apply(x, w, CallerTicks);
            Asked(w') && w'.listener == w.listener && w'.caller == w.caller && w'.request == w.request
  {
    hide StartInitiation, FinishInitiation, Mirrored;
  }

  /** The caller repeats its request, and a listener that has given its cookie accepts it,
      after asking its access controller if it has one. */
  lemma {:induction false} CallIsAccepted(
    x: Crypto, w: World, steps: seq<WorldStep>, w0: World, cookie: int, granted: Option<KeySettings>)
    returns (more: seq<WorldStep>, w': World)
    requires Leads(x, w, steps, w0) && Inv(x, w0) && w0.caller.state.ConclusionResponseWait?
    requires w0.request.Some? && Matches(w0.listener, w0.request.value.synCookie)
    requires !w0.listener.state.Accepted? ==> Grants(w0, granted)
    ensures steps <= more && Leads(x, w, more, w')
    ensures Inv(x, w') && w'.caller == w0.caller && w'.listener.state.Accepted?
  {
    hide Inv, Apply, CanStep, Accepts, Leads, Execute, Asked, RequestOk;
    more, w' := steps, w0;
    if w0.listener.state.ConclusionWait? {
      AsksAgain(x, w0);
      var w1 := Apply(x, w0, CallerTicks);
      LeadsOn(x, w, more, w0, CallerTicks);
      var third := ListenerGets(w1.request.value, cookie);
      if w0.listener.accessControl {
        AccessIsAsked(x, w1, cookie);
      } else {
        RequestIsTaken(x, w1, cookie);
      }
      LeadsOn(x, w, more + [CallerTicks], w1, third);
      more, w' := more + [CallerTicks] + [third], Apply(x, w1, third);
    }
    if w'.listener.state.AccessControlRequested? {
      AccessIsForRequest(x, w');
      GrantAnswers(x, w', granted);
      LeadsOn(x, w, more, w', AccessDecided(Grant(granted)));
      more, w' := more + [AccessDecided(Grant(granted))], Apply(x, w', AccessDecided(Grant(granted)));
    }
  }

  /** The caller repeats its request, the connected listener its response, and the caller is
      connected. */
  lemma {:induction false} CallerFinishes(
    x: Crypto, w: World, steps: seq<WorldStep>, w0: World, keys: StreamEncryptionKeys, cookie: int)
    returns (more: seq<WorldStep>, w': World)
    requires Leads(x, w, steps, w0) && Inv(x, w0) && FreshKeys(w0.caller.settings, keys)
    requires w0.caller.state.ConclusionResponseWait? && w0.listener.state.Accepted?
    ensures steps <= more && Leads(x, w, more, w') && w'.caller.state.Open?
  {
    hide StartInitiation, FinishInitiation, Mirrored, CryptoImplemented, Accepts, Leads, Execute;
    var w1 := Apply(x, w0, CallerTicks);
    LeadsOn(x, w, steps, w0, CallerTicks);
    var again := ListenerGets(w0.caller.state.request, cookie);
    LeadsOn(x, w, steps + [CallerTicks], w1, again);
    var w2 := Apply(x, w1, again);
    assert Answered(w2, w2);
    hide Inv, Apply;
    w' := ResponseOpens(x, w2, keys);
    var last := CallerGets(w2.listener.state.response, keys);
    LeadsOn(x, w, steps + [CallerTicks] + [again], w2, last);
    more := steps + [CallerTicks] + [again] + [last];
  }

  /** Progress: however a run went so far and whatever it lost, if nothing was refused and the
      key settings match, it can be continued so that the caller is connected. */
  lemma {:induction false} EveryCallCanConnect(
    x: Crypto, w: World, steps: seq<WorldStep>, keys: StreamEncryptionKeys, cookie: int, granted: Option<KeySettings>)
    returns (more: seq<WorldStep>)
    requires Opens(x, w) && (OpensSafe(x, w); Execute(x, w, steps).Some?)
    requires var e := (OpensSafe(x, w); Execute(x, w, steps).value);
             && Unrefused(e) && FreshKeys(e.caller.settings, keys)
             && (!e.listener.state.Accepted? ==> Grants(e, granted))
    ensures Inv(x, w) && steps <= more && Execute(x, w, more).Some? && Execute(x, w, more).value.caller.state.Open?
  {
    hide Inv, Execute, FreshKeys, OneCookie, Leads, Unrefused, Grants;
    OpensSafe(x, w);
    OpensWithOneCookie(x, w);
    RunSafe(x, w, steps);
    RunCookie(x, w, steps);
    var e := Execute(x, w, steps).value;
    LeadsIs(x, w, steps, e);
    OneOfThree(x, e);
    var so, v := steps, e;
    if e.caller.state.Configured? || e.caller.state.InductionResponseWait? {
      so, v := CookieIsGiven(x, w, steps, e, keys, cookie);
      GrantsStill(e, v, granted);
    }
    if v.caller.state.Open? {
      more := so;
    } else {
      var a, u := CallIsAccepted(x, w, so, v, cookie, granted);
      more, v := CallerFinishes(x, w, a, u, keys, cookie);
    }
    LeadsIs(x, w, more, v);
  }

  lemma {:induction false} OpensWithOneCookie(x: Crypto, w: World)
    requires Opens(x, w)
    ensures OneCookie(w)
  {
  }

  lemma {:induction false} LeadsIs(x: Crypto, w: World, steps: seq<WorldStep>, w': World)
    requires Inv(x, w)
    ensures Leads(x, w, steps, w') <==> Execute(x, w, steps) == Some(w')
  {
    hide Inv, Execute;
  }

  lemma {:induction false} OneOfThree(x: Crypto, w: World)
    requires Inv(x, w) && OneCookie(w)
    ensures || ((w.caller.state.Configured? || w.caller.state.InductionResponseWait?) && !w.listener.state.Accepted?)
            || (w.caller.state.ConclusionResponseWait? && w.request.Some?
                && Matches(w.listener, w.request.value.synCookie))
            || w.caller.state.Open?
  {
    hide StartInitiation, FinishInitiation, Mirrored;
  }

  lemma {:induction false} GrantsStill(w: World, w': World, granted: Option<KeySettings>)
    requires w'.caller.settings == w.caller.settings && w'.listener.settings == w.listener.settings
    requires w'.listener.accessControl == w.listener.accessControl
    ensures Grants(w, granted) ==> Grants(w', granted)
  {
  }

  /** In particular there is a run that connects both ends, with and without access control. */
  lemma {:induction false} CallConnects(
    x: Crypto, w: World, keys: StreamEncryptionKeys, cookie: int, granted: Option<KeySettings>)
      returns (steps: seq<WorldStep>)
    requires Opens(x, w) && FreshKeys(w.caller.settings, keys)
    requires Effective(w.listener, if w.listener.accessControl then granted else None) == w.caller.settings.keySettings
    ensures Inv(x, w) && Execute(x, w, steps).Some? && Execute(x, w, steps).value.caller.state.Open?
  {
    hide Inv, Execute, FreshKeys;
    OpensSafe(x, w);
    NoSteps(x, w);
    steps := EveryCallCanConnect(x, w, [], keys, cookie, granted);
  }

  /** A denial reaches the caller with its reason. */
  lemma {:induction false} DenialIsHeard(
    x: Crypto, w: World, response: AccessControlResponse, keys: StreamEncryptionKeys)
    requires Inv(x, w) && w.listener.state.AccessControlRequested? && !response.Grant?
    requires w.caller.state.ConclusionResponseWait? && FreshKeys(w.caller.settings, keys)
    ensures x.Sound() && CanStep(w, AccessDecided(response))
    ensures var w1 := Apply(x, w, AccessDecided(response));
            var reason := match response case Deny(reason) => reason case _ => PeerRejects;
            && w1.listener.state.InductionWait?
            && exists h | h in w1.toCaller ::
                 h.shakeType == Rejection(reason) && Apply(x, w1, CallerGets(h, keys)).caller.state == Refused(reason)
  {
    hide StartInitiation, FinishInitiation, Mirrored, Accepts;
    var w' := Apply(x, w, AccessDecided(response));
    var reason := match response case Deny(reason) => reason case _ => PeerRejects;
    var h := w.listener.state.shake.(shakeType := Rejection(reason), socketId := w.listener.settings.localSockId);
    assert h in w'.toCaller && CanStep(w', CallerGets(h, keys));
    assert Apply(x, w', CallerGets(h, keys)).caller.state == Refused(reason);
  }

  // ---- The objects ----

  /** A connect request; it ends when it is answered. */
  class Connect {
    const crypto: Crypto
    const initSettings: InitSettings
    const streamId: Option<StreamId>
    const startingSendSeqNum: SeqNumber
    var state: ConnectState

    ghost function Value(): Caller
      reads this
    {
      Caller(initSettings, streamId, startingSendSeqNum, state)
    }

    constructor (crypto: Crypto, initSettings: InitSettings, streamId: Option<StreamId>, startingSendSeqNum: SeqNumber)
      ensures Value() == Caller(initSettings, streamId, startingSendSeqNum, Configured) && this.crypto == crypto
    {
      this.crypto, this.initSettings, this.streamId, this.startingSendSeqNum := crypto, initSettings, streamId,
        startingSendSeqNum;
      state := Configured;
    }

    method OnStart() returns (o: Outcome)
      requires state.Configured?
      modifies this`state
      ensures (Value(), o) == CallerTick(old(Value()))
    {
      var packet := Handshake(startingSendSeqNum, initSettings.maxPacketSize, initSettings.maxFlowSize, Induction,
                              initSettings.localSockId, 0, V4);
      state := InductionResponseWait(packet);
      return Send(packet);
    }

    method WaitForInduction(h: Handshake, keys: StreamEncryptionKeys) returns (o: Outcome)
      requires state.InductionResponseWait? && crypto.Sound() && FreshKeys(initSettings, keys)
      modifies this`state
      ensures (Value(), o) == CallerReceives(crypto, old(Value()), h, keys)
    {
      hide StartInitiation;
      if h.shakeType != Induction || h.info.V4? { return Nothing; }
      var hsv5, initiator := StartHsv5Initiation(crypto, initSettings, streamId, keys);
      var packet := h.(shakeType := Conclusion, socketId := initSettings.localSockId, info := hsv5,
          initSeqNum := startingSendSeqNum);
      state := ConclusionResponseWait(packet, initiator);
      return Send(packet);
    }

    method WaitForConclusion(h: Handshake, initiator: StartedInitiator, ghost keys: StreamEncryptionKeys)
      returns (o: Outcome)
      requires state.ConclusionResponseWait? && state.initiator == initiator
      requires crypto.Sound() && FreshKeys(initSettings, keys)
      modifies this`state
      ensures (Value(), o) == CallerReceives(crypto, old(Value()), h, keys)
    {
      match h.shakeType {
        case Conclusion =>
          if h.info.V4? { return Nothing; }
          var settings := FinishInitiation(initiator, h);
          if settings.None? { return Nothing; }
          state := Open(settings.value);
          o := Outcome.Connected(None);
        case Rejection(reason) =>
          state := Refused(reason);
          o := Outcome.Rejected(None);
        case _ => o := Nothing;
      }
    }

    method HandlePacket(h: Handshake, keys: StreamEncryptionKeys) returns (o: Outcome)
      requires crypto.Sound() && FreshKeys(initSettings, keys)
      modifies this`state
      ensures (Value(), o) == CallerReceives(crypto, old(Value()), h, keys)
    {
      hide StartInitiation;
      if state.InductionResponseWait? {
        o := WaitForInduction(h, keys);
      } else if state.ConclusionResponseWait? {
        o := WaitForConclusion(h, state.initiator, keys);
      } else {
        o := Nothing;
      }
    }

    method HandleTick() returns (o: Outcome)
      modifies this`state
      ensures (Value(), o) == CallerTick(old(Value()))
    {
      match state {
        case Configured => o := OnStart();
        case InductionResponseWait(request) => o := Send(request);
        case ConclusionResponseWait(request, _) => o := Send(request);
        case _ => o := Nothing;
      }
    }
  }

  class Listen {
    const crypto: Crypto
    const enableAccessControl: bool
    var initSettings: InitSettings
    var state: ListenState

    ghost function Value(): Listener
      reads this
    {
      Listener(initSettings, enableAccessControl, state)
    }

    constructor (crypto: Crypto, initSettings: InitSettings, enableAccessControl: bool)
      ensures Value() == Listener(initSettings, enableAccessControl, InductionWait) && this.crypto == crypto
    {
      this.crypto, this.initSettings, this.enableAccessControl := crypto, initSettings, enableAccessControl;
      state := InductionWait;
    }

    method WaitForInduction(h: Handshake, cookie: int) returns (o: Outcome)
      requires state.InductionWait? && crypto.Sound()
      modifies this`state
      ensures (Value(), o) == ListenerReceives(crypto, old(Value()), h, cookie)
    {
      if h.shakeType != Induction { return Nothing; }
      var response := h.(synCookie := cookie, socketId := initSettings.localSockId, info := EMPTY_FLAGS);
      state := ConclusionWait(cookie, response);
      return Send(response);
    }

    method WaitForConclusion(h: Handshake, ghost cookie: int) returns (o: Outcome)
      requires state.ConclusionWait? && crypto.Sound()
      modifies this
      ensures (Value(), o) == ListenerReceives(crypto, old(Value()), h, cookie)
    {
      hide Accepts, CryptoImplemented;
      if h.shakeType == Induction { return Send(state.inductionResponse); }
      if h.shakeType != Conclusion || h.info.V4? || h.synCookie != state.cookie { return Nothing; }
      if enableAccessControl {
        state := AccessControlRequested(state.cookie, h);
        o := RequestAccess(h.socketId, h.info.info.sid, h.info.info.keySize);
      } else {
        o := AcceptConnection(state.cookie, h, initSettings.keySettings);
      }
    }

    method AcceptConnection(cookie: int, shake: Handshake, keySettings: Option<KeySettings>) returns (o: Outcome)
      requires crypto.Sound()
      modifies this
      ensures (Value(), o) == Accepts(crypto, old(Value()), cookie, shake, keySettings)
    {
      hide GenResponse, CryptoImplemented;
      var response := GenHsv5Response(crypto, initSettings, shake, keySettings);
      if keySettings.Some? {
        initSettings := initSettings.(keySettings := keySettings);
      }
      match response {
        case Accept(hsv5, settings) =>
          var packet := shake.(synCookie := cookie, socketId := initSettings.localSockId, info := hsv5,
              shakeType := Conclusion);
          state := Accepted(settings, packet);
          o := Outcome.Connected(Some(packet));
        case NotHandled => o := Nothing;
        case Reject(reason) => o := MakeRejection(shake, reason);
        case Unimplemented => o := Stopped;
      }
    }

    method MakeRejection(shake: Handshake, reason: RejectReason) returns (o: Outcome)
      modifies this`state
      ensures (Value(), o) == Refusal(old(Value()), shake, reason)
    {
      state := InductionWait;
      return Outcome.Rejected(Some(shake.(shakeType := Rejection(reason), socketId := initSettings.localSockId)));
    }

    /** While the listener listens. */
    method HandlePacket(h: Handshake, cookie: int) returns (o: Outcome)
      requires !state.Accepted? && crypto.Sound()
      modifies this
      ensures (Value(), o) == ListenerReceives(crypto, old(Value()), h, cookie)
    {
      hide Accepts, CryptoImplemented;
      if state.InductionWait? {
        o := WaitForInduction(h, cookie);
      } else if state.ConclusionWait? {
        o := WaitForConclusion(h, cookie);
      } else {
        o := Nothing;
      }
    }

    method HandleAccessControlResponse(response: AccessControlResponse) returns (o: Outcome)
      requires crypto.Sound()
      modifies this
      ensures (Value(), o) == ListenerDecides(crypto, old(Value()), response)
    {
      hide Accepts, CryptoImplemented;
      if !state.AccessControlRequested? { return Nothing; }
      match response {
        case Grant(keySettings) => o := AcceptConnection(state.cookie, state.shake, keySettings);
        case Deny(reason) => o := MakeRejection(state.shake, reason);
        case Drop => o := MakeRejection(state.shake, PeerRejects);
      }
    }
  }
}
