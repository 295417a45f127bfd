/** When keys are refreshed: counted in packets, over every run of the key exchange. */
module RefreshSchedule {
  import opened Packets
  import opened Arithmetic
  import opened StreamKeys
  import opened KeyRefresh
  import opened KeyExchange

  // Counting down by one, round and round.
  lemma {:induction false} CountDown(k: int, p: nat)
    requires 1 < p
    ensures (k - 1) % p == if k % p == 0 then p - 1 else k % p - 1
  {
    var q, r := k / p, k % p;
    assert k == p * q + r;
    if r == 0 {
      assert k - 1 == (p - 1) + p * (q - 1);
      ModShift(p - 1, p, q - 1);
      ModIs(0, p, p - 1);
    } else {
      assert k - 1 == (r - 1) + p * q;
      ModShift(r - 1, p, q);
      ModIs(0, p, r - 1);
    }
  }

  /** The countdowns after `n` packets. */
  ghost predicate Counts(e: SenderKeys, n: nat) {
    && ValidRefresh(e.period, e.preAnnouncement)
    && e.untilPreAnnouncement == (e.period - e.preAnnouncement - n) % e.period
    && e.untilSwitch == (if n == 0 then e.period else (0 - n) % e.period)
    && e.untilTransmit <= Min(e.preAnnouncement, 1_000)
  }

  lemma {:induction false} TurnCounts(x: Crypto, e: SenderKeys, k: Key, n: nat)
    requires EncInv(x, e) && |k| == e.settings.keySize.AsUsize() && Counts(e, n)
    ensures Counts(Turn(x, e, k), n + 1)
  {
    hide Wrapping;
    CountDown(e.period - e.preAnnouncement - n, e.period);
    CountDown(0 - n, e.period);
    ModIs(0, e.period, 0);
  }

  lemma {:induction false} StartCounts(x: Crypto, l: Link)
    requires Opens(x, l)
    ensures Counts(l.enc, 0)
  {
    ModIs(0, l.enc.period, l.enc.period - l.enc.preAnnouncement);
  }

  /** In every run the countdowns say how many packets were sent. */
  lemma {:induction false} RunCounts(x: Crypto, l: Link, steps: seq<LinkStep>)
    requires Opens(x, l) && Execute(x, l, steps).Some?
    ensures var e := Execute(x, l, steps).value.enc;
            && Counts(e, PacketCount(steps)) && e.settings == l.enc.settings
            && e.period == l.enc.period && e.preAnnouncement == l.enc.preAnnouncement
  {
    hide Opens, Counts, Turn, Sends, Install, EncInv;
    if steps == [] {
      StartCounts(x, l);
    } else {
      var n := |steps| - 1;
      RunCounts(x, l, steps[..n]);
      var before := Execute(x, l, steps[..n]).value;
      StepCounts(x, before, steps[n], PacketCount(steps[..n]));
    }
  }

  lemma {:induction false} StepCounts(x: Crypto, l: Link, step: LinkStep, n: nat)
    requires CanTake(x, l, step) && Counts(l.enc, n)
    ensures var e := Apply(x, l, step).enc;
            && Counts(e, if step.EncryptPacket? then n + 1 else n) && e.settings == l.enc.settings
            && e.period == l.enc.period && e.preAnnouncement == l.enc.preAnnouncement
  {
    if step.EncryptPacket? {
      TurnCounts(x, l.enc, step.freshKey, n);
      hide Counts, Wrapping;
    } else {
      hide Wrapping, Install;
    }
  }

  /** What packet number `n` of a run does, counted from 0. A key serves for `period` packets:
      the sender changes over to the other one after every so many, unless the last new key
      is unconfirmed. The new key is generated `preAnnouncement` packets ahead of that and
      goes out at once; and no other packet changes the keys. */
  lemma {:induction false} RefreshedOnSchedule(x: Crypto, l: Link, steps: seq<LinkStep>, k: Key)
    requires Opens(x, l) && Execute(x, l, steps + [EncryptPacket(k)]).Some?
    ensures Execute(x, l, steps).Some?
    ensures var was, now := Execute(x, l, steps).value, Execute(x, l, steps + [EncryptPacket(k)]).value;
            var n, period := PacketCount(steps), l.enc.period;
            && (now.enc.active != was.enc.active <==> 0 < n && n % period == 0 && was.enc.last.None?)
            && now.enc.keys.GetKey(was.enc.active) == was.enc.keys.GetKey(was.enc.active)
            && (if n % period == period - l.enc.preAnnouncement && was.enc.last.None?
                then
                  && now.enc.keys.GetKey(if was.enc.active == Even then Odd else Even) == Some(k)
                  && now.enc.keys.Fit(now.enc.settings.keySize) && x.Sound()
                  && now.enc.last == Some(Wrapping(x, now.enc.settings, now.enc.keys))
                  && now.requests == was.requests + [now.enc.last.value]
                else now.enc.keys == was.enc.keys && now.enc.last == was.enc.last)
  {
    var all := steps + [EncryptPacket(k)];
    assert all[..|steps|] == steps && all[|steps|] == EncryptPacket(k);
    var was := Execute(x, l, steps).value;
    RunCounts(x, l, steps);
    CountsZero(was.enc, PacketCount(steps));
    hide Opens, Counts, Execute, Wrapping, PacketCount;
    TurnSafe(x, was.enc, k);
  }

  lemma {:induction false} CountsZero(e: SenderKeys, n: nat)
    requires Counts(e, n)
    ensures e.untilPreAnnouncement == 0 <==> n % e.period == e.period - e.preAnnouncement
    ensures e.untilSwitch == 0 <==> 0 < n && n % e.period == 0
  {
    Negated(e.period - e.preAnnouncement, n, e.period);
    Negated(0, n, e.period);
  }

  lemma {:induction false} Negated(a: nat, n: nat, p: nat)
    requires 0 < p && a < p
    ensures (a - n) % p == 0 <==> n % p == a
  {
    var q, r := n / p, n % p;
    assert n == p * q + r;
    assert a - n == (a - r) + p * (-q);
    ModShift(a - r, p, -q);
    if a < r {
      ModShift(a - r, p, 1);
      ModIs(0, p, a - r + p);
    } else {
      ModIs(0, p, a - r);
    }
  }

  /** A new key that is not confirmed goes out again and again: among any so many packets in
      a row, at least one carries it. */
  lemma {:induction false} UnconfirmedIsRepeated(x: Crypto, l: Link, steps: seq<LinkStep>, more: seq<LinkStep>)
    returns (i: nat)
    requires Opens(x, l) && Execute(x, l, steps).Some? && Execute(x, l, steps + more).Some?
    requires forall j | 0 <= j < |more| :: more[j].EncryptPacket?
    requires Execute(x, l, steps).value.enc.last.Some? && Min(l.enc.preAnnouncement, 1_000) < |more|
    ensures i < |more| && Execute(x, l, steps + more[..i]).Some? && Execute(x, l, steps + more[..i + 1]).Some?
    ensures Execute(x, l, steps + more[..i + 1]).value.requests
            == Execute(x, l, steps + more[..i]).value.requests + [Execute(x, l, steps).value.enc.last.value]
  {
    RunCounts(x, l, steps);
    hide Opens, Execute;
    i := RepeatedWithin(x, l, steps, more);
  }

  lemma {:induction false} RepeatedWithin(x: Crypto, l: Link, steps: seq<LinkStep>, more: seq<LinkStep>)
    returns (i: nat)
    requires Execute(x, l, steps).Some? && Execute(x, l, steps + more).Some?
    requires forall j | 0 <= j < |more| :: more[j].EncryptPacket?
    requires Execute(x, l, steps).value.enc.last.Some? && Execute(x, l, steps).value.enc.untilTransmit < |more|
    ensures i < |more| && Execute(x, l, steps + more[..i]).Some? && Execute(x, l, steps + more[..i + 1]).Some?
    ensures Execute(x, l, steps + more[..i + 1]).value.requests
            == Execute(x, l, steps + more[..i]).value.requests + [Execute(x, l, steps).value.enc.last.value]
    decreases |more|
  {
    hide Execute, CanTake, Apply;
    var next := steps + [more[0]];
    assert steps + more == next + more[1..];
    RunPrefix(x, l, next, more[1..]);
    LastStep(x, l, steps, more[0]);
    var was, now := Execute(x, l, steps).value, Execute(x, l, next).value;
    RepeatedOr(x, was, more[0]);
    if was.enc.untilTransmit == 0 || was.enc.untilPreAnnouncement == 0 {
      i := 0;
      assert steps + more[..0] == steps && steps + more[..1] == next;
    } else {
      var j := RepeatedWithin(x, l, next, more[1..]);
      i := j + 1;
      assert steps + more[..i] == next + more[1..][..j] && steps + more[..i + 1] == next + more[1..][..j + 1];
    }
  }

  lemma {:induction false} LastStep(x: Crypto, l: Link, steps: seq<LinkStep>, step: LinkStep)
    requires Execute(x, l, steps + [step]).Some?
    ensures Execute(x, l, steps).Some? && CanTake(x, Execute(x, l, steps).value, step)
    ensures Execute(x, l, steps + [step]).value == Apply(x, Execute(x, l, steps).value, step)
  {
    hide CanTake, Apply;
    assert (steps + [step])[..|steps|] == steps && (steps + [step])[|steps|] == step;
  }

  lemma {:induction false} RepeatedOr(x: Crypto, l: Link, step: LinkStep)
    requires CanTake(x, l, step) && step.EncryptPacket? && l.enc.last.Some?
    ensures var l' := Apply(x, l, step);
            && l'.enc.last == l.enc.last
            && (if l.enc.untilTransmit == 0 || l.enc.untilPreAnnouncement == 0
                then l'.requests == l.requests + [l.enc.last.value]
                else l'.enc.untilTransmit == l.enc.untilTransmit - 1)
  {
    hide Wrapping;
  }

  lemma {:induction false} RunPrefix(x: Crypto, l: Link, steps: seq<LinkStep>, more: seq<LinkStep>)
    requires Execute(x, l, steps + more).Some?
    ensures Execute(x, l, steps).Some?
    decreases |more|
  {
    hide Execute, CanTake, Apply;
    if more == [] {
      assert steps + more == steps;
    } else {
      var n := |more| - 1;
      assert steps + more[..n] + [more[n]] == steps + more;
      LastStep(x, l, steps + more[..n], more[n]);
      RunPrefix(x, l, steps, more[..n]);
    }
  }
}
