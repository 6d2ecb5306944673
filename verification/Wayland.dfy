/** The Wayland key filter: which press, release and repeat events reach the engine and the application. */
module Wayland {
  import opened Text

  // ── What the application is sent ────────────────────────────────────────────

  /** Forwarded events carry the serial of the keyboard event; a synthetic release carries the commit serial.
      `Accepted` marks a release event that passed the filter. */
  datatype Entry =
    | Pressed(key: nat, serial: nat) | Released(key: nat, serial: nat)
    | Accepted(key: nat) | Synthetic(key: nat)

  /** Whether the last forwarded press of a key has no accepted release after it. */
  function IsOpen(history: seq<Entry>, key: nat): bool {
    if history == [] then false
    else
      var last := history[|history| - 1];
      if last.Pressed? && last.key == key then true
      else if last == Accepted(key) then false
      else IsOpen(history[..|history| - 1], key)
  }

  /** No press is forwarded while the press of the same key before it is still open. */
  predicate Alternates(history: seq<Entry>) {
    history == []
    || (Alternates(history[..|history| - 1])
        && var last := history[|history| - 1];
           && !last.Synthetic?
           && (last.Pressed? ==> !IsOpen(history[..|history| - 1], last.key)))
  }

  lemma {:induction false} ClosedBetween(history: seq<Entry>, key: nat, i: nat)
    requires i < |history| && history[i].Pressed? && history[i].key == key && !IsOpen(history, key)
    ensures exists m | i < m < |history| :: history[m] == Accepted(key)
  {
    var n := |history| - 1;
    if history[n] != Accepted(key) {
      ClosedBetween(history[..n], key, i);
      var m :| i < m < n && history[..n][m] == Accepted(key);
      assert history[m] == Accepted(key);
    }
  }

  /** What the recursive condition means: two forwarded presses of a key always have an accepted release of
      that key between them, and no release was sent with the commit serial. */
  lemma {:induction false} PressesAreSeparated(history: seq<Entry>)
    requires Alternates(history)
    ensures forall i | 0 <= i < |history| :: !history[i].Synthetic?
    ensures forall i, j | 0 <= i < j < |history| && history[i].Pressed? && history[j].Pressed?
                          && history[i].key == history[j].key ::
              exists m | i < m < j :: history[m] == Accepted(history[i].key)
  {
    if history != [] {
      var n := |history| - 1;
      PressesAreSeparated(history[..n]);
      forall i, j | 0 <= i < j < |history| && history[i].Pressed? && history[j].Pressed?
                    && history[i].key == history[j].key
        ensures exists m | i < m < j :: history[m] == Accepted(history[i].key)
      {
        if j == n {
          ClosedBetween(history[..n], history[i].key, i);
          var m :| i < m < n && history[..n][m] == Accepted(history[i].key);
          assert history[m] == Accepted(history[i].key);
        } else {
          assert history[..n][i].Pressed? && history[..n][j].Pressed?;
          var m :| i < m < j && history[..n][m] == Accepted(history[i].key);
          assert history[m] == Accepted(history[i].key);
        }
      }
    }
  }

  lemma OpenSnoc(history: seq<Entry>, e: Entry, key: nat)
    ensures IsOpen(history + [e], key)
         == if e.Pressed? && e.key == key then true else if e == Accepted(key) then false else IsOpen(history, key)
  {
    assert (history + [e])[..|history|] == history;
  }

  lemma AlternatesSnoc(history: seq<Entry>, e: Entry)
    ensures Alternates(history + [e])
         <==> Alternates(history) && !e.Synthetic? && (e.Pressed? ==> !IsOpen(history, e.key))
  {
    assert (history + [e])[..|history|] == history;
  }

  /** Whether the application saw a press of a key and no release of it since. */
  function IsDown(history: seq<Entry>, key: nat): bool {
    if history == [] then false
    else
      var last := history[|history| - 1];
      if last.Pressed? && last.key == key then true
      else if (last.Released? || last.Synthetic?) && last.key == key then false
      else IsDown(history[..|history| - 1], key)
  }

  /** The last entry about a key. */
  function LastOf(history: seq<Entry>, key: nat): Option<Entry> {
    if history == [] then None
    else if history[|history| - 1].key == key then Some(history[|history| - 1])
    else LastOf(history[..|history| - 1], key)
  }

  /** A key that is down in the application either has an open press, or its release passed the filter and was not
      forwarded. */
  lemma {:induction false} DownMeansOpenOrLost(history: seq<Entry>, key: nat)
    requires IsDown(history, key)
    ensures IsOpen(history, key) || LastOf(history, key) == Some(Accepted(key))
  {
    var last := history[|history| - 1];
    if last.key != key {
      DownMeansOpenOrLost(history[..|history| - 1], key);
    }
  }

  /** What an accepted release does in the application. */
  lemma ReleaseLands(history: seq<Entry>, key: nat, serial: nat)
    ensures IsDown(history + [Accepted(key)], key) <==> IsDown(history, key)
    ensures !IsDown(history + [Accepted(key)] + [Released(key, serial)], key)
  {
    assert (history + [Accepted(key)])[..|history|] == history;
  }

  // ── Timing ──────────────────────────────────────────────────────────────────

  function AtLeastOne(n: nat): nat {
    if n == 0 then 1 else n
  }

  /** The interval between repeat ticks, in milliseconds. */
  function TickInterval(rate: nat): nat {
    AtLeastOne(1000 / AtLeastOne(rate))
  }

  /** `repeat_stop_grace`: twice the interval, clamped to 60..500 ms. */
  function StopGrace(rate: nat): nat {
    var ms := 1000 / AtLeastOne(rate) * 2;
    if ms < 60 then 60 else if ms > 500 then 500 else ms
  }

  lemma MulMonotone(i: nat, a: nat, b: nat)
    requires a <= b
    ensures i * a <= i * b
  {
  }

  /** The grace period is meant to outlast the next repeat tick. It does for every rate but one tick per second,
      and it is two whole intervals exactly from four ticks per second on. */
  lemma GraceOutlastsTick(rate: nat)
    requires rate >= 1
    ensures StopGrace(rate) >= TickInterval(rate) <==> rate != 1
    ensures StopGrace(rate) >= 2 * TickInterval(rate) <==> rate >= 4
  {
    if rate >= 4 {
      var interval := 1000 / rate;
      assert interval * rate <= 1000;
      MulMonotone(interval, 4, rate);
    } else {
      assert rate == 1 || rate == 2 || rate == 3;
    }
  }

  /** Modifier keys, lock keys and unknown keys do not repeat. */
  predicate KeysymRepeats(keysym: nat) {
    keysym != 0 && !(0xFFE1 <= keysym <= 0xFFEE) && keysym != 0xFF7F && keysym != 0xFF14
  }

  // ── The filter ──────────────────────────────────────────────────────────────

  datatype RepeatActive = RepeatActive(keycode: nat, keysym: nat, consumed: bool)

  datatype ActiveContext = ActiveContext(serial: nat, mods: nat, hasKeymap: bool)

  /** What the engine says about a key; Failed is an error on the way to it. */
  datatype Verdict = Consumes | PassesOn | Failed

  datatype Event =
    | KeyEvent(serial: nat, key: nat, isPress: bool, sym: nat, repeats: bool, verdict: Verdict, now: nat)
    | ModifiersEvent(mods: nat)
    | ActivateEvent
    | DeactivateEvent
    | CommitStateEvent(serial: nat)
    | KeymapEvent
    | RepeatInfoEvent(fromSeat: bool, rate: int, delay: int)
    | DeadlineEvent(now: nat)
    | TicksEvent(verdicts: seq<Verdict>)

  class WaylandState {
    var active: Option<ActiveContext>
    var pressedKeys: set<nat>
    var repeatActive: Option<RepeatActive>
    var pendingStop: Option<nat>
    var repeatRate: nat
    var repeatDelay: nat
    var seatRepeatReceived: bool
    ghost var history: seq<Entry>

    /** A repeat is always for a consumed key that is held; a pending stop implies a repeat; a forwarded press
        that is still open is for a held key that does not repeat. */
    ghost predicate Valid()
      reads this
    {
      && (repeatActive.Some? ==> repeatActive.value.consumed && repeatActive.value.keycode in pressedKeys)
      && (pendingStop.Some? ==> repeatActive.Some?)
      && Alternates(history)
      && forall key: nat | IsOpen(history, key) :: key in pressedKeys && !Repeats(key)
    }

    predicate Repeats(key: nat)
      reads this`repeatActive
    {
      repeatActive.Some? && repeatActive.value.keycode == key
    }

    constructor ()
      ensures Valid() && active == None && pressedKeys == {} && repeatActive == None && history == []
    {
      active, pressedKeys, repeatActive, pendingStop := None, {}, None, None;
      repeatRate, repeatDelay, seatRepeatReceived, history := 25, 500, false, [];
    }

    /** `send_key_release_to_app`: a release with the commit serial. */
    method SendKeyReleaseToApp(key: nat)
      modifies this`history
      ensures history == if active.Some? then old(history) + [Synthetic(key)] else old(history)
    {
      if active.Some? {
        history := history + [Synthetic(key)];
      }
    }

    /** Ends the repeat, if there is one. A repeat of a key that was passed on would need a final release. */
    method EndRepeat()
      modifies this`repeatActive, this`pressedKeys, this`history
      ensures repeatActive == None
      ensures pressedKeys == if old(repeatActive).Some? then old(pressedKeys) - {old(repeatActive).value.keycode}
                             else old(pressedKeys)
      ensures history == if old(repeatActive).Some? && !old(repeatActive).value.consumed && active.Some?
                         then old(history) + [Synthetic(old(repeatActive).value.keycode)] else old(history)
    {
      if repeatActive.Some? {
        var ra := repeatActive.value;
        repeatActive := None;
        pressedKeys := pressedKeys - {ra.keycode};
        if !ra.consumed {
          SendKeyReleaseToApp(ra.keycode);
        }
      }
    }

    /** `stop_all_repeat` */
    method StopAllRepeat()
      requires Valid()
      modifies this`repeatActive, this`pressedKeys, this`pendingStop, this`history
      ensures Valid() && repeatActive == None && pendingStop == None && history == old(history)
      ensures pressedKeys == if old(repeatActive).Some? then old(pressedKeys) - {old(repeatActive).value.keycode}
                             else old(pressedKeys)
    {
      EndRepeat();
      pendingStop := None;
    }

    /** `start_repeat`: the previous repeat ends; only a consumed key begins to repeat. */
    method StartRepeat(keycode: nat, keysym: nat, consumed: bool)
      requires Valid() && keycode in pressedKeys && !Repeats(keycode)
      requires consumed ==> !IsOpen(history, keycode)
      modifies this`repeatActive, this`pressedKeys, this`pendingStop, this`history
      ensures Valid() && pendingStop == None && history == old(history)
      ensures repeatActive == if consumed && repeatRate != 0 then Some(RepeatActive(keycode, keysym, consumed)) else None
      ensures pressedKeys == if old(repeatActive).Some? then old(pressedKeys) - {old(repeatActive).value.keycode}
                             else old(pressedKeys)
    {
      hide IsOpen, Alternates;
      EndRepeat();
      pendingStop := None;
      if !consumed { return; }
      if repeatRate == 0 { return; }
      repeatActive := Some(RepeatActive(keycode, keysym, consumed));
    }

    /** `on_key`: whether the engine consumed the key. A key that it passes on is forwarded if asked to; without
        a context, and on an error, the key is dropped. */
    method OnKey(serial: nat, key: nat, isPress: bool, forwardPassthrough: bool, verdict: Verdict)
      returns (consumed: bool)
      modifies this`history
      ensures consumed <==> active.Some? && verdict == Consumes
      ensures history == if active.Some? && verdict == PassesOn && forwardPassthrough
                         then old(history) + [if isPress then Pressed(key, serial) else Released(key, serial)]
                         else old(history)
    {
      if active.None? { return false; }
      if verdict == Failed { return false; }
      consumed := verdict == Consumes;
      if !consumed && forwardPassthrough {
        history := history + [if isPress then Pressed(key, serial) else Released(key, serial)];
      }
    }

    /** The filter in front of a press: a press of a held key is a re-tap while its repeat is about to stop,
        and stray otherwise. */
    method FilterPress(key: nat) returns (accepted: bool)
      requires Valid()
      modifies this`repeatActive, this`pressedKeys, this`pendingStop, this`history
      ensures Valid() && history == old(history)
      ensures accepted <==> key !in old(pressedKeys) || (old(Repeats(key)) && old(pendingStop).Some?)
      ensures accepted ==> key in pressedKeys && !Repeats(key) && !IsOpen(history, key)
      ensures accepted ==> pressedKeys == old(pressedKeys) + {key}
                           && repeatActive == if key in old(pressedKeys) then None else old(repeatActive)
      ensures !accepted ==> pressedKeys == old(pressedKeys) && repeatActive == old(repeatActive)
                            && pendingStop == old(pendingStop)
    {
      if key in pressedKeys {
        if Repeats(key) && pendingStop.Some? {
          StopAllRepeat();
          pressedKeys := pressedKeys + {key};
          return true;
        }
        return false;
      }
      pressedKeys := pressedKeys + {key};
      return true;
    }

    /** The filter in front of a release: a repeating key is let go of later, and a key that is not held is
        ignored. */
    method FilterRelease(key: nat, now: nat) returns (accepted: bool)
      requires Valid()
      modifies this`pressedKeys, this`pendingStop, this`history
      ensures Valid()
      ensures accepted <==> key in old(pressedKeys) && !Repeats(key)
      ensures accepted ==> pressedKeys == old(pressedKeys) - {key} && history == old(history) + [Accepted(key)]
                           && pendingStop == old(pendingStop)
      ensures !accepted ==> pressedKeys == old(pressedKeys) && history == old(history)
      ensures !accepted ==> pendingStop == if Repeats(key) then Some(now + StopGrace(repeatRate)) else old(pendingStop)
    {
      if Repeats(key) {
        pendingStop := Some(now + StopGrace(repeatRate));
        return false;
      }
      if key !in pressedKeys { return false; }
      pressedKeys := pressedKeys - {key};
      ghost var before := history;
      history := history + [Accepted(key)];
      AlternatesSnoc(before, Accepted(key));
      forall k: nat ensures IsOpen(history, k) ==> IsOpen(before, k) && k != key {
        OpenSnoc(before, Accepted(key), k);
      }
      return true;
    }

    /** A key reaches the application when the context knows its symbol and the engine passes it on. */
    predicate IsForwarded(keysym: nat, verdict: Verdict)
      reads this`active
    {
      active.Some? && active.value.hasKeymap && keysym != 0 && verdict == PassesOn
    }

    /** A `wl_keyboard.key` event. The keymap is consulted only in an active context that has one. */
    method Key(serial: nat, key: nat, isPress: bool, mappedSym: nat, mappedRepeats: bool, verdict: Verdict, now: nat)
      returns (accepted: bool)
      requires Valid()
      modifies this`repeatActive, this`pressedKeys, this`pendingStop, this`history
      ensures Valid()
      ensures accepted <==> if isPress then key !in old(pressedKeys) || (old(Repeats(key)) && old(pendingStop).Some?)
                            else key in old(pressedKeys) && !old(Repeats(key))
      ensures !accepted ==> history == old(history) && pressedKeys == old(pressedKeys) && repeatActive == old(repeatActive)
      ensures accepted && isPress ==>
                && key in pressedKeys
                && history == if IsForwarded(mappedSym, verdict) then old(history) + [Pressed(key, serial)]
                              else old(history)
      ensures accepted && !isPress ==>
                && pressedKeys == old(pressedKeys) - {key}
                && history == if IsForwarded(mappedSym, verdict)
                              then old(history) + [Accepted(key)] + [Released(key, serial)]
                              else old(history) + [Accepted(key)]
      ensures accepted && !isPress ==>
                (IsDown(history, key) <==> IsDown(old(history), key) && !IsForwarded(mappedSym, verdict))
      ensures repeatActive.Some? && repeatActive != old(repeatActive) ==>
                && accepted && isPress && active.Some? && verdict == Consumes && repeatRate != 0
                && repeatActive == Some(RepeatActive(key, mappedSym, true))
    {
      hide IsOpen, Alternates, Valid, KeysymRepeats, IsDown;
      ReleaseLands(history, key, serial);
      if isPress {
        accepted := FilterPress(key);
      } else {
        accepted := FilterRelease(key, now);
      }
      if !accepted { return; }
      Deliver(serial, key, isPress, mappedSym, mappedRepeats, verdict);
    }

    /** What happens to a key that passed the filter. */
    method Deliver(serial: nat, key: nat, isPress: bool, mappedSym: nat, mappedRepeats: bool, verdict: Verdict)
      requires Valid()
      requires isPress ==> key in pressedKeys && !Repeats(key) && !IsOpen(history, key)
      modifies this`repeatActive, this`pressedKeys, this`pendingStop, this`history
      ensures Valid() && (isPress ==> key in pressedKeys) && (!isPress ==> pressedKeys == old(pressedKeys))
      ensures history == if IsForwarded(mappedSym, verdict)
                         then old(history) + [if isPress then Pressed(key, serial) else Released(key, serial)]
                         else old(history)
      ensures repeatActive == old(repeatActive) || repeatActive == None
           || (isPress && active.Some? && verdict == Consumes && repeatRate != 0
               && repeatActive == Some(RepeatActive(key, mappedSym, true)))
    {
      hide IsOpen, Alternates, KeysymRepeats;
      var mapped := active.Some? && active.value.hasKeymap;
      var keysym := if mapped then mappedSym else 0;
      var eligible := (mapped && mappedRepeats) || KeysymRepeats(keysym);
      var consumed := false;
      if keysym != 0 {
        ForwardKeeps(history, key, serial, isPress);
        consumed := OnKey(serial, key, isPress, true, verdict);
      }
      if isPress && eligible {
        StartRepeat(key, keysym, consumed);
      }
    }

    /** What forwarding one event does to the history. */
    static lemma ForwardKeeps(before: seq<Entry>, key: nat, serial: nat, isPress: bool)
      ensures var e := if isPress then Pressed(key, serial) else Released(key, serial);
        && (Alternates(before) && (isPress ==> !IsOpen(before, key)) ==> Alternates(before + [e]))
        && (forall k: nat :: IsOpen(before + [e], k) <==> IsOpen(before, k) || (isPress && k == key))
    {
      var e := if isPress then Pressed(key, serial) else Released(key, serial);
      AlternatesSnoc(before, e);
      forall k: nat ensures IsOpen(before + [e], k) <==> IsOpen(before, k) || (isPress && k == key) {
        OpenSnoc(before, e, k);
      }
    }

    /** A modifiers event: a change stops the repeat. */
    method Modifiers(mods: nat)
      requires Valid()
      modifies this`active, this`repeatActive, this`pressedKeys, this`pendingStop, this`history
      ensures Valid() && history == old(history)
      ensures active == if old(active).Some? then Some(old(active).value.(mods := mods)) else None
      ensures (if old(active).Some? then old(active).value.mods else 0) != mods ==> repeatActive == None
      ensures (if old(active).Some? then old(active).value.mods else 0) == mods ==>
                repeatActive == old(repeatActive) && pressedKeys == old(pressedKeys)
    {
      var before := if active.Some? then active.value.mods else 0;
      if active.Some? {
        active := Some(active.value.(mods := mods));
      }
      if mods != before && repeatActive.Some? {
        StopAllRepeat();
      }
    }

    method Activate()
      requires Valid()
      modifies this`active
      ensures Valid() && active == Some(ActiveContext(0, 0, false))
    {
      active := Some(ActiveContext(0, 0, false));
    }

    /** Held keys survive a change of focus, so that their release is not taken for a stray one. */
    method Deactivate()
      requires Valid()
      modifies this`active, this`repeatActive, this`pressedKeys, this`pendingStop, this`history
      ensures Valid() && active == None && repeatActive == None && history == old(history)
      ensures pressedKeys == if old(repeatActive).Some? then old(pressedKeys) - {old(repeatActive).value.keycode}
                             else old(pressedKeys)
    {
      StopAllRepeat();
      active := None;
    }

    method CommitState(serial: nat)
      requires Valid()
      modifies this`active
      ensures Valid() && active == if old(active).Some? then Some(old(active).value.(serial := serial)) else None
    {
      if active.Some? {
        active := Some(active.value.(serial := serial));
      }
    }

    method Keymap()
      requires Valid()
      modifies this`active
      ensures Valid() && active == if old(active).Some? then Some(old(active).value.(hasKeymap := true)) else None
    {
      if active.Some? {
        active := Some(active.value.(hasKeymap := true));
      }
    }

    /** Repeat settings: from the grabbed keyboard a zero rate counts only until the seat has spoken. */
    method RepeatInfo(fromSeat: bool, rate: int, delay: int)
      requires Valid()
      modifies this`repeatRate, this`repeatDelay, this`seatRepeatReceived
      ensures Valid() && seatRepeatReceived == (old(seatRepeatReceived) || fromSeat)
      ensures repeatRate == if fromSeat || rate > 0 || !old(seatRepeatReceived) then (if rate > 0 then rate else 0)
                            else old(repeatRate)
    {
      if fromSeat || rate > 0 || !seatRepeatReceived {
        repeatRate := if rate > 0 then rate else 0;
        repeatDelay := if delay > 0 then delay else 0;
      }
      if fromSeat { seatRepeatReceived := true; }
    }

    /** The deadline part of the main loop. */
    method CheckDeadline(now: nat)
      requires Valid()
      modifies this`repeatActive, this`pressedKeys, this`pendingStop, this`history
      ensures Valid() && history == old(history)
      ensures old(pendingStop).Some? && now >= old(pendingStop).value ==>
                && repeatActive == None && pendingStop == None
                && pressedKeys == old(pressedKeys) - {old(repeatActive).value.keycode}
      ensures !(old(pendingStop).Some? && now >= old(pendingStop).value) ==>
                repeatActive == old(repeatActive) && pendingStop == old(pendingStop) && pressedKeys == old(pressedKeys)
    {
      if pendingStop.Some? {
        if now >= pendingStop.value {
          EndRepeat();
          pendingStop := None;
        }
      }
    }

    /** The repeat ticks of one turn of the main loop; nothing is forwarded, and the first tick that the engine
        does not consume ends the repeat. */
    method RepeatTicks(verdicts: seq<Verdict>) returns (fed: nat)
      requires Valid()
      modifies this`repeatActive, this`pressedKeys, this`pendingStop, this`history
      ensures Valid() && history == old(history) && fed <= |verdicts|
      ensures repeatActive == old(repeatActive) || repeatActive == None
      ensures repeatActive.Some? ==> fed == |verdicts| && pressedKeys == old(pressedKeys)
                                     && forall i | 0 <= i < fed :: verdicts[i] == Consumes
      ensures old(repeatActive).None? ==> fed == 0 && pressedKeys == old(pressedKeys)
    {
      fed := 0;
      while fed < |verdicts|
        invariant fed <= |verdicts|
        invariant Valid() && history == old(history)
        invariant repeatActive == old(repeatActive) && pressedKeys == old(pressedKeys)
        invariant pendingStop == old(pendingStop)
        invariant old(repeatActive).None? ==> fed == 0
        invariant fed > 0 ==> active.Some?
        invariant forall i | 0 <= i < fed :: verdicts[i] == Consumes
      {
        if repeatActive.None? { break; }
        var ra := repeatActive.value;
        var still := false;
        if ra.consumed {
          still := OnKey(0, ra.keycode, true, false, verdicts[fed]);
          fed := fed + 1;
        }
        if !still {
          StopAllRepeat();
          break;
        }
      }
    }

    /** One event of the main loop or of the compositor. */
    method Handle(e: Event)
      requires Valid()
      modifies this
      ensures Valid() && old(history) <= history
    {
      hide Valid;
      match e {
        case KeyEvent(serial, key, isPress, sym, repeats, verdict, now) =>
          var _ := Key(serial, key, isPress, sym, repeats, verdict, now);
        case ModifiersEvent(mods) => Modifiers(mods);
        case ActivateEvent => Activate();
        case DeactivateEvent => Deactivate();
        case CommitStateEvent(serial) => CommitState(serial);
        case KeymapEvent => Keymap();
        case RepeatInfoEvent(fromSeat, rate, delay) => RepeatInfo(fromSeat, rate, delay);
        case DeadlineEvent(now) => CheckDeadline(now);
        case TicksEvent(verdicts) => var _ := RepeatTicks(verdicts);
      }
    }

    /** Main result, for every run of events from the start: an active repeat is for a consumed key that is
        held, a pending stop implies a repeat, two forwarded presses of a key always have an accepted release
        of it between them, no release was ever sent with the commit serial, and a key that is down in the
        application is held, or else its last release passed the filter and was not forwarded. */
    static method Run(events: seq<Event>) returns (state: WaylandState)
      ensures fresh(state) && state.Valid()
      ensures state.repeatActive.Some? ==>
                state.repeatActive.value.consumed && state.repeatActive.value.keycode in state.pressedKeys
      ensures state.pendingStop.Some? ==> state.repeatActive.Some?
      ensures forall i | 0 <= i < |state.history| :: !state.history[i].Synthetic?
      ensures forall key: nat | IsDown(state.history, key) ::
                key in state.pressedKeys || LastOf(state.history, key) == Some(Accepted(key))
      ensures forall i, j | 0 <= i < j < |state.history| && state.history[i].Pressed? && state.history[j].Pressed?
                            && state.history[i].key == state.history[j].key ::
                exists m | i < m < j :: state.history[m] == Accepted(state.history[i].key)
    {
      state := new WaylandState();
      for i := 0 to |events|
        invariant fresh(state) && state.Valid()
      {
        state.Handle(events[i]);
      }
      PressesAreSeparated(state.history);
      forall key: nat | IsDown(state.history, key)
        ensures key in state.pressedKeys || LastOf(state.history, key) == Some(Accepted(key))
      {
        DownMeansOpenOrLost(state.history, key);
      }
    }

    /** The exception is real: the daemon passes a press on and fails at the release, and the key stays down in the
        application although nobody holds it. */
    static method LosesRelease() returns (state: WaylandState)
      ensures fresh(state) && state.Valid() && IsDown(state.history, 30) && 30 !in state.pressedKeys
    {
      hide Alternates, IsOpen;
      state := new WaylandState();
      state.Activate();
      state.Keymap();
      var pressed := state.Key(1, 30, true, 0x61, true, PassesOn, 0);
      assert IsDown(state.history, 30);
      var released := state.Key(2, 30, false, 0x61, true, Failed, 100);
    }
  }
}
