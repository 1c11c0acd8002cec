/**
 * Key routing shared by the two front ends: which events belong to push-to-talk,
 * which are the host's input-method switching hotkeys, and how host modifier
 * bits become the composition engine's 4-bit modifier mask.
 *
 * Key symbols are X11 keysyms (both hosts use them). Modifier words are 32-bit
 * masks in each host's own bit layout.
 */
module Keys {

  const KeyF9: int := 0xffc6
  const KeySpace: int := 0x0020
  const KeyShiftL: int := 0xffe1
  const KeyShiftR: int := 0xffe2

  /** The push-to-talk key of both front ends. */
  const PttKey: int := KeyF9

  // Fcitx 5 KeyState bits.
  const FcitxShift: bv32 := 1 << 0
  const FcitxCapsLock: bv32 := 1 << 1
  const FcitxCtrl: bv32 := 1 << 2
  const FcitxAlt: bv32 := 1 << 3
  const FcitxSuper: bv32 := 1 << 6

  // IBus ModifierType bits.
  const IBusShift: bv32 := 1 << 0
  const IBusLock: bv32 := 1 << 1
  const IBusControl: bv32 := 1 << 2
  const IBusMod1: bv32 := 1 << 3
  const IBusMod4: bv32 := 1 << 6
  const IBusSuper: bv32 := 1 << 26
  const IBusRelease: bv32 := 1 << 30

  // The composition engine's modifier mask bits.
  const RimeShift: int := 1
  const RimeLock: int := 2
  const RimeControl: int := 4
  const RimeAlt: int := 8

  predicate Has(states: bv32, flag: bv32) {
    states & flag != 0
  }

  /** Fcitx front end: Ctrl+Space, Super+Space, and Shift_L/Shift_R held with Ctrl or Alt. */
  predicate FcitxSwitchHotkey(sym: int, states: bv32) {
    (sym == KeySpace && (Has(states, FcitxCtrl) || Has(states, FcitxSuper)))
    || ((sym == KeyShiftL || sym == KeyShiftR) && (Has(states, FcitxCtrl) || Has(states, FcitxAlt)))
  }

  /** IBus front end: Control+Space, Super or Mod4 with Space, and Shift_L/Shift_R with Mod1 or Control. */
  predicate IBusSwitchHotkey(keyval: int, state: bv32) {
    if keyval == KeySpace && Has(state, IBusControl) then true
    else if keyval == KeySpace && Has(state, IBusSuper | IBusMod4) then true
    else if (keyval == KeyShiftL || keyval == KeyShiftR) && Has(state, IBusMod1) then true
    else (keyval == KeyShiftL || keyval == KeyShiftR) && Has(state, IBusControl)
  }

  /**
   * Both front ends let the same hotkeys through to the host: the bit layouts
   * agree on Ctrl, Alt/Mod1 and Super/Mod4, and IBus alone also honours its
   * separate Super bit.
   */
  lemma SwitchHotkeysAgree(sym: int, states: bv32)
    ensures IBusSwitchHotkey(sym, states)
            <==> FcitxSwitchHotkey(sym, states) || (sym == KeySpace && Has(states, IBusSuper))
  {
    assert Has(states, IBusSuper | IBusMod4) <==> Has(states, IBusSuper) || Has(states, FcitxSuper);
  }

  /**
   * The mask the front ends send with a forwarded key, built bit by bit from
   * the host's Shift, CapsLock/Lock, Ctrl/Control and Alt/Mod1 bits, which sit
   * at the same positions in both hosts' layouts.
   */
  function RimeMask(states: bv32): (mask: int)
    ensures 0 <= mask <= 15
    ensures mask % 2 == 1 <==> Has(states, FcitxShift)
    ensures (mask / 2) % 2 == 1 <==> Has(states, FcitxCapsLock)
    ensures (mask / 4) % 2 == 1 <==> Has(states, FcitxCtrl)
    ensures mask / 8 == 1 <==> Has(states, FcitxAlt)
  {
    (if Has(states, FcitxShift) then RimeShift else 0)
    + (if Has(states, FcitxCapsLock) then RimeLock else 0)
    + (if Has(states, FcitxCtrl) then RimeControl else 0)
    + (if Has(states, FcitxAlt) then RimeAlt else 0)
  }

  /** The mask is exactly the low four bits of the host's modifier word: other modifiers never leak into it. */
  lemma RimeMaskIsLowNibble(states: bv32)
    ensures RimeMask(states) == (states & 15) as int
  {
    var low := states & 15;
    assert Has(states, FcitxShift) <==> low & 1 != 0;
    assert Has(states, FcitxCapsLock) <==> low & 2 != 0;
    assert Has(states, FcitxCtrl) <==> low & 4 != 0;
    assert Has(states, FcitxAlt) <==> low & 8 != 0;
    assert low < 16;
    LowNibbleValue(low);
  }

  lemma LowNibbleValue(low: bv32)
    requires low < 16
    ensures low as int == (if low & 1 != 0 then 1 else 0) + (if low & 2 != 0 then 2 else 0)
                          + (if low & 4 != 0 then 4 else 0) + (if low & 8 != 0 then 8 else 0)
  {
    if low == 0 {} else if low == 1 {} else if low == 2 {} else if low == 3 {}
    else if low == 4 {} else if low == 5 {} else if low == 6 {} else if low == 7 {}
    else if low == 8 {} else if low == 9 {} else if low == 10 {} else if low == 11 {}
    else if low == 12 {} else if low == 13 {} else if low == 14 {} else {}
  }

  /** What the push-to-talk branch asks of the recording controller. */
  datatype PttAction = StartRecording | StopAndTranscribe | NoChange

  /** Where a key event goes: push-to-talk (always consumed), back to the host, or to the composition engine. */
  datatype Route = Ptt(action: PttAction) | Pass | Forward

  /** Fcitx front end, keyEvent: the host supplies the release flag separately from the modifier word. */
  function FcitxRoute(sym: int, states: bv32, release: bool, recording: bool): (r: Route)
    ensures sym == PttKey <==> r.Ptt?
    ensures r == Ptt(StartRecording) <==> sym == PttKey && !release && !recording
    ensures r == Ptt(StopAndTranscribe) <==> sym == PttKey && release && recording
    ensures r == Forward <==> sym != PttKey && !release && !FcitxSwitchHotkey(sym, states)
  {
    if sym == PttKey then
      if release then Ptt(if recording then StopAndTranscribe else NoChange)
      else Ptt(if !recording then StartRecording else NoChange)
    else if release then Pass
    else if FcitxSwitchHotkey(sym, states) then Pass
    else Forward
  }

  /**
   * IBus front end, do_process_key_event: the release flag is a bit of the
   * modifier word, and the hotkey check comes before it, so a release of
   * another key still goes to the forwarding path, which declines it there.
   */
  function IBusRoute(keyval: int, state: bv32, recording: bool): (r: Route)
    ensures keyval == PttKey <==> r.Ptt?
    ensures r == Ptt(StartRecording) <==> keyval == PttKey && !Has(state, IBusRelease) && !recording
    ensures r == Ptt(StopAndTranscribe) <==> keyval == PttKey && Has(state, IBusRelease) && recording
    ensures r == Pass <==> keyval != PttKey && IBusSwitchHotkey(keyval, state)
  {
    var release := Has(state, IBusRelease);
    if keyval != PttKey then
      if IBusSwitchHotkey(keyval, state) then Pass else Forward
    else if !release then Ptt(if !recording then StartRecording else NoChange)
    else Ptt(if recording then StopAndTranscribe else NoChange)
  }

  /**
   * For a press whose modifier word uses only bits the two layouts share, the
   * two front ends route every key the same way.
   */
  lemma RoutesAgreeOnPress(sym: int, states: bv32, recording: bool)
    requires !Has(states, IBusRelease) && !Has(states, IBusSuper)
    ensures FcitxRoute(sym, states, false, recording) == IBusRoute(sym, states, recording)
  {
    SwitchHotkeysAgree(sym, states);
  }
}
