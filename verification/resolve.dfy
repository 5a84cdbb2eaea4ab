/** The decisions the handler makes beyond copying parsed options into a
    command: on-air toggling against the snapshot, super-source bank choice,
    the three-way macro decision, transition-style routing and the
    still/clip split of a media-player source. */
module Resolve {
  import opened Values
  import opened Device
  import opened Commands

  // ---------------------------------------------------------------- on air

  /** The `onair` option: the literal "toggle", or an explicit value. */
  datatype OnAirMode = Toggle | Force(value: bool)

  /** Reads `onair`: "toggle" toggles, "true" forces on, and anything else,
      including a missing option, forces off. */
  function OnAirModeOf(opt: OptionMap): (m: OnAirMode)
    ensures m == Toggle <==> TextIs(opt, "onair", "toggle")
    ensures m == Force(true) <==> TextIs(opt, "onair", "true")
    ensures Get(opt, "onair").text.None? ==> m == Force(false)
  {
    if TextIs(opt, "onair", "toggle") then Toggle else Force(TextIs(opt, "onair", "true"))
  }

  /** The on-air state a snapshot entry stands for: an entry the mixer has
      not reported yet counts as off. */
  function EffectiveOnAir(current: Option<bool>): bool
  {
    current.Some? && current.value
  }

  /** The value to send for on-air mode `mode` when the target's current flag
      is `current` (`!x || !x.onAir` in the source, for toggling). */
  function ResolveOnAir(mode: OnAirMode, current: Option<bool>): (on: bool)
    ensures mode == Toggle ==> on == !EffectiveOnAir(current)
    ensures mode == Toggle && current.None? ==> on
    ensures mode.Force? ==> on == mode.value
  {
    match mode
    case Force(v) => v
    case Toggle =>
      match current
      case None => true
      case Some(c) => !c
  }

  /** Toggling against the state the previous toggle produced gives back the
      state before it: two toggles, each seen by the mixer, cancel. */
  lemma {:induction false} ToggleTwiceRestores(current: Option<bool>)
    ensures ResolveOnAir(Toggle, Some(ResolveOnAir(Toggle, current))) == EffectiveOnAir(current)
  {
    match current
    case None =>
    case Some(c) =>
  }

  function KeyerOnAir(k: Option<KeyerState>): Option<bool>
  {
    match k
    case None => None
    case Some(s) => Some(s.onAir)
  }

  function BoxEnabledFlag(b: Option<BoxState>): Option<bool>
  {
    match b
    case None => None
    case Some(s) => Some(s.enabled)
  }

  // ------------------------------------------------------ super-source bank

  /** The bank a super-source action addresses: the parsed `ssrcId` when that
      option is truthy and the model has more than one bank, otherwise bank 0.
      The parse is not checked for NaN. */
  function SuperSourceBank(opt: OptionMap, model: ModelSpec): (bank: Num)
    ensures model.SSrc <= 1 ==> bank == Int(0)
    ensures !OptBool(opt, "ssrcId") ==> bank == Int(0)
    ensures bank != Int(0) ==> model.SSrc > 1 && OptBool(opt, "ssrcId") && bank == Get(opt, "ssrcId").parsed
    ensures OptBool(opt, "ssrcId") && model.SSrc > 1 ==> bank == Get(opt, "ssrcId").parsed
  {
    if OptBool(opt, "ssrcId") && model.SSrc > 1 then Get(opt, "ssrcId").parsed else Int(0)
  }

  // ----------------------------------------------------------------- macros

  /** The single macro command for running macro `index` (0-based):
      continue when asked to run-or-continue and the player waits at that
      macro; otherwise stop recording when the recorder records that macro;
      otherwise run it. */
  function ResolveMacro(runContinue: bool, index: int, player: MacroPlayer, recorder: MacroRecorder): (c: Command)
    ensures c == ContinueMacro <==>
              runContinue && player.isWaiting && player.macroIndex == index
    ensures c == StopMacroRecord <==>
              !(runContinue && player.isWaiting && player.macroIndex == index)
              && recorder.isRecording && recorder.macroIndex == index
    ensures c.RunMacro? <==> c != ContinueMacro && c != StopMacroRecord
    ensures c.RunMacro? ==> c.index == index
  {
    if runContinue && player.isWaiting && player.macroIndex == index then ContinueMacro
    else if recorder.isRecording && recorder.macroIndex == index then StopMacroRecord
    else RunMacro(index)
  }

  // ------------------------------------------------------- transition style

  /** The device library's transition styles. */
  datatype Style = MIX | DIP | WIPE | DVE | STING

  /** The numeric code of each style in the device library's enumeration. */
  function StyleCode(s: Style): int
  {
    match s
    case MIX => 0
    case DIP => 1
    case WIPE => 2
    case DVE => 3
    case STING => 4
  }

  /** The style a parsed `style` option names, if any. */
  function StyleOf(n: int): (s: Option<Style>)
    ensures s.Some? <==> 0 <= n <= 4
    ensures s.Some? ==> StyleCode(s.value) == n
  {
    if n == 0 then Some(MIX)
    else if n == 1 then Some(DIP)
    else if n == 2 then Some(WIPE)
    else if n == 3 then Some(DVE)
    else if n == 4 then Some(STING)
    else None
  }

  lemma {:induction false} StyleRoundTrip(s: Style)
    ensures StyleOf(StyleCode(s)) == Some(s)
  {
    match s
    case MIX =>
    case DIP =>
    case WIPE =>
    case DVE =>
    case STING =>
  }

  /** The rate command for `style`; a stinger has no rate, so none. */
  function RateCommand(style: Style, rate: int, me: int): (c: Option<Command>)
    ensures c.None? <==> style == STING
    ensures c.Some? ==> RateStyle(c.value) == Some(style) && c.value.rate == rate && c.value.me == me
  {
    match style
    case MIX => Some(SetMixTransitionSettings(rate, me))
    case DIP => Some(SetDipTransitionSettings(rate, me))
    case WIPE => Some(SetWipeTransitionSettings(rate, me))
    case DVE => Some(SetDVETransitionSettings(rate, me))
    case STING => None
  }

  /** Which style's rate a command sets, if it is a rate command. */
  function RateStyle(c: Command): Option<Style>
  {
    match c
    case SetMixTransitionSettings(_, _) => Some(MIX)
    case SetDipTransitionSettings(_, _) => Some(DIP)
    case SetWipeTransitionSettings(_, _) => Some(WIPE)
    case SetDVETransitionSettings(_, _) => Some(DVE)
    case _ => None
  }

  // ------------------------------------------------- media-player addressing

  /** The flattened media-player source of a still or clip: stills keep their
      index, clips are shifted up by `offset`. */
  function EncodeMediaSource(m: MediaSource, offset: int): int
  {
    match m
    case Still(s) => s
    case Clip(k) => k + offset
  }

  /** Whether `m` lies in the part of the flat range its kind owns. */
  predicate InOwnRange(m: MediaSource, offset: int)
  {
    match m
    case Still(s) => s < offset
    case Clip(k) => k >= 0
  }

  /** Splits a flat media-player source at `offset`: values at or above it are
      clips, the rest are stills. */
  function DecodeMediaSource(source: int, offset: int): (m: MediaSource)
    ensures m.Clip? <==> source >= offset
    ensures InOwnRange(m, offset)
    ensures EncodeMediaSource(m, offset) == source
  {
    if source >= offset then Clip(source - offset) else Still(source)
  }

  /** The other direction of the round trip: a still or clip in its own range
      survives flattening. */
  lemma {:induction false} DecodeEncode(m: MediaSource, offset: int)
    requires InOwnRange(m, offset)
    ensures DecodeMediaSource(EncodeMediaSource(m, offset), offset) == m
  {
    match m
    case Still(s) =>
    case Clip(k) =>
  }
}
