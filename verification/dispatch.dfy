/** The action dispatcher: one action invocation, resolved against the
    capability record and the state snapshot, becomes the commands it issues
    and, at most, one diagnostic line. */
module Dispatch {
  import opened Values
  import opened Device
  import opened Commands
  import opened Resolve
  import opened Actions

  /** Helpers the dispatcher calls whose definitions are not part of this
      model: the clip offset of the flat media-player source range, and the
      recombination of the transition-selection sub-options into one
      selection value (given the number of upstream keyers). */
  datatype Collaborators = Collaborators(
    clipOffset: int,
    transitionSelection: (nat, OptionMap) -> int)

  /** What the handler writes to the debug log. */
  datatype Diagnostic =
    | ActionFailed(invalidKey: string)      // an option failed to parse; the throw was caught
    | UnknownTransitionStyle(style: int)    // the rate action met a style outside the enumeration
    | UnknownAction(name: string)           // no handler for the action string

  /** The observable effect of one invocation: the commands issued, in order,
      and what was logged. Nothing is ever thrown to the caller. */
  datatype Outcome = Outcome(commands: seq<Command>, log: Option<Diagnostic>)

  function Done(commands: seq<Command>): Outcome
  {
    Outcome(commands, None)
  }

  /** getOptInt threw for `key` after `issued` had been sent. */
  function Abort(issued: seq<Command>, key: string): Outcome
  {
    Outcome(issued, Some(ActionFailed(key)))
  }

  /** Program input of a mix-effect bus. */
  function HandleProgram(opt: OptionMap): Outcome
  {
    match OptInts(opt, ["input", "mixeffect"])
    case Invalid(k) => Abort([], k)
    case Parsed(v) => Done([ChangeProgramInput(v[0], v[1])])
  }

  /** Preview input of a mix-effect bus. */
  function HandlePreview(opt: OptionMap): Outcome
  {
    match OptInts(opt, ["input", "mixeffect"])
    case Invalid(k) => Abort([], k)
    case Parsed(v) => Done([ChangePreviewInput(v[0], v[1])])
  }

  /** Fill then cut source of an upstream keyer; the fill is issued before the cut options are parsed. */
  function HandleUSKSource(opt: OptionMap): Outcome
  {
    match OptInts(opt, ["fill", "mixeffect", "key"])
    case Invalid(k) => Abort([], k)
    case Parsed(f) =>
      var fill := SetUpstreamKeyerFillSource(f[0], f[1], f[2]);
      (match OptInts(opt, ["cut", "mixeffect", "key"])
      case Invalid(k) => Abort([fill], k)
      case Parsed(c) => Done([fill, SetUpstreamKeyerCutSource(c[0], c[1], c[2])]))
  }

  /** Fill then cut source of a downstream keyer; the fill is issued before the cut options are parsed. */
  function HandleDSKSource(opt: OptionMap): Outcome
  {
    match OptInts(opt, ["fill", "key"])
    case Invalid(k) => Abort([], k)
    case Parsed(f) =>
      var fill := SetDownstreamKeyFillSource(f[0], f[1]);
      (match OptInts(opt, ["cut", "key"])
      case Invalid(k) => Abort([fill], k)
      case Parsed(c) => Done([fill, SetDownstreamKeyCutSource(c[0], c[1])]))
  }

  /** Source of an aux bus. */
  function HandleAux(opt: OptionMap): Outcome
  {
    match OptInts(opt, ["input", "aux"])
    case Invalid(k) => Abort([], k)
    case Parsed(v) => Done([SetAuxSource(v[0], v[1])])
  }

  /** Cut on a mix-effect bus. */
  function HandleCut(opt: OptionMap): Outcome
  {
    match OptInt(opt, "mixeffect")
    case Invalid(k) => Abort([], k)
    case Parsed(me) => Done([CutTransition(me)])
  }

  /** On-air flag of an upstream keyer, toggled against the snapshot on request. */
  function HandleUSKOnAir(state: State, opt: OptionMap): Outcome
  {
    match OptInts(opt, ["mixeffect", "key"])
    case Invalid(k) => Abort([], k)
    case Parsed(v) =>
      var on := ResolveOnAir(OnAirModeOf(opt), KeyerOnAir(GetUSK(state, v[0], v[1])));
      Done([SetUpstreamKeyerOnAir(on, v[0], v[1])])
  }

  /** Auto transition of a downstream keyer. */
  function HandleDSKAuto(opt: OptionMap): Outcome
  {
    match OptInt(opt, "downstreamKeyerId")
    case Invalid(k) => Abort([], k)
    case Parsed(key) => Done([AutoDownstreamKey(key)])
  }

  /** On-air flag of a downstream keyer, toggled against the snapshot on request. */
  function HandleDSKOnAir(state: State, opt: OptionMap): Outcome
  {
    match OptInt(opt, "key")
    case Invalid(k) => Abort([], k)
    case Parsed(key) =>
      var on := ResolveOnAir(OnAirModeOf(opt), KeyerOnAir(GetDSK(state, key)));
      Done([SetDownstreamKeyOnAir(on, key)])
  }

  /** Auto transition on a mix-effect bus. */
  function HandleAuto(opt: OptionMap): Outcome
  {
    match OptInt(opt, "mixeffect")
    case Invalid(k) => Abort([], k)
    case Parsed(me) => Done([AutoTransition(me)])
  }

  /** Run, continue or stop recording the chosen (1-based) macro. */
  function HandleMacroRun(state: State, opt: OptionMap): Outcome
  {
    match OptInt(opt, "macro")
    case Invalid(k) => Abort([], k)
    case Parsed(macro) =>
      Done([ResolveMacro(TextIs(opt, "action", "runContinue"), macro - 1,
                         state.macroPlayer, state.macroRecorder)])
  }

  /** Continue the waiting macro. */
  function HandleMacroContinue(): Outcome
  {
    Done([ContinueMacro])
  }

  /** Stop macro playback. */
  function HandleMacroStop(): Outcome
  {
    Done([StopMacro])
  }

  /** Source of one multiviewer window. */
  function HandleMultiviewerWindowSource(opt: OptionMap): Outcome
  {
    match OptInts(opt, ["windowIndex", "source", "multiViewerId"])
    case Invalid(k) => Abort([], k)
    case Parsed(v) => Done([SetMultiViewerSource(v[0], v[1], v[2])])
  }

  /** Enabled flag of a super-source box, toggled against the snapshot on request. */
  function HandleSuperSourceBoxOnAir(model: ModelSpec, state: State, opt: OptionMap): Outcome
  {
    var bank := SuperSourceBank(opt, model);
    (match OptInt(opt, "boxIndex")
    case Invalid(k) => Abort([], k)
    case Parsed(box) =>
      var on := ResolveOnAir(OnAirModeOf(opt), BoxEnabledFlag(GetSuperSourceBox(state, box, bank)));
      Done([SetSuperSourceBoxSettings(BoxEnabled(on), box, bank)]))
  }

  /** Source of a super-source box. */
  function HandleSuperSourceBoxSource(model: ModelSpec, opt: OptionMap): Outcome
  {
    match OptInts(opt, ["source", "boxIndex"])
    case Invalid(k) => Abort([], k)
    case Parsed(v) => Done([SetSuperSourceBoxSettings(BoxSource(v[0]), v[1], SuperSourceBank(opt, model))])
  }

  /** Size, position and crop of a super-source box. */
  function HandleSuperSourceBoxProperties(model: ModelSpec, opt: OptionMap): Outcome
  {
    var cropped := OptBool(opt, "cropEnable");
    (match OptInts(opt, ["size", "x", "y", "cropTop", "cropBottom", "cropLeft", "cropRight", "boxIndex"])
    case Invalid(k) => Abort([], k)
    case Parsed(v) =>
      var geometry := BoxGeometry(v[0], v[1], v[2], cropped, v[3], v[4], v[5], v[6]);
      Done([SetSuperSourceBoxSettings(geometry, v[7], SuperSourceBank(opt, model))]))
  }

  /** Transition style of a mix-effect bus. */
  function HandleTransitionStyle(opt: OptionMap): Outcome
  {
    match OptInts(opt, ["style", "mixeffect"])
    case Invalid(k) => Abort([], k)
    case Parsed(v) => Done([SetTransitionStyle(StyleProp(v[0]), v[1])])
  }

  /** Rate of the chosen transition style: a stinger has none, and a code outside the enumeration is only logged. */
  function HandleTransitionRate(opt: OptionMap): Outcome
  {
    match OptInt(opt, "style")
    case Invalid(k) => Abort([], k)
    case Parsed(code) =>
      (match StyleOf(code)
      case None => Outcome([], Some(UnknownTransitionStyle(code)))
      case Some(STING) => Done([])
      case Some(style) =>
        (match OptInts(opt, ["rate", "mixeffect"])
        case Invalid(k) => Abort([], k)
        case Parsed(v) => Done([RateCommand(style, v[0], v[1]).value])))
  }

  /** Transition selection of a mix-effect bus, recombined from the per-layer options. */
  function HandleTransitionSelection(x: Collaborators, model: ModelSpec, opt: OptionMap): Outcome
  {
    var selection := x.transitionSelection(model.USKs, opt);
    (match OptInt(opt, "mixeffect")
    case Invalid(k) => Abort([], k)
    case Parsed(me) => Done([SetTransitionStyle(SelectionProp(selection), me)]))
  }

  /** Still or clip of a media player, split from the flat source option. */
  function HandleMediaPlayerSource(x: Collaborators, opt: OptionMap): Outcome
  {
    match OptInt(opt, "source")
    case Invalid(k) => Abort([], k)
    case Parsed(source) =>
      var media := DecodeMediaSource(source, x.clipOffset);
      (match OptInt(opt, "mediaplayer")
      case Invalid(k) => Abort([], k)
      case Parsed(player) => Done([SetMediaPlayerSource(media, player)]))
  }

  /** The handler for one action: each identifier has exactly one resolver,
      and options are parsed in the order the source evaluates them. */
  function Handle(x: Collaborators, model: ModelSpec, state: State, id: ActionId, opt: OptionMap): (out: Outcome)
    ensures out.log.Some? ==> !out.log.value.UnknownAction?
  {
    match id
    case Program => HandleProgram(opt)
    case Preview => HandlePreview(opt)
    case USKSource => HandleUSKSource(opt)
    case DSKSource => HandleDSKSource(opt)
    case Aux => HandleAux(opt)
    case Cut => HandleCut(opt)
    case USKOnAir => HandleUSKOnAir(state, opt)
    case DSKAuto => HandleDSKAuto(opt)
    case DSKOnAir => HandleDSKOnAir(state, opt)
    case Auto => HandleAuto(opt)
    case MacroRun => HandleMacroRun(state, opt)
    case MacroContinue => HandleMacroContinue()
    case MacroStop => HandleMacroStop()
    case MultiviewerWindowSource => HandleMultiviewerWindowSource(opt)
    case SuperSourceBoxOnAir => HandleSuperSourceBoxOnAir(model, state, opt)
    case SuperSourceBoxSource => HandleSuperSourceBoxSource(model, opt)
    case SuperSourceBoxProperties => HandleSuperSourceBoxProperties(model, opt)
    case TransitionStyle => HandleTransitionStyle(opt)
    case TransitionRate => HandleTransitionRate(opt)
    case TransitionSelection => HandleTransitionSelection(x, model, opt)
    case MediaPlayerSource => HandleMediaPlayerSource(x, opt)
  }

  /** HandleAction: dispatch on the action string; a string that names no
      action issues nothing and is only logged. */
  function HandleAction(x: Collaborators, model: ModelSpec, state: State, action: string, opt: OptionMap): (out: Outcome)
    ensures ParseActionId(action).None? ==> out == Outcome([], Some(UnknownAction(action)))
  {
    match ParseActionId(action)
    case None => Outcome([], Some(UnknownAction(action)))
    case Some(id) => Handle(x, model, state, id, opt)
  }
}
