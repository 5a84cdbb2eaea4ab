/** What the dispatcher promises, stated over all inputs. */
module DispatchProperties {
  import opened Values
  import opened Device
  import opened Commands
  import opened Resolve
  import opened Actions
  import opened Dispatch

  // --------------------------------------------------------------- routing

  /** Dispatching an action's own name runs that action's handler. */
  lemma {:induction false} EveryActionHasHandler(x: Collaborators, model: ModelSpec, state: State, a: ActionId, opt: OptionMap)
    ensures HandleAction(x, model, state, ActionName(a), opt) == Handle(x, model, state, a, opt)
  {
    ParseActionName(a);
  }

  /** An invocation is reported as an unknown action exactly when its string
      names no action, and then nothing is issued. */
  lemma {:induction false} UnknownActionExactlyForUnknownNames(x: Collaborators, model: ModelSpec, state: State, action: string, opt: OptionMap)
    ensures var out := HandleAction(x, model, state, action, opt);
            (out.log.Some? && out.log.value.UnknownAction?) <==> ParseActionId(action).None?
    ensures var out := HandleAction(x, model, state, action, opt);
            out.log.Some? && out.log.value.UnknownAction? ==> out.commands == [] && out.log.value.name == action
  {
    match ParseActionId(action)
    case None =>
    case Some(a) =>
  }

  /** The snapshot is read only by the three on-air actions and macro run;
      every other action issues the same commands whatever the state. */
  lemma {:induction false} StateReadOnlyByTogglesAndMacros(x: Collaborators, model: ModelSpec, s1: State, s2: State, a: ActionId, opt: OptionMap)
    requires a != USKOnAir && a != DSKOnAir && a != SuperSourceBoxOnAir && a != MacroRun
    ensures Handle(x, model, s1, a, opt) == Handle(x, model, s2, a, opt)
  {
    match a {
      case Program =>
      case Preview =>
      case Cut =>
      case Auto =>
      case Aux =>
      case USKSource =>
      case USKOnAir =>
      case DSKSource =>
      case DSKOnAir =>
      case DSKAuto =>
      case MacroRun =>
      case MacroContinue =>
      case MacroStop =>
      case MultiviewerWindowSource =>
      case SuperSourceBoxSource =>
      case SuperSourceBoxOnAir =>
      case SuperSourceBoxProperties =>
      case TransitionStyle =>
      case TransitionSelection =>
      case TransitionRate =>
      case MediaPlayerSource =>
    }
  }

  /** The capability record is read only for the super-source bank count and
      the upstream-keyer count of transition selection; in particular the
      dispatcher does not re-check the catalog's capability gates. */
  lemma {:induction false} ModelReadOnlyForBankAndSelection(x: Collaborators, m1: ModelSpec, m2: ModelSpec, state: State, a: ActionId, opt: OptionMap)
    requires m1.SSrc == m2.SSrc && m1.USKs == m2.USKs
    ensures Handle(x, m1, state, a, opt) == Handle(x, m2, state, a, opt)
  {
    match a {
      case Program =>
      case Preview =>
      case Cut =>
      case Auto =>
      case Aux =>
      case USKSource =>
      case USKOnAir =>
      case DSKSource =>
      case DSKOnAir =>
      case DSKAuto =>
      case MacroRun =>
      case MacroContinue =>
      case MacroStop =>
      case MultiviewerWindowSource =>
      case SuperSourceBoxSource =>
      case SuperSourceBoxOnAir =>
      case SuperSourceBoxProperties =>
      case TransitionStyle =>
      case TransitionSelection =>
      case TransitionRate =>
      case MediaPlayerSource =>
    }
  }

  // ------------------------------------------------------------- failures

  /** A parse failure is logged, never thrown, and leaves at most one command
      issued: the fill half of a keyer source pair, sent before the cut
      options were parsed. */
  lemma {:induction false} ParseFailureIssuesAtMostFill(x: Collaborators, model: ModelSpec, state: State, a: ActionId, opt: OptionMap)
    ensures var out := Handle(x, model, state, a, opt);
            out.log.Some? && out.log.value.ActionFailed? ==>
              out.commands == []
              || (|out.commands| == 1
                  && ((a == USKSource && out.commands[0].SetUpstreamKeyerFillSource?)
                      || (a == DSKSource && out.commands[0].SetDownstreamKeyFillSource?)))
  {
    match a {
      case Program =>
      case Preview =>
      case Cut =>
      case Auto =>
      case Aux =>
      case USKSource =>
      case USKOnAir =>
      case DSKSource =>
      case DSKOnAir =>
      case DSKAuto =>
      case MacroRun =>
      case MacroContinue =>
      case MacroStop =>
      case MultiviewerWindowSource =>
      case SuperSourceBoxSource =>
      case SuperSourceBoxOnAir =>
      case SuperSourceBoxProperties =>
      case TransitionStyle =>
      case TransitionSelection =>
      case TransitionRate =>
      case MediaPlayerSource =>
    }
  }

  /** The upstream keyer's fill command goes out even when the cut option
      then fails to parse. */
  lemma UskFillIssuedBeforeCutParsed(x: Collaborators, model: ModelSpec, state: State, opt: OptionMap,
                                     fill: int, me: int, key: int)
    requires Get(opt, "fill").parsed == Int(fill)
    requires Get(opt, "mixeffect").parsed == Int(me) && Get(opt, "key").parsed == Int(key)
    requires Get(opt, "cut").parsed == NaN
    ensures Handle(x, model, state, USKSource, opt)
            == Outcome([SetUpstreamKeyerFillSource(fill, me, key)], Some(ActionFailed("cut")))
  {
  }

  /** The same for the downstream keyer. */
  lemma DskFillIssuedBeforeCutParsed(x: Collaborators, model: ModelSpec, state: State, opt: OptionMap,
                                     fill: int, key: int)
    requires Get(opt, "fill").parsed == Int(fill) && Get(opt, "key").parsed == Int(key)
    requires Get(opt, "cut").parsed == NaN
    ensures Handle(x, model, state, DSKSource, opt)
            == Outcome([SetDownstreamKeyFillSource(fill, key)], Some(ActionFailed("cut")))
  {
  }

  /** An invocation that completes issues two commands exactly for the keyer
      source pairs, none exactly for a stinger rate, and one otherwise. */
  lemma {:induction false} CompletedCommandCount(x: Collaborators, model: ModelSpec, state: State, a: ActionId, opt: OptionMap)
    ensures var out := Handle(x, model, state, a, opt);
            out.log.None? ==>
              && |out.commands| <= 2
              && (|out.commands| == 2 <==> a == USKSource || a == DSKSource)
              && (|out.commands| == 0 <==> a == TransitionRate && Get(opt, "style").parsed == Int(StyleCode(STING)))
  {
    match a {
      case Program =>
      case Preview =>
      case Cut =>
      case Auto =>
      case Aux =>
      case USKSource =>
      case USKOnAir =>
      case DSKSource =>
      case DSKOnAir =>
      case DSKAuto =>
      case MacroRun =>
      case MacroContinue =>
      case MacroStop =>
      case MultiviewerWindowSource =>
      case SuperSourceBoxSource =>
      case SuperSourceBoxOnAir =>
      case SuperSourceBoxProperties =>
      case TransitionStyle =>
      case TransitionSelection =>
      case TransitionRate =>
      case MediaPlayerSource =>
    }
  }

  // ---------------------------------------------------- direct-set actions

  /** Program: the parsed input and mix-effect, in that order. */
  lemma ProgramIssued(x: Collaborators, model: ModelSpec, state: State, opt: OptionMap, input: int, me: int)
    requires Get(opt, "input").parsed == Int(input) && Get(opt, "mixeffect").parsed == Int(me)
    ensures Handle(x, model, state, Program, opt) == Outcome([ChangeProgramInput(input, me)], None)
  {
  }

  /** Preview: the parsed input and mix-effect, in that order. */
  lemma PreviewIssued(x: Collaborators, model: ModelSpec, state: State, opt: OptionMap, input: int, me: int)
    requires Get(opt, "input").parsed == Int(input) && Get(opt, "mixeffect").parsed == Int(me)
    ensures Handle(x, model, state, Preview, opt) == Outcome([ChangePreviewInput(input, me)], None)
  {
  }

  /** Upstream keyer source: set-fill, then set-cut, both addressed to the
      parsed mix-effect and keyer. */
  lemma UskSourceIssued(x: Collaborators, model: ModelSpec, state: State, opt: OptionMap,
                        fill: int, cut: int, me: int, key: int)
    requires Get(opt, "fill").parsed == Int(fill) && Get(opt, "cut").parsed == Int(cut)
    requires Get(opt, "mixeffect").parsed == Int(me) && Get(opt, "key").parsed == Int(key)
    ensures Handle(x, model, state, USKSource, opt)
            == Outcome([SetUpstreamKeyerFillSource(fill, me, key), SetUpstreamKeyerCutSource(cut, me, key)], None)
  {
  }

  /** Downstream keyer source: set-fill, then set-cut, both addressed to the
      parsed keyer. */
  lemma DskSourceIssued(x: Collaborators, model: ModelSpec, state: State, opt: OptionMap,
                        fill: int, cut: int, key: int)
    requires Get(opt, "fill").parsed == Int(fill) && Get(opt, "cut").parsed == Int(cut)
    requires Get(opt, "key").parsed == Int(key)
    ensures Handle(x, model, state, DSKSource, opt)
            == Outcome([SetDownstreamKeyFillSource(fill, key), SetDownstreamKeyCutSource(cut, key)], None)
  {
  }

  /** Aux: the parsed input, routed to the parsed aux bus. */
  lemma AuxIssued(x: Collaborators, model: ModelSpec, state: State, opt: OptionMap, input: int, aux: int)
    requires Get(opt, "input").parsed == Int(input) && Get(opt, "aux").parsed == Int(aux)
    ensures Handle(x, model, state, Aux, opt) == Outcome([SetAuxSource(input, aux)], None)
  {
  }

  /** Cut: a cut on the parsed mix-effect. */
  lemma CutIssued(x: Collaborators, model: ModelSpec, state: State, opt: OptionMap, me: int)
    requires Get(opt, "mixeffect").parsed == Int(me)
    ensures Handle(x, model, state, Cut, opt) == Outcome([CutTransition(me)], None)
  {
  }

  /** Auto: an auto transition on the parsed mix-effect. */
  lemma AutoIssued(x: Collaborators, model: ModelSpec, state: State, opt: OptionMap, me: int)
    requires Get(opt, "mixeffect").parsed == Int(me)
    ensures Handle(x, model, state, Auto, opt) == Outcome([AutoTransition(me)], None)
  {
  }

  /** Downstream keyer auto: an auto transition of the parsed keyer. */
  lemma DskAutoIssued(x: Collaborators, model: ModelSpec, state: State, opt: OptionMap, key: int)
    requires Get(opt, "downstreamKeyerId").parsed == Int(key)
    ensures Handle(x, model, state, DSKAuto, opt) == Outcome([AutoDownstreamKey(key)], None)
  {
  }

  /** Macro continue reads no option and always continues. */
  lemma MacroContinueIssued(x: Collaborators, model: ModelSpec, state: State, opt: OptionMap)
    ensures Handle(x, model, state, MacroContinue, opt) == Outcome([ContinueMacro], None)
  {
  }

  /** Macro stop reads no option and always stops playback. */
  lemma MacroStopIssued(x: Collaborators, model: ModelSpec, state: State, opt: OptionMap)
    ensures Handle(x, model, state, MacroStop, opt) == Outcome([StopMacro], None)
  {
  }

  /** Multiviewer window: the parsed window, source and multiviewer. */
  lemma MultiviewerWindowSourceIssued(x: Collaborators, model: ModelSpec, state: State, opt: OptionMap,
                                      window: int, source: int, mv: int)
    requires Get(opt, "windowIndex").parsed == Int(window) && Get(opt, "source").parsed == Int(source)
    requires Get(opt, "multiViewerId").parsed == Int(mv)
    ensures Handle(x, model, state, MultiviewerWindowSource, opt)
            == Outcome([SetMultiViewerSource(window, source, mv)], None)
  {
  }

  /** Super-source box source: the parsed source for the parsed box of the
      resolved bank. */
  lemma SuperSourceBoxSourceIssued(x: Collaborators, model: ModelSpec, state: State, opt: OptionMap,
                                   source: int, box: int)
    requires Get(opt, "source").parsed == Int(source) && Get(opt, "boxIndex").parsed == Int(box)
    ensures Handle(x, model, state, SuperSourceBoxSource, opt)
            == Outcome([SetSuperSourceBoxSettings(BoxSource(source), box, SuperSourceBank(opt, model))], None)
  {
  }

  /** Super-source box properties: each geometry option goes to its own
      field, with the crop flag taken from the truthiness of `cropEnable`. */
  lemma SuperSourceBoxPropertiesIssued(x: Collaborators, model: ModelSpec, state: State, opt: OptionMap,
                                       size: int, px: int, py: int,
                                       top: int, bottom: int, left: int, right: int, box: int)
    requires Get(opt, "size").parsed == Int(size) && Get(opt, "x").parsed == Int(px) && Get(opt, "y").parsed == Int(py)
    requires Get(opt, "cropTop").parsed == Int(top) && Get(opt, "cropBottom").parsed == Int(bottom)
    requires Get(opt, "cropLeft").parsed == Int(left) && Get(opt, "cropRight").parsed == Int(right)
    requires Get(opt, "boxIndex").parsed == Int(box)
    ensures Handle(x, model, state, SuperSourceBoxProperties, opt)
            == Outcome([SetSuperSourceBoxSettings(
                          BoxGeometry(size, px, py, OptBool(opt, "cropEnable"), top, bottom, left, right),
                          box, SuperSourceBank(opt, model))], None)
  {
  }

  /** Transition style: the parsed style code for the parsed mix-effect. */
  lemma TransitionStyleIssued(x: Collaborators, model: ModelSpec, state: State, opt: OptionMap, style: int, me: int)
    requires Get(opt, "style").parsed == Int(style) && Get(opt, "mixeffect").parsed == Int(me)
    ensures Handle(x, model, state, TransitionStyle, opt) == Outcome([SetTransitionStyle(StyleProp(style), me)], None)
  {
  }

  // ---------------------------------------------------------- parse order

  /** The integer options each action parses, in the order the source
      evaluates its getOptInt calls. The rate action reads `rate` and
      `mixeffect` only after its style selected a rate command. */
  function ParseOrder(a: ActionId, opt: OptionMap): seq<string>
  {
    match a
    case Program => ["input", "mixeffect"]
    case Preview => ["input", "mixeffect"]
    case USKSource => ["fill", "mixeffect", "key", "cut", "mixeffect", "key"]
    case DSKSource => ["fill", "key", "cut", "key"]
    case Aux => ["input", "aux"]
    case Cut => ["mixeffect"]
    case USKOnAir => ["mixeffect", "key"]
    case DSKAuto => ["downstreamKeyerId"]
    case DSKOnAir => ["key"]
    case Auto => ["mixeffect"]
    case MacroRun => ["macro"]
    case MacroContinue => []
    case MacroStop => []
    case MultiviewerWindowSource => ["windowIndex", "source", "multiViewerId"]
    case SuperSourceBoxOnAir => ["boxIndex"]
    case SuperSourceBoxSource => ["source", "boxIndex"]
    case SuperSourceBoxProperties => ["size", "x", "y", "cropTop", "cropBottom", "cropLeft", "cropRight", "boxIndex"]
    case TransitionStyle => ["style", "mixeffect"]
    case TransitionRate =>
      if RatedStyle(opt) then ["style", "rate", "mixeffect"] else ["style"]
    case TransitionSelection => ["mixeffect"]
    case MediaPlayerSource => ["source", "mediaplayer"]
  }

  /** The `style` option names a style that has a rate. */
  predicate RatedStyle(opt: OptionMap)
  {
    Get(opt, "style").parsed.Int?
    && StyleOf(Get(opt, "style").parsed.value).Some?
    && StyleOf(Get(opt, "style").parsed.value) != Some(STING)
  }

  /** The outcome logs a parse failure exactly when the parse `r` of the
      action's options failed, and then names the key `r` reports. */
  predicate LogsFirstFailure(out: Outcome, r: Parsed<seq<int>>)
  {
    && (r.Invalid? ==> out.log == Some(ActionFailed(r.key)))
    && (r.Parsed? ==> !(out.log.Some? && out.log.value.ActionFailed?))
  }

  // The per-action failure-order facts, grouped so that each proof stays
  // small; FailureNamesFirstInvalidKey below combines them.

  lemma {:induction false} UskSourceFailureOrder(x: Collaborators, model: ModelSpec, state: State, opt: OptionMap)
    ensures LogsFirstFailure(Handle(x, model, state, USKSource, opt), OptInts(opt, ParseOrder(USKSource, opt)))
  {
    assert ParseOrder(USKSource, opt) == ["fill", "mixeffect", "key"] + ["cut", "mixeffect", "key"];
    OptIntsAppend(opt, ["fill", "mixeffect", "key"], ["cut", "mixeffect", "key"]);
  }

  lemma {:induction false} DskSourceFailureOrder(x: Collaborators, model: ModelSpec, state: State, opt: OptionMap)
    ensures LogsFirstFailure(Handle(x, model, state, DSKSource, opt), OptInts(opt, ParseOrder(DSKSource, opt)))
  {
    assert ParseOrder(DSKSource, opt) == ["fill", "key"] + ["cut", "key"];
    OptIntsAppend(opt, ["fill", "key"], ["cut", "key"]);
  }

  lemma {:induction false} TransitionRateFailureOrder(x: Collaborators, model: ModelSpec, state: State, opt: OptionMap)
    ensures LogsFirstFailure(Handle(x, model, state, TransitionRate, opt), OptInts(opt, ParseOrder(TransitionRate, opt)))
  {
    if RatedStyle(opt) {
      RatedStyleFailureOrder(opt);
    } else {
      assert ParseOrder(TransitionRate, opt) == ["style"];
    }
  }

  /** Once the style selects a rate command, `rate` and `mixeffect` are
      parsed after `style`. */
  lemma {:induction false} RatedStyleFailureOrder(opt: OptionMap)
    requires RatedStyle(opt)
    ensures LogsFirstFailure(HandleTransitionRate(opt), OptInts(opt, ["style", "rate", "mixeffect"]))
  {
    var code := Get(opt, "style").parsed.value;
    var style := StyleOf(code).value;
    assert OptInt(opt, "style") == Parsed(code);
    assert ["style", "rate", "mixeffect"] == ["style"] + ["rate", "mixeffect"];
    OptIntsAppend(opt, ["style"], ["rate", "mixeffect"]);
    assert ParsesBefore(opt, ["style"], 1);
    assert OptInts(opt, ["style"]).value == [code];
    match OptInts(opt, ["rate", "mixeffect"])
    case Invalid(k) =>
      assert HandleTransitionRate(opt) == Abort([], k);
    case Parsed(v) =>
      assert HandleTransitionRate(opt).log.None?;
  }

  lemma {:induction false} MediaPlayerSourceFailureOrder(x: Collaborators, model: ModelSpec, state: State, opt: OptionMap)
    ensures LogsFirstFailure(Handle(x, model, state, MediaPlayerSource, opt), OptInts(opt, ParseOrder(MediaPlayerSource, opt)))
  {
    assert ParseOrder(MediaPlayerSource, opt) == ["source"] + ["mediaplayer"];
    OptIntsAppend(opt, ["source"], ["mediaplayer"]);
  }

  lemma {:induction false} SwitcherFailureOrder(x: Collaborators, model: ModelSpec, state: State, a: ActionId, opt: OptionMap)
    requires a in {Program, Preview, Aux, Cut, Auto}
    ensures LogsFirstFailure(Handle(x, model, state, a, opt), OptInts(opt, ParseOrder(a, opt)))
  {
    match a {
      case Program =>
      case Preview =>
      case Aux =>
      case Cut =>
      case Auto =>
    }
  }

  lemma {:induction false} OtherFailureOrder(x: Collaborators, model: ModelSpec, state: State, a: ActionId, opt: OptionMap)
    requires a in {DSKAuto, MacroContinue, MacroStop, TransitionStyle, TransitionSelection}
    ensures LogsFirstFailure(Handle(x, model, state, a, opt), OptInts(opt, ParseOrder(a, opt)))
  {
    match a {
      case DSKAuto =>
      case MacroContinue =>
      case MacroStop =>
      case TransitionStyle =>
      case TransitionSelection =>
    }
  }

  lemma {:induction false} OnAirFailureOrder(x: Collaborators, model: ModelSpec, state: State, a: ActionId, opt: OptionMap)
    requires a in {USKOnAir, DSKOnAir, SuperSourceBoxOnAir}
    ensures LogsFirstFailure(Handle(x, model, state, a, opt), OptInts(opt, ParseOrder(a, opt)))
  {
    match a {
      case USKOnAir =>
      case DSKOnAir =>
      case SuperSourceBoxOnAir =>
    }
  }

  lemma {:induction false} AddressedFailureOrder(x: Collaborators, model: ModelSpec, state: State, a: ActionId, opt: OptionMap)
    requires a in {MacroRun, MultiviewerWindowSource, SuperSourceBoxSource}
    ensures LogsFirstFailure(Handle(x, model, state, a, opt), OptInts(opt, ParseOrder(a, opt)))
  {
    match a {
      case MacroRun =>
      case MultiviewerWindowSource =>
      case SuperSourceBoxSource =>
    }
  }

  lemma {:induction false} SuperSourceBoxPropertiesFailureOrder(x: Collaborators, model: ModelSpec, state: State, opt: OptionMap)
    ensures LogsFirstFailure(Handle(x, model, state, SuperSourceBoxProperties, opt),
                             OptInts(opt, ParseOrder(SuperSourceBoxProperties, opt)))
  {
  }

  /** An action fails to parse exactly when one of the options it reads is
      not a number, and the failure logged names the first such option in
      source order. */
  lemma {:induction false} FailureNamesFirstInvalidKey(x: Collaborators, model: ModelSpec, state: State, a: ActionId, opt: OptionMap)
    ensures var out := Handle(x, model, state, a, opt);
            var r := OptInts(opt, ParseOrder(a, opt));
            && (r.Invalid? ==> out.log == Some(ActionFailed(r.key)))
            && (r.Parsed? ==> !(out.log.Some? && out.log.value.ActionFailed?))
  {
    match a {
      case USKSource => UskSourceFailureOrder(x, model, state, opt);
      case DSKSource => DskSourceFailureOrder(x, model, state, opt);
      case TransitionRate => TransitionRateFailureOrder(x, model, state, opt);
      case MediaPlayerSource => MediaPlayerSourceFailureOrder(x, model, state, opt);
      case SuperSourceBoxProperties => SuperSourceBoxPropertiesFailureOrder(x, model, state, opt);
      case Program => SwitcherFailureOrder(x, model, state, a, opt);
      case Preview => SwitcherFailureOrder(x, model, state, a, opt);
      case Aux => SwitcherFailureOrder(x, model, state, a, opt);
      case Cut => SwitcherFailureOrder(x, model, state, a, opt);
      case Auto => SwitcherFailureOrder(x, model, state, a, opt);
      case DSKAuto => OtherFailureOrder(x, model, state, a, opt);
      case MacroContinue => OtherFailureOrder(x, model, state, a, opt);
      case MacroStop => OtherFailureOrder(x, model, state, a, opt);
      case TransitionStyle => OtherFailureOrder(x, model, state, a, opt);
      case TransitionSelection => OtherFailureOrder(x, model, state, a, opt);
      case USKOnAir => OnAirFailureOrder(x, model, state, a, opt);
      case DSKOnAir => OnAirFailureOrder(x, model, state, a, opt);
      case MacroRun => AddressedFailureOrder(x, model, state, a, opt);
      case MultiviewerWindowSource => AddressedFailureOrder(x, model, state, a, opt);
      case SuperSourceBoxOnAir => OnAirFailureOrder(x, model, state, a, opt);
      case SuperSourceBoxSource => AddressedFailureOrder(x, model, state, a, opt);
    }
  }

  // --------------------------------------------------------------- on air

  /** Upstream keyer on air: one command to the parsed keyer; toggling sends
      on when the snapshot has no entry and the negated flag otherwise;
      any other mode sends whether `onair` is the text "true". */
  lemma UskOnAirResolution(x: Collaborators, model: ModelSpec, state: State, opt: OptionMap, me: int, key: int)
    requires Get(opt, "mixeffect").parsed == Int(me) && Get(opt, "key").parsed == Int(key)
    ensures var out := Handle(x, model, state, USKOnAir, opt);
            var usk := GetUSK(state, me, key);
            && out.log.None? && |out.commands| == 1
            && out.commands[0].SetUpstreamKeyerOnAir?
            && out.commands[0].me == me && out.commands[0].key == key
            && (TextIs(opt, "onair", "toggle") ==> out.commands[0].onAir == (usk.None? || !usk.value.onAir))
            && (!TextIs(opt, "onair", "toggle") ==> out.commands[0].onAir == TextIs(opt, "onair", "true"))
  {
  }

  /** A toggle reads the snapshot only at its target keyer: two snapshots
      that agree there give the same commands. */
  lemma UskOnAirReadsOnlyTarget(x: Collaborators, model: ModelSpec, s1: State, s2: State, opt: OptionMap, me: int, key: int)
    requires Get(opt, "mixeffect").parsed == Int(me) && Get(opt, "key").parsed == Int(key)
    requires GetUSK(s1, me, key) == GetUSK(s2, me, key)
    ensures Handle(x, model, s1, USKOnAir, opt) == Handle(x, model, s2, USKOnAir, opt)
  {
  }

  /** Downstream keyer on air, as for the upstream keyer. */
  lemma DskOnAirResolution(x: Collaborators, model: ModelSpec, state: State, opt: OptionMap, key: int)
    requires Get(opt, "key").parsed == Int(key)
    ensures var out := Handle(x, model, state, DSKOnAir, opt);
            var dsk := GetDSK(state, key);
            && out.log.None? && |out.commands| == 1
            && out.commands[0].SetDownstreamKeyOnAir? && out.commands[0].key == key
            && (TextIs(opt, "onair", "toggle") ==> out.commands[0].onAir == (dsk.None? || !dsk.value.onAir))
            && (!TextIs(opt, "onair", "toggle") ==> out.commands[0].onAir == TextIs(opt, "onair", "true"))
  {
  }

  lemma DskOnAirReadsOnlyTarget(x: Collaborators, model: ModelSpec, s1: State, s2: State, opt: OptionMap, key: int)
    requires Get(opt, "key").parsed == Int(key)
    requires GetDSK(s1, key) == GetDSK(s2, key)
    ensures Handle(x, model, s1, DSKOnAir, opt) == Handle(x, model, s2, DSKOnAir, opt)
  {
  }

  /** The idempotence scenario: with keyer (1, 2) reported on air, a toggle
      sends "off", and a second toggle against the same snapshot sends "off"
      again; only once the mixer reports the keyer off does a toggle send
      "on". */
  lemma ToggleAgainstFixedSnapshot(x: Collaborators, model: ModelSpec, state: State)
    requires GetUSK(state, 1, 2) == Some(KeyerState(true))
    ensures var opt := map["onair" := Raw(Some("toggle"), NaN, true),
                           "mixeffect" := Raw(Some("1"), Int(1), true),
                           "key" := Raw(Some("2"), Int(2), true)];
            var first := Handle(x, model, state, USKOnAir, opt);
            var second := Handle(x, model, state, USKOnAir, opt);
            var reported := state.(usks := state.usks[(1, 2) := KeyerState(false)]);
            && first == Outcome([SetUpstreamKeyerOnAir(false, 1, 2)], None)
            && second == first
            && Handle(x, model, reported, USKOnAir, opt) == Outcome([SetUpstreamKeyerOnAir(true, 1, 2)], None)
  {
  }

  // ---------------------------------------------------------- super source

  function SuperSourceActions(): set<ActionId>
  {
    {SuperSourceBoxSource, SuperSourceBoxOnAir, SuperSourceBoxProperties}
  }

  /** All three super-source actions address the same bank, resolved by the
      one rule of SuperSourceBank; with at most one bank that is bank 0. */
  lemma SuperSourceActionsShareBank(x: Collaborators, model: ModelSpec, state: State, a: ActionId, opt: OptionMap)
    requires a in SuperSourceActions()
    ensures var out := Handle(x, model, state, a, opt);
            forall i :: 0 <= i < |out.commands| ==>
              && out.commands[i].SetSuperSourceBoxSettings?
              && out.commands[i].bank == SuperSourceBank(opt, model)
              && (model.SSrc <= 1 ==> out.commands[i].bank == Int(0))
  {
  }

  /** Super-source box on air: toggling sends "enabled" when the snapshot has
      no such box or the box is disabled. */
  lemma SuperSourceBoxOnAirResolution(x: Collaborators, model: ModelSpec, state: State, opt: OptionMap, box: int)
    requires Get(opt, "boxIndex").parsed == Int(box)
    ensures var out := Handle(x, model, state, SuperSourceBoxOnAir, opt);
            var bank := SuperSourceBank(opt, model);
            var current := GetSuperSourceBox(state, box, bank);
            && out.log.None? && |out.commands| == 1
            && out.commands[0] == SetSuperSourceBoxSettings(out.commands[0].settings, box, bank)
            && out.commands[0].settings.BoxEnabled?
            && (TextIs(opt, "onair", "toggle") ==>
                  out.commands[0].settings.enabled == (current.None? || !current.value.enabled))
            && (!TextIs(opt, "onair", "toggle") ==>
                  out.commands[0].settings.enabled == TextIs(opt, "onair", "true"))
  {
  }

  /** The bank option is parsed without a NaN check: on a model with two
      banks, a truthy non-numeric `ssrcId` is sent on as a NaN bank, and a
      toggle, finding no box there, sends "enabled". */
  lemma SuperSourceBankNotValidated(x: Collaborators, model: ModelSpec, state: State)
    requires model.SSrc == 2
    ensures var opt := map["ssrcId" := Raw(Some("two"), NaN, true),
                           "boxIndex" := Raw(Some("0"), Int(0), true),
                           "onair" := Raw(Some("toggle"), NaN, true)];
            Handle(x, model, state, SuperSourceBoxOnAir, opt)
              == Outcome([SetSuperSourceBoxSettings(BoxEnabled(true), 0, NaN)], None)
  {
  }

  // ---------------------------------------------------------------- macros

  /** Macro run converts the 1-based option to a 0-based index and issues the
      one command ResolveMacro chooses for it. */
  lemma MacroRunResolution(x: Collaborators, model: ModelSpec, state: State, opt: OptionMap, macro: int)
    requires Get(opt, "macro").parsed == Int(macro)
    ensures var out := Handle(x, model, state, MacroRun, opt);
            var runContinue := TextIs(opt, "action", "runContinue");
            var idx := macro - 1;
            && out.log.None? && |out.commands| == 1
            && (out.commands[0] == ContinueMacro <==>
                  runContinue && state.macroPlayer.isWaiting && state.macroPlayer.macroIndex == idx)
            && (out.commands[0] == StopMacroRecord <==>
                  !(runContinue && state.macroPlayer.isWaiting && state.macroPlayer.macroIndex == idx)
                  && state.macroRecorder.isRecording && state.macroRecorder.macroIndex == idx)
            && (out.commands[0] != ContinueMacro && out.commands[0] != StopMacroRecord ==>
                  out.commands[0] == RunMacro(idx))
  {
  }

  /** The player waits at macro 3 (0-based) and macro 4 (1-based) is asked to
      run-or-continue: the indices agree, so the macro is continued. */
  lemma MacroContinueScenario(x: Collaborators, model: ModelSpec, state: State)
    requires state.macroPlayer == MacroPlayer(3, true)
    ensures var opt := map["macro" := Raw(Some("4"), Int(4), true),
                           "action" := Raw(Some("runContinue"), NaN, true)];
            Handle(x, model, state, MacroRun, opt) == Outcome([ContinueMacro], None)
  {
  }

  /** The player waits at macro 3 (0-based) and macro 5 (1-based) is asked to
      run-or-continue: the indices differ, so macro 4 (0-based) is run,
      unless the recorder is recording that very macro. */
  lemma MacroRunScenario(x: Collaborators, model: ModelSpec, state: State)
    requires state.macroPlayer == MacroPlayer(3, true)
    requires !state.macroRecorder.isRecording
    ensures var opt := map["macro" := Raw(Some("5"), Int(5), true),
                           "action" := Raw(Some("runContinue"), NaN, true)];
            Handle(x, model, state, MacroRun, opt) == Outcome([RunMacro(4)], None)
  {
  }

  // ------------------------------------------------------- transition rate

  /** The rate action routes on the parsed style: one rate command of the
      matching style for MIX, DIP, WIPE and DVE; nothing and no log for a
      stinger; nothing but a log line for a code outside the enumeration. */
  lemma TransitionRateRouting(x: Collaborators, model: ModelSpec, state: State, opt: OptionMap, code: int)
    requires Get(opt, "style").parsed == Int(code)
    ensures var out := Handle(x, model, state, TransitionRate, opt);
            && (StyleOf(code).None? ==> out == Outcome([], Some(UnknownTransitionStyle(code))))
            && (StyleOf(code) == Some(STING) ==> out == Outcome([], None))
            && (StyleOf(code).Some? && StyleOf(code) != Some(STING) && out.log.None? ==>
                  |out.commands| == 1 && RateStyle(out.commands[0]) == StyleOf(code)
                  && Get(opt, "rate").parsed == Int(out.commands[0].rate)
                  && Get(opt, "mixeffect").parsed == Int(out.commands[0].me))
            && (StyleOf(code).Some? && StyleOf(code) != Some(STING) ==>
                  (out.log.None? <==> Get(opt, "rate").parsed.Int? && Get(opt, "mixeffect").parsed.Int?))
  {
  }

  // ------------------------------------------------------ transition selection

  /** The selection sent is the one recombined from the options for the
      model's upstream-keyer count, whatever the snapshot. */
  lemma TransitionSelectionRecombined(x: Collaborators, model: ModelSpec, state: State, opt: OptionMap, me: int)
    requires Get(opt, "mixeffect").parsed == Int(me)
    ensures Handle(x, model, state, TransitionSelection, opt)
            == Outcome([SetTransitionStyle(SelectionProp(x.transitionSelection(model.USKs, opt)), me)], None)
  {
  }

  // ---------------------------------------------------------- media player

  /** The media-player source sent decodes the flat option: a clip exactly
      when it is at or above the offset, and flattening it again gives the
      option back. */
  lemma MediaPlayerSourceDecoded(x: Collaborators, model: ModelSpec, state: State, opt: OptionMap, source: int, player: int)
    requires Get(opt, "source").parsed == Int(source) && Get(opt, "mediaplayer").parsed == Int(player)
    ensures var out := Handle(x, model, state, MediaPlayerSource, opt);
            && out.log.None? && |out.commands| == 1
            && out.commands[0].SetMediaPlayerSource? && out.commands[0].player == player
            && (out.commands[0].media.Clip? <==> source >= x.clipOffset)
            && EncodeMediaSource(out.commands[0].media, x.clipOffset) == source
  {
  }

  /** The offset examples: K + 5 is clip 5 and K - 1 is still K - 1. */
  lemma MediaOffsetExamples(offset: int)
    ensures DecodeMediaSource(offset + 5, offset) == Clip(5)
    ensures DecodeMediaSource(offset - 1, offset) == Still(offset - 1)
  {
  }
}
