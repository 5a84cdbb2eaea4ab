/** Action identifiers and the capability-gated action catalog. */
module Actions {
  import opened Values
  import opened Device

  datatype ActionId =
    | Program | Preview | Cut | Auto | Aux
    | USKSource | USKOnAir
    | DSKSource | DSKOnAir | DSKAuto
    | MacroRun | MacroContinue | MacroStop
    | MultiviewerWindowSource
    | SuperSourceBoxSource | SuperSourceBoxOnAir | SuperSourceBoxProperties
    | TransitionStyle | TransitionSelection | TransitionRate
    | MediaPlayerSource

  /** The string the host uses for each action. */
  function ActionName(a: ActionId): string
  {
    match a
    case Program => "program"
    case Preview => "preview"
    case Cut => "cut"
    case Auto => "auto"
    case Aux => "aux"
    case USKSource => "uskSource"
    case USKOnAir => "usk"
    case DSKSource => "dskSource"
    case DSKOnAir => "dsk"
    case DSKAuto => "dskAuto"
    case MacroRun => "macrorun"
    case MacroContinue => "macrocontinue"
    case MacroStop => "macrostop"
    case MultiviewerWindowSource => "setMvSource"
    case SuperSourceBoxSource => "setSsrcBoxSource"
    case SuperSourceBoxOnAir => "setSsrcBoxEnable"
    case SuperSourceBoxProperties => "setSsrcBoxProperties"
    case TransitionStyle => "transitionStyle"
    case TransitionSelection => "transitionSelection"
    case TransitionRate => "transitionRate"
    case MediaPlayerSource => "mediaPlayerSource"
  }

  /** The action a host-supplied string selects, if any: the string must be
      exactly one of the action names. */
  function ParseActionId(s: string): (r: Option<ActionId>)
    ensures r.Some? ==> ActionName(r.value) == s
  {
    if s == "program" then Some(Program)
    else if s == "preview" then Some(Preview)
    else if s == "cut" then Some(Cut)
    else if s == "auto" then Some(Auto)
    else if s == "aux" then Some(Aux)
    else if s == "uskSource" then Some(USKSource)
    else if s == "usk" then Some(USKOnAir)
    else if s == "dskSource" then Some(DSKSource)
    else if s == "dsk" then Some(DSKOnAir)
    else if s == "dskAuto" then Some(DSKAuto)
    else if s == "macrorun" then Some(MacroRun)
    else if s == "macrocontinue" then Some(MacroContinue)
    else if s == "macrostop" then Some(MacroStop)
    else if s == "setMvSource" then Some(MultiviewerWindowSource)
    else if s == "setSsrcBoxSource" then Some(SuperSourceBoxSource)
    else if s == "setSsrcBoxEnable" then Some(SuperSourceBoxOnAir)
    else if s == "setSsrcBoxProperties" then Some(SuperSourceBoxProperties)
    else if s == "transitionStyle" then Some(TransitionStyle)
    else if s == "transitionSelection" then Some(TransitionSelection)
    else if s == "transitionRate" then Some(TransitionRate)
    else if s == "mediaPlayerSource" then Some(MediaPlayerSource)
    else None
  }

  /** Every action's own name selects that action; with the contract of
      ParseActionId this makes the names pairwise distinct. */
  lemma {:induction false} ParseActionName(a: ActionId)
    ensures ParseActionId(ActionName(a)) == Some(a)
  {
    match a
    case Program =>
    case Preview =>
    case Cut =>
    case Auto =>
    case Aux =>
    case USKSource =>
    case USKOnAir =>
    case DSKSource =>
    case DSKOnAir =>
    case DSKAuto =>
    case MacroRun =>
    case MacroContinue =>
    case MacroStop =>
    case MultiviewerWindowSource =>
    case SuperSourceBoxSource =>
    case SuperSourceBoxOnAir =>
    case SuperSourceBoxProperties =>
    case TransitionStyle =>
    case TransitionSelection =>
    case TransitionRate =>
    case MediaPlayerSource =>
  }

  /** A string selects some action exactly when it is that action's name. */
  lemma ParseActionIdExact(s: string, a: ActionId)
    ensures ParseActionId(s) == Some(a) <==> s == ActionName(a)
  {
    ParseActionName(a);
  }

  /** A catalog entry. Option schemas are built by pickers that are not part
      of this model, so only the label (the title shown by the host) is kept. */
  datatype Descriptor = Descriptor(title: string)

  function Label(a: ActionId): string
  {
    match a
    case Program => "Set input on Program"
    case Preview => "Set input on Preview"
    case Cut => "CUT operation"
    case Auto => "AUTO transition operation"
    case Aux => "Set AUX bus"
    case USKSource => "Set inputs on Upstream KEY"
    case USKOnAir => "Set Upstream KEY OnAir"
    case DSKSource => "Set inputs on Downstream KEY"
    case DSKOnAir => "Set Downstream KEY OnAir"
    case DSKAuto => "AUTO DSK Transition"
    case MacroRun => "Run MACRO"
    case MacroContinue => "Continue MACRO"
    case MacroStop => "Stop MACROS"
    case MultiviewerWindowSource => "Change MV window source"
    case SuperSourceBoxSource => "Change SuperSource box source"
    case SuperSourceBoxOnAir => "Change SuperSource box enabled"
    case SuperSourceBoxProperties => "Change SuperSource box properties"
    case TransitionStyle => "Change transition style"
    case TransitionSelection => "Change transition selection"
    case TransitionRate => "Change transition rate"
    case MediaPlayerSource => "Change media player source"
  }

  /** The capability each action needs, stated per action: seven actions
      need none, every other one needs its sub-system's count to be
      non-zero. */
  predicate Offered(model: ModelSpec, a: ActionId)
  {
    match a
    case Program | Preview | Cut | Auto => true
    case TransitionStyle | TransitionRate | TransitionSelection => true
    case Aux => model.auxes != 0
    case USKSource | USKOnAir => model.USKs != 0
    case DSKSource | DSKAuto | DSKOnAir => model.DSKs != 0
    case MacroRun | MacroContinue | MacroStop => model.macros != 0
    case MultiviewerWindowSource => model.MVs != 0
    case SuperSourceBoxSource | SuperSourceBoxOnAir | SuperSourceBoxProperties => model.SSrc != 0
    case MediaPlayerSource => model.media.players != 0
  }

  /** The actions of one registration block of the source, kept only when
      the block's capability test passes. */
  function Gated(gate: bool, ids: set<ActionId>): set<ActionId>
  {
    set a | a in ids && gate
  }

  /** The identifiers the catalog registers, block by block in source order:
      program/preview/cut/auto, then aux, upstream keyers, downstream keyers,
      macros, multiviewers and super-source, each behind its capability test,
      then the three transition actions, then the media players. */
  function CatalogIds(model: ModelSpec): set<ActionId>
  {
    Gated(true, {Program, Preview, Cut, Auto})
    + Gated(model.auxes != 0, {Aux})
    + Gated(model.USKs != 0, {USKSource, USKOnAir})
    + Gated(model.DSKs != 0, {DSKSource, DSKAuto, DSKOnAir})
    + Gated(model.macros != 0, {MacroRun, MacroContinue, MacroStop})
    + Gated(model.MVs != 0, {MultiviewerWindowSource})
    + Gated(model.SSrc != 0, {SuperSourceBoxSource, SuperSourceBoxOnAir, SuperSourceBoxProperties})
    + Gated(true, {TransitionStyle, TransitionRate, TransitionSelection})
    + Gated(model.media.players != 0, {MediaPlayerSource})
  }

  lemma CatalogIdsUngated(model: ModelSpec)
    ensures Program in CatalogIds(model) && Preview in CatalogIds(model)
    ensures Cut in CatalogIds(model) && Auto in CatalogIds(model)
    ensures TransitionStyle in CatalogIds(model) && TransitionRate in CatalogIds(model)
    ensures TransitionSelection in CatalogIds(model)
  {
  }

  lemma CatalogIdsAux(model: ModelSpec)
    ensures Aux in CatalogIds(model) <==> model.auxes != 0
  {
  }

  lemma CatalogIdsUsk(model: ModelSpec)
    ensures USKSource in CatalogIds(model) <==> model.USKs != 0
    ensures USKOnAir in CatalogIds(model) <==> model.USKs != 0
  {
  }

  lemma CatalogIdsDsk(model: ModelSpec)
    ensures DSKSource in CatalogIds(model) <==> model.DSKs != 0
    ensures DSKAuto in CatalogIds(model) <==> model.DSKs != 0
    ensures DSKOnAir in CatalogIds(model) <==> model.DSKs != 0
  {
  }

  lemma CatalogIdsMacro(model: ModelSpec)
    ensures MacroRun in CatalogIds(model) <==> model.macros != 0
    ensures MacroContinue in CatalogIds(model) <==> model.macros != 0
    ensures MacroStop in CatalogIds(model) <==> model.macros != 0
  {
  }

  lemma CatalogIdsMv(model: ModelSpec)
    ensures MultiviewerWindowSource in CatalogIds(model) <==> model.MVs != 0
  {
  }

  lemma CatalogIdsSuperSource(model: ModelSpec)
    ensures SuperSourceBoxSource in CatalogIds(model) <==> model.SSrc != 0
    ensures SuperSourceBoxOnAir in CatalogIds(model) <==> model.SSrc != 0
    ensures SuperSourceBoxProperties in CatalogIds(model) <==> model.SSrc != 0
  {
  }

  lemma CatalogIdsMedia(model: ModelSpec)
    ensures MediaPlayerSource in CatalogIds(model) <==> model.media.players != 0
  {
  }

  /** Any set of actions that contains the seven ungated actions, and each
      gated action exactly when its capability is present, is the set of
      offered actions. */
  lemma {:induction false} OfferedByGroups(model: ModelSpec, ids: set<ActionId>)
    requires Program in ids && Preview in ids && Cut in ids && Auto in ids
    requires TransitionStyle in ids && TransitionRate in ids && TransitionSelection in ids
    requires Aux in ids <==> model.auxes != 0
    requires (USKSource in ids <==> model.USKs != 0) && (USKOnAir in ids <==> model.USKs != 0)
    requires (DSKSource in ids <==> model.DSKs != 0) && (DSKAuto in ids <==> model.DSKs != 0)
    requires DSKOnAir in ids <==> model.DSKs != 0
    requires (MacroRun in ids <==> model.macros != 0) && (MacroContinue in ids <==> model.macros != 0)
    requires MacroStop in ids <==> model.macros != 0
    requires MultiviewerWindowSource in ids <==> model.MVs != 0
    requires (SuperSourceBoxSource in ids <==> model.SSrc != 0) && (SuperSourceBoxOnAir in ids <==> model.SSrc != 0)
    requires SuperSourceBoxProperties in ids <==> model.SSrc != 0
    requires MediaPlayerSource in ids <==> model.media.players != 0
    ensures forall a :: a in ids <==> Offered(model, a)
  {
    forall a ensures a in ids <==> Offered(model, a) {
      match a {
        case Program =>
        case Preview =>
        case Cut =>
        case Auto =>
        case Aux =>
        case USKSource =>
        case USKOnAir =>
        case DSKSource =>
        case DSKOnAir =>
        case DSKAuto =>
        case MacroRun =>
        case MacroContinue =>
        case MacroStop =>
        case MultiviewerWindowSource =>
        case SuperSourceBoxSource =>
        case SuperSourceBoxOnAir =>
        case SuperSourceBoxProperties =>
        case TransitionStyle =>
        case TransitionSelection =>
        case TransitionRate =>
        case MediaPlayerSource =>
      }
    }
  }

  /** The block-by-block registration offers exactly the actions whose
      capability is present. */
  lemma CatalogIdsOffered(model: ModelSpec)
    ensures forall a :: a in CatalogIds(model) <==> Offered(model, a)
  {
    CatalogIdsUngated(model);
    CatalogIdsAux(model);
    CatalogIdsUsk(model);
    CatalogIdsDsk(model);
    CatalogIdsMacro(model);
    CatalogIdsMv(model);
    CatalogIdsSuperSource(model);
    CatalogIdsMedia(model);
    OfferedByGroups(model, CatalogIds(model));
  }

  /** The action catalog of a mixer model: an entry, carrying its label, for
      every action the model's capabilities allow, and for no other. */
  function GetActionsList(model: ModelSpec): (catalog: map<ActionId, Descriptor>)
    ensures forall a :: a in catalog <==> Offered(model, a)
    ensures forall a :: a in catalog ==> catalog[a] == Descriptor(Label(a))
  {
    CatalogIdsOffered(model);
    map a | a in CatalogIds(model) :: Descriptor(Label(a))
  }

  /** A model with at least the capabilities of another offers at least its
      actions. */
  lemma CatalogMonotone(small: ModelSpec, large: ModelSpec)
    requires small.auxes != 0 ==> large.auxes != 0
    requires small.USKs != 0 ==> large.USKs != 0
    requires small.DSKs != 0 ==> large.DSKs != 0
    requires small.macros != 0 ==> large.macros != 0
    requires small.MVs != 0 ==> large.MVs != 0
    requires small.SSrc != 0 ==> large.SSrc != 0
    requires small.media.players != 0 ==> large.media.players != 0
    ensures GetActionsList(small).Keys <= GetActionsList(large).Keys
  {
  }
}
