/** The device commands the engine issues, as data. Each constructor stands
    for one call on the device-control client, with the arguments in the
    order the client takes them. */
module Commands {
  import opened Values

  /** A media-player source: a still or a clip, each with its own index. */
  datatype MediaSource = Still(stillIndex: int) | Clip(clipIndex: int)

  /** The property object of a super-source box update. */
  datatype BoxSettings =
    | BoxEnabled(enabled: bool)
    | BoxSource(source: int)
    | BoxGeometry(size: int, x: int, y: int, cropped: bool,
                  cropTop: int, cropBottom: int, cropLeft: int, cropRight: int)

  /** The property object of a transition-style update. */
  datatype TransitionProps = StyleProp(style: int) | SelectionProp(selection: int)

  datatype Command =
    | ChangeProgramInput(input: int, me: int)
    | ChangePreviewInput(input: int, me: int)
    | SetUpstreamKeyerFillSource(source: int, me: int, key: int)
    | SetUpstreamKeyerCutSource(source: int, me: int, key: int)
    | SetUpstreamKeyerOnAir(onAir: bool, me: int, key: int)
    | SetDownstreamKeyFillSource(source: int, key: int)
    | SetDownstreamKeyCutSource(source: int, key: int)
    | SetDownstreamKeyOnAir(onAir: bool, key: int)
    | AutoDownstreamKey(key: int)
    | SetAuxSource(input: int, aux: int)
    | CutTransition(me: int)
    | AutoTransition(me: int)
    | RunMacro(index: int)
    | ContinueMacro
    | StopMacro
    | StopMacroRecord
    | SetMultiViewerSource(windowIndex: int, source: int, multiViewer: int)
    | SetSuperSourceBoxSettings(settings: BoxSettings, box: int, bank: Num)
    | SetTransitionStyle(props: TransitionProps, me: int)
    | SetMixTransitionSettings(rate: int, me: int)
    | SetDipTransitionSettings(rate: int, me: int)
    | SetWipeTransitionSettings(rate: int, me: int)
    | SetDVETransitionSettings(rate: int, me: int)
    | SetMediaPlayerSource(media: MediaSource, player: int)
}
