/** The two inputs the engine reads but never writes: the capability record
    of the connected mixer model, and a snapshot of the mixer's state. */
module Device {
  import opened Values

  datatype MediaSpec = MediaSpec(players: nat)

  /** The capability fields the action catalog is gated on. A field counts
      as present when it is non-zero. */
  datatype ModelSpec = ModelSpec(
    auxes: nat,
    USKs: nat,
    DSKs: nat,
    macros: nat,
    MVs: nat,
    SSrc: nat,
    media: MediaSpec)

  datatype KeyerState = KeyerState(onAir: bool)

  datatype BoxState = BoxState(enabled: bool)

  datatype MacroPlayer = MacroPlayer(macroIndex: int, isWaiting: bool)

  datatype MacroRecorder = MacroRecorder(macroIndex: int, isRecording: bool)

  /** The parts of the replicated mixer state the handler consults. Keyers
      and boxes the mixer has not reported yet have no entry. Upstream keyers
      are keyed by (mix-effect, keyer); super-source boxes by (bank, box). */
  datatype State = State(
    usks: map<(int, int), KeyerState>,
    dsks: map<int, KeyerState>,
    boxes: map<(int, int), BoxState>,
    macroPlayer: MacroPlayer,
    macroRecorder: MacroRecorder)

  /** The upstream keyer `key` of mix-effect `me`, if the snapshot has it. */
  function GetUSK(state: State, me: int, key: int): Option<KeyerState>
  {
    if (me, key) in state.usks then Some(state.usks[(me, key)]) else None
  }

  /** The downstream keyer `key`, if the snapshot has it. */
  function GetDSK(state: State, key: int): Option<KeyerState>
  {
    if key in state.dsks then Some(state.dsks[key]) else None
  }

  /** Box `box` of super-source bank `bank`, if the snapshot has it. A NaN
      bank addresses no entry. */
  function GetSuperSourceBox(state: State, box: int, bank: Num): Option<BoxState>
  {
    match bank
    case NaN => None
    case Int(b) => if (b, box) in state.boxes then Some(state.boxes[(b, box)]) else None
  }
}
