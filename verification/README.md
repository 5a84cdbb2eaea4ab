# ATEM action engine — a Dafny model

This project models the action engine of the Companion module for
Blackmagic Design ATEM video mixers (`src/actions.ts`). The engine has two
parts:

- **The action catalog** (`GetActionsList`). It projects the capability
  record of the connected mixer model (`ModelSpec`: aux buses, upstream and
  downstream keyers, macros, multiviewers, super-source banks, media
  players) onto the set of actions the host may offer. Seven actions are
  always registered. Every other action is registered only when its
  capability count is non-zero.
- **The dispatcher** (`HandleAction`). It turns an action string, a flat
  option map and a read-only snapshot of the mixer's state into the device
  commands the engine issues, in order, plus at most one line in the debug
  log.

Modules, leaf first:

- `Values` (`values.dfy`): raw option values, and the two coercions
  `getOptInt` and `getOptBool`. A raw value is reduced to what the handler
  observes of it: its text when it is a string, the outcome of `parseInt`
  (an integer or NaN) and its truthiness.
- `Device` (`device.dfy`): the capability record, the state snapshot, and
  the `getUSK` / `getDSK` / `getSuperSourceBox` lookups as Option-returning
  map lookups.
- `Commands` (`commands.dfy`): one constructor per device-client call.
- `Resolve` (`resolve.dfy`): the decisions inside the handlers. These are
  on-air toggling with "no entry counts as off", the super-source bank rule,
  the three-way macro decision, transition-style decoding and rate routing,
  and the still/clip split of media-player sources.
- `Actions` (`actions.dfy`): the `ActionId` enumeration, its strings, the
  capability table `Offered`, and the catalog.
- `Dispatch` (`dispatch.dfy`): one resolver per action, `Handle` and
  `HandleAction`. The dispatcher is a pure function that returns an
  `Outcome(commands, log)`. A thrown "Invalid option" error becomes
  `ActionFailed(key)` in the log. The commands issued before the throw stay
  in the outcome. The resolvers `HandleProgram` … `HandleMediaPlayerSource`
  carry no contracts of their own. What each one issues is stated by a
  lemma in `DispatchProperties` (for example `ProgramIssued`).
- `DispatchProperties` (`dispatch_props.dfy`): properties of the
  dispatcher over all inputs.

Three facts about the code shape the model:

- A parse failure does not always leave the mixer untouched. The upstream
  and downstream keyer source actions issue the fill command before they
  parse the cut options (`src/actions.ts:261-262`, `:265-266`). A failing
  cut option therefore leaves the fill applied. The model issues the fill
  command and then logs the failure (`UskFillIssuedBeforeCutParsed`,
  `DskFillIssuedBeforeCutParsed`).
- `ssrcId` is parsed without a NaN check (`src/actions.ts:328`, `:356`,
  `:372`). The model's bank is therefore a `Num`, which can be NaN
  (`SuperSourceBankNotValidated`).
- The dispatcher does not re-check the catalog's capability gates. For
  example, `aux` is dispatched even on a model without aux buses
  (`ModelReadOnlyForBankAndSelection`).

## Model

| member | source | states |
|---|---|---|
| Values.OptInt | src/actions.ts:240-246 | getOptInt succeeds exactly when the option parses to an integer and returns that integer. Otherwise it fails naming the key, and a missing key always fails. |
| Values.OptInts | src/actions.ts:261-262 | The arguments of one client call are parsed left to right. Either all keys parse, and the values line up with the keys, or the first key that does not parse is reported and every key before it parsed. |
| Values.OptIntsAppend | src/actions.ts:260-263 | Parsing two runs of keys one after the other is parsing their concatenation. The second run is read only when the first parses in full, and the first failure over both runs is reported. |
| Values.OptBool | src/actions.ts:247-249 | getOptBool never fails. A missing key is false, and a present key is its truthiness. |
| Resolve.OnAirModeOf | src/actions.ts:277-281 | `onair` toggles exactly when it is the text "toggle". It forces on exactly when it is the text "true". Anything else, a missing option included, forces off. |
| Resolve.ResolveOnAir | src/actions.ts:277-281 | A toggle sends the negation of the effective current state, where a missing snapshot entry counts as off, so a missing entry turns the target on. A forced mode sends its own value. |
| Resolve.ToggleTwiceRestores | src/actions.ts:279 | A toggle computed against the state the previous toggle produced gives back the effective state before both. |
| Resolve.SuperSourceBank | src/actions.ts:328 | The bank is the unchecked parse of `ssrcId` exactly when that option is truthy and the model has more than one bank. In every other case it is bank 0. |
| Resolve.ResolveMacro | src/actions.ts:304-310 | Exactly one of three commands. Continue iff run-or-continue was asked and the player waits at this index. Otherwise stop-record iff the recorder records this index. Otherwise run this index. |
| Resolve.StyleOf | src/actions.ts:384-385 | A parsed style code names a style exactly when it is in 0..4, and the style's code is that number. |
| Resolve.StyleRoundTrip | src/actions.ts:385-418 | Every style's code decodes back to that style. |
| Resolve.RateCommand | src/actions.ts:386-419 | MIX, DIP, WIPE and DVE each give one rate command, whose style is the requested one, with the given rate and mix-effect. A stinger gives none. |
| Resolve.DecodeMediaSource | src/actions.ts:436-453 | A flat source decodes to a clip exactly when it is at or above the offset. The result lies in its own kind's range, and re-encoding it gives the source back. |
| Resolve.DecodeEncode | src/actions.ts:437-441 | A still below the offset, or a clip with a non-negative index, survives re-encoding and decoding unchanged. |
| Actions.ParseActionId | src/actions.ts:33-55 | A string the dispatcher recognises is the name of the action it selects. |
| Actions.ParseActionName | src/actions.ts:33-55 | Every action's own string selects that action. So the 21 strings are pairwise distinct. |
| Actions.ParseActionIdExact | src/actions.ts:252-253 | A string selects a given action if and only if it is that action's string. |
| Actions.CatalogIdsUngated | src/actions.ts:60-75 | Program, preview, cut and auto are registered for every model. So are the three transition actions of lines 209-220. |
| Actions.CatalogIdsAux | src/actions.ts:77-82 | `aux` is registered iff the model has aux buses. |
| Actions.CatalogIdsUsk | src/actions.ts:84-108 | Both upstream-keyer actions are registered iff the model has upstream keyers. |
| Actions.CatalogIdsDsk | src/actions.ts:110-140 | The three downstream-keyer actions are registered iff the model has downstream keyers. |
| Actions.CatalogIdsMacro | src/actions.ts:142-167 | The three macro actions are registered iff the model has macros. |
| Actions.CatalogIdsMv | src/actions.ts:169-174 | The multiviewer action is registered iff the model has multiviewers. |
| Actions.CatalogIdsSuperSource | src/actions.ts:176-207 | The three super-source actions are registered iff the model has super-source banks. |
| Actions.CatalogIdsMedia | src/actions.ts:222-227 | The media-player action is registered iff the model has media players. |
| Actions.OfferedByGroups | src/actions.ts:57-230 | A set of actions with the seven ungated ones, and each gated one exactly when its capability is present, is exactly the per-action capability table `Offered`. |
| Actions.CatalogIdsOffered | src/actions.ts:57-230 | The block-by-block registration registers exactly the actions the capability table allows. |
| Actions.GetActionsList | src/actions.ts:57-230 | The catalog has an entry for an action iff the model's capabilities allow it, and each entry carries that action's label. |
| Actions.CatalogMonotone | src/actions.ts:77-227 | A model with at least another model's capabilities registers at least that model's actions. |
| Dispatch.HandleAction | src/actions.ts:455-458 | A string that names no action issues nothing and logs "unknown action". |
| DispatchProperties.EveryActionHasHandler | src/actions.ts:252-253 | Dispatching an action's string runs exactly that action's handler. |
| Dispatch.Handle | src/actions.ts:253-454 | Every action identifier has a handler, so a handled action is never logged as unknown. |
| DispatchProperties.UnknownActionExactlyForUnknownNames | src/actions.ts:455-458 | An invocation is logged as an unknown action iff its string names no action. In that case no command is issued. |
| DispatchProperties.StateReadOnlyByTogglesAndMacros | src/actions.ts:253-454 | Only the three on-air actions and macro run read the snapshot. Every other action issues the same commands whatever the state. |
| DispatchProperties.ModelReadOnlyForBankAndSelection | src/actions.ts:253-454 | The dispatcher reads only the bank count and the upstream-keyer count from the capability record. It does not re-check the catalog's gates. |
| DispatchProperties.ParseFailureIssuesAtMostFill | src/actions.ts:459-461 | A parse failure is caught and logged, never propagated. The only command it can leave issued is the fill half of a keyer source pair. |
| DispatchProperties.UskFillIssuedBeforeCutParsed | src/actions.ts:260-263 | When fill, mix-effect and key parse but cut does not, the fill command is issued and the cut failure is logged. |
| DispatchProperties.DskFillIssuedBeforeCutParsed | src/actions.ts:264-267 | The same for the downstream keyer: the fill goes out, then "cut" is logged as invalid. |
| DispatchProperties.CompletedCommandCount | src/actions.ts:253-454 | A completed invocation issues two commands exactly for the keyer source pairs, none exactly for a stinger rate, and one otherwise. |
| DispatchProperties.ProgramIssued | src/actions.ts:254-256 | With `input` and `mixeffect` parsed, program issues exactly `changeProgramInput(input, mixeffect)` and logs nothing. |
| DispatchProperties.PreviewIssued | src/actions.ts:257-259 | With `input` and `mixeffect` parsed, preview issues exactly `changePreviewInput(input, mixeffect)`. |
| DispatchProperties.UskSourceIssued | src/actions.ts:260-263 | With all four options parsed, it issues set-fill(fill, me, key) and then set-cut(cut, me, key), and nothing else. |
| DispatchProperties.DskSourceIssued | src/actions.ts:264-267 | With all three options parsed, it issues set-fill(fill, key) and then set-cut(cut, key), and nothing else. |
| DispatchProperties.AuxIssued | src/actions.ts:268-270 | With `input` and `aux` parsed, it issues exactly `setAuxSource(input, aux)`. |
| DispatchProperties.CutIssued | src/actions.ts:271-273 | With `mixeffect` parsed, it issues exactly a cut on that mix-effect. |
| DispatchProperties.DskAutoIssued | src/actions.ts:285-287 | With `downstreamKeyerId` parsed, it issues exactly an auto transition of that keyer. |
| DispatchProperties.AutoIssued | src/actions.ts:298-300 | With `mixeffect` parsed, it issues exactly an auto transition on that mix-effect. |
| DispatchProperties.MacroContinueIssued | src/actions.ts:312-314 | Macro continue issues exactly `macroContinue`, whatever the options. |
| DispatchProperties.MacroStopIssued | src/actions.ts:315-317 | Macro stop issues exactly `macroStop`, whatever the options. |
| DispatchProperties.MultiviewerWindowSourceIssued | src/actions.ts:318-326 | With the three options parsed, it issues exactly the window's source for that multiviewer. |
| DispatchProperties.SuperSourceBoxSourceIssued | src/actions.ts:350-358 | With `source` and `boxIndex` parsed, it issues exactly the box's source, addressed to (box, resolved bank). |
| DispatchProperties.SuperSourceBoxPropertiesIssued | src/actions.ts:359-374 | With the eight options parsed, each goes to its own geometry field. The crop flag is the truthiness of `cropEnable`, and the command is addressed to (box, resolved bank). |
| DispatchProperties.TransitionStyleIssued | src/actions.ts:375-382 | With `style` and `mixeffect` parsed, it issues exactly the style code for that mix-effect. |
| DispatchProperties.FailureNamesFirstInvalidKey | src/actions.ts:253-461 | For every action, a parse failure is logged iff one of the integer options the action reads fails to parse. The key logged is the first such option in the source's evaluation order (`ParseOrder`). |
| DispatchProperties.UskSourceFailureOrder | src/actions.ts:261-262 | Upstream keyer source fails on the first bad key of fill, mixeffect, key, cut, mixeffect, key. |
| DispatchProperties.DskSourceFailureOrder | src/actions.ts:265-266 | Downstream keyer source fails on the first bad key of fill, key, cut, key. |
| DispatchProperties.TransitionRateFailureOrder | src/actions.ts:384-419 | The rate action reads `style`, then `rate` and `mixeffect` only when the style selects a rate command. A failure names the first bad key among those. |
| DispatchProperties.RatedStyleFailureOrder | src/actions.ts:386-416 | Once the style selects a rate command, `rate` is read before `mixeffect`. |
| DispatchProperties.MediaPlayerSourceFailureOrder | src/actions.ts:436-452 | Media-player source fails on `source` first, then on `mediaplayer`. |
| DispatchProperties.SuperSourceBoxPropertiesFailureOrder | src/actions.ts:359-374 | Box properties fail on the first bad key among size, x, y, the four crops and boxIndex, in that order. |
| DispatchProperties.SwitcherFailureOrder | src/actions.ts:254-273 | Program, preview, aux and cut fail on the first bad key among their options, in source order. So does auto (lines 298-300). |
| DispatchProperties.OtherFailureOrder | src/actions.ts:285-382 | DSK auto, macro continue, macro stop and transition style fail on the first bad key among their options, in source order. So does transition selection (lines 426-434); the two macro actions read no option and never fail. |
| DispatchProperties.OnAirFailureOrder | src/actions.ts:274-349 | The three on-air actions fail on the first bad key among their addressing options, in source order. |
| DispatchProperties.AddressedFailureOrder | src/actions.ts:301-358 | Macro run, multiviewer window source and box source fail on the first bad key among their options, in source order. |
| DispatchProperties.UskOnAirResolution | src/actions.ts:274-284 | Issues one on-air command addressed to the parsed keyer. A toggle sends `!usk \|\| !usk.onAir` of the snapshot entry. Any other mode sends whether `onair` is "true". |
| DispatchProperties.UskOnAirReadsOnlyTarget | src/actions.ts:278-279 | Two snapshots that agree at the target keyer give identical outputs, so repeated toggles against a fixed snapshot agree. |
| DispatchProperties.DskOnAirResolution | src/actions.ts:288-297 | As for the upstream keyer, addressed to the parsed downstream keyer. |
| DispatchProperties.DskOnAirReadsOnlyTarget | src/actions.ts:291-292 | Two snapshots that agree at the target downstream keyer give identical outputs. |
| DispatchProperties.ToggleAgainstFixedSnapshot | src/actions.ts:277-279 | With keyer (1, 2) on air, two toggles against the same snapshot both send off. Once the mixer reports the keyer off, a toggle sends on. |
| DispatchProperties.SuperSourceActionsShareBank | src/actions.ts:327-374 | Every command of the three super-source actions addresses the bank chosen by the one shared rule, and that is bank 0 when the model has at most one bank. |
| DispatchProperties.SuperSourceBoxOnAirResolution | src/actions.ts:327-349 | Issues one box command addressed to (parsed box, bank). A toggle sends `!box \|\| !box.enabled`, and any other mode sends whether `onair` is "true". |
| DispatchProperties.SuperSourceBankNotValidated | src/actions.ts:328-339 | On a two-bank model, a non-numeric truthy `ssrcId` is sent on as a NaN bank. A toggle, finding no box there, enables it. |
| DispatchProperties.MacroRunResolution | src/actions.ts:301-311 | The 1-based `macro` option becomes index `macro - 1`, and exactly one continue, stop-record or run command is issued for that index. |
| DispatchProperties.MacroContinueScenario | src/actions.ts:302-305 | Player waiting at 3 with macro 4 (1-based) requested as run-or-continue: the macro is continued. |
| DispatchProperties.MacroRunScenario | src/actions.ts:302-309 | Player waiting at 3 with macro 5 (1-based) requested, and the recorder idle: macro index 4 is run. |
| DispatchProperties.TransitionRateRouting | src/actions.ts:383-424 | A code outside the enumeration logs "unknown transition style" and issues nothing. A stinger issues nothing and logs nothing. Any other style issues one rate command of that style, with the parsed rate and mix-effect, iff both parse. |
| DispatchProperties.TransitionSelectionRecombined | src/actions.ts:426-433 | Issues one transition-style command carrying the selection recombined for the model's upstream-keyer count. |
| DispatchProperties.MediaPlayerSourceDecoded | src/actions.ts:435-453 | Issues one media-player command to the parsed player. Its source is a clip exactly when the option is at or above the offset, and re-encoding it gives the option back. |
| DispatchProperties.MediaOffsetExamples | src/actions.ts:437-452 | With offset K, K + 5 is clip 5 and K - 1 is still K - 1. |

## Left out

- `src/config.ts`: it declares static configuration fields and constants and has no behaviour.
- Option pickers (`./input`), choice lists (`./choices`), option defaults and option schemas: these files are not part of this model.
- Actions.GetActionsList: the descriptors carry only the action's label, not the option schemas. The pickers that build those schemas are not part of this model. For the same reason, dropping the bank picker with `_.compact` on single-bank models is not modelled.
- The `state` parameter of `GetActionsList` is dropped. It only feeds the pickers' choice lists.
- `MEDIA_PLAYER_SOURCE_CLIP_OFFSET` and `calculateTransitionSelection` are defined in `./util`, which is not part of this model. They are parameters of the dispatcher (`Collaborators`). Every property holds for any offset and any selection function.
- The `./state` getters `getUSK`, `getDSK` and `getSuperSourceBox` are modelled as plain map lookups. A NaN bank addresses no box.
- Values.OptInt: JavaScript numbers are doubles. A digit string of more than about 309 digits parses to Infinity, and values above 2^53 are rounded. `macro - 1` and `source - MEDIA_PLAYER_SOURCE_CLIP_OFFSET` are double arithmetic. The model parses to an unbounded `int` and computes exactly, which agrees with the source on the small option ranges the pickers offer.
- The string semantics of `parseInt` and JavaScript truthiness: a raw option records their outcomes (`parsed`, `truthy`). The model does not compute them from the text.
- The numeric style codes (MIX = 0 … STING = 4) are those of the device library's `TransitionStyle` enumeration. That library is not part of this model.
- The `atem-connection` client: its calls are `Command` values appended to the outcome. Transport failures, asynchrony and ordering on the wire are out of scope.
- `instance.debug` text: the three log lines are modelled as `Diagnostic` values, not as strings.
- `assertUnreachable`: it only checks exhaustiveness at compile time, and Dafny's exhaustive `match` plays that role.
- Asynchronous snapshot updates: each dispatch reads one immutable snapshot.
