# Session state of the GPU declicker front end

This project models `AppState`, the session-state holder of the Blazor front end of the
GPU declicker. It holds at most one loaded audio. It keeps a suggested name for the exported
file. It exposes two processing parameters: the click detection threshold and the maximum
length of a correction.

The parameters are stored in the loaded audio's own mutable settings object. With no audio
loaded, they read as the constants 10 and 250, and writes to them are dropped. Loading an
audio makes it the active one and resets its settings to those constants. It then fires the
`OnAudioChange` notification once. A patch query returns nothing without audio. With audio,
it passes the channel straight to the audio's engine.

Files:

- `base.dfy` (module `Base`): C#'s `int` as the newtype `int32`, and `Option` in place of `null`.
- `audio_click_repair.dfy` (module `AudioClickRepair`): stand-ins for the external engine.
  - `Settings` is a heap object with the two mutable parameters.
  - `IAudio` holds a fixed reference to its `Settings` and a patch query. The query is an
    arbitrary function of the channel, given when the object is created.
  - `ChannelType` and `Patch` are abstract types.
- `app_state_spec.dfy` (module `AppStateSpec`): the session as a value.
  - `Session` holds the name suggestion, the active audio with its two settings, and the log
    of notifications.
  - `Step` gives the effect of one state-changing operation. `Run` applies a sequence of them.
  - `Threshold`, `MaxLength` and `Clicks` give what the getters and the patch query return.
  - `ExpectedThreshold`, `ExpectedMaxLength` and `LastLoaded` are independent reference
    readings. They scan an operation sequence from its end.
  - The lemmas relate `Run` to these readings, and to the count of loads.
- `app_state.dfy` (module `Data`): the class `AppState`.
  - Its fields are `outputFileNameSuggestion`, `audio` (nullable, like the C# property), a
    ghost log `notices` and a ghost `history` of the state-changing calls made so far.
  - The ghost function `View()` maps an object to its `Session`. `Reachable()` says that this
    session is `Run(Initial(), history)`. The constructor establishes it and every mutator
    keeps it, so the lemmas about runs are statements about the object itself.
  - The getters and the patch query are functions tied to the spec functions.
  - Every mutator is proved to move `View()` exactly as `Step` does. It also states directly
    which fields and settings it writes and what stays the same.
  - `SessionScenario` is a client method. Its assertions follow from the contracts alone: the
    defaults, the reset on load, reads after writes, the reset when a second audio is loaded,
    and a null load being ignored.

The notification is modelled as the ghost sequence `notices`. Each firing appends an
`Observation`: the audio, threshold and maximum length that a subscriber reading the session
would see at that moment. Its length is the number of notifications. Its contents show that
subscribers see the new audio with settings already reset.

## Model

| member | source | states |
|---|---|---|
| `Data.AppState.constructor` | GPUDeclickerBlazor/Data/AppState.cs:11-44 | A new session has an empty name suggestion, no audio and no notification yet. It is `Reachable()` with an empty history. |
| `Data.AppState.Threshold` | GPUDeclickerBlazor/Data/AppState.cs:16-21 | The getter returns the loaded audio's threshold. With no audio it returns the default 10. |
| `Data.AppState.MaxLength` | GPUDeclickerBlazor/Data/AppState.cs:31-36 | The getter returns the loaded audio's maximum correction length. With no audio it returns 250. |
| `Data.AppState.SetThreshold` | GPUDeclickerBlazor/Data/AppState.cs:22-26 | With audio, a later read returns the written value. Without audio, nothing changes and the read is still 10. In both cases the audio, the name suggestion, the maximum length and the notifications stay as they were. The call is appended to `history` and `Reachable()` is kept. |
| `Data.AppState.SetMaxLength` | GPUDeclickerBlazor/Data/AppState.cs:37-41 | With audio, a later read returns the written value. Without audio, nothing changes and the read is still 250. The threshold, the audio and the name suggestion stay as they were. The call is appended to `history` and `Reachable()` is kept. |
| `Data.AppState.SetOutputFileNameSuggestion` | GPUDeclickerBlazor/Data/AppState.cs:11 | Sets the name suggestion and nothing else. The call is appended to `history` and `Reachable()` is kept. |
| `Data.AppState.SetAudioData` | GPUDeclickerBlazor/Data/AppState.cs:48-57 | Null leaves the object unchanged and fires nothing. Any other audio becomes the active one, whatever was there before. Its settings are reset to 10 and 250, whatever they held. Exactly one notification is recorded, and it shows the new audio with the reset values. Audio, once present, stays present. The call is appended to `history` and `Reachable()` is kept. |
| `Data.AppState.NotifyAudioDataChanged` | GPUDeclickerBlazor/Data/AppState.cs:59 | Firing the event appends one observation of the session's current state to the notification log. |
| `Data.AppState.GetAudioClicks` | GPUDeclickerBlazor/Data/AppState.cs:61-67 | The result is absent exactly when no audio is loaded. Otherwise it is the audio's own patches for that channel, unmodified. It reads state and changes none. |
| `AppStateSpec.LoadedAfterRun` | GPUDeclickerBlazor/Data/AppState.cs:44-53 | In both directions: after any sequence of operations, audio is present if and only if it was present before or the sequence loads an audio. So audio never becomes absent again, and nothing but a load creates it. |
| `AppStateSpec.ActiveAudioAfterRun` | GPUDeclickerBlazor/Data/AppState.cs:50-53 | After any sequence, the active audio is the one loaded last, or the earlier one if nothing was loaded. Each load replaces the previous audio. |
| `AppStateSpec.ThresholdAfterRun` | GPUDeclickerBlazor/Data/AppState.cs:14-56 | After any sequence, the threshold reads as the reference: 10 right after a load, then the last write made while audio was loaded. Writes without audio leave the default. |
| `AppStateSpec.MaxLengthAfterRun` | GPUDeclickerBlazor/Data/AppState.cs:29-56 | The same reference reading for the maximum correction length, with default 250. |
| `AppStateSpec.NoticesAfterRun` | GPUDeclickerBlazor/Data/AppState.cs:53-59 | Within a run, the number of notifications grows by exactly the number of loads. Earlier notifications are kept. The k-th new one shows the audio of the k-th load, with threshold 10 and maximum length 250. |
| `AppStateSpec.DefaultsUntilLoaded` | GPUDeclickerBlazor/Data/AppState.cs:16-41 | Starting from no audio, any writes without a load leave no audio and fire no notification. The parameters still read 10 and 250, and every patch query is absent. |

## Left out

- The subscriber list of the `OnAudioChange` event is not modelled, and neither is the null check of `?.Invoke` or any subscriber's side effects. A subscriber that writes back into the session while it is being notified is not covered. Only "fired once, after the reset, and what it would read" is modelled.
- The AudioClickRepair engine is not part of this model. This covers how `GetPatches` finds patches, its exceptions, whether it can return null, and what a `Patch` holds. `IAudio` is an interface in C#. Here it is a class with a fixed settings reference and a fixed patch function, so the model assumes its `Settings` property always returns the same object.
- The values of `ChannelType` are not modelled. It is an abstract type passed through unchanged.
- `double` is modelled as `real`, because the threshold is only stored and read back. NaN and rounding are not modelled. The constant `10f` is float 10 widened to double, which is exactly 10.
- `SetOutputFileNameSuggestion`: a C# `string` can be null, and the auto-property stores and returns null. A Dafny `string` cannot be null, so a null name suggestion is not modelled.
- `SetAudioData`: the model's `IAudio` always has a non-null `Settings` whose fields cannot fail to be written. In C#, a null `Settings` or a throwing setter would end the call after line 53: `Audio` already replaced, the settings not reset and no notification. The same null `Settings` makes both getters throw. None of these exception paths is modelled.
- `NotifyAudioDataChanged` is private in C#, but Dafny methods cannot be made private. A client of the model could call it directly and record a notification without a load. `Reachable()` would then fail, and the statement that only loads notify holds for the object only while `Reachable()` holds.
- `Reachable()` also fails once code outside the session writes the loaded audio's shared `Settings` object. The engine might do so, but that code is not part of this model.
- `Audio` has a private setter in C#. Dafny fields cannot be made private, so the model's only writer of `audio` is `SetAudioData` by convention. Dafny does not enforce this.
- The getter of `OutputFileNameSuggestion` is the field itself, and its setter is `SetOutputFileNameSuggestion`.
- Blazor's UI binding and the host's lifetime of the session are outside this file, so they are not modelled.
