/**
 * The session-state holder of the Blazor front end: one optional reference
 * to the loaded audio, an export name suggestion, and the two processing
 * parameters, which live in the loaded audio's settings object.
 */
module Data {
  import opened Base
  import opened AudioClickRepair
  import Spec = AppStateSpec

  class AppState {
    var outputFileNameSuggestion: string
    var audio: IAudio?
    /** Each firing of `OnAudioChange`, recorded as what a subscriber reads at that moment. */
    ghost var notices: seq<Spec.Observation>
    /** The state-changing calls made on this object so far, in order. */
    ghost var history: seq<Spec.Op>

    /** The heap the parameters live in: the settings of the loaded audio, if any. */
    function Footprint(): set<object>
      reads this
    {
      if audio == null then {} else {audio.settings}
    }

    /**
     * The session is what its calls so far produce from a fresh one, so the
     * lemmas about `Spec.Run` apply to it. Every mutator keeps this.
     */
    ghost predicate Reachable()
      reads this, Footprint()
    {
      View() == Spec.Run(Spec.Initial(), history)
    }

    /** The abstract session this object holds. */
    ghost function View(): Spec.Session
      reads this, Footprint()
    {
      Spec.Session(
        outputFileNameSuggestion,
        if audio == null then None
        else Some(Spec.Active(audio, audio.settings.thresholdForDetection, audio.settings.maxLengthOfCorrection)),
        notices)
    }

    constructor ()
      ensures View() == Spec.Initial()
      ensures outputFileNameSuggestion == "" && audio == null && notices == []
      ensures history == [] && Reachable()
    {
      outputFileNameSuggestion := "";
      audio := null;
      notices := [];
      history := [];
    }

    /** The `Threshold` getter: the loaded audio's threshold, or the default without audio. */
    function Threshold(): (r: real)
      reads this, Footprint()
      ensures r == Spec.Threshold(View())
      ensures audio == null ==> r == Spec.DefaultThreshold
    {
      if audio == null then Spec.DefaultThreshold else audio.settings.thresholdForDetection
    }

    /** The `MaxLength` getter: the loaded audio's maximum correction length, or the default. */
    function MaxLength(): (r: int32)
      reads this, Footprint()
      ensures r == Spec.MaxLength(View())
      ensures audio == null ==> r == Spec.DefaultMaxLength
    {
      if audio == null then Spec.DefaultMaxLength else audio.settings.maxLengthOfCorrection
    }

    /** The `Threshold` setter: writes through to the loaded audio, dropped without audio. */
    method SetThreshold(value: real)
      modifies this`history, Footprint()
      ensures View() == Spec.Step(old(View()), Spec.SetThreshold(value))
      ensures history == old(history) + [Spec.SetThreshold(value)]
      ensures old(Reachable()) ==> Reachable()
      ensures audio == old(audio) && outputFileNameSuggestion == old(outputFileNameSuggestion)
      ensures notices == old(notices) && MaxLength() == old(MaxLength())
      ensures audio != null ==> Threshold() == value
      ensures audio == null ==> Threshold() == Spec.DefaultThreshold
    {
      Spec.RunSnoc(Spec.Initial(), history, Spec.SetThreshold(value));
      if audio != null {
        audio.settings.thresholdForDetection := value;
      }
      history := history + [Spec.SetThreshold(value)];
    }

    /** The `MaxLength` setter: writes through to the loaded audio, dropped without audio. */
    method SetMaxLength(value: int32)
      modifies this`history, Footprint()
      ensures View() == Spec.Step(old(View()), Spec.SetMaxLength(value))
      ensures history == old(history) + [Spec.SetMaxLength(value)]
      ensures old(Reachable()) ==> Reachable()
      ensures audio == old(audio) && outputFileNameSuggestion == old(outputFileNameSuggestion)
      ensures notices == old(notices) && Threshold() == old(Threshold())
      ensures audio != null ==> MaxLength() == value
      ensures audio == null ==> MaxLength() == Spec.DefaultMaxLength
    {
      Spec.RunSnoc(Spec.Initial(), history, Spec.SetMaxLength(value));
      if audio != null {
        audio.settings.maxLengthOfCorrection := value;
      }
      history := history + [Spec.SetMaxLength(value)];
    }

    /** The setter of the `OutputFileNameSuggestion` auto-property. */
    method SetOutputFileNameSuggestion(name: string)
      modifies this`outputFileNameSuggestion, this`history
      ensures View() == Spec.Step(old(View()), Spec.SetOutputName(name))
      ensures outputFileNameSuggestion == name
      ensures history == old(history) + [Spec.SetOutputName(name)]
      ensures old(Reachable()) ==> Reachable()
    {
      Spec.RunSnoc(Spec.Initial(), history, Spec.SetOutputName(name));
      outputFileNameSuggestion := name;
      history := history + [Spec.SetOutputName(name)];
    }

    /**
     * Loads `audioData`: ignores null; otherwise makes it the active audio,
     * resets its settings to the defaults and then notifies subscribers once.
     */
    method SetAudioData(audioData: IAudio?)
      modifies this, if audioData == null then {} else {audioData.settings}
      ensures View() == Spec.Step(old(View()), Spec.SetAudioData(if audioData == null then None else Some(audioData)))
      ensures audioData == null ==> unchanged(this`outputFileNameSuggestion, this`audio, this`notices)
      ensures history == old(history) + [Spec.SetAudioData(if audioData == null then None else Some(audioData))]
      ensures old(Reachable()) ==> Reachable()
      ensures audioData != null ==>
        audio == audioData &&
        audio.settings.thresholdForDetection == Spec.DefaultThreshold &&
        audio.settings.maxLengthOfCorrection == Spec.DefaultMaxLength &&
        notices == old(notices) + [Spec.Observation(Some(audioData), Spec.DefaultThreshold, Spec.DefaultMaxLength)]
      ensures old(audio) != null ==> audio != null
      ensures outputFileNameSuggestion == old(outputFileNameSuggestion)
    {
      ghost var op := Spec.SetAudioData(if audioData == null then None else Some(audioData));
      Spec.RunSnoc(Spec.Initial(), history, op);
      history := history + [op];
      if audioData == null {
        return;
      }
      audio := audioData;
      audio.settings.thresholdForDetection := Spec.DefaultThreshold;
      audio.settings.maxLengthOfCorrection := Spec.DefaultMaxLength;
      NotifyAudioDataChanged();
    }

    /**
     * Fires `OnAudioChange`: subscribers observe the session as it is now.
     * It is private in C#, and `SetAudioData` is its only caller.
     */
    method NotifyAudioDataChanged()
      modifies this`notices
      ensures notices == old(notices) + [Spec.Observe(View())]
    {
      notices := notices + [Spec.Observe(View())];
    }

    /** The patch query: absent without audio, otherwise the engine's answer unchanged. */
    function GetAudioClicks(channelType: ChannelType): (r: Option<seq<Patch>>)
      reads this
      ensures r == Spec.Clicks(View(), channelType)
      ensures r.None? <==> audio == null
    {
      if audio == null then None else Some(audio.GetPatches(channelType))
    }
  }

  /**
   * A client: defaults before any load, reset on load, write-through while
   * loaded, reset again when another audio is loaded, and a load of null ignored.
   */
  method SessionScenario(x: IAudio, y: IAudio, channel: ChannelType)
    modifies x.settings, y.settings
  {
    var state := new AppState();
    assert state.Threshold() == 10.0 && state.MaxLength() == 250;
    state.SetThreshold(3.0);
    assert state.Threshold() == 10.0 && state.audio == null;
    var none := state.GetAudioClicks(channel);
    assert none == None;

    state.SetAudioData(x);
    assert state.Threshold() == 10.0 && state.MaxLength() == 250;
    state.SetThreshold(7.5);
    assert state.Threshold() == 7.5 && state.MaxLength() == 250;
    var found := state.GetAudioClicks(channel);
    assert found == Some(x.GetPatches(channel));

    state.SetAudioData(y);
    assert state.audio == y && state.Threshold() == 10.0;
    state.SetAudioData(null);
    assert state.audio == y && |state.notices| == 2;

    // The object is still what its calls produce, so the lemmas about runs apply to it.
    assert state.Reachable();
    Spec.NoticesAfterRun(Spec.Initial(), state.history);
    assert Spec.Loads(state.history) == 2;
  }
}
