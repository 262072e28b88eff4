/**
 * Stand-ins for the parts of the external AudioClickRepair engine that the
 * session state touches: the mutable settings object of a loaded audio and
 * its per-channel patch query. The engine's detection algorithm is not part
 * of this model; the patches an audio reports are an arbitrary function of
 * the channel, fixed when the audio object is created.
 */
module AudioClickRepair {
  import opened Base

  /** The engine's channel selector (an enumeration whose values are not needed here). */
  type ChannelType(==)

  /** One detected click region; never inspected by the session state. */
  type Patch

  /** The engine's mutable processing parameters, shared by reference. */
  class Settings {
    var thresholdForDetection: real
    var maxLengthOfCorrection: int32

    constructor (threshold: real, maxLength: int32)
      ensures thresholdForDetection == threshold && maxLengthOfCorrection == maxLength
    {
      thresholdForDetection := threshold;
      maxLengthOfCorrection := maxLength;
    }
  }

  /** A loaded audio: a fixed reference to its settings and a patch query. */
  class IAudio {
    const settings: Settings
    const patches: ChannelType -> seq<Patch>

    constructor (settings: Settings, patches: ChannelType -> seq<Patch>)
      ensures this.settings == settings && this.patches == patches
    {
      this.settings := settings;
      this.patches := patches;
    }

    /** The patches the engine reports for one channel. */
    function GetPatches(channel: ChannelType): seq<Patch>
    {
      patches(channel)
    }
  }
}
