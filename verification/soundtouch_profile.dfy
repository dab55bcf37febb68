/**
 * The stretching profile: whether the playback rate is applied as a tempo change (pitch kept) or
 * as a rate change (pitch follows), and two quality switches. The provider keeps a reference to
 * the profile object, so changes made to it later are seen by the provider.
 */
module Profile {

  class SoundTouchProfile {
    var useTempo: bool
    var useAntiAliasing: bool
    var useQuickSeek: bool

    /** Quick seek starts off; only the other two flags are chosen at construction. */
    constructor (useTempo: bool, useAntiAliasing: bool)
      ensures this.useTempo == useTempo
      ensures this.useAntiAliasing == useAntiAliasing
      ensures !useQuickSeek
    {
      this.useTempo := useTempo;
      this.useAntiAliasing := useAntiAliasing;
      useQuickSeek := false;
    }

    method SetUseTempo(value: bool)
      modifies this
      ensures useTempo == value
      ensures useAntiAliasing == old(useAntiAliasing) && useQuickSeek == old(useQuickSeek)
    {
      useTempo := value;
    }

    method SetUseAntiAliasing(value: bool)
      modifies this
      ensures useAntiAliasing == value
      ensures useTempo == old(useTempo) && useQuickSeek == old(useQuickSeek)
    {
      useAntiAliasing := value;
    }

    method SetUseQuickSeek(value: bool)
      modifies this
      ensures useQuickSeek == value
      ensures useTempo == old(useTempo) && useAntiAliasing == old(useAntiAliasing)
    {
      useQuickSeek := value;
    }
  }
}
