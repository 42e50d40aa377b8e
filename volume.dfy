/**
 * The per-channel gain arithmetic of QSoundManager::updateVolume: a stored
 * volume is scaled to the mixer's amplitude range, then by the factor of
 * the channel's mode tier, then by the music knob.
 */
module Volume {
  import opened Common

  /** The four percent knobs (music, speech, master, parrot). */
  datatype Knobs = Knobs(music: nat, speech: nat, master: nat, parrot: nat)

  /** Every knob starts at 75. */
  const DEFAULT_KNOBS: Knobs := Knobs(75, 75, 75, 75)

  /** A stored volume is multiplied by this to reach the mixer's range. */
  const AMPLITUDE_SCALE: nat := 327

  /** The fixed factor (in percent) of modes 3 to 5. */
  const FIXED_TIER: nat := 24525

  predicate SpeechTier(mode: int) { 0 <= mode <= 2 }
  predicate FixedTier(mode: int) { 3 <= mode <= 5 }
  predicate MasterTier(mode: int) { 6 <= mode <= 9 }

  /** A percentage of an amount, truncated toward zero. */
  function Percent(p: nat, amount: nat): (r: nat) {
    p * amount / 100
  }

  /** `_channelsVolume[channel] * 327` held in a `uint`. */
  function RawVolume(volume: nat): (raw: nat) {
    Wrap32(volume * AMPLITUDE_SCALE)
  }

  /** The amount after the tier factor of the mode. */
  function TierScaled(raw: nat, mode: int, k: Knobs): (scaled: nat) {
    if SpeechTier(mode) then Percent(k.speech, raw)
    else if FixedTier(mode) then Wrap32(FIXED_TIER * raw) / 100
    else if MasterTier(mode) then Percent(k.master, raw)
    else raw
  }

  /** The volume updateVolume hands to the mixer. */
  function ChannelGain(volume: nat, mode: int, k: Knobs): (gain: nat) {
    Percent(k.music, TierScaled(RawVolume(volume), mode, k))
  }

  lemma {:induction false} PercentMonotoneInKnob(p: nat, q: nat, amount: nat)
    requires p <= q
    ensures Percent(p, amount) <= Percent(q, amount)
  {
    assert p * amount <= q * amount by {
      assert q * amount == p * amount + (q - p) * amount;
    }
    DivMonotone(p * amount, q * amount);
  }

  lemma {:induction false} PercentMonotoneInAmount(p: nat, a: nat, b: nat)
    requires a <= b
    ensures Percent(p, a) <= Percent(p, b)
  {
    assert p * a <= p * b by {
      assert p * b == p * a + p * (b - a);
    }
    DivMonotone(p * a, p * b);
  }

  lemma {:induction false} PercentBound(p: nat, amount: nat)
    requires p <= 100
    ensures Percent(p, amount) <= amount
  {
  }

  lemma {:induction false} DivMonotone(x: nat, y: nat)
    requires x <= y
    ensures x / 100 <= y / 100
  {
  }

  /** The worked example: all knobs at 75 and volume 100 give 18393 in modes 0 and 6. */
  lemma DefaultGainExample()
    ensures ChannelGain(100, 6, DEFAULT_KNOBS) == 18393
    ensures ChannelGain(100, 0, DEFAULT_KNOBS) == 18393
  {
  }

  /** For a stored volume up to 100, no `uint` product wraps around. */
  lemma {:induction false} NoWrapUpTo100(volume: nat)
    requires volume <= 100
    ensures RawVolume(volume) == volume * AMPLITUDE_SCALE
    ensures Wrap32(FIXED_TIER * RawVolume(volume)) == FIXED_TIER * AMPLITUDE_SCALE * volume
  {
  }

  /**
   * The gain formula for a stored volume up to 100, by tier: the raw amount
   * 327 * volume, scaled by the speech knob, by 245.25, by the master knob
   * or not at all, and then by the music knob.
   */
  lemma {:induction false} GainByTier(volume: nat, mode: int, k: Knobs)
    requires volume <= 100
    ensures SpeechTier(mode) ==>
              ChannelGain(volume, mode, k) == Percent(k.music, Percent(k.speech, AMPLITUDE_SCALE * volume))
    ensures FixedTier(mode) ==>
              ChannelGain(volume, mode, k) == Percent(k.music, FIXED_TIER * AMPLITUDE_SCALE * volume / 100)
    ensures MasterTier(mode) ==>
              ChannelGain(volume, mode, k) == Percent(k.music, Percent(k.master, AMPLITUDE_SCALE * volume))
    ensures !SpeechTier(mode) && !FixedTier(mode) && !MasterTier(mode) ==>
              ChannelGain(volume, mode, k) == Percent(k.music, AMPLITUDE_SCALE * volume)
  {
  }

  /** The gain never falls when the music knob is raised, whatever the mode. */
  lemma MusicMonotone(volume: nat, mode: int, k: Knobs, music: nat)
    requires k.music <= music
    ensures ChannelGain(volume, mode, k) <= ChannelGain(volume, mode, k.(music := music))
  {
    PercentMonotoneInKnob(k.music, music, TierScaled(RawVolume(volume), mode, k));
  }

  /** The gain never falls when the speech knob is raised, on a speech-tier channel. */
  lemma SpeechMonotone(volume: nat, mode: int, k: Knobs, speech: nat)
    requires SpeechTier(mode) && k.speech <= speech
    ensures ChannelGain(volume, mode, k) <= ChannelGain(volume, mode, k.(speech := speech))
  {
    var raw := RawVolume(volume);
    PercentMonotoneInKnob(k.speech, speech, raw);
    PercentMonotoneInAmount(k.music, Percent(k.speech, raw), Percent(speech, raw));
  }

  /** The gain never falls when the master knob is raised, on a master-tier channel. */
  lemma MasterMonotone(volume: nat, mode: int, k: Knobs, master: nat)
    requires MasterTier(mode) && k.master <= master
    ensures ChannelGain(volume, mode, k) <= ChannelGain(volume, mode, k.(master := master))
  {
    var raw := RawVolume(volume);
    PercentMonotoneInKnob(k.master, master, raw);
    PercentMonotoneInAmount(k.music, Percent(k.master, raw), Percent(master, raw));
  }

  /** Raising the stored volume never lowers the gain while the raw amount does not wrap. */
  lemma VolumeMonotone(v: nat, w: nat, mode: int, k: Knobs)
    requires v <= w <= 100
    ensures ChannelGain(v, mode, k) <= ChannelGain(w, mode, k)
  {
    NoWrapUpTo100(v);
    NoWrapUpTo100(w);
    var a, b := RawVolume(v), RawVolume(w);
    assert a <= b;
    if SpeechTier(mode) {
      PercentMonotoneInAmount(k.speech, a, b);
    } else if FixedTier(mode) {
      assert FIXED_TIER * AMPLITUDE_SCALE * v <= FIXED_TIER * AMPLITUDE_SCALE * w;
      DivMonotone(FIXED_TIER * AMPLITUDE_SCALE * v, FIXED_TIER * AMPLITUDE_SCALE * w);
    } else if MasterTier(mode) {
      PercentMonotoneInAmount(k.master, a, b);
    }
    PercentMonotoneInAmount(k.music, TierScaled(a, mode, k), TierScaled(b, mode, k));
  }

  /**
   * Which knobs a channel's gain depends on: the speech knob only in modes
   * 0 to 2, the master knob only in modes 6 to 9, the parrot knob never.
   */
  lemma KnobIndependence(volume: nat, mode: int, k: Knobs, other: nat)
    ensures ChannelGain(volume, mode, k.(parrot := other)) == ChannelGain(volume, mode, k)
    ensures !SpeechTier(mode) ==> ChannelGain(volume, mode, k.(speech := other)) == ChannelGain(volume, mode, k)
    ensures !MasterTier(mode) ==> ChannelGain(volume, mode, k.(master := other)) == ChannelGain(volume, mode, k)
  {
  }

  /**
   * With every knob at most 100, a channel outside the fixed tier never
   * gets more than 327 * volume, whatever the volume: the `uint` product
   * only ever gets smaller when it wraps.
   */
  lemma {:induction false} GainBounds(volume: nat, mode: int, k: Knobs)
    requires k.music <= 100 && k.speech <= 100 && k.master <= 100
    ensures !FixedTier(mode) ==> ChannelGain(volume, mode, k) <= AMPLITUDE_SCALE * volume
  {
    var raw := RawVolume(volume);
    assert raw <= AMPLITUDE_SCALE * volume;
    if SpeechTier(mode) {
      PercentBound(k.speech, raw);
    } else if MasterTier(mode) {
      PercentBound(k.master, raw);
    }
    PercentBound(k.music, TierScaled(raw, mode, k));
  }
}
