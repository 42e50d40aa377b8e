/**
 * The external QMixer driver, seen only through the commands the sound
 * manager sends it.  Every `qsWaveMix*` call of the manager appends one
 * command to a log; nothing here decodes or plays audio.
 */
module Mixer {

  /** A cartesian source position (passed through unchanged). */
  datatype Vector = Vector(x: real, y: real, z: real)

  /** A polar source position, in the field order of the mixer's QSPOLAR. */
  datatype Polar = Polar(azimuth: real, range: real, elevation: real)

  datatype MixerCmd =
    /** qsWaveMixInitEx with sampling rate, channel count and latency */
    | InitEx(samplingRate: nat, channels: nat, latency: nat)
    /** qsWaveMixActivate */
    | Activate(on: bool)
    /** qsWaveMixOpenChannel(0, QMIX_OPENALL) */
    | OpenAllChannels
    /** qsWaveMixFlushChannel(0, QMIX_OPENALL) */
    | FlushAllChannels
    /** qsWaveMixFlushChannel(channel) */
    | FlushChannel(channel: int)
    /** qsWaveMixSetPanRate; useOnce is the QMIX_USEONCE flag, otherwise flags are 0 */
    | SetPanRate(channel: int, useOnce: bool, rate: nat)
    /** qsWaveMixSetVolume(channel, 0, volume) */
    | SetVolume(channel: int, volume: nat)
    /** qsWaveMixSetSourcePosition(channel, QMIX_USEONCE, position) */
    | SetSourcePosition(channel: int, vector: Vector)
    /** qsWaveMixSetPolarPosition(channel, QMIX_USEONCE, position) */
    | SetPolarPosition(channel: int, polar: Polar)
}
