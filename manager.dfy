/**
 * QSoundManager: 48 handle-bearing slots, 16 tracked channel volumes and
 * modes, the four percent knobs, the registry of playing sounds, and the
 * commands sent to the QMixer driver.  The current tick count is the
 * parameter `now`.
 */
module SoundManager {
  import opened Common
  import opened Mixer
  import opened Registry
  import opened Volume

  const SAMPLING_RATE: nat := 22050
  /** The mixer latency in milliseconds. */
  const LATENCY: nat := 100
  /** The channels whose volume and mode are tracked. */
  const CHANNELS_COUNT: nat := 16
  /** The size of the slot table, and the end of the widest flush group. */
  const SLOT_COUNT: nat := 48
  /** The ramp used when every channel is recomputed after a knob change. */
  const RECOMPUTE_PAN_RATE: nat := 250

  /** One entry of the slot table (`_handle`, `_channel`, `_ticks`, `_val2`). */
  datatype Slot = Slot(handle: nat, channel: nat, ticks: nat, val2: int)

  /** The state a slot is created in. */
  const EMPTY_SLOT: Slot := Slot(0, 0, 0, 0)

  /** The index of the first slot holding `handle`, if any. */
  function FirstWithHandle(s: seq<Slot>, handle: nat): (r: Option<nat>)
    ensures r.Some? ==> r.value < |s| && s[r.value].handle == handle
    ensures r.Some? ==> forall j :: 0 <= j < r.value ==> s[j].handle != handle
    ensures r.None? <==> forall j :: 0 <= j < |s| ==> s[j].handle != handle
  {
    if |s| == 0 then None
    else if s[0].handle == handle then Some(0)
    else match FirstWithHandle(s[1..], handle)
      case None => None
      case Some(i) => Some(i + 1)
  }

  /** The `uint` tick at which a fade of `seconds` started at `now` ends. */
  function FadeEnd(seconds: nat, now: nat): (t: nat) {
    Wrap32(now + Wrap32(seconds * 1000))
  }

  /**
   * A slot's fade deadline after setVolume: cleared by volume 0, otherwise
   * the later of the old deadline and the new fade's end (extend-only).
   */
  function FadeDeadline(ticks: nat, volume: nat, seconds: nat, now: nat): (r: nat)
    ensures volume == 0 ==> r == 0
    ensures volume != 0 ==> r >= ticks && r >= FadeEnd(seconds, now)
    ensures volume != 0 ==> r == ticks || r == FadeEnd(seconds, now)
  {
    if volume == 0 then 0
    else
      var t := FadeEnd(seconds, now);
      if ticks == 0 || t >= ticks then t else ticks
  }

  /**
   * While the tick counter does not wrap, a fade with a non-zero volume ends
   * no earlier than now + 1000 * seconds, and exactly then when no fade was
   * pending; a deadline that fits a `uint` stays in range.
   */
  lemma FadeDeadlineNoWrap(ticks: nat, volume: nat, seconds: nat, now: nat)
    requires ticks < UINT32_MOD
    ensures FadeDeadline(ticks, volume, seconds, now) < UINT32_MOD
    ensures now + seconds * 1000 < UINT32_MOD && volume != 0 ==>
              FadeDeadline(ticks, volume, seconds, now) >= now + seconds * 1000
    ensures now + seconds * 1000 < UINT32_MOD && volume != 0 && ticks == 0 ==>
              FadeDeadline(ticks, volume, seconds, now) == now + seconds * 1000
  {
  }

  /** A contiguous run of channels, `start` included and `end` excluded. */
  datatype ChannelRange = ChannelRange(start: nat, end: nat)
  {
    predicate Contains(c: int) { start <= c < end }
  }

  /** The fixed table of flushChannels: the channels that a group code flushes. */
  function GroupRange(code: int): (r: Option<ChannelRange>)
    ensures r.Some? <==> code == 0 || code == 3 || code == 6 || code == 10
    ensures r.Some? ==> r.value.start == code && code < r.value.end <= SLOT_COUNT
  {
    if code == 0 || code == 3 then Some(ChannelRange(code, code + 3))
    else if code == 6 then Some(ChannelRange(6, 10))
    else if code == 10 then Some(ChannelRange(10, SLOT_COUNT))
    else None
  }

  /** The group a channel of the table belongs to. */
  function GroupOf(c: nat): (code: int) {
    if c < 3 then 0 else if c < 6 then 3 else if c < 10 then 6 else 10
  }

  /** The four groups are disjoint and together cover the channels [0, 48). */
  lemma GroupsPartition(code: int, c: nat)
    requires c < SLOT_COUNT
    ensures GroupRange(GroupOf(c)).Some? && GroupRange(GroupOf(c)).value.Contains(c)
    ensures GroupRange(code).Some? && GroupRange(code).value.Contains(c) ==> code == GroupOf(c)
  {
  }

  /** The mixer flushes of a group flush, channel by channel. */
  function FlushCommands(lo: int, hi: int): (cmds: seq<MixerCmd>)
    decreases hi - lo
  {
    if hi <= lo then [] else FlushCommands(lo, hi - 1) + [MixerCmd.FlushChannel(hi - 1)]
  }

  /** A group flush sends one mixer flush per channel, in ascending channel order. */
  lemma {:induction false} FlushCommandsAt(lo: int, hi: int, i: nat)
    requires lo <= hi
    ensures |FlushCommands(lo, hi)| == hi - lo
    ensures i < hi - lo ==> FlushCommands(lo, hi)[i] == MixerCmd.FlushChannel(lo + i)
    decreases hi - lo
  {
    if lo < hi {
      FlushCommandsAt(lo, hi - 1, i);
    }
  }

  /** The two commands updateVolume sends for one channel. */
  function VolumeCommands(channel: int, panRate: nat, volume: nat, mode: int, k: Knobs): (cmds: seq<MixerCmd>) {
    [MixerCmd.SetPanRate(channel, false, panRate), MixerCmd.SetVolume(channel, ChannelGain(volume, mode, k))]
  }

  /** The commands of updateVolume applied to channels 0 .. n-1 in turn. */
  function RecomputeAll(volumes: seq<nat>, modes: seq<int>, k: Knobs, panRate: nat, n: nat): (cmds: seq<MixerCmd>)
    requires n <= |volumes| && n <= |modes|
  {
    if n == 0 then []
    else RecomputeAll(volumes, modes, k, panRate, n - 1)
         + VolumeCommands(n - 1, panRate, volumes[n - 1], modes[n - 1], k)
  }

  /**
   * Recomputing n channels gives channel c, in ascending order, the pan rate
   * and then the gain of its own stored volume and mode.
   */
  lemma {:induction false} RecomputeAllAt(volumes: seq<nat>, modes: seq<int>, k: Knobs, panRate: nat, n: nat, c: nat)
    requires n <= |volumes| && n <= |modes|
    ensures |RecomputeAll(volumes, modes, k, panRate, n)| == 2 * n
    ensures c < n ==> RecomputeAll(volumes, modes, k, panRate, n)[2 * c] == MixerCmd.SetPanRate(c, false, panRate)
    ensures c < n ==> RecomputeAll(volumes, modes, k, panRate, n)[2 * c + 1]
                      == MixerCmd.SetVolume(c, ChannelGain(volumes[c], modes[c], k))
  {
    if n > 0 {
      RecomputeAllAt(volumes, modes, k, panRate, n - 1, c);
    }
  }

  /**
   * stopAllChannels flushes the registry on channels 0 .. 15 and then on
   * channels 10 .. 47: channels 10 .. 15 lose up to two records, the other
   * channels below 48 up to one, and channels outside [0, 48) none.
   */
  lemma StopAllCount(s: seq<Sound>, c: int)
    ensures var first := FlushRange(s, 0, CHANNELS_COUNT);
            var after := FlushRange(first.remaining, 10, SLOT_COUNT).remaining;
            CountOn(after, c) == if 10 <= c < CHANNELS_COUNT then Drop1(Drop1(CountOn(s, c)))
                                 else if 0 <= c < SLOT_COUNT then Drop1(CountOn(s, c))
                                 else CountOn(s, c)
  {
    var first := FlushRange(s, 0, CHANNELS_COUNT);
    FlushRangeCount(s, 0, CHANNELS_COUNT, c);
    FlushRangeCount(first.remaining, 10, SLOT_COUNT, c);
  }

  class QSoundManager {
    const slots: array<Slot>
    const channelsVolume: array<nat>
    const channelsMode: array<int>
    /** `_sounds` */
    const registry: QSoundManagerSounds
    var knobs: Knobs
    /** Every command sent to the mixer, oldest first. */
    var log: seq<MixerCmd>

    /** The table sizes, and every fade deadline held in a `uint`. */
    ghost predicate Valid()
      reads slots
    {
      && slots.Length == SLOT_COUNT
      && channelsVolume.Length == CHANNELS_COUNT
      && channelsMode.Length == CHANNELS_COUNT
      && forall i :: 0 <= i < slots.Length ==> slots[i].ticks < UINT32_MOD
    }

    /** All knobs at 75, 48 empty slots, volumes and modes zero, and the mixer opened. */
    constructor ()
      ensures Valid()
      ensures fresh(slots) && fresh(channelsVolume) && fresh(channelsMode) && fresh(registry)
      ensures forall i :: 0 <= i < slots.Length ==> slots[i] == EMPTY_SLOT
      ensures forall c :: 0 <= c < CHANNELS_COUNT ==> channelsVolume[c] == 0 && channelsMode[c] == 0
      ensures knobs == DEFAULT_KNOBS
      ensures registry.items == [] && registry.endCalls == []
      ensures log == [MixerCmd.InitEx(SAMPLING_RATE, CHANNELS_COUNT, LATENCY), MixerCmd.Activate(true),
                      MixerCmd.OpenAllChannels]
    {
      knobs := DEFAULT_KNOBS;
      slots := new Slot[SLOT_COUNT](_ => EMPTY_SLOT);
      channelsVolume := new nat[CHANNELS_COUNT](_ => 0);
      channelsMode := new int[CHANNELS_COUNT](_ => 0);
      registry := new QSoundManagerSounds();
      log := [MixerCmd.InitEx(SAMPLING_RATE, CHANNELS_COUNT, LATENCY), MixerCmd.Activate(true),
              MixerCmd.OpenAllChannels];
    }

    /** loadSpeech is a stub that loads nothing. */
    method LoadSpeech(dialogueFile: nat, speechId: int) returns (wave: Option<WaveId>)
      ensures wave == None
    {
      wave := None;
    }

    /** proc5 is a stub returning 0. */
    method Proc5() returns (r: int)
      ensures r == 0
    {
      r := 0;
    }

    /** playSound is a stub: it allocates no slot and returns handle 0. */
    method PlaySound(wave: WaveId) returns (handle: nat)
      ensures handle == 0
    {
      handle := 0;
    }

    /** proc9: set `_val2` to 1 on every slot holding the handle. */
    method Proc9(handle: nat)
      requires Valid()
      modifies slots
      ensures Valid()
      ensures forall i :: 0 <= i < slots.Length ==>
                slots[i] == if old(slots[i]).handle == handle then old(slots[i]).(val2 := 1) else old(slots[i])
    {
      for idx := 0 to slots.Length
        invariant forall i :: 0 <= i < idx ==>
                    slots[i] == if old(slots[i]).handle == handle then old(slots[i]).(val2 := 1) else old(slots[i])
        invariant forall i :: idx <= i < slots.Length ==> slots[i] == old(slots[i])
      {
        if slots[idx].handle == handle {
          slots[idx] := slots[idx].(val2 := 1);
        }
      }
    }

    /** updateVolume: send the channel's pan rate and its gain to the mixer. */
    method UpdateVolume(channel: int, panRate: nat)
      requires Valid() && 0 <= channel < CHANNELS_COUNT
      modifies this
      ensures knobs == old(knobs)
      ensures log == old(log) + VolumeCommands(channel, panRate, channelsVolume[channel], channelsMode[channel], knobs)
    {
      var volume := ChannelGain(channelsVolume[channel], channelsMode[channel], knobs);
      log := log + [MixerCmd.SetPanRate(channel, false, panRate), MixerCmd.SetVolume(channel, volume)];
    }

    /** updateVolumes: recompute every tracked channel with a 250 ms ramp. */
    method UpdateVolumes()
      requires Valid()
      modifies this
      ensures knobs == old(knobs)
      ensures log == old(log) + RecomputeAll(channelsVolume[..], channelsMode[..], knobs, RECOMPUTE_PAN_RATE, CHANNELS_COUNT)
    {
      for idx := 0 to CHANNELS_COUNT
        invariant knobs == old(knobs)
        invariant log == old(log) + RecomputeAll(channelsVolume[..], channelsMode[..], knobs, RECOMPUTE_PAN_RATE, idx)
      {
        UpdateVolume(idx, RECOMPUTE_PAN_RATE);
      }
    }

    /**
     * setVolume: on the first slot holding the handle, store the volume for
     * its channel, recompute that channel with a ramp of seconds * 1000, and
     * extend or clear the slot's fade deadline.  An unknown handle changes
     * nothing.
     */
    method SetVolume(handle: nat, volume: nat, seconds: nat, now: nat)
      requires Valid()
      requires var k := FirstWithHandle(slots[..], handle); k.Some? ==> slots[k.value].channel < CHANNELS_COUNT
      modifies this, slots, channelsVolume
      ensures Valid()
      ensures knobs == old(knobs)
      ensures var k := FirstWithHandle(old(slots[..]), handle);
              k.None? ==> slots[..] == old(slots[..]) && channelsVolume[..] == old(channelsVolume[..]) && log == old(log)
      ensures var k := FirstWithHandle(old(slots[..]), handle);
              k.Some? ==>
                var slot := old(slots[k.value]);
                && slots[..] == old(slots[..])[k.value := slot.(ticks := FadeDeadline(slot.ticks, volume, seconds, now))]
                && channelsVolume[..] == old(channelsVolume[..])[slot.channel := volume]
                && log == old(log) + VolumeCommands(slot.channel, Wrap32(seconds * 1000), volume,
                                                    channelsMode[slot.channel], knobs)
    {
      for idx := 0 to slots.Length
        invariant forall j :: 0 <= j < idx ==> slots[j].handle != handle
        invariant slots[..] == old(slots[..]) && channelsVolume[..] == old(channelsVolume[..])
        invariant log == old(log) && knobs == old(knobs)
      {
        var slot := slots[idx];
        if slot.handle == handle {
          channelsVolume[slot.channel] := volume;
          UpdateVolume(slot.channel, Wrap32(seconds * 1000));
          if volume != 0 {
            var ticks := Wrap32(now + Wrap32(seconds * 1000));
            if slot.ticks == 0 || ticks >= slot.ticks {
              slots[idx] := slot.(ticks := ticks);
            }
          } else {
            slots[idx] := slot.(ticks := 0);
          }
          return;
        }
      }
    }

    /** setVectorPosition: a use-once pan rate and cartesian position for the first matching slot's channel. */
    method SetVectorPosition(handle: nat, x: real, y: real, z: real, panRate: nat)
      requires Valid()
      modifies this
      ensures knobs == old(knobs)
      ensures var k := FirstWithHandle(slots[..], handle);
              log == old(log) + if k.None? then [] else
                [MixerCmd.SetPanRate(slots[k.value].channel, true, panRate),
                 MixerCmd.SetSourcePosition(slots[k.value].channel, Vector(x, y, z))]
    {
      for idx := 0 to slots.Length
        invariant forall j :: 0 <= j < idx ==> slots[j].handle != handle
        invariant log == old(log) && knobs == old(knobs)
      {
        var slot := slots[idx];
        if slot.handle == handle {
          log := log + [MixerCmd.SetPanRate(slot.channel, true, panRate)];
          log := log + [MixerCmd.SetSourcePosition(slot.channel, Vector(x, y, z))];
          return;
        }
      }
    }

    /**
     * setPolarPosition: a use-once pan rate and polar position for the first
     * matching slot's channel; the mixer takes azimuth first, then range.
     */
    method SetPolarPosition(handle: nat, range: real, azimuth: real, elevation: real, panRate: nat)
      requires Valid()
      modifies this
      ensures knobs == old(knobs)
      ensures var k := FirstWithHandle(slots[..], handle);
              log == old(log) + if k.None? then [] else
                [MixerCmd.SetPanRate(slots[k.value].channel, true, panRate),
                 MixerCmd.SetPolarPosition(slots[k.value].channel, Polar(azimuth, range, elevation))]
    {
      for idx := 0 to slots.Length
        invariant forall j :: 0 <= j < idx ==> slots[j].handle != handle
        invariant log == old(log) && knobs == old(knobs)
      {
        var slot := slots[idx];
        if slot.handle == handle {
          log := log + [MixerCmd.SetPanRate(slot.channel, true, panRate)];
          log := log + [MixerCmd.SetPolarPosition(slot.channel, Polar(azimuth, range, elevation))];
          return;
        }
      }
    }

    /** isActive(handle): whether some slot holds the handle. */
    method IsActive(handle: nat) returns (active: bool)
      requires Valid()
      ensures active <==> exists i :: 0 <= i < slots.Length && slots[i].handle == handle
      ensures active <==> FirstWithHandle(slots[..], handle).Some?
    {
      for idx := 0 to slots.Length
        invariant forall j :: 0 <= j < idx ==> slots[j].handle != handle
      {
        if slots[idx].handle == handle {
          return true;
        }
      }
      return false;
    }

    /** isActive(waveFile): whether the registry holds the wave. */
    method IsActiveWave(wave: WaveId) returns (active: bool)
      ensures active <==> Holds(registry.items, wave)
    {
      active := registry.Contains(wave);
    }

    /** getLatency: the fixed latency the mixer was opened with. */
    method GetLatency() returns (ms: nat)
      ensures ms == LATENCY
    {
      ms := LATENCY;
    }

    method SetMusicPercent(percent: nat)
      requires Valid()
      modifies this
      ensures knobs == old(knobs).(music := percent)
      ensures log == old(log) + RecomputeAll(channelsVolume[..], channelsMode[..], knobs, RECOMPUTE_PAN_RATE, CHANNELS_COUNT)
    {
      knobs := knobs.(music := percent);
      UpdateVolumes();
    }

    method SetSpeechPercent(percent: nat)
      requires Valid()
      modifies this
      ensures knobs == old(knobs).(speech := percent)
      ensures log == old(log) + RecomputeAll(channelsVolume[..], channelsMode[..], knobs, RECOMPUTE_PAN_RATE, CHANNELS_COUNT)
    {
      knobs := knobs.(speech := percent);
      UpdateVolumes();
    }

    method SetMasterPercent(percent: nat)
      requires Valid()
      modifies this
      ensures knobs == old(knobs).(master := percent)
      ensures log == old(log) + RecomputeAll(channelsVolume[..], channelsMode[..], knobs, RECOMPUTE_PAN_RATE, CHANNELS_COUNT)
    {
      knobs := knobs.(master := percent);
      UpdateVolumes();
    }

    /** setParrotPercent only stores the knob; no channel is recomputed. */
    method SetParrotPercent(percent: nat)
      modifies this
      ensures knobs == old(knobs).(parrot := percent)
      ensures log == old(log)
    {
      knobs := knobs.(parrot := percent);
    }

    /**
     * flushChannels: for each channel of the group, in ascending order, flush
     * the mixer channel and then the first registry record on it.  A code
     * outside the table does nothing.
     */
    method FlushChannels(code: int)
      modifies this, registry
      ensures knobs == old(knobs)
      ensures GroupRange(code).None? ==>
                log == old(log) && registry.items == old(registry.items) && registry.endCalls == old(registry.endCalls)
      ensures GroupRange(code).Some? ==>
                var g := GroupRange(code).value;
                var r := FlushRange(old(registry.items), g.start, g.end);
                && log == old(log) + FlushCommands(g.start, g.end)
                && registry.items == r.remaining
                && registry.endCalls == old(registry.endCalls) + r.fired
    {
      var group := GroupRange(code);
      if group.None? {
        return;
      }
      var start, end := group.value.start, group.value.end;
      ghost var items0, calls0 := registry.items, registry.endCalls;
      var channel := start;
      while channel < end
        invariant start <= channel <= end
        invariant knobs == old(knobs)
        invariant log == old(log) + FlushCommands(start, channel)
        invariant registry.items == FlushRange(items0, start, channel).remaining
        invariant registry.endCalls == calls0 + FlushRange(items0, start, channel).fired
      {
        ghost var before := FlushRange(items0, start, channel);
        log := log + [MixerCmd.FlushChannel(channel)];
        registry.FlushChannel(channel);
        assert registry.endCalls == calls0 + (before.fired + FlushOne(before.remaining, AnyWave(channel)).fired);
        channel := channel + 1;
      }
    }

    /**
     * stopAllChannels: flush every mixer channel, flush the registry on
     * channels 0 .. 15, then flush group 10 (channels 10 .. 47).
     */
    method StopAllChannels()
      modifies this, registry
      ensures knobs == old(knobs)
      ensures var first := FlushRange(old(registry.items), 0, CHANNELS_COUNT);
              var second := FlushRange(first.remaining, 10, SLOT_COUNT);
              && registry.items == second.remaining
              && registry.endCalls == old(registry.endCalls) + first.fired + second.fired
              && log == old(log) + [MixerCmd.FlushAllChannels] + FlushCommands(10, SLOT_COUNT)
    {
      log := log + [MixerCmd.FlushAllChannels];
      for idx := 0 to CHANNELS_COUNT
        invariant knobs == old(knobs)
        invariant log == old(log) + [MixerCmd.FlushAllChannels]
        invariant registry.items == FlushRange(old(registry.items), 0, idx).remaining
        invariant registry.endCalls == old(registry.endCalls) + FlushRange(old(registry.items), 0, idx).fired
      {
        registry.FlushChannel(idx);
      }
      FlushChannels(10);
    }
  }
}
