# Titanic sound manager (QSoundManager) in Dafny

This project models the sound manager of ScummVM's Titanic engine
(`engines/titanic/sound/sound_manager.cpp`) and proves properties of the model.
The model has four parts:

- **The sound registry** (`QSoundManagerSounds`, module `Registry`, file
  `registry.dfy`). This is the ordered list of playing sounds. Each record
  holds a wave, a channel, an optional end callback and a talker. `add`
  appends a record. Each of the two `flushChannel` overloads removes only the
  first matching record, after calling that record's end callback. The
  two-argument overload matches only records whose wave is loaded. `contains`
  tests whether any record plays a given wave. End callbacks are recorded as
  a ghost trace, `endCalls`.
- **The volume model** (module `Volume`, file `volume.dfy`). This is the gain
  arithmetic of `updateVolume`:
  - the raw gain is the stored volume × 327;
  - then comes a factor chosen by the channel's mode: the speech knob for
    modes 0–2, a fixed 24525 % for modes 3–5, the master knob for modes 6–9,
    and no factor for any other mode;
  - last comes the music knob.
- **The manager** (`QSoundManager`, module `SoundManager`, file
  `manager.dfy`). This is a class with:
  - the 48-entry slot table, an `array<Slot>`;
  - the 16 channel volumes and 16 channel modes, as arrays;
  - the four percent knobs;
  - the registry;
  - a log of the commands sent to the QMixer driver (module `Mixer`, file
    `mixer.dfy`).

  Slot lookups by handle do nothing when no slot holds the handle. These are
  `setVolume` (with its extend-only fade deadline), `proc9`, `isActive` and
  the two position setters. Only `flushChannels` and `stopAllChannels` flush
  the registry; both also send mixer flushes. `updateVolumes` is a loop that
  sends a pan rate and a volume command for each of the 16 channels. The
  music, speech and master percent setters store their knob and then call
  `updateVolumes`; the parrot setter only stores its knob.
- **Shared helpers** (module `Common`, file `common.dfy`). These are the
  `Option` type and `Wrap32`, which models the source's 32-bit `uint`
  wrap-around.

Pure logic is written as functions. This covers the gain, the fade deadline,
the group table, first-match removal and range flushes. Each of these has
lemmas about it. The source's loops are methods with loop invariants, and
each method's `ensures` ties the new state to those functions.

There is no clock. The current tick count is the parameter `now` of
`SetVolume`. Whether a wave reports itself loaded is the parameter `loaded`
(a set of waves) of the loaded-only flush.

Behaviour of the source worth knowing:

- `stopAllChannels` flushes the mixer and the registry. It does not release
  any slot.
- Registry channels 10–15 are flushed twice by `stopAllChannels`: once by its
  own loop over channels 0–15, then again by `flushChannels(10)`.
- The model assumes that a new slot is all zeroes (the `Slot` record is
  declared in `sound_manager.h`, which is not part of this model). Under that
  assumption every slot starts out holding handle 0, so `isActive(0)` is true
  on a new manager.
- The fade deadline is a `uint`, so after the tick counter wraps around, a
  new deadline can compare lower than an older one and is then not stored.
- `setVolume` stores any `uint` volume. It does not limit the volume to
  0–100.

## Model

| member | source | states |
|---|---|---|
| Registry.QSoundManagerSounds.constructor | engines/titanic/sound/sound_manager.cpp:82-83 | a new registry is empty and has made no callbacks |
| Registry.QSoundManagerSounds.Add | engines/titanic/sound/sound_manager.cpp:37-39 | the new record goes at the end of the list; nothing else changes and no callback is made |
| Registry.QSoundManagerSounds.FlushChannel | engines/titanic/sound/sound_manager.cpp:41-53 | the list afterwards is FlushOne of the old list on that channel, and the callback trace grows by exactly the callback FlushOne fires |
| Registry.QSoundManagerSounds.FlushLoadedChannel | engines/titanic/sound/sound_manager.cpp:55-67 | the same as FlushChannel, but only records whose wave is loaded can match; the first argument is ignored |
| Registry.QSoundManagerSounds.FlushFirst | engines/titanic/sound/sound_manager.cpp:42-52 | the scan both overloads share stops at the first accepted record, fires its callback and removes it, as FlushOne describes |
| Registry.QSoundManagerSounds.Contains | engines/titanic/sound/sound_manager.cpp:69-77 | true exactly when some record plays the wave |
| Registry.FirstMatch | engines/titanic/sound/sound_manager.cpp:42-44 | returns the index of an accepted record with no accepted record before it; returns none exactly when no record is accepted |
| Registry.FlushOneSpec | engines/titanic/sound/sound_manager.cpp:41-67 | with no match, the list is unchanged and nothing fires; otherwise the first match, and only it, is removed, the others keep their order, and its callback fires |
| Registry.FlushOneFires | engines/titanic/sound/sound_manager.cpp:44-50 | a flush shortens the list by one exactly when a record matches, and fires that record's callback and no other |
| Registry.FlushOneCount | engines/titanic/sound/sound_manager.cpp:41-53 | a flush of channel ch lowers the number of records on ch by one when there is one, and leaves every other channel's count unchanged |
| Registry.FlushRangeCount | engines/titanic/sound/sound_manager.cpp:255-258 | flushing channels [lo, hi) in turn removes one record from each of those channels that has one, and none from other channels |
| Registry.FlushRangeFiredBound | engines/titanic/sound/sound_manager.cpp:255-258 | a range flush fires at most one callback per channel, and records removed plus callbacks fired never exceed the records there were |
| Registry.LoadedFlushIsPlain | engines/titanic/sound/sound_manager.cpp:55-67 | when every wave is loaded, the loaded-only flush is exactly the plain flush |
| Registry.LoadedFlushKeepsLoading | engines/titanic/sound/sound_manager.cpp:58 | a record whose wave is still loading is never the one removed, and it stays in the list |
| Registry.AddHolds | engines/titanic/sound/sound_manager.cpp:37-39 | after add, the list holds a wave exactly when it held it before or the new record plays it |
| Registry.FlushHolds | engines/titanic/sound/sound_manager.cpp:41-77 | a flush never makes the list hold a wave it did not hold before |
| Volume.DefaultGainExample | engines/titanic/sound/sound_manager.cpp:261-288 | with all knobs at 75 and volume 100, modes 6 and 0 both give the mixer 18393 |
| Volume.NoWrapUpTo100 | engines/titanic/sound/sound_manager.cpp:262-273 | for a stored volume up to 100, neither `uint` product (× 327, then × 24525) wraps around |
| Volume.GainByTier | engines/titanic/sound/sound_manager.cpp:262-285 | for a volume up to 100: modes 0–2 give ⌊music·⌊speech·327v/100⌋/100⌋, modes 3–5 ⌊music·⌊24525·327v/100⌋/100⌋, modes 6–9 ⌊music·⌊master·327v/100⌋/100⌋, and other modes ⌊music·327v/100⌋ |
| Volume.MusicMonotone | engines/titanic/sound/sound_manager.cpp:285 | raising the music knob never lowers any channel's gain |
| Volume.SpeechMonotone | engines/titanic/sound/sound_manager.cpp:265-268 | raising the speech knob never lowers the gain of a mode 0–2 channel |
| Volume.MasterMonotone | engines/titanic/sound/sound_manager.cpp:275-279 | raising the master knob never lowers the gain of a mode 6–9 channel |
| Volume.VolumeMonotone | engines/titanic/sound/sound_manager.cpp:262-285 | for volumes up to 100, a higher stored volume never gives a lower gain, in any mode |
| Volume.KnobIndependence | engines/titanic/sound/sound_manager.cpp:264-285 | the parrot knob never affects any gain; the speech knob affects only modes 0–2 and the master knob only modes 6–9 |
| Volume.GainBounds | engines/titanic/sound/sound_manager.cpp:262-285 | with knobs at most 100, outside modes 3–5 a channel's gain never exceeds 327 × volume, for any stored volume, because the `uint` product never grows when it wraps |
| SoundManager.FirstWithHandle | engines/titanic/sound/sound_manager.cpp:149-151 | returns the index of a slot holding the handle with none before it; returns none exactly when no slot holds it |
| SoundManager.FadeDeadline | engines/titanic/sound/sound_manager.cpp:155-161 | volume 0 clears the deadline; any other volume gives the later of the old deadline and the new fade end (extend-only) |
| SoundManager.FadeDeadlineNoWrap | engines/titanic/sound/sound_manager.cpp:155-161 | the deadline stays within a `uint`; while the ticks do not wrap it is at least now + 1000·seconds, and exactly that when no fade was pending |
| SoundManager.GroupRange | engines/titanic/sound/sound_manager.cpp:240-253 | only codes 0, 3, 6 and 10 select a range; each range starts at its code and ends no later than 48 |
| SoundManager.GroupsPartition | engines/titanic/sound/sound_manager.cpp:240-253 | every channel in [0, 48) lies in exactly one of the four group ranges |
| SoundManager.FlushCommandsAt | engines/titanic/sound/sound_manager.cpp:255-256 | a group flush sends one mixer flush per channel of the range, in ascending channel order |
| SoundManager.RecomputeAllAt | engines/titanic/sound/sound_manager.cpp:290-293 | recomputing n channels sends, channel by channel in ascending order, the pan rate and then that channel's own gain |
| SoundManager.StopAllCount | engines/titanic/sound/sound_manager.cpp:140-146 | after stopAllChannels, channels 10–15 have lost up to two records, the other channels below 48 up to one, and channels outside [0, 48) none |
| SoundManager.QSoundManager.constructor | engines/titanic/sound/sound_manager.cpp:82-91 | all knobs start at 75; there are 48 empty slots; the 16 volumes and 16 modes are zero; the registry is empty; the mixer is initialised (22050 Hz, 16 channels, latency 100), activated and opened |
| SoundManager.QSoundManager.LoadSpeech | engines/titanic/sound/sound_manager.cpp:110-113 | the stub loads nothing |
| SoundManager.QSoundManager.Proc5 | engines/titanic/sound/sound_manager.cpp:115-118 | the stub returns 0 |
| SoundManager.QSoundManager.PlaySound | engines/titanic/sound/sound_manager.cpp:120-123 | the stub returns handle 0 and changes no state |
| SoundManager.QSoundManager.Proc9 | engines/titanic/sound/sound_manager.cpp:133-138 | every slot holding the handle gets `_val2 = 1`; every other slot is unchanged, so every deadline stays within a `uint` |
| SoundManager.QSoundManager.StopAllChannels | engines/titanic/sound/sound_manager.cpp:140-146 | one global mixer flush; the registry flushed on channels 0–15 and then on 10–47, with exactly the callbacks those flushes fire; the mixer then flushes channels 10–47 |
| SoundManager.QSoundManager.SetVolume | engines/titanic/sound/sound_manager.cpp:148-165 | with an unknown handle nothing changes; otherwise only the first matching slot changes: its channel's volume is stored, that channel is recomputed with pan rate seconds·1000, and its deadline becomes FadeDeadline; every deadline stays within a `uint` |
| SoundManager.QSoundManager.SetVectorPosition | engines/titanic/sound/sound_manager.cpp:167-176 | only the first matching slot's channel gets a use-once pan rate and then a use-once cartesian position; an unknown handle sends nothing |
| SoundManager.QSoundManager.SetPolarPosition | engines/titanic/sound/sound_manager.cpp:178-188 | the same as SetVectorPosition, but with a polar position, which is handed over with azimuth first and range second |
| SoundManager.QSoundManager.IsActive | engines/titanic/sound/sound_manager.cpp:190-197 | true exactly when some slot holds the handle |
| SoundManager.QSoundManager.IsActiveWave | engines/titanic/sound/sound_manager.cpp:199-201 | gives the same answer as the registry's contains |
| SoundManager.QSoundManager.GetLatency | engines/titanic/sound/sound_manager.cpp:203-205 | returns 100, the latency the mixer was opened with |
| SoundManager.QSoundManager.SetMusicPercent | engines/titanic/sound/sound_manager.cpp:207-210 | stores the music knob, then recomputes all 16 channels with pan rate 250 |
| SoundManager.QSoundManager.SetSpeechPercent | engines/titanic/sound/sound_manager.cpp:212-215 | stores the speech knob, then recomputes all 16 channels with pan rate 250 |
| SoundManager.QSoundManager.SetMasterPercent | engines/titanic/sound/sound_manager.cpp:217-220 | stores the master knob, then recomputes all 16 channels with pan rate 250 |
| SoundManager.QSoundManager.SetParrotPercent | engines/titanic/sound/sound_manager.cpp:222-224 | stores only the parrot knob; no command is sent |
| SoundManager.QSoundManager.FlushChannels | engines/titanic/sound/sound_manager.cpp:238-259 | a code outside the table changes nothing; otherwise each channel of its range, in ascending order, gets a mixer flush and a registry FlushOne, with exactly the callbacks those fire |
| SoundManager.QSoundManager.UpdateVolume | engines/titanic/sound/sound_manager.cpp:261-288 | sends the channel's pan rate (flags 0), then ChannelGain of its stored volume, its mode and the knobs |
| SoundManager.QSoundManager.UpdateVolumes | engines/titanic/sound/sound_manager.cpp:290-293 | sends the commands of UpdateVolume for channels 0 to 15 in turn, each with pan rate 250 |

## Left out

- The QMixer driver calls (`qsWaveMixInitEx`, `Activate`, `OpenChannel`, `FlushChannel`, `SetVolume`, `SetPanRate`, `SetSourcePosition`, `SetPolarPosition`) are foreign code. They are modelled only as entries in the command log, and what the driver does with them is not modelled.
- The destructor's `qsWaveMixCloseSession` (lines 93-96) is not modelled, because the model has no object destruction.
- `soundFreed` (lines 234-236) is not modelled. It is an asynchronous completion callback from the audio context that only forwards to the mixer. Concurrency and locking are out of scope.
- `loadSound` (lines 98-108) is not modelled, because it is file I/O and wave decoding.
- The stubs `stopSound`, `proc8`, `proc29` and `proc30` (lines 125-131 and 226-232) only log a warning. They are not modelled, because they have no effect. `PlaySound` leaves out its `CProximity` argument, which the stub never reads.
- End callbacks are recorded as invocations in a ghost trace. What a callback does when it runs is not modelled. That includes a callback that changes the registry while a flush is in progress.
- The percent knobs are `double` in the source and natural numbers here. For whole-number knobs in 0–100, the source's double arithmetic gives the same result as the model's exact floor: the products stay below 2^53, and the rounding error is too small to cross an integer. Fractional knobs are not modelled.
- Volume.ChannelGain: does not reduce results to 32 bits when the final value exceeds a `uint`. That can only happen with a knob above 100. In the source, that double-to-`uint` conversion is undefined.
- The position arguments (x, y, z, range, azimuth, elevation) are passed through as exact reals. Double rounding is not modelled.
- The `Slot` record and the element types of `_channelsVolume` and `_channelsMode` are declared in `sound_manager.h`, which is not part of this model. The model assumes that a new slot is all zeroes, that volumes are unsigned, and that modes are signed integers.
- SoundManager.QSoundManager.SetVolume: requires the matched slot's channel to be below 16, and UpdateVolume requires its channel to be in 0–15. The source would index its 16-entry arrays out of bounds otherwise, and the model does not model that access.
- No operation in this core assigns handles or channels to slots. `playSound` is a stub, so slot allocation is not modelled. The slot methods are proved for any contents of the slot table.
- The base-class fields `_field14`, `_field18` and `_field1C` are set by the constructors but never read by this core, so they are not modelled.
