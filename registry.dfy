/**
 * QSoundManagerSounds: the ordered list of sounds currently playing, each
 * bound to a mixer channel, with an optional end-of-talk callback.
 * Flushing a channel removes only the FIRST record (in list order) that
 * matches, after invoking that record's callback.
 */
module Registry {
  import opened Common

  /** Identity of a CWaveFile object (the source compares pointers). */
  type WaveId = nat
  /** Identity of the TTtalker passed back to an end callback. */
  type TalkerId = nat
  /** Identity of a CEndTalkerFn callback. */
  type CallbackId = nat

  /** One QSoundManagerSound record. */
  datatype Sound = Sound(wave: WaveId, channel: int, endFn: Option<CallbackId>, talker: TalkerId)

  /** One call `endFn(talker)` made while flushing. */
  datatype Invocation = Invocation(endFn: CallbackId, talker: TalkerId)

  /**
   * Which records a flush may remove: any record on the channel, or (the
   * two-argument overload) only those whose wave reports itself loaded;
   * `loaded` is the set of waves whose isLoaded() holds at the call.
   */
  datatype Filter = AnyWave(channel: int) | LoadedWave(channel: int, loaded: set<WaveId>)
  {
    predicate Accepts(r: Sound) {
      match this
      case AnyWave(ch) => r.channel == ch
      case LoadedWave(ch, loaded) => r.wave in loaded && r.channel == ch
    }
  }

  /** The callback invocations removing record `r` causes: one, or none when it has no callback. */
  function EndCall(r: Sound): seq<Invocation> {
    match r.endFn
    case None => []
    case Some(fn) => [Invocation(fn, r.talker)]
  }

  /** The index of the first record `f` accepts, if any. */
  function FirstMatch(s: seq<Sound>, f: Filter): (r: Option<nat>)
    ensures r.Some? ==> r.value < |s| && f.Accepts(s[r.value])
    ensures r.Some? ==> forall j :: 0 <= j < r.value ==> !f.Accepts(s[j])
    ensures r.None? <==> forall j :: 0 <= j < |s| ==> !f.Accepts(s[j])
  {
    if |s| == 0 then None
    else if f.Accepts(s[0]) then Some(0)
    else match FirstMatch(s[1..], f)
      case None => None
      case Some(i) => Some(i + 1)
  }

  /** What a flush leaves in the list, and the callbacks it made, in order. */
  datatype Flushed = Flushed(remaining: seq<Sound>, fired: seq<Invocation>)

  /** One flushChannel call: remove the first accepted record and fire its callback. */
  function FlushOne(s: seq<Sound>, f: Filter): (r: Flushed) {
    match FirstMatch(s, f)
    case None => Flushed(s, [])
    case Some(i) => Flushed(s[..i] + s[i + 1..], EndCall(s[i]))
  }

  /**
   * First-match removal: when no record is accepted, nothing changes and
   * nothing fires; otherwise the first accepted record, and only it, is
   * removed, the others keep their order, and its callback fires once.
   */
  lemma FlushOneSpec(s: seq<Sound>, f: Filter, i: nat)
    ensures (forall j :: 0 <= j < |s| ==> !f.Accepts(s[j])) ==> FlushOne(s, f) == Flushed(s, [])
    ensures i < |s| && f.Accepts(s[i]) && (forall j :: 0 <= j < i ==> !f.Accepts(s[j])) ==>
              FlushOne(s, f) == Flushed(s[..i] + s[i + 1..], EndCall(s[i]))
  {
  }

  /** Flushing channels lo, lo+1, ..., hi-1 in ascending order, one FlushOne each. */
  function FlushRange(s: seq<Sound>, lo: int, hi: int): (r: Flushed)
    decreases hi - lo
  {
    if hi <= lo then Flushed(s, [])
    else
      var prev := FlushRange(s, lo, hi - 1);
      var last := FlushOne(prev.remaining, AnyWave(hi - 1));
      Flushed(last.remaining, prev.fired + last.fired)
  }

  /** Whether some record plays wave `w` (the `contains` test). */
  predicate Holds(s: seq<Sound>, w: WaveId) {
    exists i :: 0 <= i < |s| && s[i].wave == w
  }

  /** The number of records bound to channel `c`. */
  function CountOn(s: seq<Sound>, c: int): (n: nat) {
    if |s| == 0 then 0 else (if s[0].channel == c then 1 else 0) + CountOn(s[1..], c)
  }

  /** One fewer, but never below zero. */
  function Drop1(n: nat): (m: nat) {
    if n == 0 then 0 else n - 1
  }

  lemma {:induction false} CountOnAppend(a: seq<Sound>, b: seq<Sound>, c: int)
    ensures CountOn(a + b, c) == CountOn(a, c) + CountOn(b, c)
  {
    if |a| == 0 {
      assert a + b == b;
    } else {
      assert (a + b)[1..] == a[1..] + b;
      CountOnAppend(a[1..], b, c);
    }
  }

  lemma {:induction false} CountOnSplit(s: seq<Sound>, i: nat, c: int)
    requires i < |s|
    ensures CountOn(s, c) == CountOn(s[..i] + s[i + 1..], c) + (if s[i].channel == c then 1 else 0)
  {
    assert s == s[..i] + ([s[i]] + s[i + 1..]);
    CountOnAppend(s[..i], [s[i]] + s[i + 1..], c);
    CountOnAppend(s[..i], s[i + 1..], c);
    assert ([s[i]] + s[i + 1..])[1..] == s[i + 1..];
  }

  lemma {:induction false} CountOnZero(s: seq<Sound>, c: int)
    ensures CountOn(s, c) == 0 <==> forall j :: 0 <= j < |s| ==> s[j].channel != c
  {
    if |s| > 0 {
      CountOnZero(s[1..], c);
      assert forall j :: 1 <= j < |s| ==> s[j] == s[1..][j - 1];
    }
  }

  /**
   * Flushing channel `ch` lowers the number of records on `ch` by one when
   * there is one, and leaves every other channel's records as many as before.
   */
  lemma FlushOneCount(s: seq<Sound>, ch: int, c: int)
    ensures CountOn(FlushOne(s, AnyWave(ch)).remaining, c)
         == if c == ch then Drop1(CountOn(s, c)) else CountOn(s, c)
  {
    CountOnZero(s, ch);
    match FirstMatch(s, AnyWave(ch))
    case None =>
    case Some(i) =>
      CountOnSplit(s, i, c);
  }

  /**
   * Flushing the channels [lo, hi) removes exactly one record from each of
   * those channels that has any, and none from other channels.
   */
  lemma {:induction false} FlushRangeCount(s: seq<Sound>, lo: int, hi: int, c: int)
    ensures CountOn(FlushRange(s, lo, hi).remaining, c)
         == if lo <= c < hi then Drop1(CountOn(s, c)) else CountOn(s, c)
    decreases hi - lo
  {
    if lo < hi {
      FlushRangeCount(s, lo, hi - 1, c);
      FlushOneCount(FlushRange(s, lo, hi - 1).remaining, hi - 1, c);
    }
  }

  /** Each step of a range flush fires at most one callback. */
  lemma {:induction false} FlushRangeFiredBound(s: seq<Sound>, lo: int, hi: int)
    ensures lo <= hi ==> |FlushRange(s, lo, hi).fired| <= hi - lo
    ensures |FlushRange(s, lo, hi).remaining| + |FlushRange(s, lo, hi).fired| <= |s|
    decreases hi - lo
  {
    if lo < hi {
      FlushRangeFiredBound(s, lo, hi - 1);
    }
  }

  /** A flush that removes a record fires exactly that record's callback, once. */
  lemma FlushOneFires(s: seq<Sound>, f: Filter)
    ensures |FlushOne(s, f).remaining| == |s| - (if FirstMatch(s, f).Some? then 1 else 0)
    ensures FirstMatch(s, f).Some? ==> FlushOne(s, f).fired == EndCall(s[FirstMatch(s, f).value])
    ensures FirstMatch(s, f).None? ==> FlushOne(s, f).fired == []
  {
  }

  /** When every wave is loaded, the loaded-only flush is the plain one. */
  lemma {:induction false} LoadedFlushIsPlain(s: seq<Sound>, ch: int, loaded: set<WaveId>)
    requires forall j :: 0 <= j < |s| ==> s[j].wave in loaded
    ensures FlushOne(s, LoadedWave(ch, loaded)) == FlushOne(s, AnyWave(ch))
  {
  }

  /** A loaded-only flush never removes a record whose wave is still loading. */
  lemma {:induction false} LoadedFlushKeepsLoading(s: seq<Sound>, ch: int, loaded: set<WaveId>, i: nat)
    requires i < |s| && s[i].wave !in loaded
    ensures FirstMatch(s, LoadedWave(ch, loaded)) != Some(i)
    ensures FirstMatch(s, LoadedWave(ch, loaded)).Some? ==>
              var k := FirstMatch(s, LoadedWave(ch, loaded)).value;
              FlushOne(s, LoadedWave(ch, loaded)).remaining[if i < k then i else i - 1] == s[i]
  {
  }

  /** After add, the list holds the new wave, and every wave it held before. */
  lemma AddHolds(s: seq<Sound>, r: Sound, w: WaveId)
    ensures Holds(s + [r], w) <==> Holds(s, w) || r.wave == w
  {
    if Holds(s, w) {
      var i :| 0 <= i < |s| && s[i].wave == w;
      assert (s + [r])[i] == s[i];
    }
    if r.wave == w {
      assert (s + [r])[|s|] == r;
    }
  }

  /** A flush never makes the list hold a wave it did not hold before. */
  lemma FlushHolds(s: seq<Sound>, f: Filter, w: WaveId)
    ensures Holds(FlushOne(s, f).remaining, w) ==> Holds(s, w)
  {
  }

  class QSoundManagerSounds {
    /** The records, in the order they were added. */
    var items: seq<Sound>
    /** Every end callback made so far, in order. */
    ghost var endCalls: seq<Invocation>

    constructor ()
      ensures items == [] && endCalls == []
    {
      items := [];
      endCalls := [];
    }

    /** add: append a new record for the wave at the end of the list. */
    method Add(wave: WaveId, channel: int, endFn: Option<CallbackId>, talker: TalkerId)
      modifies this
      ensures items == old(items) + [Sound(wave, channel, endFn, talker)]
      ensures endCalls == old(endCalls)
    {
      items := items + [Sound(wave, channel, endFn, talker)];
    }

    /** flushChannel(iChannel): remove the first record on the channel. */
    method FlushChannel(channel: int)
      modifies this
      ensures items == FlushOne(old(items), AnyWave(channel)).remaining
      ensures endCalls == old(endCalls) + FlushOne(old(items), AnyWave(channel)).fired
    {
      FlushFirst(AnyWave(channel));
    }

    /**
     * flushChannel(v1, iChannel): remove the first record on the channel
     * whose wave is loaded.  `v1` is accepted and ignored, as in the source.
     */
    method FlushLoadedChannel(v1: int, channel: int, loaded: set<WaveId>)
      modifies this
      ensures items == FlushOne(old(items), LoadedWave(channel, loaded)).remaining
      ensures endCalls == old(endCalls) + FlushOne(old(items), LoadedWave(channel, loaded)).fired
    {
      FlushFirst(LoadedWave(channel, loaded));
    }

    /** The scan both overloads share: stop at the first match. */
    method FlushFirst(f: Filter)
      modifies this
      ensures items == FlushOne(old(items), f).remaining
      ensures endCalls == old(endCalls) + FlushOne(old(items), f).fired
    {
      var i := 0;
      while i < |items|
        invariant 0 <= i <= |items|
        invariant items == old(items) && endCalls == old(endCalls)
        invariant forall j :: 0 <= j < i ==> !f.Accepts(items[j])
      {
        var item := items[i];
        if f.Accepts(item) {
          if item.endFn.Some? {
            endCalls := endCalls + [Invocation(item.endFn.value, item.talker)];
          }
          items := items[..i] + items[i + 1..];
          FlushOneSpec(old(items), f, i);
          return;
        }
        i := i + 1;
      }
      FlushOneSpec(old(items), f, 0);
    }

    /** contains: whether some record plays the wave. */
    method Contains(wave: WaveId) returns (found: bool)
      ensures found <==> Holds(items, wave)
    {
      var i := 0;
      while i < |items|
        invariant 0 <= i <= |items|
        invariant forall j :: 0 <= j < i ==> items[j].wave != wave
      {
        if items[i].wave == wave {
          return true;
        }
        i := i + 1;
      }
      return false;
    }
  }
}
