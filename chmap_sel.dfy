/** struct mp_chmap_sel and the operations of audio/chmap_sel.c, in the
    source's imperative form. Each method is proved to compute the matching
    function of module Selection on the selector's abstract criteria. */
module ChmapSel {
  import opened Wrappers
  import opened Chmap
  import opened Selection

  /** The largest int; the fallback scan's "nothing found yet" mark. */
  const IntMax: int := 0x7fff_ffff

  /** replace_speakers: try the entry's substitution in both directions on a
      copy of m; on success hand back the substituted copy, otherwise m
      itself. */
  method ReplaceSpeakers(m: Chmap, list0: Chmap, list1: Chmap) returns (ok: bool, res: Chmap)
    requires |list0| == |list1|
    ensures Replacement(m, list0, list1) == (if ok then Some(res) else None)
    ensures !ok ==> res == m
  {
    if !IsValid(m) {
      return false, m;
    }
    var dir := 0;
    while dir < 2
      invariant 0 <= dir <= 2
      invariant dir >= 1 ==> !(Touches(m, list1) && IsValid(Substituted(m, list1, list0)))
      invariant dir >= 2 ==> !(Touches(m, list0) && IsValid(Substituted(m, list0, list1)))
    {
      var from, to := if dir == 1 then list0 else list1, if dir == 1 then list1 else list0;
      var replaced := false;
      var t := m;
      var n := 0;
      while n < |t|
        invariant |t| == |m| && 0 <= n <= |t|
        invariant forall k :: 0 <= k < n ==> t[k] == SubstituteSpeaker(m[k], from, to)
        invariant forall k :: n <= k < |t| ==> t[k] == m[k]
        invariant replaced <==> exists k :: 0 <= k < n && m[k] in from
      {
        var i := 0;
        while i < |list0|
          invariant 0 <= i <= |list0|
          invariant t[n] == m[n]
          invariant forall j :: 0 <= j < i ==> from[j] != m[n]
        {
          if t[n] == from[i] {
            t := t[n := to[i]];
            replaced := true;
            break;
          }
          i := i + 1;
        }
        n := n + 1;
      }
      assert t == Substituted(m, from, to);
      if replaced && IsValid(t) {
        return true, t;
      }
      dir := dir + 1;
    }
    return false, m;
  }

  /** A channel-layout selector: what an audio sink accepts. */
  class Selector {
    /** Accept every valid layout. */
    var allowAny: bool
    /** Accept layouts that WAVEFORMATEXTENSIBLE order can express, in that
        order. */
    var allowWaveext: bool
    /** speakers[id]: layouts made only of whitelisted speakers are allowed. */
    const speakers: array<bool>
    /** The ids whose entry in speakers is set. */
    ghost var whitelist: set<int>
    /** Storage of the allowed maps: the inline buffer, or a larger copy once
        that is full and there is an allocation context. */
    var chmaps: array<Chmap>
    /** Number of allowed maps stored at the front of chmaps. */
    var numChmaps: nat
    /** Whether an allocation context (tmp) lets the map list grow. */
    const hasTmp: bool

    ghost predicate Valid()
      reads this, speakers, chmaps
    {
      && speakers.Length == SpeakerIdCount
      && (forall id :: id in whitelist <==> 0 <= id < speakers.Length && speakers[id])
      && InlineCapacity <= chmaps.Length
      && numChmaps <= chmaps.Length
      && (!hasTmp ==> numChmaps <= InlineCapacity)
      && AllValid(chmaps[..numChmaps])
    }

    /** The criteria this selector stands for. */
    ghost function Abs(): Criteria
      reads this, speakers, chmaps
      requires Valid()
    {
      Criteria(allowAny, allowWaveext, whitelist, chmaps[..numChmaps])
    }

    /** A zero-initialised selector: nothing is allowed yet. */
    constructor (hasTmp: bool)
      ensures Valid() && fresh(speakers) && fresh(chmaps)
      ensures Abs() == Criteria(false, false, {}, [])
      ensures this.hasTmp == hasTmp
    {
      allowAny, allowWaveext := false, false;
      speakers := new bool[SpeakerIdCount](_ => false);
      chmaps := new Chmap[InlineCapacity](_ => []);
      numChmaps := 0;
      this.hasTmp := hasTmp;
      whitelist := {};
    }

    /** mp_chmap_sel_add_any: allow every valid layout. */
    method AddAny()
      requires Valid()
      modifies this
      ensures Valid() && chmaps == old(chmaps)
      ensures Abs() == old(Abs()).(allowAny := true)
    {
      allowAny := true;
    }

    /** mp_chmap_sel_add_waveext: allow WAVEFORMATEXTENSIBLE layouts. */
    method AddWaveext()
      requires Valid()
      modifies this
      ensures Valid() && chmaps == old(chmaps)
      ensures Abs() == old(Abs()).(allowWaveext := true)
    {
      allowWaveext := true;
    }

    /** mp_chmap_sel_add_speaker: whitelist one speaker; an id out of range is
        a programming error of the caller. */
    method AddSpeaker(id: int)
      requires Valid()
      requires 0 <= id < SpeakerIdCount
      modifies this, speakers
      ensures Valid() && chmaps == old(chmaps)
      ensures speakers[id]
      ensures forall j :: 0 <= j < speakers.Length && j != id ==> speakers[j] == old(speakers[j])
      ensures Abs() == old(Abs()).(speakers := old(Abs().speakers) + {id})
    {
      speakers[id] := true;
      whitelist := whitelist + {id};
    }

    /** mp_chmap_sel_add_map: store a copy of a valid map after the ones
        already stored; drop invalid maps, and drop every map once the inline
        storage is full and there is no allocation context. */
    method AddMap(m: Chmap)
      requires Valid()
      modifies this, chmaps
      ensures Valid() && (chmaps == old(chmaps) || fresh(chmaps))
      ensures Abs() == old(Abs()).(chmaps := AddMapTo(old(Abs().chmaps), hasTmp, m))
      ensures old(numChmaps) < numChmaps ==> numChmaps == old(numChmaps) + 1 && chmaps[old(numChmaps)] == m
      ensures forall k :: 0 <= k < old(numChmaps) ==> chmaps[k] == old(chmaps[k])
    {
      if !IsValid(m) {
        return;
      }
      if numChmaps == InlineCapacity && !hasTmp {
        return;
      }
      if numChmaps == chmaps.Length {
        var grown := new Chmap[2 * chmaps.Length](_ => []);
        forall k | 0 <= k < numChmaps {
          grown[k] := chmaps[k];
        }
        chmaps := grown;
      }
      chmaps[numChmaps] := m;
      numChmaps := numChmaps + 1;
      assert chmaps[..numChmaps] == old(chmaps[..numChmaps]) + [m];
    }

    /** mp_chmap_sel_add_alsa_def: add the classic ALSA layouts. */
    method AddAlsaDef()
      requires Valid()
      modifies this, chmaps
      ensures Valid() && (chmaps == old(chmaps) || fresh(chmaps))
      ensures Abs() == old(Abs()).(chmaps := AddAllTo(old(Abs().chmaps), hasTmp, AlsaLayouts()))
    {
      var n := 0;
      while n < MaxChannels
        invariant 0 <= n <= MaxChannels
        invariant Valid() && (chmaps == old(chmaps) || fresh(chmaps))
        invariant Abs() == old(Abs()).(chmaps := AddAllTo(old(Abs().chmaps), hasTmp, AlsaLayouts()[..n]))
      {
        var t := FromChannelsAlsa(n);
        assert AlsaLayouts()[..n + 1][..n] == AlsaLayouts()[..n];
        if |t| > 0 {
          AddMap(t);
        }
        n := n + 1;
      }
      assert AlsaLayouts()[..MaxChannels] == AlsaLayouts();
    }

    /** mp_chmap_sel_add_waveext_def: add the default layouts in order. */
    method AddWaveextDef()
      requires Valid()
      modifies this, chmaps
      ensures Valid() && (chmaps == old(chmaps) || fresh(chmaps))
      ensures Abs() == old(Abs()).(chmaps := AddAllTo(old(Abs().chmaps), hasTmp, WaveextLayouts()))
    {
      var n := 1;
      while n < MaxChannels
        invariant 1 <= n <= MaxChannels
        invariant Valid() && (chmaps == old(chmaps) || fresh(chmaps))
        invariant Abs() == old(Abs()).(chmaps := AddAllTo(old(Abs().chmaps), hasTmp, WaveextLayouts()[..n - 1]))
      {
        assert WaveextLayouts()[..n][..n - 1] == WaveextLayouts()[..n - 1];
        AddMap(FromChannels(n));
        n := n + 1;
      }
      assert WaveextLayouts()[..MaxChannels - 1] == WaveextLayouts();
    }

    /** test_speakers: every speaker of the map is whitelisted. */
    method TestSpeakers(m: Chmap) returns (ok: bool)
      requires Valid()
      requires KnownSpeakers(m)
      ensures ok == SpeakersAllowed(Abs(), m)
    {
      var n := 0;
      while n < |m|
        invariant 0 <= n <= |m|
        invariant forall k :: 0 <= k < n ==> speakers[m[k]]
      {
        if !speakers[m[n]] {
          return false;
        }
        n := n + 1;
      }
      return true;
    }

    /** test_maps: the first stored map equal to m up to reordering
        replaces it; without one, m is left as it is. */
    method TestMaps(m: Chmap) returns (ok: bool, res: Chmap)
      requires Valid()
      ensures MatchStored(Abs().chmaps, m) == (if ok then Some(res) else None)
      ensures !ok ==> res == m
    {
      var n := 0;
      while n < numChmaps
        invariant 0 <= n <= numChmaps
        invariant forall k :: 0 <= k < n ==> !EqualsReordered(chmaps[k], m)
      {
        if EqualsReordered(chmaps[n], m) {
          assert FirstReordered(chmaps[..numChmaps], m, 0) == n;
          return true, chmaps[n];
        }
        n := n + 1;
      }
      return false, m;
    }

    /** test_waveext: with the waveext flag, m in WAVEFORMATEXTENSIBLE order
        if that order can express it; m is written only on success. */
    method TestWaveext(m: Chmap) returns (ok: bool, res: Chmap)
      requires Valid()
      ensures WaveextForm(Abs(), m) == (if ok then Some(res) else None)
      ensures !ok ==> res == m
    {
      if allowWaveext {
        var t := ReorderToWaveext(m);
        if IsWaveext(t) {
          return true, t;
        }
      }
      return false, m;
    }

    /** test_layout: reject invalid maps, then try any, waveext, the speaker
        whitelist and the stored maps, in that order. */
    method TestLayout(m: Chmap) returns (ok: bool, res: Chmap)
      requires Valid()
      ensures Accept(Abs(), m) == (if ok then Some(res) else None)
      ensures !ok ==> res == m
    {
      if !IsValid(m) {
        return false, m;
      }
      if allowAny {
        return true, m;
      }
      ok, res := TestWaveext(m);
      if ok {
        return;
      }
      ok := TestSpeakers(m);
      if ok {
        return true, m;
      }
      ok, res := TestMaps(m);
    }

    /** mp_chmap_sel_fallback: the closest stored upmix, else the closest
        stored downmix; on failure m is left as it is. */
    method Fallback(m: Chmap) returns (ok: bool, res: Chmap)
      requires Valid()
      ensures ClosestFallback(Abs().chmaps, m) == (if ok then Some(res) else None)
      ensures !ok ==> res == m
    {
      ghost var stored := chmaps[..numChmaps];
      var bestUpmixDiff, bestDownmixDiff := IntMax, IntMax;
      var bestUpmix: Chmap, bestDownmix: Chmap := [], [];
      var n := 0;
      while n < numChmaps
        invariant 0 <= n <= numChmaps
        invariant BestIndex(stored[..n], m, true).None? <==> bestUpmixDiff == IntMax
        invariant BestIndex(stored[..n], m, true).Some? ==>
                    var k := BestIndex(stored[..n], m, true).value;
                    bestUpmix == stored[k] && bestUpmixDiff == Cost(stored[k], m, true)
        invariant BestIndex(stored[..n], m, false).None? <==> bestDownmixDiff == IntMax
        invariant BestIndex(stored[..n], m, false).Some? ==>
                    var k := BestIndex(stored[..n], m, false).value;
                    bestDownmix == stored[k] && bestDownmixDiff == Cost(stored[k], m, false)
      {
        var e := chmaps[n];
        assert stored[..n + 1][..n] == stored[..n];
        assert e == stored[n] && IsValid(e);
        var diff := Diff(e, m);
        if Contains(e, m) && bestUpmixDiff > |diff| {
          bestUpmixDiff := |diff|;
          bestUpmix := e;
        }
        diff := Diff(m, e);
        if Contains(m, e) && bestDownmixDiff > |diff| {
          bestDownmixDiff := |diff|;
          bestDownmix := e;
        }
        n := n + 1;
      }
      assert stored[..numChmaps] == stored;
      if bestUpmixDiff < IntMax {
        return true, bestUpmix;
      }
      if bestDownmixDiff < IntMax {
        return true, bestDownmix;
      }
      return false, m;
    }

    /** The scan of get_def over the stored maps: the position of the first
        one with num channels, or the number of stored maps. */
    method FindWithCount(num: int) returns (k: nat)
      requires Valid()
      ensures k == FirstWithCount(Abs().chmaps, num, 0)
    {
      ghost var stored := chmaps[..numChmaps];
      k := 0;
      while k < numChmaps
        invariant 0 <= k <= numChmaps
        invariant forall j :: 0 <= j < k ==> |stored[j]| != num
      {
        if |chmaps[k]| == num {
          break;
        }
        k := k + 1;
      }
    }

    /** mp_chmap_sel_get_def: a layout with num channels, for sinks that only
        report a channel count; m is left as it is when it already has num
        channels. Reports whether the result is non-empty. */
    method GetDef(m: Chmap, num: int) returns (ok: bool, res: Chmap)
      requires Valid()
      ensures res == DefaultLayout(Abs(), m, num)
      ensures ok == (|res| > 0)
    {
      res := m;
      if |m| != num {
        res := [];
        var t := ReorderToWaveext(FromChannels(num));
        var accepted, t' := TestLayout(t);
        if accepted {
          res := t';
        } else {
          var k := FindWithCount(num);
          if k < numChmaps {
            res := chmaps[k];
          }
        }
      }
      ok := |res| > 0;
    }

    /** mp_chmap_sel_adjust: the layout the caller's map is overwritten with,
        and whether one was found. Tried in order: the map itself, the
        default layout for a map of unknown order, each speaker substitution
        of the original map, the up/down-mix fallback, stereo, mono; failing
        all of them the map becomes empty. */
    method Adjust(m: Chmap) returns (ok: bool, res: Chmap)
      requires Valid()
      ensures (ok, res) == Negotiate(Abs(), m)
    {
      var accepted, t := TestLayout(m);
      if accepted {
        return true, t;
      }
      if IsUnknown(m) {
        var gotDef, d := GetDef([], |m|);
        if gotDef {
          accepted, t := TestLayout(d);
          if accepted {
            return true, t;
          }
        }
      }
      var i := 0;
      while i < |SpeakerReplacements|
        invariant 0 <= i <= |SpeakerReplacements|
        invariant TryReplacements(Abs(), m, i) == TryReplacements(Abs(), m, 0)
      {
        var entry := SpeakerReplacements[i];
        var replaced, r := ReplaceSpeakers(m, entry.0, entry.1);
        if replaced {
          accepted, t := TestLayout(r);
          if accepted {
            return true, t;
          }
        }
        i := i + 1;
      }
      var found, f := Fallback(m);
      if found {
        return true, f;
      }
      accepted, t := TestLayout(Stereo);
      if accepted {
        return true, t;
      }
      accepted, t := TestLayout(Mono);
      if accepted {
        return true, t;
      }
      return false, [];
    }
  }
}
