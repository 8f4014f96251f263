/** The channel-map value type and the primitives the selector consumes.
    audio/chmap.c and audio/chmap.h are not part of this model: the
    definitions below are stand-ins that satisfy the interface the selector
    relies on (validity, set containment, set difference, equality up to
    reordering, reordering into WAVEFORMATEXTENSIBLE order, default layouts
    by channel count). */
module Chmap {

  /** Largest number of channels a map can hold (MP_NUM_CHANNELS). */
  const MaxChannels: int := 8

  // Speaker identifiers used by the selector and its tests.
  const FL: int := 0
  const FR: int := 1
  const FC: int := 2
  const LFE: int := 3
  const BL: int := 4
  const BR: int := 5
  const BC: int := 8
  const SL: int := 9
  const SR: int := 10
  const SDL: int := 33
  const SDR: int := 34

  /** Speakers below this id have a WAVEFORMATEXTENSIBLE mask bit. */
  const WaveextSpeakerCount: int := 18

  /** Placeholder speakers of a layout whose order is unknown. */
  const Unknown0: int := 64
  const UnknownLast: int := Unknown0 + MaxChannels - 1

  /** Number of speaker ids, and the size of the selector's whitelist. */
  const SpeakerIdCount: int := UnknownLast + 1

  /** A channel map: the speaker of each channel, in channel order; like
      the source's fixed-size struct it holds at most MaxChannels channels. */
  type Chmap = s: seq<int> | |s| <= MaxChannels

  predicate Distinct(m: Chmap) {
    forall i, j :: 0 <= i < j < |m| ==> m[i] != m[j]
  }

  /** Every speaker id of m is one the whitelist has room for. */
  predicate KnownSpeakers(m: Chmap) {
    forall n :: 0 <= n < |m| ==> 0 <= m[n] < SpeakerIdCount
  }

  /** A usable layout: one to MaxChannels channels, known speaker ids, no
      speaker twice. */
  predicate IsValid(m: Chmap) {
    && 0 < |m| <= MaxChannels
    && KnownSpeakers(m)
    && Distinct(m)
  }

  /** Every speaker of b is also a speaker of a. */
  predicate Contains(a: Chmap, b: Chmap) {
    forall n :: 0 <= n < |b| ==> b[n] in a
  }

  /** The speakers of a that b lacks, in the order of a. */
  function Diff(a: Chmap, b: Chmap): (d: Chmap)
    ensures |d| <= |a|
  {
    if a == [] then []
    else (if a[0] in b then [] else [a[0]]) + Diff(a[1..], b)
  }

  /** A speaker is in the difference exactly when a has it and b lacks it. */
  lemma {:induction false} DiffMember(a: Chmap, b: Chmap, x: int)
    ensures x in Diff(a, b) <==> x in a && x !in b
  {
    if a != [] {
      DiffMember(a[1..], b, x);
      assert a == [a[0]] + a[1..];
    }
  }

  /** The same number of channels and the same speakers, in any order. */
  predicate EqualsReordered(a: Chmap, b: Chmap) {
    |a| == |b| && Contains(a, b) && Contains(b, a)
  }

  /** Maps holding the same speakers the same number of times are equal up
      to reordering. */
  lemma SameMultisetEqualsReordered(a: Chmap, b: Chmap)
    requires multiset(a) == multiset(b)
    ensures EqualsReordered(a, b)
  {
    assert |multiset(a)| == |multiset(b)|;
    forall n | 0 <= n < |b| ensures b[n] in a {
      assert b[n] in multiset(b);
    }
    forall n | 0 <= n < |a| ensures a[n] in b {
      assert a[n] in multiset(a);
    }
  }

  /** Each speaker id is at most the next one. */
  predicate Ascending(m: seq<int>) {
    forall i :: 0 < i < |m| ==> m[i - 1] <= m[i]
  }

  function InsertSorted(x: int, m: seq<int>): (r: seq<int>)
    ensures multiset(r) == multiset(m) + multiset{x}
    ensures |r| == |m| + 1
  {
    if m == [] || x <= m[0] then [x] + m
    else
      assert m == [m[0]] + m[1..];
      [m[0]] + InsertSorted(x, m[1..])
  }

  lemma {:induction false} InsertSortedAscending(x: int, m: seq<int>)
    requires Ascending(m)
    ensures Ascending(InsertSorted(x, m))
    ensures |m| > 0 ==> InsertSorted(x, m)[0] == if x <= m[0] then x else m[0]
  {
    if m != [] && x > m[0] {
      InsertSortedAscending(x, m[1..]);
    }
  }

  /** Reorder a map into WAVEFORMATEXTENSIBLE order, which is ascending
      speaker id. */
  function ReorderToWaveext(m: Chmap): (r: Chmap)
    ensures Ascending(r)
    ensures multiset(r) == multiset(m)
    ensures |r| == |m|
  {
    if m == [] then []
    else
      assert m == [m[0]] + m[1..];
      InsertSortedAscending(m[0], ReorderToWaveext(m[1..]));
      InsertSorted(m[0], ReorderToWaveext(m[1..]))
  }

  /** The map is in WAVEFORMATEXTENSIBLE order and uses only speakers that
      format can express. */
  predicate IsWaveext(m: Chmap) {
    && (forall i, j :: 0 <= i < j < |m| ==> m[i] < m[j])
    && (forall n :: 0 <= n < |m| ==> 0 <= m[n] < WaveextSpeakerCount)
  }

  /** The map has a placeholder speaker, so its channel order is unknown. */
  predicate IsUnknown(m: Chmap) {
    exists n :: 0 <= n < |m| && Unknown0 <= m[n] <= UnknownLast
  }

  const Mono: Chmap := [FC]
  const Stereo: Chmap := [FL, FR]

  /** The default layout of each channel count, indexed by the count. */
  const DefaultLayouts: seq<Chmap> := [
    [],
    Mono,
    Stereo,
    [FL, FR, LFE],
    [FL, FR, FC, BC],
    [FL, FR, FC, BL, BR],
    [FL, FR, FC, LFE, BL, BR],
    [FL, FR, FC, LFE, BL, BR, BC],
    [FL, FR, FC, LFE, BL, BR, SL, SR]
  ]

  /** The classic ALSA layout of each channel count; empty where ALSA
      defines none. */
  const AlsaDefaultLayouts: seq<Chmap> := [
    [],
    Mono,
    Stereo,
    [],
    [FL, FR, BL, BR],
    [FL, FR, BL, BR, FC],
    [FL, FR, BL, BR, FC, LFE],
    [],
    [FL, FR, BL, BR, FC, LFE, SL, SR]
  ]

  /** The default layout for a channel count; empty outside 1..MaxChannels. */
  function FromChannels(n: int): (m: Chmap)
    ensures 1 <= n <= MaxChannels ==> |m| == n && IsValid(m)
    ensures !(1 <= n <= MaxChannels) ==> m == []
  {
    if 1 <= n <= MaxChannels then
      assert forall k :: 1 <= k < |DefaultLayouts| ==>
        |DefaultLayouts[k]| == k && IsValid(DefaultLayouts[k]);
      DefaultLayouts[n]
    else []
  }

  /** The classic ALSA layout for a channel count; empty where ALSA defines
      none. */
  function FromChannelsAlsa(n: int): (m: Chmap)
    ensures m == [] || (IsValid(m) && |m| == n)
    ensures n == 3 || n == 7 ==> m == []
  {
    if 0 <= n <= MaxChannels then
      assert forall k :: 0 <= k < |AlsaDefaultLayouts| ==>
        AlsaDefaultLayouts[k] == [] ||
        (|AlsaDefaultLayouts[k]| == k && IsValid(AlsaDefaultLayouts[k]));
      AlsaDefaultLayouts[n]
    else []
  }

  /** A reordering of a valid map that lands in WAVEFORMATEXTENSIBLE form is
      itself valid. */
  /** A map without repeats holds each speaker at most once. */
  lemma {:induction false} DistinctAtMostOnce(m: Chmap, x: int)
    requires Distinct(m)
    ensures multiset(m)[x] <= 1
  {
    if m != [] {
      assert m == [m[0]] + m[1..];
      DistinctAtMostOnce(m[1..], x);
      if m[0] == x {
        assert x !in m[1..];
      }
    }
  }

  /** Reordering keeps a valid map valid: the same speakers, each once. */
  lemma ReorderKeepsValid(m: Chmap)
    requires IsValid(m)
    ensures IsValid(ReorderToWaveext(m))
  {
    var r := ReorderToWaveext(m);
    forall n | 0 <= n < |r| ensures 0 <= r[n] < SpeakerIdCount {
      assert r[n] in multiset(r);
    }
    forall i, j | 0 <= i < j < |r| ensures r[i] != r[j] {
      if r[i] == r[j] {
        assert r == r[..j] + r[j..];
        assert r[..j][i] == r[i] && r[j..][0] == r[i];
        DistinctAtMostOnce(m, r[i]);
        assert false;
      }
    }
  }

  lemma WaveextReorderValid(m: Chmap)
    requires IsValid(m)
    requires IsWaveext(ReorderToWaveext(m))
    ensures IsValid(ReorderToWaveext(m))
  {
  }

  /** Nothing is missing exactly when the difference is empty. */
  lemma {:induction false} DiffEmptyIffContains(a: Chmap, b: Chmap)
    ensures |Diff(a, b)| == 0 <==> Contains(b, a)
  {
    if |Diff(a, b)| == 0 {
      assert Diff(a, b) == [];
      forall n | 0 <= n < |a| ensures a[n] in b {
        DiffMember(a, b, a[n]);
      }
    } else {
      var x := Diff(a, b)[0];
      DiffMember(a, b, x);
      assert x in Diff(a, b);
    }
  }
}
