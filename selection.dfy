/** The decision procedure of audio/chmap_sel.c as functions over the
    criteria a sink has advertised. The class in chmap_sel.dfy holds the
    same criteria in the source's fields and its methods are proved to
    compute these functions; the lemmas here say what the functions mean. */
module Selection {
  import opened Wrappers
  import opened Chmap

  /** Number of maps the selector stores inline (chmaps_storage). */
  const InlineCapacity: int := 20

  /** The criteria a sink has advertised: the "any" flag, the "waveext"
      flag, the whitelisted speakers, and the allowed maps in insertion
      order. */
  datatype Criteria = Criteria(
    allowAny: bool,
    allowWaveext: bool,
    speakers: set<int>,
    chmaps: seq<Chmap>)

  predicate AllValid(maps: seq<Chmap>) {
    forall k :: 0 <= k < |maps| ==> IsValid(maps[k])
  }

  // ---------------------------------------------------------------------
  // Accumulating criteria

  /** The stored maps after adding m: invalid maps are dropped, and so is
      every map once the inline storage is full and there is no allocation
      context to grow into. */
  function AddMapTo(maps: seq<Chmap>, hasTmp: bool, m: Chmap): seq<Chmap> {
    if !IsValid(m) then maps
    else if |maps| == InlineCapacity && !hasTmp then maps
    else maps + [m]
  }

  /** Adding a map either appends exactly that map or changes nothing; the
      earlier entries are kept and nothing invalid is ever stored. */
  lemma AddMapAppendsOrDrops(maps: seq<Chmap>, hasTmp: bool, m: Chmap)
    requires AllValid(maps)
    ensures AllValid(AddMapTo(maps, hasTmp, m))
    ensures AddMapTo(maps, hasTmp, m) == maps + [m]
            <==> IsValid(m) && (hasTmp || |maps| != InlineCapacity)
    ensures AddMapTo(maps, hasTmp, m) != maps + [m] ==> AddMapTo(maps, hasTmp, m) == maps
  {
    if AddMapTo(maps, hasTmp, m) == maps + [m] {
      assert |maps + [m]| != |maps|;
    }
  }

  /** The stored maps after adding each map of ms in turn. */
  function AddAllTo(maps: seq<Chmap>, hasTmp: bool, ms: seq<Chmap>): seq<Chmap>
    decreases |ms|
  {
    if ms == [] then maps
    else AddMapTo(AddAllTo(maps, hasTmp, ms[..|ms| - 1]), hasTmp, ms[|ms| - 1])
  }

  /** The valid maps of ms, in order. */
  function ValidOnly(ms: seq<Chmap>): (r: seq<Chmap>)
    ensures AllValid(r)
    ensures |r| <= |ms|
    decreases |ms|
  {
    if ms == [] then []
    else ValidOnly(ms[..|ms| - 1]) + (if IsValid(ms[|ms| - 1]) then [ms[|ms| - 1]] else [])
  }

  /** With an allocation context, adding a list of maps appends exactly its
      valid members, in order, after the maps already stored. */
  lemma {:induction false} AddAllWithTmp(maps: seq<Chmap>, ms: seq<Chmap>)
    requires AllValid(maps)
    ensures AddAllTo(maps, true, ms) == maps + ValidOnly(ms)
    decreases |ms|
  {
    if ms != [] {
      AddAllWithTmp(maps, ms[..|ms| - 1]);
    }
  }

  /** Below the inline capacity the allocation context makes no difference:
      every valid map is appended, in order. */
  lemma {:induction false} AddAllBelowCapacity(maps: seq<Chmap>, ms: seq<Chmap>)
    requires AllValid(maps)
    requires |maps| + |ms| <= InlineCapacity
    ensures AddAllTo(maps, false, ms) == maps + ValidOnly(ms)
    decreases |ms|
  {
    if ms != [] {
      AddAllBelowCapacity(maps, ms[..|ms| - 1]);
    }
  }

  /** A list of valid maps is kept whole. */
  lemma {:induction false} ValidOnlyKeepsValid(ms: seq<Chmap>)
    requires AllValid(ms)
    ensures ValidOnly(ms) == ms
    decreases |ms|
  {
    if ms != [] {
      ValidOnlyKeepsValid(ms[..|ms| - 1]);
      assert ms == ms[..|ms| - 1] + [ms[|ms| - 1]];
    }
  }

  /** Whatever is added, stored maps stay valid and keep their positions. */
  lemma {:induction false} AddAllKeepsPrefix(maps: seq<Chmap>, hasTmp: bool, ms: seq<Chmap>)
    requires AllValid(maps)
    ensures AllValid(AddAllTo(maps, hasTmp, ms))
    ensures |maps| <= |AddAllTo(maps, hasTmp, ms)|
    ensures AddAllTo(maps, hasTmp, ms)[..|maps|] == maps
    decreases |ms|
  {
    if ms != [] {
      var prev := AddAllTo(maps, hasTmp, ms[..|ms| - 1]);
      AddAllKeepsPrefix(maps, hasTmp, ms[..|ms| - 1]);
      AddMapAppendsOrDrops(prev, hasTmp, ms[|ms| - 1]);
      assert (prev + [ms[|ms| - 1]])[..|maps|] == prev[..|maps|];
    }
  }

  /** The layouts add_alsa_def offers, for 0 .. MaxChannels - 1 channels. */
  function AlsaLayouts(): seq<Chmap> {
    seq(MaxChannels, n requires 0 <= n < MaxChannels => FromChannelsAlsa(n))
  }

  /** The layouts add_waveext_def offers, for 1 .. MaxChannels - 1 channels. */
  function WaveextLayouts(): seq<Chmap> {
    seq(MaxChannels - 1, i requires 0 <= i < MaxChannels - 1 => FromChannels(i + 1))
  }

  /** The ALSA list stops below MaxChannels channels, so it never offers the
      8-channel (7.1) ALSA layout. */
  lemma AlsaListStopsBelowMax()
    ensures forall k :: 0 <= k < |AlsaLayouts()| ==> |AlsaLayouts()[k]| < MaxChannels
    ensures FromChannelsAlsa(MaxChannels) != [] && FromChannelsAlsa(MaxChannels) !in AlsaLayouts()
  {
  }

  /** The default list offers exactly one layout per channel count from 1 to
      MaxChannels - 1, so it never offers the 8-channel (7.1) layout. */
  lemma WaveextListStopsBelowMax()
    ensures forall k :: 0 <= k < |WaveextLayouts()| ==> |WaveextLayouts()[k]| == k + 1 < MaxChannels
    ensures FromChannels(MaxChannels) !in WaveextLayouts()
  {
    forall k | 0 <= k < |WaveextLayouts()|
      ensures |WaveextLayouts()[k]| == k + 1 < MaxChannels
    {
      assert WaveextLayouts()[k] == FromChannels(k + 1);
    }
  }

  // ---------------------------------------------------------------------
  // Speaker substitution

  /** The pairs of interchangeable speaker groups, in the order they are
      tried: side for back surrounds (5.1), side for surround-direct (7.1). */
  const SpeakerReplacements: seq<(Chmap, Chmap)> :=
    [([SL, SR], [BL, BR]), ([SL, SR], [SDL, SDR])]

  /** Position of the first x in s at or after start, or |s| when there is
      none. */
  function FirstIndexOf(x: int, s: seq<int>, start: nat): (i: nat)
    requires start <= |s|
    ensures start <= i <= |s|
    ensures i < |s| ==> s[i] == x
    ensures forall j :: start <= j < i ==> s[j] != x
    decreases |s| - start
  {
    if start == |s| then start
    else if s[start] == x then start
    else FirstIndexOf(x, s, start + 1)
  }

  /** The speaker that replaces x: the partner of the first occurrence of x
      in `from`, or x itself. */
  function SubstituteSpeaker(x: int, from: Chmap, to: Chmap): int
    requires |from| == |to|
  {
    var i := FirstIndexOf(x, from, 0);
    if i < |from| then to[i] else x
  }

  /** m with every channel replaced, by position in the group, once. */
  function Substituted(m: Chmap, from: Chmap, to: Chmap): (t: Chmap)
    requires |from| == |to|
    ensures |t| == |m|
  {
    seq(|m|, n requires 0 <= n < |m| => SubstituteSpeaker(m[n], from, to))
  }

  /** Some channel of m uses a speaker of the group. */
  predicate Touches(m: Chmap, group: Chmap) {
    exists n :: 0 <= n < |m| && m[n] in group
  }

  /** What replace_speakers produces for the entry (list0, list1): first the
      speakers of list1 are replaced by those of list0, then the other way;
      a direction counts only when it changed a channel and the result is
      a valid map. */
  function Replacement(m: Chmap, list0: Chmap, list1: Chmap): Option<Chmap>
    requires |list0| == |list1|
  {
    if !IsValid(m) then None
    else if Touches(m, list1) && IsValid(Substituted(m, list1, list0)) then
      Some(Substituted(m, list1, list0))
    else if Touches(m, list0) && IsValid(Substituted(m, list0, list1)) then
      Some(Substituted(m, list0, list1))
    else None
  }

  /** Two groups of equal length whose partners differ. */
  predicate ReplacementEntry(list0: Chmap, list1: Chmap) {
    && |list0| == |list1|
    && (forall i :: 0 <= i < |list0| ==> list0[i] != list1[i])
  }

  lemma TableEntriesWellFormed()
    ensures forall e :: e in SpeakerReplacements ==> ReplacementEntry(e.0, e.1)
  {
  }

  /** A replaced channel takes the speaker of its first match in `from`. */
  lemma SubstitutedAt(m: Chmap, from: Chmap, to: Chmap, n: int)
    requires |from| == |to| && 0 <= n < |m|
    ensures m[n] !in from ==> Substituted(m, from, to)[n] == m[n]
    ensures m[n] in from ==>
              var i := FirstIndexOf(m[n], from, 0);
              i < |from| && from[i] == m[n] && Substituted(m, from, to)[n] == to[i]
  {
  }

  /** A successful substitution yields a valid map of the same size that
      differs from the original, in which every channel either kept its
      speaker or swapped it for its partner at the same group position. */
  lemma {:induction false} ReplacementSwapsPartners(m: Chmap, list0: Chmap, list1: Chmap, t: Chmap)
    requires ReplacementEntry(list0, list1)
    requires Replacement(m, list0, list1) == Some(t)
    ensures IsValid(m) && IsValid(t) && |t| == |m| && t != m
    ensures forall n :: 0 <= n < |m| ==>
              t[n] == m[n] ||
              exists i :: 0 <= i < |list0| &&
                ((m[n] == list1[i] && t[n] == list0[i]) || (m[n] == list0[i] && t[n] == list1[i]))
  {
    var fwd := Touches(m, list1) && IsValid(Substituted(m, list1, list0));
    var from, to := if fwd then list1 else list0, if fwd then list0 else list1;
    assert t == Substituted(m, from, to);
    var n :| 0 <= n < |m| && m[n] in from;
    SubstitutedAt(m, from, to, n);
    assert t[n] != m[n];
    forall k | 0 <= k < |m|
      ensures t[k] == m[k] ||
              exists i :: 0 <= i < |list0| &&
                ((m[k] == list1[i] && t[k] == list0[i]) || (m[k] == list0[i] && t[k] == list1[i]))
    {
      SubstitutedAt(m, from, to, k);
    }
  }

  /** The first table entry, from `start` on, whose substitution of m is
      accepted, and the accepted map. */
  function TryReplacements(c: Criteria, m: Chmap, start: nat): Option<Chmap>
    decreases |SpeakerReplacements| - start
  {
    if start >= |SpeakerReplacements| then None
    else
      var entry := SpeakerReplacements[start];
      match Replacement(m, entry.0, entry.1)
      case Some(t) =>
        if Accept(c, t).Some? then Accept(c, t) else TryReplacements(c, m, start + 1)
      case None => TryReplacements(c, m, start + 1)
  }

  // ---------------------------------------------------------------------
  // Acceptance

  /** Every speaker of m is whitelisted. */
  predicate SpeakersAllowed(c: Criteria, m: Chmap) {
    forall n :: 0 <= n < |m| ==> m[n] in c.speakers
  }

  /** With the waveext flag set: m reordered into WAVEFORMATEXTENSIBLE order,
      if that order can express it. */
  function WaveextForm(c: Criteria, m: Chmap): Option<Chmap> {
    if c.allowWaveext && IsWaveext(ReorderToWaveext(m)) then Some(ReorderToWaveext(m))
    else None
  }

  /** Position of the first stored map at or after start that equals m up
      to reordering, or |maps|. */
  function FirstReordered(maps: seq<Chmap>, m: Chmap, start: nat): (k: nat)
    requires start <= |maps|
    ensures start <= k <= |maps|
    ensures k < |maps| ==> EqualsReordered(maps[k], m)
    ensures forall j :: start <= j < k ==> !EqualsReordered(maps[j], m)
    decreases |maps| - start
  {
    if start == |maps| then start
    else if EqualsReordered(maps[start], m) then start
    else FirstReordered(maps, m, start + 1)
  }

  /** The stored map that matches m up to reordering, first in insertion
      order. */
  function MatchStored(maps: seq<Chmap>, m: Chmap): Option<Chmap> {
    var k := FirstReordered(maps, m, 0);
    if k < |maps| then Some(maps[k]) else None
  }

  /** test_layout: None when m is rejected, otherwise the map m is turned
      into. The tests run in a fixed order and the first success wins:
      any, waveext, whitelisted speakers, stored maps. */
  function Accept(c: Criteria, m: Chmap): Option<Chmap> {
    if !IsValid(m) then None
    else if c.allowAny then Some(m)
    else if WaveextForm(c, m).Some? then WaveextForm(c, m)
    else if SpeakersAllowed(c, m) then Some(m)
    else MatchStored(c.chmaps, m)
  }

  /** The map is accepted exactly when it is valid and one of the four tests
      passes. */
  lemma AcceptIff(c: Criteria, m: Chmap)
    ensures Accept(c, m).Some? <==>
              IsValid(m) &&
              (|| c.allowAny
               || (c.allowWaveext && IsWaveext(ReorderToWaveext(m)))
               || SpeakersAllowed(c, m)
               || exists k :: 0 <= k < |c.chmaps| && EqualsReordered(c.chmaps[k], m))
  {
  }

  /** Acceptance never changes which speakers a layout has, only their order,
      and what it hands back is valid. */
  lemma AcceptOnlyReorders(c: Criteria, m: Chmap)
    requires AllValid(c.chmaps)
    requires Accept(c, m).Some?
    ensures IsValid(Accept(c, m).value)
    ensures EqualsReordered(Accept(c, m).value, m)
    ensures |Accept(c, m).value| == |m|
  {
    if !c.allowAny && WaveextForm(c, m).Some? {
      WaveextReorderValid(m);
      SameMultisetEqualsReordered(ReorderToWaveext(m), m);
    }
  }

  /** Which test accepts, when several would: the earlier one decides the
      form of the result. */
  lemma AcceptOrder(c: Criteria, m: Chmap)
    requires IsValid(m)
    ensures c.allowAny ==> Accept(c, m) == Some(m)
    ensures !c.allowAny && c.allowWaveext && IsWaveext(ReorderToWaveext(m)) ==>
              Accept(c, m) == Some(ReorderToWaveext(m))
    ensures !c.allowAny && WaveextForm(c, m).None? && SpeakersAllowed(c, m) ==>
              Accept(c, m) == Some(m)
    ensures !c.allowAny && WaveextForm(c, m).None? && !SpeakersAllowed(c, m) ==>
              forall k :: 0 <= k < |c.chmaps| && EqualsReordered(c.chmaps[k], m) &&
                          (forall j :: 0 <= j < k ==> !EqualsReordered(c.chmaps[j], m))
                          ==> Accept(c, m) == Some(c.chmaps[k])
  {
  }

  // ---------------------------------------------------------------------
  // Up/down-mix fallback

  /** e can stand in for req: as an upmix e has every speaker of req; as a
      downmix req has every speaker of e. */
  predicate Qualifies(e: Chmap, req: Chmap, upmix: bool) {
    if upmix then Contains(e, req) else Contains(req, e)
  }

  /** The number of speakers added (upmix) or dropped (downmix). */
  function Cost(e: Chmap, req: Chmap, upmix: bool): nat {
    if upmix then |Diff(e, req)| else |Diff(req, e)|
  }

  /** The candidate the fallback scan keeps after visiting all of maps: a
      later map replaces the kept one only when strictly cheaper. */
  function BestIndex(maps: seq<Chmap>, req: Chmap, upmix: bool): (k: Option<nat>)
    ensures k.Some? ==> k.value < |maps|
    decreases |maps|
  {
    if maps == [] then None
    else
      var last := |maps| - 1;
      var prev := BestIndex(maps[..last], req, upmix);
      if Qualifies(maps[last], req, upmix)
         && (prev.None? || Cost(maps[prev.value], req, upmix) > Cost(maps[last], req, upmix))
      then Some(last)
      else prev
  }

  /** maps[k] qualifies, no qualifying map is cheaper, and every earlier
      qualifying map is strictly dearer. */
  predicate IsFirstCheapest(maps: seq<Chmap>, req: Chmap, upmix: bool, k: int) {
    && 0 <= k < |maps|
    && Qualifies(maps[k], req, upmix)
    && (forall j :: 0 <= j < |maps| && Qualifies(maps[j], req, upmix) ==>
          Cost(maps[k], req, upmix) <= Cost(maps[j], req, upmix))
    && (forall j :: 0 <= j < k && Qualifies(maps[j], req, upmix) ==>
          Cost(maps[k], req, upmix) < Cost(maps[j], req, upmix))
  }

  /** The scan finds a candidate exactly when some map qualifies, and the one
      it finds is the first of the cheapest. */
  lemma {:induction false} BestIndexIsFirstCheapest(maps: seq<Chmap>, req: Chmap, upmix: bool)
    ensures BestIndex(maps, req, upmix).None? <==>
              forall j :: 0 <= j < |maps| ==> !Qualifies(maps[j], req, upmix)
    ensures BestIndex(maps, req, upmix).Some? ==>
              IsFirstCheapest(maps, req, upmix, BestIndex(maps, req, upmix).value)
    decreases |maps|
  {
    if maps != [] {
      var last := |maps| - 1;
      var init := maps[..last];
      BestIndexIsFirstCheapest(init, req, upmix);
      assert forall j :: 0 <= j < last ==> init[j] == maps[j];
      var prev := BestIndex(init, req, upmix);
      var q := Qualifies(maps[last], req, upmix);
      if q && (prev.None? || Cost(maps[prev.value], req, upmix) > Cost(maps[last], req, upmix)) {
        assert BestIndex(maps, req, upmix) == Some(last);
        forall j | 0 <= j < last && Qualifies(maps[j], req, upmix)
          ensures Cost(maps[last], req, upmix) < Cost(maps[j], req, upmix)
        {
          assert Qualifies(init[j], req, upmix);
        }
      } else {
        assert BestIndex(maps, req, upmix) == prev;
        if prev.Some? {
          var p := prev.value;
          assert IsFirstCheapest(init, req, upmix, p);
          assert q ==> Cost(maps[p], req, upmix) <= Cost(maps[last], req, upmix);
        }
      }
    }
  }

  /** At most one position is the first of the cheapest. */
  lemma FirstCheapestUnique(maps: seq<Chmap>, req: Chmap, upmix: bool, k: int, k': int)
    requires IsFirstCheapest(maps, req, upmix, k)
    requires IsFirstCheapest(maps, req, upmix, k')
    ensures k == k'
  {
  }

  /** mp_chmap_sel_fallback: the cheapest upmix if there is one, otherwise the
      cheapest downmix, otherwise nothing. */
  function ClosestFallback(maps: seq<Chmap>, req: Chmap): Option<Chmap> {
    match BestIndex(maps, req, true)
    case Some(k) => Some(maps[k])
    case None =>
      match BestIndex(maps, req, false)
      case Some(k) => Some(maps[k])
      case None => None
  }

  /** The fallback picks a stored map; any upmix beats every downmix; among
      upmixes (or, failing those, downmixes) it takes the one that changes
      the fewest speakers, the earliest stored on a tie; and it finds nothing
      exactly when no stored map is related to the request either way. */
  lemma ClosestFallbackChoice(maps: seq<Chmap>, req: Chmap)
    ensures ClosestFallback(maps, req).Some? ==> ClosestFallback(maps, req).value in maps
    ensures (exists j :: 0 <= j < |maps| && Contains(maps[j], req)) ==>
              exists k :: IsFirstCheapest(maps, req, true, k) &&
                          ClosestFallback(maps, req) == Some(maps[k])
    ensures (forall j :: 0 <= j < |maps| ==> !Contains(maps[j], req)) &&
            (exists j :: 0 <= j < |maps| && Contains(req, maps[j])) ==>
              exists k :: IsFirstCheapest(maps, req, false, k) &&
                          ClosestFallback(maps, req) == Some(maps[k])
    ensures ClosestFallback(maps, req).None? <==>
              forall j :: 0 <= j < |maps| ==> !Contains(maps[j], req) && !Contains(req, maps[j])
  {
    BestIndexIsFirstCheapest(maps, req, true);
    BestIndexIsFirstCheapest(maps, req, false);
  }

  // ---------------------------------------------------------------------
  // Default layout for a channel count

  /** Position of the first stored map at or after start with num channels,
      or |maps|. */
  function FirstWithCount(maps: seq<Chmap>, num: int, start: nat): (k: nat)
    requires start <= |maps|
    ensures start <= k <= |maps|
    ensures k < |maps| ==> |maps[k]| == num
    ensures forall j :: start <= j < k ==> |maps[j]| != num
    decreases |maps| - start
  {
    if start == |maps| then start
    else if |maps[start]| == num then start
    else FirstWithCount(maps, num, start + 1)
  }

  /** mp_chmap_sel_get_def: m itself when it already has num channels;
      otherwise the default num-channel layout in waveext order if it is
      accepted, else the first stored map with num channels, else empty. */
  function DefaultLayout(c: Criteria, m: Chmap, num: int): Chmap {
    if |m| == num then m
    else
      match Accept(c, ReorderToWaveext(FromChannels(num)))
      case Some(t) => t
      case None =>
        var k := FirstWithCount(c.chmaps, num, 0);
        if k < |c.chmaps| then c.chmaps[k] else []
  }

  /** The default layout leaves a map of the right size alone; otherwise it
      is empty (failure) or a valid map of exactly num channels, the first
      stored one when the default layout itself is rejected. */
  lemma DefaultLayoutProps(c: Criteria, m: Chmap, num: int)
    requires AllValid(c.chmaps)
    ensures |m| == num ==> DefaultLayout(c, m, num) == m
    ensures |DefaultLayout(c, m, num)| > 0 ==> |DefaultLayout(c, m, num)| == num
    ensures |m| != num && |DefaultLayout(c, m, num)| > 0 ==> IsValid(DefaultLayout(c, m, num))
    ensures |m| != num && Accept(c, ReorderToWaveext(FromChannels(num))).None? ==>
              (DefaultLayout(c, m, num) == [] <==>
                 forall j :: 0 <= j < |c.chmaps| ==> |c.chmaps[j]| != num)
    ensures |m| != num && Accept(c, ReorderToWaveext(FromChannels(num))).None? &&
            DefaultLayout(c, m, num) != [] ==>
              exists k :: 0 <= k < |c.chmaps| && DefaultLayout(c, m, num) == c.chmaps[k] &&
                          |c.chmaps[k]| == num &&
                          forall j :: 0 <= j < k ==> |c.chmaps[j]| != num
  {
    if |m| != num {
      var t := ReorderToWaveext(FromChannels(num));
      if Accept(c, t).Some? {
        AcceptOnlyReorders(c, t);
      }
    }
  }

  // ---------------------------------------------------------------------
  // Negotiation

  /** For a map of unknown order: the default layout for its channel count,
      when there is one and it is accepted. */
  function UnknownDefault(c: Criteria, m: Chmap): Option<Chmap> {
    if !IsUnknown(m) then None
    else
      var d := DefaultLayout(c, [], |m|);
      if |d| > 0 then Accept(c, d) else None
  }

  /** mp_chmap_sel_adjust: whether a layout was found, and the map the
      caller's map is overwritten with. */
  function Negotiate(c: Criteria, m: Chmap): (bool, Chmap) {
    if Accept(c, m).Some? then (true, Accept(c, m).value)
    else if UnknownDefault(c, m).Some? then (true, UnknownDefault(c, m).value)
    else if TryReplacements(c, m, 0).Some? then (true, TryReplacements(c, m, 0).value)
    else if ClosestFallback(c.chmaps, m).Some? then (true, ClosestFallback(c.chmaps, m).value)
    else if Accept(c, Stereo).Some? then (true, Accept(c, Stereo).value)
    else if Accept(c, Mono).Some? then (true, Accept(c, Mono).value)
    else (false, [])
  }

  lemma {:induction false} TryReplacementsAccepted(c: Criteria, m: Chmap, start: nat)
    requires AllValid(c.chmaps)
    ensures TryReplacements(c, m, start).Some? ==> IsValid(TryReplacements(c, m, start).value)
    decreases |SpeakerReplacements| - start
  {
    if start < |SpeakerReplacements| {
      var entry := SpeakerReplacements[start];
      var r := Replacement(m, entry.0, entry.1);
      if r.Some? && Accept(c, r.value).Some? {
        AcceptOnlyReorders(c, r.value);
      } else {
        TryReplacementsAccepted(c, m, start + 1);
      }
    }
  }

  /** Negotiation succeeds exactly when it leaves a valid map, and on failure
      it leaves the empty map, so the result and the map always agree. */
  lemma NegotiateOutcome(c: Criteria, m: Chmap)
    requires AllValid(c.chmaps)
    ensures Negotiate(c, m).0 <==> IsValid(Negotiate(c, m).1)
    ensures !Negotiate(c, m).0 ==> Negotiate(c, m).1 == []
  {
    if Accept(c, m).Some? {
      AcceptOnlyReorders(c, m);
    } else if UnknownDefault(c, m).Some? {
      AcceptOnlyReorders(c, DefaultLayout(c, [], |m|));
    } else if TryReplacements(c, m, 0).Some? {
      TryReplacementsAccepted(c, m, 0);
    } else if ClosestFallback(c.chmaps, m).Some? {
      ClosestFallbackChoice(c.chmaps, m);
    } else if Accept(c, Stereo).Some? {
      AcceptOnlyReorders(c, Stereo);
    } else if Accept(c, Mono).Some? {
      AcceptOnlyReorders(c, Mono);
    }
  }

  /** Negotiation fails only after every step failed: the map itself, the
      fallback search, stereo and mono were all rejected. In particular a
      sink that accepts stereo or mono never fails. */
  lemma NegotiateFailsOnlyAfterAll(c: Criteria, m: Chmap)
    requires !Negotiate(c, m).0
    ensures Accept(c, m).None?
    ensures UnknownDefault(c, m).None?
    ensures TryReplacements(c, m, 0).None?
    ensures ClosestFallback(c.chmaps, m).None?
    ensures Accept(c, Stereo).None? && Accept(c, Mono).None?
  {
  }

  /** A map that is accepted as it stands comes back in its accepted form,
      before any substitution or fallback is tried. */
  lemma NegotiateAcceptedFirst(c: Criteria, m: Chmap)
    requires Accept(c, m).Some?
    ensures Negotiate(c, m) == (true, Accept(c, m).value)
  {
  }

  /** With "any" allowed, negotiation always succeeds and leaves every valid
      map as it is. An invalid map still ends in some accepted layout
      (its default layout, a fallback, or stereo) rather than in failure. */
  lemma NegotiateWithAny(c: Criteria, m: Chmap)
    requires c.allowAny
    ensures Negotiate(c, m).0
    ensures IsValid(m) ==> Negotiate(c, m).1 == m
    ensures !IsValid(m) && IsUnknown(m) ==>
              Negotiate(c, m).1 == ReorderToWaveext(FromChannels(|m|))
    ensures c.chmaps == [] && !IsValid(m) && !IsUnknown(m) ==> Negotiate(c, m).1 == Stereo
  {
    assert IsValid(Stereo);
    if !IsValid(m) {
      assert TryReplacements(c, m, 0) == None by {
        assert forall k :: 0 <= k < |SpeakerReplacements| ==>
          Replacement(m, SpeakerReplacements[k].0, SpeakerReplacements[k].1) == None;
      }
      if IsUnknown(m) {
        ReorderKeepsValid(FromChannels(|m|));
      }
    }
  }
}
