# mpv channel-layout selection, modelled in Dafny

mpv's audio outputs have to agree on a channel layout with the sound device.
`audio/chmap_sel.c` does this. A sink first fills an `mp_chmap_sel` selector with what
it accepts:
- every valid layout;
- WAVEFORMATEXTENSIBLE layouts, which are forced into that format's order;
- a whitelist of speakers;
- explicit channel maps, stored in an inline buffer of 20 that grows only when the
  selector has an allocation context;
- the classic ALSA layouts or the default layouts, in bulk.

`mp_chmap_sel_adjust` then turns a requested map into one the sink accepts. It tries,
in order:
1. the map itself;
2. for a map of unknown channel order, the default layout of its channel count;
3. the speaker substitutions of a fixed table (side ↔ back surrounds, side ↔
   surround-direct);
4. the closest stored upmix, else the closest stored downmix;
5. stereo, then mono.

If none is accepted, the map becomes empty. `mp_chmap_sel_get_def` chooses a layout for
a bare channel count.

The project has four modules:
- **`Chmap`** (chmap.dfy) holds the channel-map value: a sequence of speaker ids, at
  most 8 long. It also defines the primitives the selector calls: validity, containment,
  difference, equality up to reordering, reordering into WAVEFORMATEXTENSIBLE order, and
  the default and ALSA layouts.
- **`Selection`** (selection.dfy) states the whole decision procedure as functions over
  the advertised `Criteria`, and proves what they mean.
- **`ChmapSel`** (chmap_sel.dfy) is the source's imperative form. Class `Selector` has
  the struct's fields, with the speaker whitelist and the map buffer as arrays. Every
  method is proved to compute the matching `Selection` function on the selector's
  abstract criteria `Abs()`.
- **`ChmapSelTests`** (tests.dfy) restates the unit tests of `tests/all.c` as proved
  scenarios. The diff and contains tests are lemmas over the primitives. The fallback
  tests build a selector through `AddMap` and call `Fallback`.

Behaviour of the code worth knowing:
- **"any" and invalid maps.** With only `add_any`, `adjust` never fails. An invalid map
  ends in the default layout of its channel count, in WAVEFORMATEXTENSIBLE order, if it
  has placeholder speakers, and in stereo otherwise (`Selection.NegotiateWithAny`).
- **Bulk additions stop at 7 channels.** Both bulk additions loop while
  `n < MP_NUM_CHANNELS`. So neither ever adds an 8-channel (7.1) layout, although the
  ALSA table defines one. This is modelled as written and stated by
  `Selection.AlsaListStopsBelowMax` and `Selection.WaveextListStopsBelowMax`.

## Model

| member | source | states |
|---|---|---|
| Chmap.ReorderToWaveext | audio/chmap_sel.c:140-151 | The WAVEFORMATEXTENSIBLE reordering is ascending and a permutation of the map: same length, same speakers with the same multiplicities. |
| Chmap.ReorderKeepsValid | audio/chmap_sel.c:251-254 | Reordering a valid map, as get_def does to the default layout, gives a valid map. |
| Chmap.WaveextReorderValid | audio/chmap_sel.c:140-151 | Reordering a valid map into a waveext form keeps it valid, so test_waveext never hands back an invalid map. |
| Chmap.FromChannels | audio/chmap_sel.c:103-110 | The default layout of 1 to 8 channels is valid and has exactly that many channels; any other count gives the empty map. |
| Chmap.FromChannelsAlsa | audio/chmap_sel.c:75-83 | An ALSA layout is either absent (empty, as for 3 and 7 channels) or valid with exactly the requested number of channels. |
| Chmap.DiffMember | tests/all.c:6-27 | A speaker is in diff(a, b) exactly when a has it and b lacks it. |
| Chmap.DiffEmptyIffContains | audio/chmap_sel.c:213-222 | The fallback's diff is empty exactly when containment holds in the other direction, so a cost-0 candidate is an exact match of speakers. |
| Selection.AddMapAppendsOrDrops | audio/chmap_sel.c:86-100 | Adding a map appends exactly that map iff it is valid and there is room (an allocation context or fewer than 20 stored); otherwise nothing changes; stored maps stay valid. |
| Selection.AddAllWithTmp | audio/chmap_sel.c:86-100 | With an allocation context, a sequence of additions appends exactly the valid maps, in order, after those already stored. |
| Selection.AddAllBelowCapacity | audio/chmap_sel.c:86-100 | Below the inline capacity of 20, additions without an allocation context also append every valid map, in order. |
| Selection.AddAllKeepsPrefix | audio/chmap_sel.c:86-100 | Whatever is added, the maps already stored keep their positions and everything stored stays valid. |
| Selection.AlsaListStopsBelowMax | audio/chmap_sel.c:75-83 | Every layout add_alsa_def offers has fewer than 8 channels; the 8-channel ALSA layout exists but is never offered. |
| Selection.WaveextListStopsBelowMax | audio/chmap_sel.c:103-110 | add_waveext_def offers exactly the default layouts of 1 to 7 channels, one per count, in order, and never the 8-channel one. |
| Selection.TableEntriesWellFormed | audio/chmap_sel.c:25-30 | Each entry of the replacement table pairs two groups of equal length whose speakers differ position by position. |
| Selection.ReplacementSwapsPartners | audio/chmap_sel.c:34-59 | A successful replacement yields a valid map of the same size that differs from the input; each channel keeps its speaker or swaps it for its partner at the same position in the other group. |
| Selection.AcceptIff | audio/chmap_sel.c:153-160 | A map is accepted iff it is valid and one of the four tests passes: any, waveext-expressible, all speakers whitelisted, or a stored map equal up to reordering. |
| Selection.AcceptOnlyReorders | audio/chmap_sel.c:129-160 | What test_layout hands back is valid, has the same number of channels and the same speakers as the input; only the order can change. |
| Selection.AcceptOrder | audio/chmap_sel.c:153-160 | When several tests would pass, the first in the order any, waveext, speakers, stored maps decides the result; among stored maps the first in insertion order wins. |
| Selection.BestIndexIsFirstCheapest | audio/chmap_sel.c:204-238 | The fallback scan finds a candidate iff some stored map qualifies; the one it keeps has the least cost, and every earlier qualifying map is strictly dearer. |
| Selection.FirstCheapestUnique | audio/chmap_sel.c:204-238 | At most one position is the first of the cheapest, so the scan's choice is determined. |
| Selection.ClosestFallbackChoice | audio/chmap_sel.c:204-238 | The fallback returns a stored map. Any upmix beats every downmix. Among upmixes (failing those, downmixes) it takes the earliest of the fewest added (dropped) speakers. It fails iff no stored map contains or is contained in the request. |
| Selection.DefaultLayoutProps | audio/chmap_sel.c:244-265 | get_def leaves a map of the right size alone. Otherwise it gives the empty map or a valid map of exactly num channels. When the default layout is rejected, it gives the first stored map with num channels, and the empty map iff there is none. |
| Selection.TryReplacementsAccepted | audio/chmap_sel.c:178-185 | A map reached through the replacement table is valid. |
| Selection.NegotiateOutcome | audio/chmap_sel.c:168-200 | adjust reports success iff it leaves a valid map, and on failure it leaves the empty map. |
| Selection.NegotiateFailsOnlyAfterAll | audio/chmap_sel.c:168-200 | adjust fails only when the map itself, the unknown-order default, every replacement, the fallback, stereo and mono were all rejected. |
| Selection.NegotiateAcceptedFirst | audio/chmap_sel.c:168-171 | A map that is accepted as it stands comes back in its accepted form before anything else is tried. |
| Selection.NegotiateWithAny | audio/chmap_sel.c:168-200 | With "any" allowed, adjust always succeeds and leaves every valid map unchanged. An invalid map with placeholder speakers becomes the default layout of its size in WAVEFORMATEXTENSIBLE order; with no stored maps, any other invalid map becomes stereo. |
| ChmapSel.ReplaceSpeakers | audio/chmap_sel.c:34-59 | The nested loops compute Replacement: group 1 → group 0 is tried first, then the reverse. A direction counts only if it changed a channel and gives a valid map. On failure the map is untouched. |
| ChmapSel.Selector.constructor | audio/chmap_sel.c:86-91 | A zero-initialised selector: no flags, no whitelisted speaker, no stored map, with room for 20 inline maps. |
| ChmapSel.Selector.AddAny | audio/chmap_sel.c:63-66 | Sets only the "any" flag; speakers and stored maps are unchanged. |
| ChmapSel.Selector.AddWaveext | audio/chmap_sel.c:69-72 | Sets only the waveext flag; everything else is unchanged. |
| ChmapSel.Selector.AddAlsaDef | audio/chmap_sel.c:75-83 | The stored maps become those before plus the additions of the non-empty ALSA layouts of 0 to 7 channels, in order. |
| ChmapSel.Selector.AddMap | audio/chmap_sel.c:86-100 | The stored maps become AddMapTo of the old ones. The buffer grows into a fresh, larger array when full and there is an allocation context. Earlier entries are preserved. |
| ChmapSel.Selector.AddWaveextDef | audio/chmap_sel.c:103-110 | The stored maps become those before plus the additions of the default layouts of 1 to 7 channels, in order. |
| ChmapSel.Selector.AddSpeaker | audio/chmap_sel.c:114-118 | Whitelists exactly the given id (which must be in range) and leaves every other whitelist entry and the stored maps unchanged. |
| ChmapSel.Selector.TestSpeakers | audio/chmap_sel.c:120-127 | Returns true iff every speaker of the map is whitelisted. |
| ChmapSel.Selector.TestMaps | audio/chmap_sel.c:129-138 | Replaces the map by the first stored map that equals it up to reordering, and reports whether there was one; otherwise the map is unchanged. |
| ChmapSel.Selector.TestWaveext | audio/chmap_sel.c:140-151 | With the waveext flag, succeeds iff the reordered map is in waveext form, and hands back that reordering; otherwise the map is unchanged. |
| ChmapSel.Selector.TestLayout | audio/chmap_sel.c:153-160 | Computes Accept: rejects invalid maps, then tries any, waveext, speakers and stored maps in order; a rejected map is unchanged. |
| ChmapSel.Selector.Fallback | audio/chmap_sel.c:204-238 | The scan with INT_MAX sentinels computes ClosestFallback over the stored maps; on failure the map is unchanged. |
| ChmapSel.Selector.FindWithCount | audio/chmap_sel.c:257-262 | The scan stops at the first stored map with num channels, or at the end when there is none. |
| ChmapSel.Selector.GetDef | audio/chmap_sel.c:244-265 | Computes DefaultLayout and reports whether the result is non-empty. |
| ChmapSel.Selector.Adjust | audio/chmap_sel.c:168-200 | Computes Negotiate: the first of the six strategies that is accepted, or failure with the empty map. |
| ChmapSelTests.DiffScenarioCentre | tests/all.c:6-16 | 3.1 minus 2.1 is exactly the centre speaker. |
| ChmapSelTests.DiffScenarioNone | tests/all.c:18-20 | 3.1 minus 6.1(back) is empty. |
| ChmapSelTests.DiffScenarioBack | tests/all.c:22-26 | 6.1(back) minus 3.1 is BL, BR, BC in that order. |
| ChmapSelTests.ContainsScenarios | tests/all.c:29-49 | 3.1 contains 2.1 but not conversely; mono and stereo contain neither each other. |
| ChmapSelTests.UpmixScenario | tests/all.c:51-62 | With 7.1 stored, the fallback of 5.1 succeeds with 7.1. |
| ChmapSelTests.DownmixScenario | tests/all.c:64-75 | With 5.1 stored, the fallback of 7.1 succeeds with 5.1. |
| ChmapSelTests.IncompatibleScenario | tests/all.c:77-87 | With stereo stored, the fallback of mono fails and leaves mono. |
| ChmapSelTests.ClosestUpmixChoice | tests/all.c:89-103 | Of 7.1, 5.1, 2.1, stereo and mono, the closest upmix of 3.1 is 5.1. |
| ChmapSelTests.PreferClosestUpmixScenario | tests/all.c:89-103 | A selector filled with those five maps through AddMap answers the fallback of 3.1 with 5.1. |
| ChmapSelTests.RearUpmixScenario | tests/all.c:105-116 | With 7.1(rear) stored, the fallback of 5.1 succeeds with 7.1(rear). |
| ChmapSelTests.RejectUnknownScenario | tests/all.c:118-132 | With a map of two placeholder speakers stored, the fallback of 5.1 fails and leaves 5.1. |

## Left out

- `audio/chmap.c` and `audio/chmap.h` are not part of this model. The primitives in
  module `Chmap` are stand-ins for them, written to give the selector exactly what it relies on:
  - validity: 1 to 8 channels, known speaker ids, no repeats;
  - `contains` and `diff` over the set of speakers;
  - `equals_reordered` as the same length and the same speakers;
  - `reorder_to_waveext` as an ascending sort by speaker id;
  - `is_waveext` as strictly ascending ids below 18;
  - `mp_chmap_is_unknown` as "has any placeholder speaker";
  - the `MP_CHMAP_INIT_MONO` and `MP_CHMAP_INIT_STEREO` values, as centre alone and as
    front left, front right;
  - the default and ALSA layout tables.

  The contents of the two layout tables (`FromChannels`, `FromChannelsAlsa`) follow mpv's
  `audio/chmap.c` as recalled; they were not checked against that file. In particular the 7-channel default is written as
  FL FR FC LFE BL BR BC, and mpv may define it differently. No proved property depends on
  which speakers an entry holds, only on its size and validity.

  The constants come from the same header and are stated as mpv defines them:
  - 8 channels at most;
  - placeholder speakers 64 to 71;
  - 72 speaker ids;
  - 18 WAVEFORMATEXTENSIBLE speakers;
  - an inline capacity of 20 stored maps (`chmaps_storage` in `audio/chmap_sel.h`,
    `Selection.InlineCapacity`).
- tests/all.c:134-149 (a 7.1 with its first two channels swapped must not serve as a
  fallback for 5.1) is not modelled. It depends on how `mp_chmap_contains` in
  `audio/chmap.c` treats channel order. With the set semantics used here, the swapped
  7.1 is an upmix of 5.1.
- Layout names and strings (`mp_chmap_from_str`, `mp_chmap_to_str`) are not modelled.
  The tests' layouts are written out as speaker sequences.
- Memory management is modelled only as capacity. `talloc_memdup` and `MP_TARRAY_GROW`
  become a fresh array of twice the length once the buffer is full. Allocation failure
  and the exact growth policy are not modelled.
- ChmapSel.Selector.AddSpeaker: an id out of range is a failed `assert` in the source;
  the model makes it a precondition.
- ChmapSel.Selector.TestSpeakers: the source indexes the whitelist by the map's
  speakers unchecked and relies on test_layout having checked validity first; the model
  states that as the precondition `KnownSpeakers(m)`.
