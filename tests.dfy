/** The scenarios of the selector's unit tests (tests/all.c), stated on the
    model: each one builds a zero-initialised selector, stores maps through
    AddMap and asks Fallback, or applies the model's functions to named
    layouts. */
module ChmapSelTests {
  import opened Wrappers
  import opened Chmap
  import opened Selection
  import opened ChmapSel

  // Named layouts, as the layout strings of the tests denote them.
  const Layout21: Chmap := [FL, FR, LFE]
  const Layout31: Chmap := [FL, FR, FC, LFE]
  const Layout51: Chmap := [FL, FR, FC, LFE, BL, BR]
  const Layout61Back: Chmap := [FL, FR, FC, LFE, BL, BR, BC]
  const Layout71: Chmap := [FL, FR, FC, LFE, BL, BR, SL, SR]
  const Layout71Rear: Chmap := [FL, FR, FC, LFE, BL, BR, SDL, SDR]
  /** Two placeholder speakers: a stereo layout of unknown order. */
  const UnknownPair: Chmap := [Unknown0, Unknown0 + 1]

  /** One step of the difference: the first speaker is kept exactly when the
      second map lacks it. */
  lemma DiffStep(x: int, a: Chmap, b: Chmap)
    requires |a| < MaxChannels
    ensures Diff([x] + a, b) == (if x in b then [] else [x]) + Diff(a, b)
  {
    assert ([x] + a)[1..] == a;
  }

  /** The difference keeps the speakers of the first map the second lacks,
      in the order of the first: 3.1 minus 2.1 is the centre speaker. */
  lemma DiffScenarioCentre()
    ensures Diff(Layout31, Layout21) == [FC]
  {
    DiffStep(LFE, [], Layout21);
    DiffStep(FC, [LFE], Layout21);
    DiffStep(FR, [FC, LFE], Layout21);
    DiffStep(FL, [FR, FC, LFE], Layout21);
    assert Layout31 == [FL] + [FR, FC, LFE];
  }

  /** 6.1(back) has every speaker of 3.1. */
  lemma DiffScenarioNone()
    ensures Diff(Layout31, Layout61Back) == []
  {
    DiffStep(LFE, [], Layout61Back);
    DiffStep(FC, [LFE], Layout61Back);
    DiffStep(FR, [FC, LFE], Layout61Back);
    DiffStep(FL, [FR, FC, LFE], Layout61Back);
    assert Layout31 == [FL] + [FR, FC, LFE];
  }

  /** The back speakers and LFE, minus 3.1: LFE goes, the back speakers
      stay. */
  lemma DiffBackSpeakers()
    ensures Diff([LFE, BL, BR, BC], Layout31) == [BL, BR, BC]
  {
    DiffStep(BC, [], Layout31);
    DiffStep(BR, [BC], Layout31);
    DiffStep(BL, [BR, BC], Layout31);
    DiffStep(LFE, [BL, BR, BC], Layout31);
  }

  /** 6.1(back) minus 3.1 is the three back speakers, in channel order. */
  lemma DiffScenarioBack()
    ensures Diff(Layout61Back, Layout31) == [BL, BR, BC]
  {
    DiffBackSpeakers();
    DiffStep(FC, [LFE, BL, BR, BC], Layout31);
    DiffStep(FR, [FC, LFE, BL, BR, BC], Layout31);
    DiffStep(FL, [FR, FC, LFE, BL, BR, BC], Layout31);
    assert Layout61Back == [FL] + [FR, FC, LFE, BL, BR, BC];
  }

  /** 3.1 contains 2.1 but not the other way round; mono and stereo are
      unrelated. */
  lemma ContainsScenarios()
    ensures Contains(Layout31, Layout21) && !Contains(Layout21, Layout31)
    ensures !Contains(Mono, Stereo) && !Contains(Stereo, Mono)
  {
    assert Layout31[2] !in Layout21;
    assert Stereo[0] !in Mono;
    assert Mono[0] !in Stereo;
  }

  /** A selector that stores only map a, asked for the fallback of b. */
  method FallbackWithOne(a: Chmap, b: Chmap) returns (ok: bool, res: Chmap)
    ensures ClosestFallback(AddMapTo([], false, a), b) == (if ok then Some(res) else None)
    ensures !ok ==> res == b
  {
    var s := new Selector(false);
    s.AddMap(a);
    ok, res := s.Fallback(b);
  }

  /** With only 7.1 stored, 5.1 is upmixed to 7.1. */
  method UpmixScenario() returns (ok: bool, res: Chmap)
    ensures ok && res == Layout71
  {
    ok, res := FallbackWithOne(Layout71, Layout51);
    assert Contains(Layout71, Layout51);
  }

  /** With only 5.1 stored, 7.1 is downmixed to 5.1. */
  method DownmixScenario() returns (ok: bool, res: Chmap)
    ensures ok && res == Layout51
  {
    ok, res := FallbackWithOne(Layout51, Layout71);
    assert SL !in Layout51;
    assert Contains(Layout71, Layout51);
  }

  /** With only stereo stored, mono has no fallback and is left as it is. */
  method IncompatibleScenario() returns (ok: bool, res: Chmap)
    ensures !ok && res == Mono
  {
    ok, res := FallbackWithOne(Stereo, Mono);
    assert AddMapTo([], false, Stereo) == [Stereo];
    ClosestFallbackChoice([Stereo], Mono);
    assert Stereo[0] !in Mono;
    assert Mono[0] !in Stereo;
  }

  /** With 7.1(rear) stored, 5.1 is upmixed to it. */
  method RearUpmixScenario() returns (ok: bool, res: Chmap)
    ensures ok && res == Layout71Rear
  {
    ok, res := FallbackWithOne(Layout71Rear, Layout51);
    assert Contains(Layout71Rear, Layout51);
  }

  /** A stored map of placeholder speakers is neither an upmix nor a
      downmix of 5.1, so 5.1 is left as it is. */
  method RejectUnknownScenario() returns (ok: bool, res: Chmap)
    ensures !ok && res == Layout51
  {
    ok, res := FallbackWithOne(UnknownPair, Layout51);
    assert AddMapTo([], false, UnknownPair) == [UnknownPair];
    ClosestFallbackChoice([UnknownPair], Layout51);
    assert Layout51[0] !in UnknownPair;
    assert UnknownPair[0] !in Layout51;
  }

  /** 5.1 minus 3.1: the two back speakers. */
  lemma DiffFiveOneOverThreeOne()
    ensures Diff(Layout51, Layout31) == [BL, BR]
  {
    DiffStep(BR, [], Layout31);
    DiffStep(BL, [BR], Layout31);
    DiffStep(LFE, [BL, BR], Layout31);
    DiffStep(FC, [LFE, BL, BR], Layout31);
    DiffStep(FR, [FC, LFE, BL, BR], Layout31);
    DiffStep(FL, [FR, FC, LFE, BL, BR], Layout31);
    assert Layout51 == [FL] + [FR, FC, LFE, BL, BR];
  }

  /** The back and side speakers, minus 3.1: all four stay. */
  lemma DiffSurrounds()
    ensures Diff([BL, BR, SL, SR], Layout31) == [BL, BR, SL, SR]
  {
    DiffStep(SR, [], Layout31);
    DiffStep(SL, [SR], Layout31);
    DiffStep(BR, [SL, SR], Layout31);
    DiffStep(BL, [BR, SL, SR], Layout31);
  }

  /** 7.1 minus 3.1: the back and the side speakers. */
  lemma DiffSevenOneOverThreeOne()
    ensures Diff(Layout71, Layout31) == [BL, BR, SL, SR]
  {
    DiffSurrounds();
    DiffStep(LFE, [BL, BR, SL, SR], Layout31);
    DiffStep(FC, [LFE, BL, BR, SL, SR], Layout31);
    DiffStep(FR, [FC, LFE, BL, BR, SL, SR], Layout31);
    DiffStep(FL, [FR, FC, LFE, BL, BR, SL, SR], Layout31);
    assert Layout71 == [FL] + [FR, FC, LFE, BL, BR, SL, SR];
  }

  /** The maps the closest-upmix test stores, in order. */
  const ClosestUpmixMaps: seq<Chmap> := [Layout71, Layout51, Layout21, Stereo, Mono]

  /** Of 7.1, 5.1, 2.1, stereo and mono, the closest upmix of 3.1 is 5.1:
      7.1 adds four speakers, 5.1 only two, and the rest lack a speaker of
      3.1. */
  lemma ClosestUpmixChoice()
    ensures ClosestFallback(ClosestUpmixMaps, Layout31) == Some(Layout51)
  {
    var maps := ClosestUpmixMaps;
    DiffFiveOneOverThreeOne();
    DiffSevenOneOverThreeOne();
    assert Cost(maps[0], Layout31, true) == 4 && Cost(maps[1], Layout31, true) == 2;
    assert Contains(maps[1], Layout31);
    forall j | 0 <= j < |maps| && Qualifies(maps[j], Layout31, true)
      ensures j < 2
    {
      assert Layout31[2] !in maps[2] && Layout31[2] !in maps[3] && Layout31[0] !in maps[4];
    }
    assert IsFirstCheapest(maps, Layout31, true, 1);
    ClosestFallbackChoice(maps, Layout31);
    var k :| IsFirstCheapest(maps, Layout31, true, k) && ClosestFallback(maps, Layout31) == Some(maps[k]);
    FirstCheapestUnique(maps, Layout31, true, k, 1);
  }

  /** The closest-upmix test on the selector: store the five maps in turn,
      then ask for the fallback of 3.1. */
  method PreferClosestUpmixScenario() returns (ok: bool, res: Chmap)
    ensures ok && res == Layout51
  {
    var maps := ClosestUpmixMaps;
    var s := new Selector(false);
    var i := 0;
    while i < |maps|
      invariant 0 <= i <= |maps|
      invariant fresh(s) && fresh(s.chmaps) && s.Valid()
      invariant s.Abs().chmaps == AddAllTo([], false, maps[..i])
    {
      assert maps[..i + 1][..i] == maps[..i];
      s.AddMap(maps[i]);
      i := i + 1;
    }
    assert maps[..i] == maps;
    AddAllBelowCapacity([], maps);
    ValidOnlyKeepsValid(maps);
    assert s.Abs().chmaps == maps;
    ok, res := s.Fallback(Layout31);
    ClosestUpmixChoice();
  }
}
