/** Two device classes of philips.py as configurations of the fan model:
    PhilipsAC1214 (with its own command methods) and PhilipsAC2729 (with the
    base class's commands).

    The PhilipsApi keys and the PresetMode names are constants of const.py,
    which is not part of this model: the strings below stand in for them, and
    all that the proofs use is that they differ from each other. The mode and
    speed values ("P", "A", "M", "2", ...) are the ones the device tables
    list. */
module PhilipsModels {
  import opened Values
  import opened Dicts
  import opened Philips

  // Stand-ins for PhilipsApi.POWER, PhilipsApi.MODE and PhilipsApi.SPEED.
  const POWER: string := "pwr"
  const MODE: string := "mode"
  const SPEED: string := "speed"

  // Stand-ins for the PresetMode names.
  const AUTO: string := "auto"
  const ALLERGEN: string := "allergen"
  const NIGHT: string := "night"
  const SPEED_1: string := "speed 1"
  const SPEED_2: string := "speed 2"
  const SPEED_3: string := "speed 3"
  const TURBO: string := "turbo"

  /** The two-key patterns of the AC1214 tables. */
  function Manual(speed: string): Patch
  {
    map[MODE := Str("M"), SPEED := Str(speed)]
  }

  /** The three-key patterns of the AC2729 tables. */
  function Powered(mode: string, speed: string): Patch
  {
    map[POWER := Str("1"), MODE := Str(mode), SPEED := Str(speed)]
  }

  /** AVAILABLE_PRESET_MODES of PhilipsAC1214. */
  function AC1214Presets(): Table
  {
    [ (AUTO, map[MODE := Str("P")]),
      (ALLERGEN, map[MODE := Str("A")]),
      (NIGHT, map[MODE := Str("N")]),
      (SPEED_1, Manual("1")),
      (SPEED_2, Manual("2")),
      (SPEED_3, Manual("3")),
      (TURBO, Manual("t")) ]
  }

  /** AVAILABLE_SPEEDS of PhilipsAC1214. */
  function AC1214Speeds(): Table
  {
    [ (NIGHT, map[MODE := Str("N")]),
      (SPEED_1, Manual("1")),
      (SPEED_2, Manual("2")),
      (SPEED_3, Manual("3")),
      (TURBO, Manual("t")) ]
  }

  /** AVAILABLE_PRESET_MODES of PhilipsAC2729. */
  function AC2729Presets(): Table
  {
    [ (AUTO, map[POWER := Str("1"), MODE := Str("P")]),
      (ALLERGEN, map[POWER := Str("1"), MODE := Str("A")]),
      (NIGHT, Powered("S", "s")),
      (SPEED_1, Powered("M", "1")),
      (SPEED_2, Powered("M", "2")),
      (SPEED_3, Powered("M", "3")),
      (TURBO, Powered("M", "t")) ]
  }

  /** AVAILABLE_SPEEDS of PhilipsAC2729. */
  function AC2729Speeds(): Table
  {
    [ (NIGHT, Powered("S", "s")),
      (SPEED_1, Powered("M", "1")),
      (SPEED_2, Powered("M", "2")),
      (SPEED_3, Powered("M", "3")),
      (TURBO, Powered("M", "t")) ]
  }

  /** The classes of the chain that define none of the collected attributes
      (object, the Home Assistant entity classes, PhilipsEntity,
      PhilipsGenericFan) add nothing and are left out. PhilipsGenericCoAPFanBase
      has empty tables, PhilipsGenericCoAPFan adds the generic attribute list
      `generic`, and PhilipsAC1214 its own tables; it inherits
      AVAILABLE_ATTRIBUTES, so `generic` is collected a second time. */
  function AC1214Chain(generic: seq<Attribute>): seq<Layer>
  {
    [Layer([], [], []), Layer([], [], generic), Layer(AC1214Presets(), AC1214Speeds(), generic)]
  }

  /** For PhilipsAC2729, PhilipsHumidifierMixin comes between
      PhilipsGenericCoAPFan and the device class; it defines none of the
      tables, so it yields the base class's empty ones. */
  function AC2729Chain(generic: seq<Attribute>): seq<Layer>
  {
    [ Layer([], [], []), Layer([], [], generic), Layer([], [], []),
      Layer(AC2729Presets(), AC2729Speeds(), generic) ]
  }

  /** The class constants of PhilipsAC1214: the base class's power key and
      states, no oscillation, no replacement keys, and its own command
      methods (PhilipsApi.POWER_MAP[SWITCH_ON] stands in as "1"). */
  function AC1214Constants(): Constants
  {
    Constants(None, None, POWER, Str("1"), Str("0"), None, AC1214(POWER, Str("1"), MODE, ALLERGEN))
  }

  function AC2729Constants(): Constants
  {
    Constants(None, None, POWER, Str("1"), Str("0"), None, Generic)
  }

  lemma AC1214PresetsWellFormed()
    ensures Keys(AC1214Presets()) == [AUTO, ALLERGEN, NIGHT, SPEED_1, SPEED_2, SPEED_3, TURBO]
    ensures WellFormed(AC1214Presets())
  {
  }

  lemma AC1214SpeedsWellFormed()
    ensures Keys(AC1214Speeds()) == [NIGHT, SPEED_1, SPEED_2, SPEED_3, TURBO]
    ensures WellFormed(AC1214Speeds())
  {
  }

  lemma AC2729PresetsWellFormed()
    ensures Keys(AC2729Presets()) == [AUTO, ALLERGEN, NIGHT, SPEED_1, SPEED_2, SPEED_3, TURBO]
    ensures WellFormed(AC2729Presets())
  {
  }

  lemma AC2729SpeedsWellFormed()
    ensures Keys(AC2729Speeds()) == [NIGHT, SPEED_1, SPEED_2, SPEED_3, TURBO]
    ensures WellFormed(AC2729Speeds())
  {
  }

  /** The chain merge when every class before the device class has empty
      tables: the device class's table, in its own order. */
  lemma {:induction false} MergeOwnTable(tables: seq<Table>)
    requires tables != [] && WellFormed(tables[|tables| - 1])
    requires forall i :: 0 <= i < |tables| - 1 ==> tables[i] == []
    ensures MergeLayers(tables) == tables[|tables| - 1]
  {
    var front := tables[..|tables| - 1];
    MergeEmpty(front);
    UpdateFresh([], tables[|tables| - 1]);
  }

  lemma {:induction false} MergeEmpty(tables: seq<Table>)
    requires forall i :: 0 <= i < |tables| ==> tables[i] == []
    ensures MergeLayers(tables) == []
  {
    if tables != [] {
      MergeEmpty(tables[..|tables| - 1]);
    }
  }

  /** The chains collect the generic attributes twice (the base class
      contributes none). */
  lemma ChainsListGenericTwice(generic: seq<Attribute>)
    ensures ChainAttributes(AC1214Chain(generic)) == generic + generic
    ensures ChainAttributes(AC2729Chain(generic)) == generic + generic
  {
    var base, mid := Layer([], [], []), Layer([], [], generic);
    assert ChainAttributes([base]) == [] by {
      assert [base][..0] == [];
    }
    assert ChainAttributes([base, mid]) == generic by {
      assert [base, mid][..1] == [base];
    }
    assert AC1214Chain(generic)[..2] == [base, mid];
    assert ChainAttributes([base, mid, base]) == generic by {
      assert [base, mid, base][..2] == [base, mid];
    }
    assert AC2729Chain(generic)[..3] == [base, mid, base];
  }

  lemma AC1214PresetsMerged(generic: seq<Attribute>)
    ensures MergeLayers(PresetTables(AC1214Chain(generic))) == AC1214Presets()
  {
    AC1214PresetsWellFormed();
    MergeOwnTable(PresetTables(AC1214Chain(generic)));
  }

  lemma AC1214SpeedsMerged(generic: seq<Attribute>)
    ensures MergeLayers(SpeedTables(AC1214Chain(generic))) == AC1214Speeds()
  {
    AC1214SpeedsWellFormed();
    MergeOwnTable(SpeedTables(AC1214Chain(generic)));
  }

  lemma AC2729PresetsMerged(generic: seq<Attribute>)
    ensures MergeLayers(PresetTables(AC2729Chain(generic))) == AC2729Presets()
  {
    AC2729PresetsWellFormed();
    MergeOwnTable(PresetTables(AC2729Chain(generic)));
  }

  lemma AC2729SpeedsMerged(generic: seq<Attribute>)
    ensures MergeLayers(SpeedTables(AC2729Chain(generic))) == AC2729Speeds()
  {
    AC2729SpeedsWellFormed();
    MergeOwnTable(SpeedTables(AC2729Chain(generic)));
  }

  /** The configuration the fan of an AC1214 collects. */
  function AC1214Config(generic: seq<Attribute>): (cfg: FanConfig)
    ensures ValidConfig(cfg)
  {
    AC1214PresetsWellFormed();
    AC1214SpeedsWellFormed();
    FanConfig(AC1214Presets(), Keys(AC1214Presets()), AC1214Speeds(), Keys(AC1214Speeds()),
              generic + generic, AC1214Constants())
  }

  /** The configuration the fan of an AC2729 collects. */
  function AC2729Config(generic: seq<Attribute>): (cfg: FanConfig)
    ensures ValidConfig(cfg)
  {
    AC2729PresetsWellFormed();
    AC2729SpeedsWellFormed();
    FanConfig(AC2729Presets(), Keys(AC2729Presets()), AC2729Speeds(), Keys(AC2729Speeds()),
              generic + generic, AC2729Constants())
  }

  /** The fan of an AC1214: its tables are its own (the base class's are
      empty), in their own order, and the generic attributes are listed
      twice. */
  method BuildAC1214(coordinator: Coordination.Coordinator, generic: seq<Attribute>) returns (fan: Fan)
    ensures fan.cfg == AC1214Config(generic) && fan.coordinator == coordinator && fan.writes == []
  {
    AC1214PresetsMerged(generic);
    AC1214SpeedsMerged(generic);
    ChainsListGenericTwice(generic);
    fan := new Fan(AC1214Chain(generic), AC1214Constants(), coordinator);
  }

  /** The fan of an AC2729: likewise, through the humidifier mixin. */
  method BuildAC2729(coordinator: Coordination.Coordinator, generic: seq<Attribute>) returns (fan: Fan)
    ensures fan.cfg == AC2729Config(generic) && fan.coordinator == coordinator && fan.writes == []
  {
    AC2729PresetsMerged(generic);
    AC2729SpeedsMerged(generic);
    ChainsListGenericTwice(generic);
    fan := new Fan(AC2729Chain(generic), AC2729Constants(), coordinator);
  }

  /** A pattern with a key whose status value differs does not match. */
  lemma Mismatch(p: Patch, s: Status, k: string)
    requires k in p && Lookup(s, k) != Some(p[k])
    ensures !Matches(p, None, s)
  {
    assert ReplaceKey(None, k) == k;
  }

  /** The AC1214 entries the command lemmas look up. */
  lemma AC1214PresetEntries()
    ensures Get(AC1214Presets(), AUTO) == Some(map[MODE := Str("P")])
    ensures Get(AC1214Presets(), ALLERGEN) == Some(map[MODE := Str("A")])
    ensures Get(AC1214Presets(), SPEED_1) == Some(Manual("1"))
    ensures Get(AC1214Presets(), SPEED_2) == Some(Manual("2"))
  {
    var t := AC1214Presets();
    AC1214PresetsWellFormed();
    GetEntry(t, 0);
    GetEntry(t, 1);
    GetEntry(t, 3);
    GetEntry(t, 4);
  }

  /** The first-match scan passes over an entry that does not match. */
  lemma SkipEntry(t: Table, s: Status, i: nat)
    requires i < |t| && !Matches(t[i].1, None, s)
    ensures FirstMatchFrom(t, None, s, i) == FirstMatchFrom(t, None, s, i + 1)
  {
  }

  /** Any status in manual mode at speed 2 reads as the SPEED_2 preset: the
      patterns of Auto, Allergen and Night differ in the mode, the one of
      speed 1 in the speed. */
  lemma AC1214ReadsSpeed2(generic: seq<Attribute>, s: Status)
    requires Lookup(s, MODE) == Some(Str("M")) && Lookup(s, SPEED) == Some(Str("2"))
    ensures PresetMode(AC1214Config(generic), s) == Some(SPEED_2)
  {
    var t := AC1214Presets();
    Mismatch(t[0].1, s, MODE);
    Mismatch(t[1].1, s, MODE);
    Mismatch(t[2].1, s, MODE);
    Mismatch(t[3].1, s, SPEED);
    assert Matches(t[4].1, None, s);
    SkipEntry(t, s, 0);
    SkipEntry(t, s, 1);
    SkipEntry(t, s, 2);
    SkipEntry(t, s, 3);
  }

  /** Any status in Auto mode reads as the Auto preset. */
  lemma AC1214ReadsAuto(generic: seq<Attribute>, s: Status)
    requires Lookup(s, MODE) == Some(Str("P"))
    ensures PresetMode(AC1214Config(generic), s) == Some(AUTO)
  {
    assert Matches(AC1214Presets()[0].1, None, s);
  }

  /** The Allergen entry an AC1214 moves through. */
  lemma AC1214AllergenEntry(generic: seq<Attribute>)
    ensures var cfg := AC1214Config(generic);
            Get(cfg.presets, cfg.consts.variant.allergen) == Some(map[MODE := Str("A")])
  {
    AC1214PresetEntries();
  }

  /** The move of an AC1214 command to a manual pattern from a manual
      pattern writes the target alone. */
  lemma AC1214MoveDirect(generic: seq<Attribute>, cur: Patch, target: Patch)
    requires |target| > 0 && Lookup(target, MODE) == Some(Str("M"))
    requires Lookup(cur, MODE) == Some(Str("M"))
    ensures AC1214Switch(AC1214Config(generic), Some(cur), Some(target)) ==
              ([SetControlValues(target)], None)
  {
    var cfg := AC1214Config(generic);
    assert cfg.consts.variant.modeKey == MODE;
    assert [] + [SetControlValues(target)] == [SetControlValues(target)];
  }

  /** From Auto, an AC1214 that is on goes to speed 1 through Allergen: two
      multi-key writes and no power-on. */
  lemma AC1214AutoToSpeed1(generic: seq<Attribute>, s: Status)
    requires Lookup(s, POWER) == Some(Str("1")) && Lookup(s, MODE) == Some(Str("P"))
    ensures AC1214SetPresetMode(AC1214Config(generic), s, SPEED_1) ==
              Effect(s, [SetControlValues(map[MODE := Str("A")]), SetControlValues(Manual("1"))], None)
  {
    var cfg := AC1214Config(generic);
    var cur, target := map[MODE := Str("P")], Manual("1");
    AC1214AutoPattern(generic, s);
    AC1214PresetEntries();
    AC1214AutoToManual(generic, "1");
    AC1214PresetToPreset(cfg, s, SPEED_1, cur, target,
                         [SetControlValues(map[MODE := Str("A")]), SetControlValues(target)], None);
  }

  /** The AC1214 move from the Auto pattern to a manual one. */
  lemma AC1214AutoToManual(generic: seq<Attribute>, speed: string)
    ensures AC1214Switch(AC1214Config(generic), Some(map[MODE := Str("P")]), Some(Manual(speed))) ==
              ([SetControlValues(map[MODE := Str("A")]), SetControlValues(Manual(speed))], None)
  {
    var cfg := AC1214Config(generic);
    AC1214AllergenEntry(generic);
    assert cfg.consts.variant.modeKey == MODE;
    AC1214MoveViaAllergen(cfg, map[MODE := Str("P")], Manual(speed), map[MODE := Str("A")]);
  }

  /** A status in Auto mode has the Auto pattern as its current pattern. */
  lemma AC1214AutoPattern(generic: seq<Attribute>, s: Status)
    requires Lookup(s, MODE) == Some(Str("P"))
    ensures CurrentPattern(AC1214Config(generic), s) == Some(map[MODE := Str("P")])
  {
    AC1214ReadsAuto(generic, s);
    AC1214PresetEntries();
  }

  /** From speed 2, an AC1214 that is on goes straight to speed 1: the
      current mode is "M", so it does not pass through Allergen. */
  lemma AC1214Speed2ToSpeed1(generic: seq<Attribute>, s: Status)
    requires Lookup(s, POWER) == Some(Str("1"))
    requires Lookup(s, MODE) == Some(Str("M")) && Lookup(s, SPEED) == Some(Str("2"))
    ensures AC1214SetPresetMode(AC1214Config(generic), s, SPEED_1) ==
              Effect(s, [SetControlValues(Manual("1"))], None)
  {
    var cfg := AC1214Config(generic);
    var cur, target := Manual("2"), Manual("1");
    AC1214Speed2Pattern(generic, s);
    AC1214PresetEntries();
    ManualPattern("2");
    ManualPattern("1");
    AC1214MoveDirect(generic, cur, target);
    AC1214PoweredIsOn(generic, s);
    AC1214PresetToPreset(cfg, s, SPEED_1, cur, target, [SetControlValues(target)], None);
  }

  /** A manual pattern is non-empty and sets mode "M". */
  lemma ManualPattern(speed: string)
    ensures |Manual(speed)| > 0 && Lookup(Manual(speed), MODE) == Some(Str("M"))
  {
  }

  /** An AC1214 whose power key holds "1" reads as on. */
  lemma AC1214PoweredIsOn(generic: seq<Attribute>, s: Status)
    requires Lookup(s, POWER) == Some(Str("1"))
    ensures IsOn(AC1214Config(generic), s)
  {
  }

  /** A status in manual mode at speed 2 has the SPEED_2 pattern as its
      current pattern. */
  lemma AC1214Speed2Pattern(generic: seq<Attribute>, s: Status)
    requires Lookup(s, MODE) == Some(Str("M")) && Lookup(s, SPEED) == Some(Str("2"))
    ensures CurrentPattern(AC1214Config(generic), s) == Some(Manual("2"))
  {
    AC1214ReadsSpeed2(generic, s);
    AC1214PresetEntries();
  }

  /** When an AC1214 is off and its status has no mode, no preset matches:
      asking for a manual speed writes power-on and then fails reading the
      current mode. */
  lemma AC1214UnknownStateRaises(generic: seq<Attribute>, s: Status)
    requires Lookup(s, POWER) != Some(Str("1")) && MODE !in s
    ensures AC1214SetPresetMode(AC1214Config(generic), s, SPEED_1) ==
              Effect(s, [SetControlValue(POWER, Str("1"))], Some(AttributeError))
  {
    var cfg := AC1214Config(generic);
    AC1214NoModeNoPreset(generic, s);
    AC1214PresetEntries();
    ManualPattern("1");
    AC1214UnpoweredIsOff(generic, s);
    AC1214RaisesUnread(cfg, s, SPEED_1, Manual("1"));
  }

  /** An AC1214 whose power key does not hold "1" reads as off. */
  lemma AC1214UnpoweredIsOff(generic: seq<Attribute>, s: Status)
    requires Lookup(s, POWER) != Some(Str("1"))
    ensures !IsOn(AC1214Config(generic), s)
  {
  }

  /** Every AC1214 preset sets the mode, so a status without one matches none. */
  lemma AC1214NoModeNoPreset(generic: seq<Attribute>, s: Status)
    requires MODE !in s
    ensures PresetMode(AC1214Config(generic), s).None?
  {
    var t := AC1214Presets();
    forall i | 0 <= i < |t| ensures !Matches(t[i].1, None, s) {
      Mismatch(t[i].1, s, MODE);
    }
  }

  /** Any AC2729 status that is on in manual mode at speed 2 reads as the
      SPEED_2 preset: each earlier pattern differs from it in the mode or in
      the speed. */
  lemma AC2729ReadsSpeed2(generic: seq<Attribute>, s: Status)
    requires Lookup(s, POWER) == Some(Str("1"))
    requires Lookup(s, MODE) == Some(Str("M")) && Lookup(s, SPEED) == Some(Str("2"))
    ensures PresetMode(AC2729Config(generic), s) == Some(SPEED_2)
  {
    var t := AC2729Presets();
    Mismatch(t[0].1, s, MODE);
    Mismatch(t[1].1, s, MODE);
    Mismatch(t[2].1, s, MODE);
    Mismatch(t[3].1, s, SPEED);
    assert Matches(t[4].1, None, s);
    SkipEntry(t, s, 0);
    SkipEntry(t, s, 1);
    SkipEntry(t, s, 2);
    SkipEntry(t, s, 3);
  }

  /** On an AC2729, setting the SPEED_2 preset from any status writes its
      pattern and makes the status read as on and as that preset. */
  lemma AC2729SetThenRead(generic: seq<Attribute>, s: Status)
    ensures var e := GenericSetPresetMode(AC2729Config(generic), s, SPEED_2);
            e.writes == [SetControlValues(Powered("M", "2"))] &&
            PresetMode(AC2729Config(generic), e.status) == Some(SPEED_2) &&
            IsOn(AC2729Config(generic), e.status)
  {
    var cfg := AC2729Config(generic);
    AC2729Speed2Entry();
    var e := GenericSetPresetMode(cfg, s, SPEED_2);
    PoweredOverwrites(s, "M", "2");
    AC2729ReadsSpeed2(generic, e.status);
  }

  /** The pattern of the AC2729's SPEED_2 preset. */
  lemma AC2729Speed2Entry()
    ensures Get(AC2729Presets(), SPEED_2) == Some(Powered("M", "2"))
  {
    AC2729PresetsWellFormed();
    GetEntry(AC2729Presets(), 4);
  }

  /** Writing a three-key pattern sets those three keys of the status. */
  lemma PoweredOverwrites(s: Status, mode: string, speed: string)
    ensures Lookup(s + Powered(mode, speed), POWER) == Some(Str("1"))
    ensures Lookup(s + Powered(mode, speed), MODE) == Some(Str(mode))
    ensures Lookup(s + Powered(mode, speed), SPEED) == Some(Str(speed))
  {
  }
}
