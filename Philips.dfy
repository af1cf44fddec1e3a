/** The fan entity of philips.py: capability tables collected along the class
    chain, the state read back from the device status by matching those
    tables, and the commands that change it.

    The read-only properties are functions of the configuration and the
    status. Each command is given twice: as a function that returns its
    `Effect` (the new local status, the client calls in order, and the
    exception raised, if any), and as a method of `Fan` that performs it step
    by step on the coordinator's status and the log of client calls. */
module Philips {
  import opened Values
  import opened Sequences
  import opened Dicts
  import opened Coordination

  /** A value map of an attribute: none, a dict, or a callable (kept opaque
      and interpreted by a parameter `apply`). */
  datatype ValueMap = NoMap | DictMap(entries: map<Value, Mapped>) | Callable(name: string)

  /** What a dict value map maps to: a plain value or a tuple (whose first
      element is used). */
  datatype Mapped = Plain(v: Value) | Tuple(first: Value, rest: seq<Value>)
  {
    /** The value `append` keeps: a plain value, or a tuple's first element. */
    function Head(): Value
    {
      match this
      case Plain(v) => v
      case Tuple(first, _) => first
    }
  }

  /** One entry `(key, philips_key[, value_map])` of AVAILABLE_ATTRIBUTES. */
  datatype Attribute = Attribute(key: string, philipsKey: string, valueMap: ValueMap)

  /** A table of named patches: AVAILABLE_PRESET_MODES or AVAILABLE_SPEEDS. */
  type Table = Dict<string, Patch>

  /** What one class of the chain yields for `getattr(cls, "AVAILABLE_...",
      default)`: its own table, the one it inherits, or the default. */
  datatype Layer = Layer(presets: Table, speeds: Table, attributes: seq<Attribute>)

  /** KEY_OSCILLATION `{key: {SWITCH_ON: on, SWITCH_OFF: off}}`. */
  datatype Oscillation = Oscillation(key: string, on: Value, off: Value)

  /** Which class's command methods apply: the generic ones of
      PhilipsGenericCoAPFanBase, or the overrides of PhilipsAC1214 together
      with the constants they use (PhilipsApi.POWER, POWER_MAP[SWITCH_ON],
      PhilipsApi.MODE and PresetMode.ALLERGEN). */
  datatype Variant =
    | Generic
    | AC1214(powerKey: string, powerOn: Value, modeKey: string, allergen: string)

  /** The class constants that ordinary attribute lookup resolves. */
  datatype Constants = Constants(
    replacePreset: Option<(string, string)>,
    replaceSpeed: Option<(string, string)>,
    powerKey: string,
    powerOn: Value,
    powerOff: Value,
    oscillation: Option<Oscillation>,
    variant: Variant)

  /** What the fan's `__init__` collects, with the class constants. */
  datatype FanConfig = FanConfig(
    presets: Table,
    presetModes: seq<string>,
    speeds: Table,
    speedNames: seq<string>,
    attributes: seq<Attribute>,
    consts: Constants)

  /** The feature flags of FanEntityFeature that the fan can report. */
  datatype Feature = PresetModeFeature | SetSpeedFeature | OscillateFeature

  datatype Icon = PowerButton | FanSpeedButton | PresetIcon(name: string)

  /** The outcome of a command: the local status afterwards, the client
      calls made, in order, and the exception that ended it, if any. */
  datatype Effect = Effect(status: Status, writes: seq<Command>, error: Option<Error>)

  /** What `extra_state_attributes` yields: the attribute dict, or the
      exception that escaped its loop. */
  datatype Reported = Reported(values: map<string, Value>) | Raised(error: Error)

  /** The tables are dicts, their name lists are their keys, the power
      states differ, and the AC1214 table has the Allergen preset that its
      commands look up. */
  predicate ValidConfig(cfg: FanConfig)
  {
    && WellFormed(cfg.presets) && cfg.presetModes == Keys(cfg.presets)
    && WellFormed(cfg.speeds) && cfg.speedNames == Keys(cfg.speeds)
    && cfg.consts.powerOn != cfg.consts.powerOff
    && (cfg.consts.variant.AC1214? ==> cfg.consts.variant.allergen in cfg.presetModes)
  }

  // ---------------------------------------------------------------------
  // Collecting the tables along the class chain (base class first)

  function PresetTables(layers: seq<Layer>): seq<Table>
  {
    seq(|layers|, i requires 0 <= i < |layers| => layers[i].presets)
  }

  function SpeedTables(layers: seq<Layer>): seq<Table>
  {
    seq(|layers|, i requires 0 <= i < |layers| => layers[i].speeds)
  }

  /** The base-first concatenation of the layers' attribute lists. */
  function ChainAttributes(layers: seq<Layer>): (r: seq<Attribute>)
    ensures forall i, j :: 0 <= i < |layers| && 0 <= j < |layers[i].attributes| ==> layers[i].attributes[j] in r
    ensures forall x :: x in r ==> exists i :: 0 <= i < |layers| && x in layers[i].attributes
  {
    if layers == [] then []
    else
      var front := layers[..|layers| - 1];
      var r := ChainAttributes(front) + layers[|layers| - 1].attributes;
      assert forall i :: 0 <= i < |front| ==> front[i] == layers[i];
      r
  }

  /** Concatenation along a longer chain extends the shorter one's, with
      every duplicate kept. */
  lemma {:induction false} ChainAttributesAppend(a: seq<Layer>, b: seq<Layer>)
    ensures ChainAttributes(a + b) == ChainAttributes(a) + ChainAttributes(b)
    ensures |ChainAttributes(a + b)| == |ChainAttributes(a)| + |ChainAttributes(b)|
    decreases |b|
  {
    if b == [] {
      assert a + b == a;
    } else {
      var b' := b[..|b| - 1];
      assert (a + b)[..|a + b| - 1] == a + b';
      assert (a + b)[|a + b| - 1] == b[|b| - 1];
      ChainAttributesAppend(a, b');
      AppendAssociative(ChainAttributes(a), ChainAttributes(b'), b[|b| - 1].attributes);
    }
  }

  /** `_collect_available_preset_modes`: fold `update` over the chain, then
      take the keys as the list of preset modes. */
  method CollectPresetModes(layers: seq<Layer>) returns (presets: Table, names: seq<string>)
    ensures presets == MergeLayers(PresetTables(layers)) && names == Keys(presets)
  {
    presets := [];
    var i := 0;
    while i < |layers|
      invariant 0 <= i <= |layers|
      invariant presets == MergeLayers(PresetTables(layers[..i]))
    {
      assert PresetTables(layers[..i + 1])[..i] == PresetTables(layers[..i]);
      presets := Update(presets, layers[i].presets);
      i := i + 1;
    }
    assert layers[..i] == layers;
    names := Keys(presets);
  }

  /** `_collect_available_speeds`. */
  method CollectSpeeds(layers: seq<Layer>) returns (speeds: Table, names: seq<string>)
    ensures speeds == MergeLayers(SpeedTables(layers)) && names == Keys(speeds)
  {
    speeds := [];
    var i := 0;
    while i < |layers|
      invariant 0 <= i <= |layers|
      invariant speeds == MergeLayers(SpeedTables(layers[..i]))
    {
      assert SpeedTables(layers[..i + 1])[..i] == SpeedTables(layers[..i]);
      speeds := Update(speeds, layers[i].speeds);
      i := i + 1;
    }
    assert layers[..i] == layers;
    names := Keys(speeds);
  }

  /** `_collect_available_attributes`: `extend` with each layer's list. */
  method CollectAttributes(layers: seq<Layer>) returns (attributes: seq<Attribute>)
    ensures attributes == ChainAttributes(layers)
  {
    attributes := [];
    var i := 0;
    while i < |layers|
      invariant 0 <= i <= |layers|
      invariant attributes == ChainAttributes(layers[..i])
    {
      assert layers[..i + 1][..i] == layers[..i];
      attributes := attributes + layers[i].attributes;
      i := i + 1;
    }
    assert layers[..i] == layers;
  }

  /** The collected preset table has every key of every layer, each with
      the value of the most derived layer that defines it, and its list of
      mode names has no duplicate. */
  lemma CollectedPresets(layers: seq<Layer>)
    requires forall i :: 0 <= i < |layers| ==> WellFormed(layers[i].presets)
    ensures Distinct(Keys(MergeLayers(PresetTables(layers))))
    ensures forall m :: m in Keys(MergeLayers(PresetTables(layers))) <==>
              exists i :: 0 <= i < |layers| && m in Keys(layers[i].presets)
    ensures forall m :: Get(MergeLayers(PresetTables(layers)), m) == LastDefinition(PresetTables(layers), m)
  {
    var tables := PresetTables(layers);
    assert AllWellFormed(tables);
    MergeLayersSpec(tables);
    forall m ensures DefinedIn(tables, m) <==> exists i :: 0 <= i < |layers| && m in Keys(layers[i].presets) {
      if DefinedIn(tables, m) {
        var i :| 0 <= i < |tables| && m in Keys(tables[i]);
        assert m in Keys(layers[i].presets);
      }
      if exists i :: 0 <= i < |layers| && m in Keys(layers[i].presets) {
        var i :| 0 <= i < |layers| && m in Keys(layers[i].presets);
        assert tables[i] == layers[i].presets;
      }
    }
  }

  // ---------------------------------------------------------------------
  // Reading the state from the status

  /** `is_on`: the power key holds the "on" state. */
  predicate IsOn(cfg: FanConfig, s: Status): (r: bool)
    ensures r <==> cfg.consts.powerKey in s && s[cfg.consts.powerKey] == cfg.consts.powerOn
  {
    Lookup(s, cfg.consts.powerKey) == Some(cfg.consts.powerOn)
  }

  /** REPLACE_PRESET / REPLACE_SPEED: a pattern key read from another status
      key. */
  function ReplaceKey(replace: Option<(string, string)>, k: string): string
  {
    if replace.Some? && k == replace.value.0 then replace.value.1 else k
  }

  /** Every (k, v) of the pattern equals `status.get(k)`, after replacement. */
  predicate Matches(p: Patch, replace: Option<(string, string)>, s: Status)
  {
    forall k :: k in p ==> Lookup(s, ReplaceKey(replace, k)) == Some(p[k])
  }

  /** The scan of `preset_mode` and `percentage` from position `from` on:
      the first entry whose pattern matches the status. */
  function FirstMatchFrom(table: Table, replace: Option<(string, string)>, s: Status, from: nat): (r: Option<nat>)
    requires from <= |table|
    ensures r.Some? ==> from <= r.value < |table| && Matches(table[r.value].1, replace, s)
    ensures r.Some? ==> forall j :: from <= j < r.value ==> !Matches(table[j].1, replace, s)
    ensures r.None? <==> forall j :: from <= j < |table| ==> !Matches(table[j].1, replace, s)
    decreases |table| - from
  {
    if from == |table| then None
    else if Matches(table[from].1, replace, s) then Some(from)
    else FirstMatchFrom(table, replace, s, from + 1)
  }

  /** `preset_mode`: the first preset, in table order, whose pattern matches
      the status; None when none does. */
  function PresetMode(cfg: FanConfig, s: Status): (r: Option<string>)
    ensures r.None? <==> forall i :: 0 <= i < |cfg.presets| ==> !Matches(cfg.presets[i].1, cfg.consts.replacePreset, s)
    ensures r.Some? ==> exists i :: 0 <= i < |cfg.presets| && cfg.presets[i].0 == r.value &&
                          Matches(cfg.presets[i].1, cfg.consts.replacePreset, s) &&
                          forall j :: 0 <= j < i ==> !Matches(cfg.presets[j].1, cfg.consts.replacePreset, s)
  {
    match FirstMatchFrom(cfg.presets, cfg.consts.replacePreset, s, 0)
    case None => None
    case Some(i) => Some(cfg.presets[i].0)
  }

  /** `percentage`: the first speed whose pattern matches, converted by
      `ordered_list_item_to_percentage` (the parameter `toPercentage`);
      None when no speed matches. */
  function Percentage(cfg: FanConfig, s: Status, toPercentage: (seq<string>, string) -> int): (r: Option<int>)
    ensures r.None? <==> forall i :: 0 <= i < |cfg.speeds| ==> !Matches(cfg.speeds[i].1, cfg.consts.replaceSpeed, s)
    ensures r.Some? ==> exists i :: 0 <= i < |cfg.speeds| &&
                          r.value == toPercentage(cfg.speedNames, cfg.speeds[i].0) &&
                          Matches(cfg.speeds[i].1, cfg.consts.replaceSpeed, s) &&
                          forall j :: 0 <= j < i ==> !Matches(cfg.speeds[j].1, cfg.consts.replaceSpeed, s)
  {
    match FirstMatchFrom(cfg.speeds, cfg.consts.replaceSpeed, s, 0)
    case None => None
    case Some(i) => Some(toPercentage(cfg.speedNames, cfg.speeds[i].0))
  }

  /** `oscillating`: None without KEY_OSCILLATION or when its key is not in
      the status; equality with an integer ON value, membership in a list
      ON value; None for an ON value of any other type. */
  function Oscillating(cfg: FanConfig, s: Status): (r: Option<bool>)
    ensures cfg.consts.oscillation.None? ==> r.None?
    ensures cfg.consts.oscillation.Some? && cfg.consts.oscillation.value.key !in s ==> r.None?
    ensures r.Some? ==> cfg.consts.oscillation.Some? && cfg.consts.oscillation.value.key in s
    ensures r.Some? && cfg.consts.oscillation.value.on.Int? ==>
              r.value == (s[cfg.consts.oscillation.value.key] == cfg.consts.oscillation.value.on)
    ensures r.Some? && cfg.consts.oscillation.value.on.List? ==>
              r.value == (s[cfg.consts.oscillation.value.key] in cfg.consts.oscillation.value.on.items)
    ensures cfg.consts.oscillation.Some? && cfg.consts.oscillation.value.key in s ==>
              (r.Some? <==> !cfg.consts.oscillation.value.on.Str?)
  {
    match cfg.consts.oscillation
    case None => None
    case Some(o) =>
      if o.key !in s then None
      else match o.on
        case Int(_) => Some(s[o.key] == o.on)
        case List(items) => Some(s[o.key] in items)
        case Str(_) => None
  }

  /** `supported_features`: preset modes always, speeds when there is a
      speed, oscillation when KEY_OSCILLATION is set. */
  function SupportedFeatures(cfg: FanConfig): (f: set<Feature>)
    ensures PresetModeFeature in f
    ensures SetSpeedFeature in f <==> cfg.speedNames != []
    ensures OscillateFeature in f <==> cfg.consts.oscillation.Some?
  {
    {PresetModeFeature}
      + (if cfg.speedNames != [] then {SetSpeedFeature} else {})
      + (if cfg.consts.oscillation.Some? then {OscillateFeature} else {})
  }

  /** `icon`: the power icon when off, the preset's icon from `iconMap`
      (PresetMode.ICON_MAP) when there is one, the fan-speed icon otherwise. */
  function FanIcon(cfg: FanConfig, s: Status, iconMap: map<string, string>): (r: Icon)
    ensures !IsOn(cfg, s) <==> r == PowerButton
    ensures r.PresetIcon? <==> IsOn(cfg, s) && PresetMode(cfg, s).Some? && PresetMode(cfg, s).value in iconMap
    ensures r.PresetIcon? ==> r.name == iconMap[PresetMode(cfg, s).value]
  {
    if !IsOn(cfg, s) then PowerButton
    else match PresetMode(cfg, s)
      case None => FanSpeedButton
      case Some(m) => if m in iconMap then PresetIcon(iconMap[m]) else FanSpeedButton
  }

  // ---------------------------------------------------------------------
  // Extra state attributes

  /** `philips_key.partition("#")[0]`: the key up to the first '#'. */
  function CleanKey(k: string): (r: string)
    ensures r <= k && '#' !in r
    ensures |r| < |k| ==> k[|r|] == '#'
  {
    if k == "" || k[0] == '#' then ""
    else [k[0]] + CleanKey(k[1..])
  }

  /** The attribute's key is in the status. */
  predicate Present(a: Attribute, s: Status)
  {
    CleanKey(a.philipsKey) in s
  }

  /** The value reported for a status value `raw` that a dict value map can
      test: the mapped value when a dict value map contains it (the first
      element of a tuple), the callable's result for a callable map, and
      `raw` itself when no map applies. */
  function AttributeValue(a: Attribute, raw: Value, s: Status, apply: (string, Value, Status) -> Value): (r: Value)
    ensures (a.valueMap.NoMap? || (a.valueMap.DictMap? && raw !in a.valueMap.entries)) ==> r == raw
    ensures a.valueMap.DictMap? && raw in a.valueMap.entries ==> r == a.valueMap.entries[raw].Head()
    ensures a.valueMap.Callable? ==> r == apply(a.valueMap.name, raw, s)
  {
    match a.valueMap
    case DictMap(entries) => if raw in entries then entries[raw].Head() else raw
    case Callable(name) => apply(name, raw, s)
    case NoMap => raw
  }

  /** `value in value_map` hashes the status value; a list is unhashable, so
      for an attribute with a dict value map the test raises TypeError. */
  predicate Unhashable(a: Attribute, s: Status)
  {
    Present(a, s) && a.valueMap.DictMap? && s[CleanKey(a.philipsKey)].List?
  }

  /** One call of the inner `append`: it raises for an unhashable value, and
      otherwise sets `key` when the status has the attribute's key, and
      nothing else. */
  function Emit(d: map<string, Value>, a: Attribute, s: Status, apply: (string, Value, Status) -> Value): (r: Reported)
    ensures r.Raised? <==> Unhashable(a, s)
    ensures r.Raised? ==> r.error == TypeError
    ensures r.Reported? ==> r.values.Keys == d.Keys + (if Present(a, s) then {a.key} else {})
    ensures r.Reported? ==> forall k :: k in d && k != a.key ==> r.values[k] == d[k]
  {
    var clean := CleanKey(a.philipsKey);
    if clean !in s then Reported(d)
    else if a.valueMap.DictMap? && s[clean].List? then Raised(TypeError)
    else Reported(d[a.key := AttributeValue(a, s[clean], s, apply)])
  }

  /** The loop of `extra_state_attributes`, starting from `d`; the first
      exception ends it. */
  function EmitAll(d: map<string, Value>, attrs: seq<Attribute>, s: Status, apply: (string, Value, Status) -> Value): (r: Reported)
    ensures r.Raised? ==> r.error == TypeError
    ensures r.Reported? ==> d.Keys <= r.values.Keys
    decreases |attrs|
  {
    if attrs == [] then Reported(d)
    else match EmitAll(d, attrs[..|attrs| - 1], s, apply)
      case Raised(e) => Raised(e)
      case Reported(d') => Emit(d', attrs[|attrs| - 1], s, apply)
  }

  /** The rest of the loop after a prefix: nothing after an exception. */
  function Continue(r: Reported, attrs: seq<Attribute>, s: Status, apply: (string, Value, Status) -> Value): Reported
  {
    match r
    case Raised(_) => r
    case Reported(d) => EmitAll(d, attrs, s, apply)
  }

  /** `extra_state_attributes`: it raises TypeError exactly when some
      attribute whose key is in the status has a dict value map and a list
      value. */
  function ExtraStateAttributes(attrs: seq<Attribute>, s: Status, apply: (string, Value, Status) -> Value): (r: Reported)
    ensures r.Raised? <==> exists i :: 0 <= i < |attrs| && Unhashable(attrs[i], s)
    ensures r.Raised? ==> r.error == TypeError
  {
    EmitAllRaises(map[], attrs, s, apply);
    EmitAll(map[], attrs, s, apply)
  }

  /** The loop raises exactly when one of its attributes is unhashable. */
  lemma {:induction false} EmitAllRaises(d: map<string, Value>, attrs: seq<Attribute>, s: Status, apply: (string, Value, Status) -> Value)
    ensures EmitAll(d, attrs, s, apply).Raised? <==> exists i :: 0 <= i < |attrs| && Unhashable(attrs[i], s)
    decreases |attrs|
  {
    if attrs != [] {
      var front := attrs[..|attrs| - 1];
      EmitAllRaises(d, front, s, apply);
      if exists i :: 0 <= i < |front| && Unhashable(front[i], s) {
        var i :| 0 <= i < |front| && Unhashable(front[i], s);
        assert attrs[i] == front[i];
      }
      if exists i :: 0 <= i < |attrs| && Unhashable(attrs[i], s) {
        var i :| 0 <= i < |attrs| && Unhashable(attrs[i], s);
        if i < |front| {
          assert front[i] == attrs[i];
        }
      }
    }
  }

  /** When nothing raises, an attribute is reported exactly when some entry
      with its key names a status key that is present. */
  lemma {:induction false} ExtraKeys(attrs: seq<Attribute>, s: Status, apply: (string, Value, Status) -> Value, k: string)
    ensures var r := ExtraStateAttributes(attrs, s, apply);
            r.Reported? ==> (k in r.values <==> exists i :: 0 <= i < |attrs| && attrs[i].key == k && Present(attrs[i], s))
    decreases |attrs|
  {
    if attrs != [] && ExtraStateAttributes(attrs, s, apply).Reported? {
      var front := attrs[..|attrs| - 1];
      ExtraKeys(front, s, apply, k);
      var d' := EmitAll(map[], front, s, apply).values;
      assert ExtraStateAttributes(attrs, s, apply) == Emit(d', attrs[|attrs| - 1], s, apply);
      if exists i :: 0 <= i < |front| && front[i].key == k && Present(front[i], s) {
        var i :| 0 <= i < |front| && front[i].key == k && Present(front[i], s);
        assert attrs[i] == front[i];
      }
      if exists i :: 0 <= i < |attrs| && attrs[i].key == k && Present(attrs[i], s) {
        var i :| 0 <= i < |attrs| && attrs[i].key == k && Present(attrs[i], s);
        if i < |front| {
          assert front[i] == attrs[i];
        }
      }
    }
  }

  /** When nothing raises, the value reported for a key comes from the last
      entry with that key whose status key is present. */
  lemma {:induction false} ExtraLastWins(attrs: seq<Attribute>, s: Status, apply: (string, Value, Status) -> Value, i: nat)
    requires i < |attrs| && Present(attrs[i], s)
    requires forall j :: i < j < |attrs| && attrs[j].key == attrs[i].key ==> !Present(attrs[j], s)
    ensures var r := ExtraStateAttributes(attrs, s, apply);
            r.Reported? ==>
              && attrs[i].key in r.values
              && r.values[attrs[i].key] == AttributeValue(attrs[i], s[CleanKey(attrs[i].philipsKey)], s, apply)
    decreases |attrs|
  {
    var front := attrs[..|attrs| - 1];
    if i < |attrs| - 1 && ExtraStateAttributes(attrs, s, apply).Reported? {
      forall j | i < j < |front| && front[j].key == front[i].key ensures !Present(front[j], s) {
        assert front[j] == attrs[j];
      }
      ExtraLastWins(front, s, apply, i);
      assert front[i] == attrs[i];
      assert ExtraStateAttributes(front, s, apply).Reported?;
    }
  }

  /** The loop over a concatenation is the loop over the second part,
      continued from the result of the first. */
  lemma {:induction false} EmitAllAppend(d: map<string, Value>, a: seq<Attribute>, b: seq<Attribute>, s: Status, apply: (string, Value, Status) -> Value)
    ensures EmitAll(d, a + b, s, apply) == Continue(EmitAll(d, a, s, apply), b, s, apply)
    decreases |b|
  {
    if b == [] {
      assert a + b == a;
    } else {
      var b' := b[..|b| - 1];
      assert (a + b)[..|a + b| - 1] == a + b';
      assert (a + b)[|a + b| - 1] == b[|b| - 1];
      EmitAllAppend(d, a, b', s, apply);
    }
  }

  /** Running the loop from a non-empty dict raises when it raises from the
      empty one, and otherwise overlays its own result on that dict. */
  lemma {:induction false} EmitAllOnto(d: map<string, Value>, b: seq<Attribute>, s: Status, apply: (string, Value, Status) -> Value)
    ensures EmitAll(d, b, s, apply) ==
              match EmitAll(map[], b, s, apply)
              case Raised(e) => Raised(e)
              case Reported(m) => Reported(d + m)
    decreases |b|
  {
    if b != [] {
      var front, a := b[..|b| - 1], b[|b| - 1];
      EmitAllOnto(d, front, s, apply);
      match EmitAll(map[], front, s, apply)
      case Raised(e) =>
        assert EmitAll(d, front, s, apply) == Raised(e);
      case Reported(m) =>
        assert EmitAll(d, front, s, apply) == Reported(d + m);
        assert EmitAll(d, b, s, apply) == Emit(d + m, a, s, apply);
        assert EmitAll(map[], b, s, apply) == Emit(m, a, s, apply);
        EmitOnto(d, m, a, s, apply);
    }
  }

  /** One step of the loop from an overlaid dict: it raises when the step
      from the smaller dict raises, and otherwise overlays its result. */
  lemma EmitOnto(d: map<string, Value>, m: map<string, Value>, a: Attribute, s: Status, apply: (string, Value, Status) -> Value)
    ensures Emit(d + m, a, s, apply) ==
              match Emit(m, a, s, apply)
              case Raised(e) => Raised(e)
              case Reported(m') => Reported(d + m')
  {
    var clean := CleanKey(a.philipsKey);
    if clean in s && !Unhashable(a, s) {
      var v := AttributeValue(a, s[clean], s, apply);
      assert (d + m)[a.key := v] == d + m[a.key := v];
    }
  }

  /** A chain that lists the same attributes twice (a class that inherits
      AVAILABLE_ATTRIBUTES contributes its parent's list again) reports the
      same outcome as listing them once. */
  lemma ExtraDuplicated(attrs: seq<Attribute>, s: Status, apply: (string, Value, Status) -> Value)
    ensures ExtraStateAttributes(attrs + attrs, s, apply) == ExtraStateAttributes(attrs, s, apply)
  {
    EmitAllAppend(map[], attrs, attrs, s, apply);
    match ExtraStateAttributes(attrs, s, apply)
    case Raised(_) =>
    case Reported(once) =>
      EmitAllOnto(once, attrs, s, apply);
      assert once + once == once;
  }

  // ---------------------------------------------------------------------
  // Commands of PhilipsGenericCoAPFanBase

  /** A pattern is used only when present and non-empty (`if status_pattern:`). */
  predicate Usable(p: Option<Patch>)
  {
    p.Some? && |p.value| > 0
  }

  /** `async_turn_off`: write the "off" state and set it locally. */
  function TurnOffEffect(cfg: FanConfig, s: Status): (e: Effect)
    requires ValidConfig(cfg)
    ensures e.writes == [SetControlValue(cfg.consts.powerKey, cfg.consts.powerOff)] && e.error.None?
    ensures !IsOn(cfg, e.status)
    ensures e.status.Keys == s.Keys + {cfg.consts.powerKey}
    ensures forall k :: k in s && k != cfg.consts.powerKey ==> e.status[k] == s[k]
  {
    Effect(s[cfg.consts.powerKey := cfg.consts.powerOff],
           [SetControlValue(cfg.consts.powerKey, cfg.consts.powerOff)], None)
  }

  /** `async_set_preset_mode`: a known, non-empty pattern is written with one
      multi-key call and overwrites exactly its keys in the local status; an
      unknown or empty one changes nothing. */
  function GenericSetPresetMode(cfg: FanConfig, s: Status, mode: string): (e: Effect)
    ensures e.error.None?
    ensures Usable(Get(cfg.presets, mode)) ==>
              var p := Get(cfg.presets, mode).value;
              && e.writes == [SetControlValues(p)]
              && e.status.Keys == s.Keys + p.Keys
              && (forall k :: k in p ==> e.status[k] == p[k])
              && (forall k :: k in s && k !in p ==> e.status[k] == s[k])
    ensures !Usable(Get(cfg.presets, mode)) ==> e.status == s && e.writes == []
  {
    var pattern := Get(cfg.presets, mode);
    if Usable(pattern) then Effect(s + pattern.value, [SetControlValues(pattern.value)], None)
    else Effect(s, [], None)
  }

  /** With REPLACE_PRESET unset, after setting a known preset the status
      reads back as a preset: that one, or one listed before it whose
      pattern the new status also matches. */
  lemma PresetModeAfterSet(cfg: FanConfig, s: Status, mode: string)
    requires ValidConfig(cfg) && cfg.consts.replacePreset.None?
    requires Usable(Get(cfg.presets, mode))
    ensures var r := PresetMode(cfg, GenericSetPresetMode(cfg, s, mode).status);
            r.Some? && r.value in cfg.presetModes &&
            IndexOf(cfg.presets, r.value).value <= IndexOf(cfg.presets, mode).value
  {
    var i := IndexOf(cfg.presets, mode).value;
    var p := cfg.presets[i].1;
    var s' := s + p;
    assert GenericSetPresetMode(cfg, s, mode).status == s';
    assert Matches(p, None, s');
    var r := FirstMatchFrom(cfg.presets, None, s', 0);
    assert r.Some? && r.value <= i;
    IndexOfEntry(cfg.presets, r.value);
    assert Keys(cfg.presets)[r.value] == cfg.presets[r.value].0;
  }

  /** `async_set_percentage` of the base class: 0 turns the fan off; any
      other value writes the selected speed's pattern but, unlike a preset,
      leaves the local status unchanged. `toItem` is
      `percentage_to_ordered_list_item`. */
  function GenericSetPercentage(cfg: FanConfig, s: Status, percentage: int, toItem: (seq<string>, int) -> string): (e: Effect)
    requires ValidConfig(cfg)
    ensures percentage == 0 ==> e == TurnOffEffect(cfg, s)
    ensures percentage != 0 ==> e.status == s && e.error.None?
    ensures percentage != 0 ==>
              var p := Get(cfg.speeds, toItem(cfg.speedNames, percentage));
              e.writes == if Usable(p) then [SetControlValues(p.value)] else []
  {
    if percentage == 0 then TurnOffEffect(cfg, s)
    else
      var pattern := Get(cfg.speeds, toItem(cfg.speedNames, percentage));
      if Usable(pattern) then Effect(s, [SetControlValues(pattern.value)], None)
      else Effect(s, [], None)
  }

  /** `async_turn_on` of the base class: a preset mode wins over a
      percentage; with neither (or both falsy) it writes the "on" state and
      sets only that key locally, so the fan then reads as on. */
  function GenericTurnOn(cfg: FanConfig, s: Status, percentage: Option<int>, preset: Option<string>,
                         toItem: (seq<string>, int) -> string): (e: Effect)
    requires ValidConfig(cfg)
    ensures preset.Some? && preset.value != "" ==> e == GenericSetPresetMode(cfg, s, preset.value)
    ensures !(preset.Some? && preset.value != "") && percentage.Some? && percentage.value != 0 ==>
              e == GenericSetPercentage(cfg, s, percentage.value, toItem)
    ensures !(preset.Some? && preset.value != "") && !(percentage.Some? && percentage.value != 0) ==>
              && e.writes == [SetControlValue(cfg.consts.powerKey, cfg.consts.powerOn)]
              && e.error.None? && IsOn(cfg, e.status)
              && e.status.Keys == s.Keys + {cfg.consts.powerKey}
              && (forall k :: k in s && k != cfg.consts.powerKey ==> e.status[k] == s[k])
  {
    if preset.Some? && preset.value != "" then GenericSetPresetMode(cfg, s, preset.value)
    else if percentage.Some? && percentage.value != 0 then GenericSetPercentage(cfg, s, percentage.value, toItem)
    else Effect(s[cfg.consts.powerKey := cfg.consts.powerOn],
                [SetControlValue(cfg.consts.powerKey, cfg.consts.powerOn)], None)
  }

  /** The ON value `async_oscillate` writes: the integer itself, otherwise
      element 0 (IndexError, here None, when there is none). */
  function OnValue(on: Value): (r: Option<Value>)
    ensures on.Int? ==> r == Some(on)
    ensures on.List? ==> (r.Some? <==> on.items != []) && (r.Some? ==> r.value in on.items)
  {
    match on
    case Int(_) => Some(on)
    case List(items) => if items == [] then None else Some(items[0])
    case Str(t) => if t == "" then None else Some(Str([t[0]]))
  }

  /** `async_oscillate`: nothing without KEY_OSCILLATION; otherwise write the
      ON value or the OFF value to the oscillation key and set it locally. */
  function OscillateEffect(cfg: FanConfig, s: Status, oscillating: bool): (e: Effect)
    ensures cfg.consts.oscillation.None? ==> e == Effect(s, [], None)
    ensures cfg.consts.oscillation.Some? && e.error.None? ==>
              var o := cfg.consts.oscillation.value;
              OnValue(o.on).Some? &&
              (var v := if oscillating then OnValue(o.on).value else o.off;
               e.writes == [SetControlValue(o.key, v)] && e.status == s[o.key := v])
    ensures e.error.Some? ==> e.error == Some(IndexError) && e.writes == [] && e.status == s
  {
    match cfg.consts.oscillation
    case None => Effect(s, [], None)
    case Some(o) =>
      match OnValue(o.on)
      case None => Effect(s, [], Some(IndexError))
      case Some(onValue) =>
        var v := if oscillating then onValue else o.off;
        Effect(s[o.key := v], [SetControlValue(o.key, v)], None)
  }

  /** After switching oscillation on (with an integer or a non-empty list ON
      value), the fan reads as oscillating; after switching it off, with an
      OFF value that is not an ON value, it reads as not oscillating. */
  lemma OscillateThenOscillating(cfg: FanConfig, s: Status, oscillating: bool)
    requires cfg.consts.oscillation.Some?
    requires cfg.consts.oscillation.value.on.Int? ||
             (cfg.consts.oscillation.value.on.List? && cfg.consts.oscillation.value.on.items != [])
    requires !oscillating ==> cfg.consts.oscillation.value.off != cfg.consts.oscillation.value.on &&
                              (cfg.consts.oscillation.value.on.List? ==>
                                cfg.consts.oscillation.value.off !in cfg.consts.oscillation.value.on.items)
    ensures OscillateEffect(cfg, s, oscillating).error.None?
    ensures Oscillating(cfg, OscillateEffect(cfg, s, oscillating).status) == Some(oscillating)
  {
  }

  // ---------------------------------------------------------------------
  // Commands of PhilipsAC1214

  /** The pattern of the preset the status currently reads as
      (`_available_preset_modes.get(self.preset_mode)`). */
  function CurrentPattern(cfg: FanConfig, s: Status): (r: Option<Patch>)
    ensures r.Some? <==> PresetMode(cfg, s).Some?
    ensures r.Some? && WellFormed(cfg.presets) ==> Matches(r.value, cfg.consts.replacePreset, s)
  {
    match FirstMatchFrom(cfg.presets, cfg.consts.replacePreset, s, 0)
    case None => None
    case Some(i) =>
      PresetModeListed(cfg, s);
      assert WellFormed(cfg.presets) ==> IndexOf(cfg.presets, cfg.presets[i].0) == Some(i) by {
        if WellFormed(cfg.presets) {
          IndexOfEntry(cfg.presets, i);
        }
      }
      Get(cfg.presets, cfg.presets[i].0)
  }

  /** The preset the status reads as is one of the preset modes. */
  lemma PresetModeListed(cfg: FanConfig, s: Status)
    requires PresetMode(cfg, s).Some?
    ensures PresetMode(cfg, s).value in Keys(cfg.presets)
  {
    var i :| 0 <= i < |cfg.presets| && cfg.presets[i].0 == PresetMode(cfg, s).value;
    assert Keys(cfg.presets)[i] == cfg.presets[i].0;
  }

  /** AC1214's first step: write power-on when the fan does not read as on. */
  function PowerOnFirst(cfg: FanConfig, s: Status): (r: seq<Command>)
    requires cfg.consts.variant.AC1214?
    ensures r == [] <==> IsOn(cfg, s)
    ensures r != [] ==> r == [SetControlValue(cfg.consts.variant.powerKey, cfg.consts.variant.powerOn)]
  {
    if IsOn(cfg, s) then [] else [SetControlValue(cfg.consts.variant.powerKey, cfg.consts.variant.powerOn)]
  }

  /** AC1214's move to a target pattern: through the Allergen pattern when
      the target is not mode "A" and the current pattern is not mode "M",
      then the target. Reading the mode of a missing current pattern raises
      AttributeError. */
  function AC1214Switch(cfg: FanConfig, current: Option<Patch>, target: Option<Patch>): (r: (seq<Command>, Option<Error>))
    requires ValidConfig(cfg) && cfg.consts.variant.AC1214?
    ensures r.1.Some? <==> Usable(target) && Lookup(target.value, cfg.consts.variant.modeKey) != Some(Str("A")) && current.None?
    ensures r.1.Some? ==> r.1 == Some(AttributeError) && r.0 == []
    ensures !Usable(target) ==> r == ([], None)
    ensures r.1.None? && Usable(target) ==>
              1 <= |r.0| <= 2 && r.0[|r.0| - 1] == SetControlValues(target.value)
    ensures |r.0| == 2 ==> r.0[0] == SetControlValues(Get(cfg.presets, cfg.consts.variant.allergen).value)
  {
    var v := cfg.consts.variant;
    if Usable(target) && Lookup(target.value, v.modeKey) != Some(Str("A")) then
      match current
      case None => ([], Some(AttributeError))
      case Some(cur) =>
        var viaAllergen := if Lookup(cur, v.modeKey) != Some(Str("M")) then [SetControlValues(Get(cfg.presets, v.allergen).value)] else [];
        (viaAllergen + [SetControlValues(target.value)], None)
    else if Usable(target) then ([SetControlValues(target.value)], None)
    else ([], None)
  }

  /** The AC1214 move to `target` from the pattern the status `s` reads
      as: it raises exactly when it needs the current mode and the status
      matches no preset; otherwise it writes [Allergen if the target's mode
      is not "A" and the current mode is not "M"], then [the target]. */
  predicate AC1214Moves(cfg: FanConfig, s: Status, target: Option<Patch>, writes: seq<Command>, error: Option<Error>)
    requires ValidConfig(cfg) && cfg.consts.variant.AC1214?
  {
    var v := cfg.consts.variant;
    var needsA := Usable(target) && Lookup(target.value, v.modeKey) != Some(Str("A"));
    && (error.Some? <==> needsA && PresetMode(cfg, s).None?)
    && (error.Some? ==> error == Some(AttributeError) && writes == [])
    && (error.None? ==>
          writes == (if needsA && Lookup(CurrentPattern(cfg, s).value, v.modeKey) != Some(Str("M"))
                     then [SetControlValues(Get(cfg.presets, v.allergen).value)] else [])
                    + (if Usable(target) then [SetControlValues(target.value)] else []))
  }

  /** AC1214 `async_set_preset_mode`: [power-on if not on], then, for a
      non-empty mode, the move to its pattern. The local status is never
      updated. */
  function AC1214SetPresetMode(cfg: FanConfig, s: Status, mode: string): (e: Effect)
    requires ValidConfig(cfg) && cfg.consts.variant.AC1214?
    ensures e.status == s
    ensures |PowerOnFirst(cfg, s)| <= |e.writes| && e.writes[..|PowerOnFirst(cfg, s)|] == PowerOnFirst(cfg, s)
    ensures mode == "" ==> e == Effect(s, PowerOnFirst(cfg, s), None)
  {
    var first := PowerOnFirst(cfg, s);
    if mode == "" then Effect(s, first, None)
    else
      var r := AC1214Switch(cfg, CurrentPattern(cfg, s), Get(cfg.presets, mode));
      Effect(s, first + r.0, r.1)
  }

  /** AC1214 `async_set_percentage`: [power-on if not on], then either the
      base turn-off (for 0) or the same move as for a preset, to the selected
      speed's pattern; besides the turn-off the local status is not updated. */
  function AC1214SetPercentage(cfg: FanConfig, s: Status, percentage: int, toItem: (seq<string>, int) -> string): (e: Effect)
    requires ValidConfig(cfg) && cfg.consts.variant.AC1214?
    ensures |PowerOnFirst(cfg, s)| <= |e.writes| && e.writes[..|PowerOnFirst(cfg, s)|] == PowerOnFirst(cfg, s)
    ensures percentage == 0 ==>
              e.status == TurnOffEffect(cfg, s).status && e.error.None? &&
              e.writes == PowerOnFirst(cfg, s) + TurnOffEffect(cfg, s).writes
    ensures percentage != 0 ==> e.status == s
  {
    var first := PowerOnFirst(cfg, s);
    if percentage == 0 then
      var off := TurnOffEffect(cfg, s);
      Effect(off.status, first + off.writes, None)
    else
      var r := AC1214Switch(cfg, CurrentPattern(cfg, s), Get(cfg.speeds, toItem(cfg.speedNames, percentage)));
      Effect(s, first + r.0, r.1)
  }

  /** What follows the power-on write of an AC1214 preset command: the move
      to the mode's pattern (an AttributeError after the power-on when the
      current mode is needed and no preset matches). */
  lemma AC1214SetPresetModeMoves(cfg: FanConfig, s: Status, mode: string)
    requires ValidConfig(cfg) && cfg.consts.variant.AC1214? && mode != ""
    ensures var e := AC1214SetPresetMode(cfg, s, mode);
            var first := PowerOnFirst(cfg, s);
            AC1214Moves(cfg, s, Get(cfg.presets, mode), e.writes[|first|..], e.error)
  {
    var e := AC1214SetPresetMode(cfg, s, mode);
    var first := PowerOnFirst(cfg, s);
    var r := AC1214Switch(cfg, CurrentPattern(cfg, s), Get(cfg.presets, mode));
    assert e.writes[|first|..] == r.0;
  }

  /** What follows the power-on write of an AC1214 percentage command other
      than 0: the move to the selected speed's pattern. */
  lemma AC1214SetPercentageMoves(cfg: FanConfig, s: Status, percentage: int, toItem: (seq<string>, int) -> string)
    requires ValidConfig(cfg) && cfg.consts.variant.AC1214? && percentage != 0
    ensures var e := AC1214SetPercentage(cfg, s, percentage, toItem);
            var first := PowerOnFirst(cfg, s);
            AC1214Moves(cfg, s, Get(cfg.speeds, toItem(cfg.speedNames, percentage)), e.writes[|first|..], e.error)
  {
    var e := AC1214SetPercentage(cfg, s, percentage, toItem);
    var first := PowerOnFirst(cfg, s);
    var r := AC1214Switch(cfg, CurrentPattern(cfg, s), Get(cfg.speeds, toItem(cfg.speedNames, percentage)));
    assert e.writes[|first|..] == r.0;
  }

  /** An AC1214 move from a pattern that is not manual to one that is not
      Allergen's mode goes through the Allergen pattern `allergen`. */
  lemma AC1214MoveViaAllergen(cfg: FanConfig, cur: Patch, target: Patch, allergen: Patch)
    requires ValidConfig(cfg) && cfg.consts.variant.AC1214?
    requires Get(cfg.presets, cfg.consts.variant.allergen) == Some(allergen)
    requires |target| > 0 && Lookup(target, cfg.consts.variant.modeKey) != Some(Str("A"))
    requires Lookup(cur, cfg.consts.variant.modeKey) != Some(Str("M"))
    ensures AC1214Switch(cfg, Some(cur), Some(target)) ==
              ([SetControlValues(allergen), SetControlValues(target)], None)
  {
    assert [SetControlValues(allergen)] + [SetControlValues(target)] == [SetControlValues(allergen), SetControlValues(target)];
  }

  /** An AC1214 command on a fan that is on, from a status whose current
      pattern is `cur` to the pattern `target` of preset `to`, is the move
      between the two and nothing else. */
  lemma AC1214PresetToPreset(cfg: FanConfig, s: Status, to: string, cur: Patch, target: Patch,
                             writes: seq<Command>, error: Option<Error>)
    requires ValidConfig(cfg) && cfg.consts.variant.AC1214? && IsOn(cfg, s) && to != ""
    requires CurrentPattern(cfg, s) == Some(cur) && Get(cfg.presets, to) == Some(target)
    requires AC1214Switch(cfg, Some(cur), Some(target)) == (writes, error)
    ensures AC1214SetPresetMode(cfg, s, to) == Effect(s, writes, error)
  {
    AC1214SetPresetModeNamed(cfg, s, to);
    assert PowerOnFirst(cfg, s) == [];
    assert [] + writes == writes;
  }

  /** A named AC1214 command is the power-on prefix followed by the switch
      from the current pattern to the named one. */
  lemma AC1214SetPresetModeNamed(cfg: FanConfig, s: Status, to: string)
    requires ValidConfig(cfg) && cfg.consts.variant.AC1214? && to != ""
    ensures var r := AC1214Switch(cfg, CurrentPattern(cfg, s), Get(cfg.presets, to));
            AC1214SetPresetMode(cfg, s, to) == Effect(s, PowerOnFirst(cfg, s) + r.0, r.1)
  {
  }

  /** An AC1214 command to a pattern that is not mode "A", from a status
      that reads as no preset, writes only the power-on prefix and raises. */
  lemma AC1214RaisesUnread(cfg: FanConfig, s: Status, to: string, target: Patch)
    requires ValidConfig(cfg) && cfg.consts.variant.AC1214? && to != ""
    requires PresetMode(cfg, s).None? && Get(cfg.presets, to) == Some(target)
    requires |target| > 0 && Lookup(target, cfg.consts.variant.modeKey) != Some(Str("A"))
    ensures AC1214SetPresetMode(cfg, s, to) == Effect(s, PowerOnFirst(cfg, s), Some(AttributeError))
  {
    assert CurrentPattern(cfg, s).None?;
    assert PowerOnFirst(cfg, s) + [] == PowerOnFirst(cfg, s);
  }

  /** AC1214 `async_turn_on`: [power-on if not on], then the AC1214 preset or
      percentage command (a preset wins), each of which checks the unchanged
      local status again. */
  function AC1214TurnOn(cfg: FanConfig, s: Status, percentage: Option<int>, preset: Option<string>,
                        toItem: (seq<string>, int) -> string): (e: Effect)
    requires ValidConfig(cfg) && cfg.consts.variant.AC1214?
    ensures e.status == s
    ensures |PowerOnFirst(cfg, s)| <= |e.writes| && e.writes[..|PowerOnFirst(cfg, s)|] == PowerOnFirst(cfg, s)
    ensures !(preset.Some? && preset.value != "") && !(percentage.Some? && percentage.value != 0) ==>
              e == Effect(s, PowerOnFirst(cfg, s), None)
  {
    var first := PowerOnFirst(cfg, s);
    if preset.Some? && preset.value != "" then
      var inner := AC1214SetPresetMode(cfg, s, preset.value);
      Effect(s, first + inner.writes, inner.error)
    else if percentage.Some? && percentage.value != 0 then
      var inner := AC1214SetPercentage(cfg, s, percentage.value, toItem);
      Effect(s, first + inner.writes, inner.error)
    else Effect(s, first, None)
  }

  /** A preset argument wins over a percentage: after the power-on step, the
      AC1214 `async_turn_on` makes exactly the writes of the command it
      delegates to and raises what that command raises. */
  lemma AC1214TurnOnDelegates(cfg: FanConfig, s: Status, percentage: Option<int>, preset: Option<string>,
                              toItem: (seq<string>, int) -> string)
    requires ValidConfig(cfg) && cfg.consts.variant.AC1214?
    ensures var e := AC1214TurnOn(cfg, s, percentage, preset, toItem);
            preset.Some? && preset.value != "" ==>
              var inner := AC1214SetPresetMode(cfg, s, preset.value);
              e.writes == PowerOnFirst(cfg, s) + inner.writes && e.error == inner.error
    ensures var e := AC1214TurnOn(cfg, s, percentage, preset, toItem);
            !(preset.Some? && preset.value != "") && percentage.Some? && percentage.value != 0 ==>
              var inner := AC1214SetPercentage(cfg, s, percentage.value, toItem);
              e.writes == PowerOnFirst(cfg, s) + inner.writes && e.error == inner.error
  {
  }

  /** Turning an AC1214 that reads as off on with a preset writes power-on
      twice before anything else, because the inner call checks the
      unchanged status again; and the fan still reads as off afterwards. */
  lemma AC1214TurnOnWhenOff(cfg: FanConfig, s: Status, preset: string, percentage: Option<int>,
                            toItem: (seq<string>, int) -> string)
    requires ValidConfig(cfg) && cfg.consts.variant.AC1214? && !IsOn(cfg, s) && preset != ""
    ensures var e := AC1214TurnOn(cfg, s, percentage, Some(preset), toItem);
            var on := SetControlValue(cfg.consts.variant.powerKey, cfg.consts.variant.powerOn);
            |e.writes| >= 2 && e.writes[..2] == [on, on] && !IsOn(cfg, e.status)
  {
    var inner := AC1214SetPresetMode(cfg, s, preset);
    assert inner.writes[..1] == PowerOnFirst(cfg, s);
  }

  /** Setting 0% on an AC1214 that reads as off first switches it on and then
      off. */
  lemma AC1214ZeroPercentWhenOff(cfg: FanConfig, s: Status, toItem: (seq<string>, int) -> string)
    requires ValidConfig(cfg) && cfg.consts.variant.AC1214? && !IsOn(cfg, s)
    ensures AC1214SetPercentage(cfg, s, 0, toItem).writes ==
              [SetControlValue(cfg.consts.variant.powerKey, cfg.consts.variant.powerOn),
               SetControlValue(cfg.consts.powerKey, cfg.consts.powerOff)]
  {
  }

  // ---------------------------------------------------------------------
  // Dispatch between the base class and the AC1214 overrides

  /** `async_set_preset_mode` of the fan's class: only the AC1214 override
      can raise, and only AttributeError; it never updates the local
      status. */
  function SetPresetModeEffect(cfg: FanConfig, s: Status, mode: string): (e: Effect)
    requires ValidConfig(cfg)
    ensures cfg.consts.variant.Generic? ==> e.error.None?
    ensures e.error.Some? ==> e.error == Some(AttributeError)
    ensures cfg.consts.variant.AC1214? ==> e.status == s
  {
    if cfg.consts.variant.AC1214? then AC1214SetPresetMode(cfg, s, mode) else GenericSetPresetMode(cfg, s, mode)
  }

  /** `async_set_percentage` of the fan's class: in both classes 0 sets the
      local status to "off"; only the AC1214 override can raise, and only
      AttributeError. */
  function SetPercentageEffect(cfg: FanConfig, s: Status, percentage: int, toItem: (seq<string>, int) -> string): (e: Effect)
    requires ValidConfig(cfg)
    ensures percentage == 0 ==> e.status == TurnOffEffect(cfg, s).status && e.error.None?
    ensures percentage != 0 ==> e.status == s
    ensures cfg.consts.variant.Generic? ==> e.error.None?
    ensures e.error.Some? ==> e.error == Some(AttributeError)
  {
    if cfg.consts.variant.AC1214? then AC1214SetPercentage(cfg, s, percentage, toItem)
    else GenericSetPercentage(cfg, s, percentage, toItem)
  }

  /** `async_turn_on` of the fan's class: only the AC1214 override can
      raise, and only AttributeError; it never updates the local status. */
  function TurnOnEffect(cfg: FanConfig, s: Status, percentage: Option<int>, preset: Option<string>,
                        toItem: (seq<string>, int) -> string): (e: Effect)
    requires ValidConfig(cfg)
    ensures cfg.consts.variant.Generic? ==> e.error.None?
    ensures e.error.Some? ==> e.error == Some(AttributeError)
    ensures cfg.consts.variant.AC1214? ==> e.status == s
  {
    if cfg.consts.variant.AC1214? then AC1214TurnOn(cfg, s, percentage, preset, toItem)
    else GenericTurnOn(cfg, s, percentage, preset, toItem)
  }

  // ---------------------------------------------------------------------
  // The fan entity


  /** A fan entity. Its `_device_status` is the coordinator's status: the
      commands update that shared map in place, so every other listener of
      the coordinator sees the optimistic update too, until the next status
      from the device replaces it. `writes` logs the calls made on the
      coordinator's client. */
  class Fan {
    const cfg: FanConfig
    const coordinator: Coordinator
    var writes: seq<Command>

    /** `__init__`: collect the tables of the class chain. */
    constructor (layers: seq<Layer>, consts: Constants, coordinator: Coordinator)
      ensures cfg.presets == MergeLayers(PresetTables(layers)) && cfg.presetModes == Keys(cfg.presets)
      ensures cfg.speeds == MergeLayers(SpeedTables(layers)) && cfg.speedNames == Keys(cfg.speeds)
      ensures cfg.attributes == ChainAttributes(layers) && cfg.consts == consts
      ensures this.coordinator == coordinator && writes == []
    {
      var presets, presetModes := CollectPresetModes(layers);
      var speeds, speedNames := CollectSpeeds(layers);
      var attributes := CollectAttributes(layers);
      cfg := FanConfig(presets, presetModes, speeds, speedNames, attributes, consts);
      this.coordinator := coordinator;
      writes := [];
    }

    method TurnOff()
      requires ValidConfig(cfg)
      modifies this`writes, coordinator`status
      ensures var e := TurnOffEffect(cfg, old(coordinator.status));
              coordinator.status == e.status && writes == old(writes) + e.writes
    {
      writes := writes + [SetControlValue(cfg.consts.powerKey, cfg.consts.powerOff)];
      coordinator.status := coordinator.status[cfg.consts.powerKey := cfg.consts.powerOff];
    }

    method SetPresetMode(mode: string) returns (err: Option<Error>)
      requires ValidConfig(cfg)
      modifies this`writes, coordinator`status
      ensures var e := SetPresetModeEffect(cfg, old(coordinator.status), mode);
              coordinator.status == e.status && writes == old(writes) + e.writes && err == e.error
    {
      if cfg.consts.variant.AC1214? {
        err := SetPresetModeAC1214(mode);
      } else {
        var pattern := Get(cfg.presets, mode);
        if Usable(pattern) {
          writes := writes + [SetControlValues(pattern.value)];
          coordinator.status := coordinator.status + pattern.value;
        }
        err := None;
      }
    }

    method SetPercentage(percentage: int, toItem: (seq<string>, int) -> string) returns (err: Option<Error>)
      requires ValidConfig(cfg)
      modifies this`writes, coordinator`status
      ensures var e := SetPercentageEffect(cfg, old(coordinator.status), percentage, toItem);
              coordinator.status == e.status && writes == old(writes) + e.writes && err == e.error
    {
      if cfg.consts.variant.AC1214? {
        err := SetPercentageAC1214(percentage, toItem);
      } else if percentage == 0 {
        TurnOff();
        err := None;
      } else {
        var pattern := Get(cfg.speeds, toItem(cfg.speedNames, percentage));
        if Usable(pattern) {
          writes := writes + [SetControlValues(pattern.value)];
        }
        err := None;
      }
    }

    method TurnOn(percentage: Option<int>, preset: Option<string>, toItem: (seq<string>, int) -> string)
      returns (err: Option<Error>)
      requires ValidConfig(cfg)
      modifies this`writes, coordinator`status
      ensures var e := TurnOnEffect(cfg, old(coordinator.status), percentage, preset, toItem);
              coordinator.status == e.status && writes == old(writes) + e.writes && err == e.error
    {
      if cfg.consts.variant.AC1214? {
        err := TurnOnAC1214(percentage, preset, toItem);
      } else if preset.Some? && preset.value != "" {
        err := SetPresetMode(preset.value);
      } else if percentage.Some? && percentage.value != 0 {
        err := SetPercentage(percentage.value, toItem);
      } else {
        writes := writes + [SetControlValue(cfg.consts.powerKey, cfg.consts.powerOn)];
        coordinator.status := coordinator.status[cfg.consts.powerKey := cfg.consts.powerOn];
        err := None;
      }
    }

    method Oscillate(oscillating: bool) returns (err: Option<Error>)
      modifies this`writes, coordinator`status
      ensures var e := OscillateEffect(cfg, old(coordinator.status), oscillating);
              coordinator.status == e.status && writes == old(writes) + e.writes && err == e.error
    {
      if cfg.consts.oscillation.None? {
        return None;
      }
      var o := cfg.consts.oscillation.value;
      var on := OnValue(o.on);
      if on.None? {
        return Some(IndexError);
      }
      var v := if oscillating then on.value else o.off;
      writes := writes + [SetControlValue(o.key, v)];
      coordinator.status := coordinator.status[o.key := v];
      err := None;
    }

    method TurnOnAC1214(percentage: Option<int>, preset: Option<string>, toItem: (seq<string>, int) -> string)
      returns (err: Option<Error>)
      requires ValidConfig(cfg) && cfg.consts.variant.AC1214?
      modifies this`writes
      ensures var e := AC1214TurnOn(cfg, coordinator.status, percentage, preset, toItem);
              writes == old(writes) + e.writes && err == e.error
    {
      ghost var s, w := coordinator.status, writes;
      PowerOnIfOff();
      ghost var first := PowerOnFirst(cfg, s);
      if preset.Some? && preset.value != "" {
        err := SetPresetModeAC1214(preset.value);
        AppendAssociative(w, first, AC1214SetPresetMode(cfg, s, preset.value).writes);
      } else if percentage.Some? && percentage.value != 0 {
        err := SetSpeedAC1214(percentage.value, toItem);
        AppendAssociative(w, first, AC1214SetPercentage(cfg, s, percentage.value, toItem).writes);
      } else {
        err := None;
      }
    }

    /** The AC1214 power-on step. */
    method PowerOnIfOff()
      requires ValidConfig(cfg) && cfg.consts.variant.AC1214?
      modifies this`writes
      ensures writes == old(writes) + PowerOnFirst(cfg, coordinator.status)
    {
      if !IsOn(cfg, coordinator.status) {
        writes := writes + [SetControlValue(cfg.consts.variant.powerKey, cfg.consts.variant.powerOn)];
      }
    }

    /** `async_set_a` and the target write of the AC1214 move. */
    method SwitchAC1214(current: Option<Patch>, target: Option<Patch>) returns (err: Option<Error>)
      requires ValidConfig(cfg) && cfg.consts.variant.AC1214?
      modifies this`writes
      ensures var r := AC1214Switch(cfg, current, target);
              writes == old(writes) + r.0 && err == r.1
    {
      var v := cfg.consts.variant;
      if Usable(target) && Lookup(target.value, v.modeKey) != Some(Str("A")) {
        if current.None? {
          return Some(AttributeError);
        }
        if Lookup(current.value, v.modeKey) != Some(Str("M")) {
          writes := writes + [SetControlValues(Get(cfg.presets, v.allergen).value)];
        }
      }
      if Usable(target) {
        writes := writes + [SetControlValues(target.value)];
      }
      err := None;
    }

    method SetPresetModeAC1214(mode: string) returns (err: Option<Error>)
      requires ValidConfig(cfg) && cfg.consts.variant.AC1214?
      modifies this`writes
      ensures var e := AC1214SetPresetMode(cfg, coordinator.status, mode);
              writes == old(writes) + e.writes && err == e.error
    {
      ghost var w := writes;
      PowerOnIfOff();
      var current := CurrentPattern(cfg, coordinator.status);
      if mode != "" {
        err := SwitchAC1214(current, Get(cfg.presets, mode));
        AppendAssociative(w, PowerOnFirst(cfg, coordinator.status), AC1214Switch(cfg, current, Get(cfg.presets, mode)).0);
      } else {
        err := None;
      }
    }

    method SetPercentageAC1214(percentage: int, toItem: (seq<string>, int) -> string) returns (err: Option<Error>)
      requires ValidConfig(cfg) && cfg.consts.variant.AC1214?
      modifies this`writes, coordinator`status
      ensures var e := AC1214SetPercentage(cfg, old(coordinator.status), percentage, toItem);
              coordinator.status == e.status && writes == old(writes) + e.writes && err == e.error
    {
      if percentage == 0 {
        ghost var w := writes;
        PowerOnIfOff();
        ghost var first := writes[|w|..];
        TurnOff();
        AppendAssociative(w, first, TurnOffEffect(cfg, old(coordinator.status)).writes);
        err := None;
      } else {
        err := SetSpeedAC1214(percentage, toItem);
      }
    }

    /** AC1214 `async_set_percentage` for a percentage other than 0. */
    method SetSpeedAC1214(percentage: int, toItem: (seq<string>, int) -> string) returns (err: Option<Error>)
      requires ValidConfig(cfg) && cfg.consts.variant.AC1214? && percentage != 0
      modifies this`writes
      ensures var e := AC1214SetPercentage(cfg, coordinator.status, percentage, toItem);
              writes == old(writes) + e.writes && err == e.error
    {
      ghost var w := writes;
      PowerOnIfOff();
      var current := CurrentPattern(cfg, coordinator.status);
      var target := Get(cfg.speeds, toItem(cfg.speedNames, percentage));
      err := SwitchAC1214(current, target);
      AppendAssociative(w, PowerOnFirst(cfg, coordinator.status), AC1214Switch(cfg, current, target).0);
    }
  }
}
