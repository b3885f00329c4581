/** The switch platform: the attribute tables, the five switch
    descriptions, which of them a machine model gets, what each reports as
    its state and what turning it on or off asks of the client. */
module Switch {
  import opened Values
  import opened Consts
  import opened Entity
  import opened Outcomes
  import Seqs

  const DOSE: string := "dose"
  const ON: string := "on"
  const OFF: string := "off"
  const AUTO: string := "auto"
  const TIME: string := "time"
  const TON: string := "ton"
  const TOFF: string := "toff"
  const PREBREWING: string := "prebrewing"
  const PREINFUSION: string := "preinfusion"

  const ATTR_MAP_MAIN_GS3_AV: seq<AttrKey> := [
    TupleKey([DOSE, "k1"]),
    TupleKey([DOSE, "k2"]),
    TupleKey([DOSE, "k3"]),
    TupleKey([DOSE, "k4"]),
    TupleKey([DOSE, "k5"])
  ]

  const ATTR_MAP_AUTO_ON_OFF: seq<AttrKey> := [
    Key(DATE_RECEIVED),
    TupleKey([MON, AUTO]),
    TupleKey([MON, ON, TIME]),
    TupleKey([MON, OFF, TIME]),
    TupleKey([TUE, AUTO]),
    TupleKey([TUE, ON, TIME]),
    TupleKey([TUE, OFF, TIME]),
    TupleKey([WED, AUTO]),
    TupleKey([WED, ON, TIME]),
    TupleKey([WED, OFF, TIME]),
    TupleKey([THU, AUTO]),
    TupleKey([THU, ON, TIME]),
    TupleKey([THU, OFF, TIME]),
    TupleKey([FRI, AUTO]),
    TupleKey([FRI, ON, TIME]),
    TupleKey([FRI, OFF, TIME]),
    TupleKey([SAT, AUTO]),
    TupleKey([SAT, ON, TIME]),
    TupleKey([SAT, OFF, TIME]),
    TupleKey([SUN, AUTO]),
    TupleKey([SUN, ON, TIME]),
    TupleKey([SUN, OFF, TIME])
  ]

  const ATTR_MAP_PREBREW_GS3_AV: seq<AttrKey> := [
    Key(DATE_RECEIVED),
    TupleKey([PREBREWING, TON, "k1"]),
    TupleKey([PREBREWING, TON, "k2"]),
    TupleKey([PREBREWING, TON, "k3"]),
    TupleKey([PREBREWING, TON, "k4"]),
    TupleKey([PREBREWING, TOFF, "k1"]),
    TupleKey([PREBREWING, TOFF, "k2"]),
    TupleKey([PREBREWING, TOFF, "k3"]),
    TupleKey([PREBREWING, TOFF, "k4"])
  ]

  const ATTR_MAP_PREINFUSION_GS3_AV: seq<AttrKey> := [
    Key(DATE_RECEIVED),
    TupleKey([PREINFUSION, "k1"]),
    TupleKey([PREINFUSION, "k2"]),
    TupleKey([PREINFUSION, "k3"]),
    TupleKey([PREINFUSION, "k4"])
  ]

  const ATTR_MAP_PREINFUSION_LM: seq<AttrKey> := [
    Key(DATE_RECEIVED),
    TupleKey([PREINFUSION, "k1"])
  ]

  const ATTR_MAP_PREBREW_LM: seq<AttrKey> := [
    Key(DATE_RECEIVED),
    TupleKey([PREBREWING, TON, "k1"]),
    TupleKey([PREBREWING, TOFF, "k1"])
  ]

  /** The three schedule entries of each day, in the order the table has them. */
  function DaySlots(days: seq<string>): (r: seq<AttrKey>)
    ensures |r| == 3 * |days|
    decreases |days|
  {
    if |days| == 0 then []
    else Slots(days[0]) + DaySlots(days[1..])
  }

  const WEEK: seq<string> := [MON, TUE, WED, THU, FRI, SAT, SUN]

  /** The three entries of one day. */
  function Slots(day: string): (r: seq<AttrKey>)
    ensures |r| == 3 && r[0] == TupleKey([day, AUTO])
    ensures r[1] == TupleKey([day, ON, TIME]) && r[2] == TupleKey([day, OFF, TIME])
  {
    [TupleKey([day, AUTO]), TupleKey([day, ON, TIME]), TupleKey([day, OFF, TIME])]
  }

  /** The slots of a list of days: the first day's three entries, then the
      rest. */
  lemma DaySlotsCons(day: string, days: seq<string>)
    ensures DaySlots([day] + days) == Slots(day) + DaySlots(days)
  {
    assert ([day] + days)[1..] == days;
  }

  /** The slots of a week of seven days, day by day. */
  lemma WeekSlots(d0: string, d1: string, d2: string, d3: string, d4: string, d5: string, d6: string)
    ensures DaySlots([d0, d1, d2, d3, d4, d5, d6]) ==
              Slots(d0) + Slots(d1) + Slots(d2) + Slots(d3) + Slots(d4) + Slots(d5) + Slots(d6)
  {
    DaySlotsCons(d6, []);
    DaySlotsCons(d5, [d6]);
    DaySlotsCons(d4, [d5, d6]);
    DaySlotsCons(d3, [d4, d5, d6]);
    DaySlotsCons(d2, [d3, d4, d5, d6]);
    DaySlotsCons(d1, [d2, d3, d4, d5, d6]);
    DaySlotsCons(d0, [d1, d2, d3, d4, d5, d6]);
  }

  /** The auto on/off table is the receive date followed by the auto flag,
      on time and off time of each of the seven days: 22 entries. */
  lemma AutoOnOffTable()
    ensures ATTR_MAP_AUTO_ON_OFF == [Key(DATE_RECEIVED)] + DaySlots(WEEK)
    ensures |ATTR_MAP_AUTO_ON_OFF| == 22
  {
    WeekTableShape(ATTR_MAP_AUTO_ON_OFF, MON, TUE, WED, THU, FRI, SAT, SUN);
    WeekSlots(MON, TUE, WED, THU, FRI, SAT, SUN);
  }

  /** A table written out as the receive date and the three entries of
      each of seven days is the receive date followed by their slots. */
  lemma WeekTableShape(t: seq<AttrKey>, d0: string, d1: string, d2: string, d3: string, d4: string, d5: string, d6: string)
    requires t == [Key(DATE_RECEIVED),
              TupleKey([d0, AUTO]), TupleKey([d0, ON, TIME]), TupleKey([d0, OFF, TIME]),
              TupleKey([d1, AUTO]), TupleKey([d1, ON, TIME]), TupleKey([d1, OFF, TIME]),
              TupleKey([d2, AUTO]), TupleKey([d2, ON, TIME]), TupleKey([d2, OFF, TIME]),
              TupleKey([d3, AUTO]), TupleKey([d3, ON, TIME]), TupleKey([d3, OFF, TIME]),
              TupleKey([d4, AUTO]), TupleKey([d4, ON, TIME]), TupleKey([d4, OFF, TIME]),
              TupleKey([d5, AUTO]), TupleKey([d5, ON, TIME]), TupleKey([d5, OFF, TIME]),
              TupleKey([d6, AUTO]), TupleKey([d6, ON, TIME]), TupleKey([d6, OFF, TIME])]
    ensures t == [Key(DATE_RECEIVED)] + Slots(d0) + Slots(d1) + Slots(d2) + Slots(d3)
                 + Slots(d4) + Slots(d5) + Slots(d6)
  {
  }

  /** The table entries that concern key 1: the plain keys and the tuples
      whose last part is "k1". */
  predicate ForKey1(k: AttrKey)
  {
    match k
    case Key(_) => true
    case TupleKey(parts) => |parts| > 0 && parts[|parts| - 1] == "k1"
  }

  /** The entries of a table that concern key 1 only, in table order. */
  function K1Only(attr: seq<AttrKey>): (r: seq<AttrKey>)
    ensures forall k :: k in r <==> k in attr && ForKey1(k)
    ensures Seqs.SubsequenceOf(r, attr)
    decreases |attr|
  {
    if |attr| == 0 then []
    else
      var rest := K1Only(attr[1..]);
      if ForKey1(attr[0]) then [attr[0]] + rest else rest
  }

  /** The filter keeps every copy of a key-1 entry and no copy of any
      other entry. */
  lemma {:induction false} K1OnlyCounts(attr: seq<AttrKey>, k: AttrKey)
    ensures multiset(K1Only(attr))[k] == if ForKey1(k) then multiset(attr)[k] else 0
    decreases |attr|
  {
    if |attr| > 0 {
      K1OnlyCounts(attr[1..], k);
      assert attr == [attr[0]] + attr[1..];
    }
  }

  /** Filtering a concatenation filters each part. */
  lemma {:induction false} K1OnlyAppend(a: seq<AttrKey>, b: seq<AttrKey>)
    ensures K1Only(a + b) == K1Only(a) + K1Only(b)
    decreases |a|
  {
    if |a| > 0 {
      assert (a + b)[1..] == a[1..] + b;
      K1OnlyAppend(a[1..], b);
    } else {
      assert a + b == b;
    }
  }

  /** A table whose entries all concern key 1 is kept whole. */
  lemma {:induction false} K1OnlyAll(ks: seq<AttrKey>)
    requires forall i :: 0 <= i < |ks| ==> ForKey1(ks[i])
    ensures K1Only(ks) == ks
    decreases |ks|
  {
    if |ks| > 0 {
      K1OnlyAll(ks[1..]);
    }
  }

  /** A table none of whose entries concerns key 1 is dropped whole. */
  lemma {:induction false} K1OnlyNone(ks: seq<AttrKey>)
    requires forall i :: 0 <= i < |ks| ==> !ForKey1(ks[i])
    ensures K1Only(ks) == []
    decreases |ks|
  {
    if |ks| > 0 {
      K1OnlyNone(ks[1..]);
    }
  }

  /** Filtering a suffix: its first entry is kept exactly when it concerns
      key 1. */
  lemma K1OnlyStep(t: seq<AttrKey>, i: nat)
    requires i < |t|
    ensures K1Only(t[i..]) == (if ForKey1(t[i]) then [t[i]] else []) + K1Only(t[i + 1..])
  {
    assert t[i..][1..] == t[i + 1..];
  }

  /** Filtering skips a run of entries none of which concerns key 1. */
  lemma {:induction false} K1OnlySkip(t: seq<AttrKey>, i: nat, j: nat)
    requires i <= j <= |t|
    requires forall k :: i <= k < j ==> !ForKey1(t[k])
    ensures K1Only(t[i..]) == K1Only(t[j..])
    decreases j - i
  {
    if i < j {
      K1OnlyStep(t, i);
      K1OnlySkip(t, i + 1, j);
    }
  }

  /** The Linea Mini / Micro prebrew table is the key-1 entries of the
      GS3 AV one: the receive date, ton k1 and toff k1. */
  lemma LmPrebrewIsK1Subset()
    ensures ATTR_MAP_PREBREW_LM == K1Only(ATTR_MAP_PREBREW_GS3_AV)
  {
    var t := ATTR_MAP_PREBREW_GS3_AV;
    assert ForKey1(t[0]) && ForKey1(t[1]) && ForKey1(t[5]);
    assert !ForKey1(t[2]) && !ForKey1(t[3]) && !ForKey1(t[4]);
    assert !ForKey1(t[6]) && !ForKey1(t[7]) && !ForKey1(t[8]);
    PrebrewShape(t);
  }

  /** From entry 2 on, only entry 5 of such a table concerns key 1. */
  lemma PrebrewFrom2(t: seq<AttrKey>)
    requires |t| == 9 && ForKey1(t[5])
    requires !ForKey1(t[2]) && !ForKey1(t[3]) && !ForKey1(t[4])
    requires !ForKey1(t[6]) && !ForKey1(t[7]) && !ForKey1(t[8])
    ensures K1Only(t[2..]) == [t[5]]
  {
    K1OnlySkip(t, 6, 9);
    assert t[9..] == [];
    K1OnlyStep(t, 5);
    K1OnlySkip(t, 2, 5);
  }

  /** A table whose first two entries concern key 1 keeps both, then
      filters the rest. */
  lemma K1OnlyKeepTwo(t: seq<AttrKey>)
    requires |t| >= 2 && ForKey1(t[0]) && ForKey1(t[1])
    ensures K1Only(t) == [t[0], t[1]] + K1Only(t[2..])
  {
    var head := t[..2];
    assert t == head + t[2..];
    assert head == [t[0], t[1]];
    K1OnlyAll(head);
    K1OnlyAppend(head, t[2..]);
  }

  /** A nine-entry table whose entries 0, 1 and 5 alone concern key 1
      filters down to those three. */
  lemma PrebrewShape(t: seq<AttrKey>)
    requires |t| == 9
    requires ForKey1(t[0]) && ForKey1(t[1]) && ForKey1(t[5])
    requires !ForKey1(t[2]) && !ForKey1(t[3]) && !ForKey1(t[4])
    requires !ForKey1(t[6]) && !ForKey1(t[7]) && !ForKey1(t[8])
    ensures K1Only(t) == [t[0], t[1], t[5]]
  {
    PrebrewFrom2(t);
    K1OnlyKeepTwo(t);
  }

  /** The Linea Mini / Micro preinfusion table is the key-1 entries of the
      GS3 AV one: the receive date and k1. */
  lemma LmPreinfusionIsK1Subset()
    ensures ATTR_MAP_PREINFUSION_LM == K1Only(ATTR_MAP_PREINFUSION_GS3_AV)
  {
    var t := ATTR_MAP_PREINFUSION_GS3_AV;
    assert ForKey1(t[0]) && ForKey1(t[1]);
    assert !ForKey1(t[2]) && !ForKey1(t[3]) && !ForKey1(t[4]);
    PreinfusionShape(t);
  }

  /** A five-entry table whose first two entries alone concern key 1
      filters down to those two. */
  lemma PreinfusionShape(t: seq<AttrKey>)
    requires |t| == 5
    requires ForKey1(t[0]) && ForKey1(t[1])
    requires !ForKey1(t[2]) && !ForKey1(t[3]) && !ForKey1(t[4])
    ensures K1Only(t) == [t[0], t[1]]
  {
    K1OnlySkip(t, 2, 5);
    assert t[5..] == [];
    K1OnlyKeepTwo(t);
  }

  /** The per-switch lambdas, one tag per description. */
  datatype SwitchKind = Main | AutoOnOff | Prebrew | Preinfusion | SteamBoilerEnable

  datatype SwitchDescription = SwitchDescription(
    key: string,
    name: string,
    icon: string,
    kind: SwitchKind,
    extraAttributes: ExtraAttributes)

  const MAIN: SwitchDescription :=
    SwitchDescription("main", "Main", "mdi:coffee-maker", Main,
      map[GS3_AV := Some(ATTR_MAP_MAIN_GS3_AV), GS3_MP := None, LM := None, LMU := None])

  const AUTO_ON_OFF: SwitchDescription :=
    SwitchDescription("auto_on_off", "Auto On Off", "mdi:alarm", AutoOnOff,
      map[GS3_AV := Some(ATTR_MAP_AUTO_ON_OFF), GS3_MP := Some(ATTR_MAP_AUTO_ON_OFF),
          LM := Some(ATTR_MAP_AUTO_ON_OFF), LMU := Some(ATTR_MAP_AUTO_ON_OFF)])

  const PREBREW: SwitchDescription :=
    SwitchDescription("prebrew", "Prebrew", "mdi:location-enter", Prebrew,
      map[GS3_AV := Some(ATTR_MAP_PREBREW_GS3_AV), LM := Some(ATTR_MAP_PREBREW_LM),
          LMU := Some(ATTR_MAP_PREBREW_LM)])

  const PREINFUSION_SWITCH: SwitchDescription :=
    SwitchDescription("preinfusion", "Preinfusion", "mdi:location-enter", Preinfusion,
      map[GS3_AV := Some(ATTR_MAP_PREINFUSION_GS3_AV), LM := Some(ATTR_MAP_PREINFUSION_LM),
          LMU := Some(ATTR_MAP_PREINFUSION_LM)])

  const STEAM_BOILER_ENABLE: SwitchDescription :=
    SwitchDescription("steam_boiler_enable", "Steam Boiler Enable", "mdi:water-boiler", SteamBoilerEnable,
      map[GS3_AV := None, GS3_MP := None, LM := None, LMU := None])

  const ENTITIES: seq<SwitchDescription> := [MAIN, AUTO_ON_OFF, PREBREW, PREINFUSION_SWITCH, STEAM_BOILER_ENABLE]

  /** The switches `async_setup_entry` creates: those whose attribute
      tables have the machine's model, in table order. */
  function SetupEntities(ds: seq<SwitchDescription>, model: ModelName): (r: seq<SwitchDescription>)
    ensures forall d :: d in r <==> d in ds && model in d.extraAttributes
    ensures Seqs.SubsequenceOf(r, ds)
    decreases |ds|
  {
    if |ds| == 0 then []
    else
      var rest := SetupEntities(ds[1..], model);
      if model in ds[0].extraAttributes then [ds[0]] + rest else rest
  }

  /** The selection keeps every copy of a description whose tables list
      the model, and no copy of any other. */
  lemma {:induction false} SetupEntitiesCounts(ds: seq<SwitchDescription>, model: ModelName, d: SwitchDescription)
    ensures multiset(SetupEntities(ds, model))[d] == if model in d.extraAttributes then multiset(ds)[d] else 0
    decreases |ds|
  {
    if |ds| > 0 {
      SetupEntitiesCounts(ds[1..], model, d);
      assert ds == [ds[0]] + ds[1..];
    }
  }

  /** Which models each description's attribute table lists. */
  lemma TableModels(model: ModelName)
    ensures model in MAIN.extraAttributes <==> !model.OtherModel?
    ensures model in AUTO_ON_OFF.extraAttributes <==> !model.OtherModel?
    ensures model in PREBREW.extraAttributes <==> !model.OtherModel? && model != GS3_MP
    ensures model in PREINFUSION_SWITCH.extraAttributes <==> !model.OtherModel? && model != GS3_MP
    ensures model in STEAM_BOILER_ENABLE.extraAttributes <==> !model.OtherModel?
  {
  }

  /** Every model in the tables gets the main, auto on/off and steam boiler
      switches, and the prebrew and preinfusion switches unless it is the
      GS3 MP; a model outside the tables gets no switch. */
  lemma SwitchesPerModel(model: ModelName)
    ensures model.OtherModel? ==> SetupEntities(ENTITIES, model) == []
    ensures MAIN in SetupEntities(ENTITIES, model) <==> !model.OtherModel?
    ensures AUTO_ON_OFF in SetupEntities(ENTITIES, model) <==> !model.OtherModel?
    ensures PREBREW in SetupEntities(ENTITIES, model) <==> !model.OtherModel? && model != GS3_MP
    ensures PREINFUSION_SWITCH in SetupEntities(ENTITIES, model) <==> !model.OtherModel? && model != GS3_MP
    ensures STEAM_BOILER_ENABLE in SetupEntities(ENTITIES, model) <==> !model.OtherModel?
  {
    TableModels(model);
    assert MAIN in ENTITIES && AUTO_ON_OFF in ENTITIES && PREBREW in ENTITIES;
    assert PREINFUSION_SWITCH in ENTITIES && STEAM_BOILER_ENABLE in ENTITIES;
    if model.OtherModel? {
      assert forall d :: d in ENTITIES ==> model !in d.extraAttributes;
      var r := SetupEntities(ENTITIES, model);
      assert forall i :: 0 <= i < |r| ==> r[i] !in r;
    }
  }

  /** The switches of one machine have pairwise distinct unique ids. */
  lemma SwitchUniqueIdsDistinct(serialNumber: string)
    ensures forall i, j :: 0 <= i < j < |ENTITIES| ==>
              UniqueId(serialNumber, ENTITIES[i].key) != UniqueId(serialNumber, ENTITIES[j].key)
  {
    forall i, j | 0 <= i < j < |ENTITIES|
      ensures UniqueId(serialNumber, ENTITIES[i].key) != UniqueId(serialNumber, ENTITIES[j].key)
    {
      UniqueIdsDistinct(serialNumber, ENTITIES[i].key, ENTITIES[j].key);
    }
  }

  /** The status key each switch's `is_on_fn` reads; no two switches read
      the same key. */
  function StatusKey(kind: SwitchKind): (key: string)
    ensures key == "power" <==> kind == Main
    ensures key == "global_auto" <==> kind == AutoOnOff
    ensures key == "enable_prebrewing" <==> kind == Prebrew
    ensures key == "enable_preinfusion" <==> kind == Preinfusion
    ensures key == "steam_boiler_enable" <==> kind == SteamBoilerEnable
  {
    match kind
    case Main => "power"
    case AutoOnOff => "global_auto"
    case Prebrew => "enable_prebrewing"
    case Preinfusion => "enable_preinfusion"
    case SteamBoilerEnable => "steam_boiler_enable"
  }

  /** `is_on`: the stored value of the switch's key, except that auto on/off
      compares it with "Enabled"; a missing key raises KeyError. */
  function IsOn(kind: SwitchKind, status: Status): (r: Lookup)
    ensures r.KeyError? <==> StatusKey(kind) !in status
    ensures r.Found? && kind != AutoOnOff ==> r.value == status[StatusKey(kind)]
    ensures kind == AutoOnOff ==>
              (r == Found(Bool(true)) <==> "global_auto" in status && status["global_auto"] == Str("Enabled"))
    ensures kind == AutoOnOff && r.Found? ==> r.value.Bool?
  {
    match Index(status, StatusKey(kind))
    case KeyError(key) => KeyError(key)
    case Found(v) => if kind == AutoOnOff then Found(Bool(v == Str("Enabled"))) else Found(v)
  }

  /** The client setter each switch's `control_fn` calls. */
  datatype Setter = SetPower | SetAutoOnOffGlobal | SetPrebrewingEnable | SetPreinfusionEnable | SetSteamBoilerEnable

  /** The client setter each switch's `control_fn` calls; no two switches
      call the same setter. */
  function ControlFn(kind: SwitchKind): (setter: Setter)
    ensures setter == SetPower <==> kind == Main
    ensures setter == SetAutoOnOffGlobal <==> kind == AutoOnOff
    ensures setter == SetPrebrewingEnable <==> kind == Prebrew
    ensures setter == SetPreinfusionEnable <==> kind == Preinfusion
    ensures setter == SetSteamBoilerEnable <==> kind == SteamBoilerEnable
  {
    match kind
    case Main => SetPower
    case AutoOnOff => SetAutoOnOffGlobal
    case Prebrew => SetPrebrewingEnable
    case Preinfusion => SetPreinfusionEnable
    case SteamBoilerEnable => SetSteamBoilerEnable
  }

  /** What a turn-on or turn-off does, in order: the setter call with its
      argument, then either the state write and delayed refresh or, when the
      setter raised, that exception propagating to the caller. */
  datatype Action = Control(setter: Setter, state: bool) | UpdateHaState | Raise(error: Outcome)

  /** `async_turn_on`, given what the awaited setter call does. */
  function TurnOn(d: SwitchDescription, result: Outcome): (actions: seq<Action>)
    ensures |actions| == 2
    ensures actions[0] == Control(ControlFn(d.kind), true)
    ensures actions[1] == UpdateHaState <==> result == Ok
    ensures actions[1].Raise? <==> result != Ok
    ensures actions[1].Raise? ==> actions[1].error == result
  {
    [Control(ControlFn(d.kind), true), if result == Ok then UpdateHaState else Raise(result)]
  }

  /** `async_turn_off`, given what the awaited setter call does. */
  function TurnOff(d: SwitchDescription, result: Outcome): (actions: seq<Action>)
    ensures |actions| == 2
    ensures actions[0] == Control(ControlFn(d.kind), false)
    ensures actions[1] == UpdateHaState <==> result == Ok
    ensures actions[1].Raise? <==> result != Ok
    ensures actions[1].Raise? ==> actions[1].error == result
  {
    [Control(ControlFn(d.kind), false), if result == Ok then UpdateHaState else Raise(result)]
  }

  /** Turning off calls the same setter as turning on, with False instead of
      True, and ends the same way; distinct switches call distinct setters. */
  lemma TurnOnOffDiffer(d: SwitchDescription, e: SwitchDescription, result: Outcome)
    ensures TurnOff(d, result) == TurnOn(d, result)[0 := Control(TurnOn(d, result)[0].setter, false)]
    ensures d.kind != e.kind ==> TurnOn(d, result)[0].setter != TurnOn(e, result)[0].setter
  {
  }
}
