/** The binary sensor platform: the water reservoir and brew active sensors,
    which of them a machine gets, and what each reports. */
module BinarySensor {
  import opened Values
  import opened Consts
  import opened Entity
  import Seqs

  const WATER_RESERVOIR_CONTACT: string := "water_reservoir_contact"

  /** The per-sensor lambdas, one tag per description. */
  datatype SensorKind = WaterReservoir | BrewActive

  datatype SensorDescription = SensorDescription(
    key: string,
    name: string,
    icon: string,
    kind: SensorKind,
    extraAttributes: ExtraAttributes)

  const WATER_RESERVOIR: SensorDescription :=
    SensorDescription("water_reservoir", "Water Reservoir", "mdi:water-well", WaterReservoir,
      map[GS3_AV := None, GS3_MP := None, LM := None, LMU := None])

  const BREW_ACTIVE_SENSOR: SensorDescription :=
    SensorDescription(BREW_ACTIVE, "Brew Active", "mdi:cup-water", BrewActive,
      map[GS3_AV := None, GS3_MP := None, LM := None, LMU := None])

  const ENTITIES: seq<SensorDescription> := [WATER_RESERVOIR, BREW_ACTIVE_SENSOR]

  /** The status key each sensor reads. */
  function SensorKey(kind: SensorKind): (key: string)
    ensures kind == BrewActive <==> key == BREW_ACTIVE
  {
    match kind
    case WaterReservoir => WATER_RESERVOIR_CONTACT
    case BrewActive => BREW_ACTIVE
  }

  /** `is_on_fn`: the water sensor reports a problem when the reservoir
      contact is missing or falsy; the brew sensor reports the stored value
      as it is (None when missing). */
  function IsOn(kind: SensorKind, status: Status): (v: Value)
    ensures kind == WaterReservoir ==>
              (v == Bool(true) <==> WATER_RESERVOIR_CONTACT !in status || !Truthy(status[WATER_RESERVOIR_CONTACT]))
    ensures kind == WaterReservoir ==> v.Bool?
    ensures kind == BrewActive && BREW_ACTIVE in status ==> v == status[BREW_ACTIVE]
    ensures kind == BrewActive && BREW_ACTIVE !in status ==> v == Null
  {
    match kind
    case WaterReservoir => Bool(!Truthy(Get(status, WATER_RESERVOIR_CONTACT)))
    case BrewActive => Get(status, BREW_ACTIVE)
  }

  /** `is_available_fn`: the sensor's key is present and not None. */
  function Available(kind: SensorKind, status: Status): (b: bool)
    ensures b <==> SensorKey(kind) in status && status[SensorKey(kind)] != Null
  {
    Get(status, SensorKey(kind)) != Null
  }

  /** An unavailable brew sensor reports None; an unavailable water sensor
      reports a problem. */
  lemma UnavailableReadings(kind: SensorKind, status: Status)
    requires !Available(kind, status)
    ensures kind == BrewActive ==> IsOn(kind, status) == Null
    ensures kind == WaterReservoir ==> IsOn(kind, status) == Bool(true)
  {
  }

  /** `options.get(CONF_USE_WEBSOCKET, True)`: unlike the coordinator, this
      platform treats a missing option as enabled. */
  function UseWebsocket(options: map<string, bool>): (b: bool)
    ensures CONF_USE_WEBSOCKET !in options ==> b
    ensures CONF_USE_WEBSOCKET in options ==> b == options[CONF_USE_WEBSOCKET]
  {
    OptionOr(options, CONF_USE_WEBSOCKET, true)
  }

  /** Whether the setup loop appends a description: the model is in its
      table and it is not the brew sensor with the websocket off. */
  predicate Selected(d: SensorDescription, model: ModelName, useWebsocket: bool)
    ensures model !in d.extraAttributes ==> !Selected(d, model, useWebsocket)
    ensures d.key == BREW_ACTIVE && !useWebsocket ==> !Selected(d, model, useWebsocket)
    ensures d.key != BREW_ACTIVE || useWebsocket ==>
              (Selected(d, model, useWebsocket) <==> model in d.extraAttributes)
  {
    model in d.extraAttributes && !(d.key == BREW_ACTIVE && !useWebsocket)
  }

  /** The descriptions the setup loop keeps, in table order. */
  function Selection(ds: seq<SensorDescription>, model: ModelName, useWebsocket: bool): (r: seq<SensorDescription>)
    ensures forall d :: d in r <==> d in ds && Selected(d, model, useWebsocket)
    ensures Seqs.SubsequenceOf(r, ds)
    decreases |ds|
  {
    if |ds| == 0 then []
    else
      var rest := Selection(ds[1..], model, useWebsocket);
      if Selected(ds[0], model, useWebsocket) then [ds[0]] + rest else rest
  }

  /** The selection keeps every copy of a selected description and no copy
      of any other. */
  lemma {:induction false} SelectionCounts(ds: seq<SensorDescription>, model: ModelName, ws: bool, d: SensorDescription)
    ensures multiset(Selection(ds, model, ws))[d] == if Selected(d, model, ws) then multiset(ds)[d] else 0
    decreases |ds|
  {
    if |ds| > 0 {
      SelectionCounts(ds[1..], model, ws, d);
      assert ds == [ds[0]] + ds[1..];
    }
  }

  lemma {:induction false} SelectionAppend(ds: seq<SensorDescription>, d: SensorDescription, model: ModelName, ws: bool)
    ensures Selection(ds + [d], model, ws) ==
              Selection(ds, model, ws) + (if Selected(d, model, ws) then [d] else [])
    decreases |ds|
  {
    if |ds| == 0 {
      assert ([] + [d])[1..] == [];
      assert [] + [d] == [d];
    } else {
      assert (ds + [d])[1..] == ds[1..] + [d];
      assert (ds + [d])[0] == ds[0];
      SelectionAppend(ds[1..], d, model, ws);
    }
  }

  /** `async_setup_entry`: walks the descriptions and appends a sensor for
      each one selected. */
  method SetupEntry(model: ModelName, options: map<string, bool>) returns (entities: seq<SensorDescription>)
    ensures entities == Selection(ENTITIES, model, UseWebsocket(options))
  {
    var useWebsocket := OptionOr(options, CONF_USE_WEBSOCKET, true);
    entities := [];
    var i := 0;
    while i < |ENTITIES|
      invariant 0 <= i <= |ENTITIES|
      invariant entities == Selection(ENTITIES[..i], model, useWebsocket)
    {
      var description := ENTITIES[i];
      assert ENTITIES[..i + 1] == ENTITIES[..i] + [description];
      SelectionAppend(ENTITIES[..i], description, model, useWebsocket);
      i := i + 1;
      if model in description.extraAttributes {
        if description.key == BREW_ACTIVE && !useWebsocket {
          continue;
        }
        entities := entities + [description];
      }
    }
    assert ENTITIES[..i] == ENTITIES;
  }

  /** Every model in the tables gets the water sensor, and the brew sensor
      exactly when the websocket is in use; other models get nothing. */
  lemma SensorsPerModel(model: ModelName, useWebsocket: bool)
    ensures model.OtherModel? ==> Selection(ENTITIES, model, useWebsocket) == []
    ensures !model.OtherModel? && useWebsocket ==>
              Selection(ENTITIES, model, useWebsocket) == [WATER_RESERVOIR, BREW_ACTIVE_SENSOR]
    ensures !model.OtherModel? && !useWebsocket ==>
              Selection(ENTITIES, model, useWebsocket) == [WATER_RESERVOIR]
  {
    var t := ENTITIES;
    assert t[1..][1..] == [];
    assert Selection(t[1..], model, useWebsocket) ==
             (if Selected(t[1], model, useWebsocket) then [t[1]] else []);
  }

  /** Neither sensor has extra state attributes for any model it is
      created for. */
  lemma SensorsHaveNoAttributes(model: ModelName, status: Status)
    ensures forall d :: d in Selection(ENTITIES, model, true) ==>
              ExtraStateAttributes(d.extraAttributes, model, status) == map[]
  {
    assert forall d :: d in ENTITIES && model in d.extraAttributes ==> d.extraAttributes[model].None?;
  }

  /** The two sensors of one machine have distinct unique ids. */
  lemma SensorUniqueIdsDistinct(serialNumber: string)
    ensures UniqueId(serialNumber, WATER_RESERVOIR.key) != UniqueId(serialNumber, BREW_ACTIVE_SENSOR.key)
  {
    UniqueIdsDistinct(serialNumber, WATER_RESERVOIR.key, BREW_ACTIVE_SENSOR.key);
  }
}
