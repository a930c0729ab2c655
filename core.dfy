/** The country of a player and how an effects dictionary changes it (game/core.py). */
module Core {
  import opened Wrappers
  import Config

  /** A value held in an effects dictionary or in a state record. */
  datatype Value = IntV(i: int) | StrV(s: string)

  /** The five attributes of a country. */
  datatype Field = Support | Treasury | Army | Peasants | CurrentYear

  /** One `key: value` entry of an effects dictionary. */
  datatype Effect = Effect(key: string, value: Value)

  /** The values of the five attributes of a country. */
  datatype CountryState = CountryState(
    support: int, treasury: int, army: string, peasants: string, currentYear: int)

  /** The state of a freshly created country. */
  const Initial: CountryState :=
    CountryState(Config.InitialSupport, Config.InitialTreasury,
                 Config.InitialArmy, Config.InitialPeasants, Config.InitialYear)

  /** The attribute name under which a field is read, written and stored. */
  function FieldName(f: Field): string {
    match f
    case Support => "support"
    case Treasury => "treasury"
    case Army => "army"
    case Peasants => "peasants"
    case CurrentYear => "current_year"
  }

  const FieldNames: set<string> := {"support", "treasury", "army", "peasants", "current_year"}

  /** The field a key names, if it names one of the five attributes: what
      `hasattr`/`getattr` find of the country's state. */
  function FieldOf(key: string): (r: Option<Field>)
    ensures forall f: Field :: FieldName(f) == key <==> r == Some(f)
    ensures r.Some? <==> key in FieldNames
  {
    if key == "support" then Some(Support)
    else if key == "treasury" then Some(Treasury)
    else if key == "army" then Some(Army)
    else if key == "peasants" then Some(Peasants)
    else if key == "current_year" then Some(CurrentYear)
    else None
  }

  /** Support, treasury and the year hold integers; army and peasants hold strings. */
  predicate IsIntField(f: Field) {
    f != Army && f != Peasants
  }

  /** A value has the type of the field it is meant for. */
  predicate Fits(f: Field, v: Value) {
    IsIntField(f) <==> v.IntV?
  }

  /** `getattr(country, name)` for one of the five fields. */
  function Get(s: CountryState, f: Field): (v: Value)
    ensures Fits(f, v)
  {
    match f
    case Support => IntV(s.support)
    case Treasury => IntV(s.treasury)
    case Army => StrV(s.army)
    case Peasants => StrV(s.peasants)
    case CurrentYear => IntV(s.currentYear)
  }

  /** `setattr(country, name, v)` for one of the five fields. */
  function With(s: CountryState, f: Field, v: Value): (r: CountryState)
    requires Fits(f, v)
    ensures Get(r, f) == v
    ensures forall g: Field :: g != f ==> Get(r, g) == Get(s, g)
  {
    match f
    case Support => s.(support := v.i)
    case Treasury => s.(treasury := v.i)
    case Army => s.(army := v.s)
    case Peasants => s.(peasants := v.s)
    case CurrentYear => s.(currentYear := v.i)
  }

  /** Two states that agree on every field are the same state. */
  lemma StateExtensionality(a: CountryState, b: CountryState)
    requires forall f: Field :: Get(a, f) == Get(b, f)
    ensures a == b
  {
    assert Get(a, Support) == Get(b, Support) && Get(a, Treasury) == Get(b, Treasury);
    assert Get(a, Army) == Get(b, Army) && Get(a, Peasants) == Get(b, Peasants);
    assert Get(a, CurrentYear) == Get(b, CurrentYear);
  }

  /** An effect on a known field carries a value of that field's type; the
      effect tables of the catalog only hold such effects. */
  predicate WellTypedEffect(e: Effect) {
    FieldOf(e.key).Some? ==> Fits(FieldOf(e.key).value, e.value)
  }

  predicate WellTyped(effects: seq<Effect>) {
    forall k :: 0 <= k < |effects| ==> WellTypedEffect(effects[k])
  }

  /** The keys of a dictionary are distinct. */
  predicate UniqueKeys(effects: seq<Effect>) {
    forall j, k :: 0 <= j < k < |effects| ==> effects[j].key != effects[k].key
  }

  /** How one entry changes a field: an integer gets the delta added, a string
      is replaced, and a field without an entry keeps its value. */
  function Merge(current: Value, entry: Option<Value>): Value
    requires entry.Some? ==> (current.IntV? <==> entry.value.IntV?)
  {
    match entry
    case None => current
    case Some(v) => if current.IntV? then IntV(current.i + v.i) else v
  }

  /** One iteration of the loop in `Country.update`. */
  function ApplyEffect(s: CountryState, e: Effect): (r: CountryState)
    requires WellTypedEffect(e)
    ensures FieldOf(e.key).None? ==> r == s
    ensures forall f: Field :: FieldOf(e.key) != Some(f) ==> Get(r, f) == Get(s, f)
    ensures forall f: Field :: FieldOf(e.key) == Some(f) ==> Get(r, f) == Merge(Get(s, f), Some(e.value))
  {
    match FieldOf(e.key)
    case None => s
    case Some(f) =>
      var current := Get(s, f);
      if current.IntV? then With(s, f, IntV(current.i + e.value.i)) else With(s, f, e.value)
  }

  /** The state after `update` has gone through the entries in order. */
  function Updated(s: CountryState, effects: seq<Effect>): CountryState
    requires WellTyped(effects)
    decreases |effects|
  {
    if |effects| == 0 then s
    else
      var n := |effects| - 1;
      assert WellTyped(effects[..n]) by {
        forall k | 0 <= k < n ensures WellTypedEffect(effects[..n][k]) {
          assert effects[..n][k] == effects[k];
        }
      }
      ApplyEffect(Updated(s, effects[..n]), effects[n])
  }

  /** The value a dictionary holds for a key. */
  function Lookup(effects: seq<Effect>, key: string): (r: Option<Value>)
    ensures r.Some? ==> Effect(key, r.value) in effects
    ensures r.None? ==> forall k :: 0 <= k < |effects| ==> effects[k].key != key
    decreases |effects|
  {
    if |effects| == 0 then None
    else if effects[|effects| - 1].key == key then Some(effects[|effects| - 1].value)
    else Lookup(effects[..|effects| - 1], key)
  }

  lemma {:induction false} LookupFinds(effects: seq<Effect>, key: string, v: Value)
    requires UniqueKeys(effects)
    requires Effect(key, v) in effects
    ensures Lookup(effects, key) == Some(v)
    decreases |effects|
  {
    var n := |effects| - 1;
    if effects[n] != Effect(key, v) {
      var j :| 0 <= j < |effects| && effects[j] == Effect(key, v);
      assert j < n;
      assert effects[..n][j] == Effect(key, v);
      LookupFinds(effects[..n], key, v);
    }
  }

  /** A well-typed entry found for a field has that field's type. */
  lemma LookupFits(effects: seq<Effect>, f: Field)
    requires WellTyped(effects)
    ensures Lookup(effects, FieldName(f)).Some? ==> Fits(f, Lookup(effects, FieldName(f)).value)
  {
    var r := Lookup(effects, FieldName(f));
    if r.Some? {
      var j :| 0 <= j < |effects| && effects[j] == Effect(FieldName(f), r.value);
      assert WellTypedEffect(effects[j]);
    }
  }

  /** `update` on a dictionary: each field is its old value merged with the
      dictionary's entry for it, whatever the order of the entries. */
  lemma {:induction false} UpdatedPointwise(s: CountryState, effects: seq<Effect>, f: Field)
    requires WellTyped(effects) && UniqueKeys(effects)
    ensures Lookup(effects, FieldName(f)).Some? ==> Fits(f, Lookup(effects, FieldName(f)).value)
    ensures Get(Updated(s, effects), f) == Merge(Get(s, f), Lookup(effects, FieldName(f)))
    decreases |effects|
  {
    LookupFits(effects, f);
    if |effects| > 0 {
      var n := |effects| - 1;
      var init, last := effects[..n], effects[n];
      assert WellTyped(init) by {
        forall k | 0 <= k < n ensures WellTypedEffect(init[k]) { assert init[k] == effects[k]; }
      }
      assert UniqueKeys(init) by {
        forall j, k | 0 <= j < k < n ensures init[j].key != init[k].key {
          assert init[j] == effects[j] && init[k] == effects[k];
        }
      }
      UpdatedPointwise(s, init, f);
      assert Updated(s, effects) == ApplyEffect(Updated(s, init), last);
      if last.key == FieldName(f) {
        forall j | 0 <= j < n ensures init[j].key != FieldName(f) {
          assert init[j] == effects[j];
        }
      }
    }
  }

  /** An entry `key: v` in the dictionary decides the new value of its field:
      the old integer plus `v`, or `v` itself for a string field. */
  lemma UpdatedEntry(s: CountryState, effects: seq<Effect>, f: Field, v: Value)
    requires WellTyped(effects) && UniqueKeys(effects)
    requires Effect(FieldName(f), v) in effects
    ensures Fits(f, v)
    ensures IsIntField(f) ==> Get(Updated(s, effects), f) == IntV(Get(s, f).i + v.i)
    ensures !IsIntField(f) ==> Get(Updated(s, effects), f) == v
  {
    LookupFinds(effects, FieldName(f), v);
    UpdatedPointwise(s, effects, f);
  }

  /** A field that no entry names keeps its value; this needs no distinct keys. */
  lemma {:induction false} UpdatedUntouched(s: CountryState, effects: seq<Effect>, f: Field)
    requires WellTyped(effects)
    requires forall k :: 0 <= k < |effects| ==> effects[k].key != FieldName(f)
    ensures Get(Updated(s, effects), f) == Get(s, f)
    decreases |effects|
  {
    if |effects| > 0 {
      var n := |effects| - 1;
      var init := effects[..n];
      assert WellTyped(init) by {
        forall k | 0 <= k < n ensures WellTypedEffect(init[k]) { assert init[k] == effects[k]; }
      }
      assert forall k :: 0 <= k < n ==> init[k].key != FieldName(f) by {
        forall k | 0 <= k < n ensures init[k].key != FieldName(f) { assert init[k] == effects[k]; }
      }
      UpdatedUntouched(s, init, f);
    }
  }

  /** Entries whose keys name no field change nothing. */
  lemma {:induction false} UpdatedUnknownKeys(s: CountryState, effects: seq<Effect>)
    requires forall k :: 0 <= k < |effects| ==> FieldOf(effects[k].key).None?
    ensures WellTyped(effects)
    ensures Updated(s, effects) == s
    decreases |effects|
  {
    if |effects| > 0 {
      var n := |effects| - 1;
      assert forall k :: 0 <= k < n ==> FieldOf(effects[..n][k].key).None? by {
        forall k | 0 <= k < n ensures FieldOf(effects[..n][k].key).None? { assert effects[..n][k] == effects[k]; }
      }
      UpdatedUnknownKeys(s, effects[..n]);
    }
  }

  lemma LookupSameEntries(e1: seq<Effect>, e2: seq<Effect>, key: string)
    requires UniqueKeys(e1) && UniqueKeys(e2)
    requires multiset(e1) == multiset(e2)
    ensures Lookup(e1, key) == Lookup(e2, key)
  {
    if Lookup(e1, key).Some? {
      var v := Lookup(e1, key).value;
      assert Effect(key, v) in multiset(e1);
      LookupFinds(e2, key, v);
    }
    if Lookup(e2, key).Some? {
      var v := Lookup(e2, key).value;
      assert Effect(key, v) in multiset(e2);
      LookupFinds(e1, key, v);
    }
  }

  /** Reordering the entries of a dictionary does not change what `update` does. */
  lemma UpdateOrderIndependent(s: CountryState, e1: seq<Effect>, e2: seq<Effect>)
    requires WellTyped(e1) && UniqueKeys(e1)
    requires WellTyped(e2) && UniqueKeys(e2)
    requires multiset(e1) == multiset(e2)
    ensures Updated(s, e1) == Updated(s, e2)
  {
    forall f: Field ensures Get(Updated(s, e1), f) == Get(Updated(s, e2), f) {
      UpdatedPointwise(s, e1, f);
      UpdatedPointwise(s, e2, f);
      LookupSameEntries(e1, e2, FieldName(f));
    }
    StateExtensionality(Updated(s, e1), Updated(s, e2));
  }

  /** The record `get_state` returns. */
  function Snapshot(s: CountryState): (m: map<string, Value>)
    ensures m.Keys == FieldNames
    ensures forall f: Field :: m[FieldName(f)] == Get(s, f)
  {
    map["support" := IntV(s.support), "treasury" := IntV(s.treasury), "army" := StrV(s.army),
        "peasants" := StrV(s.peasants), "current_year" := IntV(s.currentYear)]
  }

  /** A record whose entries for the five fields have the fields' types. */
  predicate WellTypedRecord(m: map<string, Value>) {
    forall k :: k in m && FieldOf(k).Some? ==> Fits(FieldOf(k).value, m[k])
  }

  /** `load_state`: each field is read from the record, falling back to its
      initial value when the key is missing; other keys are ignored. */
  function Restored(m: map<string, Value>): (r: CountryState)
    requires WellTypedRecord(m)
    ensures forall f: Field :: Get(r, f) == if FieldName(f) in m then m[FieldName(f)] else Get(Initial, f)
  {
    assert Fits(Support, if "support" in m then m["support"] else IntV(0));
    assert Fits(Treasury, if "treasury" in m then m["treasury"] else IntV(0));
    assert Fits(Army, if "army" in m then m["army"] else StrV(""));
    assert Fits(Peasants, if "peasants" in m then m["peasants"] else StrV(""));
    assert Fits(CurrentYear, if "current_year" in m then m["current_year"] else IntV(0));
    CountryState(
      if "support" in m then m["support"].i else Config.InitialSupport,
      if "treasury" in m then m["treasury"].i else Config.InitialTreasury,
      if "army" in m then m["army"].s else Config.InitialArmy,
      if "peasants" in m then m["peasants"].s else Config.InitialPeasants,
      if "current_year" in m then m["current_year"].i else Config.InitialYear)
  }

  /** `load_state(get_state())` gives back the same five values. */
  lemma RestoredSnapshot(s: CountryState)
    ensures WellTypedRecord(Snapshot(s))
    ensures Restored(Snapshot(s)) == s
  {
    var m := Snapshot(s);
    forall f: Field ensures Get(Restored(m), f) == Get(s, f) {
      assert FieldName(f) in m;
    }
    StateExtensionality(Restored(m), s);
  }

  /** Loading an empty record gives a fresh country. */
  lemma RestoredEmpty()
    ensures Restored(map[]) == Initial
  {
    forall f: Field ensures Get(Restored(map[]), f) == Get(Initial, f) { }
    StateExtensionality(Restored(map[]), Initial);
  }

  /** A player's country, updated in place. */
  class Country {
    var support: int
    var treasury: int
    var army: string
    var peasants: string
    var currentYear: int

    function State(): CountryState
      reads this
    {
      CountryState(support, treasury, army, peasants, currentYear)
    }

    constructor ()
      ensures State() == Initial
    {
      support := Config.InitialSupport;
      treasury := Config.InitialTreasury;
      army := Config.InitialArmy;
      peasants := Config.InitialPeasants;
      currentYear := Config.InitialYear;
    }

    /** `setattr` on one of the five fields. */
    method SetField(f: Field, v: Value)
      requires Fits(f, v)
      modifies this
      ensures State() == With(old(State()), f, v)
    {
      match f
      case Support => support := v.i;
      case Treasury => treasury := v.i;
      case Army => army := v.s;
      case Peasants => peasants := v.s;
      case CurrentYear => currentYear := v.i;
    }

    /** `update`: folds the entries of an effects dictionary into the country,
        in dictionary order; an unknown key is only warned about. */
    method Update(effects: seq<Effect>)
      requires WellTyped(effects)
      modifies this
      ensures State() == Updated(old(State()), effects)
    {
      var i := 0;
      while i < |effects|
        invariant 0 <= i <= |effects|
        invariant State() == Updated(old(State()), effects[..i])
      {
        var e := effects[i];
        assert WellTypedEffect(e);
        match FieldOf(e.key) {
          case Some(f) =>
            var current := Get(State(), f);
            if current.IntV? {
              SetField(f, IntV(current.i + e.value.i));
            } else {
              SetField(f, e.value);
            }
          case None =>
        }
        assert effects[..i + 1][..i] == effects[..i];
        i := i + 1;
      }
      assert effects[..i] == effects;
    }

    /** `get_state`: the record that `load_state` turns back into this state. */
    function GetState(): (m: map<string, Value>)
      reads this
      ensures m.Keys == FieldNames
      ensures WellTypedRecord(m) && Restored(m) == State()
    {
      RestoredSnapshot(State());
      Snapshot(State())
    }

    /** `load_state`. */
    method LoadState(m: map<string, Value>)
      requires WellTypedRecord(m)
      modifies this
      ensures State() == Restored(m)
    {
      var r := Restored(m);
      support, treasury, army, peasants, currentYear :=
        r.support, r.treasury, r.army, r.peasants, r.currentYear;
    }
  }

  /** A player: an id, a country and the ids of the messages sent to them. */
  class Player {
    var telegramId: int
    var country: Country
    var messageHistory: seq<int>

    constructor (telegramId: int)
      ensures this.telegramId == telegramId
      ensures fresh(country) && country.State() == Initial
      ensures messageHistory == []
    {
      this.telegramId := telegramId;
      country := new Country();
      messageHistory := [];
    }

    /** `load_country_state`: loads the record into the player's country. */
    method LoadCountryState(m: map<string, Value>)
      requires WellTypedRecord(m)
      modifies country
      ensures country.State() == Restored(m)
    {
      country.LoadState(m);
    }
  }
}
