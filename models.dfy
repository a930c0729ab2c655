/** The persisted records and their field constraints (data/models.py). */
module Models {
  import opened Wrappers
  import opened Core

  /** `StatusLevel`. */
  const StatusLevels: set<string> := {"low", "medium", "high"}

  /** The constraints of `CountryState`: support at least 0, a year after 0,
      army and peasants one of the three levels; the treasury is free. */
  predicate ValidCountryState(s: CountryState) {
    s.support >= 0 && s.currentYear > 0 && s.army in StatusLevels && s.peasants in StatusLevels
  }

  /** What `model_validate` reports. */
  datatype ValidationError = InvalidCountryState | InvalidTelegramId

  /** A record entry holds an integer of at least `low`. */
  predicate IntAtLeast(m: map<string, Value>, key: string, low: int) {
    key in m && m[key].IntV? && m[key].i >= low
  }

  predicate IsLevel(m: map<string, Value>, key: string) {
    key in m && m[key].StrV? && m[key].s in StatusLevels
  }

  /** `CountryState.model_validate(record)`: every field is required and
      checked; keys that are no field are ignored. */
  function ValidateCountry(m: map<string, Value>): (r: Result<CountryState, ValidationError>)
    ensures r.Ok? <==> FieldNames <= m.Keys && WellTypedRecord(m) && ValidCountryState(Restored(m))
    ensures r.Ok? ==> r.value == Restored(m)
    ensures r.Err? ==> r.error == InvalidCountryState
  {
    if IntAtLeast(m, "support", 0) && "treasury" in m && m["treasury"].IntV?
       && IsLevel(m, "army") && IsLevel(m, "peasants") && IntAtLeast(m, "current_year", 1)
    then
      assert WellTypedRecord(m);
      Ok(CountryState(m["support"].i, m["treasury"].i, m["army"].s, m["peasants"].s, m["current_year"].i))
    else Err(InvalidCountryState)
  }

  /** Validating the record of a state accepts exactly the valid states. */
  lemma ValidateSnapshot(s: CountryState)
    ensures ValidateCountry(Snapshot(s)) == if ValidCountryState(s) then Ok(s) else Err(InvalidCountryState)
  {
    RestoredSnapshot(s);
  }

  /** A fresh country is a valid record. */
  lemma InitialIsValid()
    ensures ValidCountryState(Initial)
  {
  }

  /** The treasury has no constraint: a debt is a valid record. */
  lemma TreasuryUnconstrained(s: CountryState, t: int)
    ensures ValidCountryState(s) <==> ValidCountryState(s.(treasury := t))
  {
  }

  /** `PlayerState`: the player's id, the validated country and the class name
      of the event shown to them. */
  datatype PlayerState = PlayerState(telegramId: int, countryState: CountryState, currentEventClassName: Option<string>)

  predicate ValidPlayerState(p: PlayerState) {
    p.telegramId > 0 && ValidCountryState(p.countryState)
  }

  /** `PlayerState(...)`: the id must be positive; the event class name may be
      left out and is then `None`. */
  function NewPlayerState(telegramId: int, countryState: CountryState, currentEventClassName: Option<string> := None)
    : (r: Result<PlayerState, ValidationError>)
    requires ValidCountryState(countryState)
    ensures r.Ok? <==> telegramId > 0
    ensures r.Ok? ==> ValidPlayerState(r.value)
    ensures r.Ok? ==> r.value == PlayerState(telegramId, countryState, currentEventClassName)
    ensures r.Err? ==> r.error == InvalidTelegramId
  {
    if telegramId > 0 then Ok(PlayerState(telegramId, countryState, currentEventClassName))
    else Err(InvalidTelegramId)
  }

  /** Without a class name, the record holds `None`. */
  lemma EventClassNameDefaultsToNone(telegramId: int, countryState: CountryState)
    requires telegramId > 0 && ValidCountryState(countryState)
    ensures NewPlayerState(telegramId, countryState).Ok?
    ensures NewPlayerState(telegramId, countryState).value.currentEventClassName == None
  {
  }
}
