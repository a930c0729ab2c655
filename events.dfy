/** The base event: a description, options and their effects (events/base.py). */
module Events {
  import opened Wrappers
  import opened Core

  /** A button label and the effects dictionary of choosing it. */
  datatype EventOption = EventOption(text: string, effects: seq<Effect>)

  /** Why `Event.__init__` raised `ValueError`. */
  datatype EventError = EmptyDescription | NoOptions

  /** An event instance; `className` is the `__name__` of its class. */
  datatype Event = Event(className: string, description: string, options: seq<EventOption>) {

    /** Every option's effects have the types of the fields they name. */
    predicate WellTypedOptions() {
      forall k :: 0 <= k < |options| ==> WellTyped(options[k].effects)
    }

    /** `apply_effects(i, ...)` on a state: an index outside the options
        changes nothing; otherwise the option's effects are applied and then
        the year advances by one. */
    function Applied(s: CountryState, i: int): CountryState
      requires WellTypedOptions()
    {
      if 0 <= i < |options| then
        var u := Updated(s, options[i].effects);
        u.(currentYear := u.currentYear + 1)
      else s
    }

    /** `apply_effects` on the country object. */
    method ApplyEffects(i: int, country: Country)
      requires WellTypedOptions()
      modifies country
      ensures country.State() == Applied(old(country.State()), i)
    {
      if !(0 <= i < |options|) {
        return;
      }
      country.Update(options[i].effects);
      country.currentYear := country.currentYear + 1;
    }
  }

  /** `Event.__init__`: an empty description is refused first, then an empty
      option list; otherwise the event holds exactly what it was given. */
  function NewEvent(className: string, description: string, options: seq<EventOption>): (r: Result<Event, EventError>)
    ensures r.Ok? <==> description != [] && options != []
    ensures description == [] ==> r == Err(EmptyDescription)
    ensures description != [] && options == [] ==> r == Err(NoOptions)
    ensures r.Ok? ==> r.value.className == className && r.value.description == description
                      && r.value.options == options
  {
    if description == [] then Err(EmptyDescription)
    else if options == [] then Err(NoOptions)
    else Ok(Event(className, description, options))
  }

  /** `get_options_text`: the labels, in option order. */
  function OptionsText(options: seq<EventOption>): (r: seq<string>)
    ensures |r| == |options|
    ensures forall k :: 0 <= k < |options| ==> r[k] == options[k].text
  {
    if options == [] then [] else [options[0].text] + OptionsText(options[1..])
  }

  /** The base `is_triggered`: every event may happen in every country. */
  function IsTriggered(s: CountryState): (r: bool)
    ensures r
  {
    true
  }

  /** No entry of the effects names the field. */
  predicate Keeps(effects: seq<Effect>, f: Field) {
    forall k :: 0 <= k < |effects| ==> effects[k].key != FieldName(f)
  }

  /** A choice out of range is ignored: not even the year moves. */
  lemma AppliedOutOfRange(e: Event, s: CountryState, i: int)
    requires e.WellTypedOptions()
    requires !(0 <= i < |e.options|)
    ensures e.Applied(s, i) == s
  {
  }

  /** A valid choice applies the option's effects and then adds one year; an
      option that does not name the year moves it by exactly one. */
  lemma AppliedValid(e: Event, s: CountryState, i: int)
    requires e.WellTypedOptions()
    requires 0 <= i < |e.options|
    ensures WellTyped(e.options[i].effects)
    ensures e.Applied(s, i) == Updated(s, e.options[i].effects).(currentYear := Updated(s, e.options[i].effects).currentYear + 1)
    ensures Keeps(e.options[i].effects, CurrentYear) ==> e.Applied(s, i).currentYear == s.currentYear + 1
  {
    if Keeps(e.options[i].effects, CurrentYear) {
      UpdatedUntouched(s, e.options[i].effects, CurrentYear);
    }
  }

  /** A sequence of (event, chosen index) pairs applied one after the other. */
  function AppliedAll(s: CountryState, turns: seq<(Event, int)>): CountryState
    requires forall k :: 0 <= k < |turns| ==> turns[k].0.WellTypedOptions()
    decreases |turns|
  {
    if |turns| == 0 then s
    else
      var n := |turns| - 1;
      assert forall k :: 0 <= k < n ==> turns[..n][k].0.WellTypedOptions() by {
        forall k | 0 <= k < n ensures turns[..n][k].0.WellTypedOptions() { assert turns[..n][k] == turns[k]; }
      }
      turns[n].0.Applied(AppliedAll(s, turns[..n]), turns[n].1)
  }

  /** A valid choice whose option does not name the year. */
  predicate YearlyChoice(t: (Event, int)) {
    0 <= t.1 < |t.0.options| && Keeps(t.0.options[t.1].effects, CurrentYear)
  }

  /** n valid choices that leave the year to `apply_effects` advance it by n. */
  lemma {:induction false} YearCountsChoices(s: CountryState, turns: seq<(Event, int)>)
    requires forall k :: 0 <= k < |turns| ==> turns[k].0.WellTypedOptions()
    requires forall k :: 0 <= k < |turns| ==> YearlyChoice(turns[k])
    ensures AppliedAll(s, turns).currentYear == s.currentYear + |turns|
    decreases |turns|
  {
    if |turns| > 0 {
      var n := |turns| - 1;
      assert forall k :: 0 <= k < n ==> turns[..n][k] == turns[k];
      YearCountsChoices(s, turns[..n]);
      AppliedValid(turns[n].0, AppliedAll(s, turns[..n]), turns[n].1);
    }
  }
}
