/** The turn logic of the bot, with the chat transport reduced to a trace of
    actions (bot/handlers.py). */
module Handlers {
  import opened Wrappers
  import opened Core
  import opened Events
  import opened Catalog
  import opened Mechanics
  import opened Models
  import opened CallbackData

  /** An inline button: its text and its callback data. */
  datatype Button = Button(text: string, callbackData: string)

  /** The keyboard for an event: one button per option, in option order. */
  function EventKeyboard(e: Event): seq<Button> {
    var texts := OptionsText(e.options);
    seq(|texts|, i requires 0 <= i < |texts| => Button(texts[i], ChoiceData(i)))
  }

  /** `build_event_keyboard`. */
  method BuildEventKeyboard(e: Event) returns (keyboard: seq<Button>)
    ensures |keyboard| == |e.options|
    ensures forall i :: 0 <= i < |keyboard| ==> keyboard[i].text == e.options[i].text
    ensures forall i :: 0 <= i < |keyboard| ==> ParseChoice(keyboard[i].callbackData) == Some(i)
    ensures keyboard == EventKeyboard(e)
  {
    var texts := OptionsText(e.options);
    keyboard := [];
    for i := 0 to |texts|
      invariant |keyboard| == i
      invariant forall k :: 0 <= k < i ==> keyboard[k] == Button(texts[k], ChoiceData(k))
    {
      keyboard := keyboard + [Button(texts[i], ChoiceData(i))];
    }
    forall i | 0 <= i < |keyboard| ensures ParseChoice(keyboard[i].callbackData) == Some(i) {
      ChoiceRoundTrip(i);
    }
  }

  /** Pressing button i of an event's keyboard chooses option i. */
  lemma KeyboardSelectsOption(e: Event, i: int)
    requires 0 <= i < |e.options|
    ensures |EventKeyboard(e)| == |e.options|
    ensures EventKeyboard(e)[i].text == e.options[i].text
    ensures EventKeyboard(e)[i].callbackData == ChoiceData(i)
    ensures ParseChoice(EventKeyboard(e)[i].callbackData) == Some(i)
  {
    ChoiceRoundTrip(i);
  }

  /** The first class in the list with the given `__name__`. */
  function FirstNamed(classes: seq<EventClass>, name: string): (r: Option<EventClass>)
    ensures r.Some? ==> exists k :: 0 <= k < |classes| && classes[k] == r.value && Name(r.value) == name
                                    && forall j :: 0 <= j < k ==> Name(classes[j]) != name
    ensures r.None? <==> forall k :: 0 <= k < |classes| ==> Name(classes[k]) != name
    decreases |classes|
  {
    if classes == [] then None
    else if Name(classes[0]) == name then Some(classes[0])
    else
      var r := FirstNamed(classes[1..], name);
      assert forall k :: 1 <= k < |classes| ==> classes[k] == classes[1..][k - 1];
      r
  }

  /** A class whose name no earlier class has is the first one named so. */
  lemma FirstNamedAt(classes: seq<EventClass>, name: string, k: int)
    requires 0 <= k < |classes| && Name(classes[k]) == name
    requires forall j :: 0 <= j < k ==> Name(classes[j]) != name
    ensures FirstNamed(classes, name) == Some(classes[k])
  {
    var r := FirstNamed(classes, name);
    var m :| 0 <= m < |classes| && classes[m] == r.value && Name(r.value) == name
             && forall j :: 0 <= j < m ==> Name(classes[j]) != name;
    assert !(m < k) && !(k < m);
  }

  /** The class the handler finds for the stored name: none when no name is
      stored, the name is empty, or no available class has it. */
  function StoredClass(name: Option<string>): Option<EventClass> {
    if name.Some? && name.value != "" then FirstNamed(AvailableEvents, name.value) else None
  }

  /** The `for ... break` over `AVAILABLE_EVENTS` in `handle_event_choice`. */
  method FindEventClass(name: Option<string>) returns (found: Option<EventClass>)
    ensures found == StoredClass(name)
    ensures found.Some? ==> found.value in AvailableEvents && name == Some(Name(found.value))
  {
    found := None;
    if name.Some? && name.value != "" {
      for k := 0 to |AvailableEvents|
        invariant found.None?
        invariant forall j :: 0 <= j < k ==> Name(AvailableEvents[j]) != name.value
      {
        if Name(AvailableEvents[k]) == name.value {
          FirstNamedAt(AvailableEvents, name.value, k);
          found := Some(AvailableEvents[k]);
          break;
        }
      }
    }
  }

  /** How the handler was reached: a `/start` message or a button press. */
  datatype Via = ViaMessage | ViaCallback

  /** What the player is shown. */
  datatype Screen =
    | EventScreen(description: string, keyboard: seq<Button>)
    | RestartPrompt
    | GameOverScreen(reason: Reason)
    | StoryEnded
    | NoEventToStart

  /** The pop-up alerts of `callback.answer(..., show_alert=True)`. */
  datatype Alert = StateNotFound | UnknownEvent | BadChoice

  /** What a handler does, in order: a save, a new message, an edit of the
      pressed message, the answer to the button press, an alert, or a
      validation error that escapes the handler. */
  datatype Action =
    | Save(record: PlayerState)
    | Reply(screen: Screen)
    | Edit(screen: Screen)
    | Answer
    | AlertUser(alert: Alert)
    | Crash(error: ValidationError)

  /** The stored record after the actions: the last one saved. A reply or an
      edit that fails is caught and leaves every earlier save in place. */
  function Persisted(before: Option<PlayerState>, actions: seq<Action>): Option<PlayerState>
    decreases |actions|
  {
    if actions == [] then before
    else Persisted(if actions[0].Save? then Some(actions[0].record) else before, actions[1..])
  }

  predicate NoSave(actions: seq<Action>) {
    forall k :: 0 <= k < |actions| ==> !actions[k].Save?
  }

  lemma {:induction false} PersistedWithoutSave(before: Option<PlayerState>, actions: seq<Action>)
    requires NoSave(actions)
    ensures Persisted(before, actions) == before
    decreases |actions|
  {
    if actions != [] {
      assert !actions[0].Save?;
      assert forall k :: 0 <= k < |actions| - 1 ==> actions[1..][k] == actions[k + 1];
      PersistedWithoutSave(before, actions[1..]);
    }
  }

  /** After a save followed only by actions that do not save, the stored
      record is the one saved. */
  lemma PersistedLastSave(before: Option<PlayerState>, record: PlayerState, rest: seq<Action>)
    requires NoSave(rest)
    ensures Persisted(before, [Save(record)] + rest) == Some(record)
  {
    assert ([Save(record)] + rest)[1..] == rest;
    PersistedWithoutSave(Some(record), rest);
  }

  /** How an event is shown: a new message after `/start`; after a button
      press, the press is answered and the pressed message edited. */
  function Shown(via: Via, e: Event): (r: seq<Action>)
    ensures NoSave(r)
  {
    var screen := EventScreen(e.description, EventKeyboard(e));
    if via == ViaMessage then [Reply(screen)] else [Answer, Edit(screen)]
  }

  /** `send_event_to_player` on a state: the record is built and validated,
      saved, and only then is the event shown. */
  function SendEvent(via: Via, telegramId: int, s: CountryState, e: Event): seq<Action> {
    match ValidateCountry(Snapshot(s))
    case Err(error) => [Crash(error)]
    case Ok(country) =>
      match NewPlayerState(telegramId, country, Some(e.className))
      case Err(error) => [Crash(error)]
      case Ok(record) => [Save(record)] + Shown(via, e)
  }

  /** `send_event_to_player` on the player object. The id of a sent message
      is not modelled: the player object is dropped after the handler. */
  method SendEventToPlayer(via: Via, player: Player, e: Event) returns (actions: seq<Action>)
    ensures actions == SendEvent(via, player.telegramId, player.country.State(), e)
  {
    var keyboard := BuildEventKeyboard(e);
    var validated := ValidateCountry(player.country.GetState());
    if validated.Err? {
      actions := [Crash(validated.error)];
      return;
    }
    var record := NewPlayerState(player.telegramId, validated.value, Some(e.className));
    if record.Err? {
      actions := [Crash(record.error)];
      return;
    }
    actions := [Save(record.value)];
    var screen := EventScreen(e.description, keyboard);
    match via {
      case ViaMessage =>
        actions := actions + [Reply(screen)];
      case ViaCallback =>
        actions := actions + [Answer, Edit(screen)];
    }
  }

  /** The country `load_country_state(model_dump())` rebuilds from a record. */
  function LoadedCountry(p: PlayerState): (s: CountryState)
    ensures s == p.countryState
  {
    RestoredSnapshot(p.countryState);
    Restored(Snapshot(p.countryState))
  }

  /** What happens after the effects are applied: the game-over test, then
      the next event (`next`, the outcome of `get_next_event`). */
  function AfterChoice(telegramId: int, post: CountryState, next: Option<Event>): seq<Action> {
    match GameOverReason(post)
    case Some(reason) => [Edit(GameOverScreen(reason)), Answer]
    case None =>
      match next
      case Some(e) => SendEvent(ViaCallback, telegramId, post, e)
      case None => [Edit(StoryEnded), Answer]
  }

  /** The router only passes button data that starts with `choice_`. */
  predicate IsChoiceData(data: string) {
    "choice_" <= data
  }

  /** Every button the bot builds passes the router. */
  lemma ChoiceDataIsChoice(i: nat)
    ensures IsChoiceData(ChoiceData(i))
  {
    assert ChoiceData(i)[..|"choice_"|] == "choice_";
  }

  /** `handle_event_choice`: a missing record, an unknown event class and
      unreadable data stop it, in that order; otherwise the chosen option is
      applied to the stored country and the turn goes on. */
  function ChoiceTrace(telegramId: int, loaded: Option<PlayerState>, data: string, draw: nat): seq<Action>
    requires IsChoiceData(data)
  {
    if loaded.None? then [AlertUser(StateNotFound), Edit(RestartPrompt)]
    else
      match StoredClass(loaded.value.currentEventClassName)
      case None => [AlertUser(UnknownEvent)]
      case Some(c) =>
        match ParseChoice(data)
        case None => [AlertUser(BadChoice)]
        case Some(i) =>
          var post := Instance(c).Applied(LoadedCountry(loaded.value), i);
          AfterChoice(telegramId, post, NextEvent(post, draw))
  }

  /** `handle_event_choice` on objects: the player and its country are built
      from the stored record and changed in place. */
  method HandleEventChoice(telegramId: int, loaded: Option<PlayerState>, data: string, draw: nat)
    returns (actions: seq<Action>)
    requires IsChoiceData(data)
    ensures actions == ChoiceTrace(telegramId, loaded, data, draw)
  {
    if loaded.None? {
      actions := [AlertUser(StateNotFound), Edit(RestartPrompt)];
      return;
    }
    var stored := loaded.value;
    var eventClass := FindEventClass(stored.currentEventClassName);
    if eventClass.None? {
      actions := [AlertUser(UnknownEvent)];
      return;
    }
    var event := Instance(eventClass.value);
    var choice := ParseChoice(data);
    if choice.None? {
      actions := [AlertUser(BadChoice)];
      return;
    }
    ChoiceTraceApplies(telegramId, stored, data, draw, eventClass.value, choice.value);
    actions := PlayChoice(telegramId, stored, event, choice.value, draw);
  }

  /** The player and its country are rebuilt from the stored record, the
      chosen option is applied to the country in place, and the turn ends. */
  method PlayChoice(telegramId: int, stored: PlayerState, event: Event, i: int, draw: nat)
    returns (actions: seq<Action>)
    requires event.WellTypedOptions()
    ensures actions == AfterChoice(telegramId, event.Applied(stored.countryState, i),
                                   NextEvent(event.Applied(stored.countryState, i), draw))
  {
    var player := new Player(telegramId);
    RestoredSnapshot(stored.countryState);
    player.LoadCountryState(Snapshot(stored.countryState));
    event.ApplyEffects(i, player.country);
    actions := FinishTurn(player, draw);
  }

  /** The end of `handle_event_choice`, once the effects are applied: the
      game-over test, then the next event. */
  method FinishTurn(player: Player, draw: nat) returns (actions: seq<Action>)
    ensures actions == AfterChoice(player.telegramId, player.country.State(), NextEvent(player.country.State(), draw))
  {
    var reason := GameOverReason(player.country.State());
    if reason.Some? {
      actions := [Edit(GameOverScreen(reason.value)), Answer];
      return;
    }
    var next := NextEvent(player.country.State(), draw);
    if next.Some? {
      actions := SendEventToPlayer(ViaCallback, player, next.value);
    } else {
      actions := [Edit(StoryEnded), Answer];
    }
  }

  /** `handle_start`: the stored country, or a fresh one, gets its next event. */
  function StartTrace(telegramId: int, loaded: Option<PlayerState>, draw: nat): seq<Action> {
    var country := if loaded.Some? then LoadedCountry(loaded.value) else Initial;
    match NextEvent(country, draw)
    case Some(e) => SendEvent(ViaMessage, telegramId, country, e)
    case None => [Reply(NoEventToStart)]
  }

  method HandleStart(telegramId: int, loaded: Option<PlayerState>, draw: nat) returns (actions: seq<Action>)
    ensures actions == StartTrace(telegramId, loaded, draw)
  {
    var player := new Player(telegramId);
    if loaded.Some? {
      RestoredSnapshot(loaded.value.countryState);
      player.LoadCountryState(Snapshot(loaded.value.countryState));
    }
    var next := NextEvent(player.country.State(), draw);
    if next.Some? {
      actions := SendEventToPlayer(ViaMessage, player, next.value);
    } else {
      actions := [Reply(NoEventToStart)];
    }
  }

  /** A stopped turn (no record, unknown event class, unreadable data) saves
      nothing, so the stored record stays what it was. */
  lemma AbortedChoiceSavesNothing(telegramId: int, loaded: Option<PlayerState>, data: string, draw: nat,
                                  before: Option<PlayerState>)
    requires IsChoiceData(data)
    requires loaded.None? || StoredClass(loaded.value.currentEventClassName).None? || ParseChoice(data).None?
    ensures NoSave(ChoiceTrace(telegramId, loaded, data, draw))
    ensures Persisted(before, ChoiceTrace(telegramId, loaded, data, draw)) == before
  {
    PersistedWithoutSave(before, ChoiceTrace(telegramId, loaded, data, draw));
  }

  /** Game over shows the reason and saves nothing, whatever the next event. */
  lemma AfterGameOver(telegramId: int, post: CountryState, next: Option<Event>, before: Option<PlayerState>)
    requires GameOverReason(post).Some?
    ensures AfterChoice(telegramId, post, next) == [Edit(GameOverScreen(GameOverReason(post).value)), Answer]
    ensures Persisted(before, AfterChoice(telegramId, post, next)) == before
  {
    PersistedWithoutSave(before, AfterChoice(telegramId, post, next));
  }

  /** On game over nothing is saved: the stored record keeps its old value. */
  lemma GameOverSavesNothing(telegramId: int, p: PlayerState, data: string, draw: nat,
                             before: Option<PlayerState>, c: EventClass, i: int)
    requires IsChoiceData(data)
    requires StoredClass(p.currentEventClassName) == Some(c) && ParseChoice(data) == Some(i)
    requires GameOverReason(Instance(c).Applied(p.countryState, i)).Some?
    ensures ChoiceTrace(telegramId, Some(p), data, draw)
            == [Edit(GameOverScreen(GameOverReason(Instance(c).Applied(p.countryState, i)).value)), Answer]
    ensures Persisted(before, ChoiceTrace(telegramId, Some(p), data, draw)) == before
  {
    var post := Instance(c).Applied(p.countryState, i);
    ChoiceTraceApplies(telegramId, p, data, draw, c, i);
    AfterGameOver(telegramId, post, NextEvent(post, draw), before);
  }

  /** `send_event_to_player` with a valid state and id saves the state with
      the event's class name, and only then shows the event. */
  lemma SendEventSaves(via: Via, telegramId: int, s: CountryState, e: Event, before: Option<PlayerState>)
    requires telegramId > 0 && ValidCountryState(s)
    ensures SendEvent(via, telegramId, s, e) == [Save(PlayerState(telegramId, s, Some(e.className)))] + Shown(via, e)
    ensures Persisted(before, SendEvent(via, telegramId, s, e)) == Some(PlayerState(telegramId, s, Some(e.className)))
  {
    ValidateSnapshot(s);
    PersistedLastSave(before, PlayerState(telegramId, s, Some(e.className)), Shown(via, e));
  }

  /** A state that fails validation, or an id that is not positive, makes
      `send_event_to_player` raise before the save: nothing is stored. */
  lemma SendEventRefusesInvalid(via: Via, telegramId: int, s: CountryState, e: Event)
    requires telegramId <= 0 || !ValidCountryState(s)
    ensures |SendEvent(via, telegramId, s, e)| == 1 && SendEvent(via, telegramId, s, e)[0].Crash?
  {
    ValidateSnapshot(s);
  }

  /** Once the record, the class and the index are found, the turn is what
      follows the choice on the country as it was stored. */
  lemma ChoiceTraceApplies(telegramId: int, p: PlayerState, data: string, draw: nat, c: EventClass, i: int)
    requires IsChoiceData(data)
    requires StoredClass(p.currentEventClassName) == Some(c) && ParseChoice(data) == Some(i)
    ensures ChoiceTrace(telegramId, Some(p), data, draw)
            == AfterChoice(telegramId, Instance(c).Applied(p.countryState, i),
                           NextEvent(Instance(c).Applied(p.countryState, i), draw))
  {
  }

  /** With no game over and a next event: the saved country is the one after
      the effects and the year increment, and the saved class name is the
      next event's; the save comes before the edit that shows it. */
  lemma ContinuingChoiceSaves(telegramId: int, p: PlayerState, data: string, draw: nat,
                              before: Option<PlayerState>, c: EventClass, i: int, e: Event)
    requires IsChoiceData(data)
    requires StoredClass(p.currentEventClassName) == Some(c) && ParseChoice(data) == Some(i)
    requires telegramId > 0 && ValidCountryState(Instance(c).Applied(p.countryState, i))
    requires GameOverReason(Instance(c).Applied(p.countryState, i)).None?
    requires NextEvent(Instance(c).Applied(p.countryState, i), draw) == Some(e)
    ensures ChoiceTrace(telegramId, Some(p), data, draw)
            == [Save(PlayerState(telegramId, Instance(c).Applied(p.countryState, i), Some(e.className)))]
               + Shown(ViaCallback, e)
    ensures Persisted(before, ChoiceTrace(telegramId, Some(p), data, draw))
            == Some(PlayerState(telegramId, Instance(c).Applied(p.countryState, i), Some(e.className)))
  {
    var post := Instance(c).Applied(p.countryState, i);
    ChoiceTraceApplies(telegramId, p, data, draw, c, i);
    assert AfterChoice(telegramId, post, NextEvent(post, draw)) == SendEvent(ViaCallback, telegramId, post, e);
    SendEventSaves(ViaCallback, telegramId, post, e, before);
  }

  /** A valid choice of a catalog event from a valid country that does not end
      the game leaves a valid country, one year older. */
  lemma CatalogChoiceKeepsValid(s: CountryState, c: EventClass, i: int)
    requires ValidCountryState(s) && 0 <= i < |Instance(c).options|
    requires GameOverReason(Instance(c).Applied(s, i)).None?
    ensures ValidCountryState(Instance(c).Applied(s, i))
    ensures Instance(c).Applied(s, i).currentYear == s.currentYear + 1
  {
    var effects := Instance(c).options[i].effects;
    MovesOnlyMoneyFacts(effects);
    UpdatedUntouched(s, effects, Army);
    UpdatedUntouched(s, effects, Peasants);
    AppliedValid(Instance(c), s, i);
  }

  /** A turn from a valid stored record that picks a valid option and does not
      end the game stores a valid record again. */
  lemma ValidTurnStoresValidRecord(p: PlayerState, data: string, draw: nat, before: Option<PlayerState>,
                                   c: EventClass, i: int)
    requires IsChoiceData(data) && ValidPlayerState(p)
    requires StoredClass(p.currentEventClassName) == Some(c) && ParseChoice(data) == Some(i)
    requires 0 <= i < |Instance(c).options|
    requires GameOverReason(Instance(c).Applied(p.countryState, i)).None?
    ensures Persisted(before, ChoiceTrace(p.telegramId, Some(p), data, draw)).Some?
    ensures ValidPlayerState(Persisted(before, ChoiceTrace(p.telegramId, Some(p), data, draw)).value)
  {
    var post := Instance(c).Applied(p.countryState, i);
    CatalogChoiceKeepsValid(p.countryState, c, i);
    NextEventAlwaysFound(post, draw);
    ContinuingChoiceSaves(p.telegramId, p, data, draw, before, c, i, NextEvent(post, draw).value);
  }

  /** An index outside the options, such as `choice_7`, applies nothing and
      keeps the year, yet the turn goes on and saves the unchanged country. */
  lemma OutOfRangeChoiceStillSaves(telegramId: int, p: PlayerState, data: string, draw: nat,
                                   before: Option<PlayerState>, c: EventClass, i: int, e: Event)
    requires IsChoiceData(data)
    requires StoredClass(p.currentEventClassName) == Some(c) && ParseChoice(data) == Some(i)
    requires !(0 <= i < |Instance(c).options|)
    requires telegramId > 0 && ValidCountryState(p.countryState) && GameOverReason(p.countryState).None?
    requires NextEvent(p.countryState, draw) == Some(e)
    ensures Persisted(before, ChoiceTrace(telegramId, Some(p), data, draw))
            == Some(PlayerState(telegramId, p.countryState, Some(e.className)))
  {
    AppliedOutOfRange(Instance(c), p.countryState, i);
    ContinuingChoiceSaves(telegramId, p, data, draw, before, c, i, e);
  }

  /** `choice_7` reads as 7, which no catalog event has an option for. */
  lemma ChoiceSevenIsOutOfRange(c: EventClass)
    ensures ParseChoice("choice_7") == Some(7)
    ensures !(0 <= 7 < |Instance(c).options|)
  {
    ChoiceRoundTrip(7);
    assert ChoiceData(7) == "choice_7";
  }

  /** The class name that is saved finds its class again on the next turn. */
  lemma SavedClassResolves(d: EventClass)
    ensures StoredClass(Some(Name(d))) == Some(d)
  {
    match d {
      case HarvestFestivalEvent => FirstNamedAt(AvailableEvents, Name(d), 0);
      case MerchantCaravanEvent => FirstNamedAt(AvailableEvents, Name(d), 1);
    }
  }

  /** Pressing button k of the event a turn showed applies option k of that
      event to the country that turn saved. */
  lemma NextPressAppliesShownOption(telegramId: int, s: CountryState, d: EventClass, k: int, draw: nat)
    requires 0 <= k < |Instance(d).options|
    ensures IsChoiceData(EventKeyboard(Instance(d))[k].callbackData)
    ensures ChoiceTrace(telegramId, Some(PlayerState(telegramId, s, Some(Name(d)))),
                        EventKeyboard(Instance(d))[k].callbackData, draw)
            == AfterChoice(telegramId, Instance(d).Applied(s, k), NextEvent(Instance(d).Applied(s, k), draw))
  {
    var data := EventKeyboard(Instance(d))[k].callbackData;
    KeyboardSelectsOption(Instance(d), k);
    ChoiceDataIsChoice(k);
    SavedClassResolves(d);
    ChoiceTraceApplies(telegramId, PlayerState(telegramId, s, Some(Name(d))), data, draw, d, k);
  }

  /** The action shows an event and its buttons. */
  predicate ShowsEvent(a: Action) {
    (a.Reply? || a.Edit?) && a.screen.EventScreen?
  }

  /** Every action that shows an event comes after a save. */
  predicate SavedBeforeShown(actions: seq<Action>) {
    forall k :: 0 <= k < |actions| && ShowsEvent(actions[k]) ==> exists j :: 0 <= j < k && actions[j].Save?
  }

  lemma SendEventSavedBeforeShown(via: Via, telegramId: int, s: CountryState, e: Event)
    ensures SavedBeforeShown(SendEvent(via, telegramId, s, e))
  {
    var t := SendEvent(via, telegramId, s, e);
    forall k | 0 <= k < |t| && ShowsEvent(t[k]) ensures exists j :: 0 <= j < k && t[j].Save? {
      assert t[0].Save?;
    }
  }

  lemma AfterChoiceSavedBeforeShown(telegramId: int, post: CountryState, next: Option<Event>)
    ensures SavedBeforeShown(AfterChoice(telegramId, post, next))
  {
    if GameOverReason(post).None? && next.Some? {
      SendEventSavedBeforeShown(ViaCallback, telegramId, post, next.value);
    }
  }

  /** In every button turn the event is shown only once the save is made, so
      a failed edit cannot lose that save. */
  lemma ChoiceSavedBeforeShown(telegramId: int, loaded: Option<PlayerState>, data: string, draw: nat)
    requires IsChoiceData(data)
    ensures SavedBeforeShown(ChoiceTrace(telegramId, loaded, data, draw))
  {
    if loaded.Some? && StoredClass(loaded.value.currentEventClassName).Some? && ParseChoice(data).Some? {
      var c := StoredClass(loaded.value.currentEventClassName).value;
      var i := ParseChoice(data).value;
      var post := Instance(c).Applied(loaded.value.countryState, i);
      ChoiceTraceApplies(telegramId, loaded.value, data, draw, c, i);
      AfterChoiceSavedBeforeShown(telegramId, post, NextEvent(post, draw));
    }
  }

  lemma StartSavedBeforeShown(telegramId: int, loaded: Option<PlayerState>, draw: nat)
    ensures SavedBeforeShown(StartTrace(telegramId, loaded, draw))
  {
    var country := if loaded.Some? then LoadedCountry(loaded.value) else Initial;
    if NextEvent(country, draw).Some? {
      SendEventSavedBeforeShown(ViaMessage, telegramId, country, NextEvent(country, draw).value);
    }
  }

  /** A new player's `/start` stores a fresh country with the first event. */
  lemma FreshStartStoresInitialCountry(telegramId: int, draw: nat, e: Event, before: Option<PlayerState>)
    requires telegramId > 0
    requires NextEvent(Initial, draw) == Some(e)
    ensures StartTrace(telegramId, None, draw) == [Save(PlayerState(telegramId, Initial, Some(e.className)))] + Shown(ViaMessage, e)
    ensures Persisted(before, StartTrace(telegramId, None, draw)) == Some(PlayerState(telegramId, Initial, Some(e.className)))
  {
    InitialIsValid();
    assert StartTrace(telegramId, None, draw) == SendEvent(ViaMessage, telegramId, Initial, e);
    SendEventSaves(ViaMessage, telegramId, Initial, e, before);
  }

  /** A returning player's `/start` keeps the stored country and only
      replaces the stored event. */
  lemma ResumedStartKeepsCountry(telegramId: int, p: PlayerState, draw: nat, e: Event,
                                 before: Option<PlayerState>)
    requires telegramId > 0 && ValidCountryState(p.countryState)
    requires NextEvent(p.countryState, draw) == Some(e)
    ensures StartTrace(telegramId, Some(p), draw)
            == [Save(PlayerState(telegramId, p.countryState, Some(e.className)))] + Shown(ViaMessage, e)
    ensures Persisted(before, StartTrace(telegramId, Some(p), draw))
            == Some(PlayerState(telegramId, p.countryState, Some(e.className)))
  {
    assert StartTrace(telegramId, Some(p), draw) == SendEvent(ViaMessage, telegramId, p.countryState, e);
    SendEventSaves(ViaMessage, telegramId, p.countryState, e, before);
  }

  /** A record a turn can go on from: valid, not over, and naming a class the
      next turn finds. */
  predicate Resumable(p: PlayerState) {
    ValidPlayerState(p) && GameOverReason(p.countryState).None? && StoredClass(p.currentEventClassName).Some?
  }

  /** What the store holds: nothing yet, or a resumable record. */
  predicate GoodStore(r: Option<PlayerState>) {
    r.None? || Resumable(r.value)
  }

  /** `send_event_to_player` stores the record exactly when the id and the
      state are valid; otherwise the store is left as it was. */
  lemma SendEventPersisted(via: Via, telegramId: int, s: CountryState, e: Event, before: Option<PlayerState>)
    ensures Persisted(before, SendEvent(via, telegramId, s, e))
            == if telegramId > 0 && ValidCountryState(s) then Some(PlayerState(telegramId, s, Some(e.className)))
               else before
  {
    if telegramId > 0 && ValidCountryState(s) {
      SendEventSaves(via, telegramId, s, e, before);
    } else {
      SendEventRefusesInvalid(via, telegramId, s, e);
      PersistedWithoutSave(before, SendEvent(via, telegramId, s, e));
    }
  }

  /** Sending a catalog event from a state that is not over keeps the store good. */
  lemma SendNextPreservesGoodStore(via: Via, telegramId: int, s: CountryState, draw: nat, before: Option<PlayerState>)
    requires GoodStore(before) && GameOverReason(s).None?
    ensures GoodStore(Persisted(before, SendEvent(via, telegramId, s, NextEvent(s, draw).value)))
  {
    NextEventAlwaysFound(s, draw);
    var c := DrawnClass(s, draw);
    SendEventPersisted(via, telegramId, s, Instance(c), before);
    SavedClassResolves(c);
  }

  /** What follows a choice keeps the store good. */
  lemma AfterChoicePreservesGoodStore(telegramId: int, post: CountryState, draw: nat, before: Option<PlayerState>)
    requires GoodStore(before)
    ensures GoodStore(Persisted(before, AfterChoice(telegramId, post, NextEvent(post, draw))))
  {
    NextEventAlwaysFound(post, draw);
    if GameOverReason(post).Some? {
      AfterGameOver(telegramId, post, NextEvent(post, draw), before);
    } else {
      SendNextPreservesGoodStore(ViaCallback, telegramId, post, draw, before);
    }
  }

  /** A button turn on the stored record leaves a good store good: a game that
      is over, an invalid state or a failed lookup is never stored. */
  lemma ChoicePreservesGoodStore(telegramId: int, before: Option<PlayerState>, data: string, draw: nat)
    requires IsChoiceData(data) && GoodStore(before)
    ensures GoodStore(Persisted(before, ChoiceTrace(telegramId, before, data, draw)))
  {
    if before.Some? && StoredClass(before.value.currentEventClassName).Some? && ParseChoice(data).Some? {
      var c := StoredClass(before.value.currentEventClassName).value;
      var i := ParseChoice(data).value;
      ChoiceTraceApplies(telegramId, before.value, data, draw, c, i);
      AfterChoicePreservesGoodStore(telegramId, Instance(c).Applied(before.value.countryState, i), draw, before);
    } else {
      AbortedChoiceSavesNothing(telegramId, before, data, draw, before);
    }
  }

  /** `/start` on the stored record leaves a good store good. */
  lemma StartPreservesGoodStore(telegramId: int, before: Option<PlayerState>, draw: nat)
    requires GoodStore(before)
    ensures GoodStore(Persisted(before, StartTrace(telegramId, before, draw)))
  {
    var country := if before.Some? then before.value.countryState else Initial;
    assert StartTrace(telegramId, before, draw) == SendEvent(ViaMessage, telegramId, country, NextEvent(country, draw).value) by {
      NextEventAlwaysFound(country, draw);
    }
    SendNextPreservesGoodStore(ViaMessage, telegramId, country, draw, before);
  }
}
