# The King — a Dafny model of the game core

"The King" is a Telegram text game. The player rules a country described by
five values:
- popular support;
- the treasury;
- the army level;
- the peasants' level;
- the current year.

Each turn the bot shows an event with a few option buttons. Pressing a button
works in four steps:
1. The option's effects dictionary is applied to the country, and the year
   advances.
2. The game ends when the country is overthrown, bankrupt or past forty years
   of reign.
3. If the game goes on, the next event is drawn at random from the triggered
   catalog events.
4. The bot asks the database to store the new state, together with the name
   of the next event's class, and then the event is shown.

This project models that core, file by file.

- `core.dfy` models `game/core.py`.
  - `Country` is a class whose fields `update`, `load_state` and the year step
    change in place. `Update` is a loop over the effects dictionary, proved
    against the function `Updated`.
  - `Player` owns a fresh `Country`.
  - An effects dictionary is a sequence of key/value entries in insertion
    order.
  - An entry with an integer value is added to an integer field. An entry with
    a string value replaces a string field. An entry whose key is not a field
    is ignored.
  - `get_state` / `load_state` are `Snapshot` / `Restored`, and they
    round-trip.
- `events.dfy` models `events/base.py`.
  - `NewEvent` is the constructor with its two `ValueError` cases.
  - `Applied` / `ApplyEffects` is `apply_effects`. An index out of range
    changes nothing; a valid one applies the option and adds a year.
  - `OptionsText` and `IsTriggered` model the remaining methods.
- `catalog.dfy` models `game/events.py`.
  - It holds the two concrete events, with their Russian texts and effect
    tables, and `AVAILABLE_EVENTS`.
  - `get_next_event` is `NextEvent`. The random choice is a `draw` parameter,
    and the model picks `candidates[draw % |candidates|]`.
- `mechanics.dfy` models `game/mechanics.py`:
  - the game-over checks, in their order and with their thresholds;
  - the income and expense tables.
- `models.dfy` models the pydantic models of `data/models.py`:
  - `ValidateCountry` is `CountryState.model_validate` over a record;
  - `NewPlayerState` is `PlayerState(...)`.
- `callback.dfy` models the button data: `f"choice_{i}"` and
  `int(data.split("_")[1])`, with Python's `int` on strings (surrounding
  whitespace, an optional sign, decimal digits).
- `handlers.dfy` models the decision logic of `bot/handlers.py`.
  - A handler run is a trace of actions: `Save` of a record, `Reply`, `Edit`,
    `Answer`, a user alert, and `Crash` for an uncaught validation error.
  - The store after the run (`Persisted`) is the last record saved; every
    save is taken to succeed.
  - `HandleEventChoice`, `HandleStart`, `SendEventToPlayer` and
    `BuildEventKeyboard` are methods. `HandleStart`, `SendEventToPlayer` and
    `PlayChoice` (called by `HandleEventChoice`) build and update the
    `Player`/`Country` objects; `BuildEventKeyboard` loops over an event value.
    Each is proved equal to a trace function (`ChoiceTrace`, `StartTrace`,
    `SendEvent`, `EventKeyboard`), and the lemmas are about those functions.

Main properties proved:
- **The update:**
  - it is pointwise: a field changes by exactly its own entry;
  - fields no entry names are unchanged;
  - the order of the entries does not matter when keys are distinct.
- **Storage:**
  - `load_state(get_state())` is the identity;
  - validation accepts a snapshot exactly when the state is valid.
- **Game over:** the four outcomes are each characterised as an if-and-only-if.
- **The event draw:** it always finds an event, and every triggered class can
  be drawn.
- **The keyboard:** button `k` of an event parses back to `k`, and pressing it
  applies option `k` of the event the store names.
- **Storing a turn:**
  - a handler saves a record only if it validated;
  - it always calls save before it shows an event;
  - a game that ends, or a turn that fails a lookup or parse, leaves the store
    untouched;
  - the store only ever holds resumable records: valid, not over, and naming a
    catalog class (`ChoicePreservesGoodStore`, `StartPreservesGoodStore`).
  - So a finished game's record stays at the state before the fatal choice, and
    `/start` resumes from that state (`GameOverSavesNothing`,
    `ResumedStartKeepsCountry`). It does not start a new reign.

## Model

| member | source | states |
|---|---|---|
| Core.FieldOf | game/core.py:17-18 | a key names a field exactly when it equals that field's attribute name; the five names are the only ones that name a field |
| Core.Get | game/core.py:18 | reading a field gives an integer for support, treasury and year and a string for army and peasants |
| Core.With | game/core.py:20-23 | setting a field gives it the new value and leaves every other field as it was |
| Core.Merge | game/core.py:19-23 | how one entry changes a field: an integer gets the delta added, a string is replaced, no entry keeps the value; no contract of its own, described by `UpdatedPointwise` and `UpdatedEntry` |
| Core.ApplyEffect | game/core.py:16-27 | one entry: an unknown key changes nothing; the named field is merged (integer added, string replaced); every other field is kept |
| Core.LookupFinds | game/core.py:16 | with distinct keys, the entry for a key is the value the dictionary holds for it |
| Core.Updated | game/core.py:14-27 | the new state after `update`; no contract of its own, described by `UpdatedPointwise`, `UpdatedEntry`, `UpdatedUntouched`, `UpdatedUnknownKeys` and `UpdateOrderIndependent`, and `Country.Update` is proved against it |
| Core.UpdatedPointwise | game/core.py:14-27 | after `update` each field is its old value merged with its own entry, or unchanged when it has none |
| Core.UpdatedEntry | game/core.py:18-23 | an integer field named with delta v becomes old + v; a string field named with s becomes s |
| Core.UpdatedUntouched | game/core.py:16-23 | a field no entry names keeps its value |
| Core.UpdatedUnknownKeys | game/core.py:25-27 | a dictionary whose keys are all unknown attributes changes nothing |
| Core.UpdateOrderIndependent | game/core.py:16 | two dictionaries with the same distinct entries in any order give the same new state |
| Core.Snapshot | game/core.py:29-37 | `get_state` has exactly the five keys, each holding its field's value |
| Core.Restored | game/core.py:39-45 | `load_state` takes each field from the record when present, otherwise keeps the initial value |
| Core.RestoredSnapshot | game/core.py:29-45 | loading a snapshot restores the same country |
| Core.RestoredEmpty | game/core.py:39-45 | loading an empty record gives the fresh country |
| Core.Country.constructor | game/core.py:6-12 | a new country starts at support 50, treasury 1000, army and peasants "medium", year 1 |
| Core.Country.SetField | game/core.py:20-23 | `setattr` changes that one field |
| Core.Country.Update | game/core.py:14-27 | the loop leaves the country at `Updated(old state, effects)` |
| Core.Country.GetState | game/core.py:29-37 | the record has the five keys, is well typed and restores to the current state |
| Core.Country.LoadState | game/core.py:39-45 | the country becomes `Restored(record)` |
| Core.Player.constructor | game/core.py:50-54 | a player has the given id, a fresh country at the initial state and an empty message history |
| Core.Player.LoadCountryState | game/core.py:60-62 | the player's country becomes `Restored(record)` |
| Events.NewEvent | events/base.py:16-23 | construction succeeds exactly when description and options are non-empty; an empty description is reported first; a built event holds what it was given |
| Events.Event.ApplyEffects | events/base.py:25-35 | the country becomes `Applied(old state, i)` |
| Events.Event.Applied | events/base.py:25-35 | the state after `apply_effects`; no contract of its own, described by `AppliedOutOfRange`, `AppliedValid` and `YearCountsChoices`, and `ApplyEffects` is proved against it |
| Events.AppliedOutOfRange | events/base.py:27-30 | an index outside the options changes nothing, not even the year |
| Events.AppliedValid | events/base.py:32-35 | a valid index applies the option's effects and then adds one year; an option that does not name the year moves it by exactly one |
| Events.YearCountsChoices | events/base.py:35 | n valid choices whose options leave the year alone advance it by n |
| Events.OptionsText | events/base.py:41-43 | one label per option, in option order |
| Events.IsTriggered | events/base.py:45-50 | the base event is triggered in every country |
| Catalog.Name | bot/handlers.py:43 | the `__name__` of each catalog class; no contract of its own, described by `SavedClassResolves` (names are distinct, so the lookup finds the class again) |
| Catalog.Description | game/events.py:15-37 | the description each catalog class passes to the base constructor; no contract of its own, described by `HarvestFestivalTable`, `MerchantCaravanTable` and `CatalogTableFacts` (non-empty) |
| Catalog.OptionTable | game/events.py:15-37 | the option labels and effects dictionaries of each catalog class; no contract of its own, described by `HarvestFestivalTable`, `MerchantCaravanTable`, `CatalogTableFacts` and `GrandFeastEffect` |
| Catalog.AvailableEvents | game/events.py:41-45 | the two catalog classes, in order; a constant, described by `Triggered`, `NextEventAlwaysFound` and `EveryCandidateCanBeDrawn` |
| Catalog.HarvestFestivalTable | game/events.py:15-25 | the harvest festival has a description and three options, each moving only support and treasury with distinct keys |
| Catalog.MerchantCaravanTable | game/events.py:27-37 | the merchant caravan has a description and three options, each moving only support and treasury with distinct keys |
| Catalog.CatalogTableFacts | game/events.py:15-37 | every catalog class has a description and three well-typed options that move only support and treasury |
| Catalog.Instance | game/events.py:15-37 | instantiating a catalog class never raises; the event carries the class name and three well-typed options that leave year, army and peasants alone |
| Catalog.GrandFeastEffect | game/events.py:19 | the festival's second option gives support +15, treasury -500, year +1 and keeps army and peasants |
| Catalog.Triggered | game/events.py:75 | a class is a candidate exactly when it is available and triggered; with the base trigger the candidates are all classes, in order |
| Catalog.NextEvent | game/events.py:58-83 | no event exactly when there is no candidate; otherwise the event is an instance of a candidate |
| Catalog.DrawnClass | game/events.py:82-83 | the drawn class is a candidate and the next event is its instance |
| Catalog.EveryCandidateCanBeDrawn | game/events.py:82-83 | every candidate is the outcome of some draw |
| Catalog.NextEventAlwaysFound | game/events.py:41-45 | the catalog always yields a next event |
| Mechanics.GameOverReason | game/mechanics.py:17-36 | overthrown iff support <= 0; bankrupt iff support > 0 and treasury < 0; old age iff both fine and year > 40; none iff all three are fine |
| Mechanics.GameOverThresholds | game/mechanics.py:26-34 | support 0 overthrows and 1 does not; treasury -1 bankrupts and 0 does not; year 41 ends the reign and 40 does not |
| Mechanics.YearlyIncome | game/mechanics.py:51-56 | income 300 / 600 / 1000 for low / medium / high peasants, 0 for an unknown level |
| Mechanics.YearlyExpenses | game/mechanics.py:58-63 | expenses 100 / 300 / 700 for a low / medium / high army, 0 for an unknown level |
| Mechanics.IncomeMonotone | game/mechanics.py:51-56 | a higher peasants level never earns less |
| Mechanics.ExpensesMonotone | game/mechanics.py:58-63 | a higher army level never costs less |
| Models.ValidCountryState | data/models.py:11-15 | the `CountryState` constraints: support at least 0, year above 0, army and peasants one of the three levels, treasury free; described by `ValidateCountry`, `InitialIsValid`, `TreasuryUnconstrained` and `CatalogChoiceKeepsValid` |
| Models.ValidateCountry | data/models.py:7-15 | validation succeeds exactly when all five keys are present, well typed, support >= 0, levels known and year > 0; it yields the restored state, else `InvalidCountryState` |
| Models.ValidateSnapshot | bot/handlers.py:42 | validating `get_state()` returns the state itself exactly when it is valid |
| Models.InitialIsValid | data/models.py:11-15 | the initial country passes validation |
| Models.TreasuryUnconstrained | data/models.py:12 | the treasury has no bound: changing it never changes validity |
| Models.NewPlayerState | data/models.py:22-30 | a record is built exactly when the telegram id is positive, it holds the given values, and otherwise the error is `InvalidTelegramId` |
| Models.ValidPlayerState | data/models.py:26-28 | a positive telegram id and a valid country; described by `NewPlayerState` and `ValidTurnStoresValidRecord` |
| Models.EventClassNameDefaultsToNone | data/models.py:30 | the event class name defaults to none |
| CallbackData.NatToString | bot/handlers.py:29 | `str(i)` of a natural is a non-empty run of decimal digits with no leading zero unless i is 0 |
| CallbackData.ChoiceData | bot/handlers.py:29 | the button data `choice_{i}`; no contract of its own, described by `SplitChoiceData` and `ChoiceRoundTrip` |
| CallbackData.DigitsOfNat | bot/handlers.py:29 | the decimal value of `str(i)` is i |
| CallbackData.Split | bot/handlers.py:144 | `str.split`; its contract states only that there is at least one piece, and `SplitWithoutSeparator` and `SplitAtFirst` describe the pieces |
| CallbackData.ParseInt | bot/handlers.py:144 | Python's `int` on a string; no contract of its own, described by `ParseDigits`, `MinusOneIsRead` and `EmptyIndexIsRejected` |
| CallbackData.ParseChoice | bot/handlers.py:143-148 | `int(data.split("_")[1])`, none where Python raises; no contract of its own, described by `ChoiceRoundTrip`, `EmptyIndexIsRejected`, `MissingIndexIsRejected` and `NegativeIndexIsRead` |
| CallbackData.SplitWithoutSeparator | bot/handlers.py:144 | splitting a string without the separator gives the string alone |
| CallbackData.SplitAtFirst | bot/handlers.py:144 | splitting cuts at the first separator and splits the rest |
| CallbackData.ParseDigits | bot/handlers.py:144 | `int` of a plain run of digits is its decimal value |
| CallbackData.SplitChoiceData | bot/handlers.py:144 | the data `choice_{i}` splits into `choice` and the digits of i |
| CallbackData.ChoiceRoundTrip | bot/handlers.py:144 | the index parsed from `choice_{i}` is i |
| CallbackData.EmptyIndexIsRejected | bot/handlers.py:143-148 | `choice_` has an empty index, which `int` refuses |
| CallbackData.MissingIndexIsRejected | bot/handlers.py:143-148 | `choice` has no second part, so the index lookup fails |
| CallbackData.NegativeIndexIsRead | bot/handlers.py:144 | `choice_-1` parses to -1 |
| Handlers.EventKeyboard | bot/handlers.py:24-31 | the keyboard of an event; no contract of its own, described by `KeyboardSelectsOption`, and `BuildEventKeyboard` is proved against it |
| Handlers.BuildEventKeyboard | bot/handlers.py:24-31 | one button per option, labelled with its text, whose data parses back to its index |
| Handlers.KeyboardSelectsOption | bot/handlers.py:27-29 | button k shows option k's label and carries `choice_k`, which parses to k |
| Handlers.FirstNamed | bot/handlers.py:121-124 | a found class is available and has the stored name; nothing is found exactly when no available class has it |
| Handlers.StoredClass | bot/handlers.py:117-124 | the class the stored name selects; no contract of its own, described by `FirstNamed` and `SavedClassResolves`, and `FindEventClass` is proved against it |
| Handlers.FindEventClass | bot/handlers.py:117-124 | the loop finds the first available class with the stored name, or nothing when no name is stored |
| Handlers.SavedClassResolves | bot/handlers.py:43 | the class name a save records leads the lookup back to that class |
| Handlers.Persisted | bot/handlers.py:45 | the store after a run, as the last record saved; no contract of its own, described by `PersistedWithoutSave` and `SendEventPersisted` |
| Handlers.PersistedWithoutSave | bot/handlers.py:45 | a run with no save leaves the store as it was |
| Handlers.Shown | bot/handlers.py:47-54 | how an event is shown: a reply after `/start`, an answer and then an edit after a button press; its contract states that showing saves nothing |
| Handlers.SendEvent | bot/handlers.py:33-59 | the run of `send_event_to_player`; no contract of its own, described by `SendEventSaves`, `SendEventRefusesInvalid`, `SendEventPersisted` and `SendEventSavedBeforeShown`, and `SendEventToPlayer` is proved against it |
| Handlers.SendEventToPlayer | bot/handlers.py:33-59 | the method performs the `SendEvent` trace for the player's current state |
| Handlers.SendEventSaves | bot/handlers.py:40-54 | with a positive id and a valid state, the record with the event's class name is saved first and then the event is shown |
| Handlers.SendEventRefusesInvalid | bot/handlers.py:40-44 | with an invalid id or state, validation raises before anything is saved or shown |
| Handlers.SendEventPersisted | bot/handlers.py:40-45 | after sending, the store holds the new record exactly when id and state are valid, else what it held |
| Handlers.LoadedCountry | bot/handlers.py:151-152 | the player rebuilt from the stored record has exactly the stored country |
| Handlers.HandleEventChoice | bot/handlers.py:97-189 | the method performs the `ChoiceTrace` trace for the loaded record and button data |
| Handlers.PlayChoice | bot/handlers.py:150-155 | loading the stored country and applying the chosen option, then finishing the turn, gives `AfterChoice` of the applied state |
| Handlers.FinishTurn | bot/handlers.py:159-187 | the game-over check and next-event step give `AfterChoice` of the player's country |
| Handlers.HandleStart | bot/handlers.py:61-94 | the method performs the `StartTrace` trace for the loaded record |
| Handlers.IsChoiceData | bot/handlers.py:97 | the router filter `startswith("choice_")`, the precondition of the choice handler; `ChoiceDataIsChoice` shows every button passes it |
| Handlers.ChoiceDataIsChoice | bot/handlers.py:97 | every button's data reaches the choice handler |
| Handlers.ChoiceTraceApplies | bot/handlers.py:150-155 | once the class and index are found, the turn is `AfterChoice` of the stored country with that option applied |
| Handlers.AbortedChoiceSavesNothing | bot/handlers.py:107-148 | a missing record, an unknown class or unparsable data saves nothing |
| Handlers.AfterChoice | bot/handlers.py:159-189 | the run after the option is applied; no contract of its own, described by `AfterGameOver`, `AfterChoiceSavedBeforeShown` and `AfterChoicePreservesGoodStore`, and `FinishTurn` is proved against it |
| Handlers.ChoiceTrace | bot/handlers.py:97-189 | the run of `handle_event_choice`; no contract of its own, described by `ChoiceTraceApplies`, `AbortedChoiceSavesNothing`, `GameOverSavesNothing`, `ContinuingChoiceSaves`, `ChoiceSavedBeforeShown` and `ChoicePreservesGoodStore`, and `HandleEventChoice` is proved against it |
| Handlers.StartTrace | bot/handlers.py:61-94 | the run of `handle_start`; no contract of its own, described by `FreshStartStoresInitialCountry`, `ResumedStartKeepsCountry`, `StartSavedBeforeShown` and `StartPreservesGoodStore`, and `HandleStart` is proved against it |
| Handlers.AfterGameOver | bot/handlers.py:160-172 | a finished game edits the message to the reason, answers, and saves nothing |
| Handlers.GameOverSavesNothing | bot/handlers.py:159-172 | a choice that ends the game shows the reason and leaves the store untouched |
| Handlers.ContinuingChoiceSaves | bot/handlers.py:174-179 | a choice that does not end the game saves the applied state with the next event's class, then shows it by editing |
| Handlers.CatalogChoiceKeepsValid | bot/handlers.py:155-161 | a catalog option applied to a valid state that does not end the game gives another valid state one year later |
| Handlers.ValidTurnStoresValidRecord | bot/handlers.py:150-179 | a valid record and a valid choice that does not end the game leave a valid record in the store |
| Handlers.OutOfRangeChoiceStillSaves | bot/handlers.py:155-179 | an index outside the options changes nothing, yet the unchanged state is saved with a freshly drawn event |
| Handlers.ChoiceSevenIsOutOfRange | bot/handlers.py:144 | `choice_7` parses to 7, which no catalog event has |
| Handlers.NextPressAppliesShownOption | bot/handlers.py:117-155 | pressing button k of the event the store names applies exactly option k of that event |
| Handlers.SendEventSavedBeforeShown | bot/handlers.py:45-54 | sending an event never shows it before a save |
| Handlers.AfterChoiceSavedBeforeShown | bot/handlers.py:159-187 | what follows a choice never shows an event before a save |
| Handlers.ChoiceSavedBeforeShown | bot/handlers.py:97-189 | the choice handler never shows an event before a save |
| Handlers.StartSavedBeforeShown | bot/handlers.py:61-94 | `/start` never shows an event before a save |
| Handlers.FreshStartStoresInitialCountry | bot/handlers.py:79-91 | a first `/start` stores the initial country with the first event's class, then replies with it |
| Handlers.ResumedStartKeepsCountry | bot/handlers.py:72-91 | `/start` with a stored record stores that same country with a new event, then replies with it |
| Handlers.SendNextPreservesGoodStore | bot/handlers.py:33-59 | sending the next event for a state that is not over keeps the store resumable |
| Handlers.AfterChoicePreservesGoodStore | bot/handlers.py:159-187 | what follows a choice keeps the store resumable |
| Handlers.ChoicePreservesGoodStore | bot/handlers.py:97-189 | a button press keeps the store resumable: only valid, unfinished records naming a catalog class are stored |
| Handlers.StartPreservesGoodStore | bot/handlers.py:61-94 | `/start` keeps the store resumable |

## Left out

- Core.Country.Update: requires every entry to have the type of the field it names. In Python, adding a string to an integer field raises `TypeError` and a float delta turns the field into a float; a string field stores any value without a check. Every catalog table is well typed.
- Core.ApplyEffect: the same typing precondition as `Update`.
- Core.Restored: requires a record whose five keys, where present, hold values of their field's type. `load_state` stores whatever the dict holds. Both callers pass `model_dump()` of a validated record (bot/handlers.py:76, bot/handlers.py:152), so no call the program makes is excluded.
- Core.Country.LoadState: the same record-typing precondition as `Restored`.
- Core.Player.LoadCountryState: the same record-typing precondition as `Restored`.
- Events.Event.ApplyEffects: requires well-typed options, as `Update` does.
- Keys that name other attributes of the country object are modelled as unknown keys. For a method the current value is a bound method, neither an int nor a str, so Python writes nothing. For a string attribute such as `__doc__` or `__module__` Python replaces it with the value. Neither case touches the five fields, and the extra attributes are not modelled.
- `Player.get_country_state` (game/core.py:56-58) only returns `country.get_state()`; it is covered by `Core.Country.GetState`.
- `apply_indirect_effects` in game/mechanics.py has an empty body and is never called.
- The game-over messages are modelled by their reason only; the Russian texts are not.
- `YEARLY_EVENTS` and `_events_this_year` in game/events.py are never read by the core.
- The random choice is the `draw` parameter; randomness itself is not modelled.
- data/database.py is not part of this model; the store is the last saved record.
- Handlers.Persisted: every save is assumed to succeed. `save_player_state` reports failure by returning False without raising, and `send_event_to_player` discards that result (bot/handlers.py:45). So in the program a failed save still shows the event while the store keeps its old record. The model does not capture this. As written, data/database.py reads fields that `PlayerState` does not declare (`current_event_id` and others), so every save there would fail this way. The store abstraction also assumes that a load returns the last saved record with its `current_event_class_name`. data/database.py does not deliver this as written: its upsert has no column for the class name, its load never sets the name, and `load_player_state` always returns none. Its log line reads the undeclared `playthrough_count`, and its outer `except` swallows the resulting error. So `SavedClassResolves`, `NextPressAppliesShownOption` and the `GoodStore` lemmas describe the intended store, not the one data/database.py implements.
- The Telegram transport is not modelled: message delivery, message ids, `answer`/`edit_text` errors such as `TelegramBadRequest`, and keyboard layout (`builder.adjust`). A failed send is caught after the save, so it cannot change the stored record.
- `player.message_history.append` (bot/handlers.py:50) is left out, because the history is never read or stored.
- Logging and the warnings printed by the handlers are left out.
- Each handler run is modelled as one atomic step from the loaded record to the saved one. The handlers are `async`, so two presses by the same player could interleave their load (bot/handlers.py:105) and save (bot/handlers.py:45); such interleavings, and the lost update they allow, are not modelled.
- The instantiation `except` branch (bot/handlers.py:134-139) is left out. `Catalog.Instance` proves that both catalog classes construct, so the branch cannot be taken.
- Models.ValidateCountry: does not model pydantic's lax coercion. Pydantic accepts the string `"5"` for an integer field, but `ValidateCountry` rejects a record holding `StrV("5")` there. Its only caller validates `get_state()` of a well-typed country, so no record the program builds is affected.
- CallbackData.ParseInt: covers ASCII whitespace and digits only. Python's `int` also accepts Unicode digits and underscores between digits, and those are left out. It has no contract of its own; the example lemmas and `ChoiceRoundTrip` state its behaviour.
