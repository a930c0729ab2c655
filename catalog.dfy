/** The events that exist and how the next one is picked (game/events.py). */
module Catalog {
  import opened Wrappers
  import opened Core
  import opened Events

  /** The event classes defined in the catalog. */
  datatype EventClass = HarvestFestivalEvent | MerchantCaravanEvent

  /** The class's `__name__`. */
  function Name(c: EventClass): string {
    match c
    case HarvestFestivalEvent => "HarvestFestivalEvent"
    case MerchantCaravanEvent => "MerchantCaravanEvent"
  }

  function Description(c: EventClass): string {
    match c
    case HarvestFestivalEvent => "Крестьяне собрали урожай! Время для праздника урожая?"
    case MerchantCaravanEvent => "В столицу прибыл богатый торговый караван."
  }

  /** The options each class passes to `Event.__init__`, in order. */
  function OptionTable(c: EventClass): seq<EventOption> {
    match c
    case HarvestFestivalEvent => [
      EventOption("Устроить скромный праздник (+5 поддержки, -100 казны)",
                  [Effect("support", IntV(5)), Effect("treasury", IntV(-100))]),
      EventOption("Закатить пир на весь мир! (+15 поддержки, -500 казны)",
                  [Effect("support", IntV(15)), Effect("treasury", IntV(-500))]),
      EventOption("Отказаться от праздника (-5 поддержки)",
                  [Effect("support", IntV(-5))])]
    case MerchantCaravanEvent => [
      EventOption("Хорошо поторговать (+500 казны)",
                  [Effect("treasury", IntV(500))]),
      EventOption("Обложить купцов данью (+200 казны, -5 поддержки)",
                  [Effect("treasury", IntV(200)), Effect("support", IntV(-5))]),
      EventOption("Прогнать их (-100 казны)",
                  [Effect("treasury", IntV(-100))])]
  }

  /** An entry that moves support or treasury by an integer. */
  predicate MovesMoney(e: Effect) {
    (e.key == "support" || e.key == "treasury") && e.value.IntV?
  }

  /** An effects table that only moves support and treasury, each at most once. */
  predicate MovesOnlyMoney(effects: seq<Effect>) {
    UniqueKeys(effects) && forall k :: 0 <= k < |effects| ==> MovesMoney(effects[k])
  }

  lemma MovesOnlyMoneyFacts(effects: seq<Effect>)
    requires MovesOnlyMoney(effects)
    ensures WellTyped(effects)
    ensures Keeps(effects, CurrentYear) && Keeps(effects, Army) && Keeps(effects, Peasants)
  {
    forall k | 0 <= k < |effects| ensures WellTypedEffect(effects[k]) {
      assert MovesMoney(effects[k]);
    }
  }

  /** The options of one class only move money. */
  predicate TableMovesOnlyMoney(t: seq<EventOption>) {
    |t| == 3 && MovesOnlyMoney(t[0].effects) && MovesOnlyMoney(t[1].effects) && MovesOnlyMoney(t[2].effects)
  }

  lemma HarvestFestivalTable()
    ensures Description(HarvestFestivalEvent) != []
    ensures TableMovesOnlyMoney(OptionTable(HarvestFestivalEvent))
  {
  }

  lemma MerchantCaravanTable()
    ensures Description(MerchantCaravanEvent) != []
    ensures TableMovesOnlyMoney(OptionTable(MerchantCaravanEvent))
  {
  }

  /** Every class has a description and three options that only move money. */
  lemma CatalogTableFacts(c: EventClass)
    ensures Description(c) != [] && |OptionTable(c)| == 3
    ensures forall k :: 0 <= k < |OptionTable(c)| ==> MovesOnlyMoney(OptionTable(c)[k].effects)
    ensures forall k :: 0 <= k < |OptionTable(c)| ==> WellTyped(OptionTable(c)[k].effects)
  {
    match c {
      case HarvestFestivalEvent => HarvestFestivalTable();
      case MerchantCaravanEvent => MerchantCaravanTable();
    }
    var t := OptionTable(c);
    assert forall k :: 0 <= k < 3 ==> MovesOnlyMoney(t[k].effects) by {
      assert MovesOnlyMoney(t[0].effects) && MovesOnlyMoney(t[1].effects) && MovesOnlyMoney(t[2].effects);
    }
    forall k | 0 <= k < 3 ensures WellTyped(t[k].effects) {
      MovesOnlyMoneyFacts(t[k].effects);
    }
  }

  /** `c()`: the instance a class constructs. Construction succeeds, every
      event has three options, and no option touches the year, the army or
      the peasants. */
  function Instance(c: EventClass): (e: Event)
    ensures NewEvent(Name(c), Description(c), OptionTable(c)) == Ok(e)
    ensures e.className == Name(c) && |e.options| == 3
    ensures e.WellTypedOptions()
    ensures forall k :: 0 <= k < |e.options| ==> MovesOnlyMoney(e.options[k].effects)
  {
    CatalogTableFacts(c);
    NewEvent(Name(c), Description(c), OptionTable(c)).value
  }

  /** The feast of the harvest festival, option 1: support +15, treasury
      -500, one year on, army and peasants as they were. */
  lemma GrandFeastEffect(s: CountryState)
    ensures Instance(HarvestFestivalEvent).Applied(s, 1)
            == s.(support := s.support + 15, treasury := s.treasury - 500, currentYear := s.currentYear + 1)
  {
    var effects := Instance(HarvestFestivalEvent).options[1].effects;
    assert effects == [Effect("support", IntV(15)), Effect("treasury", IntV(-500))];
    assert effects[..1] == [Effect("support", IntV(15))];
    assert effects[..1][..0] == [];
    assert Updated(s, effects) == ApplyEffect(ApplyEffect(s, effects[0]), effects[1]);
  }

  /** `AVAILABLE_EVENTS`. */
  const AvailableEvents: seq<EventClass> := [HarvestFestivalEvent, MerchantCaravanEvent]

  /** The list comprehension of `get_next_event`: the classes, in order, whose
      `is_triggered` holds. No catalog class overrides the base trigger. */
  function Triggered(classes: seq<EventClass>, s: CountryState): (r: seq<EventClass>)
    ensures forall c :: c in r <==> c in classes && IsTriggered(s)
    ensures |r| <= |classes|
    ensures IsTriggered(s) ==> r == classes
  {
    if classes == [] then []
    else (if IsTriggered(s) then [classes[0]] else []) + Triggered(classes[1..], s)
  }

  /** `get_next_event`. `random.choice` is the arbitrary `draw`, which picks
      candidate `draw % n` of the n triggered classes. */
  function NextEvent(s: CountryState, draw: nat): (r: Option<Event>)
    ensures r.None? <==> Triggered(AvailableEvents, s) == []
    ensures r.Some? ==> exists c :: c in Triggered(AvailableEvents, s) && r.value == Instance(c)
  {
    var possible := Triggered(AvailableEvents, s);
    if possible == [] then None
    else
      var c := possible[draw % |possible|];
      assert c in possible;
      Some(Instance(c))
  }

  /** The class `NextEvent` draws. */
  function DrawnClass(s: CountryState, draw: nat): (c: EventClass)
    requires Triggered(AvailableEvents, s) != []
    ensures c in Triggered(AvailableEvents, s)
    ensures NextEvent(s, draw) == Some(Instance(c))
  {
    var possible := Triggered(AvailableEvents, s);
    possible[draw % |possible|]
  }

  /** Every triggered class is the outcome of some draw. */
  lemma EveryCandidateCanBeDrawn(s: CountryState, c: EventClass)
    requires c in Triggered(AvailableEvents, s)
    ensures exists draw: nat :: NextEvent(s, draw) == Some(Instance(c))
  {
    var k: nat := if c == HarvestFestivalEvent then 0 else 1;
    assert Triggered(AvailableEvents, s)[k] == c;
    assert NextEvent(s, k) == Some(Instance(c));
  }

  /** The catalog is not empty and the trigger always holds, so there is always
      a next event. */
  lemma NextEventAlwaysFound(s: CountryState, draw: nat)
    ensures Triggered(AvailableEvents, s) != []
    ensures NextEvent(s, draw).Some?
  {
    assert HarvestFestivalEvent in AvailableEvents;
  }
}
