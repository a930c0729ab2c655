/** The rules that end a reign and the yearly money tables (game/mechanics.py). */
module Mechanics {
  import opened Wrappers
  import opened Core

  /** `ARMY_LEVELS` and `PEASANT_LEVELS`: the order of the three levels. */
  const ArmyLevels: map<string, int> := map["low" := 1, "medium" := 2, "high" := 3]
  const PeasantLevels: map<string, int> := map["low" := 1, "medium" := 2, "high" := 3]

  /** The three endings `check_game_over_conditions` reports. */
  datatype Reason = Overthrown | Bankrupt | OldAge

  /** The last year a reign may reach. */
  const MaxReign: int := 40

  /** `check_game_over_conditions`: support is tested first, then the
      treasury, then the length of the reign; the first that fails wins. */
  function GameOverReason(s: CountryState): (r: Option<Reason>)
    ensures r == Some(Overthrown) <==> s.support <= 0
    ensures r == Some(Bankrupt) <==> s.support > 0 && s.treasury < 0
    ensures r == Some(OldAge) <==> s.support > 0 && s.treasury >= 0 && s.currentYear > MaxReign
    ensures r == None <==> s.support > 0 && s.treasury >= 0 && s.currentYear <= MaxReign
  {
    if s.support <= 0 then Some(Overthrown)
    else if s.treasury < 0 then Some(Bankrupt)
    else if s.currentYear > MaxReign then Some(OldAge)
    else None
  }

  /** The thresholds are exact: support 0, treasury -1 and year 41 end the
      game, support 1, treasury 0 and year 40 do not. */
  lemma GameOverThresholds(s: CountryState)
    ensures GameOverReason(s.(support := 0)) == Some(Overthrown)
    ensures GameOverReason(s.(support := 1)) != Some(Overthrown)
    ensures s.support > 0 ==> GameOverReason(s.(treasury := -1)) == Some(Bankrupt)
    ensures s.support > 0 ==> GameOverReason(s.(treasury := 0)) != Some(Bankrupt)
    ensures s.support > 0 && s.treasury >= 0 ==> GameOverReason(s.(currentYear := 41)) == Some(OldAge)
    ensures s.support > 0 && s.treasury >= 0 ==> GameOverReason(s.(currentYear := 40)) == None
  {
  }

  const IncomePerLevel: map<string, int> := map["low" := 300, "medium" := 600, "high" := 1000]
  const ExpensePerLevel: map<string, int> := map["low" := 100, "medium" := 300, "high" := 700]

  /** `calculate_yearly_income`: looked up by the peasants' level, 0 for an
      unknown level. */
  function YearlyIncome(s: CountryState): (r: int)
    ensures s.peasants == "low" ==> r == 300
    ensures s.peasants == "medium" ==> r == 600
    ensures s.peasants == "high" ==> r == 1000
    ensures s.peasants !in PeasantLevels ==> r == 0
  {
    if s.peasants in IncomePerLevel then IncomePerLevel[s.peasants] else 0
  }

  /** `calculate_yearly_expenses`: looked up by the army's level, 0 for an
      unknown level. */
  function YearlyExpenses(s: CountryState): (r: int)
    ensures s.army == "low" ==> r == 100
    ensures s.army == "medium" ==> r == 300
    ensures s.army == "high" ==> r == 700
    ensures s.army !in ArmyLevels ==> r == 0
  {
    if s.army in ExpensePerLevel then ExpensePerLevel[s.army] else 0
  }

  /** More peasants never bring less income. */
  lemma IncomeMonotone(s: CountryState, a: string, b: string)
    requires a in PeasantLevels && b in PeasantLevels
    requires PeasantLevels[a] <= PeasantLevels[b]
    ensures YearlyIncome(s.(peasants := a)) <= YearlyIncome(s.(peasants := b))
  {
  }

  /** A bigger army never costs less. */
  lemma ExpensesMonotone(s: CountryState, a: string, b: string)
    requires a in ArmyLevels && b in ArmyLevels
    requires ArmyLevels[a] <= ArmyLevels[b]
    ensures YearlyExpenses(s.(army := a)) <= YearlyExpenses(s.(army := b))
  {
  }
}
