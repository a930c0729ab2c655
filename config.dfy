/** The starting values of a new country (config.py). */
module Config {

  const InitialSupport: int := 50
  const InitialTreasury: int := 1000
  const InitialArmy: string := "medium"
  const InitialPeasants: string := "medium"

  /** `Country.__init__` starts every reign in year 1. */
  const InitialYear: int := 1
}
