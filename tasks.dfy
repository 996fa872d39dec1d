/** The tasks a character works through. Every task has a description and a
    duration in milliseconds of game time; a kill task also names the monster
    it is about, if any. A plot task is the regular task that closes an act. */
module Tasks {
  import opened Wrappers
  import opened Content

  datatype Task =
    | RegularTask(description: string, duration: int)
    | PlotTask(description: string, duration: int)
    | KillTask(description: string, duration: int, monster: Option<Monster>)
    | BuyTask(description: string, duration: int)
    | SellTask(description: string, duration: int)
    | HeadingToMarketTask(description: string, duration: int)
    | HeadingToKillingFieldsTask(description: string, duration: int)

  /** The story tasks that wait in the queue: regular or plot tasks that take time. */
  predicate Scripted(t: Task) {
    (t.RegularTask? || t.PlotTask?) && t.duration > 0
  }

  /** The monster a task is about comes from the catalogue. */
  predicate FromCatalogue(t: Task, p: Provider) {
    t.KillTask? && t.monster.Some? ==> t.monster.value in p.monsters
  }
}
