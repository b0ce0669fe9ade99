/**
 * The stage graph the three stage pages form together: each page offers exactly the two
 * other stages, and a switch lands on the same route the landing page uses for that stage,
 * with the stage stored so that the landing page sends the visitor there next time.
 */
module StageGraph {
  import opened Wrappers
  import opened StageStore
  import HomePage
  import ExplorePage
  import PrepPage
  import WithDogPage

  /** The stage page `from` offers a switch to `to`. */
  predicate Edge(from: Stage, to: Stage) {
    match from
    case Explore => ExplorePage.Offers(to)
    case Prep => PrepPage.Offers(to)
    case WithDog => WithDogPage.Offers(to)
  }

  /** The switch button on the page of `from`. */
  function Switch(env: Env, from: Stage, to: Stage): (r: (Env, string))
    requires Edge(from, to)
  {
    match from
    case Explore => ExplorePage.HandleStageSwitch(env, to)
    case Prep => PrepPage.HandleStageSwitch(env, to)
    case WithDog => WithDogPage.HandleStageSwitch(env, to)
  }

  /** Every page offers every other stage and never its own: a complete graph without self-loops. */
  lemma FullyConnected(from: Stage, to: Stage)
    ensures Edge(from, to) <==> from != to
  {
  }

  /**
   * Every switch stores the target stage and navigates to the landing page's route for it,
   * so in a browser the landing page afterwards sends the visitor to the same place.
   */
  lemma SwitchAgreesWithHome(env: Env, from: Stage, to: Stage)
    requires Edge(from, to)
    ensures Switch(env, from, to).0 == SetUserStage(env, to)
    ensures Switch(env, from, to).1 == HomePage.RouteOf(to)
    ensures env.Browser? ==> HomePage.OnMount(Switch(env, from, to).0) == Some(HomePage.RouteOf(to))
  {
    if env.Browser? {
      GetAfterSet(env, to);
    }
  }
}
