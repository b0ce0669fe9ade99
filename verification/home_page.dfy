/**
 * The landing page (src/app/page.tsx): a stored stage sends the visitor straight to its
 * page; choosing a stage stores it first and then navigates.
 */
module HomePage {
  import opened Wrappers
  import opened StageStore

  /** `routeMap`, written out twice in the page with the same three entries. */
  function RouteOf(stage: Stage): string {
    match stage
    case Explore => "/explore"
    case Prep => "/prep"
    case WithDog => "/with-dog"
  }

  /** The three routes are distinct, so the route determines the stage. */
  lemma RouteOfInjective(a: Stage, b: Stage)
    ensures RouteOf(a) == RouteOf(b) <==> a == b
  {
  }

  /** The mount effect: navigate to the stored stage's route, or stay when none is stored. */
  function OnMount(env: Env): (route: Option<string>)
    ensures route.Some? <==> GetUserStage(env).Some?
    ensures route.Some? ==> route.value == RouteOf(GetUserStage(env).value)
  {
    match GetUserStage(env)
    case Some(stage) => Some(RouteOf(stage))
    case None => None
  }

  /** `handleStageSelect`: store the stage, then navigate to its route. */
  function HandleStageSelect(env: Env, stage: Stage): (r: (Env, string))
    ensures r.0 == SetUserStage(env, stage)
    ensures r.1 == RouteOf(stage)
  {
    (SetUserStage(env, stage), RouteOf(stage))
  }

  /** A stage chosen in the browser is remembered: the next visit to the landing page goes straight to it. */
  lemma SelectThenRemount(env: Env, stage: Stage)
    requires env.Browser?
    ensures OnMount(HandleStageSelect(env, stage).0) == Some(HandleStageSelect(env, stage).1)
  {
    GetAfterSet(env, stage);
  }
}
