/**
 * The stage store (src/lib/storage.ts): the current stage kept in the browser's key/value
 * storage under one key. On the server there is no window: reads give nothing and writes
 * do nothing.
 */
module StageStore {
  import opened Wrappers

  /** The three stages of the journey. */
  datatype Stage = Explore | Prep | WithDog {

    /** The string stored for the stage. */
    function Name(): string {
      match this
      case Explore => "explore"
      case Prep => "prep"
      case WithDog => "withDog"
    }
  }

  /** Where the code runs: on the server, or in a browser with its local storage. */
  datatype Env = Server | Browser(store: map<string, string>)

  const StageKey: string := "petbrain_user_stage"

  /** The stage a stored string names, if it names one exactly. */
  function StageNamed(s: string): (r: Option<Stage>)
    ensures r.Some? ==> r.value.Name() == s
    ensures r.None? ==> forall st: Stage :: st.Name() != s
  {
    if s == "explore" then Some(Explore)
    else if s == "prep" then Some(Prep)
    else if s == "withDog" then Some(WithDog)
    else None
  }

  /** `getUserStage`: the stored stage when the stored string names one, else nothing. */
  function GetUserStage(env: Env): (r: Option<Stage>)
    ensures env.Server? ==> r.None?
    ensures r.Some? <==> env.Browser? && StageKey in env.store && exists st: Stage :: st.Name() == env.store[StageKey]
    ensures r.Some? ==> env.store[StageKey] == r.value.Name()
  {
    match env
    case Server => None
    case Browser(store) => if StageKey in store then StageNamed(store[StageKey]) else None
  }

  /** `setUserStage`: stores the stage's name; nothing on the server. */
  function SetUserStage(env: Env, stage: Stage): (r: Env)
    ensures env.Server? ==> r == Server
    ensures env.Browser? ==> r.Browser? && r.store == env.store[StageKey := stage.Name()]
  {
    match env
    case Server => Server
    case Browser(store) => Browser(store[StageKey := stage.Name()])
  }

  /** `clearUserStage`: removes the key; nothing on the server. */
  function ClearUserStage(env: Env): (r: Env)
    ensures env.Server? ==> r == Server
    ensures env.Browser? ==> r.Browser? && r.store == env.store - {StageKey}
  {
    match env
    case Server => Server
    case Browser(store) => Browser(store - {StageKey})
  }

  /** Distinct stages have distinct names, so a name decodes to the stage that wrote it. */
  lemma NameRoundTrip(stage: Stage)
    ensures StageNamed(stage.Name()) == Some(stage)
  {
  }

  /** In a browser, the stage just set is the stage read back. */
  lemma GetAfterSet(env: Env, stage: Stage)
    requires env.Browser?
    ensures GetUserStage(SetUserStage(env, stage)) == Some(stage)
  {
    NameRoundTrip(stage);
  }

  /** After clearing, no stage is read. */
  lemma GetAfterClear(env: Env)
    ensures GetUserStage(ClearUserStage(env)).None?
  {
  }

  /** Setting or clearing the stage leaves every other key as it was. */
  lemma OtherKeysUntouched(env: Env, stage: Stage, key: string)
    requires env.Browser? && key != StageKey
    ensures key in SetUserStage(env, stage).store <==> key in env.store
    ensures key in ClearUserStage(env).store <==> key in env.store
    ensures key in env.store ==> SetUserStage(env, stage).store[key] == env.store[key]
    ensures key in env.store ==> ClearUserStage(env).store[key] == env.store[key]
  {
  }

  /** Setting twice keeps only the second stage; setting is idempotent. */
  lemma SetOverwrites(env: Env, a: Stage, b: Stage)
    ensures SetUserStage(SetUserStage(env, a), b) == SetUserStage(env, b)
    ensures SetUserStage(SetUserStage(env, a), a) == SetUserStage(env, a)
  {
  }
}
