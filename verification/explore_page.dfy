/**
 * The explore stage page (src/app/explore/page.tsx): one question at a time, no
 * conversation kept, and a switch to the two other stages.
 */
module ExplorePage {
  import opened Wrappers
  import opened Text
  import opened StageStore
  import opened Chat

  datatype ExploreState = ExploreState(
    input: string, lastUserMessage: string, aiReply: string, loading: bool, error: string)

  /** The request body: the query and nothing else. */
  datatype ExploreRequest = ExploreRequest(query: string)

  /**
   * The synchronous part of `handleSend`: nothing happens for a blank input; otherwise the
   * trimmed input becomes the last user message, input, reply and error are cleared, the
   * page starts loading, and the trimmed input is sent.
   */
  function BeginSend(st: ExploreState): (r: Option<(ExploreState, ExploreRequest)>)
    ensures r.None? <==> Blank(st.input)
    ensures r.Some? ==> r.value.1.query == Trim(st.input) && r.value.1.query != []
    ensures r.Some? ==> r.value.0 == ExploreState("", Trim(st.input), "", true, "")
  {
    if Blank(st.input) then None
    else
      var message := Trim(st.input);
      Some((ExploreState("", message, "", true, ""), ExploreRequest(message)))
  }

  /** The rest of `handleSend`: the answer is shown or the error is set, and loading always ends. */
  function CompleteSend(st: ExploreState, reply: Reply): (r: ExploreState)
    ensures !r.loading
    ensures r.input == st.input && r.lastUserMessage == st.lastUserMessage
    ensures reply.Answered? ==> r.aiReply == reply.answer && r.error == st.error
    ensures !reply.Answered? ==> r.aiReply == st.aiReply && r.error == ReplyError(reply) && r.error != ""
  {
    match reply
    case Answered(answer, _) => st.(aiReply := answer, loading := false)
    case _ => st.(error := ReplyError(reply), loading := false)
  }

  /** A question that is answered leaves the trimmed question, the answer and no error on the page. */
  lemma AskAndAnswer(st: ExploreState, answer: string, cid: Option<string>)
    requires !Blank(st.input)
    ensures var (sent, _) := BeginSend(st).value;
      var done := CompleteSend(sent, Answered(answer, cid));
      done == ExploreState("", Trim(st.input), answer, false, "")
  {
  }

  /** The two stages the page offers. */
  predicate Offers(stage: Stage) {
    stage == Prep || stage == WithDog
  }

  /** `handleStageSwitch`: store the stage, then navigate with the page's own route table. */
  function HandleStageSwitch(env: Env, stage: Stage): (r: (Env, string))
    requires Offers(stage)
    ensures r.0 == SetUserStage(env, stage)
    ensures stage == Prep ==> r.1 == "/prep"
    ensures stage == WithDog ==> r.1 == "/with-dog"
  {
    (SetUserStage(env, stage), if stage == Prep then "/prep" else "/with-dog")
  }
}
