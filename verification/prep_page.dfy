/**
 * The prep stage page (src/app/prep/page.tsx): a kept conversation, a checklist request
 * mode steered by a conversation variable, and a switch to the two other stages.
 */
module PrepPage {
  import opened Wrappers
  import opened Text
  import opened StageStore
  import opened Chat

  datatype PrepState = PrepState(
    input: string, messages: seq<Message>, loading: bool, error: string,
    conversationId: Option<string>, checklistGenerated: bool)

  /** The request body: query, the current conversation id, and the checklist variable. */
  datatype PrepRequest = PrepRequest(query: string, conversationId: Option<string>, shouldGenerateChecklist: string)

  /** The prompt sent in checklist mode. */
  const ChecklistPrompt: string := "请根据我们的对话生成准备清单"

  /**
   * The synchronous part of `handleSend`: nothing happens for a blank input outside
   * checklist mode; otherwise the sent text (the prompt in checklist mode, else the trimmed
   * input) is appended as a user message in both modes, input and error are cleared and
   * the page starts loading.
   */
  function BeginSend(st: PrepState, generate: bool): (r: Option<(PrepState, PrepRequest)>)
    ensures r.None? <==> Blank(st.input) && !generate
    ensures r.Some? ==>
      var (st', req) := r.value;
      && req.query == (if generate then ChecklistPrompt else Trim(st.input))
      && req.conversationId == st.conversationId
      && (req.shouldGenerateChecklist == "true" <==> generate)
      && (req.shouldGenerateChecklist == "false" <==> !generate)
      && st'.messages == st.messages + [Message(User, req.query)]
      && st'.input == "" && st'.error == "" && st'.loading
      && st'.conversationId == st.conversationId && st'.checklistGenerated == st.checklistGenerated
  {
    if Blank(st.input) && !generate then None
    else
      var query := if generate then ChecklistPrompt else Trim(st.input);
      var st' := st.(messages := st.messages + [Message(User, query)], input := "", error := "", loading := true);
      Some((st', PrepRequest(query, st.conversationId, if generate then "true" else "false")))
  }

  /**
   * The rest of `handleSend`: an answer is appended, may replace the conversation id, and in
   * checklist mode marks the checklist generated; a failure only sets the error. Loading
   * always ends.
   */
  function CompleteSend(st: PrepState, generate: bool, reply: Reply): (r: PrepState)
    ensures !r.loading && r.input == st.input
    ensures reply.Answered? ==>
      && r.messages == st.messages + [Message(Assistant, reply.answer)]
      && r.conversationId == NextConversation(st.conversationId, reply.conversationId)
      && r.checklistGenerated == (st.checklistGenerated || generate)
      && r.error == st.error
    ensures !reply.Answered? ==>
      && r.messages == st.messages && r.conversationId == st.conversationId
      && r.checklistGenerated == st.checklistGenerated
      && r.error == ReplyError(reply) && r.error != ""
  {
    match reply
    case Answered(answer, cid) =>
      st.(messages := st.messages + [Message(Assistant, answer)],
          conversationId := NextConversation(st.conversationId, cid),
          checklistGenerated := st.checklistGenerated || generate,
          loading := false)
    case _ => st.(error := ReplyError(reply), loading := false)
  }

  /** The checklist flag is set only by an answered request in checklist mode, and never cleared. */
  lemma ChecklistFlag(st: PrepState, generate: bool, reply: Reply)
    ensures CompleteSend(st, generate, reply).checklistGenerated <==>
      st.checklistGenerated || (generate && reply.Answered?)
  {
  }

  /** An answered exchange adds exactly the user message and the answer to the transcript. */
  lemma ExchangeAppendsTwo(st: PrepState, generate: bool, answer: string, cid: Option<string>)
    requires !Blank(st.input) || generate
    ensures var (sent, req) := BeginSend(st, generate).value;
      CompleteSend(sent, generate, Answered(answer, cid)).messages
        == st.messages + [Message(User, req.query), Message(Assistant, answer)]
  {
  }

  /** The two stages the page offers. */
  predicate Offers(stage: Stage) {
    stage == Explore || stage == WithDog
  }

  /** `handleStageSwitch`: store the stage, then navigate with the page's own route table. */
  function HandleStageSwitch(env: Env, stage: Stage): (r: (Env, string))
    requires Offers(stage)
    ensures r.0 == SetUserStage(env, stage)
    ensures stage == Explore ==> r.1 == "/explore"
    ensures stage == WithDog ==> r.1 == "/with-dog"
  {
    (SetUserStage(env, stage), if stage == Explore then "/explore" else "/with-dog")
  }
}
