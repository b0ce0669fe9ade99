/**
 * The with-dog stage page (src/app/with-dog/page.tsx): the entry gate that sends a visitor
 * without usable dog information to the edit form, today's card and how it is kept, the
 * chat and card requests, and the switch to the two other stages.
 */
module WithDogPage {
  import opened Wrappers
  import opened Text
  import opened StageStore
  import opened Chat
  import opened Profile
  import opened DailyCard
  import DailyCardProperties
  import EditInfoPage

  const DogInfoKey: string := "petbrain_dog_info"
  const CardKey: string := "petbrain_daily_card"
  const CardDateKey: string := "petbrain_daily_card_date"
  /** Where a visitor without usable dog information is sent. */
  const EditInfoRoute: string := "/with-dog/edit-info"
  /** The message sent when a card is requested. */
  const CardPrompt: string := "你好，请生成今日卡片"
  /** Shown when the reply to a card request does not parse. */
  const CardParseFailed: string := "今日卡片生成失败，请重试"

  /** The outcome of the load effect: a redirect, or the page with its dog information and maybe today's card. */
  datatype Loaded = Redirect(route: string) | Show(dogInfo: Option<DogInfo>, card: Option<Card>)

  /** The stored text under `key`, when it is present and not empty (`if (localStorage.getItem(key))`). */
  function Stored(store: map<string, string>, key: string): (r: Option<string>)
    ensures r.Some? <==> key in store && store[key] != ""
    ensures r.Some? ==> r.value == store[key]
  {
    if key in store && store[key] != "" then Some(store[key]) else None
  }

  /** A stored card counts only when its stored date is today's date string. */
  predicate CardIsFresh(store: map<string, string>, today: string) {
    CardDateKey in store && store[CardDateKey] == today
  }

  /**
   * The load effect. `decodeDog` and `decodeCard` stand for `JSON.parse` (a card that throws
   * or parses to `null` is `None`) and `today` for `new Date().toDateString()`. Missing dog
   * information, or a parse that throws, redirects; a stored `null` is shown as no
   * information at all. A stored card is used only when it is today's and decodes.
   */
  function OnLoad(store: map<string, string>, today: string,
                  decodeDog: string -> Parsed, decodeCard: string -> Option<Card>): (r: Loaded)
    ensures r.Redirect? <==> Stored(store, DogInfoKey).None? || decodeDog(store[DogInfoKey]).ParseFails?
    ensures r.Redirect? ==> r.route == EditInfoRoute
    ensures r.Show? ==> (r.dogInfo.Some? <==> decodeDog(store[DogInfoKey]).ParsedInfo?)
    ensures r.Show? && r.dogInfo.Some? ==> r.dogInfo.value == decodeDog(store[DogInfoKey]).info
    ensures r.Show? && r.card.Some? ==> CardIsFresh(store, today) && Stored(store, CardKey).Some?
    ensures r.Show? && CardIsFresh(store, today) && Stored(store, CardKey).Some? ==> r.card == decodeCard(store[CardKey])
  {
    match Stored(store, DogInfoKey)
    case None => Redirect(EditInfoRoute)
    case Some(saved) =>
      if decodeDog(saved).ParseFails? then Redirect(EditInfoRoute)
      else
        var card := match Stored(store, CardKey)
          case Some(savedCard) => if CardIsFresh(store, today) then decodeCard(savedCard) else None
          case None => None;
        Show(decodeDog(saved).Value(), card)
  }

  datatype WithDogState = WithDogState(
    dogInfo: Option<DogInfo>, card: Option<Card>, messages: seq<Message>, input: string,
    conversationId: Option<string>, loading: bool, generatingCard: bool, error: string)

  /** The request body the page posts. */
  datatype WithDogRequest = WithDogRequest(
    query: string, conversationId: Option<string>, dogInfo: DogInfo, generateDailyCard: bool)

  /**
   * The synchronous part of `handleSend`: nothing happens for a blank input outside card
   * mode, nor without dog information. In card mode the fixed prompt is sent and the
   * transcript is left alone; otherwise the trimmed input is sent and appended. Input and
   * error are cleared and the active mode's loading flag is raised.
   */
  function BeginSend(st: WithDogState, generateCard: bool): (r: Option<(WithDogState, WithDogRequest)>)
    ensures r.None? <==> (Blank(st.input) && !generateCard) || st.dogInfo.None?
    ensures r.Some? ==>
      var (st', req) := r.value;
      && req.query == (if generateCard then CardPrompt else Trim(st.input))
      && req.conversationId == st.conversationId && Some(req.dogInfo) == st.dogInfo
      && req.generateDailyCard == generateCard
      && st'.messages == (if generateCard then st.messages else st.messages + [Message(User, req.query)])
      && st'.input == "" && st'.error == ""
      && (if generateCard then st'.generatingCard && st'.loading == st.loading
          else st'.loading && st'.generatingCard == st.generatingCard)
      && st'.card == st.card && st'.dogInfo == st.dogInfo && st'.conversationId == st.conversationId
  {
    if Blank(st.input) && !generateCard then None
    else if st.dogInfo.None? then None
    else
      var query := if generateCard then CardPrompt else Trim(st.input);
      var messages := if generateCard then st.messages else st.messages + [Message(User, query)];
      var st' := st.(messages := messages, input := "", error := "",
                     loading := if generateCard then st.loading else true,
                     generatingCard := if generateCard then true else st.generatingCard);
      Some((st', WithDogRequest(query, st.conversationId, st.dogInfo.value, generateCard)))
  }

  /**
   * `parseDailyCard` with its effects: on success the card is shown and stored together
   * with today's date (`encodeCard` stands for `JSON.stringify`); on failure nothing changes.
   */
  function ApplyCard(st: WithDogState, store: map<string, string>, content: string, today: string,
                     encodeCard: Card -> string): (r: (bool, WithDogState, map<string, string>))
    ensures r.0 <==> ParseDailyCard(content).Some?
    ensures r.0 ==> r.1 == st.(card := ParseDailyCard(content))
    ensures r.0 ==> r.2 == store[CardKey := encodeCard(ParseDailyCard(content).value)][CardDateKey := today]
    ensures !r.0 ==> r.1 == st && r.2 == store
  {
    match ParseDailyCard(content)
    case Some(card) => (true, st.(card := Some(card)), store[CardKey := encodeCard(card)][CardDateKey := today])
    case None => (false, st, store)
  }

  /**
   * The rest of `handleSend`. A failure only sets the error. An answer may replace the
   * conversation id; in card mode it is parsed into the card (with the card error when it
   * does not parse), otherwise it is appended to the transcript. Only the active mode's
   * loading flag is lowered, on every path.
   */
  function CompleteSend(st: WithDogState, generateCard: bool, reply: Reply, store: map<string, string>,
                        today: string, encodeCard: Card -> string): (r: (WithDogState, map<string, string>))
    ensures generateCard ==> !r.0.generatingCard && r.0.loading == st.loading
    ensures !generateCard ==> !r.0.loading && r.0.generatingCard == st.generatingCard
    ensures r.0.dogInfo == st.dogInfo && r.0.input == st.input
    ensures !reply.Answered? ==>
      && r.1 == store && r.0.card == st.card && r.0.messages == st.messages
      && r.0.conversationId == st.conversationId && r.0.error == ReplyError(reply)
    ensures reply.Answered? ==> r.0.conversationId == NextConversation(st.conversationId, reply.conversationId)
    ensures reply.Answered? && !generateCard ==>
      && r.0.messages == st.messages + [Message(Assistant, reply.answer)]
      && r.0.card == st.card && r.1 == store && r.0.error == st.error
    ensures reply.Answered? && generateCard ==> r.0.messages == st.messages
    ensures reply.Answered? && generateCard && ParseDailyCard(reply.answer).None? ==>
      r.0.error == CardParseFailed && r.0.card == st.card && r.1 == store
    ensures reply.Answered? && generateCard && ParseDailyCard(reply.answer).Some? ==>
      && r.0.card == ParseDailyCard(reply.answer) && r.0.error == st.error
      && r.1 == store[CardKey := encodeCard(r.0.card.value)][CardDateKey := today]
  {
    var st1 := match reply
      case Answered(answer, cid) =>
        var st2 := st.(conversationId := NextConversation(st.conversationId, cid));
        if generateCard then
          var (ok, st3, store3) := ApplyCard(st2, store, answer, today, encodeCard);
          (if ok then st3 else st3.(error := CardParseFailed), store3)
        else (st2.(messages := st2.messages + [Message(Assistant, answer)]), store)
      case _ => (st.(error := ReplyError(reply)), store);
    var (st4, store4) := st1;
    (if generateCard then st4.(generatingCard := false) else st4.(loading := false), store4)
  }

  /** Storing a card under today's date: a reload the same day shows it, a reload on another day does not. */
  lemma ReloadAfterStore(store: map<string, string>, card: Card, today: string, other: string,
                         decodeDog: string -> Parsed, encodeCard: Card -> string,
                         decodeCard: string -> Option<Card>)
    requires Stored(store, DogInfoKey).Some? && decodeDog(store[DogInfoKey]).ParsedInfo?
    requires decodeCard(encodeCard(card)) == Some(card) && encodeCard(card) != "" && other != today
    ensures var store' := store[CardKey := encodeCard(card)][CardDateKey := today];
      && OnLoad(store', today, decodeDog, decodeCard) == Show(Some(decodeDog(store[DogInfoKey]).info), Some(card))
      && OnLoad(store', other, decodeDog, decodeCard) == Show(Some(decodeDog(store[DogInfoKey]).info), None)
  {
    var store' := store[CardKey := encodeCard(card)][CardDateKey := today];
    assert store'[DogInfoKey] == store[DogInfoKey];
    assert Stored(store', CardKey) == Some(encodeCard(card));
  }

  /**
   * A card generated today is shown again when the page is reloaded the same day, and not
   * on another day, provided the stored dog information still decodes and the card's
   * encoding decodes back to it.
   */
  lemma CardKeptForTheDay(st: WithDogState, store: map<string, string>, today: string, other: string,
                          answer: string, card: Card, cid: Option<string>,
                          decodeDog: string -> Parsed, encodeCard: Card -> string,
                          decodeCard: string -> Option<Card>)
    requires ParseDailyCard(answer) == Some(card)
    requires Stored(store, DogInfoKey).Some? && decodeDog(store[DogInfoKey]).ParsedInfo?
    requires decodeCard(encodeCard(card)) == Some(card) && encodeCard(card) != "" && other != today
    ensures var (_, store') := CompleteSend(st, true, Answered(answer, cid), store, today, encodeCard);
      && OnLoad(store', today, decodeDog, decodeCard) == Show(Some(decodeDog(store[DogInfoKey]).info), Some(card))
      && OnLoad(store', other, decodeDog, decodeCard) == Show(Some(decodeDog(store[DogInfoKey]).info), None)
  {
    var r := CompleteSend(st, true, Answered(answer, cid), store, today, encodeCard);
    assert r.1 == store[CardKey := encodeCard(card)][CardDateKey := today];
    ReloadAfterStore(store, card, today, other, decodeDog, encodeCard, decodeCard);
  }

  /**
   * A card request answered in the requested layout, with fields the layout can carry,
   * shows exactly that card and raises no error.
   */
  lemma RenderedCardShown(st: WithDogState, c: Card, cid: Option<string>, store: map<string, string>,
                          today: string, encodeCard: Card -> string)
    requires DailyCardProperties.Carriable(c.focus) && DailyCardProperties.Carriable(c.forbidden)
    requires DailyCardProperties.Carriable(c.reason)
    ensures var (st', _) := CompleteSend(st, true, Answered(DailyCardProperties.Render(c), cid), store, today, encodeCard);
      st'.card == Some(c) && st'.error == st.error && !st'.generatingCard
  {
    DailyCardProperties.ParseRender(c);
  }

  /**
   * The visibility listener: when the page becomes visible again, stored dog information
   * that parses replaces the page's, a stored `null` included; when nothing is stored or
   * the parse throws the page keeps what it had. Nothing else on the page changes.
   */
  function OnVisible(st: WithDogState, store: map<string, string>, decodeDog: string -> Parsed): (r: WithDogState)
    ensures Stored(store, DogInfoKey).Some? && decodeDog(store[DogInfoKey]).ParsedInfo? ==>
      r.dogInfo == Some(decodeDog(store[DogInfoKey]).info)
    ensures Stored(store, DogInfoKey).Some? && decodeDog(store[DogInfoKey]).ParsedNull? ==> r.dogInfo.None?
    ensures Stored(store, DogInfoKey).None? || decodeDog(store[DogInfoKey]).ParseFails? ==> r.dogInfo == st.dogInfo
    ensures r.(dogInfo := st.dogInfo) == st
  {
    match Stored(store, DogInfoKey)
    case Some(saved) => if decodeDog(saved).ParseFails? then st else st.(dogInfo := decodeDog(saved).Value())
    case None => st
  }

  /**
   * A stored `null` leaves the page without dog information after it becomes visible
   * again, and from then on neither a message nor a card request is sent.
   */
  lemma NullInfoStopsSending(st: WithDogState, store: map<string, string>, decodeDog: string -> Parsed, generateCard: bool)
    requires Stored(store, DogInfoKey).Some? && decodeDog(store[DogInfoKey]).ParsedNull?
    ensures BeginSend(OnVisible(st, store, decodeDog), generateCard).None?
  {
  }

  /**
   * Information saved on the edit page reaches the with-dog page when it becomes visible
   * again, provided its encoding is not empty and decodes back to it.
   */
  lemma EditSeenOnReturn(st: WithDogState, edit: EditInfoPage.EditState, store: map<string, string>,
                         encode: DogInfo -> string, decodeDog: string -> Parsed, today: string)
    requires Acceptable(edit.form)
    requires decodeDog(encode(edit.form)) == ParsedInfo(edit.form) && encode(edit.form) != ""
    ensures OnVisible(st, EditInfoPage.HandleSubmit(edit, store, encode, today).1, decodeDog).dogInfo == Some(edit.form)
  {
    var store' := EditInfoPage.HandleSubmit(edit, store, encode, today).1;
    assert store'[DogInfoKey] == encode(edit.form);
  }

  /** The two stages the page offers. */
  predicate Offers(stage: Stage) {
    stage == Explore || stage == Prep
  }

  /** `handleStageSwitch`: store the stage, then navigate with the page's own route table. */
  function HandleStageSwitch(env: Env, stage: Stage): (r: (Env, string))
    requires Offers(stage)
    ensures r.0 == SetUserStage(env, stage)
    ensures stage == Explore ==> r.1 == "/explore"
    ensures stage == Prep ==> r.1 == "/prep"
  {
    (SetUserStage(env, stage), if stage == Explore then "/explore" else "/prep")
  }
}
