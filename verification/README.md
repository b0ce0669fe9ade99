# petbrain, modelled in Dafny

petbrain is a Next.js web application that accompanies a prospective dog owner through
three stages: **explore** (asking whether to get a dog), **prep** (preparing for its
arrival) and **with dog** (the first weeks after it arrives). This project models the
application's hand-written logic as pure Dafny functions and proves properties about it.

- **Dog-information extractor** (`DogInfoExtractor`, `Lexicon`, `ExtractorProperties`,
  `ExtractorCases`). It reads one Chinese message and recovers a breed, an age bucket and
  a daily companion-time bucket.
  - It uses fixed word lists and a handful of regular expressions. Each expression is written
    here as a scanner anchored at one position, plus a leftmost search (`Scan.Leftmost`).
  - A veto phrase silences every field.
  - Breed and age also need an ownership or decision verb; companion time accepts a wider
    trigger set.
  - Numbers fall into buckets with inclusive upper bounds. Averaged hours are compared
    doubled, so the half-hour average stays an integer.
- **Daily-card parser** (`DailyCard`, `DailyCardProperties`). The assistant's reply to a card
  request carries three sections, headed by a check mark, a cross mark and an information
  sign.
  - Each section's regular expression is modelled exactly: the whitespace run after the
    marker, the optional colon, the `\s*\n` that gives back characters until it ends on a
    line feed, the lazy capture that stops at the next marker after optional line feeds,
    and the leftmost match.
  - The main theorem is a round trip: a card written in the requested layout parses back
    to itself (`ParseRender`).
- **With-dog page** (`WithDogPage`):
  - the entry gate, which redirects when the stored dog information is missing or its
    parse throws, and shows the page without information when it parses to `null`;
  - the rule that a stored card counts only on the day it was stored;
  - the chat and card requests;
  - the visibility reload, which picks up edited information.
- **Server route of the with-dog chat** (`WithDogChatRoute`):
  - its validation order (query, then dog information, then API key);
  - the outgoing request it builds;
  - how it turns the completion service's reply into its own response.
- **Dog-information forms** (`Profile`, `EditInfoPage`, `DogInfoForm`). These are the two
  validators (proved to accept the same forms) and the input handlers. The edit page's
  submit stores the information and a reload shows it again.
- **Stage store and stage graph** (`StageStore`, `HomePage`, `ExplorePage`, `PrepPage`,
  `StageGraph`):
  - the stage kept in local storage as one of three names;
  - the landing page's redirect;
  - each stage page's send cycle;
  - the switch buttons. These form a complete graph on the three stages with no self-loops.

Modelling choices:
- Local storage is a `map<string, string>`. Whether the code runs in a browser is the
  `StageStore.Env` value.
- `JSON.stringify` / `JSON.parse` of stored values are function parameters. For the dog
  information the parse is a `Profile.Parsed`: it throws, yields `null`, or yields a record.
  For a card, a parse that throws or yields `null` is `None`. Lemmas that need a round trip state it as a precondition.
- Today's date string is an opaque parameter compared by equality.
- A finished request, as a page sees it, is a `Chat.Reply`: a non-ok response, an answer, or
  an exception. The service call behind the route is the `call` parameter of
  `WithDogChatRoute.Handle`.
- Navigation is a returned route string.
- JavaScript semantics are written out where they matter:
  - `\s` and `trim`;
  - `parseInt(x) || 1`;
  - truthiness and `String(v)`;
  - `a || b` on strings;
  - destructuring a `null` or `undefined` body, and reading `answer` from one, which throw.

Where the code and the application's written description disagree, the model follows the
code:
- The card parser accepts empty sections; the description asks for non-empty ones
  (`DailyCardProperties.EmptySectionsAccepted`).
- `我每天能陪8小时` falls in `4-8h`, because eight hours is within the inclusive bound of 8. The
  expectation listed next to it in the extractor file says `≥8h`
  (`ExtractorCases.CanAccompanyEightHours`).
- The description mentions merging extracted information into a profile and deriving the
  day count from a home-coming date. Neither is in the code: the day count is typed by the
  user.
- The prep and with-dog transcripts live in page state only. Nothing stores them.

## Model

| member | source | states |
|---|---|---|
| Text.Trim | src/app/with-dog/page.tsx:158-161 | `trim()` yields a slice of the input with no whitespace at either end and only whitespace removed around it |
| Text.TrimEmptyIff | src/app/explore/page.tsx:16 | the trimmed input is empty exactly when the input is all whitespace |
| Text.TrimOfTrimmed | src/app/with-dog/page.tsx:121-123 | trimming a string with no whitespace at either end returns it unchanged |
| Text.ContainsIff | src/lib/dogInfoExtractor.ts:99 | `includes` holds exactly when the pattern is a slice of the text at some index |
| Text.ContainsAnyIff | src/lib/dogInfoExtractor.ts:68 | `some(p => includes(p))` holds exactly when some list entry is contained |
| Text.FirstContained | src/lib/dogInfoExtractor.ts:98-104 | the result is the first list index whose entry is contained, with none contained before it; none exactly when no entry is contained |
| Text.IntToString | src/app/api/with-dog-chat/route.ts:61 | `String(n)` is a non-empty numeral: digits denoting `n`, after a minus sign when `n` is negative |
| Text.ParseInt | src/app/with-dog/edit-info/page.tsx:194 | `parseInt` yields a number exactly when a digit follows the leading whitespace and optional sign |
| Text.ParseIntOfString | src/app/with-dog/edit-info/page.tsx:194 | `parseInt(String(n))` reads back `n` for every integer |
| Scan.Leftmost | src/lib/dogInfoExtractor.ts:137 | `match` reports a start position where the pattern matches with no match before it, and nothing exactly when it matches nowhere |
| Scan.LeftmostIs | src/lib/dogInfoExtractor.ts:137 | a match at `i` with none before it is the reported one |
| DogInfoExtractor.ExtractBreed | src/lib/dogInfoExtractor.ts:86-105 | a breed only when no veto phrase and some trigger verb occur, and then the first listed breed contained; none when the gates pass but no breed is contained |
| DogInfoExtractor.MapToAgeRange | src/lib/dogInfoExtractor.ts:227-232 | each bucket exactly for its interval of months, with inclusive upper bounds 3, 6 and 12 |
| DogInfoExtractor.ExtractAgeMonths | src/lib/dogInfoExtractor.ts:110-145 | an age only past both gates; juvenile words give `1-3`, else adult words give `12+`, else the bucket of the first month pattern's number; past the gates a month count always gives an age, and without age words and month count there is none |
| DogInfoExtractor.TwiceAverage | src/lib/dogInfoExtractor.ts:197-201 | the integer is exactly twice the source's real-valued `hours2 ? (hours + hours2) / 2 : hours` |
| DogInfoExtractor.HoursBucket | src/lib/dogInfoExtractor.ts:203-206 | each companion bucket exactly for its interval of averaged hours, with inclusive upper bounds 1, 3 and 8 |
| DogInfoExtractor.ExtractCompanionHours | src/lib/dogInfoExtractor.ts:150-211 | hours only without a veto and with a companion trigger; all-day, mostly-home and office-worker words decide in that priority; otherwise the bucket of the first hour pattern that matches, and none when no hour pattern matches; past both gates, a category word or an hour phrase always gives hours |
| DogInfoExtractor.Extract | src/lib/dogInfoExtractor.ts:216-222 | each field is exactly what its own extractor gives for the same text |
| ExtractorProperties.NegativeVetoesAll | src/lib/dogInfoExtractor.ts:62-69 | any veto phrase anywhere, whatever surrounds it, makes all three fields absent |
| ExtractorProperties.TriggerRequired | src/lib/dogInfoExtractor.ts:74-81 | without a trigger verb there is neither breed nor age |
| ExtractorProperties.BreedFirstInDeclarationOrder | src/lib/dogInfoExtractor.ts:98-104 | past the gates, the breed is the first listed one that occurs, wherever it occurs in the text |
| ExtractorProperties.FirstContainedAt | src/lib/dogInfoExtractor.ts:98-102 | the list loop stops at the first contained entry |
| ExtractorProperties.NoListedBreedNoBreed | src/lib/dogInfoExtractor.ts:98-104 | past the gates, no listed breed occurring means no breed |
| ExtractorProperties.SamoyedNeverShortened | src/lib/dogInfoExtractor.ts:14-16 | a text containing 萨摩耶 never yields 萨摩 |
| ExtractorProperties.JuvenileWordsFirst | src/lib/dogInfoExtractor.ts:123-125 | past the gates, a juvenile word gives `1-3` whatever else occurs |
| ExtractorProperties.AdultWordsBeforeNumbers | src/lib/dogInfoExtractor.ts:126-128 | past the gates and without juvenile words, an adult word gives `12+` before any number is read |
| ExtractorProperties.SecondMonthPatternRedundant | src/lib/dogInfoExtractor.ts:131-142 | the second month pattern never decides: the months read are those of the first pattern |
| ExtractorProperties.OldPatternImpliesCountPattern | src/lib/dogInfoExtractor.ts:132-133 | wherever `(\d+)\s*月大` matches, `(\d+)\s*个?月` matches at the same place |
| ExtractorProperties.MonthsDecide | src/lib/dogInfoExtractor.ts:131-142 | past the gates and without age words, the leftmost `(\d+)\s*个?月` match gives the bucket of its number |
| ExtractorProperties.NoMonthsNoAge | src/lib/dogInfoExtractor.ts:131-144 | without age words and with no month count anywhere there is no age |
| ExtractorProperties.AgeBucketsMonotone | src/lib/dogInfoExtractor.ts:227-232 | more months never give a younger bucket |
| ExtractorProperties.CompanionCategoriesInPriority | src/lib/dogInfoExtractor.ts:172-185 | past the companion gates, all-day words give `≥8h`, else mostly-home words `4-8h`, else office-worker words `≤1h` |
| ExtractorProperties.CompanionGateWider | src/lib/dogInfoExtractor.ts:158-166 | every text with a trigger verb passes the companion gate |
| ExtractorProperties.EveryDayHoursDecide | src/lib/dogInfoExtractor.ts:186-206 | with no categorical word, the leftmost every-day hour phrase gives the bucket of its numbers, being the first pattern listed |
| ExtractorProperties.CanAccompanyHoursDecide | src/lib/dogInfoExtractor.ts:186-206 | with no every-day hour phrase anywhere, the leftmost `能陪` hour phrase gives the bucket |
| ExtractorProperties.AccompanyHoursDecide | src/lib/dogInfoExtractor.ts:186-206 | with neither earlier hour phrase anywhere, the leftmost `陪伴` hour phrase gives the bucket |
| ExtractorProperties.NoHoursPhraseNoHours | src/lib/dogInfoExtractor.ts:171-210 | without categorical words and with no hour phrase anywhere there is no companion time |
| ExtractorProperties.HoursBucketOnAverage | src/lib/dogInfoExtractor.ts:197-206 | the doubled-integer buckets are exactly the source's buckets `≤ 1`, `≤ 3`, `≤ 8` on the real average |
| ExtractorProperties.ZeroSecondNumberIgnored | src/lib/dogInfoExtractor.ts:198-201 | a second number of zero buckets like no second number |
| ExtractorProperties.HourBucketsMonotone | src/lib/dogInfoExtractor.ts:203-206 | more averaged hours never give a smaller bucket |
| ExtractorCases.BoughtGolden | src/lib/dogInfoExtractor.ts:239 | `我买了只金毛` yields breed 金毛 |
| ExtractorCases.SureToBuyGolden | src/lib/dogInfoExtractor.ts:242 | `确定买金毛了` yields breed 金毛 |
| ExtractorCases.ListOrderBeatsTextOrder | src/lib/dogInfoExtractor.ts:98-102 | `养了泰迪和金毛` yields 金毛, listed first though written second |
| ExtractorCases.OfficeWorker | src/lib/dogInfoExtractor.ts:246 | `上班族，陪伴时间少` yields `≤1h` |
| ExtractorCases.ThreeMonthLabrador | src/lib/dogInfoExtractor.ts:240 | `定了一只3个月的拉布拉多` yields the breed `拉布拉多` and the age `1-3` |
| ExtractorCases.FiveMonthTeddy | src/lib/dogInfoExtractor.ts:241 | `领养了只泰迪，5个月大` yields the breed `泰迪` and the age `4-6` |
| ExtractorCases.ChoseCorgi | src/lib/dogInfoExtractor.ts:243 | `选好了，就是柯基` yields the breed `柯基` |
| ExtractorCases.KeepsHusky | src/lib/dogInfoExtractor.ts:244 | `家里养了只哈士奇` yields the breed `哈士奇` |
| ExtractorCases.CanAccompanyEightHours | src/lib/dogInfoExtractor.ts:245 | `我每天能陪8小时` yields `4-8h`, not the `≥8h` listed beside it: the every-day pattern fails at `每天能`, `能陪8小时` reads 8 hours, and 8 is within the inclusive bound |
| ExtractorCases.AskingIfEasy | src/lib/dogInfoExtractor.ts:251 | `金毛好养吗？` yields nothing |
| ExtractorCases.StillConsidering | src/lib/dogInfoExtractor.ts:252 | `我在考虑养金毛` yields nothing |
| ExtractorCases.ChoosingBetween | src/lib/dogInfoExtractor.ts:253 | `金毛和泰迪选哪个？` yields nothing |
| ExtractorCases.WantingADog | src/lib/dogInfoExtractor.ts:254 | `我想养只狗` yields nothing |
| ExtractorCases.AskingForAdvice | src/lib/dogInfoExtractor.ts:255 | `推荐一个犬种` yields nothing |
| ExtractorCases.NotKeeping | src/lib/dogInfoExtractor.ts:256 | `不养金毛` yields nothing |
| ExtractorCases.HasNoDog | src/lib/dogInfoExtractor.ts:257 | `我没有狗` yields nothing |
| DailyCard.HeaderAt | src/app/with-dog/page.tsx:111-113 | a header match starts with the marker, and its capture starts right after a line feed |
| DailyCard.CaptureEnd | src/app/with-dog/page.tsx:111-113 | the lazy capture ends at the first position where line feeds then the next marker follow, or at the end of the text |
| DailyCard.FindSection | src/app/with-dog/page.tsx:111-113 | a capture exactly when some header matches; it is taken from the leftmost header up to the lookahead |
| DailyCard.ParseDailyCard | src/app/with-dog/page.tsx:105-144 | a card exactly when all three headers match, each field the trimmed capture of its section |
| DailyCardProperties.HeaderMatches | src/app/with-dog/page.tsx:111-113 | a header written as marker, space, title, colon and line feed matches where it is written; the capture starts right after it, or after the following blank line when the body is empty |
| DailyCardProperties.SectionFound | src/app/with-dog/page.tsx:111-113 | a section written after a prefix without its marker, followed by a blank line and the next marker, captures exactly its body |
| DailyCardProperties.FocusFound | src/app/with-dog/page.tsx:111 | the focus pattern captures the focus field of a rendered card |
| DailyCardProperties.ForbiddenFound | src/app/with-dog/page.tsx:112 | the forbidden pattern captures the forbidden field of a rendered card |
| DailyCardProperties.ReasonFound | src/app/with-dog/page.tsx:113 | the reason pattern captures the reason field of a rendered card |
| DailyCardProperties.ParseRender | src/app/with-dog/page.tsx:119-124 | a card with trimmed fields free of the markers parses back from its rendering |
| DailyCardProperties.EmptySectionsAccepted | src/app/with-dog/page.tsx:119-124 | three empty sections still give a card, of three empty fields |
| DailyCardProperties.OutOfOrderAbsorbed | src/app/with-dog/page.tsx:111 | with the reason section written before the forbidden one, the focus capture swallows the reason section |
| WithDogPage.Stored | src/app/with-dog/page.tsx:42-44 | a stored value counts only when present and non-empty |
| WithDogPage.OnLoad | src/app/with-dog/page.tsx:41-74 | redirect to the edit page exactly when the dog information is missing or its parse throws; a parsed record is shown, a parsed `null` shows no information; a card only when stored today, and then the decoded one |
| WithDogPage.BeginSend | src/app/with-dog/page.tsx:157-185 | nothing for a blank input outside card mode or without dog information; card mode sends the fixed prompt and leaves the transcript alone, chat mode appends the trimmed input; only the active loading flag rises |
| WithDogPage.ApplyCard | src/app/with-dog/page.tsx:119-139 | success exactly when the reply parses; on success the card and today's date are stored together, on failure nothing changes |
| WithDogPage.CompleteSend | src/app/with-dog/page.tsx:201-239 | errors touch nothing else; an answer may replace the conversation id and is appended or parsed into the card, with the card error when it does not parse; the active loading flag always drops |
| WithDogPage.ReloadAfterStore | src/app/with-dog/page.tsx:50-63 | a card stored with today's date is shown on a reload the same day and not on another day |
| WithDogPage.CardKeptForTheDay | src/app/with-dog/page.tsx:131-132 | a card generated from a reply is shown again on a reload the same day and not the next |
| WithDogPage.RenderedCardShown | src/app/with-dog/page.tsx:213-220 | a card reply in the requested layout shows exactly that card with no error |
| WithDogPage.OnVisible | src/app/with-dog/page.tsx:77-97 | on becoming visible, stored dog information that parses replaces the page's, a `null` included; a missing value or a throwing parse keeps it; nothing else changes |
| WithDogPage.NullInfoStopsSending | src/app/with-dog/page.tsx:157-158 | after a stored `null` is reloaded, the send guard `if (!dogInfo) return` stops every message and card request |
| WithDogPage.EditSeenOnReturn | src/app/with-dog/page.tsx:81-85 | information submitted on the edit page is on the with-dog page once it is visible again |
| WithDogPage.HandleStageSwitch | src/app/with-dog/page.tsx:147-154 | stores the stage, then goes to `/explore` or `/prep` |
| WithDogChatRoute.Prop | src/app/api/with-dog-chat/route.ts:23 | a property read is the own field's value when the object has it, and `undefined` otherwise |
| WithDogChatRoute.Prepare | src/app/api/with-dog-chat/route.ts:19-72 | 500 for a body that is not JSON or is `null` or `undefined`; then 400 for a bad query, 400 for incomplete dog information, 500 without a key, in that order; otherwise the request with copied fields, `String(daysHome)`, the flag as `'true'`/`'false'`, and the conversation id exactly when truthy |
| WithDogChatRoute.Finish | src/app/api/with-dog-chat/route.ts:85-107 | a non-ok status passes through with `无法获取回复`; an ok body gives its answer when truthy, else `没有收到回复`, with its conversation id; a thrown call or a `null` or `undefined` body gives 500 `请求失败，请稍后再试` |
| WithDogChatRoute.Handle | src/app/api/with-dog-chat/route.ts:18-108 | a rejected request is answered before the call; otherwise the call's outcome is finished |
| WithDogChatRoute.AcceptedInfoForwarded | src/app/api/with-dog-chat/route.ts:37-72 | what the page posts with information the forms accept is forwarded, with the day count as its numeral |
| WithDogChatRoute.RouteLaxerThanForms | src/app/api/with-dog-chat/route.ts:37-43 | the route's check is weaker than the forms': a day count of 45 is forwarded although no form accepts it |
| WithDogChatRoute.TruthyFieldsForwarded | src/app/api/with-dog-chat/route.ts:37-43 | the dog-information check asks only for truthy fields: any posted information with non-empty strings and a non-zero day count is forwarded |
| WithDogChatRoute.AnsweredQueryReachesPage | src/app/api/with-dog-chat/route.ts:18-100 | end to end: a request the page posts with acceptable information, a configured key and a service answering the forwarded request with a non-empty answer gives status 200 with that answer and the service's conversation id |
| Profile.Apply | src/app/with-dog/edit-info/page.tsx:51-54 | an edit sets its own field and leaves the other three alone |
| Profile.DaysHomeInput | src/app/with-dog/edit-info/page.tsx:194 | `parseInt(value) \|\| 1`: never zero; `NaN` and 0 become 1; other integers are kept |
| Profile.DaysHomeInputOfNumeral | src/app/with-dog/edit-info/page.tsx:194 | typing the numeral of a non-zero count yields that count |
| EditInfoPage.OnLoad | src/app/with-dog/edit-info/page.tsx:32-47 | a parsed record fills the form as an edit; a parsed `null` replaces the form with `null` (nothing to show) and marks an edit; a missing value or a throwing parse keeps the empty form as a first fill |
| EditInfoPage.Errors | src/app/with-dog/edit-info/page.tsx:68-86 | each field has an error exactly when it fails its check, with the page's message |
| EditInfoPage.ValidateForm | src/app/with-dog/edit-info/page.tsx:67-88 | the shown errors are exactly the per-field map: one message for each failing field and none for passing ones; passes exactly when the form is acceptable, which is exactly when that map is empty |
| EditInfoPage.HandleInputChange | src/app/with-dog/edit-info/page.tsx:50-64 | the field takes the value and its shown error goes; other errors stay as they were |
| EditInfoPage.HandleSubmit | src/app/with-dog/edit-info/page.tsx:91-104 | stores the information and today's date and returns to `/with-dog` exactly when the form is acceptable; otherwise storage is unchanged; either way the shown errors are exactly the validator's per-field map |
| EditInfoPage.SubmitThenReload | src/app/with-dog/edit-info/page.tsx:99 | after a valid submit, the page loads the submitted information back as an edit |
| EditInfoPage.InputChangeClearsError | src/app/with-dog/edit-info/page.tsx:56-63 | in reachable states an input removes exactly its own field's error |
| EditInfoPage.ErrorsShownInvariant | src/app/with-dog/edit-info/page.tsx:26 | every error ever shown is the validator's message for its field |
| EditInfoPage.DaysHomeInputNeverFalsy | src/app/with-dog/edit-info/page.tsx:82 | a typed day count is never 0, so the validator rejects it exactly when it is negative or above 30 |
| EditInfoPage.UnknownAgeAccepted | src/app/with-dog/edit-info/page.tsx:156 | the age option `未知` passes the validator |
| DogInfoForm.InitialState | src/components/DogInfoForm.tsx:28-35 | the form starts from the given data, else empty with one day at home, and no errors |
| DogInfoForm.Errors | src/components/DogInfoForm.tsx:41-57 | each field has an error exactly when it fails its check, with the component's message |
| DogInfoForm.ValidateForm | src/components/DogInfoForm.tsx:40-61 | the error record is replaced by exactly the per-field record of failing fields; passes exactly when the form is acceptable, which is exactly when that record is empty |
| DogInfoForm.HandleSubmit | src/components/DogInfoForm.tsx:64-69 | `onSubmit` receives the form exactly when it is acceptable; the error record becomes the validator's |
| DogInfoForm.UpdateField | src/components/DogInfoForm.tsx:72-78 | the field takes the value; its shown error becomes `undefined` with the key kept; other errors unchanged |
| DogInfoForm.ValidatorsAgree | src/components/DogInfoForm.tsx:40-61 | the component and the edit page accept the same forms and flag the same fields |
| StageStore.StageNamed | src/lib/storage.ts:12-14 | a string names a stage exactly when it is one of the three names |
| StageStore.GetUserStage | src/lib/storage.ts:8-16 | nothing on the server; a stage exactly when the stored string is one of the three names |
| StageStore.SetUserStage | src/lib/storage.ts:21-25 | stores the stage's name under the key; no effect on the server |
| StageStore.ClearUserStage | src/lib/storage.ts:30-34 | removes the key; no effect on the server |
| StageStore.NameRoundTrip | src/lib/storage.ts:12-13 | a stage's stored name reads back as that stage |
| StageStore.GetAfterSet | src/lib/storage.ts:8-25 | in a browser, the stage set is the stage read |
| StageStore.GetAfterClear | src/lib/storage.ts:30-34 | after clearing, no stage is read |
| StageStore.OtherKeysUntouched | src/lib/storage.ts:24 | setting or clearing the stage leaves every other key alone |
| StageStore.SetOverwrites | src/lib/storage.ts:24 | the second set wins, and setting is idempotent |
| HomePage.RouteOfInjective | src/app/page.tsx:16-20 | distinct stages have distinct routes |
| HomePage.OnMount | src/app/page.tsx:11-23 | navigation exactly when a stage is stored, to that stage's route |
| HomePage.HandleStageSelect | src/app/page.tsx:25-33 | stores the stage and goes to its route |
| HomePage.SelectThenRemount | src/app/page.tsx:11-33 | in a browser, the next visit after a choice goes straight to the chosen route |
| ExplorePage.BeginSend | src/app/explore/page.tsx:15-34 | nothing exactly for a blank input; otherwise the trimmed input is sent alone and becomes the last message, with input, reply and error cleared |
| ExplorePage.CompleteSend | src/app/explore/page.tsx:36-49 | an answer is shown, or a non-empty error is set; loading always ends |
| ExplorePage.AskAndAnswer | src/app/explore/page.tsx:15-49 | an answered question leaves the question, its answer and no error |
| ExplorePage.HandleStageSwitch | src/app/explore/page.tsx:52-59 | stores the stage, then goes to `/prep` or `/with-dog` |
| PrepPage.BeginSend | src/app/prep/page.tsx:23-58 | nothing exactly for a blank input outside checklist mode; the sent text is always appended; the flag is `'true'` exactly in checklist mode |
| PrepPage.CompleteSend | src/app/prep/page.tsx:60-89 | an answer is appended and may replace the conversation id; a failure only sets a non-empty error; loading always ends |
| PrepPage.ChecklistFlag | src/app/prep/page.tsx:80-82 | the checklist flag is set by an answer in checklist mode and never cleared |
| PrepPage.ExchangeAppendsTwo | src/app/prep/page.tsx:33-77 | an answered exchange appends the user's message and then the answer |
| PrepPage.HandleStageSwitch | src/app/prep/page.tsx:106-113 | stores the stage, then goes to `/explore` or `/with-dog` |
| StageGraph.FullyConnected | src/app/prep/page.tsx:106-113 | together with the explore and with-dog switches, each page offers exactly the other two stages |
| StageGraph.SwitchAgreesWithHome | src/app/page.tsx:25-33 | a switch stores the target stage and lands on the landing page's route for it |
| Chat.OrElse | src/app/explore/page.tsx:39 | `s \|\| fallback`: the string when present and non-empty, else the fallback |
| Chat.NextConversation | src/app/prep/page.tsx:68-70 | a present, non-empty returned id replaces the current one; otherwise it stays |
| Chat.ReplyError | src/app/explore/page.tsx:38-46 | a non-ok response shows its own `error` text when non-empty, else `请求失败`; no error exactly for an answer; the network message for an exception |

## Left out

- src/lib/supabase.ts is not part of this model: it is network storage with no logic that
  gates anything.
- The `/api/chat` and `/api/prep-chat` routes, which pass requests through after a one-line
  query check. The completion service itself is the `call` parameter.
- Presentational components, keyboard handlers, `handleEditInfo` / `handleCancel` (constant
  navigation), the edit page's first-fill wording flag beyond its value, and React effect
  timing.
- `handleGenerateChecklist` sets the input to the prompt before sending. That write is
  overwritten when the send clears the input, so only the send is modelled.
- `JSON.parse` / `JSON.stringify` of stored values and request bodies are parameters.
  The stored dog information parses to a record, `null`, or an exception. Other shapes are
  not modelled: a number or an incomplete object. Only complete records are written under
  that key.
  `WithDogChatRoute.JsVal` has no arrays and only integer numbers.
- Text.ParseInt: states only when a number is read. The value read is stated for integer
  numerals (`ParseIntOfString`). The number input never yields the `0x` prefix, so
  `parseInt`'s hexadecimal reading and precision loss on very long numerals are not
  modelled.
- WithDogChatRoute.ToJsString: covers integers only. A non-integer day count is outside
  `JsVal`.
- WithDogChatRoute.Finish: a non-ok status is any natural number. That it lies outside
  200-299 is not modelled.
- DailyCard.HeaderAt: its own contract gives only necessary conditions. When a header
  matches is stated by `DailyCardProperties.HeaderMatches`.
- Merging extracted information into a profile, and deriving the day count from a date:
  neither exists in the code.
- UTF-16: every character the code searches for is a single UTF-16 code unit, so a Dafny
  `char` stands for one.
