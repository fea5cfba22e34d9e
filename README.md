# Startupdesk core, modelled in Dafny

Startupdesk helps someone start a small business in India. It has two parts. A Flask backend runs a
step-by-step advisor conversation and turns government MSME records into marketplace listings. A
React frontend carries the marketplace page, the advisor chat page with its saved chat sessions, the
plan wizard, the supplier comparison and search views, the cost calculator, the financial charts and
the dashboard widgets (cash flow, sales, advertising, phase tracker, progress tasks).

This project models that core, one Dafny module per source file:

- `Advisor` and `GovListings` follow `backend/app.py`.
- `Marketplace` follows the marketplace page, and `Listing` is the record it shares with the backend.
- `ChatService` follows the browser-storage chat store, and `SmartBizPage` follows the advisor chat page.
- `UserInputForm`, `SupplierComparison`, `AiSupplierList`, `CostCalculator` and `FinancialCharts`
  follow their components; `CompareList` is the compare-list rule those two supplier views share.
- `CashFlow`, `Sales`, `Advertising`, `PhaseTracker` and `ProgressDashboard` follow the dashboard
  widgets.
- `Business` holds the plan and business records the pages pass around.
- `Common` holds what several modules use: options, JavaScript and Python string operations, number
  parsing, and sums and filters over sequences.

State that a component updates in place is a `class`; its handlers are methods with `modifies`
frames, and the functions they are stated against are proved about. Pure computations are functions
with lemmas. Everything outside the program is a parameter of the handler that meets it:

- what a database query, an HTTP request or the language model returned;
- whether an insert succeeded;
- today's date and a freshly made id.

JavaScript numbers are `real`s. Where the source can produce NaN, a number is a `Number`, either `Num(v)` or `NaN`; arithmetic on NaN gives NaN and every comparison with it is false. Integers
are unbounded. Strings are sequences of characters, restricted to ASCII where case or whitespace
matters.

## Model

| member | source | states |
|---|---|---|
| Advisor.StepFlowShape | backend/app.py:33-47 | the flow has thirteen steps, SUPPLIER_GUIDANCE at index 6 and DASHBOARD_MODE last |
| Advisor.StepNamesFromFlow | backend/app.py:398-400 | every step of the flow passes the `step in STEP_FLOW` test of the merge |
| Advisor.StepAt | backend/app.py:274 | `STEP_FLOW[i]` is defined exactly for -13..12; a negative index counts from the end, and any other index is the IndexError |
| Advisor.ErrorReply | backend/app.py:416-421 | after an exception the reply is the rate-limit text exactly when the lower-cased error contains "rate_limit", otherwise the fallback text |
| Advisor.MockComparison | backend/app.py:295-343 | mock mode sends five supplier rows for RAW_MATERIALS, SUPPLIER_GUIDANCE and SELLING_GUIDE, and none for any other step |
| Advisor.ClampedNext | backend/app.py:347 | the next index is one more, but never past the last step |
| Advisor.Record | backend/app.py:345-346 | a non-empty message is stored under the step; an empty one changes nothing |
| Advisor.Merged | backend/app.py:397-400 | the merge keeps every old answer and adds exactly the extracted keys that are step names; those take the extracted value, and every other key keeps its old one |
| Advisor.MergedOver | backend/app.py:397-400 | the same merge over any set of accepted keys |
| Advisor.MergeExtracted | backend/app.py:397-400 | the loop over the extracted items, updating the answers in place, ends with exactly the merged answers |
| Advisor.SkipAnsweredSpec | backend/app.py:402-408 | the advancing loop never moves back nor past the last step, passes only answered steps, and stops at the last step or at an unanswered one |
| Advisor.AdvancePastAnswered | backend/app.py:402-408 | the `while` loop over the step index stops where that specification says |
| Advisor.SmartbizAgent | backend/app.py:265-427 | the endpoint, updating the state step by step, gives exactly the response of one turn (`Turn`) |
| Advisor.Respond | backend/app.py:276-427 | once the current step is known, the statement-by-statement handler agrees with the turn function in all four modes |
| Advisor.IndexErrorExactly | backend/app.py:268-274 | a request fails exactly when it carries a state whose step index lies outside -13..12; a missing or empty state starts at step 0 and never fails |
| Advisor.MockTurn | backend/app.py:283-349 | mock mode replies with the step's canned text; a message is stored under the current step and the index moves one step, clamped; an empty message leaves the state alone |
| Advisor.JsonTurn | backend/app.py:380-391 | a completion with a `{…}` span answers with the decoded reply and comparison rows and the JSON-mode state |
| Advisor.JsonAnswersSpec | backend/app.py:393-400 | the JSON-mode answers hold exactly the old keys, the extracted step names and, for a non-empty message, the current step; extracted values win, the message fills the current step when it was not extracted, and every other old answer is kept, including one whose key was extracted but names no step and the current step's under an empty message |
| Advisor.JsonStateSpec | backend/app.py:393-408 | in JSON mode the message lands under the current step only when the model did not extract that step; extracted keys land only when they name a step; every other old answer stays, including one under an extracted key that names no step and the current step's under an empty message; the index stops at the first unanswered step at or after it, never moving back nor past the last |
| Advisor.PlainTurn | backend/app.py:380-414 | a completion without a `{…}` span answers with the stripped text and no rows; the message is stored and the index moves exactly one step, clamped |
| Advisor.FailureKeepsState | backend/app.py:352-421 | a failed AI call, or a span that does not decode, returns the state exactly as it came in, with no rows and the error or fallback reply |
| Advisor.StepIndexStaysInFlow | backend/app.py:345-414 | in every mode a step index inside the flow stays inside it and never moves back |
| GovListings.PyInt | backend/app.py:469-474 | Python's `int()` of a base-10 string with no surrounding white space: digits with single underscores between them give their value with the underscores dropped, a leading `+` or `-` keeps or negates it, and anything else is the ValueError the `except` swallows |
| GovListings.PyIntOfNatToString | backend/app.py:470 | `int()` reads back the decimal spelling of a natural number, bare or with a `+` or `-` in front |
| GovListings.PyIntUnderscores | backend/app.py:470 | "1_0" reads as 10; a doubled, leading or trailing underscore, a bare sign and the empty text are ValueErrors |
| GovListings.TwoDigitCodesByRange | backend/app.py:430-476 | on every two-digit code the map is the NIC 2008 table by ranges: 10-12 food, 13-15 clothing, 26-27 electronics, 01-03 agriculture, 16-25, 28-30, 33 and 35-39 industrial, 31-32 handicrafts, 45 and above services, everything else "Other" |
| GovListings.CodeByRange | backend/app.py:441-476 | the branch-by-branch list tests and the integer fallback agree with that range table on two-digit codes |
| GovListings.NeverHealthAndBeauty | backend/app.py:459-463 | the map never returns "Health & Beauty": "21" is caught by the earlier industrial list |
| GovListings.PaddedCodeFallsBackToIndustrial | backend/app.py:469-472 | when `map_nic_to_category` is called directly, the integer fallback is reachable: "010" is in no list but parses to 10, so it maps to "Industrial". From the endpoint the code is always the two digits `ExtractDivision` gives, and every two-digit code from 10 to 33 is caught by an earlier list, so there the `10 <= code_int <= 33` branch is never taken |
| GovListings.SignedCodeFallsBackToServices | backend/app.py:469-471 | "+99" is in no list either, and parses past the services bound |
| GovListings.MapRange | backend/app.py:430-476 | the map only ever returns one of eight category names |
| GovListings.FindBoundedRun | backend/app.py:504-510 | `re.search(r'\b(\d{n})\b')` finds the leftmost run of exactly n digits with no word character on either side, and no earlier run exists; when it finds none, there is none |
| GovListings.ExtractDivision | backend/app.py:499-514 | the division is the first two digits of the first bounded five-digit run, otherwise the first bounded two-digit run, otherwise "00"; it is always two digits |
| GovListings.ExtractedDivisionByRange | backend/app.py:499-518 | whatever the NIC text, its extracted division is classified by its number's range |
| GovListings.FiveDigitCode | backend/app.py:504-507 | a bare five-digit code yields its first two digits |
| GovListings.Get | backend/app.py:491-555 | `record.get(key, default)`: the value when the key is there, the default otherwise |
| GovListings.SplitForSpec | backend/app.py:520-542 | raw-material categories become supplier ("buy") listings, goods categories manufacturer ("sell") listings, and every other category an export-partner listing, with "Other" shown as "Services" |
| GovListings.ExportIsAlwaysServices | backend/app.py:536-541 | every export listing's category is "Services", since only "Services" and "Other" reach that branch |
| GovListings.ToListing | backend/app.py:491-558 | a listing is government-verified, active and owned by "gov_verified", with the id, type, category, prefixed title and location built from the record and its defaults |
| GovListings.ListingsOfPointwise | backend/app.py:489-558 | listing i is the conversion of record i |
| GovListings.GetGovListings | backend/app.py:485-561 | the endpoint's loop gives one listing per record, in record order; no data, or data without `records`, gives the empty list |
| Marketplace.GovShown | src/pages/MarketplacePage.tsx:127-149 | the government listings shown are those the tab admits (all of them under "all", else those of the tab's type) and the category admits, in fetched order |
| Marketplace.GovShownAppend | src/pages/MarketplacePage.tsx:127-149 | the tab and category filters distribute over concatenation |
| Marketplace.Merged | src/pages/MarketplacePage.tsx:111-158 | the page keeps the user listings as queried, first, then only government listings the filters admit; with a failed government fetch it keeps the user listings alone |
| Marketplace.MergedHoldsGovShown | src/pages/MarketplacePage.tsx:145-151 | every government listing the tab and category admit appears after the user listings |
| Marketplace.Search | src/pages/MarketplacePage.tsx:234-237 | a listing is on show exactly when its lower-cased title or description contains the lower-cased query |
| Marketplace.SearchEmpty | src/pages/MarketplacePage.tsx:234-237 | an empty query shows every listing |
| Marketplace.SearchIgnoresCase | src/pages/MarketplacePage.tsx:234-237 | the query's case does not matter |
| Marketplace.SearchTwice | src/pages/MarketplacePage.tsx:234-237 | filtering the results again by the same query changes nothing |
| Marketplace.SearchKeepsOrder | src/pages/MarketplacePage.tsx:234-237 | the search keeps the user listings ahead of the government ones |
| Marketplace.NullIfEmpty | src/pages/MarketplacePage.tsx:187-190 | an empty optional field becomes null: null exactly for the empty string, the value otherwise |
| Marketplace.InsertRow | src/pages/MarketplacePage.tsx:181-191 | the inserted row has the user's id and the form's fields as typed; an optional field is null exactly when it was left empty |
| Marketplace.InsertRowRoundTrip | src/pages/MarketplacePage.tsx:181-191 | reading the inserted row back, with null as an empty field, gives exactly the submitted form, and the row carries the submitter's id |
| Marketplace.PrefixesExclusive | src/pages/MarketplacePage.tsx:379 | no title starts with two of the three prefixes the backend gives |
| Marketplace.DisplayTitle | src/pages/MarketplacePage.tsx:379 | a card's title loses the one prefix it starts with, and is shown unchanged when it starts with none |
| Marketplace.DisplayTitleStripsOnce | src/pages/MarketplacePage.tsx:379 | only one prefix is removed, even when the rest of the title starts with another |
| Marketplace.MarketplaceView.constructor | src/pages/MarketplacePage.tsx:66-84 | the page opens loading, with no listings, the "all" tab and category, an empty search and a blank "sell" form |
| Marketplace.MarketplaceView.Filtered | src/pages/MarketplacePage.tsx:234-237 | the listings on show are the kept listings that match the current query |
| Marketplace.MarketplaceView.FetchListings | src/pages/MarketplacePage.tsx:90-165 | a successful user query replaces the listings with the merge; a failed one keeps the old listings; loading ends either way |
| Marketplace.MarketplaceView.ChangeTab | src/pages/MarketplacePage.tsx:311-314 | choosing a tab resets the category filter to "all" |
| Marketplace.MarketplaceView.SetCategory | src/pages/MarketplacePage.tsx:294 | the category selector sets only the category |
| Marketplace.MarketplaceView.SetSearchQuery | src/pages/MarketplacePage.tsx:290 | typing sets the query |
| Marketplace.MarketplaceView.OpenDialog | src/pages/MarketplacePage.tsx:277 | the create button opens the dialog |
| Marketplace.MarketplaceView.EditForm | src/pages/MarketplacePage.tsx:447-526 | an edit replaces the form |
| Marketplace.MarketplaceView.SubmitListing | src/pages/MarketplacePage.tsx:167-214 | signed out: sign-in required; a missing required field: rejected; otherwise the row is inserted; only a successful insert closes the dialog and resets the form, and the submitting flag ends cleared |
| ChatService.FindIndex | src/services/chatService.ts:43 | `findIndex` gives the first position holding the id, or -1 exactly when no entry has it |
| ChatService.FindChat | src/services/chatService.ts:38 | `find` gives the entry at that first position, and nothing exactly when no entry has the id |
| ChatService.Upsert | src/services/chatService.ts:43-49 | an existing id has its first entry replaced by the session stamped now, keeping the session's own creation time; a new id is appended with both stamps now |
| ChatService.CountId | src/services/chatService.ts:43-49 | the number of entries with an id, zero exactly when none has it |
| ChatService.UpsertKeepsOneEntry | src/services/chatService.ts:43-49 | saving never makes a second entry for an id: with at most one before, there is exactly one after |
| ChatService.UpsertOtherIds | src/services/chatService.ts:43-49 | saving leaves every other id's number of entries as it was |
| ChatService.InsertSorted | src/services/chatService.ts:52 | inserting into a newest-first list keeps it newest first |
| ChatService.SortByRecencyPermutes | src/services/chatService.ts:52 | the sort keeps every entry, as often as it occurs |
| ChatService.SortByRecencySorted | src/services/chatService.ts:52 | the sort's result is ordered by `lastUpdated`, newest first |
| ChatService.Insert | src/services/chatService.ts:52 | one insertion step of the sort adds exactly the one session |
| ChatService.CountIdOfPermutation | src/services/chatService.ts:52 | reordering changes no id's number of entries |
| ChatService.SaveThenFind | src/services/chatService.ts:36-55 | a session saved with both stamps now is, afterwards, the one entry for its id and what `getChat` finds |
| ChatService.NewChat | src/services/chatService.ts:57-66 | a new session is titled "New Conversation", has no messages, starts at step 0 with no answers, and is stamped now; the page's new chat opens it |
| ChatService.GenerateTitle | src/services/chatService.ts:74-76 | a message of at most 30 characters is its own title; a longer one is cut to its first 30 characters followed by "..." |
| ChatService.ChatStore.constructor | src/services/chatService.ts:22 | the store holds whatever the storage key held |
| ChatService.ChatStore.AllChats | src/services/chatService.ts:26-34 | the stored list, or the empty list when the key is missing or does not parse |
| ChatService.ChatStore.GetChat | src/services/chatService.ts:36-39 | a lookup reads the stored list afresh and finds the first session with the id |
| ChatService.ChatStore.SaveChat | src/services/chatService.ts:41-55 | the upserted list, sorted newest first, is written back; an id with at most one entry before has exactly one after |
| ChatService.ChatStore.DeleteChat | src/services/chatService.ts:68-71 | every session with the id is removed and the rest is written back in its order |
| ChatService.WithoutChat | src/services/chatService.ts:69 | the entries kept are exactly those with another id |
| ChatService.WithoutChatAppend | src/services/chatService.ts:69 | deleting distributes over concatenation, so the order of the rest is kept |
| SmartBizPage.Exchange | src/pages/SmartBizAgent.tsx:153-159 | a reply appends the user's message (only when it is not empty) and then exactly one agent message with the reply |
| SmartBizPage.FirstUserContentSpec | src/pages/SmartBizAgent.tsx:69 | `find` of the first user message gives nothing exactly when no message is the user's, and otherwise the earliest user message's content |
| SmartBizPage.SessionTitle | src/pages/SmartBizAgent.tsx:69 | the title is `generateTitle` of the first user message's content; it is "New Conversation" when no message is the user's or that content is empty; never longer than 33 characters |
| SmartBizPage.Snapshot | src/pages/SmartBizAgent.tsx:66-74 | the saved session has the open id and messages, both stamps now, and the page's state or the initial one |
| SmartBizPage.PersistedSession | src/pages/SmartBizAgent.tsx:64-80 | after the save effect the store is newest first and holds exactly one entry for the open session, which is the page's own snapshot |
| SmartBizPage.PersistedOtherIds | src/pages/SmartBizAgent.tsx:64-80 | the save effect changes no other session id's number of entries, so a deleted session never comes back |
| SmartBizPage.ShowsComparisonButton | src/pages/SmartBizAgent.tsx:361-364 | the comparison button shows exactly when the state is at the SUPPLIER_GUIDANCE step |
| SmartBizPage.ShowsDashboardButton | src/pages/SmartBizAgent.tsx:374 | the dashboard button shows exactly when the state is at DASHBOARD_MODE, the last step |
| SmartBizPage.SubmitEnabled | src/pages/SmartBizAgent.tsx:175 | sending is possible only when nothing is loading and the input has a non-space character, and then it always is |
| SmartBizPage.Answer | src/pages/SmartBizAgent.tsx:193-225 | a missing or empty answer gives the fallback, any other answer itself |
| SmartBizPage.MaterialsOfLines | src/pages/SmartBizAgent.tsx:215-220 | every line gives at most one material; each has a non-empty name and the fixed source and cost texts |
| SmartBizPage.RawMaterialsFrom | src/pages/SmartBizAgent.tsx:215-220 | the RAW_MATERIALS answer, split on newlines, gives at most one named material per line |
| SmartBizPage.MaterialNamesAreTrimmedLines | src/pages/SmartBizAgent.tsx:215-216 | every material's name is one of the lines, trimmed |
| SmartBizPage.MaterialNamesTrimmed | src/pages/SmartBizAgent.tsx:216-220 | no material's name starts or ends with white space |
| SmartBizPage.NoAnswerNoMaterials | src/pages/SmartBizAgent.tsx:215 | no RAW_MATERIALS answer gives no materials |
| SmartBizPage.ViewDashboard | src/pages/SmartBizAgent.tsx:186-257 | nothing is handed over without a state; otherwise the profile, idea and plan are built from the answers, with "Not specified" and "My Business" for missing ones and the one owner as the workforce |
| SmartBizPage.DashboardOfNoAnswers | src/pages/SmartBizAgent.tsx:186-225 | with no answers the hand-off is all defaults and no materials |
| SmartBizPage.StaleGreetingRequest | src/pages/SmartBizAgent.tsx:95-134 | as written, the new chat's greeting goes out only when the render that called it had no messages |
| SmartBizPage.NewChatFromConversationSkipsGreeting | src/pages/SmartBizAgent.tsx:95-134 | as written, "New chat" pressed while one message is on screen sends no greeting, and the empty new chat is never saved |
| SmartBizPage.AgentPage.constructor | src/pages/SmartBizAgent.tsx:19-29 | the page opens empty, not loading, with no state, no session and the sidebar closed |
| SmartBizPage.AgentPage.Persist | src/pages/SmartBizAgent.tsx:64-80 | with an open id and a message the snapshot is saved, the sidebar list refreshed and the current id stored; otherwise nothing changes |
| SmartBizPage.AgentPage.SendMessage | src/pages/SmartBizAgent.tsx:125-171 | an empty message is sent only to a conversation with no messages; a reply appends the exchange, takes the returned state, replaces the comparison rows only with a non-empty list, and is saved; a failure changes none of these; loading always ends |
| SmartBizPage.AgentPage.ApplyReply | src/pages/SmartBizAgent.tsx:151-163 | the successful half of `sendMessage`, with its save effect |
| SmartBizPage.AgentPage.HandleSubmit | src/pages/SmartBizAgent.tsx:173-180 | blank input, or any input while loading, is ignored; otherwise the input is cleared and its trimmed text is sent |
| SmartBizPage.AgentPage.SetInput | src/pages/SmartBizAgent.tsx:390 | typing sets the input |
| SmartBizPage.AgentPage.LoadChatSession | src/pages/SmartBizAgent.tsx:82-94 | a stored session becomes the open one, with its messages and state, the current id is stored and the sidebar closes; an unknown id changes nothing |
| SmartBizPage.AgentPage.OpenNewSession | src/pages/SmartBizAgent.tsx:96-101 | the session `createNewChat` made becomes the open one: its id, its empty messages and its state, with no comparison data |
| SmartBizPage.AgentPage.HandleNewChat | src/pages/SmartBizAgent.tsx:95-107 | the session `createNewChat` makes becomes the open one with no messages and the initial state, and the greeting is always requested; its reply is the only message |
| SmartBizPage.AgentPage.HandleDeleteChat | src/pages/SmartBizAgent.tsx:110-123 | the session leaves the store and the sidebar and the deleted id is not stored again; when it was open, the first remaining session opens; when it was open and the last one, a new chat opens as the corrected new chat does (see Findings): the greeting is requested from the initial state and its reply is the only message; in every other case nothing is requested |
| SmartBizPage.DeletedOpenChatSkipsGreeting | src/pages/SmartBizAgent.tsx:110-134 | as written, a conversation in the sidebar was saved, so it has a message; deleting it while it is open and the only one leaves that message in the render, and the new chat's greeting is dropped |
| SmartBizPage.AgentPage.Mount | src/pages/SmartBizAgent.tsx:38-54 | the stored current id opens when a session has it, else the most recent session, else a new chat; the sidebar then shows the store |
| SmartBizPage.AgentPage.OpenComparison | src/pages/SmartBizAgent.tsx:364 | the comparison button opens the dialog |
| UserInputForm.CheckDoesNotTrim | src/components/form/UserInputForm.tsx:36-48 | the step checks test only for the empty string: a non-empty budget or city made only of spaces trims to nothing yet passes its step, the experience step is never refused, and the blank profile is refused at each checked step |
| UserInputForm.Wizard.constructor | src/components/form/UserInputForm.tsx:27-34 | the wizard opens at the first step with a blank profile of a beginner, not loading and with nothing stored |
| UserInputForm.Wizard.HandleNext | src/components/form/UserInputForm.tsx:36-55 | an empty field at its step is refused with that step's message and nothing changes; otherwise the wizard moves one step on, or at the last step stores the profile and stays; the step stays one of the four |
| UserInputForm.Wizard.HandleSubmit | src/components/form/UserInputForm.tsx:63-72 | submitting stores the form as the profile and ends not loading |
| UserInputForm.Wizard.HandleBack | src/components/form/UserInputForm.tsx:57-61 | "Back" goes one step back, except at the first step |
| UserInputForm.Wizard.SetBudget | src/components/form/UserInputForm.tsx:96-98 | typing sets only the budget |
| UserInputForm.Wizard.ChoosePreset | src/components/form/UserInputForm.tsx:103-109 | a preset sets the budget to its exact amount string, one of the four |
| UserInputForm.Wizard.SetCity | src/components/form/UserInputForm.tsx:135-137 | typing sets only the city |
| UserInputForm.Wizard.ChooseInterest | src/components/form/UserInputForm.tsx:157-159 | an interest card sets its non-empty value |
| UserInputForm.Wizard.SetExperience | src/components/form/UserInputForm.tsx:185-187 | the radio group sets "beginner" or "experienced" |
| UserInputForm.WalkThrough | src/components/form/UserInputForm.tsx:13-72 | filling the three checked fields and pressing "Next" four times stores exactly that profile |
| CompareList.Remove | src/components/suppliers/SupplierComparison.tsx:114 | the filter keeps exactly the other names |
| CompareList.Toggle | src/components/suppliers/SupplierComparison.tsx:111-119 | afterwards the name is listed exactly when it was not and there were fewer than three; every other name is listed exactly when it was; a full list ignores a new name |
| CompareList.RemoveDistinct | src/components/suppliers/SupplierComparison.tsx:114 | removing keeps a list free of repeats |
| CompareList.RemoveAbsent | src/components/suppliers/SupplierComparison.tsx:114 | removing a name that is not listed changes nothing |
| CompareList.RemoveAppend | src/components/suppliers/SupplierComparison.tsx:114 | removal keeps the order of the other names |
| CompareList.ToggleKeepsWellFormed | src/components/suppliers/SupplierComparison.tsx:111-119 | the list never holds more than three names, nor any name twice |
| CompareList.ToggleTwice | src/components/suppliers/SupplierComparison.tsx:111-119 | toggling a name in and out again restores the list |
| CompareList.Compared | src/components/suppliers/SupplierComparison.tsx:121-123 | the compared suppliers are exactly the catalogue's suppliers whose names are listed |
| CompareList.ComparedNamesDistinct | src/components/suppliers/SupplierComparison.tsx:121-123 | when the catalogue's names do not repeat, neither do the compared ones, and they are the listed catalogue names |
| CompareList.ComparedCount | src/components/suppliers/SupplierComparison.tsx:121-123 | with distinct catalogue names and every listed name in the catalogue, there are as many compared suppliers as listed names |
| CompareList.TableOrHint | src/components/suppliers/SupplierComparison.tsx:248-317 | then the table shows exactly for two or more listed names, the hint exactly for one, and never both |
| CompareList.StarFill | src/components/suppliers/SupplierComparison.tsx:82-100 | a star is full up to the rating, half within half a star above it, and empty beyond |
| CompareList.Stars | src/components/suppliers/SupplierComparison.tsx:85-96 | five stars: the full ones first, at most one half star, then the empty ones |
| CompareList.StarsOfCatalogueRatings | src/components/suppliers/SupplierComparison.tsx:37-96 | a rating from 0 to 5 shows its whole part as full stars, then a half star when the fraction is at least one half, else an empty one, and empty stars after; so 4.5 shows four full stars and a half one, and 4.2 four full and one empty |
| SupplierComparison.MockSuppliers | src/components/suppliers/SupplierComparison.tsx:32-80 | whatever the material, four suppliers with different names and ratings between 3 and 5 |
| SupplierComparison.CatalogueNamesDistinct | src/components/suppliers/SupplierComparison.tsx:35-68 | the four supplier names are different |
| SupplierComparison.ComparisonView.constructor | src/components/suppliers/SupplierComparison.tsx:103-107 | the first material is selected (the empty string without materials), nothing is compared, no card is open |
| SupplierComparison.ComparisonView.Suppliers | src/components/suppliers/SupplierComparison.tsx:109 | the cards on show are the catalogue, whatever the material |
| SupplierComparison.ComparisonView.ComparedSuppliers | src/components/suppliers/SupplierComparison.tsx:121-123 | the compared suppliers are the listed catalogue suppliers in catalogue order |
| SupplierComparison.ComparisonView.ToggleCompare | src/components/suppliers/SupplierComparison.tsx:111-158 | a checkbox toggles its card's name and keeps every listed name a catalogue name, at most three and none twice |
| SupplierComparison.ComparisonView.SelectMaterial | src/components/suppliers/SupplierComparison.tsx:134 | choosing a material keeps the same cards and the compare list |
| SupplierComparison.ComparisonView.ToggleExpanded | src/components/suppliers/SupplierComparison.tsx:191-194 | a card's button closes it when it is the open one and opens it otherwise |
| SupplierComparison.ComparedMatchesList | src/components/suppliers/SupplierComparison.tsx:121-123 | with a list built from the cards there are as many compared suppliers as listed names |
| AiSupplierList.SearchView.constructor | src/components/suppliers/AISupplierList.tsx:77-82 | the first material is selected, nothing is loaded or compared |
| AiSupplierList.SearchView.SelectMaterial | src/components/suppliers/AISupplierList.tsx:127-132 | a material button selects it and clears the results, the loaded flag and the compare list |
| AiSupplierList.SearchView.FetchSuppliers | src/components/suppliers/AISupplierList.tsx:84-104 | no request for an empty material; success takes the returned list (none when missing) and marks the search done; failure keeps what was there; loading ends |
| AiSupplierList.SearchView.ToggleCompare | src/components/suppliers/AISupplierList.tsx:106-114 | the checkbox follows the shared toggle rule and keeps the list well formed |
| AiSupplierList.SearchView.ComparedSuppliers | src/components/suppliers/AISupplierList.tsx:116 | the fetched suppliers whose names are listed, in fetch order |
| AiSupplierList.StaleListShowsNothing | src/components/suppliers/AISupplierList.tsx:96-116 | a refresh that returns other suppliers keeps the compare list; then two listed names show neither the table nor the hint |
| CostCalculator.ParseAmount | src/components/calculator/CostCalculator.tsx:32-36 | no digit or comma gives 0; a run of commas alone gives NaN; otherwise a whole number of at least 0 |
| CostCalculator.ParseAmountOfNat | src/components/calculator/CostCalculator.tsx:32-36 | a number written out in decimal reads back as itself |
| CostCalculator.ParseAmountSkipsText | src/components/calculator/CostCalculator.tsx:33-35 | only the first run of digits and commas is read, with its commas dropped |
| CostCalculator.ParseAmountOfRange | src/components/calculator/CostCalculator.tsx:32-36 | a range estimate such as "8,000 - 15,000/month" after a rupee sign reads as its lower bound 8000 |
| CostCalculator.ParseAmountOfCommas | src/components/calculator/CostCalculator.tsx:33-35 | a run of commas with no digit reads as NaN |
| CostCalculator.RentText | src/components/calculator/CostCalculator.tsx:57 | the plan's rent estimate, or "10000" when it is missing or empty |
| CostCalculator.MaterialsText | src/components/calculator/CostCalculator.tsx:63 | the first material's estimated cost, or "20000" when there is none or it is empty |
| CostCalculator.SalarySumNaN | src/components/calculator/CostCalculator.tsx:69 | the salary sum is NaN exactly when some salary text reads as NaN |
| CostCalculator.StaffProjection | src/components/calculator/CostCalculator.tsx:69 | the salary sum when it is a non-zero number; 15000 for a missing workforce, a zero sum or a NaN sum |
| CostCalculator.InitialExpenses | src/components/calculator/CostCalculator.tsx:53-90 | six lines with nothing spent yet, whose first three projections come from the rent, materials and staff rules |
| CostCalculator.InitialDefaults | src/components/calculator/CostCalculator.tsx:53-90 | a plan without location, materials or workforce gets 10000, 20000 and 15000 |
| CostCalculator.InitialIdsDistinct | src/components/calculator/CostCalculator.tsx:55-85 | the six initial ids are all different |
| CostCalculator.SetActual | src/components/calculator/CostCalculator.tsx:113-115 | every line with the id gets the new actual amount and every other line is kept |
| CostCalculator.SetProjected | src/components/calculator/CostCalculator.tsx:249-251 | every line with the id gets the new projection and every other line is kept |
| CostCalculator.WithoutId | src/components/calculator/CostCalculator.tsx:128-130 | the lines kept are exactly those with another id |
| CostCalculator.WithoutIdAppend | src/components/calculator/CostCalculator.tsx:128-130 | removal keeps the order of the remaining lines |
| CostCalculator.WithoutAbsentId | src/components/calculator/CostCalculator.tsx:128-130 | removing an id no line has changes nothing |
| CostCalculator.TotalProjectedNaN | src/components/calculator/CostCalculator.tsx:132 | the projected total is NaN exactly when some projection is |
| CostCalculator.TotalProjectedSum | src/components/calculator/CostCalculator.tsx:132 | without NaN it is the sum of the projections |
| CostCalculator.TotalActualNaN | src/components/calculator/CostCalculator.tsx:133 | the actual total is NaN exactly when some actual amount is |
| CostCalculator.TotalActualSum | src/components/calculator/CostCalculator.tsx:133 | without NaN it is the sum of the actual amounts |
| CostCalculator.Variance | src/components/calculator/CostCalculator.tsx:134 | a number exactly when both totals are, and then actual minus projected |
| CostCalculator.VariancePercent | src/components/calculator/CostCalculator.tsx:135 | 0 unless the projection is positive; then the variance as a percentage of the projection |
| CostCalculator.Profit | src/components/calculator/CostCalculator.tsx:136 | a number exactly when revenue and actual costs are, and then their difference |
| CostCalculator.ProfitMargin | src/components/calculator/CostCalculator.tsx:137 | 0 unless the revenue is positive; then the profit as a percentage of the revenue |
| CostCalculator.OverBudgetMeans | src/components/calculator/CostCalculator.tsx:293 | the warning shows exactly when actual costs exceed 110% of the projection |
| CostCalculator.NaNSilencesWarning | src/components/calculator/CostCalculator.tsx:292-296 | a NaN actual amount hides both the analysis and the warning |
| CostCalculator.ProgressValue | src/components/calculator/CostCalculator.tsx:265-267 | a bar exactly for a positive projection, at the spent share in percent capped at 150 |
| CostCalculator.ReviewSuggestion | src/components/calculator/CostCalculator.tsx:309 | never empty; "high-cost items" when no line's actual cost is more than 120% of its projection |
| CostCalculator.ReviewSuggestionNamesFirst | src/components/calculator/CostCalculator.tsx:309 | when some line is more than 120% over its projection, the advice is the name of the first such line, or "high-cost items" when that name is empty |
| CostCalculator.Persist | src/components/calculator/CostCalculator.tsx:103-111 | the record under the key is replaced only when there are lines |
| CostCalculator.LoadedRevenue | src/components/calculator/CostCalculator.tsx:97 | the stored revenue when it is a non-zero number, otherwise 0 |
| CostCalculator.LoadedExpenses | src/components/calculator/CostCalculator.tsx:96 | a stored list, even an empty one, wins over the initial lines |
| CostCalculator.CostSheet.Mount | src/components/calculator/CostCalculator.tsx:51-111 | a stored record is loaded, else the initial lines with revenue 0; storage then mirrors the sheet |
| CostCalculator.CostSheet.UpdateActual | src/components/calculator/CostCalculator.tsx:113-115 | the new list is the edit, the rest is unchanged, and storage still mirrors the sheet |
| CostCalculator.CostSheet.UpdateProjected | src/components/calculator/CostCalculator.tsx:248-251 | likewise for the projection input |
| CostCalculator.CostSheet.SetRevenue | src/components/calculator/CostCalculator.tsx:193-194 | the revenue changes and is saved with the lines |
| CostCalculator.CostSheet.SetNewExpenseName | src/components/calculator/CostCalculator.tsx:280 | only the name field changes |
| CostCalculator.CostSheet.AddExpense | src/components/calculator/CostCalculator.tsx:117-126 | a blank name changes nothing; otherwise one zeroed "custom-" line with the trimmed name is appended and the field cleared |
| CostCalculator.CostSheet.RemoveExpense | src/components/calculator/CostCalculator.tsx:128-130 | the lines with the id go; removing the last line leaves the stored copy as it was |
| CostCalculator.CostSheet.Reset | src/components/calculator/CostCalculator.tsx:318-328 | the stored record is dropped and the sheet mounts afresh from the plan |
| CashFlow.BalanceIsSignedTotal | src/components/dashboard/CashFlowWidget.tsx:116-124 | the balance is the total with income counted positive and expenses negative |
| CashFlow.TotalsCoverAll | src/components/dashboard/CashFlowWidget.tsx:116-122 | income plus expenses is the total of all amounts |
| CashFlow.TotalsBounded | src/components/dashboard/CashFlowWidget.tsx:116-122 | with no negative amount each total lies between 0 and the total of all amounts |
| CashFlow.NoExpensesIsPositive | src/components/dashboard/CashFlowWidget.tsx:116-124 | with only income of no negative amount, the balance is that income and shows green |
| Common.Loaded | src/components/dashboard/CashFlowWidget.tsx:63-73 | `.limit(10)` on the newest-first query, then `data \|\| []`: at most ten rows, a prefix of the query (no rows when there is no data), exactly ten when there are that many; the sales widget loads the same way, while the advertising widget loads every campaign |
| Common.Recent | src/components/dashboard/CashFlowWidget.tsx:260 | `slice(0, 5)`: at most five rows from the front, exactly five when there are that many; the sales widget lists its rows the same way |
| Common.RecentOfLoaded | src/components/dashboard/CashFlowWidget.tsx:260 | the listed rows are the five newest of the whole query |
| CashFlow.BlankForm | src/components/dashboard/CashFlowWidget.tsx:102-108 | the reset form: today's date, type income, all else empty |
| CashFlow.InsertRow | src/components/dashboard/CashFlowWidget.tsx:89-96 | the sent row is the user's id and the form's date, type, category and description, with the amount as `parseFloat` reads the typed text |
| CashFlow.HandleAdd | src/components/dashboard/CashFlowWidget.tsx:82-114 | a row is sent exactly when amount and category are filled in, and it is the form's row; a failed check or insert keeps the dialog; a saved one closes it with a blank form |
| Common.SubmitAdd | src/components/dashboard/CashFlowWidget.tsx:82-114 | the add handlers' flow: nothing is sent when the check fails; otherwise the row is sent, and only a successful insert closes the dialog and resets the form |
| Sales.ThisMonthSales | src/components/dashboard/SalesWidget.tsx:107-109 | a sale is kept exactly when it was loaded and its month is today's month, whatever the year |
| Sales.ThisMonthSalesAppend | src/components/dashboard/SalesWidget.tsx:107-109 | the kept sales stay in the order they were loaded |
| Sales.ThisMonthIgnoresYear | src/components/dashboard/SalesWidget.tsx:107-109 | any date in the same month, in any year, selects the same sales |
| Sales.EarlierYearCounts | src/components/dashboard/SalesWidget.tsx:107-110 | a sale from the same month of an earlier year counts in this month's total |
| Sales.TotalSplitsByMonth | src/components/dashboard/SalesWidget.tsx:106-110 | the total is this month's total plus that of the other months |
| Sales.ThisMonthAtMostTotal | src/components/dashboard/SalesWidget.tsx:106-110 | with no negative amount this month's total lies between 0 and the total |
| Sales.BlankForm | src/components/dashboard/SalesWidget.tsx:92-98 | the reset form: today's date, all else empty |
| Sales.InsertRow | src/components/dashboard/SalesWidget.tsx:79-86 | the sent row is the user's id and the form's date, product or service, category and customer, with the amount as `parseFloat` reads the typed text |
| Sales.HandleAdd | src/components/dashboard/SalesWidget.tsx:72-104 | a row is sent exactly when amount and product are filled in, and it is the form's row; a failed check or insert keeps the dialog; a saved one closes it with a blank form |
| Advertising.Roi | src/components/dashboard/AdvertisingWidget.tsx:152-156 | 0 when nothing was spent; otherwise the gain of 1000 per conversion over the spend, as a percentage of the spend |
| Advertising.RoiSign | src/components/dashboard/AdvertisingWidget.tsx:152-156 | with a positive spend the return is positive (zero) exactly when conversions bring in more than (exactly) the spend, and -100 without conversions |
| Advertising.NothingSpentIsSecondary | src/components/dashboard/AdvertisingWidget.tsx:152-156 | a campaign that spent nothing shows the secondary badge |
| Advertising.ActiveCampaigns | src/components/dashboard/AdvertisingWidget.tsx:158 | a campaign is kept exactly when it was loaded and its status is "active" |
| Advertising.ActiveCampaignsAppend | src/components/dashboard/AdvertisingWidget.tsx:158 | the active campaigns stay in the order they were loaded |
| Advertising.TotalsIncludeInactive | src/components/dashboard/AdvertisingWidget.tsx:158-161 | each total is the active campaigns' total plus the others' |
| Advertising.PausedCampaignStillCounts | src/components/dashboard/AdvertisingWidget.tsx:158-159 | a paused campaign is not listed as active but counts in the budget total |
| Advertising.BlankForm | src/components/dashboard/AdvertisingWidget.tsx:139-144 | the reset form: empty fields and today's start date |
| Advertising.InsertRow | src/components/dashboard/AdvertisingWidget.tsx:126-133 | the sent row is the user's id, the platform, name and start date as typed, the budget as `parseFloat` reads the typed text, and status "active" |
| Advertising.BudgetAsParsed | src/components/dashboard/AdvertisingWidget.tsx:120-130 | the check only asks that a budget was typed; the budget sent is NaN exactly when the text does not start with a number, and a whole number followed by text that cannot continue it is sent as that number; so "5,000" is sent as 5 and "abc" as NaN |
| Advertising.HandleAdd | src/components/dashboard/AdvertisingWidget.tsx:119-150 | a row is sent exactly when platform, name and budget are filled in, and it is the form's row; a failed check or insert keeps the dialog; a saved one closes it with a blank form |
| FinancialCharts.RunAmount | src/components/charts/FinancialCharts.tsx:20 | a run of digits and commas is NaN exactly when it holds no digit, and otherwise at least 0 |
| FinancialCharts.ParseAmount | src/components/charts/FinancialCharts.tsx:17-24 | text without a run of digits or commas reads as 0; any number read is at least 0 |
| FinancialCharts.RunAmountOfNat | src/components/charts/FinancialCharts.tsx:20 | a number written out in decimal reads back as itself |
| FinancialCharts.ParseAmountWithoutDigits | src/components/charts/FinancialCharts.tsx:17-24 | text without digits or commas reads as 0 |
| FinancialCharts.ParseAmountOfOne | src/components/charts/FinancialCharts.tsx:17-24 | a single amount among other text reads as itself |
| FinancialCharts.ParseAmountOfRange | src/components/charts/FinancialCharts.tsx:17-24 | a range "low ... high" reads as the mean of its ends, whatever follows |
| FinancialCharts.ParseAmountOfRuns | src/components/charts/FinancialCharts.tsx:18-21 | two runs read as the mean of their values |
| FinancialCharts.FirstNumberOr | src/components/charts/FinancialCharts.tsx:28-30 | the fallback when the text holds no digit |
| FinancialCharts.FirstNumberOfText | src/components/charts/FinancialCharts.tsx:28-30 | the first number in the text is read whatever surrounds it |
| FinancialCharts.FiguresOf | src/components/charts/FinancialCharts.tsx:26-30 | investment and revenue by the amount rule, margin (default 35) and break-even (default 4) by the first number, profit as revenue times margin |
| FinancialCharts.RampShare | src/components/charts/FinancialCharts.tsx:35 | 60% of revenue in months 1-2, 80% in months 3-4, all of it from month 5 |
| FinancialCharts.Revenue | src/components/charts/FinancialCharts.tsx:35 | the monthly revenue scaled by the ramp, NaN exactly when it is NaN |
| FinancialCharts.ProfitOf | src/components/charts/FinancialCharts.tsx:36 | revenue times the margin percent over 100, NaN exactly when revenue is |
| FinancialCharts.CashFlowAt | src/components/charts/FinancialCharts.tsx:33-44 | the month's ramped revenue and profit, with expenses the difference |
| FinancialCharts.CashFlowData | src/components/charts/FinancialCharts.tsx:33-45 | twelve bars, the i-th for month i+1 |
| FinancialCharts.CashFlowShape | src/components/charts/FinancialCharts.tsx:33-45 | with non-negative revenue the bars never shrink; with a margin of at most 100% profit stays below revenue and expenses are not negative |
| FinancialCharts.ProfitOfMonotone | src/components/charts/FinancialCharts.tsx:36 | more revenue never gives less profit |
| FinancialCharts.ProfitOfBounds | src/components/charts/FinancialCharts.tsx:36 | with a margin of at most 100% profit lies between 0 and the revenue |
| FinancialCharts.RampedProfit | src/components/charts/FinancialCharts.tsx:35-36 | the ramped profit is the full profit times the ramp share |
| FinancialCharts.CumulativeProfit | src/components/charts/FinancialCharts.tsx:53-57 | a number exactly when the investment is and, past month 0, the revenue is |
| FinancialCharts.CumulativeNeverFalls | src/components/charts/FinancialCharts.tsx:53-57 | with non-negative revenue the curve never falls |
| FinancialCharts.CumulativeClosedForm | src/components/charts/FinancialCharts.tsx:53-57 | from month 4 the curve is the full profit times (month - 1.2) minus the investment |
| FinancialCharts.CumulativeAt | src/components/charts/FinancialCharts.tsx:53-57 | the loop's running total is the cumulative profit at that month |
| FinancialCharts.BreakEvenData | src/components/charts/FinancialCharts.tsx:48-64 | twelve points, the i-th the cumulative profit at month i+1 |
| FinancialCharts.Roi | src/components/charts/FinancialCharts.tsx:68-71 | finite exactly for a finite profit and a non-zero investment, and then the gain over the period as a percentage of the investment |
| FinancialCharts.RoiMeaning | src/components/charts/FinancialCharts.tsx:68-71 | with a positive investment the return is non-negative exactly when the period's profit covers it, and it grows with the period |
| FinancialCharts.RoiData | src/components/charts/FinancialCharts.tsx:67-72 | the four returns at 3, 6, 12 and 24 months |
| FinancialCharts.RoiOfNoInvestment | src/components/charts/FinancialCharts.tsx:67-72 | with nothing invested no return is finite |
| FinancialCharts.CostSharesMakeWhole | src/components/charts/FinancialCharts.tsx:75-81 | the five cost shares add up to 100% |
| FinancialCharts.FormatCurrency | src/components/charts/FinancialCharts.tsx:83-90 | lakhs from 100000, thousands from 1000, plain rupees below, each scaled back to the value |
| PhaseTracker.PhaseOrderRanks | src/components/dashboard/PhaseTrackerWidget.tsx:85 | the scan order is idea, launch, growth, scale and each phase sits at its rank |
| PhaseTracker.InPhase | src/components/dashboard/PhaseTrackerWidget.tsx:88 | exactly the milestones with that phase key |
| PhaseTracker.CompletedCountShort | src/components/dashboard/PhaseTrackerWidget.tsx:89-91 | fewer are completed than there are exactly when some milestone is open |
| PhaseTracker.HasOpenMeans | src/components/dashboard/PhaseTrackerWidget.tsx:88-91 | the loop's count test holds exactly when the phase has an open milestone, so an empty phase is skipped |
| PhaseTracker.CurrentPhase | src/components/dashboard/PhaseTrackerWidget.tsx:84-98 | the result is scale or has an open milestone, and no earlier phase has one |
| PhaseTracker.CurrentPhaseUnique | src/components/dashboard/PhaseTrackerWidget.tsx:84-98 | any phase meeting those two conditions is the current one |
| PhaseTracker.AllCompleteMeansScale | src/components/dashboard/PhaseTrackerWidget.tsx:97 | with every milestone completed, or none at all, the phase is scale |
| PhaseTracker.UnknownPhaseIgnored | src/components/dashboard/PhaseTrackerWidget.tsx:88 | a milestone of no known phase never changes the current phase |
| PhaseTracker.PhaseProgress | src/components/dashboard/PhaseTrackerWidget.tsx:132-138 | 0 for an empty phase, otherwise the completion percentage rounded to the nearest whole number; 0 when none and 100 when all are done |
| PhaseTracker.OverallProgress | src/components/dashboard/PhaseTrackerWidget.tsx:141-143 | no number for an empty list (NaN), otherwise a percentage between 0 and 100, 100 when all are done |
| PhaseTracker.PanelsExclusive | src/components/dashboard/PhaseTrackerWidget.tsx:248-261 | with no milestones neither panel shows; otherwise exactly one of "next steps" and the congratulations does |
| PhaseTracker.SetCompleted | src/components/dashboard/PhaseTrackerWidget.tsx:113-120 | only the flag of milestones with that id changes |
| PhaseTracker.UpdateFor | src/components/dashboard/PhaseTrackerWidget.tsx:104-108 | the flag is sent, with a completion date exactly when completing |
| Common.OrEmpty | src/components/dashboard/PhaseTrackerWidget.tsx:74-75 | `data \|\| []`: the rows, or an empty list when there are none; the chat page reads a missing chat store the same way |
| PhaseTracker.Tracker.constructor | src/components/dashboard/PhaseTrackerWidget.tsx:53-55 | no milestones, phase idea, loading |
| PhaseTracker.Tracker.DetermineCurrentPhase | src/components/dashboard/PhaseTrackerWidget.tsx:84-98 | the loop with its early return sets the phase to the current one and changes nothing else |
| PhaseTracker.Tracker.Load | src/components/dashboard/PhaseTrackerWidget.tsx:63-82 | rows replace the list and fix the phase; an error keeps both; loading ends either way |
| PhaseTracker.Tracker.ToggleMilestone | src/components/dashboard/PhaseTrackerWidget.tsx:100-130 | the update is sent; only when the store accepts it do the list and the phase change |
| ProgressDashboard.Headcount | src/components/dashboard/ProgressDashboard.tsx:118 | the number of workforce entries, or 1 when there are none |
| ProgressDashboard.TaskId | src/components/dashboard/ProgressDashboard.tsx:36-151 | an id is the category key, a dash and the position digit |
| ProgressDashboard.TaskIdInjective | src/components/dashboard/ProgressDashboard.tsx:36-151 | different categories or positions give different ids |
| ProgressDashboard.CatalogueEntry | src/components/dashboard/ProgressDashboard.tsx:33-158 | the i-th entry has its block's category, is open, and has the id of its place in the block |
| ProgressDashboard.GenerateTasks | src/components/dashboard/ProgressDashboard.tsx:32-160 | seventeen open tasks in blocks of 4, 3, 4, 3 and 3 per category, with no id twice |
| ProgressDashboard.LocationFallback | src/components/dashboard/ProgressDashboard.tsx:52 | a plan without a location asks for "suitable space in target area" |
| ProgressDashboard.LocationPhrase | src/components/dashboard/ProgressDashboard.tsx:52 | the shop task reads "Find suitable space in target area" both when there is no location advice and when the advice's shop-size and area texts are both empty |
| ProgressDashboard.HeadcountFallback | src/components/dashboard/ProgressDashboard.tsx:118 | a plan without a workforce asks to recruit one team member |
| ProgressDashboard.HeadcountPhrase | src/components/dashboard/ProgressDashboard.tsx:118 | an empty workforce does too |
| ProgressDashboard.ToggleTask | src/components/dashboard/ProgressDashboard.tsx:225-231 | every task with the id flips its flag and every other task is kept |
| ProgressDashboard.ToggleUnknownIsNoop | src/components/dashboard/ProgressDashboard.tsx:225-231 | toggling an id no task has changes nothing |
| ProgressDashboard.ToggleTwiceRestores | src/components/dashboard/ProgressDashboard.tsx:225-231 | toggling twice restores the list |
| ProgressDashboard.CompletedCount | src/components/dashboard/ProgressDashboard.tsx:233 | all are counted exactly when all are completed, none exactly when none is |
| ProgressDashboard.ToggleChangesCountByOne | src/components/dashboard/ProgressDashboard.tsx:225-233 | toggling a task whose id occurs once moves the count by one in the right direction |
| ProgressDashboard.ProgressPercent | src/components/dashboard/ProgressDashboard.tsx:234-235 | between 0 and 100, 0 without tasks, 100 exactly when there are tasks and all are done |
| ProgressDashboard.OfCategory | src/components/dashboard/ProgressDashboard.tsx:241 | exactly those tasks whose category it is |
| ProgressDashboard.OfCategoryAppend | src/components/dashboard/ProgressDashboard.tsx:241 | the filter keeps the list's order |
| ProgressDashboard.StatOf | src/components/dashboard/ProgressDashboard.tsx:240-249 | a category's total and completed counts, with a percentage between 0 and 100 that is 0 for an empty category and 100 exactly when it is complete |
| ProgressDashboard.CategoryTotalsSum | src/components/dashboard/ProgressDashboard.tsx:240-249 | the per-category totals add up to the number of tasks |
| ProgressDashboard.CategoryStats | src/components/dashboard/ProgressDashboard.tsx:240-249 | one statistic per category in configuration order, the totals adding up to the number of tasks |
| ProgressDashboard.CategoryOfKey | src/components/dashboard/ProgressDashboard.tsx:237-238 | the category with that key, or none when no category has it |
| ProgressDashboard.FilteredTasks | src/components/dashboard/ProgressDashboard.tsx:237-238 | "all" shows every task; any other filter shows exactly those tasks whose category key it is |
| ProgressDashboard.ClickCard | src/components/dashboard/ProgressDashboard.tsx:266-268 | clicking the active category returns to "all", clicking another selects it |
| ProgressDashboard.ClickCardTwice | src/components/dashboard/ProgressDashboard.tsx:266-268 | clicking the same card twice restores the filter |
| ProgressDashboard.BandOf | src/components/dashboard/ProgressDashboard.tsx:393-398 | every category lies in exactly one timeline band |
| ProgressDashboard.BandsPartitionTasks | src/components/dashboard/ProgressDashboard.tsx:393-409 | the four bands' lists add up to the list of tasks |
| ProgressDashboard.TaskInItsBandOnly | src/components/dashboard/ProgressDashboard.tsx:409 | a task is drawn in its category's band and in no other |
| ProgressDashboard.TemplateOfName | src/components/dashboard/ProgressDashboard.tsx:251-253 | the view drawn for a template value; an unknown value draws nothing |
| ProgressDashboard.KeysDiffer | src/components/dashboard/ProgressDashboard.tsx:197-210 | the template key and the storage key of the saved tasks never clash |
| ProgressDashboard.LoadTemplate | src/components/dashboard/ProgressDashboard.tsx:193-201 | a non-empty template: a stored non-empty text wins; "checklist" when nothing is stored, or when the stored value is empty or not text |
| ProgressDashboard.LoadTasks | src/components/dashboard/ProgressDashboard.tsx:208-216 | stored tasks win; without them the catalogue is generated |
| ProgressDashboard.SaveTasks | src/components/dashboard/ProgressDashboard.tsx:218-223 | tasks are saved only when there is at least one |
| ProgressDashboard.TemplateRoundTrip | src/components/dashboard/ProgressDashboard.tsx:195-206 | a saved template is what the next mount restores, and the stored tasks are untouched |
| ProgressDashboard.Dashboard.Mount | src/components/dashboard/ProgressDashboard.tsx:190-223 | the template and tasks are loaded, the filter is "all", and storage then mirrors them |
| ProgressDashboard.Dashboard.Toggle | src/components/dashboard/ProgressDashboard.tsx:225-231 | its tasks are toggled and saved, nothing else changes |
| ProgressDashboard.Dashboard.SelectTemplate | src/components/dashboard/ProgressDashboard.tsx:501 | the chosen template is stored and restored by the next mount; its tasks stay |
| ProgressDashboard.Dashboard.ClickCategoryCard | src/components/dashboard/ProgressDashboard.tsx:266-268 | only the filter changes, by the card rule |
| ProgressDashboard.Dashboard.Reset | src/components/dashboard/ProgressDashboard.tsx:573-578 | after confirmation the catalogue is regenerated and saved again; without it nothing changes |
| Common.TrimSpec | src/pages/SmartBizAgent.tsx:175-177 | `trim` leaves the text between the leading and trailing whitespace, with no whitespace at either end, and is empty exactly for all-whitespace text |
| Common.TrimUnchanged | src/components/calculator/CostCalculator.tsx:118-121 | text without whitespace at either end is kept as it is |
| Common.PyStripSpec | backend/app.py:380 | Python's `strip` has the same characterisation over Python's whitespace |
| Common.PyStripUnchanged | backend/app.py:380 | text without whitespace at either end is kept as it is |
| Common.ToLower | src/pages/MarketplacePage.tsx:235-236 | the same length, with each capital letter lowered and every other character kept |
| Common.Split | src/pages/SmartBizAgent.tsx:215 | at least one piece and no separator inside any piece |
| Common.JoinSplit | src/pages/SmartBizAgent.tsx:215 | joining the pieces with the separator gives the text back |
| Common.RoundedPercent | src/components/dashboard/PhaseTrackerWidget.tsx:137-143 | a count out of a positive total rounds to a whole percentage between 0 and 100, within half a point of the exact one, 0 for none and 100 for all |
| Common.JsRound | src/components/dashboard/PhaseTrackerWidget.tsx:137-143 | the nearest whole number, ties going up |
| Common.JsRoundPercent | src/components/dashboard/PhaseTrackerWidget.tsx:137-143 | rounding keeps a percentage between 0 and 100 and fixes both ends |
| Common.ParseFloat | src/components/dashboard/AdvertisingWidget.tsx:130 | `parseFloat`: a number exactly when, after leading white space and an optional sign, the text starts with a digit or with a point and a digit |
| Common.ParseFloatOfNat | src/components/dashboard/AdvertisingWidget.tsx:130 | a natural number's spelling reads back as that number, whatever text that cannot continue a number follows it |
| Common.ParseFloatOfNegatedNat | src/components/dashboard/CashFlowWidget.tsx:93 | with a minus sign in front it reads back as the negated number |
| Common.ParseFloatSkipsSpace | src/components/dashboard/SalesWidget.tsx:82 | leading white space does not change the value |
| Common.ParseFloatOfTypedText | src/components/dashboard/AdvertisingWidget.tsx:130 | "5,000" reads as 5; "abc", "" and "-" read as NaN |
| Common.ParseFloatOfFraction | src/components/dashboard/SalesWidget.tsx:82 | "2.5" reads as 2.5 |
| Common.ParseFloatOfExponent | src/components/dashboard/SalesWidget.tsx:82 | "1e3" reads as 1000 |

## Left out

- Language-model calls, the data.gov MSME fetch and the edge functions are not modelled. Their reply, or the decoded record list, is a parameter. The prompt text and the real-time context the backend builds for them are left out too.
- Database reads and writes are parameters: the rows a query returns and whether an insert or update succeeded. The marketplace's user listings are taken as already filtered by the query on status, listing type and category, and already ordered by creation date.
- JSON encoding and decoding are not modelled. So CostCalculator.Persist stores a NaN amount as NaN, where `JSON.stringify` writes `null`; after a reload that `null` counts as 0 in the totals' sums. The backend's `re.search` for a `{…}` span is a predicate on the text, and the decoded object is a parameter; a decode failure is the exception branch.
- In the JSON branch, only a decode failure is modelled as an exception. A decoded value of another shape (a list, or an `extracted_info` that is not a dictionary) is not.
- Browser storage is a map field, and its capacity and write failures are left out. In the chat store, stored text that does not parse reads as no list, because the source catches that error. The other components do not catch it, and that case is not modelled.
- `Date.now`, `new Date()`, `toISOString` and `uuidv4` are parameters. Date strings are not parsed: a sale's date is given already split into year, month and day.
- React scheduling is not modelled. Each handler is one atomic step, and the effects that mirror state into storage are folded into it. The one place where a stale render changes the outcome is listed under Findings.
- Floating point is not modelled. Amounts are exact reals, so `toFixed`, `toLocaleString`, `Intl.NumberFormat` and `Math.round` of display values other than the phase percentages are not covered.
- FinancialCharts.Roi: a zero investment gives `NaN` in the model. JavaScript gives NaN only when the gain is also 0, and plus or minus Infinity otherwise.
- FinancialCharts.CashFlowData: the bars are the exact values; the `Math.round` applied to each bar is left out.
- FinancialCharts.BreakEvenData: each point is the exact cumulative profit; the `Math.round` of each point is left out.
- FinancialCharts.RoiData: the four returns are exact; the `Math.round` of each is left out.
- Common.ParseFloat: the `Infinity` literal reads as NaN, where JavaScript gives Infinity; only ASCII white space is skipped; the value is an exact real, not the nearest double.
- The dashboard widgets' members other than Common.Loaded take their rows as a parameter, standing for the list that Common.Loaded gives (the advertising widget's is every row).
- The dashboard widgets' `user?.id` is a string parameter; adding while signed out is not modelled.
- ProgressDashboard.ProgressPercent: the exact percentage is modelled; the rounding of the displayed figure is not.
- Text is ASCII. Unicode case mapping, Unicode whitespace, and the Unicode meaning of the regular expressions `\d` and `\b` are left out. Lengths are counted in characters, not in UTF-16 units.
- The marketplace's `handleDeleteListing` is left out. So is the reload of listings after a successful insert: the model's submit reports the insert, and the next fetch is a separate call.
- Icons, badges, colours and layout are left out. The display conditions that are modelled are the advertising ROI badge (Advertising.NothingSpentIsSecondary), the balance colour (CashFlow.NoExpensesIsPositive), the over-budget warning (CostCalculator.OverBudgetMeans), the phase tracker's panels (PhaseTracker.PanelsExclusive), the comparison table or hint (CompareList.TableOrHint) and the advisor page's buttons (SmartBizPage.ShowsComparisonButton, SmartBizPage.ShowsDashboardButton, SmartBizPage.SubmitEnabled). Not modelled: the cost calculator's variance colour and status badge, the marketplace's listing-type badge and its colours, and the milestone view's completed and started markers.
- The tab test that decides whether government listings are fetched (`['all', 'buy', 'export', 'sell'].includes(activeTab)`) always passes, so the model always fetches them.
- A null `userData` from the listing query is not modelled separately from an empty result.
- The backend's debug output is left out, and so is the `activity` value, which no field of a listing uses. Its `.upper()` is not modelled either: a `MajorActivity` that is not a string makes that call raise, and the blanket `except` then answers `[]` for the whole request.
- Some parts of the dashboard hand-off are fixed text that no modelled rule reads, so the plan record leaves them out. These are the pricing, marketing and growth sections, the location's setup needs and the idea's icon.
- Login and authentication, routing, PDF export, the canvas background, the saved-plans pages and the recommendation pages are outside this model.

## Findings

| source | as written | input that shows it | evidently intended | confidence | as-written member | corrected member |
|---|---|---|---|---|---|---|
| src/pages/SmartBizAgent.tsx:125-134 | "New chat" clears the messages and then calls `sendMessage("")` from the same render, so the guard at line 131 still sees the old, non-empty message list and returns. No greeting is requested, and the new chat stays empty and is never saved. | press "New chat" while the open conversation shows one message; or delete the open conversation when it is the only one (lines 116-121 call `handleNewChat` from the same render) | the new chat always requests its opening greeting from the initial state | high, not executed | SmartBizPage.StaleGreetingRequest | SmartBizPage.AgentPage.HandleNewChat |
