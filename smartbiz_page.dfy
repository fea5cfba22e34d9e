/** The advisor chat page: the messages, agent state and comparison data of the open
    conversation, which session is open, and how each change is mirrored into the chat
    store. Each handler is one atomic step; the effect that saves the open session after
    every change of messages, state or session id is folded into the handlers that make
    such a change. The backend's reply is an input (`None` is a failed request). */
module SmartBizPage {
  import opened Common
  import opened Business
  import opened Advisor
  import opened ChatService

  /** What `sendMessage` posts: the message and the state it is relative to (`None` is
      JSON `null`). */
  datatype Request = Request(message: string, state: Option<AgentState>)

  // ---------------------------------------------------------------------------
  // What one exchange adds to the conversation

  /** The user's message (only when it is not empty), then exactly one agent message. */
  function Exchange(message: string, reply: string): (t: seq<Message>)
    ensures |t| == (if message == "" then 1 else 2)
    ensures t[|t| - 1] == Message(Agent, reply)
    ensures message != "" ==> t[0] == Message(User, message)
    ensures forall k :: 0 <= k < |t| - 1 ==> t[k].role == User
  {
    (if message != "" then [Message(User, message)] else []) + [Message(Agent, reply)]
  }

  /** The content of the first user message, if there is one. */
  function FirstUserContent(messages: seq<Message>): Option<string>
  {
    if messages == [] then None
    else if messages[0].role == User then Some(messages[0].content)
    else FirstUserContent(messages[1..])
  }

  /** It is `None` exactly when no message is the user's, and otherwise the content of the
      earliest user message. */
  lemma {:induction false} FirstUserContentSpec(messages: seq<Message>)
    ensures var r := FirstUserContent(messages);
            && (r.None? <==> forall k :: 0 <= k < |messages| ==> messages[k].role != User)
            && (r.Some? ==> exists k :: 0 <= k < |messages| && messages[k] == Message(User, r.value) &&
                                       forall j :: 0 <= j < k ==> messages[j].role != User)
  {
    if messages != [] && messages[0].role != User {
      var r := FirstUserContent(messages[1..]);
      FirstUserContentSpec(messages[1..]);
      if r.Some? {
        var k :| 0 <= k < |messages[1..]| && messages[1..][k] == Message(User, r.value) &&
                 forall j :: 0 <= j < k ==> messages[1..][j].role != User;
        assert messages[k + 1] == Message(User, r.value);
      }
    }
  }

  /** The session title: the first user message, or "New Conversation" when there is none
      or it is empty, cut by `generateTitle`. */
  function SessionTitle(messages: seq<Message>): (t: string)
    ensures (forall k :: 0 <= k < |messages| ==> messages[k].role != User) ==> t == "New Conversation"
    ensures FirstUserContent(messages).Some? && FirstUserContent(messages).value != "" ==>
              t == GenerateTitle(FirstUserContent(messages).value)
    ensures FirstUserContent(messages).Some? && FirstUserContent(messages).value == "" ==> t == "New Conversation"
    ensures |t| <= 33
  {
    var first := FirstUserContent(messages);
    FirstUserContentSpec(messages);
    GenerateTitle(OrElse(if first.Some? then first.value else "", "New Conversation"))
  }

  /** The session the page saves: both stamps `now`, and the initial state when the page
      has none. */
  function Snapshot(id: string, messages: seq<Message>, state: Option<AgentState>, now: int): (s: ChatSession)
    ensures s.id == id && s.messages == messages && s.lastUpdated == now && s.createdAt == now
    ensures s.state == (if state.Some? then state.value else InitialState)
  {
    ChatSession(id, SessionTitle(messages), messages, if state.Some? then state.value else InitialState, now, now)
  }

  /** The save effect's guard: a non-empty session id and at least one message. */
  predicate ShouldPersist(id: Option<string>, messages: seq<Message>)
  {
    id.Some? && id.value != "" && |messages| > 0
  }

  /** The stored list after the save effect: the snapshot saved, or the list as it was. */
  function Persisted(stored: Option<seq<ChatSession>>, id: Option<string>, messages: seq<Message>,
                     state: Option<AgentState>, now: int): (r: Option<seq<ChatSession>>)
  {
    if ShouldPersist(id, messages) then
      Some(SortByRecency(Upsert(OrEmpty(stored), Snapshot(id.value, messages, state, now), now)))
    else stored
  }

  /** After the save effect the store is newest first, holds exactly one entry for the open
      session (when it held at most one), and that entry is the page's session itself. */
  lemma PersistedSession(stored: Option<seq<ChatSession>>, id: string, messages: seq<Message>,
                         state: Option<AgentState>, now: int)
    requires ShouldPersist(Some(id), messages)
    requires CountId(OrEmpty(stored), id) <= 1
    ensures NewestFirst(OrEmpty(Persisted(stored, Some(id), messages, state, now)))
    ensures CountId(OrEmpty(Persisted(stored, Some(id), messages, state, now)), id) == 1
    ensures FindChat(OrEmpty(Persisted(stored, Some(id), messages, state, now)), id) ==
              Some(Snapshot(id, messages, state, now))
  {
    var chats := OrEmpty(stored);
    var snap := Snapshot(id, messages, state, now);
    SortByRecencySorted(Upsert(chats, snap, now));
    SaveThenFind(chats, snap, now);
  }

  /** The save effect never brings back an id other than the open session's. */
  lemma PersistedOtherIds(stored: Option<seq<ChatSession>>, id: Option<string>, messages: seq<Message>,
                          state: Option<AgentState>, now: int, other: string)
    requires id.Some? ==> id.value != other
    ensures CountId(OrEmpty(Persisted(stored, id, messages, state, now)), other) == CountId(OrEmpty(stored), other)
  {
    if ShouldPersist(id, messages) {
      var upserted := Upsert(OrEmpty(stored), Snapshot(id.value, messages, state, now), now);
      UpsertOtherIds(OrEmpty(stored), Snapshot(id.value, messages, state, now), now, other);
      SortByRecencyPermutes(upserted);
      CountIdOfPermutation(SortByRecency(upserted), upserted, other);
    }
  }

  // ---------------------------------------------------------------------------
  // What the page shows

  /** The "Compare Listed Suppliers" button is shown at step index 6. */
  function ShowsComparisonButton(state: Option<AgentState>): (b: bool)
    ensures b <==> state.Some? && 0 <= state.value.stepIndex < |StepFlow| &&
                   StepFlow[state.value.stepIndex] == "SUPPLIER_GUIDANCE"
  {
    StepFlowShape();
    state.Some? && state.value.stepIndex == 6
  }

  /** The dashboard button is shown at step index 12, the last step. */
  function ShowsDashboardButton(state: Option<AgentState>): (b: bool)
    ensures b <==> state.Some? && 0 <= state.value.stepIndex < |StepFlow| &&
                   StepFlow[state.value.stepIndex] == "DASHBOARD_MODE"
    ensures b ==> state.value.stepIndex == LastStep
  {
    StepFlowShape();
    state.Some? && state.value.stepIndex == 12
  }

  /** The send button is enabled only when nothing is loading and the input is not blank. */
  function SubmitEnabled(input: string, isLoading: bool): (b: bool)
    ensures b ==> !isLoading && |Trim(input)| > 0
    ensures !isLoading && (exists k :: 0 <= k < |input| && !IsJsSpace(input[k])) ==> b
  {
    TrimSpec(input);
    !isLoading && Trim(input) != ""
  }

  // ---------------------------------------------------------------------------
  // The hand-off to the plan page

  /** `answers[key] || fallback`: a missing or empty answer gives the fallback. */
  function Answer(answers: map<string, string>, key: string, fallback: string): (r: string)
    ensures key in answers && answers[key] != "" ==> r == answers[key]
    ensures !(key in answers && answers[key] != "") ==> r == fallback
  {
    if key in answers && answers[key] != "" then answers[key] else fallback
  }

  /** One material per line of the answer: each line trimmed, blank lines dropped. */
  function MaterialsOfLines(lines: seq<string>): (r: seq<RawMaterial>)
    ensures |r| <= |lines|
    ensures forall k :: 0 <= k < |r| ==>
              r[k].name != "" && r[k].sourceType == "Industrial Hubs" && r[k].estimatedCost == "Market Price"
  {
    if lines == [] then []
    else
      var name := Trim(lines[0]);
      (if name != "" then [RawMaterial(name, "Industrial Hubs", "Market Price", "Search on IndiaMART or local mandis.")]
       else []) + MaterialsOfLines(lines[1..])
  }

  /** The materials of the RAW_MATERIALS answer, split on newlines. */
  function RawMaterialsFrom(text: string): (r: seq<RawMaterial>)
    ensures |r| <= |Split(text, '\n')|
    ensures forall k :: 0 <= k < |r| ==> r[k].name != ""
  {
    MaterialsOfLines(Split(text, '\n'))
  }

  /** Every material's name is one of the lines with its surrounding space removed. */
  lemma {:induction false} MaterialNamesAreTrimmedLines(lines: seq<string>)
    ensures forall k :: 0 <= k < |MaterialsOfLines(lines)| ==>
              exists j :: 0 <= j < |lines| && MaterialsOfLines(lines)[k].name == Trim(lines[j])
  {
    if lines != [] {
      MaterialNamesAreTrimmedLines(lines[1..]);
      var r := MaterialsOfLines(lines);
      var rest := MaterialsOfLines(lines[1..]);
      forall k | 0 <= k < |r|
        ensures exists j :: 0 <= j < |lines| && r[k].name == Trim(lines[j])
      {
        if Trim(lines[0]) != "" && k == 0 {
          assert r[0].name == Trim(lines[0]);
        } else {
          var k' := if Trim(lines[0]) != "" then k - 1 else k;
          assert r[k] == rest[k'];
          var j :| 0 <= j < |lines[1..]| && rest[k'].name == Trim(lines[1..][j]);
          assert lines[j + 1] == lines[1..][j];
          assert r[k].name == Trim(lines[j + 1]);
        }
      }
    } else {
      assert |MaterialsOfLines(lines)| == 0;
    }
  }

  /** No material's name starts or ends with white space. */
  lemma {:induction false} MaterialNamesTrimmed(lines: seq<string>)
    ensures forall k :: 0 <= k < |MaterialsOfLines(lines)| ==>
              !IsJsSpace(MaterialsOfLines(lines)[k].name[0])
    ensures forall k :: 0 <= k < |MaterialsOfLines(lines)| ==>
              !IsJsSpace(MaterialsOfLines(lines)[k].name[|MaterialsOfLines(lines)[k].name| - 1])
  {
    if lines != [] {
      MaterialNamesTrimmed(lines[1..]);
      var r := MaterialsOfLines(lines);
      var rest := MaterialsOfLines(lines[1..]);
      TrimSpec(lines[0]);
      forall k | 0 <= k < |r|
        ensures !IsJsSpace(r[k].name[0]) && !IsJsSpace(r[k].name[|r[k].name| - 1])
      {
        if !(Trim(lines[0]) != "" && k == 0) {
          var k' := if Trim(lines[0]) != "" then k - 1 else k;
          assert r[k] == rest[k'];
        }
      }
    }
  }

  /** No answer, or a blank one, gives no materials. */
  lemma NoAnswerNoMaterials()
    ensures RawMaterialsFrom("") == []
  {
    TrimUnchanged("");
  }

  /** What is handed to the plan page. */
  datatype Handoff = Handoff(profile: UserProfile, idea: BusinessIdea, plan: BusinessPlan)

  /** `handleViewDashboard`: nothing without a state; otherwise a profile, idea and plan
      built from the answers, with "Not specified" and "My Business" for missing ones. */
  function ViewDashboard(state: Option<AgentState>): (h: Option<Handoff>)
    ensures h.None? <==> state.None?
    ensures h.Some? ==>
              var a := state.value.answers;
              && h.value.profile == UserProfile(Answer(a, "ASK_BUDGET", "Not specified"),
                                                Answer(a, "ASK_CUSTOM_LOCATION", "Not specified"),
                                                Answer(a, "ASK_IDEA", "Not specified"), "beginner")
              && h.value.idea.id == "ai-generated"
              && h.value.idea.name == Answer(a, "ASK_IDEA", "My Business")
              && h.value.idea.investmentRange == h.value.profile.budget
              && h.value.plan.idea == h.value.idea
              && h.value.plan.rawMaterials == Some(RawMaterialsFrom(Answer(a, "RAW_MATERIALS", "")))
              && h.value.plan.workforce == Some([WorkforceRequirement("Owner/Manager", "Skilled", 1, "N/A")])
              && h.value.plan.location.Some?
              && h.value.plan.location.value.areaType == Answer(a, "ASK_LOCATION_PREFERENCE", "Not specified")
  {
    if state.None? then None
    else
      var a := state.value.answers;
      var profile := UserProfile(Answer(a, "ASK_BUDGET", "Not specified"), Answer(a, "ASK_CUSTOM_LOCATION", "Not specified"),
                                 Answer(a, "ASK_IDEA", "Not specified"), "beginner");
      var idea := BusinessIdea("ai-generated", Answer(a, "ASK_IDEA", "My Business"),
                               "New business idea generated with SmartBiz AI in " + profile.city + ".",
                               profile.budget, "TBD", "TBD", "Medium", "TBD");
      var location := LocationAdvice(Answer(a, "ASK_LOCATION_PREFERENCE", "Not specified"), "Approx 100-200 sq.ft.",
                                     "Depends on local market");
      Some(Handoff(profile, idea,
                   BusinessPlan(idea, Some(RawMaterialsFrom(Answer(a, "RAW_MATERIALS", ""))),
                                Some([WorkforceRequirement("Owner/Manager", "Skilled", 1, "N/A")]), Some(location))))
  }

  /** With no answers at all the hand-off is all defaults and has no materials. */
  lemma DashboardOfNoAnswers(stepIndex: int)
    ensures var h := ViewDashboard(Some(AgentState(stepIndex, map[])));
            && h.Some?
            && h.value.idea.name == "My Business"
            && h.value.profile.budget == "Not specified" && h.value.profile.city == "Not specified"
            && h.value.plan.rawMaterials == Some([])
  {
    NoAnswerNoMaterials();
  }

  // ---------------------------------------------------------------------------
  // The greeting of a new chat, as written

  /** The request `handleNewChat`'s greeting makes as written: `sendMessage` belongs to the
      render that called it, so its empty-message guard reads that render's `rendered`
      messages, not the emptied list. */
  function StaleGreetingRequest(rendered: seq<Message>): (r: Option<Request>)
    ensures r.None? <==> |rendered| > 0
    ensures r.Some? ==> r.value == Request("", Some(InitialState))
  {
    if |rendered| > 0 then None else Some(Request("", Some(InitialState)))
  }

  /** A new chat opened from a conversation with a message in it sends no greeting, and
      its message list stays empty, so it is never saved either. */
  lemma NewChatFromConversationSkipsGreeting(m: Message)
    ensures StaleGreetingRequest([m]) == None
    ensures !ShouldPersist(Some("new"), [])
  {
  }

  /** The same stale guard reached by deleting the open conversation when it is the only
      one: it was in the sidebar, so it had been saved, and a saved conversation has a
      message; the render that deletes it therefore still shows that message, and the new
      chat's greeting is dropped. */
  lemma DeletedOpenChatSkipsGreeting(stored: Option<seq<ChatSession>>, id: string, messages: seq<Message>,
                                     state: Option<AgentState>, now: int)
    requires Persisted(stored, Some(id), messages, state, now) != stored
    ensures StaleGreetingRequest(messages) == None
  {
  }

  // ---------------------------------------------------------------------------
  // The page

  class AgentPage {
    var messages: seq<Message>
    var input: string
    var isLoading: bool
    var state: Option<AgentState>
    var comparisonData: seq<ComparisonRow>
    var comparisonOpen: bool
    var currentSessionId: Option<string>
    var chatSessions: seq<ChatSession>
    var sidebarOpen: bool
    /** The `smartbiz-current-chat-id` entry of browser storage. */
    var storedCurrentId: Option<string>
    const store: ChatStore

    /** The sidebar shows the stored list, and the stored current id is the open one. */
    predicate Synced()
      reads this, store
    {
      chatSessions == store.AllChats() && storedCurrentId == currentSessionId
    }

    /** The page before the mount effect: empty, with the storage it will read. */
    constructor (store: ChatStore, storedCurrentId: Option<string>)
      ensures this.store == store && this.storedCurrentId == storedCurrentId
      ensures messages == [] && input == "" && !isLoading && state.None? && comparisonData == []
      ensures !comparisonOpen && currentSessionId.None? && chatSessions == [] && !sidebarOpen
    {
      this.store := store;
      this.storedCurrentId := storedCurrentId;
      messages := [];
      input := "";
      isLoading := false;
      state := None;
      comparisonData := [];
      comparisonOpen := false;
      currentSessionId := None;
      chatSessions := [];
      sidebarOpen := false;
    }

    /** The save effect: the open session is written to the store, the sidebar list is
        refreshed and the current id is stored, whenever there is an id and a message. */
    method Persist(now: int)
      modifies store, this`chatSessions, this`storedCurrentId
      ensures store.stored == Persisted(old(store.stored), currentSessionId, messages, state, now)
      ensures ShouldPersist(currentSessionId, messages) ==>
                chatSessions == store.AllChats() && storedCurrentId == currentSessionId
      ensures !ShouldPersist(currentSessionId, messages) ==>
                chatSessions == old(chatSessions) && storedCurrentId == old(storedCurrentId)
    {
      if currentSessionId.Some? && currentSessionId.value != "" && |messages| > 0 {
        var session := Snapshot(currentSessionId.value, messages, state, now);
        store.SaveChat(session, now);
        chatSessions := store.AllChats();
        storedCurrentId := currentSessionId;
      }
    }

    /** `sendMessage`: an empty message is sent only to open a conversation that has no
        messages yet. A reply appends the turn, takes the returned state, and replaces the
        comparison data only with a non-empty list; a failure changes none of them. */
    method SendMessage(message: string, stateOverride: Option<AgentState>, reply: Option<Response>, now: int)
        returns (request: Option<Request>)
      modifies this`messages, this`isLoading, this`state, this`comparisonData,
               store, this`chatSessions, this`storedCurrentId
      ensures !isLoading
      ensures request.None? <==> message == "" && |old(messages)| > 0
      ensures request.Some? ==> request.value == Request(message, if stateOverride.Some? then stateOverride else old(state))
      ensures (request.None? || reply.None?) ==>
                && messages == old(messages) && state == old(state) && comparisonData == old(comparisonData)
                && store.stored == old(store.stored)
                && chatSessions == old(chatSessions) && storedCurrentId == old(storedCurrentId)
      ensures request.Some? && reply.Some? ==>
                && messages == old(messages) + Exchange(message, reply.value.reply)
                && state == Some(reply.value.state)
                && comparisonData == (if |reply.value.comparisonData| > 0 then reply.value.comparisonData
                                      else old(comparisonData))
                && store.stored == Persisted(old(store.stored), currentSessionId, messages, state, now)
                && (ShouldPersist(currentSessionId, messages) ==>
                      chatSessions == store.AllChats() && storedCurrentId == currentSessionId)
                && (!ShouldPersist(currentSessionId, messages) ==>
                      chatSessions == old(chatSessions) && storedCurrentId == old(storedCurrentId))
      ensures old(Synced()) ==> Synced()
    {
      isLoading := true;
      var currentState := if stateOverride.Some? then stateOverride else state;
      if message == "" && |messages| > 0 {
        isLoading := false;
        return None;
      }
      request := Some(Request(message, currentState));
      isLoading := false;
      if reply.Some? {
        ApplyReply(message, reply.value, now);
      }
    }

    /** A successful reply: the exchange appended, the returned state taken, a non-empty
        comparison list taken, and the session saved. */
    method ApplyReply(message: string, reply: Response, now: int)
      modifies this`messages, this`state, this`comparisonData, store, this`chatSessions, this`storedCurrentId
      ensures messages == old(messages) + Exchange(message, reply.reply)
      ensures state == Some(reply.state)
      ensures comparisonData == (if |reply.comparisonData| > 0 then reply.comparisonData else old(comparisonData))
      ensures store.stored == Persisted(old(store.stored), currentSessionId, messages, state, now)
      ensures ShouldPersist(currentSessionId, messages) ==>
                chatSessions == store.AllChats() && storedCurrentId == currentSessionId
      ensures !ShouldPersist(currentSessionId, messages) ==>
                chatSessions == old(chatSessions) && storedCurrentId == old(storedCurrentId)
    {
      messages := messages + Exchange(message, reply.reply);
      state := Some(reply.state);
      if |reply.comparisonData| > 0 {
        comparisonData := reply.comparisonData;
      }
      Persist(now);
    }

    /** `handleSubmit`: blank input, or any input while a request is loading, is ignored;
        otherwise the input is cleared and its trimmed text is sent. */
    method HandleSubmit(reply: Option<Response>, now: int) returns (request: Option<Request>)
      modifies this, store
      ensures !SubmitEnabled(old(input), old(isLoading)) ==> request.None? && unchanged(this, store)
      ensures SubmitEnabled(old(input), old(isLoading)) ==>
                && input == "" && !isLoading
                && request == Some(Request(Trim(old(input)), old(state)))
                && (reply.None? ==>
                      messages == old(messages) && state == old(state) && comparisonData == old(comparisonData)
                      && store.stored == old(store.stored))
                && (reply.Some? ==>
                      && messages == old(messages) + [Message(User, Trim(old(input))), Message(Agent, reply.value.reply)]
                      && state == Some(reply.value.state)
                      && store.stored == Persisted(old(store.stored), currentSessionId, messages, state, now))
      ensures currentSessionId == old(currentSessionId) && sidebarOpen == old(sidebarOpen)
      ensures old(Synced()) ==> Synced()
    {
      if Trim(input) == "" || isLoading {
        return None;
      }
      var userMessage := Trim(input);
      input := "";
      request := SendMessage(userMessage, None, reply, now);
    }

    /** Typing into the input field. */
    method SetInput(text: string)
      modifies this`input
      ensures input == text
    {
      input := text;
    }

    /** `loadChatSession`: a stored session becomes the open one (its messages and state)
        and the sidebar closes; an id with no stored session changes nothing. */
    method LoadChatSession(id: string, now: int)
      modifies this, store
      ensures old(store.GetChat(id)).None? ==> unchanged(this, store)
      ensures old(store.GetChat(id)).Some? ==>
                var session := old(store.GetChat(id)).value;
                && currentSessionId == Some(id) && messages == session.messages && state == Some(session.state)
                && !sidebarOpen && storedCurrentId == Some(id)
                && store.stored == Persisted(old(store.stored), currentSessionId, messages, state, now)
                && (ShouldPersist(currentSessionId, messages) ==> chatSessions == store.AllChats())
                && (!ShouldPersist(currentSessionId, messages) ==> chatSessions == old(chatSessions))
                && comparisonData == old(comparisonData) && input == old(input) && isLoading == old(isLoading)
      ensures old(store.GetChat(id)).Some? && old(chatSessions) == old(store.AllChats()) ==> Synced()
    {
      var session := store.GetChat(id);
      if session.Some? {
        currentSessionId := Some(session.value.id);
        messages := session.value.messages;
        state := Some(session.value.state);
        storedCurrentId := Some(session.value.id);
        sidebarOpen := false;
        Persist(now);
      }
    }

    /** The first half of `handleNewChat`: the session `createNewChat` made becomes the
        open one, with its empty messages and its state, and no comparison data. */
    method OpenNewSession(session: ChatSession)
      modifies this`currentSessionId, this`messages, this`state, this`comparisonData, this`storedCurrentId
      ensures currentSessionId == Some(session.id) && storedCurrentId == Some(session.id)
      ensures messages == session.messages && state == Some(session.state) && comparisonData == []
    {
      currentSessionId := Some(session.id);
      messages := session.messages;
      state := Some(session.state);
      comparisonData := [];
      storedCurrentId := Some(session.id);
    }

    /** `handleNewChat` (and the reset button): a fresh session becomes the open one and the
        greeting is requested with the initial state. */
    method HandleNewChat(newId: string, now: int, greeting: Option<Response>) returns (request: Option<Request>)
      modifies this, store
      ensures request == Some(Request("", Some(InitialState)))
      ensures currentSessionId == Some(newId) && storedCurrentId == Some(newId) && !sidebarOpen && !isLoading
      ensures greeting.None? ==>
                messages == [] && state == Some(InitialState) && comparisonData == [] &&
                store.stored == old(store.stored) && chatSessions == old(chatSessions)
      ensures greeting.Some? ==>
                && messages == [Message(Agent, greeting.value.reply)]
                && state == Some(greeting.value.state)
                && comparisonData == greeting.value.comparisonData
                && store.stored == Persisted(old(store.stored), currentSessionId, messages, state, now)
                && (newId != "" ==> chatSessions == store.AllChats())
                && (newId == "" ==> chatSessions == old(chatSessions))
      ensures input == old(input)
      ensures old(chatSessions) == old(store.AllChats()) ==> Synced()
    {
      OpenNewSession(NewChat(newId, now));
      request := SendMessage("", Some(InitialState), greeting, now);
      if greeting.Some? {
        assert Exchange("", greeting.value.reply) == [Message(Agent, greeting.value.reply)];
      }
      sidebarOpen := false;
    }

    /** `handleDeleteChat`: the session is removed from the store and the sidebar; when
        it was the open one, the first remaining session is opened, or, when none remains,
        a new chat as the corrected `HandleNewChat` opens it: the greeting is requested with
        the initial state (as written, the stale render drops that request; see
        `DeletedOpenChatSkipsGreeting`). */
    method HandleDeleteChat(id: string, newId: string, now: int, greeting: Option<Response>)
        returns (request: Option<Request>)
      modifies this, store
      ensures !(old(currentSessionId) == Some(id) && WithoutChat(old(store.AllChats()), id) == []) ==>
                request.None?
      ensures old(currentSessionId) != Some(id) ==>
                && store.stored == Some(WithoutChat(old(store.AllChats()), id))
                && chatSessions == store.AllChats()
                && messages == old(messages) && state == old(state) && currentSessionId == old(currentSessionId)
                && storedCurrentId == old(storedCurrentId)
      ensures old(currentSessionId) == Some(id) && |WithoutChat(old(store.AllChats()), id)| > 0 ==>
                var first := WithoutChat(old(store.AllChats()), id)[0];
                && currentSessionId == Some(first.id) && messages == first.messages && state == Some(first.state)
                && store.stored == Persisted(Some(WithoutChat(old(store.AllChats()), id)), currentSessionId,
                                             messages, state, now)
      ensures old(currentSessionId) == Some(id) && WithoutChat(old(store.AllChats()), id) == [] ==>
                && request == Some(Request("", Some(InitialState)))
                && currentSessionId == Some(newId)
                && messages == (if greeting.Some? then [Message(Agent, greeting.value.reply)] else [])
                && state == Some(if greeting.Some? then greeting.value.state else InitialState)
                && store.stored == Persisted(Some([]), currentSessionId, messages, state, now)
      ensures newId != id ==> CountId(store.AllChats(), id) == 0
      ensures old(currentSessionId) != Some(id) ==> (old(storedCurrentId == currentSessionId) ==> Synced())
      ensures old(currentSessionId) == Some(id) ==> Synced()
    {
      request := None;
      store.DeleteChat(id);
      var updated := store.AllChats();
      chatSessions := updated;
      assert CountId(updated, id) == 0;
      if currentSessionId == Some(id) {
        if |updated| > 0 {
          ghost var before := store.stored;
          assert FindChat(updated, updated[0].id) == Some(updated[0]);
          assert updated[0].id != id by {
            assert updated[0] in updated;
          }
          LoadChatSession(updated[0].id, now);
          PersistedOtherIds(before, currentSessionId, messages, state, now, id);
        } else {
          ghost var before := store.stored;
          request := HandleNewChat(newId, now, greeting);
          if newId != id {
            PersistedOtherIds(before, currentSessionId, messages, state, now, id);
          }
        }
      }
    }

    /** The mount effect: the stored current id when a session has it, else the most
        recent session, else a new chat. */
    method Mount(newId: string, now: int, greeting: Option<Response>)
      modifies this, store
      ensures var saved := old(storedCurrentId);
              var sessions := old(store.AllChats());
              && (saved.Some? && saved.value != "" && FindChat(sessions, saved.value).Some? ==>
                    currentSessionId == saved && messages == FindChat(sessions, saved.value).value.messages)
              && (!(saved.Some? && saved.value != "" && FindChat(sessions, saved.value).Some?) && |sessions| > 0 ==>
                    currentSessionId == Some(sessions[0].id) && messages == sessions[0].messages)
              && (!(saved.Some? && saved.value != "" && FindChat(sessions, saved.value).Some?) && sessions == [] ==>
                    currentSessionId == Some(newId) &&
                    messages == (if greeting.Some? then [Message(Agent, greeting.value.reply)] else []))
      ensures store.stored == Persisted(old(store.stored), currentSessionId, messages, state, now)
      ensures Synced()
    {
      var sessions := store.AllChats();
      chatSessions := sessions;
      var savedId := storedCurrentId;
      if savedId.Some? && savedId.value != "" && FindChat(sessions, savedId.value).Some? {
        LoadChatSession(savedId.value, now);
      } else if |sessions| > 0 {
        assert FindChat(sessions, sessions[0].id) == Some(sessions[0]);
        LoadChatSession(sessions[0].id, now);
      } else {
        var _ := HandleNewChat(newId, now, greeting);
        assert greeting.None? ==> !ShouldPersist(currentSessionId, messages);
      }
    }

    /** The supplier-comparison dialog opens from its button. */
    method OpenComparison()
      modifies this`comparisonOpen
      ensures comparisonOpen
    {
      comparisonOpen := true;
    }
  }
}
