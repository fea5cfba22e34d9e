/** The chat-session store behind the advisor page: every session lives in one stored
    list, which each operation reads afresh, edits and writes back. */
module ChatService {
  import opened Common
  import opened Advisor

  datatype Role = Agent | User

  datatype Message = Message(role: Role, content: string)

  datatype ChatSession = ChatSession(
    id: string,
    title: string,
    messages: seq<Message>,
    state: AgentState,
    lastUpdated: int,
    createdAt: int)

  // ---------------------------------------------------------------------------
  // Lookup

  /** `chats.findIndex(c => c.id === id)`, with -1 for "not found". */
  function FindIndex(chats: seq<ChatSession>, id: string): (i: int)
    ensures -1 <= i < |chats|
    ensures i >= 0 ==> chats[i].id == id && forall j :: 0 <= j < i ==> chats[j].id != id
    ensures i == -1 <==> forall j :: 0 <= j < |chats| ==> chats[j].id != id
  {
    if chats == [] then -1
    else if chats[0].id == id then 0
    else
      var k := FindIndex(chats[1..], id);
      if k == -1 then -1 else k + 1
  }

  /** `chats.find(c => c.id === id)`: the entry at the first index with the id. */
  function FindChat(chats: seq<ChatSession>, id: string): (r: Option<ChatSession>)
    ensures r.Some? ==> r.value.id == id && r.value in chats
    ensures r.None? <==> forall i :: 0 <= i < |chats| ==> chats[i].id != id
    ensures r.Some? ==> r.value == chats[FindIndex(chats, id)]
  {
    var i := FindIndex(chats, id);
    if i >= 0 then Some(chats[i]) else None
  }

  // ---------------------------------------------------------------------------
  // Saving: insert or update, then order by recency

  /** The edit before the sort: an existing id has its first entry replaced, stamped with
      `now` and keeping the caller's `createdAt`; a new id is appended with both stamps `now`. */
  function Upsert(chats: seq<ChatSession>, session: ChatSession, now: int): (r: seq<ChatSession>)
    ensures FindIndex(chats, session.id) >= 0 ==>
              r == chats[FindIndex(chats, session.id) := session.(lastUpdated := now)]
    ensures FindIndex(chats, session.id) == -1 ==>
              r == chats + [session.(lastUpdated := now, createdAt := now)]
  {
    var index := FindIndex(chats, session.id);
    if index >= 0 then chats[index := session.(lastUpdated := now)]
    else chats + [session.(lastUpdated := now, createdAt := now)]
  }

  function CountId(chats: seq<ChatSession>, id: string): (n: nat)
    ensures n <= |chats|
    ensures n == 0 <==> forall i :: 0 <= i < |chats| ==> chats[i].id != id
  {
    if chats == [] then 0 else (if chats[0].id == id then 1 else 0) + CountId(chats[1..], id)
  }

  lemma {:induction false} CountIdAppend(a: seq<ChatSession>, b: seq<ChatSession>, id: string)
    ensures CountId(a + b, id) == CountId(a, id) + CountId(b, id)
  {
    if a == [] {
      assert a + b == b;
    } else {
      assert (a + b)[1..] == a[1..] + b;
      CountIdAppend(a[1..], b, id);
    }
  }

  /** Replacing an entry by one with the same id changes no count. */
  lemma {:induction false} CountIdUpdate(chats: seq<ChatSession>, i: nat, s: ChatSession, id: string)
    requires i < |chats| && chats[i].id == s.id
    ensures CountId(chats[i := s], id) == CountId(chats, id)
  {
    if i > 0 {
      assert chats[i := s][1..] == chats[1..][i - 1 := s];
      CountIdUpdate(chats[1..], i - 1, s, id);
    }
  }

  /** With a single entry for an id, every entry with that id is at one position. */
  lemma {:induction false} CountIdOne(chats: seq<ChatSession>, id: string, i: nat, j: nat)
    requires CountId(chats, id) == 1
    requires i < |chats| && j < |chats| && chats[i].id == id && chats[j].id == id
    ensures i == j
  {
    if i > 0 && j > 0 {
      CountIdOne(chats[1..], id, i - 1, j - 1);
    }
  }

  /** Saving never adds a second entry for an id: afterwards there is exactly one when
      there was at most one before. */
  lemma UpsertKeepsOneEntry(chats: seq<ChatSession>, session: ChatSession, now: int)
    requires CountId(chats, session.id) <= 1
    ensures CountId(Upsert(chats, session, now), session.id) == 1
  {
    var index := FindIndex(chats, session.id);
    if index >= 0 {
      CountIdUpdate(chats, index, session.(lastUpdated := now), session.id);
      assert CountId(chats, session.id) != 0;
    } else {
      CountIdAppend(chats, [session.(lastUpdated := now, createdAt := now)], session.id);
    }
  }

  /** Saving touches no other id: its count of entries is what it was. */
  lemma UpsertOtherIds(chats: seq<ChatSession>, session: ChatSession, now: int, id: string)
    requires id != session.id
    ensures CountId(Upsert(chats, session, now), id) == CountId(chats, id)
  {
    var index := FindIndex(chats, session.id);
    if index >= 0 {
      CountIdUpdate(chats, index, session.(lastUpdated := now), id);
    } else {
      CountIdAppend(chats, [session.(lastUpdated := now, createdAt := now)], id);
    }
  }

  /** Newest first. */
  predicate NewestFirst(chats: seq<ChatSession>)
  {
    forall i, j :: 0 <= i < j < |chats| ==> chats[i].lastUpdated >= chats[j].lastUpdated
  }

  /** Places `x` after every entry at least as recent, which keeps equal stamps in their
      arrival order. */
  function Insert(x: ChatSession, sorted: seq<ChatSession>): (r: seq<ChatSession>)
    ensures |r| == |sorted| + 1
    ensures multiset(r) == multiset(sorted) + multiset{x}
  {
    if sorted == [] then [x]
    else if sorted[0].lastUpdated >= x.lastUpdated then
      assert sorted == [sorted[0]] + sorted[1..];
      [sorted[0]] + Insert(x, sorted[1..])
    else [x] + sorted
  }

  lemma {:induction false} InsertSorted(x: ChatSession, sorted: seq<ChatSession>)
    requires NewestFirst(sorted)
    ensures NewestFirst(Insert(x, sorted))
  {
    if sorted != [] && sorted[0].lastUpdated >= x.lastUpdated {
      InsertSorted(x, sorted[1..]);
      var r := Insert(x, sorted);
      forall i, j | 0 <= i < j < |r| ensures r[i].lastUpdated >= r[j].lastUpdated {
        if i == 0 {
          assert r[j] in multiset(Insert(x, sorted[1..]));
          assert r[j] == x || r[j] in multiset(sorted[1..]);
          if r[j] != x {
            var k :| 0 <= k < |sorted[1..]| && sorted[1..][k] == r[j];
            assert sorted[k + 1] == r[j];
          }
        }
      }
    }
  }

  /** `chats.sort((a, b) => b.lastUpdated - a.lastUpdated)`, a stable sort. */
  function SortByRecency(chats: seq<ChatSession>): seq<ChatSession>
  {
    if chats == [] then []
    else Insert(chats[|chats| - 1], SortByRecency(chats[..|chats| - 1]))
  }

  /** The sort is a permutation: it keeps every entry, as often as it occurs. */
  lemma {:induction false} SortByRecencyPermutes(chats: seq<ChatSession>)
    ensures |SortByRecency(chats)| == |chats|
    ensures multiset(SortByRecency(chats)) == multiset(chats)
  {
    if chats != [] {
      SortByRecencyPermutes(chats[..|chats| - 1]);
      assert chats == chats[..|chats| - 1] + [chats[|chats| - 1]];
    }
  }

  /** The sort's result is ordered newest first. */
  lemma {:induction false} SortByRecencySorted(chats: seq<ChatSession>)
    ensures NewestFirst(SortByRecency(chats))
  {
    if chats != [] {
      SortByRecencySorted(chats[..|chats| - 1]);
      InsertSorted(chats[|chats| - 1], SortByRecency(chats[..|chats| - 1]));
    }
  }

  /** Sorting changes no count of entries with an id. */
  lemma {:induction false} CountIdOfPermutation(a: seq<ChatSession>, b: seq<ChatSession>, id: string)
    requires multiset(a) == multiset(b)
    ensures CountId(a, id) == CountId(b, id)
    decreases |a|
  {
    if a != [] {
      var x := a[0];
      assert x in multiset(a);
      var k :| 0 <= k < |b| && b[k] == x;
      var rest := b[..k] + b[k + 1..];
      MultisetWithout(b, k);
      assert a == [x] + a[1..];
      assert multiset(a[1..]) + multiset{x} == multiset(b);
      MultisetCancel(multiset(a[1..]), multiset(rest), x);
      CountIdOfPermutation(a[1..], rest, id);
      CountIdWithout(b, k, id);
    }
  }

  lemma MultisetCancel(p: multiset<ChatSession>, q: multiset<ChatSession>, x: ChatSession)
    requires p + multiset{x} == q + multiset{x}
    ensures p == q
  {
    forall y ensures p[y] == q[y] {
      assert (p + multiset{x})[y] == p[y] + multiset{x}[y];
      assert (q + multiset{x})[y] == q[y] + multiset{x}[y];
    }
  }

  lemma MultisetWithout(b: seq<ChatSession>, k: nat)
    requires k < |b|
    ensures multiset(b[..k] + b[k + 1..]) + multiset{b[k]} == multiset(b)
  {
    assert b == b[..k] + [b[k]] + b[k + 1..];
  }

  lemma CountIdWithout(b: seq<ChatSession>, k: nat, id: string)
    requires k < |b|
    ensures CountId(b, id) == CountId(b[..k] + b[k + 1..], id) + (if b[k].id == id then 1 else 0)
  {
    assert b == (b[..k] + [b[k]]) + b[k + 1..];
    CountIdAppend(b[..k] + [b[k]], b[k + 1..], id);
    CountIdAppend(b[..k], [b[k]], id);
    CountIdAppend(b[..k], b[k + 1..], id);
  }

  /** A session saved with both stamps `now`, into a list with at most one entry for its
      id, is the one entry for that id afterwards, and what a lookup finds. */
  lemma SaveThenFind(chats: seq<ChatSession>, session: ChatSession, now: int)
    requires session.lastUpdated == now && session.createdAt == now
    requires CountId(chats, session.id) <= 1
    ensures CountId(SortByRecency(Upsert(chats, session, now)), session.id) == 1
    ensures FindChat(SortByRecency(Upsert(chats, session, now)), session.id) == Some(session)
  {
    var upserted := Upsert(chats, session, now);
    var sorted := SortByRecency(upserted);
    SortByRecencyPermutes(upserted);
    UpsertKeepsOneEntry(chats, session, now);
    CountIdOfPermutation(sorted, upserted, session.id);
    assert session in multiset(upserted) by {
      assert session.(lastUpdated := now) == session;
      assert session.(lastUpdated := now, createdAt := now) == session;
      var index := FindIndex(chats, session.id);
      if index >= 0 {
        assert upserted[index] == session;
      } else {
        assert upserted[|chats|] == session;
      }
    }
    assert session in multiset(sorted);
    var j :| 0 <= j < |sorted| && sorted[j] == session;
    CountIdOne(sorted, session.id, j, FindIndex(sorted, session.id));
  }

  /** A new session: titled "New Conversation", with no messages and the initial state. */
  function NewChat(id: string, now: int): (s: ChatSession)
    ensures s.id == id && s.title == "New Conversation" && s.messages == []
    ensures s.state == InitialState && s.lastUpdated == now && s.createdAt == now
  {
    ChatSession(id, "New Conversation", [], InitialState, now, now)
  }

  /** `generateTitle`: a message of at most 30 characters is kept; a longer one is cut to
      its first 30 characters followed by "...". */
  function GenerateTitle(message: string): (t: string)
    ensures |message| <= 30 ==> t == message
    ensures |message| > 30 ==> |t| == 33 && t[..30] == message[..30] && t[30..] == "..."
  {
    if |message| > 30 then message[..30] + "..." else message
  }

  // ---------------------------------------------------------------------------
  // The store

  /** The stored list; `None` is a missing key or text that does not parse. */
  class ChatStore {
    var stored: Option<seq<ChatSession>>

    constructor (stored: Option<seq<ChatSession>>)
      ensures this.stored == stored
    {
      this.stored := stored;
    }

    /** `getAllChats`: the stored list, or `[]`. */
    function AllChats(): (r: seq<ChatSession>)
      reads this
      ensures stored.Some? ==> r == stored.value
      ensures stored.None? ==> r == []
    {
      if stored.Some? then stored.value else []
    }

    /** `getChat`: the first session with the id. */
    function GetChat(id: string): (r: Option<ChatSession>)
      reads this
      ensures r == FindChat(AllChats(), id)
    {
      FindChat(AllChats(), id)
    }

    /** `saveChat`: the upserted list, newest first, is written back. */
    method SaveChat(session: ChatSession, now: int)
      modifies this
      ensures stored == Some(SortByRecency(Upsert(old(AllChats()), session, now)))
      ensures NewestFirst(AllChats())
      ensures CountId(old(AllChats()), session.id) <= 1 ==> CountId(AllChats(), session.id) == 1
    {
      var chats := AllChats();
      var index := FindIndex(chats, session.id);
      if index >= 0 {
        chats := chats[index := session.(lastUpdated := now)];
      } else {
        chats := chats + [session.(lastUpdated := now, createdAt := now)];
      }
      var upserted := chats;
      chats := SortByRecency(chats);
      SortByRecencySorted(upserted);
      SortByRecencyPermutes(upserted);
      if CountId(AllChats(), session.id) <= 1 {
        UpsertKeepsOneEntry(AllChats(), session, now);
        CountIdOfPermutation(chats, upserted, session.id);
      }
      stored := Some(chats);
    }

    /** `deleteChat`: every session with the id goes, the others keep their order. */
    method DeleteChat(id: string)
      modifies this
      ensures stored == Some(WithoutChat(old(AllChats()), id))
    {
      stored := Some(WithoutChat(AllChats(), id));
    }
  }

  /** `chats.filter(c => c.id !== id)`. */
  function WithoutChat(chats: seq<ChatSession>, id: string): (r: seq<ChatSession>)
    ensures |r| <= |chats|
    ensures forall c :: c in r <==> c in chats && c.id != id
  {
    if chats == [] then [] else (if chats[0].id == id then [] else [chats[0]]) + WithoutChat(chats[1..], id)
  }

  /** Deleting keeps the order of the rest: it distributes over concatenation. */
  lemma {:induction false} WithoutChatAppend(a: seq<ChatSession>, b: seq<ChatSession>, id: string)
    ensures WithoutChat(a + b, id) == WithoutChat(a, id) + WithoutChat(b, id)
  {
    if a == [] {
      assert a + b == b;
    } else {
      assert (a + b)[1..] == a[1..] + b;
      WithoutChatAppend(a[1..], b, id);
    }
  }
}
