/** The shared inbox: one record per conversation, a per-company index of
    conversations newest first, and a per-conversation message log, as the
    key-value store holds them; an incoming message and the update actions
    (mark read, open, close, set unread) change them. */
module Inbox {
  import opened Base

  /** Most conversations a company's index keeps. */
  const MaxConvs := 200
  /** Most messages a conversation's log keeps. */
  const MaxMsgs := 500

  datatype Channel = WhatsApp | Web
  datatype Status = Open | Closed
  datatype Direction = In | Out

  datatype Conversation = Conversation(
    convKey: string,
    companyId: string,
    channel: Channel,
    externalId: string,
    lastMessage: string,
    lastAt: int,
    unreadCount: nat,
    status: Status)

  datatype Message = Message(id: string, convKey: string, direction: Direction, text: string, ts: int)

  function ChannelName(ch: Channel): string
  {
    match ch
    case WhatsApp => "whatsapp"
    case Web => "web"
  }

  /** The stable key of a conversation: its channel and external id. */
  function ConvKey(ch: Channel, externalId: string): string
  {
    ChannelName(ch) + ":" + externalId
  }

  /** Distinct channels or external ids never share a conversation key. */
  lemma ConvKeyInjective(c1: Channel, e1: string, c2: Channel, e2: string)
    ensures ConvKey(c1, e1) == ConvKey(c2, e2) <==> c1 == c2 && e1 == e2
  {
    if ConvKey(c1, e1) == ConvKey(c2, e2) {
      assert ConvKey(c1, e1)[1] == ConvKey(c2, e2)[1];
      var prefix := ChannelName(c1) + ":";
      assert c1 == c2;
      assert e1 == ConvKey(c1, e1)[|prefix|..];
      assert e2 == ConvKey(c2, e2)[|prefix|..];
    }
  }

  // ---- Ordering of the index ----

  /** Newest first: `lastAt` never increases along the list. */
  predicate NewestFirst(s: seq<Conversation>)
  {
    forall i, j :: 0 <= i < j < |s| ==> s[i].lastAt >= s[j].lastAt
  }

  /** Puts `c` after every entry at least as recent, so that entries with
      equal `lastAt` keep their order. */
  function InsertByRecency(s: seq<Conversation>, c: Conversation): seq<Conversation>
  {
    if s == [] then [c]
    else if s[0].lastAt >= c.lastAt then [s[0]] + InsertByRecency(s[1..], c)
    else [c] + s
  }

  /** The stored index as it is listed: stably sorted by `lastAt`, newest
      first. */
  function ByRecency(s: seq<Conversation>): seq<Conversation>
  {
    if s == [] then [] else InsertByRecency(ByRecency(s[..|s| - 1]), s[|s| - 1])
  }

  /** The entries of `s` whose `lastAt` is `t`, in order. */
  function WithLastAt(s: seq<Conversation>, t: int): seq<Conversation>
  {
    if s == [] then []
    else (if s[0].lastAt == t then [s[0]] else []) + WithLastAt(s[1..], t)
  }

  /** An entry at least as recent as all of a newest-first list can go in
      front of it. */
  lemma PrependNewest(x: Conversation, s: seq<Conversation>)
    requires NewestFirst(s)
    requires forall j :: 0 <= j < |s| ==> x.lastAt >= s[j].lastAt
    ensures NewestFirst([x] + s)
  {
    forall i, j | 0 <= i < j < |[x] + s|
      ensures ([x] + s)[i].lastAt >= ([x] + s)[j].lastAt
    {
      if i > 0 {
        assert ([x] + s)[i] == s[i - 1];
      }
      assert ([x] + s)[j] == s[j - 1];
    }
  }

  /** Inserting keeps a list newest first. */
  lemma {:induction false} InsertByRecencySorted(s: seq<Conversation>, c: Conversation)
    requires NewestFirst(s)
    ensures NewestFirst(InsertByRecency(s, c))
  {
    if s == [] {
    } else if s[0].lastAt >= c.lastAt {
      var rest := InsertByRecency(s[1..], c);
      InsertByRecencySorted(s[1..], c);
      forall j | 0 <= j < |s[1..]|
        ensures s[1..][j].lastAt <= s[0].lastAt
      {
        assert s[1..][j] == s[j + 1];
      }
      InsertBelow(s[1..], c, s[0].lastAt);
      PrependNewest(s[0], rest);
    } else {
      PrependNewest(c, s);
    }
  }

  /** Inserting an entry no more recent than `b` into a list no more
      recent than `b` gives such a list. */
  lemma {:induction false} InsertBelow(s: seq<Conversation>, c: Conversation, b: int)
    requires forall j :: 0 <= j < |s| ==> s[j].lastAt <= b
    requires c.lastAt <= b
    ensures forall j :: 0 <= j < |InsertByRecency(s, c)| ==> InsertByRecency(s, c)[j].lastAt <= b
  {
    if s == [] {
    } else if s[0].lastAt >= c.lastAt {
      var rest := InsertByRecency(s[1..], c);
      forall j | 0 <= j < |s[1..]|
        ensures s[1..][j].lastAt <= b
      {
        assert s[1..][j] == s[j + 1];
      }
      InsertBelow(s[1..], c, b);
      forall j | 0 <= j < |[s[0]] + rest|
        ensures ([s[0]] + rest)[j].lastAt <= b
      {
        if j > 0 {
          assert ([s[0]] + rest)[j] == rest[j - 1];
        }
      }
    } else {
      forall j | 0 <= j < |[c] + s|
        ensures ([c] + s)[j].lastAt <= b
      {
        if j > 0 {
          assert ([c] + s)[j] == s[j - 1];
        }
      }
    }
  }

  /** Inserting adds exactly the one entry. */
  lemma {:induction false} InsertByRecencyPerm(s: seq<Conversation>, c: Conversation)
    ensures multiset(InsertByRecency(s, c)) == multiset(s) + multiset{c}
  {
    if s != [] && s[0].lastAt >= c.lastAt {
      InsertByRecencyPerm(s[1..], c);
      assert s == [s[0]] + s[1..];
    }
  }

  /** Listing sorts: the result is newest first and a permutation of the
      stored index. */
  lemma ByRecencySorted(s: seq<Conversation>)
    ensures NewestFirst(ByRecency(s))
    ensures multiset(ByRecency(s)) == multiset(s)
  {
    ByRecencyNewestFirst(s);
    ByRecencyPerm(s);
  }

  lemma {:induction false} ByRecencyNewestFirst(s: seq<Conversation>)
    ensures NewestFirst(ByRecency(s))
  {
    if s != [] {
      ByRecencyNewestFirst(s[..|s| - 1]);
      InsertByRecencySorted(ByRecency(s[..|s| - 1]), s[|s| - 1]);
    }
  }

  lemma {:induction false} ByRecencyPerm(s: seq<Conversation>)
    ensures multiset(ByRecency(s)) == multiset(s)
  {
    if s != [] {
      ByRecencyPerm(s[..|s| - 1]);
      InsertByRecencyPerm(ByRecency(s[..|s| - 1]), s[|s| - 1]);
      assert s == s[..|s| - 1] + [s[|s| - 1]];
    }
  }

  lemma {:induction false} WithLastAtAppend(a: seq<Conversation>, b: seq<Conversation>, t: int)
    ensures WithLastAt(a + b, t) == WithLastAt(a, t) + WithLastAt(b, t)
  {
    if a == [] {
      assert a + b == b;
    } else {
      var head := if a[0].lastAt == t then [a[0]] else [];
      assert (a + b)[0] == a[0];
      assert (a + b)[1..] == a[1..] + b;
      assert WithLastAt(a + b, t) == head + WithLastAt(a[1..] + b, t);
      WithLastAtAppend(a[1..], b, t);
      assert WithLastAt(a, t) == head + WithLastAt(a[1..], t);
    }
  }

  /** A newest-first list that starts older than `t` has no entry at `t`. */
  lemma {:induction false} OlderHaveNone(s: seq<Conversation>, t: int)
    requires NewestFirst(s) && s != [] && s[0].lastAt < t
    ensures WithLastAt(s, t) == []
  {
    if |s| > 1 {
      OlderHaveNone(s[1..], t);
    }
  }

  lemma {:induction false} InsertByRecencyStable(s: seq<Conversation>, c: Conversation, t: int)
    requires NewestFirst(s)
    ensures WithLastAt(InsertByRecency(s, c), t) == WithLastAt(s, t) + (if c.lastAt == t then [c] else [])
  {
    if s == [] {
    } else if s[0].lastAt >= c.lastAt {
      InsertByRecencyStable(s[1..], c, t);
      assert ([s[0]] + InsertByRecency(s[1..], c))[1..] == InsertByRecency(s[1..], c);
    } else {
      if c.lastAt == t {
        OlderHaveNone(s, t);
      }
      assert ([c] + s)[1..] == s;
    }
  }

  /** Listing is stable: conversations with the same `lastAt` keep their
      stored order. */
  lemma {:induction false} ByRecencyStable(s: seq<Conversation>, t: int)
    ensures WithLastAt(ByRecency(s), t) == WithLastAt(s, t)
  {
    if s != [] {
      var init, last := s[..|s| - 1], s[|s| - 1];
      assert ByRecency(s) == InsertByRecency(ByRecency(init), last);
      ByRecencyStable(init, t);
      ByRecencyNewestFirst(init);
      InsertByRecencyStable(ByRecency(init), last, t);
      assert s == init + [last];
      WithLastAtAppend(init, [last], t);
      assert WithLastAt([last], t) == if last.lastAt == t then [last] else [];
    }
  }

  // ---- The index after an upsert ----

  /** The entries of `s` under another key, in order. */
  function Without(s: seq<Conversation>, key: string): (r: seq<Conversation>)
    ensures |r| <= |s|
    ensures forall c :: c in r <==> c in s && c.convKey != key
  {
    if s == [] then []
    else (if s[0].convKey == key then [] else [s[0]]) + Without(s[1..], key)
  }

  /** The index after `conv` is upserted: the listed index without its key,
      `conv` in front, cut to `MaxConvs` entries. */
  function UpsertIndex(stored: seq<Conversation>, conv: Conversation): seq<Conversation>
  {
    var list := [conv] + Without(ByRecency(stored), conv.convKey);
    list[..Min(|list|, MaxConvs)]
  }

  /** After an upsert `conv` is in front, its key appears nowhere else, the
      index holds at most `MaxConvs` entries, the rest keep their listed
      (newest-first) order, and when the index had room every other
      conversation is still there. */
  lemma UpsertIndexSpec(stored: seq<Conversation>, conv: Conversation)
    ensures var r := UpsertIndex(stored, conv);
      && 1 <= |r| <= MaxConvs && r[0] == conv
      && (forall i :: 1 <= i < |r| ==> r[i].convKey != conv.convKey)
      && NewestFirst(r[1..])
      && (|stored| < MaxConvs ==> forall c :: c in stored && c.convKey != conv.convKey ==> c in r)
  {
    UpsertIndexFront(stored, conv);
    UpsertIndexOrder(stored, conv);
    if |stored| < MaxConvs {
      UpsertIndexKeeps(stored, conv);
    }
  }

  lemma UpsertIndexFront(stored: seq<Conversation>, conv: Conversation)
    ensures var r := UpsertIndex(stored, conv);
      && 1 <= |r| <= MaxConvs && r[0] == conv
      && (forall i :: 1 <= i < |r| ==> r[i].convKey != conv.convKey)
  {
    var r := UpsertIndex(stored, conv);
    var rest := Without(ByRecency(stored), conv.convKey);
    forall i | 1 <= i < |r|
      ensures r[i].convKey != conv.convKey
    {
      assert r[i] == rest[i - 1];
      assert r[i] in rest;
    }
  }

  lemma UpsertIndexOrder(stored: seq<Conversation>, conv: Conversation)
    ensures var r := UpsertIndex(stored, conv);
      |r| >= 1 && NewestFirst(r[1..])
  {
    ByRecencySorted(stored);
    FrontOrder(ByRecency(stored), conv);
  }

  /** Below the new front entry, a cut of a newest-first index without its
      key is still newest first. */
  lemma FrontOrder(sorted: seq<Conversation>, conv: Conversation)
    requires NewestFirst(sorted)
    ensures var list := [conv] + Without(sorted, conv.convKey);
      NewestFirst(list[..Min(|list|, MaxConvs)][1..])
  {
    var rest := Without(sorted, conv.convKey);
    var list := [conv] + rest;
    var k := Min(|list|, MaxConvs);
    WithoutSorted(sorted, conv.convKey);
    assert list[..k][1..] == rest[..k - 1];
    NewestFirstPrefix(rest, k - 1);
  }

  lemma NewestFirstPrefix(s: seq<Conversation>, k: nat)
    requires NewestFirst(s) && k <= |s|
    ensures NewestFirst(s[..k])
  {
    forall i, j | 0 <= i < j < k
      ensures s[..k][i].lastAt >= s[..k][j].lastAt
    {
      assert s[..k][i] == s[i] && s[..k][j] == s[j];
    }
  }

  lemma UpsertIndexKeeps(stored: seq<Conversation>, conv: Conversation)
    requires |stored| < MaxConvs
    ensures forall c :: c in stored && c.convKey != conv.convKey ==> c in UpsertIndex(stored, conv)
  {
    var r := UpsertIndex(stored, conv);
    var sorted := ByRecency(stored);
    var rest := Without(sorted, conv.convKey);
    ByRecencySorted(stored);
    assert |sorted| == |stored| by {
      assert |multiset(sorted)| == |multiset(stored)|;
    }
    assert r == [conv] + rest;
    forall c | c in stored && c.convKey != conv.convKey
      ensures c in r
    {
      assert c in multiset(sorted);
      assert c in rest;
    }
  }

  lemma {:induction false} WithoutSorted(s: seq<Conversation>, key: string)
    requires NewestFirst(s)
    ensures NewestFirst(Without(s, key))
  {
    if s != [] {
      WithoutSorted(s[1..], key);
      var rest := Without(s[1..], key);
      forall j | 0 <= j < |rest|
        ensures s[0].lastAt >= rest[j].lastAt
      {
        assert rest[j] in rest;
        var k :| 0 <= k < |s[1..]| && s[1..][k] == rest[j];
      }
    }
  }

  // ---- The message log ----

  /** The log as it is stored: its last `MaxMsgs` messages, in order. */
  function KeepTail(msgs: seq<Message>): (r: seq<Message>)
    ensures |r| == Min(|msgs|, MaxMsgs)
    ensures r == msgs[|msgs| - |r|..]
  {
    if |msgs| > MaxMsgs then msgs[|msgs| - MaxMsgs..] else msgs
  }

  /** After an append the new message is the last one, the log holds at
      most `MaxMsgs`, and a log with room loses nothing. */
  lemma {:induction false} AppendKeepsNewest(log: seq<Message>, msg: Message)
    ensures var r := KeepTail(log + [msg]);
      && 1 <= |r| <= MaxMsgs && r[|r| - 1] == msg
      && (|log| < MaxMsgs ==> r == log + [msg])
      && (|log| >= MaxMsgs ==> r == log[|log| - MaxMsgs + 1..] + [msg])
  {
    var r := KeepTail(log + [msg]);
    assert r == (log + [msg])[|log| + 1 - |r|..];
    if |log| >= MaxMsgs {
      assert (log + [msg])[|log| + 1 - MaxMsgs..] == log[|log| - MaxMsgs + 1..] + [msg];
    }
  }

  // ---- Incoming messages ----

  /** The conversation after an incoming message: the stored one, or a new
      open one under the channel's key, with the message as its last one,
      one more unread, and open. */
  function Ingested(existing: Option<Conversation>, companyId: string, channel: Channel,
                    externalId: string, text: string, now: int): Conversation
  {
    var conv := if existing.Some? then existing.value
      else Conversation(ConvKey(channel, externalId), companyId, channel, externalId, text, now, 0, Open);
    conv.(lastMessage := text, lastAt := now, unreadCount := conv.unreadCount + 1, status := Open)
  }

  /** An incoming message opens the conversation, makes it the latest, and
      adds exactly one unread; a conversation seen for the first time gets
      the channel's key and one unread; nothing else about a stored one
      changes. */
  lemma IngestedSpec(existing: Option<Conversation>, companyId: string, channel: Channel,
                     externalId: string, text: string, now: int)
    ensures var c := Ingested(existing, companyId, channel, externalId, text, now);
      && c.status == Open && c.lastMessage == text && c.lastAt == now
      && (existing.None? ==>
            c.unreadCount == 1 && c.convKey == ConvKey(channel, externalId)
            && c.companyId == companyId && c.channel == channel && c.externalId == externalId)
      && (existing.Some? ==>
            c.unreadCount == existing.value.unreadCount + 1
            && c == existing.value.(lastMessage := text, lastAt := now,
                                    unreadCount := c.unreadCount, status := Open))
  {
  }

  // ---- Update actions ----

  /** A JavaScript number: finite (only its real value matters) or not. */
  datatype Number = Finite(x: real) | NotFinite

  /** The request body after coercion: empty strings for a missing or falsy
      key or action, the unread count as `Number` makes it. */
  datatype UpdateBody = UpdateBody(convKey: string, action: string, unreadCount: Number)

  datatype InboxError = BadRequest | NotFound

  /** The action applied to a conversation, or `None` when the action is
      unknown or the unread count is not a number from 0 to 9999. */
  function Acted(conv: Conversation, action: string, n: Number): Option<Conversation>
  {
    if action == "mark_read" then Some(conv.(unreadCount := 0))
    else if action == "open" then Some(conv.(status := Open))
    else if action == "close" then Some(conv.(status := Closed))
    else if action == "set_unread" then
      if n.NotFinite? || n.x < 0.0 || n.x > 9999.0 then None
      else Some(conv.(unreadCount := n.x.Floor))
    else None
  }

  /** Exactly the four actions are accepted, set_unread only for a finite
      count in 0..9999, which it rounds down; each action touches its one
      field only. */
  lemma ActedSpec(conv: Conversation, action: string, n: Number)
    ensures Acted(conv, action, n).Some? <==>
      action in {"mark_read", "open", "close"}
      || (action == "set_unread" && n.Finite? && 0.0 <= n.x <= 9999.0)
    ensures action == "mark_read" ==> Acted(conv, action, n) == Some(conv.(unreadCount := 0))
    ensures action == "open" ==> Acted(conv, action, n) == Some(conv.(status := Open))
    ensures action == "close" ==> Acted(conv, action, n) == Some(conv.(status := Closed))
    ensures action == "set_unread" && Acted(conv, action, n).Some? ==>
      var c := Acted(conv, action, n).value;
      && c == conv.(unreadCount := c.unreadCount)
      && c.unreadCount <= 9999
      && c.unreadCount as real <= n.x < c.unreadCount as real + 1.0
  {
  }

  /** Repeating an accepted action changes nothing more. */
  lemma ActedIdempotent(conv: Conversation, action: string, n: Number)
    requires Acted(conv, action, n).Some?
    ensures Acted(Acted(conv, action, n).value, action, n) == Acted(conv, action, n)
  {
  }

  // ---- The store ----

  class InboxStore {
    /** Conversation records by company and conversation key. */
    var convs: map<(string, string), Conversation>
    /** Each company's conversation index. */
    var lists: map<string, seq<Conversation>>
    /** Message logs by company and conversation key. */
    var msgs: map<(string, string), seq<Message>>

    constructor (convs: map<(string, string), Conversation>, lists: map<string, seq<Conversation>>,
                 msgs: map<(string, string), seq<Message>>)
      ensures this.convs == convs && this.lists == lists && this.msgs == msgs
    {
      this.convs := convs;
      this.lists := lists;
      this.msgs := msgs;
    }

    /** Records sit under their own company and key, and indexes and logs
        keep within their caps. */
    predicate Valid()
      reads this
    {
      && (forall k :: k in convs ==> convs[k].companyId == k.0 && convs[k].convKey == k.1)
      && (forall co :: co in lists ==> |lists[co]| <= MaxConvs)
      && (forall k :: k in msgs ==> |msgs[k]| <= MaxMsgs)
    }

    function Lookup(companyId: string, convKey: string): Option<Conversation>
      reads this
    {
      if (companyId, convKey) in convs then Some(convs[(companyId, convKey)]) else None
    }

    function StoredIndex(companyId: string): seq<Conversation>
      reads this
    {
      if companyId in lists then lists[companyId] else []
    }

    function Log(companyId: string, convKey: string): seq<Message>
      reads this
    {
      if (companyId, convKey) in msgs then msgs[(companyId, convKey)] else []
    }

    /** The company's index, newest first. */
    method ListConversations(companyId: string) returns (list: seq<Conversation>)
      ensures list == ByRecency(StoredIndex(companyId))
    {
      list := StoredIndex(companyId);
      list := ByRecency(list);
    }

    method UpsertConversationIndex(conv: Conversation)
      modifies this
      ensures lists == old(lists)[conv.companyId := UpsertIndex(old(StoredIndex(conv.companyId)), conv)]
      ensures convs == old(convs) && msgs == old(msgs)
    {
      var list := ListConversations(conv.companyId);
      var filtered := [conv] + Without(list, conv.convKey);
      lists := lists[conv.companyId := filtered[..Min(|filtered|, MaxConvs)]];
    }

    /** Writes the record under its own company and key, then upserts it
        into the company's index. */
    method UpsertConversation(conv: Conversation)
      modifies this
      ensures convs == old(convs)[(conv.companyId, conv.convKey) := conv]
      ensures lists == old(lists)[conv.companyId := UpsertIndex(old(StoredIndex(conv.companyId)), conv)]
      ensures msgs == old(msgs)
      ensures old(Valid()) ==> Valid()
    {
      convs := convs[(conv.companyId, conv.convKey) := conv];
      UpsertConversationIndex(conv);
      UpsertIndexSpec(old(StoredIndex(conv.companyId)), conv);
    }

    method AppendMessage(companyId: string, convKey: string, msg: Message)
      modifies this
      ensures msgs == old(msgs)[(companyId, convKey) := KeepTail(old(Log(companyId, convKey)) + [msg])]
      ensures convs == old(convs) && lists == old(lists)
      ensures old(Valid()) ==> Valid()
    {
      var log := Log(companyId, convKey);
      log := log + [msg];
      var tail := if |log| > MaxMsgs then log[|log| - MaxMsgs..] else log;
      assert tail == KeepTail(log) && |tail| <= MaxMsgs;
      ghost var before := msgs;
      msgs := msgs[(companyId, convKey) := tail];
      assert forall k :: k in msgs ==> k == (companyId, convKey) || (k in before && msgs[k] == before[k]);
    }

    /** An incoming message: logged under the channel's key, then the
        conversation (found or new) is updated and upserted. `id` and `now`
        stand for the generated message id and the clock. */
    method Ingest(companyId: string, channel: Channel, externalId: string, text: string, id: string, now: int)
      returns (convKey: string, messageId: string)
      modifies this
      ensures convKey == ConvKey(channel, externalId) && messageId == id
      ensures var c := Ingested(old(Lookup(companyId, convKey)), companyId, channel, externalId, text, now);
        && convs == old(convs)[(c.companyId, c.convKey) := c]
        && lists == old(lists)[c.companyId := UpsertIndex(old(StoredIndex(c.companyId)), c)]
        && msgs == old(msgs)[(companyId, convKey) :=
                             KeepTail(old(Log(companyId, convKey)) + [Message(id, convKey, In, text, now)])]
        && (old(Valid()) ==> c.companyId == companyId && c.convKey == convKey)
      ensures old(Valid()) ==> Valid()
    {
      convKey := ConvKey(channel, externalId);
      var conv := if (companyId, convKey) in convs then convs[(companyId, convKey)]
        else Conversation(convKey, companyId, channel, externalId, text, now, 0, Open);
      var msg := Message(id, convKey, In, text, now);
      AppendMessage(companyId, convKey, msg);
      conv := conv.(lastMessage := msg.text, lastAt := msg.ts);
      conv := conv.(unreadCount := conv.unreadCount + 1);
      if conv.status != Open {
        conv := conv.(status := Open);
      }
      assert conv == Ingested(Lookup(companyId, convKey), companyId, channel, externalId, text, now);
      UpsertConversation(conv);
      messageId := msg.id;
    }

    /** The update handler: checks the request, applies the action and
        upserts the conversation. */
    method Update(companyId: string, body: UpdateBody) returns (r: Result<(), InboxError>)
      modifies this
      ensures body.convKey == "" || body.action == "" ==> r == Err(BadRequest)
      ensures body.convKey != "" && body.action != "" && (companyId, body.convKey) !in old(convs) ==>
        r == Err(NotFound)
      ensures r.Err? ==> convs == old(convs) && lists == old(lists) && msgs == old(msgs)
      ensures body.convKey != "" && body.action != "" && (companyId, body.convKey) in old(convs) ==>
        var acted := Acted(old(convs)[(companyId, body.convKey)], body.action, body.unreadCount);
        && (acted.None? <==> r == Err(BadRequest))
        && (acted.Some? ==>
              && r == Ok(())
              && convs == old(convs)[(acted.value.companyId, acted.value.convKey) := acted.value]
              && lists == old(lists)[acted.value.companyId :=
                                     UpsertIndex(old(StoredIndex(acted.value.companyId)), acted.value)]
              && msgs == old(msgs))
      ensures old(Valid()) ==> Valid()
    {
      if body.convKey == "" || body.action == "" {
        return Err(BadRequest);
      }
      if (companyId, body.convKey) !in convs {
        return Err(NotFound);
      }
      var conv := convs[(companyId, body.convKey)];
      if body.action == "mark_read" {
        conv := conv.(unreadCount := 0);
      } else if body.action == "open" {
        conv := conv.(status := Open);
      } else if body.action == "close" {
        conv := conv.(status := Closed);
      } else if body.action == "set_unread" {
        var n := body.unreadCount;
        if n.NotFinite? || n.x < 0.0 || n.x > 9999.0 {
          return Err(BadRequest);
        }
        conv := conv.(unreadCount := n.x.Floor);
      } else {
        return Err(BadRequest);
      }
      UpsertConversation(conv);
      r := Ok(());
    }
  }
}
