/** The in-memory conversation log: per session, the finalized turns in the
    order they were saved. Keys are kept in the order a JavaScript `Map`
    enumerates them (first insertion since the last deletion). The clock and
    the id generator are parameters. */
module ConversationLog {
  import opened Base

  /** A turn as the pipeline hands it over, before it is stamped. */
  datatype Draft = Draft(
    sessionId: string, speaker: string,
    originalText: string, originalLang: string,
    translatedText: Option<string>, translatedLang: string,
    audioBase64: Option<string>)

  /** A stored entry: the draft plus a generated id and a timestamp in milliseconds. */
  datatype Message = Message(
    id: string, sessionId: string, speaker: string,
    originalText: string, originalLang: string,
    translatedText: Option<string>, translatedLang: string,
    audioBase64: Option<string>, timestamp: int)

  predicate NoDuplicates(s: seq<string>)
  {
    forall i, j :: 0 <= i < j < |s| ==> s[i] != s[j]
  }

  /** `order` enumerates the keys of `messages`, each once. */
  predicate Indexed(raw: RawStore)
  {
    && NoDuplicates(raw.order)
    && (forall k :: k in raw.messages ==> k in raw.order)
    && (forall k :: k in raw.order ==> k in raw.messages)
  }

  datatype RawStore = RawStore(messages: map<string, seq<Message>>, order: seq<string>)

  /** Every store the operations below can produce. */
  type Store = raw: RawStore | Indexed(raw) witness RawStore(map[], [])

  const Empty: Store := RawStore(map[], [])

  datatype Saved = Saved(store: Store, message: Message)

  function Stamp(d: Draft, id: string, now: int): Message
  {
    Message(id, d.sessionId, d.speaker, d.originalText, d.originalLang,
            d.translatedText, d.translatedLang, d.audioBase64, now)
  }

  /** The fields of a message that came from its draft. */
  function Unstamp(m: Message): Draft
  {
    Draft(m.sessionId, m.speaker, m.originalText, m.originalLang,
          m.translatedText, m.translatedLang, m.audioBase64)
  }

  /** The session's messages, empty for a session never saved to. */
  function History(db: Store, sessionId: string): seq<Message>
  {
    if sessionId in db.messages then db.messages[sessionId] else []
  }

  /** Appends one stamped entry to the end of its session. */
  function SaveMessage(db: Store, draft: Draft, id: string, now: int): (r: Saved)
    // the entry keeps every draft field and gets the given id and time
    ensures Unstamp(r.message) == draft && r.message.id == id && r.message.timestamp == now
    // exactly one entry is appended to that session
    ensures History(r.store, draft.sessionId) == History(db, draft.sessionId) + [r.message]
    // every other session is untouched
    ensures forall k :: k != draft.sessionId ==> (k in r.store.messages <==> k in db.messages)
    ensures forall k :: k != draft.sessionId && k in db.messages ==> r.store.messages[k] == db.messages[k]
    // a new session key goes last in enumeration order
    ensures draft.sessionId in db.messages ==> r.store.order == db.order
    ensures draft.sessionId !in db.messages ==> r.store.order == db.order + [draft.sessionId]
  {
    var m := Stamp(draft, id, now);
    var sid := draft.sessionId;
    var order := if sid in db.messages then db.order else db.order + [sid];
    var raw := RawStore(db.messages[sid := History(db, sid) + [m]], order);
    assert Indexed(raw);
    Saved(raw, m)
  }

  /** Reads a session, optionally only entries strictly newer than `since`. */
  function GetMessages(db: Store, sessionId: string, since: Option<int>): (r: seq<Message>)
    ensures since.None? ==> r == History(db, sessionId)
    ensures since.Some? ==> IsSubsequence(r, History(db, sessionId))
    ensures since.Some? ==> forall m :: m in r <==> m in History(db, sessionId) && m.timestamp > since.value
    ensures since.Some? ==> forall m :: multiset(r)[m] == if m.timestamp > since.value then multiset(History(db, sessionId))[m] else 0
    ensures sessionId !in db.messages ==> r == []
  {
    match since
    case None => History(db, sessionId)
    case Some(t) =>
      NewerThanCounts(History(db, sessionId), t);
      NewerThan(History(db, sessionId), t)
  }

  /** `a` can be obtained from `b` by deleting entries; order is kept. */
  predicate IsSubsequence(a: seq<Message>, b: seq<Message>)
    decreases |b|
  {
    if |a| == 0 then true
    else if |b| == 0 then false
    else if a[0] == b[0] then IsSubsequence(a[1..], b[1..])
    else IsSubsequence(a, b[1..])
  }

  /** The entries with a timestamp strictly greater than t, in their order. */
  function NewerThan(msgs: seq<Message>, t: int): (r: seq<Message>)
    ensures IsSubsequence(r, msgs)
    ensures forall m :: m in r <==> m in msgs && m.timestamp > t
    ensures |r| <= |msgs|
  {
    if |msgs| == 0 then []
    else
      var rest := NewerThan(msgs[1..], t);
      assert forall m :: m in msgs <==> m == msgs[0] || m in msgs[1..];
      if msgs[0].timestamp > t then [msgs[0]] + rest
      else
        SubsequenceSkip(rest, msgs);
        rest
  }

  /** The filter keeps every newer entry as often as it occurs and drops
      every other one. */
  lemma {:induction false} NewerThanCounts(msgs: seq<Message>, t: int)
    ensures forall m: Message :: m.timestamp > t ==> multiset(NewerThan(msgs, t))[m] == multiset(msgs)[m]
    ensures forall m: Message :: m.timestamp <= t ==> multiset(NewerThan(msgs, t))[m] == 0
  {
    if |msgs| > 0 {
      NewerThanCounts(msgs[1..], t);
      assert msgs == [msgs[0]] + msgs[1..];
      assert multiset(msgs) == multiset{msgs[0]} + multiset(msgs[1..]);
      var rest := NewerThan(msgs[1..], t);
      if msgs[0].timestamp > t {
        assert multiset(NewerThan(msgs, t)) == multiset{msgs[0]} + multiset(rest);
      } else {
        assert NewerThan(msgs, t) == rest;
      }
    }
  }

  lemma SubsequenceSkip(a: seq<Message>, b: seq<Message>)
    requires |b| > 0 && IsSubsequence(a, b[1..])
    ensures IsSubsequence(a, b)
    decreases |a| + |b|
  {
    if |a| > 0 && a[0] == b[0] {
      SubsequenceTail(a, b[1..]);
    }
  }

  lemma SubsequenceTail(a: seq<Message>, b: seq<Message>)
    requires |a| > 0 && IsSubsequence(a, b)
    ensures IsSubsequence(a[1..], b)
    decreases |a| + |b|
  {
    if a[0] != b[0] {
      SubsequenceTail(a, b[1..]);
      SubsequenceSkip(a[1..], b);
    } else {
      SubsequenceSkip(a[1..], b);
    }
  }

  /** `s` without any occurrence of x. */
  function Without(s: seq<string>, x: string): (r: seq<string>)
    ensures forall y :: y in r <==> y in s && y != x
    ensures NoDuplicates(s) ==> NoDuplicates(r)
  {
    if |s| == 0 then []
    else
      var rest := Without(s[1..], x);
      assert forall y :: y in s <==> y == s[0] || y in s[1..];
      if s[0] == x then rest
      else
        assert NoDuplicates(s) ==> s[0] !in s[1..];
        [s[0]] + rest
  }

  /** Forgets a session entirely. */
  function ClearSession(db: Store, sessionId: string): (r: Store)
    ensures sessionId !in r.messages && sessionId !in r.order
    ensures forall k :: k != sessionId ==> (k in r.messages <==> k in db.messages)
    ensures forall k :: k != sessionId && k in db.messages ==> r.messages[k] == db.messages[k]
  {
    RawStore(db.messages - {sessionId}, Without(db.order, sessionId))
  }

  /** The keys of the log in enumeration order. */
  function GetAllSessions(db: Store): (r: seq<string>)
    ensures NoDuplicates(r)
    ensures forall k :: k in r <==> k in db.messages
  {
    db.order
  }

  /** Deleting a key takes out its one position in the enumeration order
      and leaves the remaining keys in their order; deleting an absent key
      leaves the order as it was. */
  lemma ClearKeepsOrder(db: Store, sessionId: string)
    ensures forall p :: 0 <= p < |db.order| && db.order[p] == sessionId ==>
      ClearSession(db, sessionId).order == db.order[..p] + db.order[p + 1..]
    ensures sessionId !in db.order ==> ClearSession(db, sessionId).order == db.order
  {
    forall p | 0 <= p < |db.order| && db.order[p] == sessionId
      ensures Without(db.order, sessionId) == db.order[..p] + db.order[p + 1..]
    {
      WithoutAt(db.order, sessionId, p);
    }
    if sessionId !in db.order {
      WithoutAbsent(db.order, sessionId);
    }
  }

  /** In a duplicate-free sequence, removing x removes exactly its position. */
  lemma {:induction false} WithoutAt(s: seq<string>, x: string, p: nat)
    requires NoDuplicates(s) && p < |s| && s[p] == x
    ensures Without(s, x) == s[..p] + s[p + 1..]
  {
    assert s == [s[0]] + s[1..];
    if p == 0 {
      assert x !in s[1..];
      WithoutAbsent(s[1..], x);
    } else {
      assert NoDuplicates(s[1..]);
      WithoutAt(s[1..], x, p - 1);
      assert s[1..][..p - 1] == s[1..p] && s[1..][p..] == s[p + 1..];
      assert [s[0]] + s[1..p] == s[..p];
    }
  }

  /** Clearing twice is clearing once. */
  lemma ClearIdempotent(db: Store, sessionId: string)
    ensures ClearSession(ClearSession(db, sessionId), sessionId) == ClearSession(db, sessionId)
  {
    var once := ClearSession(db, sessionId);
    WithoutAbsent(once.order, sessionId);
  }

  lemma {:induction false} WithoutAbsent(s: seq<string>, x: string)
    requires x !in s
    ensures Without(s, x) == s
  {
    if |s| > 0 {
      WithoutAbsent(s[1..], x);
      assert s == [s[0]] + s[1..];
    }
  }

  /** After a clear the session reads as empty, with or without a cursor,
      and is no longer listed. */
  lemma ClearedSessionIsEmpty(db: Store, sessionId: string, since: Option<int>)
    ensures GetMessages(ClearSession(db, sessionId), sessionId, since) == []
    ensures sessionId !in GetAllSessions(ClearSession(db, sessionId))
  {
  }

  /** Saving then reading the whole session yields the old history followed
      by the new entry: the log is append-only and keeps insertion order. */
  lemma SaveThenRead(db: Store, draft: Draft, id: string, now: int)
    ensures var s := SaveMessage(db, draft, id, now);
      GetMessages(s.store, draft.sessionId, None) == GetMessages(db, draft.sessionId, None) + [s.message]
  {
  }

  /** A save stamped later than the cursor is seen by the next cursor read,
      as its last entry. */
  lemma {:induction false} CursorSeesNewSave(db: Store, draft: Draft, id: string, now: int, since: int)
    requires now > since
    ensures var s := SaveMessage(db, draft, id, now);
      GetMessages(s.store, draft.sessionId, Some(since)) == GetMessages(db, draft.sessionId, Some(since)) + [s.message]
  {
    var s := SaveMessage(db, draft, id, now);
    NewerThanAppend(History(db, draft.sessionId), s.message, since);
  }

  lemma {:induction false} NewerThanAppend(msgs: seq<Message>, m: Message, t: int)
    ensures NewerThan(msgs + [m], t) == NewerThan(msgs, t) + (if m.timestamp > t then [m] else [])
  {
    if |msgs| > 0 {
      assert (msgs + [m])[1..] == msgs[1..] + [m];
      NewerThanAppend(msgs[1..], m, t);
    } else {
      assert msgs + [m] == [m];
    }
  }

  /** Timestamps never decrease along the sequence. */
  predicate Chronological(msgs: seq<Message>)
  {
    forall i, j :: 0 <= i < j < |msgs| ==> msgs[i].timestamp <= msgs[j].timestamp
  }

  /** On a chronological history the cursor read is a suffix: everything
      from the first entry newer than the cursor onwards. */
  lemma {:induction false} CursorIsSuffix(msgs: seq<Message>, t: int)
    requires Chronological(msgs)
    ensures exists k :: 0 <= k <= |msgs| && NewerThan(msgs, t) == msgs[k..]
  {
    if |msgs| == 0 {
      assert NewerThan(msgs, t) == msgs[0..];
    } else if msgs[0].timestamp > t {
      AllNewer(msgs, t);
      assert NewerThan(msgs, t) == msgs[0..];
    } else {
      CursorIsSuffix(msgs[1..], t);
      var k :| 0 <= k <= |msgs[1..]| && NewerThan(msgs[1..], t) == msgs[1..][k..];
      assert msgs[1..][k..] == msgs[k + 1..];
    }
  }

  lemma {:induction false} AllNewer(msgs: seq<Message>, t: int)
    requires Chronological(msgs) && (|msgs| > 0 ==> msgs[0].timestamp > t)
    ensures NewerThan(msgs, t) == msgs
  {
    if |msgs| > 0 {
      if |msgs| > 1 {
        assert msgs[1].timestamp >= msgs[0].timestamp;
        assert Chronological(msgs[1..]) by {
          forall i, j | 0 <= i < j < |msgs[1..]| ensures msgs[1..][i].timestamp <= msgs[1..][j].timestamp {
            assert msgs[1..][i] == msgs[i + 1] && msgs[1..][j] == msgs[j + 1];
          }
        }
      }
      AllNewer(msgs[1..], t);
      assert msgs == [msgs[0]] + msgs[1..];
    }
  }

  /** A save from a clock that has not gone backwards keeps the session chronological. */
  lemma SaveKeepsChronological(db: Store, draft: Draft, id: string, now: int)
    requires Chronological(History(db, draft.sessionId))
    requires forall m :: m in History(db, draft.sessionId) ==> m.timestamp <= now
    ensures Chronological(History(SaveMessage(db, draft, id, now).store, draft.sessionId))
  {
    var h := History(db, draft.sessionId);
    var h' := History(SaveMessage(db, draft, id, now).store, draft.sessionId);
    forall i, j | 0 <= i < j < |h'| ensures h'[i].timestamp <= h'[j].timestamp {
      if j < |h| { assert h'[i] == h[i] && h'[j] == h[j]; }
      else { assert h'[i] in h; }
    }
  }

  /** The operations of the log that change it. */
  datatype Op = Save(draft: Draft, id: string, now: int) | Clear(sessionId: string)

  function Apply(db: Store, op: Op): Store
  {
    match op
    case Save(d, id, now) => SaveMessage(db, d, id, now).store
    case Clear(sid) => ClearSession(db, sid)
  }

  /** The log after a history of operations on a fresh store. */
  function Replay(ops: seq<Op>): Store
    decreases |ops|
  {
    if |ops| == 0 then Empty else Apply(Replay(ops[..|ops| - 1]), ops[|ops| - 1])
  }

  /** ops[i] saved to k and no later op cleared k. */
  predicate LiveSince(ops: seq<Op>, k: string, i: int)
  {
    && 0 <= i < |ops| && ops[i].Save? && ops[i].draft.sessionId == k
    && forall j :: i < j < |ops| ==> ops[j] != Clear(k)
  }

  /** Extending a history by one op keeps an earlier save live unless that
      op clears its session. */
  lemma LiveSinceExtend(ops: seq<Op>, k: string, i: int)
    requires 0 <= i < |ops| - 1
    ensures LiveSince(ops, k, i) <==> LiveSince(ops[..|ops| - 1], k, i) && ops[|ops| - 1] != Clear(k)
  {
    var prefix := ops[..|ops| - 1];
    assert forall j :: 0 <= j < |prefix| ==> prefix[j] == ops[j];
  }

  /** The listed sessions are exactly those saved to and not cleared since. */
  lemma {:induction false} ListedIffLive(ops: seq<Op>, k: string)
    ensures k in GetAllSessions(Replay(ops)) <==> exists i :: LiveSince(ops, k, i)
    decreases |ops|
  {
    if |ops| > 0 {
      var n := |ops| - 1;
      var prefix := ops[..n];
      ListedIffLive(prefix, k);
      var db := Replay(prefix);
      assert Replay(ops) == Apply(db, ops[n]);
      var last := ops[n];
      if last == Clear(k) {
        assert k !in Replay(ops).messages;
        assert forall i :: !LiveSince(ops, k, i);
      } else if last.Save? && last.draft.sessionId == k {
        assert k in Replay(ops).messages;
        assert LiveSince(ops, k, n);
      } else {
        assert k in Replay(ops).messages <==> k in db.messages;
        if i :| LiveSince(prefix, k, i) {
          LiveSinceExtend(ops, k, i);
          assert LiveSince(ops, k, i);
        }
        if i :| LiveSince(ops, k, i) {
          assert i != n;
          LiveSinceExtend(ops, k, i);
          assert LiveSince(prefix, k, i);
        }
      }
    }
  }
}
