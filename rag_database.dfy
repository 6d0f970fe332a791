/** The record manager of the RAG application: knowledge bases, documents, chat sessions
    and chat messages kept as hashes in the Redis key space, with the secondary index sets
    `knowledgebases`, `{kb}_documents`, `{kb}_chatsessions` and `chatsessions`, and one
    append-only list of message ids per chat session.

    Generated ids and clock readings are parameters, and so is the JSON codec used for the
    sources of a message (`stringify` writes them, `parse` reads them back and fails on
    text that is not JSON). */
module RagDatabase {
  import opened Wrappers
  import opened Text
  import opened KeyValue
  import opened Listing

  const KnowledgeBasesIndex := "knowledgebases"
  const ChatSessionsIndex := "chatsessions"

  function KnowledgeBaseKey(id: string): string { "knowledgebase_" + id }
  function DocumentKey(id: string): string { "document_" + id }
  function ChatSessionKey(id: string): string { "chatsession_" + id }
  function MessagesKey(sessionId: string): string { "chatsession_" + sessionId + "_messages" }
  function MessageKey(id: string): string { "message_" + id }
  function DocumentsIndex(kbId: string): string { kbId + "_documents" }
  function SessionsIndex(kbId: string): string { kbId + "_chatsessions" }

  datatype KnowledgeBaseInput = KnowledgeBaseInput(name: string, description: Option<string>)
  datatype DocumentInput = DocumentInput(
    filename: string, originalName: string, fileType: string, fileSize: int, knowledgeBaseId: string)
  datatype ChatSessionInput = ChatSessionInput(name: Option<string>, knowledgeBaseId: string)
  /** `sources` is absent or any JSON value the caller passed. */
  datatype ChatMessageInput = ChatMessageInput(
    content: string, role: string, chatSessionId: string, sources: Option<Value>)

  /** `s || fallback` for an optional string. */
  function OrDefault(s: Option<string>, fallback: string): string {
    if s.Some? && s.value != "" then s.value else fallback
  }

  /** The `knowledgeBaseId` a document or session hash names, when it is truthy. The source
      builds the index key from any truthy value by string interpolation; only a string is
      read here, which loses nothing because every hash this model writes stores the id as a
      string (`AddDocument`, `CreateChatSession`). */
  function KbIdOf(h: Hash): Option<string> {
    if "knowledgeBaseId" in h && Truthy(h["knowledgeBaseId"]) && h["knowledgeBaseId"].Str?
    then Some(h["knowledgeBaseId"].s) else None
  }

  // ---------------------------------------------------------------------------------
  // Which keys can coincide

  lemma DocumentKeyNotSessionKey(d: string, s: string)
    ensures DocumentKey(d) != ChatSessionKey(s)
  {
    assert DocumentKey(d)[0] == 'd' && ChatSessionKey(s)[0] == 'c';
  }

  lemma MessageKeyNotSessionKey(m: string, s: string)
    ensures MessageKey(m) != ChatSessionKey(s)
  {
    assert MessageKey(m)[0] == 'm' && ChatSessionKey(s)[0] == 'c';
  }

  lemma ChatSessionKeyInjective(a: string, b: string)
    ensures ChatSessionKey(a) == ChatSessionKey(b) ==> a == b
  {
    if ChatSessionKey(a) == ChatSessionKey(b) {
      assert a == ChatSessionKey(a)[12..];
      assert b == ChatSessionKey(b)[12..];
    }
  }

  lemma MessageKeyInjective(a: string, b: string)
    ensures MessageKey(a) == MessageKey(b) ==> a == b
  {
    if MessageKey(a) == MessageKey(b) {
      assert a == MessageKey(a)[8..];
      assert b == MessageKey(b)[8..];
    }
  }

  /** The message list of session `x` and the hash of session `s` share a key only when
      `s` is `x` followed by `_messages`. */
  lemma MessagesKeyNotSessionKey(x: string, s: string)
    ensures MessagesKey(x) == ChatSessionKey(s) ==> EndsWith(s, "_messages")
  {
    if MessagesKey(x) == ChatSessionKey(s) {
      assert s == ChatSessionKey(s)[12..];
      assert MessagesKey(x)[12..] == x + "_messages";
      assert s[|s| - 9..] == (x + "_messages")[|x|..];
    }
  }

  lemma SessionsIndexNotDocumentsIndex(id: string)
    ensures !EndsWith(SessionsIndex(id), "_documents")
  {
    var k := SessionsIndex(id);
    assert k[|k| - 2] == 'n';
  }

  // ---------------------------------------------------------------------------------
  // Knowledge bases

  method CreateKnowledgeBase(db: Store, input: KnowledgeBaseInput, id: string, now: int)
    returns (kb: Hash)
    modifies db
    ensures kb.Keys == {"id", "name", "description", "createdAt", "updatedAt"}
    ensures kb["id"] == Str(id) && kb["name"] == Str(input.name)
    ensures kb["description"] == Str(OrDefault(input.description, ""))
    ensures kb["createdAt"] == kb["updatedAt"] == Int(now)
    ensures db.hashes == HSetOn(old(db.hashes), KnowledgeBaseKey(id), kb)
    ensures db.sets == SAdded(old(db.sets), KnowledgeBasesIndex, id)
    ensures db.lists == old(db.lists) && db.strings == old(db.strings) && db.expiries == old(db.expiries)
    ensures GetKnowledgeBase(db, id) == Some(old(db.Fields(KnowledgeBaseKey(id))) + kb)
  {
    kb := map["id" := Str(id), "name" := Str(input.name),
              "description" := Str(OrDefault(input.description, "")),
              "createdAt" := Int(now), "updatedAt" := Int(now)];
    db.HSet(KnowledgeBaseKey(id), kb);
    db.SAdd(KnowledgeBasesIndex, id);
  }

  function GetKnowledgeBase(db: Store, id: string): (r: Option<Hash>)
    reads db
    ensures r.None? <==> db.Fields(KnowledgeBaseKey(id)) == map[]
    ensures r.Some? ==> r.value == db.Fields(KnowledgeBaseKey(id))
  {
    db.HGetAll(KnowledgeBaseKey(id))
  }

  /** Throws when the knowledge base is absent; otherwise the new fields are merged over the
      stored ones and `updatedAt` is refreshed. */
  method UpdateKnowledgeBase(db: Store, id: string, data: Hash, now: int) returns (r: Result<Hash>)
    modifies db
    ensures old(GetKnowledgeBase(db, id)).None? ==>
      r == Err("Knowledge base not found") && db.hashes == old(db.hashes)
    ensures old(GetKnowledgeBase(db, id)).Some? ==>
      && r == Ok(old(db.hashes[KnowledgeBaseKey(id)]) + data + map["updatedAt" := Int(now)])
      && db.hashes == old(db.hashes)[KnowledgeBaseKey(id) := r.value]
    ensures db.sets == old(db.sets) && db.lists == old(db.lists)
    ensures db.strings == old(db.strings) && db.expiries == old(db.expiries)
  {
    var kb := GetKnowledgeBase(db, id);
    if kb.None? {
      return Err("Knowledge base not found");
    }
    var updated := kb.value + data + map["updatedAt" := Int(now)];
    db.HSet(KnowledgeBaseKey(id), updated);
    assert kb.value + updated == updated;
    r := Ok(updated);
  }

  // ---------------------------------------------------------------------------------
  // Documents

  method AddDocument(db: Store, input: DocumentInput, id: string, now: int) returns (doc: Hash)
    modifies db
    ensures doc.Keys == {"id", "filename", "originalName", "fileType", "fileSize",
                         "knowledgeBaseId", "createdAt", "updatedAt"}
    ensures doc["id"] == Str(id) && doc["knowledgeBaseId"] == Str(input.knowledgeBaseId)
    ensures doc["filename"] == Str(input.filename) && doc["originalName"] == Str(input.originalName)
    ensures doc["fileType"] == Str(input.fileType) && doc["fileSize"] == Int(input.fileSize)
    ensures doc["createdAt"] == doc["updatedAt"] == Int(now)
    ensures db.hashes == HSetOn(old(db.hashes), DocumentKey(id), doc)
    ensures db.sets == SAdded(old(db.sets), DocumentsIndex(input.knowledgeBaseId), id)
    ensures db.lists == old(db.lists) && db.strings == old(db.strings) && db.expiries == old(db.expiries)
  {
    doc := map["id" := Str(id), "filename" := Str(input.filename),
               "originalName" := Str(input.originalName), "fileType" := Str(input.fileType),
               "fileSize" := Int(input.fileSize), "knowledgeBaseId" := Str(input.knowledgeBaseId),
               "createdAt" := Int(now), "updatedAt" := Int(now)];
    db.HSet(DocumentKey(id), doc);
    db.SAdd(DocumentsIndex(input.knowledgeBaseId), id);
  }

  /** Throws when the document is absent; otherwise sets `chunkCount` and refreshes
      `updatedAt`, keeping every other field. */
  method UpdateDocumentChunkCount(db: Store, documentId: string, count: int, now: int)
    returns (r: Result<()>)
    modifies db
    ensures old(GetDocument(db, documentId)).None? ==>
      r == Err("Document not found") && db.hashes == old(db.hashes)
    ensures old(GetDocument(db, documentId)).Some? ==>
      && r == Ok(())
      && db.hashes == old(db.hashes)[DocumentKey(documentId) :=
           old(db.hashes[DocumentKey(documentId)]) + map["chunkCount" := Int(count), "updatedAt" := Int(now)]]
    ensures db.sets == old(db.sets) && db.lists == old(db.lists)
    ensures db.strings == old(db.strings) && db.expiries == old(db.expiries)
  {
    var doc := GetDocument(db, documentId);
    if doc.None? {
      return Err("Document not found");
    }
    var updated := doc.value + map["chunkCount" := Int(count), "updatedAt" := Int(now)];
    db.HSet(DocumentKey(documentId), updated);
    assert doc.value + updated == updated;
    r := Ok(());
  }

  function GetDocument(db: Store, id: string): (r: Option<Hash>)
    reads db
    ensures r.None? <==> db.Fields(DocumentKey(id)) == map[]
    ensures r.Some? ==> r.value == db.Fields(DocumentKey(id))
  {
    db.HGetAll(DocumentKey(id))
  }

  /** The sets after deleting document `id` whose hash was `doc`. */
  function SetsAfterDocumentDelete(sets: map<string, set<string>>, id: string, doc: Hash): map<string, set<string>> {
    var s0 := sets - {DocumentKey(id)};
    match KbIdOf(doc)
    case None => s0
    case Some(kb) => SRemoved(s0, DocumentsIndex(kb), id)
  }

  /** A no-op for an absent document; otherwise the hash goes, and so does the id's
      membership in its knowledge base's document set, and nothing else. */
  method DeleteDocument(db: Store, id: string)
    modifies db
    ensures old(GetDocument(db, id)).None? ==>
      && db.hashes == old(db.hashes) && db.sets == old(db.sets) && db.lists == old(db.lists)
      && db.strings == old(db.strings) && db.expiries == old(db.expiries)
    ensures old(GetDocument(db, id)).Some? ==>
      && db.hashes == old(db.hashes) - {DocumentKey(id)}
      && db.sets == SetsAfterDocumentDelete(old(db.sets), id, old(db.hashes[DocumentKey(id)]))
      && db.lists == old(db.lists) - {DocumentKey(id)}
      && db.strings == old(db.strings) - {DocumentKey(id)}
      && db.expiries == old(db.expiries) - {DocumentKey(id)}
    ensures GetDocument(db, id).None?
    ensures Pruned(db.Snap(), old(db.Snap()), {DocumentKey(id)}, {id})
    ensures forall k :: k != DocumentKey(id) && !EndsWith(k, "_documents") ==>
      MembersAt(db.sets, k) == MembersAt(old(db.sets), k)
  {
    var doc := GetDocument(db, id);
    if doc.None? {
      PrunedRefl(db.Snap());
      return;
    }
    ghost var s0 := db.Snap();
    db.Del(DocumentKey(id));
    match KbIdOf(doc.value)
    case None =>
      PrunedWeaken(db.Snap(), s0, {DocumentKey(id)}, {}, {DocumentKey(id)}, {id});
    case Some(kb) =>
      ghost var s1 := db.Snap();
      db.SRem(DocumentsIndex(kb), id);
      PrunedTrans(db.Snap(), s1, s0, {}, {id}, {DocumentKey(id)}, {});
      assert {} + {DocumentKey(id)} == {DocumentKey(id)};
      assert forall k :: k != DocumentKey(id) && !EndsWith(k, "_documents") ==> k != DocumentsIndex(kb);
  }

  /** The loop of `deleteKnowledgeBase` over the ids of its documents. */
  method DeleteDocuments(db: Store, ids: seq<string>)
    modifies db
    ensures forall d :: d in ids ==> db.Fields(DocumentKey(d)) == map[]
    ensures Pruned(db.Snap(), old(db.Snap()), set d | d in ids :: DocumentKey(d), ToSet(ids))
    ensures forall k :: (forall d :: d in ids ==> k != DocumentKey(d)) && !EndsWith(k, "_documents") ==>
      MembersAt(db.sets, k) == MembersAt(old(db.sets), k)
  {
    PrunedRefl(db.Snap());
    for i := 0 to |ids|
      invariant forall d :: d in ids[..i] ==> db.Fields(DocumentKey(d)) == map[]
      invariant Pruned(db.Snap(), old(db.Snap()), set d | d in ids[..i] :: DocumentKey(d), ToSet(ids[..i]))
      invariant forall k :: (forall d :: d in ids[..i] ==> k != DocumentKey(d)) && !EndsWith(k, "_documents") ==>
        MembersAt(db.sets, k) == MembersAt(old(db.sets), k)
    {
      ghost var before := db.Snap();
      ghost var keys := set d | d in ids[..i] :: DocumentKey(d);
      DeleteDocument(db, ids[i]);
      PrunedTrans(db.Snap(), before, old(db.Snap()), {DocumentKey(ids[i])}, {ids[i]}, keys, ToSet(ids[..i]));
      assert ids[..i + 1] == ids[..i] + [ids[i]];
      assert (set d | d in ids[..i + 1] :: DocumentKey(d)) == {DocumentKey(ids[i])} + keys;
      assert ToSet(ids[..i + 1]) == {ids[i]} + ToSet(ids[..i]);
      forall d | d in ids[..i + 1]
        ensures db.Fields(DocumentKey(d)) == map[]
      {
        if d != ids[i] {
          PrunedKeepsGone(db.Snap(), before, {DocumentKey(ids[i])}, {ids[i]}, DocumentKey(d));
        }
      }
    }
    assert ids[..|ids|] == ids;
  }

  // ---------------------------------------------------------------------------------
  // Chat sessions

  method CreateChatSession(db: Store, input: ChatSessionInput, id: string, now: int, today: string)
    returns (session: Hash)
    modifies db
    ensures session.Keys == {"id", "name", "knowledgeBaseId", "createdAt", "updatedAt"}
    ensures session["id"] == Str(id) && session["knowledgeBaseId"] == Str(input.knowledgeBaseId)
    ensures session["name"] == Str(OrDefault(input.name, "Chat " + today))
    ensures session["createdAt"] == session["updatedAt"] == Int(now)
    ensures db.hashes == HSetOn(old(db.hashes), ChatSessionKey(id), session)
    ensures db.sets == SAdded(SAdded(old(db.sets), SessionsIndex(input.knowledgeBaseId), id), ChatSessionsIndex, id)
    ensures db.lists == old(db.lists) && db.strings == old(db.strings) && db.expiries == old(db.expiries)
    ensures id in db.Members(SessionsIndex(input.knowledgeBaseId)) && id in db.Members(ChatSessionsIndex)
    ensures GetChatSessionCount(db) ==
      old(GetChatSessionCount(db)) + if id in old(db.Members(ChatSessionsIndex)) then 0 else 1
  {
    session := map["id" := Str(id), "name" := Str(OrDefault(input.name, "Chat " + today)),
                   "knowledgeBaseId" := Str(input.knowledgeBaseId),
                   "createdAt" := Int(now), "updatedAt" := Int(now)];
    db.HSet(ChatSessionKey(id), session);
    db.SAdd(SessionsIndex(input.knowledgeBaseId), id);
    ghost var between := db.Members(ChatSessionsIndex);
    assert between <= old(db.Members(ChatSessionsIndex)) + {id};
    assert old(db.Members(ChatSessionsIndex)) <= between;
    db.SAdd(ChatSessionsIndex, id);
    if id !in old(db.Members(ChatSessionsIndex)) {
      assert db.Members(ChatSessionsIndex) == old(db.Members(ChatSessionsIndex)) + {id};
    } else {
      assert db.Members(ChatSessionsIndex) == old(db.Members(ChatSessionsIndex));
    }
  }

  function GetChatSession(db: Store, id: string): (r: Option<Hash>)
    reads db
    ensures r.None? <==> db.Fields(ChatSessionKey(id)) == map[]
    ensures r.Some? ==> r.value == db.Fields(ChatSessionKey(id))
  {
    db.HGetAll(ChatSessionKey(id))
  }

  /** `getChatSessionCount`: the number of ids in the `chatsessions` index. */
  function GetChatSessionCount(db: Store): (n: nat)
    reads db
    ensures n == 0 <==> db.Members(ChatSessionsIndex) == {}
    ensures forall id :: id in db.Members(ChatSessionsIndex) ==> n >= 1
  {
    |db.Members(ChatSessionsIndex)|
  }

  /** The sets after deleting session `id` whose hash was `session`. */
  function SetsAfterSessionDelete(sets: map<string, set<string>>, id: string, session: Hash): map<string, set<string>> {
    var s0 := sets - {MessagesKey(id)} - {ChatSessionKey(id)};
    var s1 := match KbIdOf(session)
      case None => s0
      case Some(kb) => SRemoved(s0, SessionsIndex(kb), id);
    SRemoved(s1, ChatSessionsIndex, id)
  }

  /** A no-op for an absent session; otherwise its message list and its hash go, and so does
      its membership in both session sets. The message hashes themselves are kept. */
  method DeleteChatSession(db: Store, id: string)
    modifies db
    ensures old(GetChatSession(db, id)).None? ==>
      && db.hashes == old(db.hashes) && db.sets == old(db.sets) && db.lists == old(db.lists)
      && db.strings == old(db.strings) && db.expiries == old(db.expiries)
    ensures old(GetChatSession(db, id)).Some? ==>
      && db.hashes == old(db.hashes) - {MessagesKey(id)} - {ChatSessionKey(id)}
      && db.sets == SetsAfterSessionDelete(old(db.sets), id, old(db.hashes[ChatSessionKey(id)]))
      && db.lists == old(db.lists) - {MessagesKey(id)} - {ChatSessionKey(id)}
      && db.strings == old(db.strings) - {MessagesKey(id)} - {ChatSessionKey(id)}
      && db.expiries == old(db.expiries) - {MessagesKey(id)} - {ChatSessionKey(id)}
      && MessagesKey(id) !in db.lists
      && id !in db.Members(ChatSessionsIndex)
    ensures GetChatSession(db, id).None?
    ensures Pruned(db.Snap(), old(db.Snap()), {ChatSessionKey(id), MessagesKey(id)}, {id})
  {
    var session := GetChatSession(db, id);
    if session.None? {
      PrunedRefl(db.Snap());
      return;
    }
    ghost var s0 := db.Snap();
    db.Del(MessagesKey(id));
    ghost var s1 := db.Snap();
    db.Del(ChatSessionKey(id));
    PrunedTrans(db.Snap(), s1, s0, {ChatSessionKey(id)}, {}, {MessagesKey(id)}, {});
    ghost var s2 := db.Snap();
    ghost var keys := {ChatSessionKey(id)} + {MessagesKey(id)};
    if KbIdOf(session.value).Some? {
      db.SRem(SessionsIndex(KbIdOf(session.value).value), id);
      PrunedTrans(db.Snap(), s2, s0, {}, {id}, keys, {});
    }
    ghost var s3 := db.Snap();
    db.SRem(ChatSessionsIndex, id);
    PrunedTrans(db.Snap(), s3, s0, {}, {id}, keys, if KbIdOf(session.value).Some? then {id} else {});
    assert {} + keys == {ChatSessionKey(id), MessagesKey(id)};
  }

  /** The loop of `deleteKnowledgeBase` over the ids of its sessions. A session whose hash
      exists when the loop reaches it loses its message list; one whose id is not another
      session's message-list key followed nothing that could hide its hash. */
  method DeleteChatSessions(db: Store, ids: seq<string>)
    modifies db
    ensures forall s :: s in ids ==> db.Fields(ChatSessionKey(s)) == map[]
    ensures forall s :: s in ids && !EndsWith(s, "_messages") && old(db.Fields(ChatSessionKey(s))) != map[] ==>
      MessagesKey(s) !in db.lists
    ensures Pruned(db.Snap(), old(db.Snap()), SessionKeys(ids), ToSet(ids))
  {
    PrunedRefl(db.Snap());
    for i := 0 to |ids|
      invariant SessionsDeleted(db.Snap(), old(db.Snap()), ids[..i])
    {
      var s := ids[i];
      ghost var before := db.Snap();
      DeleteChatSession(db, s);
      DeleteStep(db.Snap(), before, old(db.Snap()), ids[..i], s);
      assert ids[..i + 1] == ids[..i] + [s];
    }
    assert ids[..|ids|] == ids;
  }

  /** After deleting the sessions `done`, starting from `orig`: each one's hash is gone, each
      one that had a hash and is not itself a message-list key has lost its list, and
      nothing else was touched beyond those keys and members. */
  ghost predicate SessionsDeleted(now: Snapshot, orig: Snapshot, done: seq<string>) {
    && (forall s :: s in done ==> FieldsAt(now.hashes, ChatSessionKey(s)) == map[])
    && (forall s :: s in done && !EndsWith(s, "_messages") && FieldsAt(orig.hashes, ChatSessionKey(s)) != map[] ==>
          MessagesKey(s) !in now.lists)
    && Pruned(now, orig, SessionKeys(done), ToSet(done))
  }

  /** One more session deleted keeps `SessionsDeleted`. */
  lemma DeleteStep(now: Snapshot, before: Snapshot, orig: Snapshot, done: seq<string>, s: string)
    requires SessionsDeleted(before, orig, done)
    requires Pruned(now, before, {ChatSessionKey(s), MessagesKey(s)}, {s})
    requires FieldsAt(now.hashes, ChatSessionKey(s)) == map[]
    requires FieldsAt(before.hashes, ChatSessionKey(s)) != map[] ==> MessagesKey(s) !in now.lists
    ensures SessionsDeleted(now, orig, done + [s])
  {
    var keys := SessionKeys(done);
    var step := {ChatSessionKey(s), MessagesKey(s)};
    if s !in done && !EndsWith(s, "_messages") {
      SessionKeyNotYetRemoved(s, done);
      PrunedKeepsHash(before, orig, keys, ToSet(done), ChatSessionKey(s));
    }
    PrunedTrans(now, before, orig, step, {s}, keys, ToSet(done));
    SessionKeysAppend(done, s);
    assert ToSet(done + [s]) == {s} + ToSet(done);
    forall t | t in done + [s]
      ensures FieldsAt(now.hashes, ChatSessionKey(t)) == map[]
    {
      if t != s {
        PrunedKeepsGone(now, before, step, {s}, ChatSessionKey(t));
      }
    }
    forall t | t in done + [s] && !EndsWith(t, "_messages") && FieldsAt(orig.hashes, ChatSessionKey(t)) != map[]
      ensures MessagesKey(t) !in now.lists
    {
      if t in done {
        assert MessagesKey(t) !in before.lists;
      }
    }
  }

  ghost function SessionKeys(ids: seq<string>): set<string> {
    (set s | s in ids :: ChatSessionKey(s)) + (set s | s in ids :: MessagesKey(s))
  }

  lemma SessionKeysAppend(ids: seq<string>, s: string)
    ensures SessionKeys(ids + [s]) == {ChatSessionKey(s), MessagesKey(s)} + SessionKeys(ids)
  {
    var a := ids + [s];
    assert (set x | x in a :: ChatSessionKey(x)) == {ChatSessionKey(s)} + (set x | x in ids :: ChatSessionKey(x));
    assert (set x | x in a :: MessagesKey(x)) == {MessagesKey(s)} + (set x | x in ids :: MessagesKey(x));
  }

  lemma SessionKeyNotYetRemoved(s: string, done: seq<string>)
    requires s !in done && !EndsWith(s, "_messages")
    ensures ChatSessionKey(s) !in SessionKeys(done)
  {
    forall x | x in done
      ensures ChatSessionKey(x) != ChatSessionKey(s) && MessagesKey(x) != ChatSessionKey(s)
    {
      ChatSessionKeyInjective(x, s);
      MessagesKeyNotSessionKey(x, s);
    }
  }

  // ---------------------------------------------------------------------------------
  // Cascading delete

  /** Every key the cascade may remove. */
  ghost function CascadeKeys(id: string, docs: set<string>, sessions: set<string>): set<string> {
    {KnowledgeBaseKey(id), DocumentsIndex(id), SessionsIndex(id)}
    + (set d | d in docs :: DocumentKey(d))
    + (set s | s in sessions :: ChatSessionKey(s))
    + (set s | s in sessions :: MessagesKey(s))
  }

  lemma CascadeKeysOf(id: string, docIds: seq<string>, sessionIds: seq<string>)
    ensures (set d | d in docIds :: DocumentKey(d)) + SessionKeys(sessionIds)
            + {KnowledgeBaseKey(id), DocumentsIndex(id), SessionsIndex(id)}
         == CascadeKeys(id, ToSet(docIds), ToSet(sessionIds))
  {
    assert (set d | d in docIds :: DocumentKey(d)) == set d | d in ToSet(docIds) :: DocumentKey(d);
    assert (set s | s in sessionIds :: ChatSessionKey(s)) == set s | s in ToSet(sessionIds) :: ChatSessionKey(s);
    assert (set s | s in sessionIds :: MessagesKey(s)) == set s | s in ToSet(sessionIds) :: MessagesKey(s);
  }

  /** The last four commands of the cascade: the knowledge base's hash and both of its
      index sets go, and its id leaves `knowledgebases`. */
  method DeleteKnowledgeBaseRecord(db: Store, id: string)
    modifies db
    ensures KnowledgeBaseKey(id) !in db.hashes
    ensures DocumentsIndex(id) !in db.sets && SessionsIndex(id) !in db.sets
    ensures id !in db.Members(KnowledgeBasesIndex)
    ensures Pruned(db.Snap(), old(db.Snap()), {KnowledgeBaseKey(id), DocumentsIndex(id), SessionsIndex(id)}, {id})
  {
    ghost var s0 := db.Snap();
    db.Del(KnowledgeBaseKey(id));
    ghost var s1 := db.Snap();
    db.Del(DocumentsIndex(id));
    PrunedTrans(db.Snap(), s1, s0, {DocumentsIndex(id)}, {}, {KnowledgeBaseKey(id)}, {});
    ghost var s2 := db.Snap();
    db.Del(SessionsIndex(id));
    PrunedTrans(db.Snap(), s2, s0, {SessionsIndex(id)}, {}, {DocumentsIndex(id)} + {KnowledgeBaseKey(id)}, {});
    ghost var s3 := db.Snap();
    db.SRem(KnowledgeBasesIndex, id);
    PrunedTrans(db.Snap(), s3, s0, {}, {id},
                {SessionsIndex(id)} + ({DocumentsIndex(id)} + {KnowledgeBaseKey(id)}), {});
    assert {} + ({SessionsIndex(id)} + ({DocumentsIndex(id)} + {KnowledgeBaseKey(id)}))
        == {KnowledgeBaseKey(id), DocumentsIndex(id), SessionsIndex(id)};
  }

  /** Deletes the knowledge base's documents, then its sessions (read after the documents
      are gone), then its hash and both index sets, then its id from `knowledgebases`.
      `sessionIds` are the session ids as read; they are the ones present at the start
      unless a deleted document's key happened to be the session index's key. */
  method DeleteKnowledgeBase(db: Store, id: string) returns (ghost sessionIds: set<string>)
    modifies db
    ensures forall d :: d in old(db.Members(DocumentsIndex(id))) ==> db.Fields(DocumentKey(d)) == map[]
    ensures (forall d :: d in old(db.Members(DocumentsIndex(id))) ==> DocumentKey(d) != SessionsIndex(id)) ==>
      sessionIds == old(db.Members(SessionsIndex(id)))
    ensures sessionIds <= old(db.Members(SessionsIndex(id)))
    ensures forall s :: s in sessionIds ==> db.Fields(ChatSessionKey(s)) == map[]
    ensures forall s :: s in sessionIds && !EndsWith(s, "_messages") && old(db.Fields(ChatSessionKey(s))) != map[] ==>
      MessagesKey(s) !in db.lists
    ensures KnowledgeBaseKey(id) !in db.hashes
    ensures DocumentsIndex(id) !in db.sets && SessionsIndex(id) !in db.sets
    ensures id !in db.Members(KnowledgeBasesIndex)
    ensures Pruned(db.Snap(), old(db.Snap()),
                   CascadeKeys(id, old(db.Members(DocumentsIndex(id))), sessionIds),
                   old(db.Members(DocumentsIndex(id))) + sessionIds + {id})
  {
    ghost var s0 := db.Snap();
    var documentIds := db.SMembers(DocumentsIndex(id));
    ghost var docs := ToSet(documentIds);
    DeleteDocuments(db, documentIds);
    ghost var docKeys := set d | d in documentIds :: DocumentKey(d);
    assert docKeys == set d | d in docs :: DocumentKey(d);
    SessionsIndexNotDocumentsIndex(id);
    if forall d :: d in docs ==> DocumentKey(d) != SessionsIndex(id) {
      assert MembersAt(db.sets, SessionsIndex(id)) == MembersAt(s0.sets, SessionsIndex(id));
    }
    ghost var s1 := db.Snap();

    var sessionSeq := db.SMembers(SessionsIndex(id));
    sessionIds := ToSet(sessionSeq);
    forall s | s in sessionIds
      ensures FieldsAt(s1.hashes, ChatSessionKey(s)) == FieldsAt(s0.hashes, ChatSessionKey(s))
    {
      forall d | d in docs ensures DocumentKey(d) != ChatSessionKey(s) {
        DocumentKeyNotSessionKey(d, s);
      }
      PrunedKeepsHash(s1, s0, docKeys, docs, ChatSessionKey(s));
    }
    DeleteChatSessions(db, sessionSeq);
    PrunedTrans(db.Snap(), s1, s0, SessionKeys(sessionSeq), sessionIds, docKeys, docs);
    ghost var s2 := db.Snap();
    forall d | d in docs ensures FieldsAt(s2.hashes, DocumentKey(d)) == map[] {
      PrunedKeepsGone(s2, s1, SessionKeys(sessionSeq), sessionIds, DocumentKey(d));
    }

    DeleteKnowledgeBaseRecord(db, id);
    ghost var tail := {KnowledgeBaseKey(id), DocumentsIndex(id), SessionsIndex(id)};
    PrunedTrans(db.Snap(), s2, s0, tail, {id}, docKeys + SessionKeys(sessionSeq), docs + sessionIds);
    CascadeKeysOf(id, documentIds, sessionSeq);
    forall d | d in docs ensures db.Fields(DocumentKey(d)) == map[] {
      PrunedKeepsGone(db.Snap(), s2, tail, {id}, DocumentKey(d));
    }
    forall s | s in sessionIds ensures db.Fields(ChatSessionKey(s)) == map[] {
      PrunedKeepsGone(db.Snap(), s2, tail, {id}, ChatSessionKey(s));
    }
  }

  // ---------------------------------------------------------------------------------
  // Listings

  datatype RowKind = KnowledgeBaseRow | DocumentRow | SessionRow

  /** The row one listing produces for one id: the stored hash spread into a new object,
      knowledge bases with `_count.documents` and sessions with `_count.messages`; `None`
      when the hash is missing, which the listing's `filter(Boolean)` drops. */
  function RowOf(db: Store, kind: RowKind, id: string): Option<Hash>
    reads db
  {
    match kind
    case KnowledgeBaseRow =>
      (match db.HGetAll(KnowledgeBaseKey(id))
       case None => None
       case Some(kb) => Some(kb + map["_count" := Record(map["documents" := Int(|db.Members(DocumentsIndex(id))|)])]))
    case DocumentRow => db.HGetAll(DocumentKey(id))
    case SessionRow =>
      (match db.HGetAll(ChatSessionKey(id))
       case None => None
       case Some(session) => Some(session + map["_count" := Record(map["messages" := Int(|db.Range(MessagesKey(id))|)])]))
  }

  /** `ids.map(read).filter(Boolean)`: the rows of the ids that have a record, in id order. */
  function Rows(db: Store, ids: seq<string>, kind: RowKind): (r: seq<Hash>)
    reads db
    ensures |r| <= |ids|
  {
    if ids == [] then []
    else match RowOf(db, kind, ids[0])
      case None => Rows(db, ids[1..], kind)
      case Some(h) => [h] + Rows(db, ids[1..], kind)
  }

  /** A row is listed iff some id yields it. */
  lemma {:induction false} RowsMembers(db: Store, ids: seq<string>, kind: RowKind)
    ensures forall h :: h in Rows(db, ids, kind) <==> exists i :: 0 <= i < |ids| && RowOf(db, kind, ids[i]) == Some(h)
  {
    if ids != [] {
      RowsMembers(db, ids[1..], kind);
      forall h | (exists i :: 0 <= i < |ids| && RowOf(db, kind, ids[i]) == Some(h))
        ensures h in Rows(db, ids, kind)
      {
        var i :| 0 <= i < |ids| && RowOf(db, kind, ids[i]) == Some(h);
        if i > 0 {
          assert ids[1..][i - 1] == ids[i];
        }
      }
      forall h | h in Rows(db, ids, kind)
        ensures exists i :: 0 <= i < |ids| && RowOf(db, kind, ids[i]) == Some(h)
      {
        if h !in Rows(db, ids[1..], kind) {
          assert RowOf(db, kind, ids[0]) == Some(h);
        } else {
          var j :| 0 <= j < |ids[1..]| && RowOf(db, kind, ids[1..][j]) == Some(h);
          assert ids[j + 1] == ids[1..][j];
        }
      }
    }
  }

  /** The ids among `ids` that have a record. */
  ghost function Present(db: Store, ids: set<string>, kind: RowKind): set<string>
    reads db
  {
    set x | x in ids && RowOf(db, kind, x).Some?
  }

  lemma PresentAdd(db: Store, x: string, rest: set<string>, kind: RowKind)
    ensures Present(db, {x} + rest, kind) == (if RowOf(db, kind, x).Some? then {x} else {}) + Present(db, rest, kind)
  {
  }

  lemma RowsLength(db: Store, ids: seq<string>, kind: RowKind)
    requires ids != []
    ensures |Rows(db, ids, kind)| == (if RowOf(db, kind, ids[0]).Some? then 1 else 0) + |Rows(db, ids[1..], kind)|
  {
  }

  /** With each id once, one row per id that has a record: none dropped, none repeated. */
  lemma {:induction false} RowsCount(db: Store, ids: seq<string>, kind: RowKind)
    requires forall i, j :: 0 <= i < j < |ids| ==> ids[i] != ids[j]
    ensures |Rows(db, ids, kind)| == |Present(db, ToSet(ids), kind)|
  {
    if ids != [] {
      var tail := ids[1..];
      RowsCount(db, tail, kind);
      RowsLength(db, ids, kind);
      DistinctHead(ids);
      PresentAdd(db, ids[0], ToSet(tail), kind);
    }
  }

  /** The first of distinct ids is not among the others, which with it make up the set. */
  lemma DistinctHead(ids: seq<string>)
    requires ids != []
    requires forall i, j :: 0 <= i < j < |ids| ==> ids[i] != ids[j]
    ensures ids[0] !in ToSet(ids[1..])
    ensures ToSet(ids) == {ids[0]} + ToSet(ids[1..])
  {
    var tail := ids[1..];
    forall j | 0 <= j < |tail| ensures tail[j] != ids[0] {
      assert tail[j] == ids[j + 1];
    }
    assert ids == [ids[0]] + tail;
  }

  /** The ids among `ids` whose record reads as `h`. */
  ghost function IdsYielding(db: Store, ids: set<string>, kind: RowKind, h: Hash): set<string>
    reads db
  {
    set x | x in ids && RowOf(db, kind, x) == Some(h)
  }

  lemma IdsYieldingAdd(db: Store, x: string, rest: set<string>, kind: RowKind, h: Hash)
    ensures IdsYielding(db, {x} + rest, kind, h)
         == (if RowOf(db, kind, x) == Some(h) then {x} else {}) + IdsYielding(db, rest, kind, h)
  {
  }

  /** The rows of distinct ids hold each record once per id that yields it. */
  lemma {:induction false} RowsMultiplicity(db: Store, ids: seq<string>, kind: RowKind, h: Hash)
    requires forall i, j :: 0 <= i < j < |ids| ==> ids[i] != ids[j]
    ensures multiset(Rows(db, ids, kind))[h] == |IdsYielding(db, ToSet(ids), kind, h)|
  {
    if ids != [] {
      var tail := ids[1..];
      RowsMultiplicity(db, tail, kind, h);
      DistinctHead(ids);
      IdsYieldingAdd(db, ids[0], ToSet(tail), kind, h);
      assert ids[0] !in IdsYielding(db, ToSet(tail), kind, h);
      match RowOf(db, kind, ids[0])
      case None =>
      case Some(g) =>
        assert multiset([g] + Rows(db, tail, kind)) == multiset{g} + multiset(Rows(db, tail, kind));
    }
  }

  /** A listing: the stored records behind the ids of the index set `key` (missing ones
      dropped), ordered by `updatedAt`, newest first. Each record occurs once for every id
      of the set that reads as it. */
  ghost predicate IsListing(db: Store, key: string, kind: RowKind, rows: seq<Hash>)
    reads db
  {
    && SortedDesc(rows, "updatedAt")
    && (forall h :: h in rows <==> exists id :: id in db.Members(key) && RowOf(db, kind, id) == Some(h))
    && |rows| == |Present(db, db.Members(key), kind)|
    && (forall h :: multiset(rows)[h] == |IdsYielding(db, db.Members(key), kind, h)|)
  }

  /** Sorting the rows read for an enumeration of the index set gives a listing. */
  lemma ListingOfRows(db: Store, key: string, kind: RowKind, ids: seq<string>)
    requires forall x :: x in ids <==> x in db.Members(key)
    requires forall i, j :: 0 <= i < j < |ids| ==> ids[i] != ids[j]
    ensures IsListing(db, key, kind, SortDesc(Rows(db, ids, kind), "updatedAt"))
  {
    var found := Rows(db, ids, kind);
    var rows := SortDesc(found, "updatedAt");
    SortDescSpec(found, "updatedAt");
    assert |rows| == |Present(db, db.Members(key), kind)| by {
      RowsCount(db, ids, kind);
      assert ToSet(ids) == db.Members(key);
      assert |multiset(rows)| == |multiset(found)|;
    }
    forall h
      ensures h in rows <==> exists id :: id in db.Members(key) && RowOf(db, kind, id) == Some(h)
    {
      RowsMembers(db, ids, kind);
      assert h in rows <==> h in multiset(rows);
      assert h in found <==> h in multiset(found);
      if exists id :: id in db.Members(key) && RowOf(db, kind, id) == Some(h) {
        var id :| id in db.Members(key) && RowOf(db, kind, id) == Some(h);
        var i :| 0 <= i < |ids| && ids[i] == id;
      }
    }
    forall h
      ensures multiset(rows)[h] == |IdsYielding(db, db.Members(key), kind, h)|
    {
      RowsMultiplicity(db, ids, kind, h);
      assert ToSet(ids) == db.Members(key);
    }
  }

  method ListRows(db: Store, key: string, kind: RowKind) returns (rows: seq<Hash>)
    ensures IsListing(db, key, kind, rows)
  {
    var ids := db.SMembers(key);
    rows := SortDesc(Rows(db, ids, kind), "updatedAt");
    ListingOfRows(db, key, kind, ids);
  }

  method GetAllKnowledgeBases(db: Store) returns (rows: seq<Hash>)
    ensures IsListing(db, KnowledgeBasesIndex, KnowledgeBaseRow, rows)
  {
    rows := ListRows(db, KnowledgeBasesIndex, KnowledgeBaseRow);
  }

  method GetDocumentsByKnowledgeBase(db: Store, knowledgeBaseId: string) returns (rows: seq<Hash>)
    ensures IsListing(db, DocumentsIndex(knowledgeBaseId), DocumentRow, rows)
  {
    rows := ListRows(db, DocumentsIndex(knowledgeBaseId), DocumentRow);
  }

  method GetAllChatSessions(db: Store) returns (rows: seq<Hash>)
    ensures IsListing(db, ChatSessionsIndex, SessionRow, rows)
  {
    rows := ListRows(db, ChatSessionsIndex, SessionRow);
  }

  method GetChatSessionsByKnowledgeBase(db: Store, knowledgeBaseId: string) returns (rows: seq<Hash>)
    ensures IsListing(db, SessionsIndex(knowledgeBaseId), SessionRow, rows)
  {
    rows := ListRows(db, SessionsIndex(knowledgeBaseId), SessionRow);
  }

  // ---------------------------------------------------------------------------------
  // Counts

  /** The sum, over the knowledge-base ids in `kbs`, of the sizes of their document sets. */
  ghost function DocumentTotal(db: Store, kbs: set<string>): nat
    reads db
    decreases kbs
  {
    if kbs == {} then 0
    else
      var kb :| kb in kbs;
      |db.Members(DocumentsIndex(kb))| + DocumentTotal(db, kbs - {kb})
  }

  /** The sum does not depend on which id is taken first. */
  lemma {:induction false} DocumentTotalRemove(db: Store, kbs: set<string>, kb: string)
    requires kb in kbs
    ensures DocumentTotal(db, kbs) == |db.Members(DocumentsIndex(kb))| + DocumentTotal(db, kbs - {kb})
    decreases kbs
  {
    var first :| first in kbs && DocumentTotal(db, kbs) == |db.Members(DocumentsIndex(first))| + DocumentTotal(db, kbs - {first});
    if first != kb {
      DocumentTotalRemove(db, kbs - {first}, kb);
      DocumentTotalRemove(db, kbs - {kb}, first);
      assert kbs - {first} - {kb} == kbs - {kb} - {first};
    }
  }

  /** The loop of `getDocumentCount`, over the knowledge-base ids in the order SMEMBERS
      gives them. */
  method GetDocumentCount(db: Store) returns (count: int)
    ensures count == DocumentTotal(db, db.Members(KnowledgeBasesIndex))
  {
    var kbs := db.SMembers(KnowledgeBasesIndex);
    count := 0;
    for i := 0 to |kbs|
      invariant count == DocumentTotal(db, ToSet(kbs[..i]))
    {
      var docCount := |db.Members(DocumentsIndex(kbs[i]))|;
      ghost var seen := ToSet(kbs[..i]);
      assert kbs[i] !in seen by {
        forall j | 0 <= j < i ensures kbs[..i][j] != kbs[i] {
          assert kbs[..i][j] == kbs[j];
        }
      }
      assert ToSet(kbs[..i + 1]) == seen + {kbs[i]} by {
        assert kbs[..i + 1] == kbs[..i] + [kbs[i]];
      }
      DocumentTotalRemove(db, seen + {kbs[i]}, kbs[i]);
      assert seen + {kbs[i]} - {kbs[i]} == seen;
      count := count + docCount;
    }
    assert kbs[..|kbs|] == kbs;
    assert ToSet(kbs) == db.Members(KnowledgeBasesIndex);
  }

  // ---------------------------------------------------------------------------------
  // Chat messages

  /** The record `addChatMessage` stores: sources are kept as JSON text when truthy, as
      `null` otherwise. */
  function MessageRecord(input: ChatMessageInput, id: string, now: int, stringify: Value -> string): (m: Hash)
    ensures m.Keys == {"id", "content", "role", "chatSessionId", "sources", "createdAt"}
    ensures m["id"] == Str(id) && m["createdAt"] == Int(now) && m["content"] == Str(input.content)
  {
    map["id" := Str(id), "content" := Str(input.content), "role" := Str(input.role),
        "chatSessionId" := Str(input.chatSessionId),
        "sources" := (if input.sources.Some? && Truthy(input.sources.value)
                      then Str(stringify(input.sources.value)) else Null),
        "createdAt" := Int(now)]
  }

  /** A stored message as `getChatMessages` returns it: truthy sources are parsed back,
      and text that does not parse becomes the empty list. */
  function DecodeSources(m: Hash, parse: Value -> Option<Value>): (r: Hash)
    ensures r.Keys == m.Keys
    ensures forall f :: f in m && f != "sources" ==> r[f] == m[f]
    ensures "sources" in m && Truthy(m["sources"]) ==>
      r["sources"] == (if parse(m["sources"]).Some? then parse(m["sources"]).value else List([]))
    ensures !("sources" in m && Truthy(m["sources"])) ==> r == m
  {
    if "sources" in m && Truthy(m["sources"]) then m["sources" := parse(m["sources"]).GetOr(List([]))]
    else m
  }

  /** `messageIds.map(read).filter(Boolean)` over the message hashes. */
  function MessagesFrom(hashes: map<string, Hash>, ids: seq<string>, parse: Value -> Option<Value>): (r: seq<Hash>)
    ensures |r| <= |ids|
  {
    if ids == [] then []
    else
      var rest := MessagesFrom(hashes, ids[..|ids| - 1], parse);
      var m := FieldsAt(hashes, MessageKey(ids[|ids| - 1]));
      if m == map[] then rest else rest + [DecodeSources(m, parse)]
  }

  /** `getChatMessages`: one message per listed id whose hash is present, each a stored
      message of a listed id with its sources decoded; when every listed hash is present,
      every listed message is read. */
  function GetChatMessages(db: Store, chatSessionId: string, parse: Value -> Option<Value>): (r: seq<Hash>)
    reads db
    ensures var ids := db.Range(MessagesKey(chatSessionId));
      && |r| <= |ids|
      && ((forall x :: x in ids ==> FieldsAt(db.hashes, MessageKey(x)) != map[]) ==> |r| == |ids|)
      && (forall k :: 0 <= k < |r| ==> ReadFrom(db.hashes, ids, parse, r[k]))
  {
    var ids := db.Range(MessagesKey(chatSessionId));
    MessagesFromMembers(db.hashes, ids, parse);
    MessagesFromAllPresent(db.hashes, ids, parse);
    MessagesFrom(db.hashes, ids, parse)
  }

  /** `m` is what reading message `x` gives: its hash is present and `m` is that hash with
      its sources decoded. */
  predicate StoredMessage(hashes: map<string, Hash>, x: string, parse: Value -> Option<Value>, m: Hash) {
    FieldsAt(hashes, MessageKey(x)) != map[] && m == DecodeSources(FieldsAt(hashes, MessageKey(x)), parse)
  }

  /** `m` is what reading one of `ids` gives. */
  ghost predicate ReadFrom(hashes: map<string, Hash>, ids: seq<string>, parse: Value -> Option<Value>, m: Hash) {
    exists x :: x in ids && StoredMessage(hashes, x, parse, m)
  }

  /** Every message read comes from a listed id whose hash is present. */
  lemma {:induction false} MessagesFromMembers(hashes: map<string, Hash>, ids: seq<string>, parse: Value -> Option<Value>)
    ensures forall k :: 0 <= k < |MessagesFrom(hashes, ids, parse)| ==>
      ReadFrom(hashes, ids, parse, MessagesFrom(hashes, ids, parse)[k])
  {
    if ids != [] {
      var init := ids[..|ids| - 1];
      var last := ids[|ids| - 1];
      MessagesFromMembers(hashes, init, parse);
      var rest := MessagesFrom(hashes, init, parse);
      var r := MessagesFrom(hashes, ids, parse);
      forall k | 0 <= k < |r| ensures ReadFrom(hashes, ids, parse, r[k]) {
        if k < |rest| {
          assert r[k] == rest[k];
          assert ReadFrom(hashes, init, parse, rest[k]);
          var x :| x in init && StoredMessage(hashes, x, parse, rest[k]);
          assert x in ids;
        } else {
          assert last in ids && StoredMessage(hashes, last, parse, r[k]);
        }
      }
    }
  }

  /** No message is lost when every listed id has its hash. */
  lemma {:induction false} MessagesFromAllPresent(hashes: map<string, Hash>, ids: seq<string>, parse: Value -> Option<Value>)
    ensures (forall x :: x in ids ==> FieldsAt(hashes, MessageKey(x)) != map[]) ==>
      |MessagesFrom(hashes, ids, parse)| == |ids|
  {
    if ids != [] && forall x :: x in ids ==> FieldsAt(hashes, MessageKey(x)) != map[] {
      var init := ids[..|ids| - 1];
      assert forall x :: x in init ==> x in ids;
      MessagesFromAllPresent(hashes, init, parse);
      assert ids[|ids| - 1] in ids;
    }
  }

  /** Messages come back in list order: the messages of a concatenation of id lists are the
      concatenation of their messages. */
  lemma {:induction false} MessagesFromConcat(hashes: map<string, Hash>, a: seq<string>, b: seq<string>,
                                              parse: Value -> Option<Value>)
    ensures MessagesFrom(hashes, a + b, parse) == MessagesFrom(hashes, a, parse) + MessagesFrom(hashes, b, parse)
    decreases |b|
  {
    if b == [] {
      assert a + b == a;
    } else {
      var b0 := b[..|b| - 1];
      MessagesFromConcat(hashes, a, b0, parse);
      assert (a + b)[..|a + b| - 1] == a + b0;
      assert (a + b)[|a + b| - 1] == b[|b| - 1];
    }
  }

  /** Only the message hashes of the listed ids matter. */
  lemma {:induction false} MessagesFromFrame(h1: map<string, Hash>, h2: map<string, Hash>, ids: seq<string>,
                                             parse: Value -> Option<Value>)
    requires forall x :: x in ids ==> FieldsAt(h1, MessageKey(x)) == FieldsAt(h2, MessageKey(x))
    ensures MessagesFrom(h1, ids, parse) == MessagesFrom(h2, ids, parse)
  {
    if ids != [] {
      MessagesFromFrame(h1, h2, ids[..|ids| - 1], parse);
      assert ids[|ids| - 1] in ids;
    }
  }

  /** With a codec whose text is never empty and parses back to what was written, a message's
      sources read back as the value given, or `null` when none was. */
  lemma SourcesRoundTrip(input: ChatMessageInput, id: string, now: int,
                         stringify: Value -> string, parse: Value -> Option<Value>)
    requires forall v :: stringify(v) != "" && parse(Str(stringify(v))) == Some(v)
    ensures var r := DecodeSources(MessageRecord(input, id, now, stringify), parse);
      && r["sources"] == (if input.sources.Some? && Truthy(input.sources.value) then input.sources.value else Null)
      && r - {"sources"} == MessageRecord(input, id, now, stringify) - {"sources"}
  {
    var m := MessageRecord(input, id, now, stringify);
    var r := DecodeSources(m, parse);
    if input.sources.Some? && Truthy(input.sources.value) {
      assert m["sources"] == Str(stringify(input.sources.value));
    }
  }

  /** Stores the message, appends its id to the session's list, then sets only `updatedAt`
      on the session hash (creating a one-field hash when the session is absent). When the
      message id is new, reading the session's messages afterwards gives the old messages
      followed by this one. */
  method AddChatMessage(db: Store, input: ChatMessageInput, id: string, now: int,
                        stringify: Value -> string, ghost parse: Value -> Option<Value>)
    returns (msg: Hash)
    modifies db
    ensures msg == MessageRecord(input, id, now, stringify)
    ensures db.hashes == HSetOn(HSetOn(old(db.hashes), MessageKey(id), msg),
                                ChatSessionKey(input.chatSessionId), map["updatedAt" := Int(now)])
    ensures db.lists == old(db.lists)[MessagesKey(input.chatSessionId) := old(db.Range(MessagesKey(input.chatSessionId))) + [id]]
    ensures db.sets == old(db.sets) && db.strings == old(db.strings) && db.expiries == old(db.expiries)
    ensures MessageKey(id) !in old(db.hashes) && id !in old(db.Range(MessagesKey(input.chatSessionId))) ==>
      GetChatMessages(db, input.chatSessionId, parse)
        == old(GetChatMessages(db, input.chatSessionId, parse)) + [DecodeSources(msg, parse)]
  {
    msg := MessageRecord(input, id, now, stringify);
    db.HSet(MessageKey(id), msg);
    db.RPush(MessagesKey(input.chatSessionId), id);
    db.HSet(ChatSessionKey(input.chatSessionId), map["updatedAt" := Int(now)]);
    ghost var sid := input.chatSessionId;
    ghost var ids := old(db.Range(MessagesKey(sid)));
    if MessageKey(id) !in old(db.hashes) && id !in ids {
      assert "id" in msg;
      AppendedMessageRead(old(db.hashes), id, msg, sid, now, ids, parse);
      assert db.Range(MessagesKey(sid)) == ids + [id];
    }
  }

  /** Writing a new message's hash and touching its session leaves the other messages as
      they were, so the list with the new id appended reads back with the message added. */
  lemma AppendedMessageRead(h0: map<string, Hash>, id: string, msg: Hash, sid: string, now: int,
                            ids: seq<string>, parse: Value -> Option<Value>)
    requires MessageKey(id) !in h0 && id !in ids && msg != map[]
    ensures var h := HSetOn(HSetOn(h0, MessageKey(id), msg), ChatSessionKey(sid), map["updatedAt" := Int(now)]);
      MessagesFrom(h, ids + [id], parse) == MessagesFrom(h0, ids, parse) + [DecodeSources(msg, parse)]
  {
    var h := HSetOn(HSetOn(h0, MessageKey(id), msg), ChatSessionKey(sid), map["updatedAt" := Int(now)]);
    MessageKeyNotSessionKey(id, sid);
    forall x | x in ids
      ensures FieldsAt(h, MessageKey(x)) == FieldsAt(h0, MessageKey(x))
    {
      MessageKeyNotSessionKey(x, sid);
      MessageKeyInjective(x, id);
    }
    MessagesFromFrame(h, h0, ids, parse);
    MessagesFromConcat(h, ids, [id], parse);
    assert FieldsAt(h, MessageKey(id)) == msg;
    assert MessagesFrom(h, [id], parse) == [DecodeSources(msg, parse)];
  }
}
