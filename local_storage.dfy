/** The browser-storage adapter (lib/storage/localStorage.ts). Sessions are stored one record
    per key, `raidesk_session_<id>`, and an index of ids under `raidesk_sessions`. */
module LocalStorage {
  import opened Wrappers
  import opened Types

  /** A JSON serialisation: `JSON.stringify` and a `JSON.parse` that reports malformed text. */
  datatype Codec<!T> = Codec(encode: T -> string, decode: string -> Option<T>)

  /** A serialisation that reads back what it wrote, and never writes the empty string (which
      `loadSession` and `listSessions` treat as missing). The ISO date strings are part of the
      encoding; timestamps are whole milliseconds, which ISO strings keep exactly. */
  ghost predicate Lawful<T(!new)>(c: Codec<T>) {
    forall x :: c.decode(c.encode(x)) == Some(x) && c.encode(x) != ""
  }

  const SessionKeyPrefix := "raidesk_session_"
  const SessionListKey := "raidesk_sessions"
  const SaveFailed := "Failed to save session to localStorage"
  const DeleteFailed := "Failed to delete session from localStorage"

  /** The key of a session's record. */
  function SessionKey(id: string): string {
    SessionKeyPrefix + id
  }

  /** No record key is the index key: they differ at position 15 ('_' against 's'). */
  lemma SessionKeyNotListKey(id: string)
    ensures SessionKey(id) != SessionListKey
  {
    assert SessionKey(id)[15] == '_';
    assert SessionListKey[15] == 's';
  }

  /** Different ids have different record keys. */
  lemma SessionKeyInjective(a: string, b: string)
    ensures SessionKey(a) == SessionKey(b) <==> a == b
  {
    var n := |SessionKeyPrefix|;
    assert SessionKey(a)[n..] == a;
    assert SessionKey(b)[n..] == b;
  }

  /** The contents of `localStorage`. */
  type Items = map<string, string>

  predicate NoDuplicates(l: seq<string>) {
    forall i, j :: 0 <= i < j < |l| ==> l[i] != l[j]
  }

  /** `ids.filter(x => x !== id)`. */
  function Without(l: seq<string>, id: string): (r: seq<string>)
    ensures forall x :: x in r <==> x in l && x != id
    ensures |r| <= |l|
    ensures id !in l ==> r == l
    ensures NoDuplicates(l) ==> NoDuplicates(r)
  {
    if l == [] then []
    else
      var rest := Without(l[1..], id);
      assert NoDuplicates(l) ==> NoDuplicates(l[1..]) && l[0] !in rest by {
        if NoDuplicates(l) {
          forall i, j | 0 <= i < j < |l[1..]| ensures l[1..][i] != l[1..][j] {
            assert l[1..][i] == l[i + 1] && l[1..][j] == l[j + 1];
          }
          assert l[0] !in l[1..];
        }
      }
      if l[0] == id then rest else [l[0]] + rest
  }

  /** `listSessions` on given storage contents: the decoded index, or empty when the index is
      missing, empty or malformed. */
  function ListIn(items: Items, indexCodec: Codec<seq<string>>): seq<string> {
    if SessionListKey in items && items[SessionListKey] != "" then
      match indexCodec.decode(items[SessionListKey])
      case Some(ids) => ids
      case None => []
    else []
  }

  /** `loadSession` on given storage contents: the decoded record, or `None` when it is
      missing, empty or malformed. */
  function LoadIn(items: Items, sessionCodec: Codec<SessionState>, id: string): Option<SessionState> {
    var key := SessionKey(id);
    if key in items && items[key] != "" then sessionCodec.decode(items[key]) else None
  }

  /** Reads never fail: whatever the storage holds, listing gives the stored ids or nothing,
      and loading gives the stored session or nothing. A storage without an index lists no
      session, and a record that is absent or does not parse loads as missing. */
  lemma ReadFallbacks(items: Items, sessionCodec: Codec<SessionState>, indexCodec: Codec<seq<string>>, id: string)
    ensures SessionListKey !in items ==> ListIn(items, indexCodec) == []
    ensures SessionListKey in items && indexCodec.decode(items[SessionListKey]).None? ==> ListIn(items, indexCodec) == []
    ensures SessionKey(id) !in items ==> LoadIn(items, sessionCodec, id) == None
    ensures SessionKey(id) in items && sessionCodec.decode(items[SessionKey(id)]).None? ==> LoadIn(items, sessionCodec, id) == None
    ensures LoadIn(items, sessionCodec, id).Some? ==>
      SessionKey(id) in items && sessionCodec.decode(items[SessionKey(id)]) == LoadIn(items, sessionCodec, id)
  {
  }

  /** What a save writes: the session with `updatedAt` set to the time of saving. */
  function Stamped(session: SessionState, now: nat): SessionState {
    session.(updatedAt := now)
  }

  /** The synchronous part of `saveSession`: the record is written. */
  function WithRecord(items: Items, sessionCodec: Codec<SessionState>, session: SessionState, now: nat): Items {
    items[SessionKey(session.sessionId) := sessionCodec.encode(Stamped(session, now))]
  }

  /** The index write `saveSession` performs after its `await`, computed from the index it
      read: the id is appended when it was not listed, otherwise nothing is written. */
  function IndexWriteAfterSave(ids: seq<string>, id: string): Option<seq<string>> {
    if id in ids then None else Some(ids + [id])
  }

  /** An index write. */
  function WithIndex(items: Items, indexCodec: Codec<seq<string>>, ids: seq<string>): Items {
    items[SessionListKey := indexCodec.encode(ids)]
  }

  /** The contents after an index write that may be absent. */
  function WithIndexWrite(items: Items, indexCodec: Codec<seq<string>>, write: Option<seq<string>>): Items {
    match write
    case None => items
    case Some(ids) => WithIndex(items, indexCodec, ids)
  }

  /** The contents after a completed `saveSession` on storage that accepts writes. */
  function SavedItems(items: Items, sessionCodec: Codec<SessionState>, indexCodec: Codec<seq<string>>,
                      session: SessionState, now: nat): Items {
    var written := WithRecord(items, sessionCodec, session, now);
    WithIndexWrite(written, indexCodec, IndexWriteAfterSave(ListIn(written, indexCodec), session.sessionId))
  }

  /** The contents after a completed `deleteSession` on storage that accepts writes. */
  function DeletedItems(items: Items, indexCodec: Codec<seq<string>>, id: string): Items {
    var removed := items - {SessionKey(id)};
    WithIndex(removed, indexCodec, Without(ListIn(removed, indexCodec), id))
  }

  /** Writing a record leaves the index as it was, and any other record. */
  lemma RecordWriteKeepsIndex(items: Items, sessionCodec: Codec<SessionState>, indexCodec: Codec<seq<string>>,
                              key: string, value: string)
    requires key != SessionListKey
    ensures ListIn(items[key := value], indexCodec) == ListIn(items, indexCodec)
  {
  }

  /** After a save the session reads back as saved (stamped with the time of saving) and is
      listed exactly once more if it was new; every other record reads back as before. */
  lemma SaveThenLoad(items: Items, sessionCodec: Codec<SessionState>, indexCodec: Codec<seq<string>>,
                     session: SessionState, now: nat, other: string)
    requires Lawful(sessionCodec) && Lawful(indexCodec)
    ensures var after := SavedItems(items, sessionCodec, indexCodec, session, now);
      && LoadIn(after, sessionCodec, session.sessionId) == Some(Stamped(session, now))
      && (other != session.sessionId ==> LoadIn(after, sessionCodec, other) == LoadIn(items, sessionCodec, other))
      && ListIn(after, indexCodec) == (var ids := ListIn(items, indexCodec);
                                       if session.sessionId in ids then ids else ids + [session.sessionId])
  {
    var id := session.sessionId;
    var written := WithRecord(items, sessionCodec, session, now);
    SessionKeyNotListKey(id);
    SessionKeyNotListKey(other);
    SessionKeyInjective(id, other);
    RecordWriteKeepsIndex(items, sessionCodec, indexCodec, SessionKey(id), sessionCodec.encode(Stamped(session, now)));
    assert sessionCodec.decode(sessionCodec.encode(Stamped(session, now))) == Some(Stamped(session, now));
    var ids := ListIn(items, indexCodec);
    assert indexCodec.decode(indexCodec.encode(ids + [id])) == Some(ids + [id]);
  }

  /** Saving a session over an earlier save of the same id leaves what the later save alone
      would leave: the record is the later one and the index lists the id once. */
  lemma SaveOverSave(items: Items, sessionCodec: Codec<SessionState>, indexCodec: Codec<seq<string>>,
                     first: SessionState, t1: nat, second: SessionState, t2: nat)
    requires Lawful(indexCodec)
    requires first.sessionId == second.sessionId
    ensures SavedItems(SavedItems(items, sessionCodec, indexCodec, first, t1), sessionCodec, indexCodec, second, t2)
            == SavedItems(items, sessionCodec, indexCodec, second, t2)
  {
    var id := first.sessionId;
    SessionKeyNotListKey(id);
    var ids := ListIn(items, indexCodec);
    RecordWriteKeepsIndex(items, sessionCodec, indexCodec, SessionKey(id), sessionCodec.encode(Stamped(first, t1)));
    var once := SavedItems(items, sessionCodec, indexCodec, first, t1);
    if id !in ids {
      assert indexCodec.decode(indexCodec.encode(ids + [id])) == Some(ids + [id]);
      assert ListIn(once, indexCodec) == ids + [id];
    }
    RecordWriteKeepsIndex(once, sessionCodec, indexCodec, SessionKey(id), sessionCodec.encode(Stamped(second, t2)));
  }

  /** After a delete the session no longer loads and is no longer listed; every other record
      and every other listed id stays. */
  lemma DeleteThenLoad(items: Items, sessionCodec: Codec<SessionState>, indexCodec: Codec<seq<string>>,
                       id: string, other: string)
    requires Lawful(indexCodec)
    ensures var after := DeletedItems(items, indexCodec, id);
      && LoadIn(after, sessionCodec, id) == None
      && (other != id ==> LoadIn(after, sessionCodec, other) == LoadIn(items, sessionCodec, other))
      && ListIn(after, indexCodec) == Without(ListIn(items, indexCodec), id)
  {
    SessionKeyNotListKey(id);
    SessionKeyNotListKey(other);
    SessionKeyInjective(id, other);
    var ids := Without(ListIn(items - {SessionKey(id)}, indexCodec), id);
    assert ListIn(items - {SessionKey(id)}, indexCodec) == ListIn(items, indexCodec);
    assert indexCodec.decode(indexCodec.encode(ids)) == Some(ids);
  }

  /** The index and the records agree: every listed id has a record, every record is listed,
      and no id is listed twice. */
  ghost predicate Consistent(items: Items, indexCodec: Codec<seq<string>>) {
    var ids := ListIn(items, indexCodec);
    && (forall i :: 0 <= i < |ids| ==> SessionKey(ids[i]) in items)
    && (forall id :: SessionKey(id) in items ==> id in ids)
    && NoDuplicates(ids)
  }

  /** A completed save keeps the index and the records in agreement. */
  lemma SaveKeepsConsistent(items: Items, sessionCodec: Codec<SessionState>, indexCodec: Codec<seq<string>>,
                            session: SessionState, now: nat)
    requires Lawful(sessionCodec) && Lawful(indexCodec)
    requires Consistent(items, indexCodec)
    ensures Consistent(SavedItems(items, sessionCodec, indexCodec, session, now), indexCodec)
  {
    var after := SavedItems(items, sessionCodec, indexCodec, session, now);
    var id := session.sessionId;
    SaveThenLoad(items, sessionCodec, indexCodec, session, now, id);
    SessionKeyNotListKey(id);
    var ids := ListIn(items, indexCodec);
    var newIds := ListIn(after, indexCodec);
    forall i | 0 <= i < |newIds| ensures SessionKey(newIds[i]) in after {
      if i < |ids| { assert newIds[i] == ids[i]; }
    }
    forall x | SessionKey(x) in after ensures x in newIds {
      SessionKeyInjective(x, id);
      SessionKeyNotListKey(x);
    }
  }

  /** A completed delete keeps the index and the records in agreement. */
  lemma DeleteKeepsConsistent(items: Items, indexCodec: Codec<seq<string>>, id: string)
    requires Lawful(indexCodec)
    requires Consistent(items, indexCodec)
    ensures Consistent(DeletedItems(items, indexCodec, id), indexCodec)
  {
    var after := DeletedItems(items, indexCodec, id);
    var ids := ListIn(items, indexCodec);
    SessionKeyNotListKey(id);
    assert ListIn(items - {SessionKey(id)}, indexCodec) == ids;
    var newIds := Without(ids, id);
    assert indexCodec.decode(indexCodec.encode(newIds)) == Some(newIds);
    assert ListIn(after, indexCodec) == newIds;
    forall i | 0 <= i < |newIds| ensures SessionKey(newIds[i]) in after {
      assert newIds[i] in ids;
      var j :| 0 <= j < |ids| && ids[j] == newIds[i];
      SessionKeyInjective(newIds[i], id);
      SessionKeyNotListKey(newIds[i]);
    }
    forall x | SessionKey(x) in after ensures x in newIds {
      SessionKeyInjective(x, id);
      SessionKeyNotListKey(x);
    }
  }

  /** `LocalStorageAdapter` over the browser's storage. `quotaExceeded` models a storage that
      refuses every `setItem`; `removeItem` never fails. */
  class LocalStorageAdapter {
    var items: Items
    const quotaExceeded: bool
    const sessionCodec: Codec<SessionState>
    const indexCodec: Codec<seq<string>>

    ghost predicate Valid()
      reads this
    {
      Lawful(sessionCodec) && Lawful(indexCodec)
    }

    constructor(initial: Items, quotaExceeded: bool, sessionCodec: Codec<SessionState>, indexCodec: Codec<seq<string>>)
      requires Lawful(sessionCodec) && Lawful(indexCodec)
      ensures Valid()
      ensures items == initial && this.quotaExceeded == quotaExceeded
      ensures this.sessionCodec == sessionCodec && this.indexCodec == indexCodec
    {
      items := initial;
      this.quotaExceeded := quotaExceeded;
      this.sessionCodec := sessionCodec;
      this.indexCodec := indexCodec;
    }

    /** `listSessions`. */
    function ListSessions(): seq<string>
      reads this
    {
      ListIn(items, indexCodec)
    }

    /** `loadSession`. */
    function LoadSession(id: string): Option<SessionState>
      reads this
    {
      LoadIn(items, sessionCodec, id)
    }

    /** `saveSession` up to its `await`: the record is written and the index read; `pending` is
        the index write the rest of the call will perform. A refused write fails the call. */
    method BeginSave(session: SessionState, now: nat) returns (r: Outcome<string>, pending: Option<seq<string>>)
      modifies this
      ensures quotaExceeded ==> r == Fail(SaveFailed) && pending == None && items == old(items)
      ensures !quotaExceeded ==> r == Pass && items == WithRecord(old(items), sessionCodec, session, now)
      ensures !quotaExceeded ==> pending == IndexWriteAfterSave(ListIn(old(items), indexCodec), session.sessionId)
    {
      if quotaExceeded {
        return Fail(SaveFailed), None;
      }
      items := items[SessionKey(session.sessionId) := sessionCodec.encode(Stamped(session, now))];
      SessionKeyNotListKey(session.sessionId);
      var ids := ListSessions();
      r := Pass;
      pending := if session.sessionId in ids then None else Some(ids + [session.sessionId]);
    }

    /** The index write a save or delete performs after its `await`. */
    method WriteIndex(ids: seq<string>, failure: string) returns (r: Outcome<string>)
      modifies this
      ensures quotaExceeded ==> r == Fail(failure) && items == old(items)
      ensures !quotaExceeded ==> r == Pass && items == WithIndex(old(items), indexCodec, ids)
    {
      if quotaExceeded {
        return Fail(failure);
      }
      items := items[SessionListKey := indexCodec.encode(ids)];
      r := Pass;
    }

    /** `await saveSession(session)`. */
    method SaveSession(session: SessionState, now: nat) returns (r: Outcome<string>)
      requires Valid()
      modifies this
      ensures quotaExceeded ==> r == Fail(SaveFailed) && items == old(items)
      ensures !quotaExceeded ==> r == Pass && items == SavedItems(old(items), sessionCodec, indexCodec, session, now)
    {
      SessionKeyNotListKey(session.sessionId);
      RecordWriteKeepsIndex(items, sessionCodec, indexCodec, SessionKey(session.sessionId),
                            sessionCodec.encode(Stamped(session, now)));
      var pending;
      r, pending := BeginSave(session, now);
      if pending.Some? {
        r := WriteIndex(pending.value, SaveFailed);
      }
    }

    /** `deleteSession` up to its `await`: the record is removed and the index read; `pending`
        is the filtered index the rest of the call will write. */
    method BeginDelete(id: string) returns (pending: seq<string>)
      modifies this
      ensures items == old(items) - {SessionKey(id)}
      ensures pending == Without(ListIn(old(items), indexCodec), id)
    {
      items := items - {SessionKey(id)};
      SessionKeyNotListKey(id);
      var ids := ListSessions();
      pending := Without(ids, id);
    }

    /** `await deleteSession(id)`. The record is removed even when the index write is refused. */
    method DeleteSession(id: string) returns (r: Outcome<string>)
      modifies this
      ensures quotaExceeded ==> r == Fail(DeleteFailed) && items == old(items) - {SessionKey(id)}
      ensures !quotaExceeded ==> r == Pass && items == DeletedItems(old(items), indexCodec, id)
    {
      SessionKeyNotListKey(id);
      assert ListIn(items - {SessionKey(id)}, indexCodec) == ListIn(items, indexCodec);
      var pending := BeginDelete(id);
      r := WriteIndex(pending, DeleteFailed);
    }
  }
}
