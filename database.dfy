/**
 * database.py: `UserDataManager`, which keeps one record per e-mail in Firestore or, failing
 * that, in a local JSON file, and the conversation log inside that record. Both stores are
 * maps from the e-mail to the stored record; which store operations throw is given by a
 * `Faults` value, the current time by `now`, and ISO-timestamp parsing by `parse`.
 */
module Database {
  import opened Wrappers
  import opened Text

  /** A conversation record, or the string fields of a user record. */
  type Record = map<string, string>

  /** A user record: its string fields and, when present, its 'conversations' list. */
  datatype UserData = UserData(fields: Record, conversations: Option<seq<Record>>)

  const EmptyUserData := UserData(map[], None)

  /** Python truthiness of the record as a dict: it has at least one key. */
  predicate Truthy(u: UserData) {
    u.fields != map[] || u.conversations.Some?
  }

  /** Which store operations raise during one call. */
  datatype Faults = Faults(firebaseRead: bool, localRead: bool, firebaseWrite: bool, localWrite: bool)

  const KeptConversations: nat := 50
  const SecondsPerDay: int := 86400

  /** `user_data['last_updated'] = now`. */
  function Stamp(data: UserData, now: string): (r: UserData)
    ensures r.fields == data.fields["last_updated" := now] && r.conversations == data.conversations
  {
    data.(fields := data.fields["last_updated" := now])
  }

  /** Firestore's `set(data, merge=True)`: the new top-level fields win, the rest of the stored document stays. */
  function Merge(stored: Option<UserData>, data: UserData): (r: UserData)
    ensures forall k :: k in data.fields ==> k in r.fields && r.fields[k] == data.fields[k]
    ensures stored.Some? ==> forall k :: k in stored.value.fields && k !in data.fields ==> k in r.fields && r.fields[k] == stored.value.fields[k]
    ensures data.conversations.Some? ==> r.conversations == data.conversations
  {
    match stored
    case None => data
    case Some(prev) =>
      UserData(prev.fields + data.fields, if data.conversations.Some? then data.conversations else prev.conversations)
  }

  /** The record for `conversation_data` once `save_conversation` has stamped it. */
  function StampConversation(conv: Record, now: string, sessionId: string): (r: Record)
    ensures "timestamp" in r && r["timestamp"] == now && "session_id" in r && r["session_id"] == sessionId
    ensures forall k :: k in conv && k != "timestamp" && k != "session_id" ==> k in r && r[k] == conv[k]
  {
    conv["timestamp" := now]["session_id" := sessionId]
  }

  /** The list update of `save_conversation`: create the list if absent, append, keep the last 50. */
  function AddConversation(data: UserData, conv: Record): (r: UserData)
    ensures r.fields == data.fields && r.conversations.Some?
    ensures var before := data.conversations.GetOr([]);
      var after := r.conversations.value;
      && |after| == (if |before| + 1 <= KeptConversations then |before| + 1 else KeptConversations)
      && after[|after| - 1] == conv
      && after == (before + [conv])[|before| + 1 - |after|..]
      && (|before| < KeptConversations ==> after == before + [conv])
  {
    var before := data.conversations.GetOr([]);
    data.(conversations := Some(LastN(before + [conv], KeptConversations)))
  }

  /** Adding to a full list drops exactly the oldest conversation and keeps the others in order. */
  lemma FullLogDropsOldest(data: UserData, conv: Record)
    requires data.conversations.Some? && |data.conversations.value| == KeptConversations
    ensures AddConversation(data, conv).conversations.value == data.conversations.value[1..] + [conv]
  {
    var before := data.conversations.value;
    assert (before + [conv])[1..] == before[1..] + [conv];
  }

  /** `conv.get('timestamp', '')`. */
  function TimestampOf(conv: Record): string {
    if "timestamp" in conv then conv["timestamp"] else ""
  }

  /** A conversation is recent when its timestamp parses to a time strictly after the cutoff. */
  predicate IsRecent(conv: Record, cutoff: int, parse: string -> Option<int>) {
    parse(TimestampOf(conv)).Some? && parse(TimestampOf(conv)).value > cutoff
  }

  /** The conversations the history loop keeps, in their stored order. */
  function Recent(convs: seq<Record>, cutoff: int, parse: string -> Option<int>): (r: seq<Record>)
    ensures |r| <= |convs|
    ensures forall c :: c in r ==> c in convs && IsRecent(c, cutoff, parse)
  {
    if convs == [] then []
    else if IsRecent(convs[|convs| - 1], cutoff, parse) then Recent(convs[..|convs| - 1], cutoff, parse) + [convs[|convs| - 1]]
    else Recent(convs[..|convs| - 1], cutoff, parse)
  }

  /** The filter distributes over concatenation, so the kept records stay in their stored order. */
  lemma {:induction false} RecentConcat(a: seq<Record>, b: seq<Record>, cutoff: int, parse: string -> Option<int>)
    ensures Recent(a + b, cutoff, parse) == Recent(a, cutoff, parse) + Recent(b, cutoff, parse)
    decreases |b|
  {
    if b == [] {
      assert a + b == a;
    } else {
      var b' := b[..|b| - 1];
      assert (a + b)[..|a + b| - 1] == a + b';
      assert (a + b)[|a + b| - 1] == b[|b| - 1];
      RecentConcat(a, b', cutoff, parse);
    }
  }

  /** A record is in the history exactly when it is stored and recent: unparsable timestamps are skipped. */
  lemma {:induction false} RecentMembers(convs: seq<Record>, cutoff: int, parse: string -> Option<int>)
    ensures forall c :: c in Recent(convs, cutoff, parse) <==> c in convs && IsRecent(c, cutoff, parse)
  {
    if convs != [] {
      var init := convs[..|convs| - 1];
      RecentMembers(init, cutoff, parse);
      assert convs == init + [convs[|convs| - 1]];
    }
  }

  /** What `get_conversation_history` returns for the loaded record. */
  function History(loaded: Option<UserData>, cutoff: int, parse: string -> Option<int>): (r: seq<Record>)
    ensures forall c :: c in r <==>
      loaded.Some? && Truthy(loaded.value) && loaded.value.conversations.Some?
      && c in loaded.value.conversations.value && IsRecent(c, cutoff, parse)
  {
    if loaded.None? || !Truthy(loaded.value) || loaded.value.conversations.None? then []
    else
      RecentMembers(loaded.value.conversations.value, cutoff, parse);
      Recent(loaded.value.conversations.value, cutoff, parse)
  }

  /** The stores after `save_user_data(email, data)` and its result. */
  datatype Stores = Stores(remote: map<string, UserData>, local: map<string, UserData>, ok: bool)

  /**
   * `save_user_data(email, data)` for a storage mode, where `localPathSet` says whether
   * `local_storage_path` was assigned; without it `_save_locally` raises before writing and
   * returns False.
   */
  function SaveEffect(firebase: bool, localPathSet: bool, remote: map<string, UserData>, local: map<string, UserData>,
                      email: string, data: UserData, now: string, f: Faults): (r: Stores)
    ensures firebase && !f.firebaseWrite ==>
      && r.ok && r.local == local
      && r.remote == remote[email := Merge(if email in remote then Some(remote[email]) else None, Stamp(data, now))]
    ensures !(firebase && !f.firebaseWrite) ==>
      && r.remote == remote && r.ok == (localPathSet && !f.localWrite)
      && r.local == if r.ok then local[email := Stamp(data, now)] else local
  {
    var stamped := Stamp(data, now);
    if firebase && !f.firebaseWrite then
      Stores(remote[email := Merge(if email in remote then Some(remote[email]) else None, stamped)], local, true)
    else if !localPathSet || f.localWrite then Stores(remote, local, false)
    else Stores(remote, local[email := stamped], true)
  }

  /** `load_user_data(email)` from the given stores; without `local_storage_path`, `_load_locally` gives `None`. */
  function Loaded(firebase: bool, localPathSet: bool, remote: map<string, UserData>, local: map<string, UserData>,
                  email: string, f: Faults): (r: Option<UserData>)
    ensures firebase && !f.firebaseRead ==> r == if email in remote then Some(remote[email]) else None
    ensures !(firebase && !f.firebaseRead) ==>
      && (r.Some? <==> localPathSet && !f.localRead && email in local)
      && (r.Some? ==> r.value == local[email])
  {
    var fromLocal := if localPathSet && !f.localRead && email in local then Some(local[email]) else None;
    if firebase && !f.firebaseRead then
      if email in remote then Some(remote[email]) else None
    else fromLocal
  }

  /** A save that reached the store the next load reads is seen by it: its fields, its list and the new `last_updated`. */
  lemma SaveThenLoad(firebase: bool, localPathSet: bool, remote: map<string, UserData>, local: map<string, UserData>,
                     email: string, data: UserData, now: string, fs: Faults, fl: Faults)
    requires !fl.firebaseRead && !fl.localRead
    requires if firebase then !fs.firebaseWrite else localPathSet && !fs.localWrite
    ensures var after := SaveEffect(firebase, localPathSet, remote, local, email, data, now, fs);
      var r := Loaded(firebase, localPathSet, after.remote, after.local, email, fl);
      && after.ok && r.Some?
      && "last_updated" in r.value.fields && r.value.fields["last_updated"] == now
      && (forall k :: k in data.fields && k != "last_updated" ==> k in r.value.fields && r.value.fields[k] == data.fields[k])
      && (data.conversations.Some? ==> r.value.conversations == data.conversations)
      && (!firebase ==> r == Some(Stamp(data, now)))
  {
  }

  /** A failed Firestore write changes nothing the next successful Firestore read can see. */
  lemma FallbackSaveUnseen(localPathSet: bool, remote: map<string, UserData>, local: map<string, UserData>,
                           email: string, data: UserData, now: string, fs: Faults, fl: Faults)
    requires fs.firebaseWrite && !fl.firebaseRead
    ensures var after := SaveEffect(true, localPathSet, remote, local, email, data, now, fs);
      Loaded(true, localPathSet, after.remote, after.local, email, fl) == Loaded(true, localPathSet, remote, local, email, fl)
  {
  }

  /**
   * As written, a manager that uses Firestore never assigns `local_storage_path`: when a
   * Firestore write raises, the local fallback raises too, the save returns False and no store
   * changes; when a Firestore read raises, the load returns `None`.
   */
  lemma FirestoreFallbackFails(remote: map<string, UserData>, local: map<string, UserData>,
                               email: string, data: UserData, now: string, f: Faults)
    ensures f.firebaseWrite ==> SaveEffect(true, false, remote, local, email, data, now, f) == Stores(remote, local, false)
    ensures f.firebaseRead ==> Loaded(true, false, remote, local, email, f) == None
  {
  }

  /**
   * With `local_storage_path` assigned in Firestore mode too, as the fallback is evidently meant
   * to work: a record saved while Firestore writes fail is read back while Firestore reads fail.
   */
  lemma IntendedFallbackRoundTrip(remote: map<string, UserData>, local: map<string, UserData>,
                                  email: string, data: UserData, now: string, fs: Faults, fl: Faults)
    requires fs.firebaseWrite && !fs.localWrite && fl.firebaseRead && !fl.localRead
    ensures var after := SaveEffect(true, true, remote, local, email, data, now, fs);
      after.ok && after.remote == remote && Loaded(true, true, after.remote, after.local, email, fl) == Some(Stamp(data, now))
  {
  }

  /** The record `save_conversation` hands to `save_user_data`, built from what `load_user_data` returned. */
  function ConversationUpdate(loaded: Option<UserData>, conv: Record, now: string, sessionId: string): (r: UserData)
    ensures r.fields == if loaded.Some? && Truthy(loaded.value) then loaded.value.fields else map[]
    ensures r.conversations.Some? && 1 <= |r.conversations.value| <= KeptConversations
    ensures r.conversations.value[|r.conversations.value| - 1] == StampConversation(conv, now, sessionId)
    ensures loaded.None? ==> r.conversations == Some([StampConversation(conv, now, sessionId)])
  {
    var base := if loaded.Some? && Truthy(loaded.value) then loaded.value else EmptyUserData;
    AddConversation(base, StampConversation(conv, now, sessionId))
  }

  class UserDataManager {
    /**
     * `self.use_firebase and self.db`: Firestore was requested and its initialisation succeeded.
     * Only when it is false has `__init__` assigned `local_storage_path`, so the local file
     * operations work exactly when Firestore is not in use.
     */
    const firebase: bool
    /** The Firestore `users` collection. */
    var remote: map<string, UserData>
    /** The local JSON files, one per e-mail. */
    var local: map<string, UserData>

    /** `UserDataManager(use_firebase)` over the stored documents and files; a failing Firebase initialisation falls back to local storage. */
    constructor(useFirebase: bool, firebaseInitSucceeds: bool, documents: map<string, UserData>, files: map<string, UserData>)
      ensures firebase == (useFirebase && firebaseInitSucceeds)
      ensures remote == documents && local == files
    {
      firebase := useFirebase && firebaseInitSucceeds;
      remote, local := documents, files;
    }

    /** `_load_locally(email)`: `None` when the file is missing, the read raises, or there is no storage path. */
    function LoadLocally(email: string, f: Faults): (r: Option<UserData>)
      reads this
      ensures r.Some? <==> !firebase && !f.localRead && email in local
      ensures r.Some? ==> r.value == local[email]
    {
      if !firebase && !f.localRead && email in local then Some(local[email]) else None
    }

    /** `load_user_data(email)`: a missing Firestore document gives `None`; local storage is read only when Firestore raises or is not in use. */
    function LoadUserData(email: string, f: Faults): (r: Option<UserData>)
      reads this
      ensures firebase && !f.firebaseRead ==> r == if email in remote then Some(remote[email]) else None
      ensures firebase && f.firebaseRead ==> r == None
      ensures !firebase ==> r == LoadLocally(email, f)
    {
      Loaded(firebase, !firebase, remote, local, email, f)
    }

    /** `_save_locally(email, user_data)`: fails without writing when the write raises or there is no storage path. */
    method SaveLocally(email: string, data: UserData, f: Faults) returns (ok: bool)
      modifies this`local
      ensures ok == (!firebase && !f.localWrite)
      ensures local == if ok then old(local)[email := data] else old(local)
    {
      if firebase || f.localWrite {
        return false;
      }
      local := local[email := data];
      return true;
    }

    /** `save_user_data(email, user_data)`: stamp `last_updated`, merge into Firestore, or write the local file. */
    method SaveUserData(email: string, data: UserData, now: string, f: Faults) returns (ok: bool)
      modifies this`remote, this`local
      ensures Stores(remote, local, ok) == SaveEffect(firebase, !firebase, old(remote), old(local), email, data, now, f)
      ensures firebase && f.firebaseWrite ==> !ok && remote == old(remote) && local == old(local)
    {
      var stamped := Stamp(data, now);
      if firebase && !f.firebaseWrite {
        var stored := if email in remote then Some(remote[email]) else None;
        remote := remote[email := Merge(stored, stamped)];
        return true;
      }
      ok := SaveLocally(email, stamped, f);
    }

    /** `save_conversation(email, conversation_data)`; `sessionId` stands for the fresh token. */
    method SaveConversation(email: string, conv: Record, now: string, sessionId: string, f: Faults) returns (ok: bool)
      modifies this`remote, this`local
      ensures Stores(remote, local, ok) ==
        SaveEffect(firebase, !firebase, old(remote), old(local), email, ConversationUpdate(old(LoadUserData(email, f)), conv, now, sessionId), now, f)
    {
      var loaded := LoadUserData(email, f);
      var data := if loaded.Some? && Truthy(loaded.value) then loaded.value else EmptyUserData;
      // a missing list starts empty; append, then keep the last `KeptConversations`
      var convs := if data.conversations.None? then [] else data.conversations.value;
      var stamped := StampConversation(conv, now, sessionId);
      convs := LastN(convs + [stamped], KeptConversations);
      assert convs == LastN(data.conversations.GetOr([]) + [stamped], KeptConversations);
      data := data.(conversations := Some(convs));
      ok := SaveUserData(email, data, now, f);
    }

    /** `get_conversation_history(email, days)`: the loop over the stored conversations. */
    method GetConversationHistory(email: string, now: int, parse: string -> Option<int>, f: Faults, days: int := 30)
      returns (recent: seq<Record>)
      ensures recent == History(LoadUserData(email, f), now - days * SecondsPerDay, parse)
    {
      var loaded := LoadUserData(email, f);
      if loaded.None? || !Truthy(loaded.value) || loaded.value.conversations.None? {
        return [];
      }
      var convs := loaded.value.conversations.value;
      var cutoff := now - days * SecondsPerDay;
      recent := [];
      var i := 0;
      while i < |convs|
        invariant 0 <= i <= |convs|
        invariant recent == Recent(convs[..i], cutoff, parse)
      {
        var conv := convs[i];
        var parsed := parse(TimestampOf(conv));
        assert convs[..i + 1][..i] == convs[..i];
        if parsed.Some? && parsed.value > cutoff {
          recent := recent + [conv];
        }
        i := i + 1;
      }
      assert convs[..i] == convs;
    }
  }

  /** A conversation saved through Firestore is the last of the stored list, whatever the stored document held before. */
  lemma SavedConversationIsLast(stored: Option<UserData>, base: UserData, conv: Record, now: string, sessionId: string)
    ensures var data := Stamp(AddConversation(base, StampConversation(conv, now, sessionId)), now);
      var merged := Merge(stored, data).conversations.value;
      && |merged| <= KeptConversations
      && merged[|merged| - 1] == StampConversation(conv, now, sessionId)
      && "last_updated" in Merge(stored, data).fields && Merge(stored, data).fields["last_updated"] == now
  {
  }

  /** With no user record, or one without 'conversations', the history is empty. */
  lemma HistoryWithoutConversations(loaded: Option<UserData>, cutoff: int, parse: string -> Option<int>)
    requires loaded.None? || loaded.value.conversations.None?
    ensures History(loaded, cutoff, parse) == []
  {
  }
}
