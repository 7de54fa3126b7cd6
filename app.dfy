/**
 * app.py: the Streamlit session that holds the chat threads, and the operations of the chat
 * page on it — session defaults, the data-file name, chat titles, creating and switching
 * threads, processing one user message, and the Clear and Logout buttons. Streamlit's
 * `st.session_state` is the class `SessionState`: the five chat keys are typed fields, every
 * other key lives in the map `keys`. Each method changes the session as the matching `After…`
 * function of a `Session` snapshot says, and the lemmas state what those functions promise.
 */
module App {
  import opened Wrappers
  import opened Text
  import Chatbot

  /** One chat message: a role ("user" or "bot") and its text. */
  datatype Message = Message(role: string, text: string)

  /** An entry of `all_chats`. */
  datatype ChatRecord = ChatRecord(title: string, history: seq<Message>, dates: seq<string>, context: seq<string>, created: string)

  /** The values held under the session keys other than the chat keys. */
  datatype Value =
    | Nil
    | Bool(b: bool)
    | Str(s: string)
    | Number(n: int)
    | Texts(items: seq<string>)
    | Stamps(stamps: map<string, int>)
    | Profile(fields: map<string, string>)
    | Credentials(token: string)

  /** Python truthiness of a stored value. */
  predicate Truthy(v: Value) {
    match v
    case Nil => false
    case Bool(b) => b
    case Str(s) => s != ""
    case Number(n) => n != 0
    case Texts(items) => items != []
    case Stamps(stamps) => stamps != map[]
    case Profile(fields) => fields != map[]
    case Credentials(_) => true
  }

  /** `st.session_state.get(key)`. */
  function Get(keys: map<string, Value>, key: string): Value {
    if key in keys then keys[key] else Nil
  }

  /**
   * Which of the active lists are the very list objects held by `all_chats[current_chat_id]`.
   * `load_chat` assigns the stored lists without copying, so until the session key is
   * reassigned, appending to or clearing the active list changes the stored entry as well.
   */
  datatype Sharing = Sharing(history: bool, dates: bool, context: bool)

  const NoSharing := Sharing(false, false, false)

  /** The chat keys of the session. */
  datatype Chats = Chats(
    currentChatId: Option<string>,
    history: seq<Message>,
    dates: seq<string>,
    context: seq<string>,
    allChats: map<string, ChatRecord>,
    sharing: Sharing)

  /** A snapshot of the whole session. */
  datatype Session = Session(chats: Chats, keys: map<string, Value>)

  /** `if st.session_state.current_chat_id:` */
  predicate HasCurrentChat(c: Chats) {
    c.currentChatId.Some? && c.currentChatId.value != ""
  }

  /** A shared active list really is the stored one: every shared list equals the list of the current entry. */
  predicate Coherent(c: Chats) {
    ((c.sharing.history || c.sharing.dates || c.sharing.context) ==>
       c.currentChatId.Some? && c.currentChatId.value in c.allChats)
    && (c.sharing.history ==> c.allChats[c.currentChatId.value].history == c.history)
    && (c.sharing.dates ==> c.allChats[c.currentChatId.value].dates == c.dates)
    && (c.sharing.context ==> c.allChats[c.currentChatId.value].context == c.context)
  }

  /** Every message has its date. */
  predicate Parallel(c: Chats) {
    |c.history| == |c.dates|
  }

  // ---------------------------------------------------------------- session defaults

  /** The defaults of the session-state initialisation for the keys that are not chat keys. */
  const SessionDefaults: seq<(string, Value)> := [
    ("page", Str("login")),
    ("logged_in", Bool(false)),
    ("email", Nil),
    ("profile_picture", Nil),
    ("name", Str("")),
    ("user_data_file", Nil),
    ("career_stage", Str("")),
    ("interests", Texts([])),
    ("oauth_state", Nil),
    ("google_user_info", Nil),
    ("authenticated", Bool(false)),
    ("user_info", Nil),
    ("credentials", Nil),
    ("show_debug", Bool(false))
  ]

  /** The defaults applied in order, each only to an absent key. */
  function WithDefaults(keys: map<string, Value>, defaults: seq<(string, Value)>): (r: map<string, Value>)
    ensures forall k :: k in keys ==> k in r && r[k] == keys[k]
    ensures forall k :: k in r <==> k in keys || exists i :: 0 <= i < |defaults| && defaults[i].0 == k
  {
    if defaults == [] then keys
    else
      var (k, v) := defaults[|defaults| - 1];
      var before := WithDefaults(keys, defaults[..|defaults| - 1]);
      assert forall i :: 0 <= i < |defaults| - 1 ==> defaults[..|defaults| - 1][i] == defaults[i];
      if k in before then before else before[k := v]
  }

  /** Applying one more default: it is set only when its key is still absent. */
  lemma WithDefaultsStep(keys: map<string, Value>, defaults: seq<(string, Value)>, i: int)
    requires 0 <= i < |defaults|
    ensures var before := WithDefaults(keys, defaults[..i]);
      WithDefaults(keys, defaults[..i + 1]) ==
        if defaults[i].0 in before then before else before[defaults[i].0 := defaults[i].1]
  {
    assert defaults[..i + 1][..i] == defaults[..i];
  }

  /** A key that was absent receives the first default listed for it. */
  lemma {:induction false} WithDefaultsAbsent(keys: map<string, Value>, defaults: seq<(string, Value)>, i: int)
    requires 0 <= i < |defaults| && defaults[i].0 !in keys
    requires forall j :: 0 <= j < i ==> defaults[j].0 != defaults[i].0
    ensures WithDefaults(keys, defaults)[defaults[i].0] == defaults[i].1
    decreases |defaults|
  {
    var init := defaults[..|defaults| - 1];
    if i < |defaults| - 1 {
      assert init[i] == defaults[i];
      assert forall j :: 0 <= j < i ==> init[j] == defaults[j];
      WithDefaultsAbsent(keys, init, i);
    } else {
      assert forall j :: 0 <= j < |init| ==> init[j] == defaults[j];
    }
  }

  /** Running the initialisation again changes nothing: it only fills keys that are absent. */
  lemma {:induction false} WithDefaultsIdempotent(keys: map<string, Value>, defaults: seq<(string, Value)>)
    ensures WithDefaults(WithDefaults(keys, defaults), defaults) == WithDefaults(keys, defaults)
  {
    var once := WithDefaults(keys, defaults);
    AllPresentUnchanged(once, defaults);
  }

  lemma {:induction false} AllPresentUnchanged(keys: map<string, Value>, defaults: seq<(string, Value)>)
    requires forall i :: 0 <= i < |defaults| ==> defaults[i].0 in keys
    ensures WithDefaults(keys, defaults) == keys
  {
    if defaults != [] {
      var init := defaults[..|defaults| - 1];
      assert forall i :: 0 <= i < |init| ==> init[i] == defaults[i];
      AllPresentUnchanged(keys, init);
    }
  }

  // ---------------------------------------------------------------- data file name

  /** `s.replace(a, b)` for single characters. */
  function ReplaceChar(s: string, a: char, b: char): (r: string)
    ensures |r| == |s|
    ensures forall i :: 0 <= i < |s| ==> r[i] == if s[i] == a then b else s[i]
  {
    seq(|s|, i requires 0 <= i < |s| => if s[i] == a then b else s[i])
  }

  /** The middle of the file name: the e-mail with '@' and '.' replaced by '_'. */
  function EmailStem(email: string): string {
    ReplaceChar(ReplaceChar(email, '@', '_'), '.', '_')
  }

  /** The data-file name that `save_user_data` derives from the e-mail. */
  function DataFileName(email: string): string {
    "user_data_" + EmailStem(email) + ".json"
  }

  /** The stem keeps the e-mail's length and every other character, and holds no '@' or '.'. */
  lemma DataFileNameShape(email: string)
    ensures var stem := EmailStem(email);
      && DataFileName(email) == "user_data_" + stem + ".json"
      && |stem| == |email|
      && '@' !in stem && '.' !in stem
      && forall i :: 0 <= i < |email| ==> stem[i] == if email[i] in "@." then '_' else email[i]
  {
    var stem := EmailStem(email);
    assert forall i :: 0 <= i < |stem| ==> stem[i] != '@' && stem[i] != '.';
  }

  /** The session effect of `save_user_data`: with a truthy e-mail it records the data-file name; the file itself is not modelled. */
  function AfterSaveUserData(keys: map<string, Value>): (r: map<string, Value>)
    ensures Get(keys, "email").Str? && Truthy(Get(keys, "email")) ==>
      r == keys["user_data_file" := Str(DataFileName(Get(keys, "email").s))]
    ensures !Truthy(Get(keys, "email")) ==> r == keys
  {
    match Get(keys, "email")
    case Str(e) => if e != "" then keys["user_data_file" := Str(DataFileName(e))] else keys
    case _ => keys
  }

  // ---------------------------------------------------------------- chat title

  const NewChatTitle: string := "New Chat"

  /** The text of the first message whose role is "user", or "New Chat" when there is none. */
  function FirstUserText(history: seq<Message>): (r: string)
    ensures (forall i :: 0 <= i < |history| ==> history[i].role != "user") ==> r == NewChatTitle
    ensures forall i :: 0 <= i < |history| && history[i].role == "user" && (forall j :: 0 <= j < i ==> history[j].role != "user") ==>
      r == history[i].text
  {
    if history == [] then NewChatTitle
    else if history[0].role == "user" then history[0].text
    else
      var rest := FirstUserText(history[1..]);
      assert forall i :: 1 <= i < |history| ==> history[i] == history[1..][i - 1];
      rest
  }

  /** `get_chat_title(chat_history)`. */
  function GetChatTitle(history: seq<Message>): (r: string)
    ensures history == [] ==> r == NewChatTitle
    ensures |FirstUserText(history)| <= 50 ==> history != [] ==> r == FirstUserText(history)
    ensures |FirstUserText(history)| > 50 ==> r == FirstUserText(history)[..50] + "..."
  {
    if history != [] then
      var first := FirstUserText(history);
      if |first| > 50 then first[..50] + "..." else first
    else NewChatTitle
  }

  /** A title is never longer than 53 characters, and it starts with the first user message (or is "New Chat"). */
  lemma TitleShape(history: seq<Message>)
    ensures |GetChatTitle(history)| <= 53
    ensures var first := FirstUserText(history);
      GetChatTitle(history) == first || (|first| > 50 && GetChatTitle(history) == first[..50] + "...")
  {
  }

  // ---------------------------------------------------------------- creating and switching threads

  /** `all_chats[current_chat_id] = {…}` with copies of the three active lists, when there is a current id and a non-empty history. */
  function Checkpoint(c: Chats, now: string): (r: Chats)
    ensures r.currentChatId == c.currentChatId && r.history == c.history && r.dates == c.dates && r.context == c.context
    ensures forall id :: id != c.currentChatId.GetOr("") ==> (id in r.allChats <==> id in c.allChats)
    ensures forall id :: id in c.allChats && id != c.currentChatId.GetOr("") ==> r.allChats[id] == c.allChats[id]
  {
    if HasCurrentChat(c) && c.history != [] then
      c.(allChats := c.allChats[c.currentChatId.value := ChatRecord(GetChatTitle(c.history), c.history, c.dates, c.context, now)],
         sharing := NoSharing)
    else c
  }

  /** `create_new_chat()`, with `newId` for the fresh uuid and `now` for the creation time of the checkpoint. */
  function AfterCreateNewChat(s: Session, newId: string, now: string): (r: Session)
    ensures r.chats.currentChatId == Some(newId) && r.chats.sharing == NoSharing && Coherent(r.chats)
    ensures forall k :: k != "user_data_file" ==> Get(r.keys, k) == Get(s.keys, k)
  {
    var c := Checkpoint(s.chats, now);
    Session(c.(currentChatId := Some(newId), history := [], dates := [], context := [], sharing := NoSharing),
            AfterSaveUserData(s.keys))
  }

  /** `load_chat(chat_id)`. */
  function AfterLoadChat(s: Session, chatId: string, now: string): (r: Session)
    ensures chatId !in s.chats.allChats ==> r == s
    ensures chatId in s.chats.allChats ==>
      r.chats.currentChatId == Some(chatId) && r.chats.sharing == Sharing(true, true, true) && Coherent(r.chats)
    ensures forall k :: k != "user_data_file" ==> Get(r.keys, k) == Get(s.keys, k)
  {
    if chatId !in s.chats.allChats then s
    else
      var c := Checkpoint(s.chats, now);
      var stored := c.allChats[chatId];
      Session(c.(currentChatId := Some(chatId), history := stored.history, dates := stored.dates,
                 context := stored.context, sharing := Sharing(true, true, true)),
              AfterSaveUserData(s.keys))
  }

  /** What `create_new_chat` promises: the old thread is saved under the stated condition, no other entry changes, and a fresh empty thread is current. */
  lemma CreateNewChatEffect(s: Session, newId: string, now: string)
    ensures var r := AfterCreateNewChat(s, newId, now).chats;
      && r.currentChatId == Some(newId) && r.history == [] && r.dates == [] && r.context == []
      && r.sharing == NoSharing && Coherent(r)
      && (HasCurrentChat(s.chats) && s.chats.history != [] ==>
            r.allChats == s.chats.allChats[s.chats.currentChatId.value :=
              ChatRecord(GetChatTitle(s.chats.history), s.chats.history, s.chats.dates, s.chats.context, now)])
      && (!(HasCurrentChat(s.chats) && s.chats.history != []) ==> r.allChats == s.chats.allChats)
  {
  }

  /** `load_chat` with an id that `all_chats` does not hold changes nothing, not even the data-file key. */
  lemma LoadUnknownChatIsNoop(s: Session, chatId: string, now: string)
    requires chatId !in s.chats.allChats
    ensures AfterLoadChat(s, chatId, now) == s
  {
  }

  /** `load_chat` with a known id makes it current with its stored lists, shared with the stored entry; other entries only change by the checkpoint. */
  lemma LoadKnownChatEffect(s: Session, chatId: string, now: string)
    requires chatId in s.chats.allChats
    ensures var r := AfterLoadChat(s, chatId, now).chats;
      && r.currentChatId == Some(chatId)
      && r.allChats == Checkpoint(s.chats, now).allChats
      && r.history == r.allChats[chatId].history && r.dates == r.allChats[chatId].dates
      && r.context == r.allChats[chatId].context
      && r.sharing == Sharing(true, true, true) && Coherent(r)
      && (chatId != s.chats.currentChatId.GetOr("") ==> r.history == s.chats.allChats[chatId].history)
      && (HasCurrentChat(s.chats) && s.chats.history != [] && chatId == s.chats.currentChatId.value ==>
            r.history == s.chats.history && r.dates == s.chats.dates && r.context == s.chats.context)
  {
  }

  // ---------------------------------------------------------------- one user message

  /** `chat_history.append(m)`; a shared list is the stored entry's list, which grows with it. */
  function AppendMessage(c: Chats, m: Message): (r: Chats)
    requires Coherent(c)
    ensures Coherent(r) && r.history == c.history + [m] && r.dates == c.dates && r.context == c.context
    ensures r.currentChatId == c.currentChatId && r.sharing == c.sharing
  {
    var c1 := c.(history := c.history + [m]);
    if c.sharing.history then
      var id := c.currentChatId.value;
      c1.(allChats := c.allChats[id := c.allChats[id].(history := c1.history)])
    else c1
  }

  /** `chat_dates.append(d)`, reaching the stored entry when shared. */
  function AppendDate(c: Chats, d: string): (r: Chats)
    requires Coherent(c)
    ensures Coherent(r) && r.dates == c.dates + [d] && r.history == c.history && r.context == c.context
    ensures r.currentChatId == c.currentChatId && r.sharing == c.sharing
  {
    var c1 := c.(dates := c.dates + [d]);
    if c.sharing.dates then
      var id := c.currentChatId.value;
      c1.(allChats := c.allChats[id := c.allChats[id].(dates := c1.dates)])
    else c1
  }

  /** `conversation_context.append(x)`, then the reassignment to the last 20 entries once there are more than 20. */
  function PushContext(c: Chats, x: string): (r: Chats)
    requires Coherent(c)
    ensures Coherent(r) && r.context == LastN(c.context + [x], 20)
    ensures r.history == c.history && r.dates == c.dates && r.currentChatId == c.currentChatId
  {
    var appended := c.context + [x];
    var c1 :=
      if c.sharing.context then
        var id := c.currentChatId.value;
        c.(context := appended, allChats := c.allChats[id := c.allChats[id].(context := appended)])
      else c.(context := appended);
    if |appended| > 20 then c1.(context := appended[|appended| - 20..], sharing := c1.sharing.(context := false))
    else c1
  }

  const ApologyPrefix: string := "I apologize, but I'm experiencing some technical difficulties. This might be due to API limits or network issues. Please try again in a moment. 🌟\n\nError details: "

  /** The bot's text: the reply of chatbot.py's `ask_gemini`, or the apology with the exception's message. */
  function BotText(reply: Chatbot.Reply): string {
    match reply
    case Generated(text) => text
    case Raised(e) => ApologyPrefix + e
  }

  /** The appends of one exchange to the active thread: the user's message and its context entry, then the bot's `reply`. */
  function AppendExchange(c: Chats, userInput: string, reply: string, stamp: string): Chats
    requires Coherent(c)
  {
    var c1 := AppendDate(AppendMessage(c, Message("user", userInput)), stamp);
    var c2 := PushContext(c1, userInput);
    AppendDate(AppendMessage(c2, Message("bot", reply)), stamp)
  }

  /** Both messages follow the old history with one date each, and the context ends with the input and keeps at most 20 entries. */
  lemma AppendExchangeEffect(c: Chats, userInput: string, reply: string, stamp: string)
    requires Coherent(c)
    ensures var r := AppendExchange(c, userInput, reply, stamp);
      && r.currentChatId == c.currentChatId
      && r.history == c.history + [Message("user", userInput), Message("bot", reply)]
      && r.dates == c.dates + [stamp, stamp]
      && r.context == LastN(c.context + [userInput], 20)
      && |r.context| <= 20 && r.context[|r.context| - 1] == userInput
      && Coherent(r)
      && (Parallel(c) ==> Parallel(r))
  {
    assert (c.history + [Message("user", userInput)]) + [Message("bot", reply)]
      == c.history + [Message("user", userInput), Message("bot", reply)];
    assert (c.dates + [stamp]) + [stamp] == c.dates + [stamp, stamp];
  }

  /** One exchange of `process_user_input`; a first message with no current thread starts a new one. */
  function AfterExchange(s: Session, userInput: string, reply: string, stamp: string, newId: string, now: string): (r: Session)
    requires Coherent(s.chats)
    ensures Coherent(r.chats)
    ensures |r.chats.history| >= 2 && r.chats.history[|r.chats.history| - 2..] == [Message("user", userInput), Message("bot", reply)]
  {
    var s1 := if !HasCurrentChat(s.chats) && s.chats.history == [] then AfterCreateNewChat(s, newId, now) else s;
    CreateNewChatEffect(s, newId, now);
    AppendExchangeEffect(s1.chats, userInput, reply, stamp);
    var c := AppendExchange(s1.chats, userInput, reply, stamp);
    assert c.history[|c.history| - 2..] == [Message("user", userInput), Message("bot", reply)];
    Session(c, AfterSaveUserData(s1.keys))
  }

  /** `process_user_input(user_input)`; `stamp` is the one timestamp taken for both messages. */
  function AfterProcessUserInput(s: Session, userInput: string, backend: string -> Chatbot.Reply,
                                 stamp: string, newId: string, now: string): (r: Session)
    requires Coherent(s.chats)
    ensures Coherent(r.chats) && |r.chats.history| >= 2
    ensures r.chats.history[|r.chats.history| - 1] == Message("bot", BotText(Chatbot.AskGemini(userInput, backend)))
  {
    AfterExchange(s, userInput, BotText(Chatbot.AskGemini(userInput, backend)), stamp, newId, now)
  }

  /** What one exchange does to the thread it appends to. */
  lemma ExchangeEffect(s: Session, userInput: string, reply: string, stamp: string, newId: string, now: string)
    requires Coherent(s.chats)
    ensures var isNew := !HasCurrentChat(s.chats) && s.chats.history == [];
      var before := if isNew then AfterCreateNewChat(s, newId, now).chats else s.chats;
      var r := AfterExchange(s, userInput, reply, stamp, newId, now).chats;
      && r.currentChatId == (if isNew then Some(newId) else s.chats.currentChatId)
      && r.history == before.history + [Message("user", userInput), Message("bot", reply)]
      && r.dates == before.dates + [stamp, stamp]
      && r.context == LastN(before.context + [userInput], 20)
      && |r.context| <= 20 && r.context[|r.context| - 1] == userInput
      && Coherent(r)
      && (Parallel(s.chats) ==> Parallel(r))
  {
    var isNew := !HasCurrentChat(s.chats) && s.chats.history == [];
    CreateNewChatEffect(s, newId, now);
    var before := if isNew then AfterCreateNewChat(s, newId, now).chats else s.chats;
    AppendExchangeEffect(before, userInput, reply, stamp);
  }

  /** What `process_user_input` promises about the thread it appends to. */
  lemma ProcessUserInputEffect(s: Session, userInput: string, backend: string -> Chatbot.Reply,
                               stamp: string, newId: string, now: string)
    requires Coherent(s.chats)
    ensures var isNew := !HasCurrentChat(s.chats) && s.chats.history == [];
      var before := if isNew then AfterCreateNewChat(s, newId, now).chats else s.chats;
      var bot := BotText(Chatbot.AskGemini(userInput, backend));
      var r := AfterProcessUserInput(s, userInput, backend, stamp, newId, now).chats;
      && r.currentChatId == (if isNew then Some(newId) else s.chats.currentChatId)
      && r.history == before.history + [Message("user", userInput), Message("bot", bot)]
      && r.dates == before.dates + [stamp, stamp]
      && r.context == LastN(before.context + [userInput], 20)
      && |r.context| <= 20 && r.context[|r.context| - 1] == userInput
      && Coherent(r)
      && (Parallel(s.chats) ==> Parallel(r))
  {
    ExchangeEffect(s, userInput, BotText(Chatbot.AskGemini(userInput, backend)), stamp, newId, now);
  }

  /** A thread that is not shared keeps its stored record: appending only touches `all_chats` through a shared list. */
  lemma ProcessUserInputKeepsStoredWhenUnshared(s: Session, userInput: string, backend: string -> Chatbot.Reply,
                                                stamp: string, newId: string, now: string)
    requires Coherent(s.chats) && s.chats.sharing == NoSharing
    requires HasCurrentChat(s.chats) || s.chats.history != []
    ensures AfterProcessUserInput(s, userInput, backend, stamp, newId, now).chats.allChats == s.chats.allChats
  {
  }

  // ---------------------------------------------------------------- Clear and Logout

  /** The "Clear Current Chat" button: the three active lists are cleared in place, then `save_user_data`. */
  function AfterClear(s: Session): (r: Session)
    requires Coherent(s.chats)
    ensures r.chats.history == [] && r.chats.dates == [] && r.chats.context == [] && Coherent(r.chats)
    ensures r.chats.currentChatId == s.chats.currentChatId && r.chats.allChats.Keys == s.chats.allChats.Keys
  {
    var c := s.chats;
    var id := c.currentChatId.GetOr("");
    var stored :=
      if id in c.allChats then
        var e := c.allChats[id];
        c.allChats[id := e.(history := if c.sharing.history then [] else e.history,
                           dates := if c.sharing.dates then [] else e.dates,
                           context := if c.sharing.context then [] else e.context)]
      else c.allChats;
    Session(c.(history := [], dates := [], context := [], allChats := if c.sharing.history || c.sharing.dates || c.sharing.context then stored else c.allChats),
            AfterSaveUserData(s.keys))
  }

  /** Clear keeps the current id; it leaves `all_chats` alone unless a list is shared with it, and then empties that list of the stored entry too. */
  lemma ClearEffect(s: Session)
    requires Coherent(s.chats)
    ensures var r := AfterClear(s).chats;
      && r.history == [] && r.dates == [] && r.context == []
      && r.currentChatId == s.chats.currentChatId && r.sharing == s.chats.sharing
      && Coherent(r)
      && (s.chats.sharing == NoSharing ==> r.allChats == s.chats.allChats)
      && r.allChats.Keys == s.chats.allChats.Keys
      && forall id :: id in r.allChats && id != s.chats.currentChatId.GetOr("") ==> r.allChats[id] == s.chats.allChats[id]
  {
  }

  /** Clearing right after loading a saved thread also empties the saved thread, because the lists are shared. */
  lemma ClearAfterLoadEmptiesStoredChat(s: Session, chatId: string, now: string)
    requires chatId in s.chats.allChats
    ensures var loaded := AfterLoadChat(s, chatId, now);
      Coherent(loaded.chats) && AfterClear(loaded).chats.allChats[chatId].history == []
  {
    LoadKnownChatEffect(s, chatId, now);
  }

  /** The keys that Logout pops. */
  const LogoutKeys: set<string> := {
    "page", "logged_in", "email", "profile_picture", "name",
    "google_user_info", "authenticated", "user_info", "credentials",
    "oauth_state", "oauth_state_timestamp", "oauth_states"
  }

  /** The Logout button: `save_user_data`, pop each auth key, set `page` to "login". */
  function AfterLogout(s: Session): (r: Session)
    ensures r.chats == s.chats && Get(r.keys, "page") == Str("login")
    ensures forall k :: k in LogoutKeys && k != "page" ==> k !in r.keys
  {
    var saved := AfterSaveUserData(s.keys);
    Session(s.chats, (saved - LogoutKeys)["page" := Str("login")])
  }

  /** Logout leaves every chat key in place and removes exactly the listed keys other than `page`. */
  lemma LogoutEffect(s: Session)
    ensures var r := AfterLogout(s);
      && r.chats == s.chats
      && Get(r.keys, "page") == Str("login")
      && (forall k :: k in LogoutKeys && k != "page" ==> k !in r.keys)
      && (forall k :: k !in LogoutKeys && k != "user_data_file" ==> (k in r.keys <==> k in s.keys) && Get(r.keys, k) == Get(s.keys, k))
  {
  }

  // ---------------------------------------------------------------- the session object

  class SessionState {
    var currentChatId: Option<string>
    var chatHistory: seq<Message>
    var chatDates: seq<string>
    var conversationContext: seq<string>
    var allChats: map<string, ChatRecord>
    var sharing: Sharing
    var keys: map<string, Value>

    function Snap(): Session
      reads this
    {
      Session(Chats(currentChatId, chatHistory, chatDates, conversationContext, allChats, sharing), keys)
    }

    predicate Valid()
      reads this
    {
      Coherent(Snap().chats)
    }

    /** A new browser session, after the chat keys got their defaults: no current id, empty lists and no saved threads. */
    constructor()
      ensures Valid()
      ensures Snap() == Session(Chats(None, [], [], [], map[], NoSharing), map[])
    {
      currentChatId, chatHistory, chatDates, conversationContext := None, [], [], [];
      allChats, sharing, keys := map[], NoSharing, map[];
    }

    /** The session-state initialisation loop for the keys held in `keys`. */
    method InitDefaults()
      modifies this`keys
      ensures keys == WithDefaults(old(keys), SessionDefaults)
    {
      ApplyDefaults(SessionDefaults);
    }

    /** The initialisation loop: each listed key that the session does not hold yet receives its default, in order. */
    method ApplyDefaults(defaults: seq<(string, Value)>)
      modifies this`keys
      ensures keys == WithDefaults(old(keys), defaults)
    {
      var i := 0;
      while i < |defaults|
        invariant 0 <= i <= |defaults|
        invariant keys == WithDefaults(old(keys), defaults[..i])
      {
        var (k, v) := defaults[i];
        WithDefaultsStep(old(keys), defaults, i);
        if k !in keys {
          keys := keys[k := v];
        }
        i := i + 1;
      }
      assert defaults[..i] == defaults;
    }

    method SaveUserData()
      modifies this`keys
      ensures keys == AfterSaveUserData(old(keys))
    {
      var email := Get(keys, "email");
      if email.Str? && email.s != "" {
        keys := keys["user_data_file" := Str(DataFileName(email.s))];
      }
    }

    method SaveCurrentChat(now: string)
      requires Valid()
      modifies this`allChats, this`sharing
      ensures Valid()
      ensures Snap().chats == Checkpoint(old(Snap().chats), now)
    {
      if currentChatId.Some? && currentChatId.value != "" && chatHistory != [] {
        allChats := allChats[currentChatId.value := ChatRecord(GetChatTitle(chatHistory), chatHistory, chatDates, conversationContext, now)];
        sharing := NoSharing;
      }
    }

    method CreateNewChat(newId: string, now: string)
      requires Valid()
      modifies this
      ensures Valid()
      ensures Snap() == AfterCreateNewChat(old(Snap()), newId, now)
    {
      SaveCurrentChat(now);
      currentChatId := Some(newId);
      chatHistory, chatDates, conversationContext := [], [], [];
      sharing := NoSharing;
      SaveUserData();
    }

    method LoadChat(chatId: string, now: string)
      requires Valid()
      modifies this
      ensures Valid()
      ensures Snap() == AfterLoadChat(old(Snap()), chatId, now)
    {
      if chatId in allChats {
        SaveCurrentChat(now);
        var stored := allChats[chatId];
        currentChatId := Some(chatId);
        chatHistory, chatDates, conversationContext := stored.history, stored.dates, stored.context;
        sharing := Sharing(true, true, true);
        SaveUserData();
      }
    }

    method AppendToHistory(m: Message)
      requires Valid()
      modifies this`chatHistory, this`allChats
      ensures Valid()
      ensures Snap().chats == AppendMessage(old(Snap().chats), m)
    {
      chatHistory := chatHistory + [m];
      if sharing.history {
        var id := currentChatId.value;
        allChats := allChats[id := allChats[id].(history := chatHistory)];
      }
    }

    method AppendToDates(d: string)
      requires Valid()
      modifies this`chatDates, this`allChats
      ensures Valid()
      ensures Snap().chats == AppendDate(old(Snap().chats), d)
    {
      chatDates := chatDates + [d];
      if sharing.dates {
        var id := currentChatId.value;
        allChats := allChats[id := allChats[id].(dates := chatDates)];
      }
    }

    method AppendToContext(x: string)
      requires Valid()
      modifies this`conversationContext, this`allChats, this`sharing
      ensures Valid()
      ensures Snap().chats == PushContext(old(Snap().chats), x)
    {
      conversationContext := conversationContext + [x];
      if sharing.context {
        var id := currentChatId.value;
        allChats := allChats[id := allChats[id].(context := conversationContext)];
      }
      if |conversationContext| > 20 {
        conversationContext := conversationContext[|conversationContext| - 20..];
        sharing := sharing.(context := false);
      }
    }

    method ProcessUserInput(userInput: string, backend: string -> Chatbot.Reply, stamp: string, newId: string, now: string)
      requires Valid()
      modifies this
      ensures Valid()
      ensures Snap() == AfterProcessUserInput(old(Snap()), userInput, backend, stamp, newId, now)
    {
      if !(currentChatId.Some? && currentChatId.value != "") && chatHistory == [] {
        CreateNewChat(newId, now);
      }
      AppendToHistory(Message("user", userInput));
      AppendToDates(stamp);
      AppendToContext(userInput);
      var response := BotText(Chatbot.AskGemini(userInput, backend));
      AppendToHistory(Message("bot", response));
      AppendToDates(stamp);
      SaveUserData();
      assert Snap() == AfterExchange(old(Snap()), userInput, response, stamp, newId, now);
    }

    method ClearCurrentChat()
      requires Valid()
      modifies this
      ensures Valid()
      ensures Snap() == AfterClear(old(Snap()))
    {
      var id := currentChatId.GetOr("");
      if (sharing.history || sharing.dates || sharing.context) && id in allChats {
        var e := allChats[id];
        allChats := allChats[id := e.(history := if sharing.history then [] else e.history,
                                      dates := if sharing.dates then [] else e.dates,
                                      context := if sharing.context then [] else e.context)];
      }
      chatHistory, chatDates, conversationContext := [], [], [];
      SaveUserData();
    }

    method Logout()
      modifies this`keys
      ensures keys == AfterLogout(old(Snap())).keys
    {
      SaveUserData();
      keys := keys - LogoutKeys;
      keys := keys["page" := Str("login")];
    }
  }
}
