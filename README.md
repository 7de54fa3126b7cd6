# Asha AI career chatbot — a Dafny model of its core logic

Asha AI is a Streamlit chatbot that gives women career guidance. This project models the logic
under its user interface and proves what that logic promises:

- **The conversation threads of the chat page** (app.py). The session keeps `current_chat_id`,
  `chat_history`, `chat_dates`, `conversation_context` and `all_chats`. The model covers:
  - creating, checkpointing and switching threads;
  - processing one user message;
  - the Clear and Logout buttons;
  - the session-state defaults and the data-file name.

  `App.SessionState` is a class with those keys as fields. Every other session key lives in the
  map field `keys`. Each method is proved equal to a pure `After…` function of a `Session`
  snapshot, and lemmas state what the functions promise.
- **The OAuth `state` bookkeeping** (auth.py). This is the CSRF defence of the authorization-code
  flow, sections 4.1.1 and 10.12 of RFC 6749. The model covers:
  - recording the state;
  - the 600-second expiry loop;
  - the lenient acceptance rule, exactly as written;
  - clearing the OAuth keys;
  - the dispatch of `handle_oauth_callback` on the query parameters;
  - the syntactic part of `validate_google_email`.
- **The input guardrails and helpers of user_data_manager.py**:
  - denylists and the nonsense test;
  - intent priority;
  - the prompt's context window;
  - reply trimming and error classification;
  - career lists and roadmaps;
  - that module's `ask_gemini`, with the model call as an abstract function.
- **The topic lookup** of chatbot.py over the ordered `asha_topics` table of knowledgebase.py,
  and chatbot.py's `ask_gemini`.
- **The user-record store** of database.py. Firestore and the local JSON files are two maps
  from the e-mail to the record. The model covers the conversation log: append, keep the last
  50, and filter by age.

Files: wrappers.dfy (`Option`), text.dfy (the Python string operations used), knowledgebase.dfy,
chatbot.dfy, guardrails.dfy (user_data_manager.py), app.dfy, auth.dfy, database.dfy.

Modelling choices:
- **The list aliasing of `load_chat` is modelled, not abstracted away.** `load_chat` puts the
  stored lists into the session without copying them (app.py:470-472). Until the session key is
  reassigned, appending to or clearing the active list therefore also changes
  `all_chats[current_chat_id]`. `App.Sharing` records which of the three lists are shared, and
  `App.Coherent` is the invariant that a shared list equals the stored one.
  - Value semantics would be wrong after Clear: clearing a just-loaded thread also empties the
    stored thread (`App.ClearAfterLoadEmptiesStoredChat`, after a load at app.py:454-474).
  - An empty history is then never checkpointed again.
- **`is_topic_found` is modelled once.** chatbot.py:17-22 and user_data_manager.py:79-84 have the
  same body, so `Chatbot.IsTopicFound` serves both modules. They agree on every query by
  construction.
- **app.py calls chatbot.py's `ask_gemini`** (app.py:2). So `App.AfterProcessUserInput` uses
  `Chatbot.AskGemini`. The guardrails of user_data_manager.py stand on their own and nothing in
  app.py reaches them.
- **External inputs are parameters.**
  - The time, the uuid and the random tokens.
  - Backend results: the model call, the token exchange and the DNS lookup are abstract functions.
  - Which store operations raise: a `Database.Faults` value.
  - ISO-timestamp parsing: a partial function `string -> Option<int>`.

## Model

| member | source | states |
|---|---|---|
| Text.LowerIdempotent | chatbot.py:18 | the lowered query has no upper-case letter, and lowering it again changes nothing |
| Text.StripSpec | chatbot.py:35 | `strip()` returns a slice of its input that starts and ends with a non-space character, and everything cut off on either side is whitespace |
| Text.StripEmptyIffAllSpace | user_data_manager.py:62 | `text.strip()` is empty exactly when every character of the text is whitespace |
| Text.ContainsTransitive | chatbot.py:20 | a substring of a phrase that occurs in a text also occurs in it |
| Text.JoinSplit | user_data_manager.py:163-165 | joining the pieces of `split(sep)` with `sep` gives back the text |
| Text.SplitPiecesFree | user_data_manager.py:163 | no piece of `split(sep)` contains the separator |
| Text.JoinPrefixSep | user_data_manager.py:165 | the join of the first k pieces, followed by the separator, is a prefix of the join of all of them |
| Text.LastN | database.py:109 | `xs[-n:]` keeps min(n, len(xs)) items, and they are the tail of `xs` |
| Knowledge.TableSize | knowledgebase.py:1-102 | the table has 20 entries |
| Knowledge.KeysDistinct | knowledgebase.py:1-102 | the 20 keywords are pairwise distinct, and so are their topics |
| Knowledge.KeysLowercase | knowledgebase.py:2-98 | every keyword is lower case, so it can match a lowered query |
| Knowledge.AnswersNonEmpty | knowledgebase.py:2-101 | every answer is a non-empty string |
| Knowledge.BiasPrecedesBiasAtWork | knowledgebase.py:30-76 | "bias" is entry 5 and "bias at work" entry 14, and "bias" occurs inside "bias at work" |
| Chatbot.FirstMatchFrom | chatbot.py:19-22 | the loop from entry `from` returns `None` exactly when no keyword from there on occurs, otherwise the index of the first one that occurs |
| Chatbot.FindTopic | chatbot.py:17-22 | `None` exactly when no keyword occurs in the lowered query; otherwise the topic of the first occurring keyword in table order |
| Chatbot.IsTopicFound | chatbot.py:17-22 | `None` exactly when no keyword occurs in the lowered query; otherwise the answer of the first occurring keyword in table order, which is non-empty |
| Chatbot.IsTopicFoundIgnoresCase | chatbot.py:18 | a query and its lower-case form get the same answer |
| Chatbot.KeywordQueryFindsTopic | chatbot.py:17-22 | a query that is exactly a keyword always finds an answer |
| Chatbot.NeverBiasAtWork | chatbot.py:19-21 | the lookup never yields the "bias at work" topic, because "bias" always matches first |
| Chatbot.NeverBiasAtWorkAnswer | chatbot.py:17-22 | `is_topic_found` never returns the "bias at work" answer text |
| Chatbot.AskGemini | chatbot.py:25-35 | a found answer is returned as is; otherwise the backend text, stripped, or the backend's exception |
| Chatbot.TopicSkipsBackend | chatbot.py:26-28 | when a topic matches, the backend has no influence on the reply |
| Chatbot.BackendSeesOnlyInput | chatbot.py:30-33 | backends that agree on the user input give the same reply |
| Chatbot.GeneratedReplyIsStripped | chatbot.py:35 | a generated reply is a slice of the backend text bounded by non-space characters |
| Guardrails.AnyOccurs | user_data_manager.py:40 | `any(phrase in s ...)` holds exactly when some phrase of the list occurs |
| Guardrails.HandleUserInput | user_data_manager.py:34-42 | the fixed warning exactly when some guardrail phrase occurs in the lowered message, otherwise `None` |
| Guardrails.IsSensitiveContent | user_data_manager.py:44-59 | true exactly when a keyword of either list, or one of the expansions of the extreme patterns, occurs in the lowered query |
| Guardrails.SensitiveListsBoth | user_data_manager.py:46 | a keyword of either list makes a query sensitive |
| Guardrails.WomenAreWorstIsSensitive | user_data_manager.py:50-57 | "women are worst" is sensitive, because `re.search` has no word boundary and finds "men are worst" |
| Guardrails.IsNonsenseInput | user_data_manager.py:61-66 | nonsense exactly when the stripped text is shorter than 3 characters or the text has no ASCII letter or digit |
| Guardrails.SecondGuardUnreachable | user_data_manager.py:134-137 | the second guard of `ask_gemini` only holds where `is_nonsense_input` already did, so it never fires |
| Guardrails.DetectCareerIntent | user_data_manager.py:86-96 | each intent is returned exactly when its words occur and no word of a higher-priority intent does; `None` exactly when no word occurs |
| Guardrails.CareerChangeIsRoadmap | user_data_manager.py:88-91 | "career change" yields roadmap although it also holds the job word "career" |
| Guardrails.RenderedTurns | user_data_manager.py:128-130 | the rendered entries are the last three context entries, or all when there are fewer, each rendered in order |
| Guardrails.CreateContextualPrompt | user_data_manager.py:127-131 | the prompt holds the user input; its context text is "No prior conversation." exactly for an empty context, and otherwise the rendered entries joined by newlines |
| Guardrails.OnlyLastThreeTurns | user_data_manager.py:129 | entries older than the last three never reach the prompt |
| Guardrails.TrimOnlyLongReplies | user_data_manager.py:162-164 | a reply of at most 800 characters, or with at most four sentences, is returned unchanged |
| Guardrails.TrimResponse | user_data_manager.py:161-165 | the reply is either unchanged or ends with the fixed suffix |
| Guardrails.TrimKeepsLeadingSentences | user_data_manager.py:162-165 | a trimmed reply is the fixed suffix after a text that splits into exactly the first four sentences of the reply, and that text followed by the separator is a prefix of the reply |
| Guardrails.ClassifyError | user_data_manager.py:169-178 | the four error classes, each exactly under its condition and in the order the code tests them |
| Guardrails.ClassifyErrorIgnoresCase | user_data_manager.py:170 | the classification ignores the case of the message |
| Guardrails.ErrorReply | user_data_manager.py:169-178 | a failed model call gets a reply that differs from the no-valid-response, nonsense, unclear and sensitive-topic replies |
| Guardrails.AskGemini | user_data_manager.py:133-178 | nonsense input gets the nonsense reply, and sensitive input the sensitive-topic reply, whatever the backend does |
| Guardrails.CannedBeforeBackend | user_data_manager.py:134-139 | for nonsense or sensitive input neither the context nor the backend affects the reply |
| Guardrails.OnlyPromptReachesBackend | user_data_manager.py:141-153 | backends that answer the contextual prompt alike give the same reply: the model call is the only way the backend reaches the reply |
| Guardrails.SamePromptSameReply | user_data_manager.py:141-153 | two contexts that yield the same contextual prompt give the same reply |
| Guardrails.AskGeminiSeesLastThreeTurns | user_data_manager.py:127-141 | context entries older than the last three never change the reply |
| Guardrails.ModelReply | user_data_manager.py:154-178 | a response without candidates yields the found topic answer, otherwise "no valid response"; the emptiness test on a found answer never fails |
| Guardrails.GetCareerSuggestions | user_data_manager.py:180-195 | a field containing "tech" gets the tech list; no field or an empty field gets both lists in order |
| Guardrails.NonTechListUnreachable | user_data_manager.py:190-195 | the non-tech list alone is never returned; a "non-tech" field gets the tech list; any other field gets both |
| Guardrails.FormatRoadmapResponse | user_data_manager.py:197-230 | the stored roadmap for the lowered skill and the level when both exist, otherwise the default roadmap |
| Guardrails.RoadmapIgnoresSkillCase | user_data_manager.py:225 | the skill is matched without regard to case |
| Guardrails.RoadmapLevels | user_data_manager.py:198-224 | only python at beginner or intermediate and data science at beginner have their own roadmap |
| App.WithDefaults | app.py:30-52 | existing keys keep their values, and the result holds exactly the old keys plus the listed ones |
| App.WithDefaultsAbsent | app.py:51-52 | an absent key receives the first default listed for it |
| App.WithDefaultsIdempotent | app.py:30-52 | running the initialisation a second time changes nothing |
| App.SessionState.InitDefaults | app.py:30-52 | the loop leaves `keys` as `WithDefaults` of the old keys and the session defaults |
| App.SessionState.constructor | app.py:30-52 | a new session has no current id, empty lists, no saved threads and nothing shared, so the aliasing invariant holds |
| App.SessionState.ApplyDefaults | app.py:51-52 | the loop body sets a key only when it is absent, so each pass leaves `keys` as `WithDefaults` of the prefix it has seen |
| App.ReplaceChar | app.py:391 | `replace(a, b)` keeps the length and replaces exactly the occurrences of `a` |
| App.DataFileNameShape | app.py:391 | the file name is "user_data_" + stem + ".json"; the stem has the e-mail's length and no '@' or '.', and every other character is kept |
| App.AfterSaveUserData | app.py:389-392 | a non-empty e-mail records the data-file name; otherwise the session is unchanged |
| App.SessionState.SaveUserData | app.py:389-392 | the session keys change as `AfterSaveUserData` says |
| App.FirstUserText | app.py:478 | the text of the first message whose role is "user", or "New Chat" when there is none |
| App.GetChatTitle | app.py:476-481 | "New Chat" for an empty history; otherwise the first user text, cut to 50 characters plus "..." when longer |
| App.TitleShape | app.py:476-481 | a title is at most 53 characters long and is the first user text or its 50-character prefix plus "..." |
| App.Checkpoint | app.py:435-442 | the active lists stay as they are, and no entry other than the current id's is added, removed or changed |
| App.SessionState.SaveCurrentChat | app.py:435-442 | the chat state changes as `Checkpoint` says, and the aliasing invariant holds |
| App.CreateNewChatEffect | app.py:433-452 | the current thread is saved only when there is a current id and a non-empty history; the new id is current with empty lists; nothing is shared |
| App.SessionState.CreateNewChat | app.py:433-452 | the session changes as `AfterCreateNewChat` says, and the aliasing invariant holds |
| App.AfterCreateNewChat | app.py:433-452 | the new id is current, no list is shared, the aliasing invariant holds, and no session key but the data-file name changes |
| App.LoadUnknownChatIsNoop | app.py:454-456 | `load_chat` with an unknown id changes nothing |
| App.LoadKnownChatEffect | app.py:454-474 | a known id becomes current with its stored lists, which are now shared; `all_chats` only changes by the checkpoint |
| App.SessionState.LoadChat | app.py:454-474 | the session changes as `AfterLoadChat` says, and the aliasing invariant holds |
| App.AfterLoadChat | app.py:454-474 | an unknown id changes nothing; a known id becomes current with all three lists shared and the aliasing invariant holding; no session key but the data-file name changes |
| App.AppendMessage | app.py:806-825 | the message is appended to the history; the stored entry grows with it when the history is shared |
| App.SessionState.AppendToHistory | app.py:806-825 | the chat state changes as `AppendMessage` says |
| App.AppendDate | app.py:807-826 | the date is appended; the stored entry grows with it when the dates are shared |
| App.SessionState.AppendToDates | app.py:807-826 | the chat state changes as `AppendDate` says |
| App.PushContext | app.py:810-812 | the context becomes the last 20 of the old context plus the input; the reassignment ends the sharing |
| App.SessionState.AppendToContext | app.py:810-812 | the chat state changes as `PushContext` says |
| App.AppendExchangeEffect | app.py:805-826 | the user and bot messages follow the old history with one date each; the context ends with the input and has at most 20 entries; messages and dates stay parallel |
| App.ExchangeEffect | app.py:799-829 | as above, after a new thread was started when there was no current id and no history |
| App.AfterExchange | app.py:799-829 | the aliasing invariant holds afterwards, and the history ends with the user message followed by the reply |
| App.ProcessUserInputEffect | app.py:799-829 | appends exactly the user message and then the reply of chatbot.py's `ask_gemini`, or the apology with the exception's message; history and dates stay parallel; the context keeps at most 20 entries and ends with the input |
| App.AfterProcessUserInput | app.py:799-829 | the aliasing invariant holds afterwards, and the last message is the bot reply from chatbot.py's `ask_gemini` or the apology |
| App.ProcessUserInputKeepsStoredWhenUnshared | app.py:799-829 | when nothing is shared and no thread is started, `all_chats` is unchanged |
| App.SessionState.ProcessUserInput | app.py:799-829 | the session changes as `AfterProcessUserInput` says, and the aliasing invariant holds |
| App.ClearEffect | app.py:696-702 | the three lists are emptied and the current id kept; `all_chats` is unchanged unless a list is shared, and then only the current entry's shared lists are emptied |
| App.AfterClear | app.py:696-702 | the three active lists are empty, the current id and the set of saved ids are kept, and the aliasing invariant holds |
| App.ClearAfterLoadEmptiesStoredChat | app.py:696-699 | clearing right after loading a saved thread also empties that saved thread's history |
| App.SessionState.ClearCurrentChat | app.py:696-702 | the session changes as `AfterClear` says, and the aliasing invariant holds |
| App.LogoutEffect | app.py:704-715 | the chat state is untouched, `page` is "login", the other listed keys are gone, and every other key except the data-file name keeps its value |
| App.AfterLogout | app.py:704-715 | the chat state is untouched, `page` is "login", and every other listed key is gone |
| App.SessionState.Logout | app.py:704-715 | the session keys change as `AfterLogout` says |
| Auth.Unexpired | auth.py:76-80 | exactly the entries at most 600 seconds old survive, with their timestamps |
| Auth.StateAccepted | auth.py:83-101 | a missing or empty state passes; a state equal to `oauth_state` or kept in the pruned map passes; a refusal needs something stored |
| Auth.AfterAuthorization | auth.py:50-60 | the state is current and stamped now in `oauth_states`, the older entries stay, and no key outside the three OAuth keys changes |
| Auth.CallbackAccepts | auth.py:72-96 | over the stored map, a non-empty state is accepted exactly when it equals `oauth_state`, is a key at most 600 seconds old, or no `oauth_state` and no unexpired entry is stored |
| Auth.StoredStateAcceptedAtAnyAge | auth.py:72-88 | the stored `oauth_state` is accepted at any age, because its timestamp is never read |
| Auth.AbsentStateAccepted | auth.py:97-101 | a missing or empty state is always accepted |
| Auth.ExpiredEntriesAcceptAnything | auth.py:77-96 | with no `oauth_state` and only expired entries, every state is accepted |
| Auth.ExpiryBoundary | auth.py:77-78 | while a different `oauth_state` is stored, an entry aged exactly 600 seconds is accepted and one aged 601 seconds is not |
| Auth.AuthorizeThenCallback | auth.py:50-91 | the state recorded by `get_authorization_url` is accepted by a callback within 600 seconds |
| Auth.ReplayAcceptsAnyState | auth.py:103-141 | after any callback the OAuth keys are gone, so a replayed callback accepts every state |
| Auth.GoogleAuthenticator.constructor | auth.py:25-33 | stores the client settings and the three scopes |
| Auth.GoogleAuthenticator.GetAuthorizationUrl | auth.py:50-60 | uses the given state or, when it is falsy, the fresh token; records it as `oauth_state` with the time, and as a key of `oauth_states` stamped now, creating the map when absent |
| Auth.GoogleAuthenticator.PruneExpired | auth.py:73-80 | the pop loop leaves exactly `Unexpired` of the stored map, written back in place when the map exists |
| Auth.GoogleAuthenticator.ClearOAuthState | auth.py:136-141 | removes exactly the three OAuth keys |
| Auth.GoogleAuthenticator.HandleCallback | auth.py:70-134 | the result is the user info and credentials when the state is accepted and the exchange succeeds, else `None`; the OAuth keys are cleared on every outcome |
| Auth.ResetAuthState | auth.py:231-240 | removes exactly the three OAuth keys plus `user_info`, `authenticated` and `credentials` |
| Auth.ValidateGoogleEmail | auth.py:152-168 | the format is checked first, then the three placeholder addresses regardless of case; the address is valid exactly when it passes both and its domain resolves |
| Auth.MatchesEmailPattern | auth.py:153-154 | a matching address holds exactly one '@', after a non-empty local part |
| Auth.IsFakeAddress | auth.py:157-160 | the placeholder addresses, with or without a final newline; every one is lower case, so each can match the lowered address |
| Auth.MatchedAddressDomain | auth.py:153-164 | a matching address has a single '@', and the DNS lookup gets exactly what follows it |
| Auth.FakeCheckIgnoresCase | auth.py:157-160 | "TEST@Test.com" is refused as a placeholder address |
| Auth.TrailingNewlinePassesFormat | auth.py:153-154 | "ab@cd.org\n" passes the format check, because `$` matches before a final newline |
| Auth.ReadCallback | auth.py:187-228 | 'code' is read first with its optional 'state', each list contributing its first element; 'error' only without 'code'; neither gives no callback |
| Auth.CodeBeforeError | auth.py:187-218 | with 'code' present, 'error' is never consulted |
| Auth.HandleOAuthCallback | auth.py:180-228 | True with the user info, authenticated flag and credentials stored when the callback yields a non-empty user info; False on a failed callback or an OAuth error; None with neither parameter; an empty list raises IndexError |
| Database.Stamp | database.py:43 | sets `last_updated` to now and changes nothing else |
| Database.Merge | database.py:48 | the new top-level fields win, stored fields not in the new record stay, and a new list replaces the stored one |
| Database.SaveEffect | database.py:41-54 | with Firestore in use and writable: merged into the document; otherwise written locally when the storage path is set and the write does not raise; the result says whether a write succeeded |
| Database.Loaded | database.py:56-69 | with Firestore readable, the document or `None` without consulting the files; otherwise the local record when the storage path is set, the read does not raise and the file exists |
| Database.SaveThenLoad | database.py:41-69 | a save that reached the store the next load reads is seen by that load, with its fields, its list and the new `last_updated` |
| Database.FallbackSaveUnseen | database.py:45-63 | a failed Firestore write changes nothing that the next successful Firestore read sees |
| Database.FirestoreFallbackFails | database.py:17-93 | in Firestore mode, where no storage path was set, a failed Firestore write returns False and changes no store, and a failed Firestore read returns `None` |
| Database.IntendedFallbackRoundTrip | database.py:45-93 | with a storage path in Firestore mode too, a record saved while Firestore writes fail is read back while Firestore reads fail |
| Database.UserDataManager.constructor | database.py:17-39 | Firestore is used only when requested and its initialisation succeeds; the stores are the documents and files that already exist |
| Database.UserDataManager.LoadLocally | database.py:83-93 | the locally stored record itself; `None` when there is none, the read raises, or Firestore is in use and no storage path was set |
| Database.UserDataManager.LoadUserData | database.py:56-69 | with Firestore readable, the document or `None` for a missing one; a failed Firestore read gives `None`; without Firestore, the local record |
| Database.UserDataManager.SaveLocally | database.py:71-81 | stores the record exactly when Firestore is not in use and the write does not raise, and reports which happened |
| Database.UserDataManager.SaveUserData | database.py:41-54 | the stores and the result change as `SaveEffect` says; in Firestore mode a failed Firestore write returns False and changes nothing |
| Database.StampConversation | database.py:103-104 | the record carries the time as 'timestamp' and the fresh token as 'session_id', and keeps its other fields |
| Database.AddConversation | database.py:99-109 | a missing list starts empty; the new record is last; the length is one more than before, capped at 50; the result is the tail of the old list plus the new record |
| Database.ConversationUpdate | database.py:97-109 | keeps the loaded record's fields (none without a record); the list ends with the stamped conversation and holds at most 50; with no record it holds only that conversation |
| Database.FullLogDropsOldest | database.py:106-109 | adding to a full list drops exactly the oldest record and keeps the others in order |
| Database.UserDataManager.SaveConversation | database.py:95-111 | the stores change as `save_user_data` of the loaded record (or an empty one) with the stamped conversation added |
| Database.SavedConversationIsLast | database.py:95-111 | after a Firestore merge the stored list ends with the new conversation, has at most 50 entries, and `last_updated` is now |
| Database.RecentConcat | database.py:123-130 | the filter distributes over concatenation, so kept records stay in stored order |
| Database.RecentMembers | database.py:123-130 | a record is kept exactly when it is stored and its timestamp parses to a time strictly after the cutoff |
| Database.Recent | database.py:121-130 | keeps at most the stored records, and only stored records whose timestamp parses to a time after the cutoff |
| Database.History | database.py:113-132 | a record is in the history exactly when there is a record with a conversations list holding it and it is recent |
| Database.UserDataManager.GetConversationHistory | database.py:113-132 | the loop returns the stored conversations that are recent, in their stored order, and [] without a record or a list |
| Database.HistoryWithoutConversations | database.py:115-117 | no record, or one without 'conversations', gives an empty history |

## Findings

| source | as written | input that shows it | evidently intended | confidence | as-written member | corrected member |
|---|---|---|---|---|---|---|
| database.py:21-39 | `local_storage_path` is assigned only when Firestore is not used (lines 24 and 38), so in Firestore mode the local fallback of `save_user_data` and `load_user_data` raises AttributeError, which its handler turns into False or `None` | a manager whose Firebase initialisation succeeded, then a save while the Firestore write raises: it returns False and nothing is stored; a load while the Firestore read raises returns `None` | the local file is the fallback store in Firestore mode too, so the storage path is set in both modes | high; not executed | Database.FirestoreFallbackFails | Database.IntendedFallbackRoundTrip |

`Database.UserDataManager` models the code as written; `SaveEffect` and `Loaded` take whether the storage path is set, and with it set the fallback round-trips.

## Left out

- The Streamlit pages, CSS and widgets, and the `st.rerun`, `st.error`, `st.warning` and `st.success` calls. They are presentation; `st.rerun` is read as the end of an operation.
- app.py's `load_user_data`, `login_page`, `chat_page` and `main`: the interface that drives the modelled operations.
- The Gemini client setup and calls, Google's `Flow` and the token exchange, the `requests` user-info call, the Firebase client, and the DNS lookup. Each is an abstract function, or a success/failure flag, passed as a parameter.
- File I/O: the JSON dump in app.py's `save_user_data` and the local files of database.py. The local files are a map keyed by e-mail; the MD5 file name is not modelled.
- config.py: it only reads environment variables.
- Randomness and clocks: `uuid.uuid4`, `secrets.token_urlsafe`, `time.time()`, `datetime.now()` and `strftime` become parameters. Time in auth.py is whole seconds, and the two `time.time()` calls of `get_authorization_url` read the same `now`.
- `str.lower()` is modelled on ASCII letters only, and regex `\w` as ASCII letters, digits and '_'. `strip()` uses Python's full whitespace set.
- The wording of `base_prompt` (user_data_manager.py:98-125). The prompt is modelled as the pair of the context text and the user input.
- The module-level start-up checks that raise when the API key is missing or the test call fails (chatbot.py:9-14, user_data_manager.py:7-21).
- Guardrails.AskGemini: the `contextual_prompt is None` branch (user_data_manager.py:142-143) is not modelled, because `create_contextual_prompt` always returns a string.
- Auth.HandleOAuthCallback: does not model the exception branch at auth.py:213-215. It is reached when `Flow.from_client_config` (auth.py:108-120), which runs before the `try` of `handle_callback`, raises on a malformed client configuration; `oauth_state` and `oauth_states` then stay stored. The model's exchange results cover only the failures inside that `try`.
- Auth.StoredStates: an `oauth_states` value that is not a map of timestamps reads as empty; the code would raise on it.
- Auth.GoogleAuthenticator.GetAuthorizationUrl: returns the state placed in the URL, not the URL itself, which `Flow.authorization_url` builds.
- App.AfterSaveUserData: a truthy e-mail that is not a string, which `.replace` would reject, is not modelled.
- App.SessionState: a key that Logout popped reads as `Nil` through `Get`. In Streamlit the next run of the script restores its default, which the model leaves to a later `InitDefaults` call.
- Database.Merge: merges the top level only; Firestore's `merge=True` also merges nested maps field by field.
- Database.UserData: a record keeps string-valued fields and its conversations list only; other JSON values (numbers, nested maps) are not modelled.
- Database.UserDataManager.SaveLocally: a write that raises keeps the old record; in Python `open(filepath, 'w')` at database.py:76 has already emptied the file when `json.dump` raises.
- Database.UserDataManager.SaveConversation: the caller's `conversation_data` dict, which Python stamps in place, is passed by value.
- Database.UserDataManager.SaveConversation: the conversation's 'timestamp' and the record's 'last_updated' read the same `now`; in Python they come from two `datetime.now()` calls (database.py:103 and database.py:43).
- Database.UserDataManager.GetConversationHistory: the `TypeError` of comparing a timezone-aware timestamp with the naive cutoff is not modelled; such a timestamp is whatever `parse` makes of it.
