/**
 * auth.py: the bookkeeping of the OAuth 2.0 `state` parameter (section 4.1.1 of RFC 6749, with
 * the CSRF defence of its section 10.12) that `GoogleAuthenticator` keeps in the Streamlit
 * session, the syntactic part of `validate_google_email`, the dispatch of `handle_oauth_callback`
 * on the query parameters, and `reset_auth_state`. The token exchange and the user-info request
 * are the abstract function `exchange`; time is whole seconds.
 */
module Auth {
  import opened Wrappers
  import opened Text
  import opened App

  /** Entries of `oauth_states` older than this many seconds are pruned. */
  const StateMaxAge: int := 600

  /** The keys `_clear_oauth_state` removes. */
  const OAuthKeys: set<string> := {"oauth_state", "oauth_state_timestamp", "oauth_states"}

  /** The keys `reset_auth_state` removes. */
  const ResetKeys: set<string> := OAuthKeys + {"user_info", "authenticated", "credentials"}

  /** `st.session_state.get('oauth_states', {})`. */
  function StoredStates(keys: map<string, Value>): map<string, int> {
    match Get(keys, "oauth_states")
    case Stamps(m) => m
    case _ => map[]
  }

  /** The entries that survive the expiry loop: those at most 600 seconds old. */
  function Unexpired(m: map<string, int>, now: int): (r: map<string, int>)
    ensures forall s :: s in r <==> s in m && now - m[s] <= StateMaxAge
    ensures forall s :: s in r ==> r[s] == m[s]
  {
    map s | s in m && now - m[s] <= StateMaxAge :: m[s]
  }

  /**
   * The acceptance decision of `handle_callback` for the received `state`, the stored
   * `oauth_state` and the pruned `oauth_states`: a missing state passes, and a received one is
   * refused only when something is stored and it matches neither.
   */
  function StateAccepted(state: Option<string>, stored: Value, pruned: map<string, int>): (r: bool)
    ensures state.None? || state.value == "" ==> r
    ensures state.Some? && (stored == Str(state.value) || state.value in pruned) ==> r
    ensures !r ==> Truthy(stored) || pruned != map[]
  {
    if state.Some? && state.value != "" then
      stored == Str(state.value) || state.value in pruned || (!Truthy(stored) && pruned == map[])
    else true
  }

  /**
   * Whether `handle_callback(code, state)` at time `now` accepts the state. Over the stored,
   * unpruned map: a non-empty state passes exactly when it is the stored state, a key at most
   * 600 seconds old, or nothing current is stored at all.
   */
  function CallbackAccepts(keys: map<string, Value>, state: Option<string>, now: int): (r: bool)
    ensures state.Some? && state.value != "" ==> (r <==>
      || Get(keys, "oauth_state") == Str(state.value)
      || (state.value in StoredStates(keys) && now - StoredStates(keys)[state.value] <= StateMaxAge)
      || (!Truthy(Get(keys, "oauth_state")) && forall s :: s in StoredStates(keys) ==> now - StoredStates(keys)[s] > StateMaxAge))
  {
    UnexpiredEmpty(StoredStates(keys), now);
    StateAccepted(state, Get(keys, "oauth_state"), Unexpired(StoredStates(keys), now))
  }

  lemma UnexpiredEmpty(m: map<string, int>, now: int)
    ensures Unexpired(m, now) == map[] <==> forall s :: s in m ==> now - m[s] > StateMaxAge
  {
    var p := Unexpired(m, now);
    if p != map[] {
      var s :| s in p;
      assert now - m[s] <= StateMaxAge;
    }
  }

  /** The session after `get_authorization_url` records `state` at `now`: the state is current and stamped in `oauth_states`, and no other key changes. */
  function AfterAuthorization(keys: map<string, Value>, state: string, now: int): (r: map<string, Value>)
    ensures Get(r, "oauth_state") == Str(state) && Get(r, "oauth_state_timestamp") == Number(now)
    ensures StoredStates(r) == StoredStates(keys)[state := now]
    ensures forall k :: k !in OAuthKeys ==> Get(r, k) == Get(keys, k)
  {
    keys["oauth_state" := Str(state)]["oauth_state_timestamp" := Number(now)]
        ["oauth_states" := Stamps(StoredStates(keys)[state := now])]
  }

  /** The state `get_authorization_url` puts into the URL: the given one, or a fresh token when it is falsy. */
  function ChosenState(state: Option<string>, freshToken: string): string {
    if state.Some? && state.value != "" then state.value else freshToken
  }

  /** The outcome of the token exchange and the user-info request for an authorization code. */
  datatype Exchange =
    | SignedIn(userInfo: map<string, string>, token: string)
    | TokenRefused(error: string)
    | UserInfoFailed(error: string)

  /** What `handle_callback` returns: the user info and credentials, or `(None, None)`. */
  function CallbackResult(keys: map<string, Value>, code: string, state: Option<string>, now: int,
                          exchange: string -> Exchange): Option<(map<string, string>, string)>
  {
    if !CallbackAccepts(keys, state, now) then None
    else
      match exchange(code)
      case SignedIn(info, token) => Some((info, token))
      case _ => None
  }

  // ---------------------------------------------------------------- what the rule accepts

  /** The stored `oauth_state` is accepted however old it is: its timestamp is never read. */
  lemma StoredStateAcceptedAtAnyAge(keys: map<string, Value>, state: string, now: int)
    requires Get(keys, "oauth_state") == Str(state)
    ensures CallbackAccepts(keys, Some(state), now)
  {
  }

  /** A missing or empty state parameter is always accepted. */
  lemma AbsentStateAccepted(keys: map<string, Value>, now: int)
    ensures CallbackAccepts(keys, None, now) && CallbackAccepts(keys, Some(""), now)
  {
  }

  /** With no `oauth_state` and only expired entries, every state is accepted — expiry widens what is accepted. */
  lemma ExpiredEntriesAcceptAnything(keys: map<string, Value>, state: string, now: int)
    requires !Truthy(Get(keys, "oauth_state"))
    requires forall s :: s in StoredStates(keys) ==> now - StoredStates(keys)[s] > StateMaxAge
    ensures CallbackAccepts(keys, Some(state), now)
  {
    assert Unexpired(StoredStates(keys), now) == map[];
  }

  /** An entry aged exactly 600 seconds is still accepted; at 601 seconds it is not, once another state is stored. */
  lemma ExpiryBoundary(t: int)
    ensures var keys := map["oauth_state" := Str("newer"), "oauth_states" := Stamps(map["older" := t])];
      CallbackAccepts(keys, Some("older"), t + 600) && !CallbackAccepts(keys, Some("older"), t + 601)
  {
    var keys := map["oauth_state" := Str("newer"), "oauth_states" := Stamps(map["older" := t])];
    assert Unexpired(StoredStates(keys), t + 601) == map[];
    assert Str("newer") != Str("older") by { assert "newer"[0] != "older"[0]; }
  }

  /** The state recorded by `get_authorization_url` is accepted by a callback within 600 seconds. */
  lemma AuthorizeThenCallback(keys: map<string, Value>, state: Option<string>, freshToken: string, t: int, now: int)
    requires now - t <= StateMaxAge
    ensures CallbackAccepts(AfterAuthorization(keys, ChosenState(state, freshToken), t), Some(ChosenState(state, freshToken)), now)
  {
  }

  /** After any callback the OAuth keys are gone, so a replayed callback accepts every state. */
  lemma ReplayAcceptsAnyState(keys: map<string, Value>, state: Option<string>, now: int, later: int)
    ensures CallbackAccepts(keys - OAuthKeys, state, later)
  {
    assert Get(keys - OAuthKeys, "oauth_state") == Nil;
    assert StoredStates(keys - OAuthKeys) == map[];
  }

  // ---------------------------------------------------------------- e-mail syntax

  predicate IsAsciiLetter(c: char) { ('a' <= c <= 'z') || ('A' <= c <= 'Z') }
  predicate IsAsciiDigit(c: char) { '0' <= c <= '9' }

  /** `[a-zA-Z0-9._%+-]` */
  predicate IsLocalChar(c: char) { IsAsciiLetter(c) || IsAsciiDigit(c) || c in "._%+-" }

  /** `[a-zA-Z0-9.-]` */
  predicate IsDomainChar(c: char) { IsAsciiLetter(c) || IsAsciiDigit(c) || c in ".-" }

  /** `d` is `[a-zA-Z0-9.-]+\.[a-zA-Z]{2,}` split at the dot with index `j`. */
  predicate DomainSplitAt(d: string, j: int) {
    && 0 < j < |d| - 2 && d[j] == '.'
    && (forall k :: 0 <= k < j ==> IsDomainChar(d[k]))
    && (forall k :: j < k < |d| ==> IsAsciiLetter(d[k]))
  }

  /** `[a-zA-Z0-9.-]+\.[a-zA-Z]{2,}` matches all of `d`. */
  predicate MatchesDomain(d: string) {
    exists j | 0 <= j < |d| :: DomainSplitAt(d, j)
  }

  /** `e` is `[a-zA-Z0-9._%+-]+@` followed by a domain, with the '@' at index `i`. */
  predicate AddressSplitAt(e: string, i: int) {
    && 0 < i < |e| && e[i] == '@'
    && (forall k :: 0 <= k < i ==> IsLocalChar(e[k]))
    && MatchesDomain(e[i + 1..])
  }

  predicate FullMatchAddress(e: string) {
    exists i | 0 <= i < |e| :: AddressSplitAt(e, i)
  }

  /** `re.match(pattern, email)`, where `$` also matches before a final newline; a matching address has exactly one '@', after a non-empty local part. */
  function MatchesEmailPattern(email: string): (r: bool)
    ensures r ==> exists i :: 0 < i < |email| && email[i] == '@' && forall k :: 0 <= k < |email| && email[k] == '@' ==> k == i
  {
    var r := FullMatchAddress(email) || (|email| > 0 && email[|email| - 1] == '\n' && FullMatchAddress(email[..|email| - 1]));
    if r then MatchHasSingleAt(email); true else false
  }

  lemma MatchHasSingleAt(email: string)
    requires FullMatchAddress(email) || (|email| > 0 && email[|email| - 1] == '\n' && FullMatchAddress(email[..|email| - 1]))
    ensures exists i :: 0 < i < |email| && email[i] == '@' && forall k :: 0 <= k < |email| && email[k] == '@' ==> k == i
  {
    if FullMatchAddress(email) {
      var i :| 0 <= i < |email| && AddressSplitAt(email, i);
      SingleAt(email, i);
    } else {
      var e := email[..|email| - 1];
      var i :| 0 <= i < |e| && AddressSplitAt(e, i);
      SingleAt(email, i);
    }
  }

  const FakeAddresses: set<string> := {"test@test.com", "fake@fake.com", "example@example.com",
                                        "test@test.com\n", "fake@fake.com\n", "example@example.com\n"}

  /** The three placeholder addresses, in either form `re.match` accepts for `^…$`; every one is lower case, so each can match a lowered address. */
  function IsFakeAddress(lowered: string): (r: bool)
    ensures r ==> IsLowercase(lowered)
  {
    lowered in FakeAddresses
  }

  const InvalidFormat: string := "Invalid email format"
  const NotRealAddress: string := "Please use a real email address"
  const ValidEmail: string := "Valid email"
  const InvalidDomain: string := "Invalid email domain"

  /** The part of an address after its '@', which is where `email.split('@')[1]` starts. */
  function DomainOf(email: string): string {
    var parts := Split(email, "@");
    if |parts| >= 2 then parts[1] else ""
  }

  /** `validate_google_email(email)`, with `resolves` standing for the DNS lookup of the domain. */
  function ValidateGoogleEmail(email: string, resolves: string -> bool): (r: (bool, string))
    ensures !MatchesEmailPattern(email) ==> r == (false, InvalidFormat)
    ensures MatchesEmailPattern(email) && IsFakeAddress(Lower(email)) ==> r == (false, NotRealAddress)
    ensures r.0 <==> MatchesEmailPattern(email) && !IsFakeAddress(Lower(email)) && resolves(DomainOf(email))
  {
    if !MatchesEmailPattern(email) then (false, InvalidFormat)
    else if IsFakeAddress(Lower(email)) then (false, NotRealAddress)
    else if resolves(DomainOf(email)) then (true, ValidEmail)
    else (false, InvalidDomain)
  }

  /** A matching address has a single '@', and the DNS lookup gets exactly what follows it. */
  lemma MatchedAddressDomain(email: string, i: int)
    requires AddressSplitAt(email, i) || (|email| > 0 && email[|email| - 1] == '\n' && AddressSplitAt(email[..|email| - 1], i))
    ensures forall k :: 0 <= k < |email| && email[k] == '@' ==> k == i
    ensures DomainOf(email) == email[i + 1..]
  {
    SingleAt(email, i);
    SplitAtSingle(email, i);
  }

  lemma SingleAt(email: string, i: int)
    requires AddressSplitAt(email, i) || (|email| > 0 && email[|email| - 1] == '\n' && AddressSplitAt(email[..|email| - 1], i))
    ensures 0 <= i < |email| && email[i] == '@'
    ensures forall k :: 0 <= k < |email| && email[k] == '@' ==> k == i
  {
    var e := if AddressSplitAt(email, i) then email else email[..|email| - 1];
    var d := e[i + 1..];
    var j :| 0 <= j < |d| && DomainSplitAt(d, j);
    forall k | i < k < |e| ensures e[k] != '@' {
      assert d[k - i - 1] == e[k];
    }
  }

  /** Splitting at the only '@' gives the two sides. */
  lemma SplitAtSingle(s: string, i: int)
    requires 0 <= i < |s| && s[i] == '@'
    requires forall k :: 0 <= k < |s| && s[k] == '@' ==> k == i
    ensures Split(s, "@") == [s[..i], s[i + 1..]]
  {
    var at := IndexFrom(s, "@", 0);
    assert OccursAt(s, "@", i);
    assert at == i by {
      assert s[at..at + 1][0] == s[at];
    }
    var rest := s[i + 1..];
    forall m | 0 <= m < |rest| ensures !OccursAt(rest, "@", m) {
      assert rest[m..m + 1][0] == s[i + 1 + m];
    }
    assert IndexFrom(rest, "@", 0) == -1;
  }

  /** The placeholder check ignores case, so "TEST@Test.com" is refused like "test@test.com". */
  lemma FakeCheckIgnoresCase()
    ensures ValidateGoogleEmail("TEST@Test.com", (d: string) => true) == (false, NotRealAddress)
  {
    var e := "TEST@Test.com";
    assert DomainSplitAt(e[5..], 4);
    assert AddressSplitAt(e, 4);
    assert Lower(e) == "test@test.com";
  }

  /** Because `$` matches before a final newline, an address followed by "\n" passes the format check. */
  lemma TrailingNewlinePassesFormat()
    ensures MatchesEmailPattern("ab@cd.org\n")
  {
    var e := "ab@cd.org";
    assert DomainSplitAt(e[3..], 2);
    assert AddressSplitAt(e, 2);
    assert "ab@cd.org\n"[..9] == e;
  }

  // ---------------------------------------------------------------- callback query parameters

  /** A query parameter: a string, or a list of strings from the older Streamlit API. */
  datatype Param = One(value: string) | Many(values: seq<string>)

  /** `p[0] if isinstance(p, list) else p`, `None` where an empty list would raise IndexError. */
  function FirstValue(p: Param): Option<string> {
    match p
    case One(v) => Some(v)
    case Many(vs) => if vs == [] then None else Some(vs[0])
  }

  /** What `handle_oauth_callback` reads from the query parameters. */
  datatype CallbackParams =
    | CodeParams(code: string, state: Option<string>)
    | ErrorParams(error: string, description: string)
    | NoParams
    | EmptyList

  const NoDescription: string := "No description provided"

  /** The dispatch of `handle_oauth_callback`: 'code' first, then 'error'; a list contributes its first element. */
  function ReadCallback(params: map<string, Param>): (r: CallbackParams)
    ensures "code" in params && FirstValue(params["code"]).Some? && ("state" !in params || FirstValue(params["state"]).Some?) ==>
      r == CodeParams(FirstValue(params["code"]).value, if "state" in params then FirstValue(params["state"]) else None)
    ensures "code" !in params && "error" !in params ==> r == NoParams
    ensures r.ErrorParams? ==> "code" !in params && "error" in params
  {
    if "code" in params then
      match FirstValue(params["code"])
      case None => EmptyList
      case Some(code) =>
        if "state" !in params then CodeParams(code, None)
        else
          match FirstValue(params["state"])
          case None => EmptyList
          case Some(s) => CodeParams(code, Some(s))
    else if "error" in params then
      match FirstValue(params["error"])
      case None => EmptyList
      case Some(e) =>
        var desc := if "error_description" in params then params["error_description"] else Many([NoDescription]);
        match FirstValue(desc)
        case None => EmptyList
        case Some(d) => ErrorParams(e, d)
    else NoParams
  }

  /** 'code' wins over 'error' whenever both are present. */
  lemma CodeBeforeError(params: map<string, Param>)
    requires "code" in params
    ensures ReadCallback(params).CodeParams? || ReadCallback(params) == EmptyList
  {
  }

  /** What `handle_oauth_callback` returns: True, False, None, or the IndexError of an empty list. */
  datatype CallbackOutcome = Authenticated | NotAuthenticated | NoCallback | IndexError

  // ---------------------------------------------------------------- the authenticator

  class GoogleAuthenticator {
    const clientId: string
    const clientSecret: string
    const redirectUri: string
    const scopes: seq<string>

    constructor(clientId: string, clientSecret: string, redirectUri: string)
      ensures this.clientId == clientId && this.clientSecret == clientSecret && this.redirectUri == redirectUri
      ensures scopes == ["openid", "https://www.googleapis.com/auth/userinfo.email", "https://www.googleapis.com/auth/userinfo.profile"]
    {
      this.clientId, this.clientSecret, this.redirectUri := clientId, clientSecret, redirectUri;
      scopes := ["openid", "https://www.googleapis.com/auth/userinfo.email", "https://www.googleapis.com/auth/userinfo.profile"];
    }

    /** The session side of `get_authorization_url`; it returns the state placed in the URL. */
    method GetAuthorizationUrl(session: SessionState, state: Option<string>, freshToken: string, now: int) returns (used: string)
      modifies session`keys
      ensures used == ChosenState(state, freshToken)
      ensures session.keys == AfterAuthorization(old(session.keys), used, now)
    {
      used := ChosenState(state, freshToken);
      session.keys := session.keys["oauth_state" := Str(used)];
      session.keys := session.keys["oauth_state_timestamp" := Number(now)];
      if "oauth_states" !in session.keys {
        session.keys := session.keys["oauth_states" := Stamps(map[])];
      }
      var stored := StoredStates(session.keys);
      session.keys := session.keys["oauth_states" := Stamps(stored[used := now])];
    }

    /** The expiry loop: pop every entry older than 600 seconds from the stored map. */
    method PruneExpired(session: SessionState, now: int) returns (pruned: map<string, int>)
      modifies session`keys
      ensures pruned == Unexpired(StoredStates(old(session.keys)), now)
      ensures session.keys ==
        if "oauth_states" in old(session.keys) && old(session.keys)["oauth_states"].Stamps?
        then old(session.keys)["oauth_states" := Stamps(pruned)] else old(session.keys)
    {
      var original := StoredStates(session.keys);
      var expired := set s | s in original && now - original[s] > StateMaxAge;
      var remaining := expired;
      pruned := original;
      while remaining != {}
        invariant remaining <= expired
        invariant pruned == map s | s in original && (s !in expired || s in remaining) :: original[s]
        decreases remaining
      {
        var s :| s in remaining;
        pruned := map k | k in pruned && k != s :: pruned[k];
        remaining := remaining - {s};
      }
      if "oauth_states" in session.keys && session.keys["oauth_states"].Stamps? {
        session.keys := session.keys["oauth_states" := Stamps(pruned)];
      }
    }

    /** `_clear_oauth_state()` */
    method ClearOAuthState(session: SessionState)
      modifies session`keys
      ensures session.keys == old(session.keys) - OAuthKeys
    {
      session.keys := session.keys - OAuthKeys;
    }

    /** `handle_callback(code, state)`: prune, decide, exchange the code if the state is accepted, and clear the OAuth keys on every outcome. */
    method HandleCallback(session: SessionState, code: string, state: Option<string>, now: int, exchange: string -> Exchange)
      returns (r: Option<(map<string, string>, string)>)
      modifies session`keys
      ensures r == CallbackResult(old(session.keys), code, state, now, exchange)
      ensures session.keys == old(session.keys) - OAuthKeys
    {
      var storedState := Get(session.keys, "oauth_state");
      var storedStates := PruneExpired(session, now);
      if !StateAccepted(state, storedState, storedStates) {
        ClearOAuthState(session);
        return None;
      }
      match exchange(code) {
        case SignedIn(info, token) =>
          ClearOAuthState(session);
          r := Some((info, token));
        case _ =>
          ClearOAuthState(session);
          r := None;
      }
    }
  }

  /** The session effect and result of `handle_oauth_callback(authenticator)`. */
  method HandleOAuthCallback(auth: GoogleAuthenticator, session: SessionState, params: map<string, Param>,
                             now: int, exchange: string -> Exchange) returns (outcome: CallbackOutcome)
    modifies session`keys
    ensures ReadCallback(params) == NoParams <==> outcome == NoCallback
    ensures ReadCallback(params) == EmptyList <==> outcome == IndexError
    ensures ReadCallback(params).ErrorParams? ==> outcome == NotAuthenticated && session.keys == old(session.keys)
    ensures ReadCallback(params).CodeParams? ==>
      var p := ReadCallback(params);
      var res := CallbackResult(old(session.keys), p.code, p.state, now, exchange);
      if res.Some? && res.value.0 != map[] then
        outcome == Authenticated
        && session.keys == (old(session.keys) - OAuthKeys)["user_info" := Profile(res.value.0)]
                             ["authenticated" := Bool(true)]["credentials" := Credentials(res.value.1)]
      else outcome == NotAuthenticated && session.keys == old(session.keys) - OAuthKeys
    ensures !ReadCallback(params).CodeParams? ==> session.keys == old(session.keys)
  {
    match ReadCallback(params) {
      case CodeParams(code, state) =>
        var res := auth.HandleCallback(session, code, state, now, exchange);
        if res.Some? && res.value.0 != map[] {
          session.keys := session.keys["user_info" := Profile(res.value.0)];
          session.keys := session.keys["authenticated" := Bool(true)];
          session.keys := session.keys["credentials" := Credentials(res.value.1)];
          outcome := Authenticated;
        } else {
          outcome := NotAuthenticated;
        }
      case ErrorParams(_, _) => outcome := NotAuthenticated;
      case NoParams => outcome := NoCallback;
      case EmptyList => outcome := IndexError;
    }
  }

  /** `reset_auth_state()` */
  method ResetAuthState(session: SessionState)
    modifies session`keys
    ensures session.keys == old(session.keys) - ResetKeys
  {
    session.keys := session.keys - ResetKeys;
  }
}
