/**
 * The admin results page. An administrator unlocks it with a key checked by the remote
 * sheet; `sessionStorage` remembers the unlock for the browser session. The page then
 * lists every team's recorded wildcards, filtered by a search term, with three counts.
 *
 * The remote reply and whether the API URL is configured are parameters.
 */
module Admin {
  import opened Wrappers
  import opened Seqs
  import opened WebStorage
  import opened Text

  /** One row of the remote sheet; an empty round field means "not drawn". */
  datatype TeamResult = TeamResult(team: string, round2: string, round3: string)

  const AUTH_KEY: string := "codeArena_admin_auth"
  const ADMIN_KEY_KEY: string := "codeArena_admin_key"

  /** The value stored under `AUTH_KEY` on a successful login. */
  const AUTH_MARK: string := "true"

  /**
   * The reply to `?action=admin`: a transport, status or JSON failure, or the parsed
   * body, whose `results` may be missing.
   */
  datatype AdminReply =
    | AdminFailed
    | AdminReply(success: bool, results: Option<seq<TeamResult>>)

  /** Which message `handleAdminLogin` shows. */
  datatype LoginOutcome =
    | InvalidKey
    | ConfigurationError
    | AuthenticationFailed
    | Authenticated

  /** The reply was received, parsed and reports success. */
  predicate Succeeded(apiConfigured: bool, reply: AdminReply) {
    apiConfigured && reply.AdminReply? && reply.success
  }

  /** `data.results || []`. */
  function RepliedResults(reply: AdminReply): (rows: seq<TeamResult>)
    requires reply.AdminReply?
    ensures reply.results.Some? ==> rows == reply.results.value
    ensures reply.results.None? ==> rows == []
  {
    reply.results.GetOr([])
  }

  /** The row's team, lower-cased, contains the lower-cased search term. */
  predicate MatchesSearch(row: TeamResult, term: string) {
    Includes(ToLower(row.team), ToLower(term))
  }

  /** `filteredResults`: the rows matching `term`, in their original order. */
  function FilterResults(results: seq<TeamResult>, term: string): (shown: seq<TeamResult>)
    ensures IsSubsequence(shown, results)
    ensures forall i :: 0 <= i < |shown| ==> MatchesSearch(shown[i], term)
    ensures forall row :: MatchesSearch(row, term) ==> multiset(shown)[row] == multiset(results)[row]
  {
    Keep(results, row => MatchesSearch(row, term))
  }

  /** An empty search term shows every row. */
  lemma FilterEmptyTermKeepsAll(results: seq<TeamResult>)
    ensures FilterResults(results, "") == results
  {
    forall i | 0 <= i < |results| ensures MatchesSearch(results[i], "") {
      IncludesEmpty(ToLower(results[i].team));
    }
    KeepAllPass(results, row => MatchesSearch(row, ""));
  }

  /** Filtering the filtered rows again with the same term changes nothing. */
  lemma FilterIdempotent(results: seq<TeamResult>, term: string)
    ensures FilterResults(FilterResults(results, term), term) == FilterResults(results, term)
  {
    KeepIdempotent(results, row => MatchesSearch(row, term));
  }

  /** Filtering respects the order of the rows: it distributes over concatenation. */
  lemma FilterAppend(a: seq<TeamResult>, b: seq<TeamResult>, term: string)
    ensures FilterResults(a + b, term) == FilterResults(a, term) + FilterResults(b, term)
  {
    KeepAppend(a, b, row => MatchesSearch(row, term));
  }

  /** Search is case-insensitive: a term and its lower-cased form show the same rows. */
  lemma FilterIgnoresTermCase(results: seq<TeamResult>, term: string)
    ensures FilterResults(results, ToLower(term)) == FilterResults(results, term)
  {
    ToLowerIdempotent(term);
    assert forall row :: MatchesSearch(row, ToLower(term)) == MatchesSearch(row, term);
    KeepSameTest(results, row => MatchesSearch(row, ToLower(term)), row => MatchesSearch(row, term));
  }

  /** JavaScript truthiness of a round field: the round has a recorded card. */
  predicate HasRound2(row: TeamResult) {
    row.round2 != ""
  }

  predicate HasRound3(row: TeamResult) {
    row.round3 != ""
  }

  /** The "Round 2 Drawn" count: rows whose round-2 field is non-empty. */
  function Round2Drawn(results: seq<TeamResult>): (n: nat)
    ensures n <= |results|
    ensures n == 0 <==> forall i :: 0 <= i < |results| ==> results[i].round2 == ""
    ensures n == |results| <==> forall i :: 0 <= i < |results| ==> results[i].round2 != ""
  {
    var drawn := Keep(results, HasRound2);
    KeepEmptyIff(results, HasRound2);
    KeepFullIff(results, HasRound2);
    |drawn|
  }

  /** The "Round 3 Drawn" count: rows whose round-3 field is non-empty. */
  function Round3Drawn(results: seq<TeamResult>): (n: nat)
    ensures n <= |results|
    ensures n == 0 <==> forall i :: 0 <= i < |results| ==> results[i].round3 == ""
    ensures n == |results| <==> forall i :: 0 <= i < |results| ==> results[i].round3 != ""
  {
    var drawn := Keep(results, HasRound3);
    KeepEmptyIff(results, HasRound3);
    KeepFullIff(results, HasRound3);
    |drawn|
  }

  /** The three figures under the table. */
  datatype Stats = Stats(totalTeams: nat, round2Drawn: nat, round3Drawn: nat)

  function ResultStats(results: seq<TeamResult>): (s: Stats)
    ensures s.totalTeams == |results|
    ensures s.round2Drawn <= s.totalTeams && s.round3Drawn <= s.totalTeams
  {
    Stats(|results|, Round2Drawn(results), Round3Drawn(results))
  }

  /** The counts add up over concatenation: each row is counted on its own. */
  lemma CountsAppend(a: seq<TeamResult>, b: seq<TeamResult>)
    ensures Round2Drawn(a + b) == Round2Drawn(a) + Round2Drawn(b)
    ensures Round3Drawn(a + b) == Round3Drawn(a) + Round3Drawn(b)
  {
    KeepAppend(a, b, HasRound2);
    KeepAppend(a, b, HasRound3);
  }

  class AdminPage {
    var isAuthenticated: bool
    var adminKey: string
    var results: seq<TeamResult>
    var searchTerm: string
    var session: Store

    /** The dashboard is unlocked exactly when the session says so. */
    ghost predicate Valid()
      reads this
    {
      isAuthenticated <==> IsTruthy(session, AUTH_KEY)
    }

    /**
     * `filteredResults`, the rows the table shows: loaded rows matching the search term,
     * in their loaded order, and every loaded row while the term is empty.
     */
    function FilteredResults(): (shown: seq<TeamResult>)
      reads this
      ensures IsSubsequence(shown, results)
      ensures forall i :: 0 <= i < |shown| ==> MatchesSearch(shown[i], searchTerm)
      ensures searchTerm == "" ==> shown == results
    {
      FilterEmptyTermKeepsAll(results);
      FilterResults(results, searchTerm)
    }

    /**
     * Mounting the page over the session entries `saved`: an unlocked session loads the
     * results at once, with `reply` as the answer.
     */
    constructor (saved: Store, apiConfigured: bool, reply: AdminReply)
      ensures Valid()
      ensures session == saved && adminKey == "" && searchTerm == ""
      ensures isAuthenticated == IsTruthy(saved, AUTH_KEY)
      ensures results ==
        if isAuthenticated && Succeeded(apiConfigured, reply) then RepliedResults(reply) else []
    {
      isAuthenticated := false;
      adminKey := "";
      results := [];
      searchTerm := "";
      session := saved;
      new;
      if IsTruthy(session, AUTH_KEY) {
        isAuthenticated := true;
        var _ := LoadResults(apiConfigured, reply);
      }
    }

    /** The key field's `onChange`. */
    method EditAdminKey(key: string)
      requires Valid()
      modifies this
      ensures Valid()
      ensures adminKey == key
      ensures isAuthenticated == old(isAuthenticated) && results == old(results)
      ensures searchTerm == old(searchTerm) && session == old(session)
    {
      adminKey := key;
    }

    /** The search field's `onChange`. */
    method EditSearchTerm(term: string)
      requires Valid()
      modifies this
      ensures Valid()
      ensures searchTerm == term
      ensures isAuthenticated == old(isAuthenticated) && results == old(results)
      ensures adminKey == old(adminKey) && session == old(session)
      ensures FilteredResults() == FilterResults(old(results), term)
    {
      searchTerm := term;
    }

    /** `loadResults`: the rows are replaced on success only. */
    method LoadResults(apiConfigured: bool, reply: AdminReply) returns (loaded: bool)
      requires Valid()
      modifies this
      ensures Valid()
      ensures loaded <==> Succeeded(apiConfigured, reply)
      ensures results == if loaded then RepliedResults(reply) else old(results)
      ensures isAuthenticated == old(isAuthenticated) && adminKey == old(adminKey)
      ensures searchTerm == old(searchTerm) && session == old(session)
    {
      if !apiConfigured || reply.AdminFailed? || !reply.success {
        return false;
      }
      results := RepliedResults(reply);
      loaded := true;
    }

    /**
     * `handleAdminLogin`. A blank key (after trimming) is refused before any request;
     * only a successful reply unlocks the page, stores the flag and the key as typed in
     * the session, clears the field and shows the replied rows.
     */
    method Login(apiConfigured: bool, reply: AdminReply) returns (outcome: LoginOutcome)
      requires Valid()
      modifies this
      ensures Valid()
      ensures searchTerm == old(searchTerm)
      ensures Trim(old(adminKey)) == "" ==> outcome == InvalidKey
      ensures Trim(old(adminKey)) != "" && !apiConfigured ==> outcome == ConfigurationError
      ensures Trim(old(adminKey)) != "" && apiConfigured ==>
        outcome == (if Succeeded(apiConfigured, reply) then Authenticated else AuthenticationFailed)
      ensures outcome == Authenticated ==>
        && session == old(session)[AUTH_KEY := AUTH_MARK][ADMIN_KEY_KEY := old(adminKey)]
        && adminKey == ""
        && isAuthenticated
        && results == RepliedResults(reply)
      ensures outcome != Authenticated ==>
        && session == old(session)
        && adminKey == old(adminKey)
        && isAuthenticated == old(isAuthenticated)
        && results == old(results)
    {
      var trimmed := Trim(adminKey);
      if trimmed == "" {
        return InvalidKey;
      }
      if !apiConfigured {
        return ConfigurationError;
      }
      if reply.AdminFailed? || !reply.success {
        return AuthenticationFailed;
      }
      session := session[AUTH_KEY := AUTH_MARK];
      session := session[ADMIN_KEY_KEY := adminKey];
      adminKey := "";
      isAuthenticated := true;
      results := RepliedResults(reply);
      outcome := Authenticated;
    }

    /** `handleLogout`: both session entries go, the page locks and forgets the rows. */
    method Logout()
      requires Valid()
      modifies this
      ensures Valid()
      ensures session == old(session) - {AUTH_KEY, ADMIN_KEY_KEY}
      ensures AUTH_KEY !in session && ADMIN_KEY_KEY !in session
      ensures !isAuthenticated && results == []
      ensures adminKey == old(adminKey) && searchTerm == old(searchTerm)
      ensures FilteredResults() == []
    {
      session := session - {AUTH_KEY};
      session := session - {ADMIN_KEY_KEY};
      isAuthenticated := false;
      results := [];
    }
  }
}
