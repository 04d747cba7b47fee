/**
 * The team draw page. A team verifies its number against the remote sheet, then draws
 * one of three wildcard cards per round (rounds 2 and 3) and records it remotely;
 * `localStorage` remembers the team and the rounds recorded from this browser.
 *
 * Every handler is one sequential step. What the page learns from outside (the remote
 * reply, whether the API URL is configured, the random word) is a parameter.
 */
module Wildcard {
  import opened Wrappers
  import opened Seqs
  import opened WebStorage

  datatype CardType = Freeze | Guess | Out

  /** A card: its type and the label (`caption`) shown and sent to the remote sheet. */
  datatype DrawResult = DrawResult(kind: CardType, caption: string)

  /** The three cards, in the order the random index selects them. */
  const CARDS: seq<DrawResult> := [
    DrawResult(Freeze, "Freeze"),
    DrawResult(Guess, "Guess the point"),
    DrawResult(Out, "2 Member Out")
  ]

  const TEAM_ID_KEY: string := "codeArena_teamId"
  const ROUND2_KEY: string := "codeArena_round2_drawn"
  const ROUND3_KEY: string := "codeArena_round3_drawn"

  /** The value written under a round key once that round is recorded. */
  const DRAWN_MARK: string := "true"

  /** A round number: the page knows rounds 2 and 3 only. */
  type Round = r: int | r == 2 || r == 3 witness 2

  /** One element of a `Uint32Array`, as filled by `crypto.getRandomValues`. */
  newtype u32 = x: int | 0 <= x < 0x1_0000_0000

  datatype DrawnRounds = DrawnRounds(round2: bool, round3: bool)

  /** The reply to `?action=check`: a transport, status or JSON failure, or the parsed body. */
  datatype CheckReply =
    | CheckFailed
    | CheckReply(success: bool, round2Filled: bool, round3Filled: bool)

  /** The reply to `?action=record`: a transport, status or JSON failure, or the parsed body. */
  datatype RecordReply =
    | RecordFailed
    | RecordReply(success: bool)

  /** Which message `handleVerifyTeam` shows. */
  datatype VerifyOutcome =
    | InvalidTeamNumber
    | ConfigurationError
    | TeamNotFound
    | AllDrawsCompleted
    | VerificationError
    | Verified(round: Round)

  /** What a click on the draw button ends with. */
  datatype DrawOutcome =
    | NotReady
    | Recorded(card: DrawResult)
    | RecordingError(card: DrawResult)

  /** `\d` of a JavaScript regular expression without the `u` flag. */
  predicate IsDigit(c: char) {
    '0' <= c <= '9'
  }

  /** `/^\d+$/.test(s)`: one or more digits and nothing else. */
  function MatchesDigits(s: string): (b: bool)
    ensures b <==> s != [] && forall i :: 0 <= i < |s| ==> IsDigit(s[i])
  {
    s != [] && IsDigit(s[0]) && (|s| == 1 || MatchesDigits(s[1..]))
  }

  /** `validateTeamInput`: a non-empty string of decimal digits. */
  function ValidateTeamInput(input: string): (ok: bool)
    ensures ok <==> input != [] && forall i :: 0 <= i < |input| ==> IsDigit(input[i])
  {
    MatchesDigits(input) && |input| > 0
  }

  /** `value.replace(/\D/g, "")`: the digits of `raw`, in order, and nothing else. */
  function StripNonDigits(raw: string): (digits: string)
    ensures IsSubsequence(digits, raw)
    ensures forall i :: 0 <= i < |digits| ==> IsDigit(digits[i])
    ensures forall c :: IsDigit(c) ==> multiset(digits)[c] == multiset(raw)[c]
  {
    Keep(raw, IsDigit)
  }

  lemma StripNonDigitsIdempotent(raw: string)
    ensures StripNonDigits(StripNonDigits(raw)) == StripNonDigits(raw)
  {
    KeepIdempotent(raw, IsDigit);
  }

  /** A string that already passes the validator is left as it is by the sanitiser. */
  lemma StripNonDigitsKeepsValid(input: string)
    requires ValidateTeamInput(input)
    ensures StripNonDigits(input) == input
  {
    KeepAllPass(input, IsDigit);
  }

  /** The sanitised input passes the validator exactly when something is left of it. */
  lemma SanitisedInputValidIffNonEmpty(raw: string)
    ensures ValidateTeamInput(StripNonDigits(raw)) <==> StripNonDigits(raw) != []
  {
  }

  /** The sanitiser deletes nothing from a string unless it holds a non-digit. */
  lemma StripNonDigitsShortensIffNonDigit(raw: string)
    ensures |StripNonDigits(raw)| < |raw| <==> exists i :: 0 <= i < |raw| && !IsDigit(raw[i])
  {
    KeepFullIff(raw, IsDigit);
  }

  /** The first round not yet filled, 2 before 3; `None` when both are. */
  function NextRound(round2Filled: bool, round3Filled: bool): (next: Option<Round>)
    ensures next == Some(2) <==> !round2Filled
    ensures next == Some(3) <==> round2Filled && !round3Filled
    ensures next == None <==> round2Filled && round3Filled
  {
    if !round2Filled then Some(2)
    else if !round3Filled then Some(3)
    else None
  }

  /** `CARDS[array[0] % 3]`: every word selects one of the three cards. */
  function DrawCard(word: u32): (card: DrawResult)
    ensures card in CARDS
  {
    CARDS[(word % 3) as int]
  }

  /** Every card can come up, in either round. */
  lemma EveryCardCanBeDrawn(k: nat)
    requires k < |CARDS|
    ensures exists word: u32 :: DrawCard(word) == CARDS[k]
  {
    assert DrawCard(k as u32) == CARDS[k];
  }

  /** The storage key that records `round`. */
  function RoundKey(round: Round): (key: string)
    ensures key == ROUND2_KEY || key == ROUND3_KEY
    ensures key == ROUND2_KEY <==> round == 2
  {
    if round == 2 then ROUND2_KEY else ROUND3_KEY
  }

  class WildcardPage {
    var teamInput: string
    var isVerified: bool
    var currentRound: Option<Round>
    var result: Option<DrawResult>
    var drawnRounds: DrawnRounds
    var storage: Store

    /**
     * The page shows the verified view exactly when a team number is saved, and a
     * shown result is one of the cards.
     */
    ghost predicate Valid()
      reads this
    {
      && (isVerified <==> IsTruthy(storage, TEAM_ID_KEY))
      && (result.Some? ==> result.value in CARDS)
    }

    /**
     * The "Next Round" button is on screen: the result view with round 2 current and
     * round 3 not flagged, so the page still has an open round to move to.
     */
    function NextRoundOffered(): (offered: bool)
      reads this
      ensures offered ==> result.Some? && currentRound == Some(2)
      ensures offered ==> NextRound(drawnRounds.round2, drawnRounds.round3).Some?
    {
      isVerified && result.Some? && currentRound == Some(2) && !drawnRounds.round3
    }

    /**
     * Mounting the page over the stored entries `saved`: the initial state, then the
     * mount effect that reloads the team and the round flags.
     */
    constructor (saved: Store)
      ensures Valid()
      ensures storage == saved
      ensures isVerified == IsTruthy(saved, TEAM_ID_KEY)
      ensures teamInput == if isVerified then saved[TEAM_ID_KEY] else ""
      ensures drawnRounds == DrawnRounds(IsTruthy(saved, ROUND2_KEY), IsTruthy(saved, ROUND3_KEY))
      ensures currentRound == NextRound(drawnRounds.round2, drawnRounds.round3)
      ensures result == None
    {
      teamInput := "";
      isVerified := false;
      currentRound := None;
      result := None;
      drawnRounds := DrawnRounds(false, false);
      storage := saved;
      new;
      var savedTeam := IsTruthy(storage, TEAM_ID_KEY);
      var savedRound2 := IsTruthy(storage, ROUND2_KEY);
      var savedRound3 := IsTruthy(storage, ROUND3_KEY);
      if savedTeam {
        teamInput := storage[TEAM_ID_KEY];
        isVerified := true;
      }
      drawnRounds := DrawnRounds(savedRound2, savedRound3);
      if !savedRound2 {
        currentRound := Some(2);
      } else if !savedRound3 {
        currentRound := Some(3);
      }
    }

    /** The team-number field's `onChange`: keeps only the digits typed or pasted. */
    method EditTeamInput(raw: string)
      requires Valid()
      modifies this
      ensures Valid()
      ensures teamInput == StripNonDigits(raw)
      ensures isVerified == old(isVerified) && currentRound == old(currentRound)
      ensures result == old(result) && drawnRounds == old(drawnRounds) && storage == old(storage)
    {
      teamInput := StripNonDigits(raw);
    }

    /**
     * `handleVerifyTeam`. Only a successful check with a round still open changes the
     * state: it saves the team number (and no other key), marks the page verified, moves
     * to the first open round and copies the remote round flags.
     */
    method VerifyTeam(apiConfigured: bool, reply: CheckReply) returns (outcome: VerifyOutcome)
      requires Valid()
      modifies this
      ensures Valid()
      ensures teamInput == old(teamInput) && result == old(result)
      ensures !ValidateTeamInput(teamInput) ==> outcome == InvalidTeamNumber
      ensures ValidateTeamInput(teamInput) && !apiConfigured ==> outcome == ConfigurationError
      ensures ValidateTeamInput(teamInput) && apiConfigured ==>
        match reply
        case CheckFailed => outcome == VerificationError
        case CheckReply(success, round2Filled, round3Filled) =>
          if !success then outcome == TeamNotFound
          else if round2Filled && round3Filled then outcome == AllDrawsCompleted
          else outcome == Verified(NextRound(round2Filled, round3Filled).value)
      ensures outcome.Verified? ==>
        && isVerified
        && currentRound == Some(outcome.round)
        && drawnRounds == DrawnRounds(reply.round2Filled, reply.round3Filled)
        && storage == old(storage)[TEAM_ID_KEY := teamInput]
      ensures !outcome.Verified? ==>
        && isVerified == old(isVerified)
        && currentRound == old(currentRound)
        && drawnRounds == old(drawnRounds)
        && storage == old(storage)
    {
      if !ValidateTeamInput(teamInput) {
        return InvalidTeamNumber;
      }
      if !apiConfigured {
        return ConfigurationError;
      }
      if reply.CheckFailed? {
        return VerificationError;
      }
      if !reply.success {
        return TeamNotFound;
      }
      var nextRound := NextRound(reply.round2Filled, reply.round3Filled);
      if nextRound.None? {
        return AllDrawsCompleted;
      }
      storage := storage[TEAM_ID_KEY := teamInput];
      isVerified := true;
      currentRound := nextRound;
      drawnRounds := DrawnRounds(reply.round2Filled, reply.round3Filled);
      outcome := Verified(nextRound.value);
    }

    /**
     * `performDraw` with `word` as the random value. Without a verified team and an open
     * round it does nothing. Otherwise it shows `CARDS[word % 3]` whatever the round and
     * whatever was drawn before; only a successful record then marks the round drawn,
     * in storage and on the page, and moves on.
     */
    method PerformDraw(word: u32, apiConfigured: bool, reply: RecordReply) returns (outcome: DrawOutcome)
      requires Valid()
      modifies this
      ensures Valid()
      ensures teamInput == old(teamInput) && isVerified == old(isVerified)
      ensures !old(isVerified) || old(currentRound).None? ==>
        outcome == NotReady && result == old(result) && currentRound == old(currentRound)
        && drawnRounds == old(drawnRounds) && storage == old(storage)
      ensures old(isVerified) && old(currentRound).Some? ==>
        && result == Some(DrawCard(word))
        && !outcome.NotReady? && outcome.card == DrawCard(word)
        && (outcome.Recorded? <==> apiConfigured && reply == RecordReply(true))
      ensures outcome.Recorded? ==>
        var round := old(currentRound).value;
        && storage == old(storage)[RoundKey(round) := DRAWN_MARK]
        && drawnRounds.round2 == (old(drawnRounds).round2 || round == 2)
        && drawnRounds.round3 == (old(drawnRounds).round3 || round == 3)
        && currentRound == (if round == 2 && !old(drawnRounds).round3 then Some(3) else None)
      ensures outcome.RecordingError? ==>
        storage == old(storage) && drawnRounds == old(drawnRounds) && currentRound == old(currentRound)
      ensures outcome.Recorded? ==> !NextRoundOffered()
      ensures outcome.RecordingError? ==>
        (NextRoundOffered() <==> currentRound == Some(2) && !drawnRounds.round3)
    {
      if !isVerified || currentRound.None? {
        return NotReady;
      }
      var round := currentRound.value;
      result := None;
      var selectedCard := DrawCard(word);
      result := Some(selectedCard);
      if !apiConfigured || reply.RecordFailed? || !reply.success {
        return RecordingError(selectedCard);
      }
      if round == 2 {
        storage := storage[ROUND2_KEY := DRAWN_MARK];
      } else {
        storage := storage[ROUND3_KEY := DRAWN_MARK];
      }
      var round3WasDrawn := drawnRounds.round3;
      if round == 2 {
        drawnRounds := drawnRounds.(round2 := true);
      } else {
        drawnRounds := drawnRounds.(round3 := true);
      }
      if round == 2 && !round3WasDrawn {
        currentRound := Some(3);
      } else {
        currentRound := None;
      }
      outcome := Recorded(selectedCard);
    }

    /** The "Next Round" button: round 3 and a cleared result; storage is not touched. */
    method AdvanceToNextRound()
      requires Valid()
      modifies this
      ensures Valid()
      ensures currentRound == Some(3) && result == None
      ensures teamInput == old(teamInput) && isVerified == old(isVerified)
      ensures drawnRounds == old(drawnRounds) && storage == old(storage)
    {
      currentRound := Some(3);
      result := None;
    }

    /**
     * `handleReset` ("Back Home"): forgets the team on the page and removes the three
     * keys from storage. The page's round flags are left as they were.
     */
    method Reset()
      requires Valid()
      modifies this
      ensures Valid()
      ensures teamInput == "" && !isVerified && currentRound == None && result == None
      ensures drawnRounds == old(drawnRounds)
      ensures storage == old(storage) - {TEAM_ID_KEY, ROUND2_KEY, ROUND3_KEY}
      ensures TEAM_ID_KEY !in storage && ROUND2_KEY !in storage && ROUND3_KEY !in storage
    {
      teamInput := "";
      isVerified := false;
      currentRound := None;
      result := None;
      storage := storage - {TEAM_ID_KEY};
      storage := storage - {ROUND2_KEY};
      storage := storage - {ROUND3_KEY};
    }
  }

  /** "101", the placeholder's example, is a valid team number that the sanitiser keeps as it is. */
  lemma TeamNumberExample()
    ensures ValidateTeamInput("101") && StripNonDigits("101") == "101"
  {
    assert ValidateTeamInput("101");
    StripNonDigitsKeepsValid("101");
  }

  /**
   * A first visit by team 101: the number is typed, verified with no round filled,
   * round 2 is drawn and recorded, and the page is reset.
   */
  method FirstVisitScenario(word: u32)
  {
    var page := new WildcardPage(map[]);
    assert page.currentRound == Some(2) && !page.isVerified;
    TeamNumberExample();
    page.EditTeamInput("101");
    var verified := page.VerifyTeam(true, CheckReply(true, false, false));
    assert verified == Verified(2);
    assert page.storage == map[TEAM_ID_KEY := "101"];
    var drawn := page.PerformDraw(word, true, RecordReply(true));
    assert drawn == Recorded(DrawCard(word));
    assert page.currentRound == Some(3) && page.drawnRounds == DrawnRounds(true, false);
    assert !page.NextRoundOffered();
    assert page.storage.Keys == {TEAM_ID_KEY, ROUND2_KEY};
    page.Reset();
    assert page.storage.Keys == {};
  }

  /**
   * A returning team whose round-2 record fails: the card stays on screen, "Next Round"
   * is offered, and following it draws round 3 while round 2 is still unrecorded.
   */
  method RecordFailureScenario(first: u32, second: u32)
  {
    var page := new WildcardPage(map[TEAM_ID_KEY := "7"]);
    assert page.isVerified && page.currentRound == Some(2);
    var drawn := page.PerformDraw(first, true, RecordReply(false));
    assert drawn == RecordingError(DrawCard(first)) && page.result == Some(DrawCard(first));
    assert page.NextRoundOffered();
    page.AdvanceToNextRound();
    drawn := page.PerformDraw(second, true, RecordReply(true));
    assert drawn == Recorded(DrawCard(second));
    assert page.drawnRounds == DrawnRounds(false, true) && page.currentRound == None;
    assert ROUND2_KEY !in page.storage && page.storage[ROUND3_KEY] == DRAWN_MARK;
  }
}
