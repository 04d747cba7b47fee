# Code Arena wildcard draw — a Dafny model

Code Arena lets competition teams draw one wildcard card per round (rounds 2 and 3).
Each draw is recorded in a remote sheet, and an administrator reviews all teams' cards.
This project models the two page components that hold the logic:

- **The team draw page** (`client/pages/Wildcard.tsx`) is the class `Wildcard.WildcardPage`.
  Its fields are the page state: `teamInput`, `isVerified`, `currentRound` (2, 3 or none),
  `result` and `drawnRounds`. The field `storage` is `localStorage`, a `map<string, string>`.
  The mount effect is the constructor. Each handler is one method: verify, draw and record,
  "Next Round", reset, and the team-number field's `onChange`.
- **The admin page** (`client/pages/Admin.tsx`) is the class `Admin.AdminPage`.
  Its fields are `isAuthenticated`, `adminKey`, `results`, `searchTerm` and `session`
  (`sessionStorage`). The search filter and the three counts are pure functions.

Anything the pages get from outside the browser tab is a parameter of the method that uses it:

- the reply of the remote sheet (`CheckReply`, `RecordReply`, `AdminReply`, each with a failure case);
- whether the API URL is configured;
- the random 32-bit word (`u32`).

Each method says what it returns and the complete new state. Each class keeps an invariant `Valid()`:

- draw page: `isVerified` holds exactly when a team number is saved; a shown result is one of the three cards;
- admin page: `isAuthenticated` holds exactly when the session's auth entry is set.

Shared modules:

- `Seqs.Keep` is the filter behind both `results.filter(...)` and `replace(/\D/g, "")`, with its lemmas;
- `WebStorage.IsTruthy` is a stored value used as a JavaScript condition (absent and `""` are both false);
- `Text` holds `toLowerCase`, `trim` and `includes`.

## Behaviour of the code as written

- **No exclusion in round 3.** The draw is `CARDS[word % 3]` in both rounds. Round 3 can repeat round 2's card
  (`PerformDraw`, `EveryCardCanBeDrawn`).
- **Verification writes only the team number.** A successful check stores `codeArena_teamId` and copies the
  remote round flags into `drawnRounds`. It does not write the round keys, so `drawnRounds` and storage can
  disagree after it (`VerifyTeam`).
- **The mount effect uses truthiness.** A key that is present but empty counts as absent. It sets `currentRound`
  to 2 whenever round 2 is not flagged, even with no saved team (constructor).
- **No retry of a failed record.** The card stays on screen and nothing is marked drawn. "Back Home" followed by a
  new verification allows a fresh draw for the same round.
- **"Next Round" follows only a failed round-2 record, when each handler finishes before the next click.**
  A successful record already moves `currentRound` to 3 or to none, so once `performDraw` has finished the
  button's guard (`currentRound === 2 && !drawnRounds.round3`) holds only when recording round 2 failed.
  Following it draws round 3 while round 2 is unrecorded (`PerformDraw`, `RecordFailureScenario`). In the real
  page the card is shown before the record request is sent, so the button is also on screen while a round-2
  record is in flight and round 3 is not flagged (see "## Left out").
- **Reset keeps the round flags.** It clears the three storage keys but leaves `drawnRounds` as it was (`Reset`).

The code has no round-3 draw that excludes round 2's card. It does not persist the round flags at
verification, and it has no retry that only records. Its reset keeps the page's round flags.

## Model

| member | source | states |
|---|---|---|
| `Seqs.Keep` | client/pages/Admin.tsx:148-150 | a filter's result is a subsequence of its input, holds only passing elements, and holds each passing value as often as the input |
| `Wildcard.MatchesDigits` | client/pages/Wildcard.tsx:62 | `/^\d+$/` accepts exactly the non-empty strings of the digits 0-9 |
| `Wildcard.ValidateTeamInput` | client/pages/Wildcard.tsx:61-63 | a team number is accepted iff it is non-empty and every character is a digit |
| `Wildcard.StripNonDigits` | client/pages/Wildcard.tsx:300 | the sanitised input is the digits of the raw input, in order: a subsequence, digits only, every digit kept |
| `Wildcard.StripNonDigitsIdempotent` | client/pages/Wildcard.tsx:300 | sanitising twice equals sanitising once |
| `Wildcard.TeamNumberExample` | client/pages/Wildcard.tsx:301 | the placeholder team number "101" passes the validator and is kept unchanged by the sanitiser |
| `Wildcard.StripNonDigitsKeepsValid` | client/pages/Wildcard.tsx:300 | a valid team number passes through the sanitiser unchanged |
| `Wildcard.SanitisedInputValidIffNonEmpty` | client/pages/Wildcard.tsx:300 | sanitised input passes the validator iff it is non-empty |
| `Wildcard.StripNonDigitsShortensIffNonDigit` | client/pages/Wildcard.tsx:300 | the sanitiser removes something iff the raw input holds a non-digit |
| `Wildcard.NextRound` | client/pages/Wildcard.tsx:115-121 | the next round is 2 iff round 2 is unfilled, 3 iff only round 2 is filled, none iff both are filled |
| `Wildcard.DrawCard` | client/pages/Wildcard.tsx:168-171 | every 32-bit word selects one of the three cards |
| `Wildcard.EveryCardCanBeDrawn` | client/pages/Wildcard.tsx:168-171 | each of the three cards is selected by some word, in either round |
| `Wildcard.RoundKey` | client/pages/Wildcard.tsx:212-216 | a round is recorded under the round-2 key iff it is round 2, otherwise under the round-3 key |
| `WebStorage.IsTruthy` | client/pages/Wildcard.tsx:43-57 | a stored value used as a condition: an absent key and an empty string are false, any other stored string is true |
| `Wildcard.WildcardPage.NextRoundOffered` | client/pages/Wildcard.tsx:355 | the "Next Round" button shows only in the result view with round 2 current, and only while the page's flags leave a round open |
| `Wildcard.WildcardPage.constructor` | client/pages/Wildcard.tsx:37-59 | rehydration: verified iff a team number is saved; each round flag is its key's truthiness; current round is the first unflagged round, else none; no result |
| `Wildcard.WildcardPage.EditTeamInput` | client/pages/Wildcard.tsx:296-300 | the field holds the sanitised input; nothing else changes |
| `Wildcard.WildcardPage.VerifyTeam` | client/pages/Wildcard.tsx:65-156 | invalid input, missing URL, transport or parse error, "not found" and "all filled" change nothing. Success writes only the team-number key, sets verified, moves to the first unfilled round and copies the remote flags |
| `Wildcard.WildcardPage.PerformDraw` | client/pages/Wildcard.tsx:158-244 | a no-op unless verified with an open round. Otherwise the result is `CARDS[word % 3]`. A successful record sets exactly the current round's flag in storage and on the page and moves to round 3 or none. A failed record leaves flags, round and storage unchanged and keeps the card shown. Once the handler has finished, "Next Round" is never offered after a success |
| `Wildcard.WildcardPage.AdvanceToNextRound` | client/pages/Wildcard.tsx:355-360 | "Next Round" sets round 3 and clears the result; storage and flags are untouched |
| `Wildcard.WildcardPage.Reset` | client/pages/Wildcard.tsx:246-254 | reset removes the three storage keys and empties the input. It clears verified, round and result and leaves `drawnRounds` unchanged |
| `Text.ToLower` | client/pages/Admin.tsx:149 | lower-casing keeps the length and maps each character through the ASCII letter fold |
| `Text.ToLowerIdempotent` | client/pages/Admin.tsx:149 | lower-casing twice equals lower-casing once |
| `Text.Trim` | client/pages/Admin.tsx:76 | the trimmed key is the key with its leading and trailing white space removed: a slice with only white space outside it, starting and ending with non-space; empty iff the key is all white space |
| `Text.Includes` | client/pages/Admin.tsx:149 | `includes` holds iff the pattern occurs at some index of the text |
| `Text.IncludesEmpty` | client/pages/Admin.tsx:149 | every text includes the empty string |
| `Admin.RepliedResults` | client/pages/Admin.tsx:60 | the rows of a successful reply are its `results` when present, otherwise no rows |
| `Admin.FilterResults` | client/pages/Admin.tsx:148-150 | the shown rows are a subsequence of the results. Each contains the lower-cased term in its lower-cased team, and every matching row is kept as often as it occurs |
| `Admin.FilterEmptyTermKeepsAll` | client/pages/Admin.tsx:148-150 | an empty search term shows every row |
| `Admin.FilterIdempotent` | client/pages/Admin.tsx:148-150 | filtering twice with the same term equals filtering once |
| `Admin.FilterAppend` | client/pages/Admin.tsx:148-150 | filtering distributes over concatenation, so rows keep their relative order |
| `Admin.FilterIgnoresTermCase` | client/pages/Admin.tsx:148-150 | a term and its lower-cased form select the same rows |
| `Admin.Round2Drawn` | client/pages/Admin.tsx:334 | the "Round 2 Drawn" count is at most the total. It is zero iff no row has a round-2 card and equals the total iff every row has one |
| `Admin.Round3Drawn` | client/pages/Admin.tsx:340 | the same for round 3 |
| `Admin.ResultStats` | client/pages/Admin.tsx:328-340 | the total is the number of rows and bounds both round counts |
| `Admin.CountsAppend` | client/pages/Admin.tsx:334-340 | both counts add up over concatenated row lists |
| `Admin.AdminPage.constructor` | client/pages/Admin.tsx:22-29 | authenticated iff the session's auth entry is truthy; rows are loaded only then, and only from a successful reply |
| `Admin.AdminPage.EditAdminKey` | client/pages/Admin.tsx:188 | the key field holds what was typed; nothing else changes |
| `Admin.AdminPage.FilteredResults` | client/pages/Admin.tsx:148-150 | the table's rows are a subsequence of the loaded rows, each matching the current search term, and all loaded rows while the term is empty |
| `Admin.AdminPage.EditSearchTerm` | client/pages/Admin.tsx:258 | the search field holds what was typed and the table shows the loaded rows filtered by it; nothing else changes |
| `Admin.AdminPage.LoadResults` | client/pages/Admin.tsx:31-71 | rows are replaced by the reply's rows (or none if missing) iff the reply succeeded; otherwise they stay |
| `Admin.AdminPage.Login` | client/pages/Admin.tsx:73-138 | a blank key, missing URL, transport or parse error, or refusal changes nothing. Success stores the auth flag and the key as typed, clears the field, sets authenticated and shows the replied rows |
| `Admin.AdminPage.Logout` | client/pages/Admin.tsx:140-146 | both session entries are removed, the page locks and the rows are emptied, so the table shows none |

## Left out

- `fetch`, JSON parsing and `import.meta.env` are external. Their outcomes are the reply parameters and `apiConfigured`.
- What the requests carry is not modelled: the team number in the check URL, the team, round and label in the record body, and the admin key in the admin URL.
- Toasts and console logging are left out. Each handler returns which message it would show (`VerifyOutcome`, `DrawOutcome`, `LoginOutcome`), not its text.
- The 2000 ms spin delay and the interleaving of asynchronous React state updates are left out. Each handler is one sequential step.
- The busy flags are left out, because a sequential model never observes a pending step. On the team page `isLoading` disables the verify button (client/pages/Wildcard.tsx:309) and `isSpinning`, set before the spin delay (161-165), disables the draw button (426). On the admin page `isVerifying` disables the login button (client/pages/Admin.tsx:196) and `isLoading` shows a loading placeholder in place of the results table (266-274).
- `crypto.getRandomValues` becomes an arbitrary `u32` parameter. Nothing is claimed about the distribution; `word % 3` favours index 0 by one word in 2^32.
- `Text.ToLower`: folds only the ASCII letters A-Z, where `toLowerCase` folds all of Unicode.
- The remote flags `round2_filled` and `round3_filled` are booleans. The code uses whatever JSON value arrives, by truthiness.
- Whether an admin key is valid is decided by the remote sheet and is not modelled.
- `e.preventDefault()` in the login handler and `navigate("/")` in logout are browser effects and are not modelled.
- Clicks while a record request is in flight are not modelled. `setResult` (client/pages/Wildcard.tsx:173) runs before the record `fetch` (182), so the result view and its buttons are live during the request:
  - "Next Round" is on screen while a round-2 record is in flight and round 3 is not flagged, whatever the record's outcome. A click then sets round 3, and a late success afterwards still sets `currentRound` from the values the draw started with (224-228).
  - "Back Home" can run `handleReset` during the request. A late success then writes `codeArena_round2_drawn` or `codeArena_round3_drawn` (213-215) and sets `drawnRounds`, which the reset left as it was, and `currentRound`, which the reset cleared (218-228).
- JSX rendering is not modelled, apart from the visibility of the "Next Round" button (`WildcardPage.NextRoundOffered`).
- `client/lib/sounds.ts` (Web Audio), `client/pages/Index.tsx` (presentation and a sound toggle), `client/App.tsx` (routing) and `tailwind.config.ts` (styling) are not part of this model.
