# MathSolve client logic in Dafny

MathSolve is a React and Supabase front end for practising competition
mathematics. A signed-in user draws a problem from the `problems` table, or
from five built-in demo problems when the table gives nothing. They can work
on a scratchpad, reveal the solution and submit an answer. For a problem
from the table the points go to their profile total, which the header and
the leaderboard turn into a tier; a demo problem's points are only shown.
The history page lists past submissions.

This project models the decision and state logic of that front end:

- **SolveAnswer** (`solve_answer.dfy`): answer normalisation and matching.
- **SolveSelection** (`solve_selection.dfy`): the problem query, the demo
  pool, the fallback draw, the difficulty label and the quote of the day.
- **SolvePage** (`solve_page.dfy`): the page as a class `Solve`. It covers
  the reset before a fetch, submission and scoring, the remote-write guard,
  revealing the solution, and loading and saving the vault.
- **Scratchpad** (`scratchpad.dfy`): a class `Canvas` with the idle/drawing
  state machine, the tool, the last position, and a surface made of a
  backdrop plus an append-only segment log.
- **Leaderboard** and **Header** (`leaderboard.dfy`, `header.dfy`): the two
  copies of the score-to-tier classifier, the tier colours, the demo
  leaderboard and the position labels.
- **History** (`history.dfy`): the status labels and the list's fallbacks.
- **PasswordHex** and **AuthContext** (`password_hex.dfy`, `auth.dfy`): the
  hexadecimal form of the derived key, and the class `AuthProvider` with
  session restore, sign-up, sign-in and sign-out.

**Common** and **Records** hold the shared value types: `Option`, the
backend reply `Outcome`, and the table rows.

Every backend call is a parameter of the operation that awaits it. Its
value is either `Threw` (the call rejected) or `Replied(error, data)`, the
usual `{ data, error }` pair. A handler that writes to the backend returns
those writes, in the order it awaits them. `Math.random()` is a real `r`
with `0 <= r < 1`. `Date.now()` is a natural number of milliseconds. The key
derivation (PBKDF2) is a function parameter `kdf` from password and salt to
bytes. The values of `crypto.randomUUID()` are parameters.

## Model

| member | source | states |
|---|---|---|
| SolveAnswer.LowerChar | src/pages/Solve.jsx:155 | the case map never leaves an upper-case letter, never turns a non-space into a space or a space into a non-space, and never creates or removes a `×`; other characters are kept |
| SolveAnswer.NormalizeIsCanon | src/pages/Solve.jsx:155 | the trim/lower-case/strip/replace chain equals a one-pass reference: drop every whitespace character and fold the rest |
| SolveAnswer.PipelineIsCanon | src/pages/Solve.jsx:155 | without the trim, lower-casing, stripping whitespace and replacing `×` in that order equals the reference fold |
| SolveAnswer.CanonAppend | src/pages/Solve.jsx:155 | the reference fold distributes over concatenation |
| SolveAnswer.CanonTrimStart | src/pages/Solve.jsx:155 | trimming leading whitespace does not change the reference fold |
| SolveAnswer.CanonTrimEnd | src/pages/Solve.jsx:155 | trimming trailing whitespace does not change the reference fold |
| SolveAnswer.CanonOfSpaces | src/pages/Solve.jsx:155 | whitespace alone folds to the empty string |
| SolveAnswer.CanonIsCanonical | src/pages/Solve.jsx:155 | the reference fold yields a string in normal form |
| SolveAnswer.CanonFixesCanonical | src/pages/Solve.jsx:155 | a string already in normal form is its own fold |
| SolveAnswer.CanonOfLowerCase | src/pages/Solve.jsx:155 | lower-casing first does not change the fold |
| SolveAnswer.NormalizeIsSettled | src/pages/Solve.jsx:155 | the normalised answer contains no whitespace character, no `×` and no upper-case letter |
| SolveAnswer.NormalizeFixesCanonical | src/pages/Solve.jsx:155 | normalising a string already in normal form returns it unchanged |
| SolveAnswer.NormalizeIdempotent | src/pages/Solve.jsx:155 | normalising twice is normalising once |
| SolveAnswer.MatchIsEquivalence | src/pages/Solve.jsx:155-156 | the answer test is reflexive, symmetric and transitive |
| SolveAnswer.MatchIgnoresInsertedSpaces | src/pages/Solve.jsx:155-156 | inserting whitespace anywhere neither changes the normal form nor the verdict |
| SolveAnswer.MatchIgnoresCase | src/pages/Solve.jsx:155-156 | answers that differ only in letter case match |
| SolveAnswer.MatchOnCanonicalIsEquality | src/pages/Solve.jsx:155-156 | on strings already in normal form the test is plain equality, so it is purely syntactic |
| SolveAnswer.MatchExampleInnerSpaces | src/pages/Solve.jsx:155-156 | `5 / 12` matches `5/12` |
| SolveAnswer.MatchExampleOuterSpaces | src/pages/Solve.jsx:155-156 | `  5/12 ` matches `5/12` |
| SolveAnswer.MatchExampleCase | src/pages/Solve.jsx:155-156 | `PI/2` matches `pi/2` |
| SolveAnswer.MatchExampleTimes | src/pages/Solve.jsx:155-156 | `8×8` matches `8*8` |
| SolveAnswer.MatchExampleSyntactic | src/pages/Solve.jsx:155-156 | `049` does not match `49`, and `49` does not match `050` |
| SolveAnswer.TrimStartShape | src/pages/Solve.jsx:152 | trimming the start empties exactly the all-whitespace strings, and otherwise leaves a non-space first |
| SolveAnswer.TrimEndEmpty | src/pages/Solve.jsx:152 | trimming the end of a string that starts with a non-space never empties it |
| SolveAnswer.BlankIffAllSpaces | src/pages/Solve.jsx:152 | an answer is blank after trimming exactly when it is all whitespace |
| SolveSelection.QueryFor | src/pages/Solve.jsx:95-99 | the query filters by category exactly when the category is not ALL, and by the band of the difficulty |
| SolveSelection.BandsPartition | src/pages/Solve.jsx:97-99 | of the difficulty pills only ALL is unrestricted; the bands 1-3, 4-6 and 7-10 are pairwise disjoint inclusive ranges that together cover 1..10 |
| SolveSelection.FilterCategory | src/pages/Solve.jsx:105 | the filtered pool holds exactly the pool's problems of that category |
| SolveSelection.FallbackPool | src/pages/Solve.jsx:104-105 | the fallback pool holds exactly the demo problems of the category, all of them for ALL |
| SolveSelection.RandomIndex | src/pages/Solve.jsx:106 | `floor(r * n)` is a valid index for `0 <= r < 1` and `n > 0` |
| SolveSelection.Draw | src/pages/Solve.jsx:106-108 | a draw yields a problem exactly when the pool is non-empty, and that problem is in the pool |
| SolveSelection.RandomIndexInterval | src/pages/Solve.jsx:106 | index `i` of `n` is chosen exactly when `r * n` lies in `[i, i + 1)`, so each index gets an interval of `r` of width `1/n` |
| SolveSelection.DrawInterval | src/pages/Solve.jsx:106-108 | when `r * n` lies in `[i, i + 1)` the draw is the pool's `i`-th problem |
| SolveSelection.SelectProblem | src/pages/Solve.jsx:101-114 | a throw draws from all demo problems; an error, no data or no rows draws from the fallback pool; otherwise the draw is one of the rows returned |
| SolveSelection.DemoIdsAreDemo | src/pages/Solve.jsx:8-59 | every demo problem's id starts with `demo` |
| SolveSelection.FallbackPoolNonEmpty | src/pages/Solve.jsx:8-82 | for every category the page offers, the fallback pool is non-empty |
| SolveSelection.SelectionNeverEmpty | src/pages/Solve.jsx:82-114 | for a category the page offers, some problem is always selected |
| SolveSelection.FallbackFiltersCategoryOnly | src/pages/Solve.jsx:102-114 | the fallback yields a demo problem of the chosen category; on a throw the category does not matter |
| SolveSelection.FallbackIgnoresBand | src/pages/Solve.jsx:102-106 | the fallback ignores the band: under 1-3 it never yields a problem of that band |
| SolveSelection.RemoteSelectionMatches | src/pages/Solve.jsx:95-108 | if the store honours the query, the problem drawn satisfies every filter |
| SolveSelection.LabelsAgreeWithBands | src/pages/Solve.jsx:189-193 | every difficulty of a band gets that band's Easy/Medium/Hard label; Easy iff at most 3, Hard iff above 6 |
| SolveSelection.QuoteOfDay | src/pages/Solve.jsx:195-200 | the quote shown is always one of the three quotes |
| SolvePage.SubmitWrites | src/pages/Solve.jsx:168-179 | a submission row for the user and problem with the earned points, then the new total (previous score plus points), the profile refetch and the vault upsert |
| SolvePage.ScoringAgrees | src/pages/Solve.jsx:164-173 | points are 75 iff the solution was visible and 100 otherwise; the UI status (`correct_with_solution` or `correct`, never `wrong`) and the stored status agree with the points |
| SolvePage.SubmitWritesAgree | src/pages/Solve.jsx:172-176 | the stored status agrees with the stored points, and the new total is strictly greater than the previous score |
| SolvePage.DemoProblemsNeverWritten | src/pages/Solve.jsx:142-168 | a demo problem never passes the remote-write guard |
| SolvePage.Selected | src/pages/Solve.jsx:94-114 | the step-by-step form of `SelectProblem`: the try/catch of `fetchProblem`, with its pool variable, settles on the problem `SelectProblem` specifies |
| SolvePage.Solve.constructor | src/pages/Solve.jsx:71-80 | every piece of page state starts at its initial value |
| SolvePage.Solve.SelectCategory | src/pages/Solve.jsx:214 | the category filter becomes the chosen pill |
| SolvePage.Solve.SelectDifficulty | src/pages/Solve.jsx:226 | the difficulty filter becomes the chosen pill |
| SolvePage.Solve.EditAnswer | src/pages/Solve.jsx:304 | the answer becomes the typed text |
| SolvePage.Solve.EditNotes | src/pages/Solve.jsx:348 | the notes become the typed text |
| SolvePage.Solve.ReceiveScratchpad | src/pages/Solve.jsx:335 | the scratchpad data becomes the snapshot received |
| SolvePage.Solve.ResetForFetch | src/pages/Solve.jsx:86-92 | loading starts; answer and notes become empty, scratchpad data, status and points absent, solution visibility false |
| SolvePage.Solve.FetchProblem | src/pages/Solve.jsx:85-117 | resets answer and notes to empty, scratchpad data, status and points to absent and solution visibility to false; issues the query of the filters; the problem is `SelectProblem` of the reply; the filters are unchanged |
| SolvePage.Solve.ShowSolution | src/pages/Solve.jsx:185-187 | the solution becomes visible |
| SolvePage.Solve.HandleSubmit | src/pages/Solve.jsx:151-183 | called only while the answer field is shown (no correct answer yet, Solve.jsx:297); a blank answer or no problem changes nothing; a wrong answer sets status wrong, leaves no points and writes nothing; a correct one sets the points and status, and issues the writes exactly when a user is signed in and the problem is not a demo |
| SolvePage.Solve.SaveVault | src/pages/Solve.jsx:141-149 | the upsert of notes and scratchpad is issued exactly when the write guard passes |
| SolvePage.Solve.LoadVault | src/pages/Solve.jsx:124-139 | the vault is queried exactly when the guard passes; a row found sets the notes (empty if absent) and the snapshot (absent if empty); otherwise nothing changes |
| SolvePage.CorrectSubmissionScenario | src/pages/Solve.jsx:85-183 | with score 0, a correct answer to a stored problem without the solution writes a SOLVED_INDEPENDENTLY submission worth 100 and a total of 100 |
| Scratchpad.StyleByTool | src/components/Scratchpad.jsx:52-53 | eraser strokes are white and 20 wide, pen strokes `#1a1a2e` and 2 wide, and only the eraser paints white |
| Scratchpad.GetPos | src/components/Scratchpad.jsx:24-33 | the position is the client coordinates minus the rectangle's origin, from the first touch of a touch event |
| Scratchpad.InitialSurface | src/components/Scratchpad.jsx:15-21 | the initial surface is the white fill with no segments, with the saved snapshot as backdrop exactly when one is given |
| Scratchpad.Canvas.constructor | src/components/Scratchpad.jsx:6-22 | the pad starts idle, with the pen, no last position and the initial surface |
| Scratchpad.Canvas.SelectTool | src/components/Scratchpad.jsx:81-90 | the tool becomes the one chosen |
| Scratchpad.Canvas.StartDraw | src/components/Scratchpad.jsx:35-40 | enters the drawing state with the event's position as the last position |
| Scratchpad.Canvas.Draw | src/components/Scratchpad.jsx:42-58 | while idle nothing changes; while drawing exactly one segment from the last position to the new one, in the tool's style, is appended, and the new position becomes the last |
| Scratchpad.Canvas.EndDraw | src/components/Scratchpad.jsx:60-66 | while idle it emits nothing; otherwise it returns to idle and emits one snapshot of the current surface (if a callback is present) |
| Scratchpad.Canvas.Clear | src/components/Scratchpad.jsx:68-74 | the surface becomes the white fill and the absent snapshot is emitted; the drawing state is untouched |
| Scratchpad.ClearThenEndScenario | src/components/Scratchpad.jsx:60-74 | clearing an idle pad and ending a stroke never begun emits the absent snapshot once, then nothing, and the pad is still idle |
| Scratchpad.StrokeScenario | src/components/Scratchpad.jsx:35-66 | one begun, extended and ended pen stroke emits a snapshot holding exactly that segment |
| Leaderboard.RankBands | src/pages/Leaderboard.jsx:6-12 | each tier is exactly a score band with an inclusive lower bound; every score under 400, negative ones included, is Bronze |
| Leaderboard.RankBoundaries | src/pages/Leaderboard.jsx:6-12 | 399/400, 999/1000, 2499/2500 and 4999/5000 fall on either side of the tier boundaries |
| Leaderboard.RankMonotone | src/pages/Leaderboard.jsx:6-12 | a higher score never yields a lower tier |
| Leaderboard.RankHasColor | src/pages/Leaderboard.jsx:5-12 | every tier returned has a colour |
| Leaderboard.DemoLeadersDescending | src/pages/Leaderboard.jsx:14-38 | the demo list is strictly descending by score and within the limit of 50 |
| Leaderboard.StrictlyDescendingByNeighbours | src/pages/Leaderboard.jsx:14-25 | a list whose neighbours descend strictly is strictly descending throughout |
| Leaderboard.LeadersShown | src/pages/Leaderboard.jsx:33-41 | an error, no data, no rows or a throw shows the demo list; otherwise the rows returned |
| Leaderboard.LeadersShownOrdered | src/pages/Leaderboard.jsx:33-41 | the board is never empty and is ordered whenever the store honours the request |
| Leaderboard.Decimal | src/pages/Leaderboard.jsx:73 | every number prints with at least one digit |
| Leaderboard.DecimalRoundTrip | src/pages/Leaderboard.jsx:73 | the decimal text reads back as the number |
| Leaderboard.HashLabelInjective | src/pages/Leaderboard.jsx:73 | two `#` labels are equal only when the text after the `#` is |
| Leaderboard.HashDecimalDistinct | src/pages/Leaderboard.jsx:73 | different positions give different `#n` labels |
| Leaderboard.PositionLabelsDistinct | src/pages/Leaderboard.jsx:73 | positions 0 to 2 get the medals, later ones `#` and the 1-based position; no two positions share a label |
| Header.SameRankAsLeaderboard | src/components/Header.jsx:5-19 | the header's classifier and colours agree with the leaderboard's on every score |
| Header.ProfileRank | src/components/Header.jsx:26 | with no profile the tier is Bronze, otherwise the tier of the profile's score |
| Header.RankColor | src/components/Header.jsx:5-27 | the colour is always defined for the computed tier |
| Header.ShownStats | src/components/Header.jsx:49-57 | points and tier are shown exactly when both a user and a profile are present, with the profile's score and its tier |
| History.StatusLabel | src/pages/History.jsx:28-47 | a known status gets its entry, any other or missing status the FAILED entry |
| History.StatusLabelTable | src/pages/History.jsx:28-47 | the two solved statuses are labelled Solved and Solution Used; the label is Failed exactly for any other or missing status |
| History.StoredStatusesNotFailed | src/pages/History.jsx:28 | both statuses the Solve page stores are labelled other than Failed, and Solution Used exactly when the solution was shown |
| History.OnVisit | src/pages/History.jsx:14-21 | with no user the page redirects and queries nothing; otherwise it queries that user's submissions |
| History.HistoryList | src/pages/History.jsx:22 | absent data gives the empty list |
| History.TextOr | src/pages/History.jsx:51-53 | a missing or empty field gives the fallback |
| History.EntryOf | src/pages/History.jsx:46-57 | an entry always shows a category and a question (Math and Problem when the problem is missing) and the status label |
| PasswordHex.HexDigit | src/context/AuthContext.jsx:18 | every digit is a lowercase hexadecimal character |
| PasswordHex.HexValue | src/context/AuthContext.jsx:18 | the value of a lowercase hexadecimal digit is below 16 and prints back as that digit |
| PasswordHex.PadStart | src/context/AuthContext.jsx:18 | padding keeps the text at the end and fills the start up to the length |
| PasswordHex.ByteToHexDigits | src/context/AuthContext.jsx:17-19 | every byte prints as exactly two lowercase digits, high nibble first, zero-padded |
| PasswordHex.HexEncode | src/context/AuthContext.jsx:17-19 | the text has two characters per byte |
| PasswordHex.HexEncodeUnfold | src/context/AuthContext.jsx:17-19 | the text of a non-empty byte list is the first byte's two digits followed by the text of the rest |
| PasswordHex.ByteToHexAlphabet | src/context/AuthContext.jsx:17-19 | each character of one byte's two-digit text is a lowercase hexadecimal digit |
| PasswordHex.HexEncodeChars | src/context/AuthContext.jsx:17-19 | every character occurring in the text is a lowercase hexadecimal digit |
| PasswordHex.HexEncodeAlphabet | src/context/AuthContext.jsx:17-19 | every character of the text is a lowercase hexadecimal digit |
| PasswordHex.HexValueOfDigit | src/context/AuthContext.jsx:18 | every digit reads back as its value |
| PasswordHex.DecodePairOfByte | src/context/AuthContext.jsx:17-19 | the two digits printed for a byte read back as that byte |
| PasswordHex.HexDecodeByte | src/context/AuthContext.jsx:17-19 | a printed byte in front of any text decodes back to that byte |
| PasswordHex.HexRoundTrip | src/context/AuthContext.jsx:17-19 | the text decodes back to the bytes |
| PasswordHex.HexEncodeInjective | src/context/AuthContext.jsx:17-19 | different bytes never print the same text |
| AuthContext.HashPassword | src/context/AuthContext.jsx:8-20 | the hash is lowercase hexadecimal, twice as long as the key, and decodes back to the derived key |
| AuthContext.HashLength | src/context/AuthContext.jsx:15-19 | a 256-bit key prints as 64 characters |
| AuthContext.HashesEqualIffKeysEqual | src/context/AuthContext.jsx:99 | two hashes are equal exactly when the derived keys are |
| AuthContext.NewProfileRow | src/context/AuthContext.jsx:68-76 | the inserted row has the given id, email, user name and salt, the hash of the password, score 0 and rating 1000 |
| AuthContext.SessionFor | src/context/AuthContext.jsx:103 | the session holds the row's user id and user name and the email as typed |
| AuthContext.SignInDecision | src/context/AuthContext.jsx:88-101 | a throw and a store error are refusals before anything else; success returns the looked-up row |
| AuthContext.SignInSucceedsIff | src/context/AuthContext.jsx:94-101 | sign-in succeeds exactly when the lookup answered without error with a row whose stored hash is the nonempty hash of the password; no row is No account, no hash is a different method, a mismatched hash is Incorrect password |
| AuthContext.RefusalMessages | src/context/AuthContext.jsx:62-100 | the four fixed refusals have pairwise different messages, and a store error passes the store's message on |
| AuthContext.SignUpThenSignIn | src/context/AuthContext.jsx:64-101 | an account made by sign-up accepts exactly the passwords with the same derived key under its salt, including its own password |
| AuthContext.AuthProvider.constructor | src/context/AuthContext.jsx:23-25 | no user, no profile, loading |
| AuthContext.AuthProvider.RestoreSession | src/context/AuthContext.jsx:28-42 | a stored session becomes the user and its profile is fetched; unparsable text is removed and loading ends; an absent or empty entry only ends loading |
| AuthContext.AuthProvider.FetchProfile | src/context/AuthContext.jsx:44-52 | the reply's data becomes the profile and loading ends |
| AuthContext.AuthProvider.SignUp | src/context/AuthContext.jsx:54-85 | a found email is refused before any insert; the new row is inserted; a store error is refused; on success the session is stored, becomes the user and the profile is refetched |
| AuthContext.AuthProvider.SignIn | src/context/AuthContext.jsx:87-108 | on success the session is stored, becomes the user, and the row becomes the profile; on a refusal nothing changes |
| AuthContext.AuthProvider.SignOut | src/context/AuthContext.jsx:110-114 | the stored session, the user and the profile are cleared |
| AuthContext.SignUpSignInScenario | src/context/AuthContext.jsx:54-114 | signing up, out and in again with the same password yields the same session twice |

## Left out

- Backend I/O: every Supabase query and write is a parameter (the reply) or a returned value (the write). The network, row-level security and the stores' own ordering and limits are not modelled.
- `crypto.subtle` PBKDF2 (PBKDF2 as in section 5.2 of RFC 8018, HMAC-SHA-256, 100000 iterations) is the uninterpreted parameter `kdf`. `crypto.randomUUID()` values are parameters. `TextEncoder` is folded into `kdf`.
- `localStorage` is the field `AuthProvider.stored`. `JSON.parse` either gives back the session (`Saved`) or fails (`Garbage`). Text that parses as JSON but is not a session object is not modelled.
- SolveAnswer.LowerChar: `toLowerCase` is modelled on the letters A-Z only. The Unicode case map is not modelled.
- SolveAnswer.IsSpace: `\s` and `trim` use the fixed set of ECMAScript WhiteSpace and LineTerminator code points.
- Canvas details: pixel rasterisation, line caps and joins, `toDataURL` and image decoding are not modelled, and client coordinates are integers. A snapshot is the surface value (a backdrop plus a segment log).
- Scratchpad.Canvas.Draw: requires a readable position while drawing. A touch event with an empty touch list makes the source throw, and that is not modelled.
- React scheduling: batched or stale state updates, and races between overlapping fetches and submissions, are not modelled. Handlers run one at a time to completion. An uncaught rejection in `handleSubmit` would leave `submitting` set; that is not modelled either.
- KaTeX rendering and the other page markup are not modelled. Routing, `Home.jsx` and `Login.jsx` are not part of this model.
- History.StatusLabel: JavaScript object lookup also finds inherited keys such as `constructor`. The model looks up only the three own keys.
- History.OnVisit: the query's ordering by `submitted_at` and its limit of 50 are not modelled; dates are not rendered.
- Scratchpad and Solve are kept apart: the scratchpad reads `savedData` only when it mounts (src/components/Scratchpad.jsx:10-22, an effect with no dependencies). After a new problem is fetched (src/pages/Solve.jsx:89) or a vault entry is loaded (src/pages/Solve.jsx:135), the page's `scratchpadData` changes but the canvas is not redrawn. The model's `Canvas` and `Solve` share no state.
- Leaderboard.Decimal: the number formatting of scores and ratings (`toLocaleString`) is not modelled. Only the position label's plain decimal is.
- AuthContext.AuthProvider.FetchProfile: `fetchProfile` is not awaited in the mount effect. A later reply overwriting an earlier one is a race and is not modelled.

The model follows the code where the code and its documentation differ:

- SolvePage.Solve.HandleSubmit: the code never clears `pointsEarned` on a wrong answer. It is absent anyway, because the page invariant ties points to a correct status and the handler is reachable only while no correct answer has been given.
- AuthContext.AuthProvider.SignUp: the error of the email lookup is not looked at. Only its data decides whether the email is taken.
- SolveSelection.FallbackPool: the fallback filters by category only, never by difficulty band.
