# Pelada quiz — a verified model of its round logic and data layer

Pelada is a football quiz. A player signs in, picks a theme and answers up to
15 multiple-choice questions. A wrong answer ends the game ("red card"); a
correct one moves on, 10 points per question. Players can suggest questions,
which an admin approves or deletes, and a global ranking sums everyone's
points. This project models, in Dafny, the parts of the front end that carry
rules: the quiz round of `QuizView`, the small builders in `App.tsx` and the
operations of `dbService.ts`. Firestore and localStorage are held as
in-memory state.

Files and modules:

- `wrappers.dfy` (`Wrappers`): `Option` and `Result`, standing for `null` and
  for a rejected promise.
- `types.dfy` (`Types`): `Difficulty`, `Theme`, `Question`, `ScoreEntry`,
  `UserProfile` from `types.ts`.
- `sequences.dfy` (`Sequences`): the random shuffle
  `sort(() => Math.random() - 0.5)` as `Shuffle(s, picks)`, where `picks` are
  the random draws. Every draw sequence gives a permutation, and every
  permutation comes from some draw sequence. Also `slice(0, n)` and
  `reverse()`.
- `db_service.dfy` (`DbService`): the class `Db` holds the `questions` and
  `users` collections (sequences in insertion order) and the cached
  current user. It also has the pure query filters, the per-user total and
  the ranking.
- `quiz.dfy` (`Quiz`): round assembly, and the answer state machine as pure
  steps (`Answer`, `Fire`). The class `QuizView` is the component, and its
  methods are specified by those steps. Each answer's 800 ms `setTimeout` is
  a separate step (`Fire`), and the timer keeps the index it was armed for.
- `app.dfy` (`App`): the mock sign-in (uid and role), the suggested-question
  builder, the profile's last-five history, and how a round's end is
  reported to the store.

Notes on what the code does:

- A round is built from the stored approved questions first. The generator
  is asked only when fewer than 5 were found. The pool is then shuffled and
  cut to 15, with no further ordering or filtering.
- `approveQuestion` on a missing id rejects, because Firestore's `updateDoc`
  fails on a missing document. The model returns `found = false` and changes
  nothing.
- `getQuestions` turns a failed read into an empty list. `getPendingQuestions`
  lets the failure reach its caller, so the model returns `Failure`.
- Signing in with the mock login writes a fresh profile with `scores: []`
  using `setDoc(..., { merge: true })`. This replaces the stored history of
  that uid (`App.SignInClearsHistory`).

## Model

| member | source | states |
|---|---|---|
| `Sequences.Shuffle` | App.tsx:331 | the shuffled list has the input's length and is a permutation of it (same multiset) |
| `Sequences.ShuffleReaches` | App.tsx:331 | every permutation of the input is produced by some sequence of random draws |
| `Sequences.Take` | App.tsx:331 | `slice(0, n)` (also dbService.ts:105): the first min(n, length) elements, a sub-multiset of the input |
| `Sequences.Reverse` | App.tsx:409 | element `i` of the result is element `n-1-i` of the input |
| `Quiz.Assemble` | App.tsx:325-331 | the round has min(15, pool) questions; they come from the store alone when it returned at least 5, else from store plus generated (as multisets) |
| `Quiz.CombineAndShuffle` | App.tsx:324-331 | the loader's step-by-step `combined` build, shuffle and cut yields exactly `Assemble` |
| `Quiz.StoredRound` | App.tsx:325-331 | with at least 5 stored questions, every question of the round is a stored one |
| `Quiz.DisplayedScore` | App.tsx:374 | on a reachable state, a game over reports exactly the points on screen, and a finished round reports 10 more than shown |
| `Quiz.FreshRound` | App.tsx:315-331 | a loaded round with at least one question starts in a reachable state at index 0 |
| `Quiz.AssemblyReaches` | App.tsx:325-331 | every first-15 slice of any permutation of the pool is a possible round |
| `Quiz.Answer` | App.tsx:338-354 | while feedback is shown a further answer changes nothing; otherwise the option is judged by exact equality with `correctAnswer`, recorded as selected, and a timer is armed for the current index; reachable-state invariant kept |
| `Quiz.Ending` | App.tsx:344-352 | a correct answer at index i ends the round only if i+1 >= length, with `(i+1)*10`; a wrong one always ends it with `i*10` |
| `Quiz.Fire` | App.tsx:344-352 | on a reachable state: a non-final correct answer moves to index+1 with selection and feedback cleared; a final one finishes with `length*10`; a wrong one ends with `index*10` and the index unchanged |
| `Quiz.Run` | App.tsx:338-354 | answers each followed straight away by their timer keep the invariant, never lower the index and never change an outcome once reached |
| `Quiz.Replay` | App.tsx:338-354 | any sequence of clicks and timer ticks, in any order (clicks while feedback is shown, ticks with no timer pending), keeps the invariant, never lowers the index, and changes nothing once the round has ended |
| `Quiz.CorrectStreak` | App.tsx:341-348 | correct answers to questions i..j-1 lead to question j with nothing selected |
| `Quiz.KCorrectAnswers` | App.tsx:347 | after k correct answers from the start the round is at index k and displays `10*k` points (the `currentIndex * 10` of App.tsx:374) |
| `Quiz.PerfectRound` | App.tsx:345 | answering every question correctly finishes with `10 * length` |
| `Quiz.FirstMiss` | App.tsx:350-352 | k correct answers then a wrong one ends the game at index k with `10*k`: the missed question scores nothing |
| `Quiz.EndedRoundIsFinal` | App.tsx:339 | once the round has ended, further answers and timers change nothing |
| `Quiz.QuizView.constructor` | App.tsx:315-319 | a mounted view is loading, at index 0, with no selection, feedback or timer |
| `Quiz.QuizView.Load` | App.tsx:321-336 | from the mounted state, the loaded questions are `Assemble` of the store's result and the round waits at index 0, in a reachable state when non-empty; with at least 5 stored questions every one is an approved question of the theme from the store |
| `Quiz.QuizView.HandleAnswer` | App.tsx:338-354 | the component's new state is `Answer` of the old one |
| `Quiz.QuizView.TimerFires` | App.tsx:344-352 | the new state is `Fire` of the old one, and the callback made is `Ending` of the old state |
| `DbService.Select` | dbService.ts:22-37 | a question is in the result iff it is in the collection and matches the query; the result is a sub-multiset |
| `DbService.SelectCounts` | dbService.ts:22-37 | each matching document is returned as often as it is stored, a non-matching one never |
| `DbService.Matches` | dbService.ts:25-35 | a theme query passes only approved questions of that theme, the moderation query exactly the unapproved ones, the delete filter exactly the other ids |
| `DbService.Db.GetQuestions` | dbService.ts:22-32 | with the store reachable, exactly the approved questions of the theme; on failure, none |
| `DbService.Db.GetPendingQuestions` | dbService.ts:34-38 | with the store reachable, exactly the unapproved questions; on failure, a `Failure` result |
| `DbService.Approve` | dbService.ts:45-47 | same length and ids; only `approved` may change, and it becomes true exactly for the given id |
| `DbService.ApprovalLeavesQueue` | dbService.ts:34-47 | after approving id, the pending list is the old pending list minus the questions with that id |
| `DbService.ApprovalPublishes` | dbService.ts:22-47 | after approving id, that question is served for its theme, and nothing else newly is |
| `DbService.Db.ApproveQuestion` | dbService.ts:45-47 | reports whether the id exists; the collection becomes `Approve` of the old one (unchanged if absent) |
| `DbService.Db.DeleteQuestion` | dbService.ts:49-51 | a question remains iff it was there and has a different id |
| `DbService.Db.SaveQuestion` | dbService.ts:40-43 | the question is appended under the new document id |
| `DbService.Total` | dbService.ts:102-103 | the `reduce` from 0: an empty history totals 0 |
| `DbService.TotalNonNegative` | dbService.ts:102-103 | a history without negative records has a non-negative total |
| `DbService.Points` | dbService.ts:102-103 | the total of a profile's history; a profile without records totals 0, as the fallback of a missing `scores` to `[]` |
| `DbService.TotalConcat` | dbService.ts:102-103 | the total of a concatenated history is the sum of the totals |
| `DbService.FindUser` | dbService.ts:109-111 | finds an index holding the uid, or reports that no profile has it |
| `DbService.AppendScore` | dbService.ts:108-114 | same users; only the profile with the uid changes, by one record appended at the end; unknown uid leaves everything; uids stay unique |
| `DbService.CachedAfterSave` | dbService.ts:115-116 | the cached user keeps every field but `scores`; its history becomes the stored new history exactly when it is the saved uid and that profile is stored, and is otherwise unchanged |
| `DbService.ScoreSavedOnce` | dbService.ts:113-114 | saving raises that user's total by the points, keeps earlier records as they were, and leaves other totals alone |
| `DbService.Upsert` | dbService.ts:89-91 | the profile is present; other uids' profiles are kept and nothing else is added; uids stay unique |
| `DbService.InsertByPoints` | dbService.ts:101-104 | inserting into a non-increasing list keeps it non-increasing and adds exactly that profile |
| `DbService.SortByPoints` | dbService.ts:101-104 | the sorted list is non-increasing by total and a permutation of the input |
| `DbService.GlobalRanking` | dbService.ts:98-106 | min(10, users) profiles, non-increasing by total, drawn from the users collection |
| `DbService.LeftOutRankLower` | dbService.ts:101-105 | a stored user missing from the ranking has a total at most that of every ranked user |
| `DbService.SortTwo` | dbService.ts:101-104 | of two profiles with different totals the higher sorts first, whichever comes first in the collection |
| `DbService.TwoUserRanking` | dbService.ts:101-105 | histories 10+20 and 25 give totals 30 and 25, and rank the 30 first in either collection order |
| `DbService.Db.GetCurrentUser` | dbService.ts:79-82 | the cached profile, or nothing when no entry is stored |
| `DbService.Db.SetCurrentUser` | dbService.ts:79-87 | `GetCurrentUser()` afterwards returns exactly the profile set, or nothing after setting null |
| `DbService.Db.SyncUser` | dbService.ts:89-91 | the users collection becomes `Upsert` of the old one with the profile; uids stay unique |
| `DbService.Db.SaveScore` | dbService.ts:108-118 | the users collection becomes `AppendScore` of the old one; an unknown uid changes nothing; the cached user becomes `CachedAfterSave` of the old cache |
| `App.KeepAlnum` | App.tsx:196 | only characters in `[a-zA-Z0-9]` remain, and the result is no longer than the input |
| `App.KeepAlnumCounts` | App.tsx:196 | each alphanumeric character is kept exactly as often as it occurs, every other character never |
| `App.KeepAlnumConcat` | App.tsx:196 | filtering a concatenation is the concatenation of the filtered parts, so kept characters stay in order |
| `App.KeepAlnumFixes` | App.tsx:196 | a string is unchanged by the filter iff it is all alphanumeric |
| `App.MockUid` | App.tsx:196 | the uid is `"user-"` followed by alphanumeric characters only |
| `App.MockUidsAgree` | App.tsx:196 | two emails give the same uid iff their alphanumeric characters agree |
| `App.PunctuationIgnored` | App.tsx:196 | inserting a non-alphanumeric character anywhere in an email does not change its uid |
| `App.MockProfile` | App.tsx:196-203 | uid from `MockUid`; role is admin iff the email is `admin@bola.com`; empty history |
| `App.SignInClearsHistory` | App.tsx:196-204 | after the sign-in write, the stored profile of that uid has total 0 |
| `App.SignIn` | App.tsx:189-205 | the profile is upserted into the users collection and becomes the current user |
| `App.Suggestion` | App.tsx:485-497 | the four options are a permutation of correct, o2, o3, o4, so the right answer is among them; approved iff admin mode; difficulty médio, subtheme Comunidade |
| `App.SuggestionAwaitsModeration` | App.tsx:485-498 | a suggestion saved outside admin mode is in the pending list and in no theme's playable list |
| `App.SubmitSuggestion` | App.tsx:485-499 | the built suggestion is appended to the questions collection under the new id |
| `App.RecentScores` | App.tsx:409 | at most 5 entries: entry i is the i-th most recent score |
| `App.OnTimer` | App.tsx:134 | the round steps by `Fire`; when it ends, exactly one score record with its final score is appended for the signed-in user and the cache becomes `CachedAfterSave`; otherwise the store and the cache are untouched |

## Left out

- Firebase initialisation, the auth state listener, `login`/`register`/`logout` (dbService.ts:54-76) and `getUserFromFirestore` (dbService.ts:93-96), which only the listener and `login` use (App.tsx:64-98, dbService.ts:14-16). These are calls into the authentication service and asynchronous listeners. The listener's `localStorage.removeItem('pelada_session')` (App.tsx:85) names a different key from the one the service uses and is not modelled.
- The question generator (geminiService.ts) is a network call to a language model. Its result is a parameter of `Quiz.QuizView.Load`: any list, or empty when it fails. The requested count of 8 does not constrain it.
- `Math.random` in the shuffles is replaced by the explicit draws `picks`. What a JavaScript engine's sort does with an inconsistent comparator is not modelled: which arrangements it can produce, and how often. The model assumes any arrangement can come out. `Date.now()` and ISO timestamps are opaque string parameters. The 800 ms delay is kept only as the ordering of `Answer` before `Fire`.
- Audio (App.tsx:100-110) and all rendering and styling.
- Rendering a loaded round with no questions reads `undefined` (App.tsx:363, 378) and crashes. `Quiz.QuizView.HandleAnswer` therefore requires the index to be in range when no feedback is shown.
- The localStorage JSON round trip is treated as identity. A missing `scores` field is treated as an empty history, as every use in the code does (`scores || []`).
- `points` are JavaScript numbers. They are modelled as unbounded integers, without floating-point rounding.
- Network failures of `saveScore`, `saveQuestion`, `deleteQuestion`, `syncUserToFirestore` and `getGlobalRanking` reject the promise and write nothing. The model has no failure path for them. It does model `approveQuestion` on a missing document.
- The `createdAt` field that `saveQuestion` adds is never read, and is not modelled.
- The admin screen also calls `db.getAllUsers` and `db.toggleUserAdmin` (App.tsx:429, App.tsx:468). `dbService.ts` does not define them, so they are not modelled.
- `SuggestView` is rendered without `adminMode` (App.tsx:136), so in this build every suggestion is pending. The model keeps `adminMode` as a parameter.
- `DbService.Select`: the contract states membership and counts, but not that collection order is kept.
- Document order: Firestore returns an unordered query sorted by document id, but the model keeps collections in insertion order. The model therefore does not capture the order of the pending list, the order of a round before shuffling, or ranking ties. In the code, equal totals are ordered by uid, and that order decides which of two equal users is cut at place 10.
- `saveScore` reads the profile (dbService.ts:110) and later writes the whole history back (dbService.ts:113-114). Two saves for one uid that overlap both read the same history, and the later write drops the other record (a lost update). The model treats each save as atomic, so this race is not modelled. `DbService.AppendScore` and `DbService.ScoreSavedOnce` hold only for saves that do not overlap.
- `DbService.Total`: its own contract states only the empty case. Additivity and sign are stated by `DbService.TotalConcat` and `DbService.TotalNonNegative`.
- `DbService.SortByPoints`: the contract does not state stability (equal totals keeping collection order), though the definition is stable.
- `Quiz.Assemble`: the contract bounds the round as a sub-multiset of the pool. That every arrangement is reachable is stated separately, by `Quiz.AssemblyReaches`.
