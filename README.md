# English Mastery client: storage guard and page state, in Dafny

This project models the local logic of the English Mastery web client.

The main part is the quota-aware guard around the browser's `localStorage`
(`StorageManager`, src/utils/storageManager.js). It is modelled as the class
`StorageGuard.StorageManager` over a `map<string, string>`. The model covers:

- the guarded write (`setItem`): one direct write; on a quota error, one
  cleanup and one retry; any other error fails at once;
- the quota-error classifier;
- the three-step cleanup policy;
- the emergency clear that saves the protected keys, clears the store and
  restores them;
- the guarded read and removal;
- the two size accumulators.

Whatever the host does that the guard cannot see is an argument of the
operation that meets it: whether a given host write throws, and with which
error; whether a read or a removal throws; today's `toDateString()`; the
user's answer to the "storage is full" dialog; and where the emergency clear
fails. Ghost counters record how often cleanup, the retry and the quota
dialog ran, and whether a reload was requested.

The specification functions are:

- `Cleaned`: the cleanup as three map steps, `DropStaleDailyWord`,
  `DropDraft` and `DropOrphans`;
- `Snapshot` and `Restored`: the emergency clear's two loops;
- `SavedProtected`: what the emergency clear should leave behind;
- `TotalSize`: the sum of `|key| + |value|` over the entries.

Each method is proved against these functions, and the lemmas prove the
cleanup and emergency rules about them.

Three pages hold small state machines. Each is a class whose fields are the
page's React state. Server responses are arguments, and `None` stands for a
request that failed.

- `Interview.InterviewPage` (src/pages/Interview.jsx) covers:
  - turning a stored session into the on-screen transcript (`Flatten`);
  - recomputing the score statistics;
  - the answer/evaluation exchange and the question it sends;
  - the resets;
  - the score colour.

  The ghost invariant `StatsMatchTranscript` says the statistics shown are
  those recomputed from the transcript. Every method preserves it.
- `Flashcards.FlashcardsPage` (src/pages/Flashcards.jsx) covers the deck
  updates (prepend, delete by id, replace by id), the study cursor and the
  mastery badge.
- `Debate.DebatePage` (src/pages/Debate.jsx) covers:
  - the cycle of game phases, setup → debating → analysis → setup;
  - the 60-second countdown as a per-tick rule;
  - the turn exchange;
  - the choice of message for "Replay Audio";
  - the `00:SS` clock label.

Module `Js` holds the few pieces of JavaScript the code relies on: `null` as
`Option`, `String.prototype.trim` with ECMAScript's whitespace set, and
`String.prototype.includes`. Each is specified independently of how it is
computed.

Observations the proofs make precise:

- The pages call `localStorage` directly, and nothing in the modelled code
  uses the guard. The dashboard caches its daily word under
  `daily_word_data` and `daily_word_date`, but the guard knows only the
  `_v2` names. Any cleanup therefore deletes the dashboard's real cache,
  whatever date it carries (`CleanupDropsDashboardDailyWord`). The dashboard
  also writes an ISO date where the guard compares against `toDateString()`.
  src/pages/Dashboard.jsx is not part of this model beyond this remark.
- Three behaviours of the code are easy to miss, and the model keeps each
  as written.
  1. The emergency clear has one `catch`. A failed clear and a failed
     restore are reported alike, as `cleared == false`.
  2. A protected key whose value is the empty string is falsy. It is not
     saved, so the emergency clear loses it.
  3. After a failed retry, the emergency clear runs only if the user
     confirms the dialog. When `window.confirm` is missing, only an alert is
     shown.

## Model

| member | source | states |
|---|---|---|
| Js.TrimEmptyIffBlank | src/pages/Interview.jsx:139 | `!s.trim()` holds exactly when every character of `s` is ECMAScript whitespace (both directions) |
| Js.Trim | src/pages/Interview.jsx:139 | the result has no whitespace at either end and is a slice of the input with only whitespace before and after it, as `String.prototype.trim` removes |
| Js.TrimsToEmpty | src/pages/Interview.jsx:139 | the `!input.trim()` guard is true exactly when the input is blank |
| Js.Includes | src/utils/storageManager.js:101-102 | `s.includes(sub)` is true exactly when `sub` occurs at some index of `s` |
| StorageGuard.IsQuotaExceededError | src/utils/storageManager.js:89-105 | true iff the error is a DOMException and its code is 22 or 1014, its name is `QuotaExceededError` or `NS_ERROR_DOM_QUOTA_REACHED`, or its message contains `quota` or `NO_SPACE` |
| StorageGuard.NonDomErrorIsNeverQuota | src/utils/storageManager.js:91 | an error that is not a DOMException is never classified as a quota error |
| StorageGuard.BrowserQuotaErrorsRecognised | src/utils/storageManager.js:97-99 | a DOMException named `QuotaExceededError` or `NS_ERROR_DOM_QUOTA_REACHED` is a quota error whatever its code and message |
| StorageGuard.QuotaMessageRecognised | src/utils/storageManager.js:101 | a DOMException whose message contains `quota` anywhere is a quota error whatever its code and name |
| StorageGuard.ProtectedAreKnown | src/utils/storageManager.js:9-24 | every protected key is one of the `STORAGE_KEYS` values |
| StorageGuard.DropStaleDailyWord | src/utils/storageManager.js:113-121 | the result no longer holds a stale daily-word cache; it keeps every other key and invents or rewrites no entry |
| StorageGuard.DropDraft | src/utils/storageManager.js:123-127 | the result holds no truthy `dashboard_sentence`; it keeps every other key and invents or rewrites no entry |
| StorageGuard.DropOrphans | src/utils/storageManager.js:129-138 | the result holds only known or protected keys, keeps every such key of the store, and rewrites no value |
| StorageGuard.Cleaned | src/utils/storageManager.js:110-141 | after the three steps there is no stale daily-word cache, no truthy draft and no unregistered key |
| StorageGuard.CleanupSurvivors | src/utils/storageManager.js:113-138 | a key survives cleanup iff it was present, is a known key, is not part of a stale daily-word pair and is not a non-empty draft; survivors keep their values |
| StorageGuard.CleanupKeepsSessionState | src/utils/storageManager.js:129-138 | `token`, `user`, `theme` and `activeInterviewSession` are present after cleanup iff before, with the same value |
| StorageGuard.CleanupOnlyRemoves | src/utils/storageManager.js:110-141 | cleanup never adds or rewrites an entry, and leaves only known keys |
| StorageGuard.CleanupDailyWord | src/utils/storageManager.js:114-121 | both `daily_word_data_v2` and `daily_word_date_v2` are removed when the stored date is present, non-empty and not today; otherwise both are untouched |
| StorageGuard.CleanupDraft | src/utils/storageManager.js:123-127 | `dashboard_sentence` survives cleanup iff it holds the empty string |
| StorageGuard.CleanupDropsDashboardDailyWord | src/utils/storageManager.js:129-138 | the unversioned keys `daily_word_data` and `daily_word_date` never survive a cleanup |
| StorageGuard.CleanupIdempotent | src/utils/storageManager.js:110-141 | a second cleanup with the same today changes nothing |
| StorageGuard.CleanupExample | src/utils/storageManager.js:110-141 | a store with the auth keys, the theme, a draft and a stray key is cleaned down to the auth keys and the theme |
| StorageGuard.Snapshot | src/utils/storageManager.js:205-209 | at most one entry per key listed; each saved entry is a listed key present in the store with its truthy value |
| StorageGuard.RestoredFrom | src/utils/storageManager.js:215-217 | after writing the entries back every written key is present, and every present key holds a value that one of the written entries carried |
| StorageGuard.SavedProtected | src/utils/storageManager.js:205-209 | the saved entries are a subset of the store's |
| StorageGuard.RestoredSnapshot | src/utils/storageManager.js:205-217 | writing back the snapshot of any key list into an empty store gives exactly the truthy entries of those keys |
| StorageGuard.EmergencyKeepsTruthyProtected | src/utils/storageManager.js:205-217 | after the clear and restore, exactly the protected keys with truthy values remain, with their values; a protected key holding `""` is lost |
| StorageGuard.AfterEmergency | src/utils/storageManager.js:202-226 | a throwing `clear()` leaves the store as it was; otherwise only protected keys remain, each with its old truthy value, however early the restore stops |
| StorageGuard.TotalSizeRemove | src/utils/storageManager.js:242-250 | the total size is the size of any one entry plus the total of the rest, so the order of the `for…in` loop does not matter |
| StorageGuard.EntryWithinTotal | src/utils/storageManager.js:242-250 | no single entry is larger than the store's total size |
| StorageGuard.RestrictStep | src/utils/storageManager.js:242-250 | the size of the pending keys is the size of any one of them plus the size of the rest, which is the step of the `for…in` loop |
| StorageGuard.StorageManager.constructor | src/utils/storageManager.js:8-28 | the guard starts over the given store with all counters at zero |
| StorageGuard.StorageManager.GetItem | src/utils/storageManager.js:64-71 | returns the stored value when the read succeeds and the key is present, otherwise `null`; changes nothing |
| StorageGuard.StorageManager.RemoveItem | src/utils/storageManager.js:76-84 | returns true and deletes exactly that key, or returns false with the store unchanged when the host throws |
| StorageGuard.StorageManager.SetItem | src/utils/storageManager.js:33-59 | success iff the first write succeeds, or it fails with a quota error and the retry succeeds. A first success writes the key with no cleanup. A non-quota error changes nothing, with zero cleanups and retries. A quota error runs exactly one cleanup and one retry, and the dialog once if the retry fails, leaving the store as the dialog's outcome leaves the cleaned store. A reload is requested exactly when the retry fails and the emergency clear that follows gets through |
| StorageGuard.StorageManager.CleanupOldData | src/utils/storageManager.js:110-141 | the new store is `Cleaned(old store, today)`; one more cleanup is counted |
| StorageGuard.StorageManager.SweepOrphans | src/utils/storageManager.js:129-138 | the loop over the present keys removes exactly those that are neither known nor protected |
| StorageGuard.StorageManager.HandleQuotaError | src/utils/storageManager.js:175-197 | the store changes only when the user confirms, and then as the emergency clear leaves it; one dialog is counted; a reload is requested exactly when the user confirms and the emergency clear gets through |
| StorageGuard.StorageManager.EmergencyClearCache | src/utils/storageManager.js:202-226 | unchanged store if `clear()` throws; otherwise the saved entries written back up to the first failing write; success iff nothing threw, and then the store is exactly the truthy protected entries and a reload is requested |
| StorageGuard.StorageManager.SnapshotProtected | src/utils/storageManager.js:206-209 | the saved entries are the snapshot of the protected keys with truthy values, in key order |
| StorageGuard.StorageManager.RestoreEntries | src/utils/storageManager.js:215-217 | writes succeed up to the first failing one; the store is the saved entries written back up to that point, and the result says whether all were written |
| StorageGuard.StorageManager.GetLocalStorageSize | src/utils/storageManager.js:242-250 | the result is the sum of key length plus value length over all entries |
| StorageGuard.StorageManager.GetStorageReport | src/utils/storageManager.js:255-272 | one size per stored key, each key length plus value length, and a `totalBytes` equal to `getLocalStorageSize`'s total |
| Interview.Flatten | src/pages/Interview.jsx:52-65 | the transcript has one entry per backend message plus one per evaluated message |
| Interview.FlattenAt | src/pages/Interview.jsx:52-65 | backend message `i` appears in order as a text entry with its role and content; the entry right after it is its evaluation iff it has one |
| Interview.FlattenAppend | src/pages/Interview.jsx:52-65 | flattening a concatenation is the concatenation of the flattened parts |
| Interview.FlattenFirst | src/pages/Interview.jsx:52-65 | the first backend message becomes the first entry, followed by its evaluation exactly when it has one |
| Interview.RecomputeStats | src/pages/Interview.jsx:69-74 | the question count is at most the transcript length, and no question means a zero total |
| Interview.EvaluationsBound | src/pages/Interview.jsx:69 | filtering the evaluated entries never yields more entries than the transcript has |
| Interview.RecomputeAppend | src/pages/Interview.jsx:69-74 | the question count and the score total of a concatenated transcript are the sums of its parts' |
| Interview.LoadedStats | src/pages/Interview.jsx:68-74 | the recomputed statistics of a loaded session count one question per evaluated message and sum their scores, counting a missing score as 0 |
| Interview.LastAiText | src/pages/Interview.jsx:146 | absent iff the transcript has no `ai` entry; otherwise the text of the last `ai` entry |
| Interview.QuestionFor | src/pages/Interview.jsx:146-150 | the question sent is the text of the last `ai` entry when there is one with non-empty text, and `General Context` otherwise; it is never empty |
| Interview.ScoreTone | src/pages/Interview.jsx:184-188 | green iff the score is at least 8; yellow iff it is at least 5 and below 8; red otherwise, an absent score included |
| Interview.ScoreToneMonotone | src/pages/Interview.jsx:184-188 | a higher score never gets a lower colour |
| Interview.ToneClass | src/pages/Interview.jsx:184-188 | each colour has its own class: `text-green-400` iff green, `text-yellow-400` iff yellow, `text-red-400` iff red |
| Interview.GreetingShape | src/pages/Interview.jsx:105 | the greeting starts with `New session started! `, ends with `Select a topic to begin.`, and mentions the resume right after the opening exactly when a resume was read |
| Interview.ReplyEntries | src/pages/Interview.jsx:156-178 | one or two entries: the evaluation, then the next question as an `ai` entry exactly when it is truthy; or the single `system` error entry after a failure |
| Interview.StatsAfter | src/pages/Interview.jsx:172-175 | the question count grows by exactly one after an evaluation and is unchanged, with the whole statistics, after a failure |
| Interview.ReplyStats | src/pages/Interview.jsx:156-178 | the entries appended after an answer count one question with its score after an evaluation, and nothing after a failure |
| Interview.SendKeepsStats | src/pages/Interview.jsx:143-178 | if the statistics matched the transcript before a send, the statistics `handleSend` computes match the transcript after it |
| Interview.AnswerKeepsStats | src/pages/Interview.jsx:143-144 | appending the user's answer leaves the recomputed statistics unchanged |
| Interview.ReplyAddsStats | src/pages/Interview.jsx:156-178 | appending the reply to any transcript changes its recomputed statistics exactly as `StatsAfter` says |
| Interview.InterviewPage.constructor | src/pages/Interview.jsx:9-20 | the page starts empty, with length `short` and zero statistics |
| Interview.InterviewPage.LoadSession | src/pages/Interview.jsx:46-83 | on success the transcript is the flattened session, the statistics are its recomputed ones and the id is remembered; the id is stored under `activeInterviewSession` unless that write throws, in which case storage is unchanged and the rest still holds; on failure nothing changes |
| Interview.InterviewPage.ResumeSavedSession | src/pages/Interview.jsx:85-90 | with no truthy stored id, or a failed request, the transcript, statistics, id and storage are unchanged; with a truthy id and a successful request the transcript, statistics and id are the stored session's, and storage is unchanged |
| Interview.InterviewPage.StartNewSession | src/pages/Interview.jsx:92-115 | on success the new session comes first, the statistics are zero, the transcript is the one greeting and the resume is cleared; on failure nothing changes |
| Interview.InterviewPage.GetNextQuestion | src/pages/Interview.jsx:117-135 | on success exactly one `ai` entry with the question is appended; the statistics still match |
| Interview.InterviewPage.HandleSend | src/pages/Interview.jsx:137-182 | blank input changes nothing. Otherwise the request carries the last question or `General Context`, the input is cleared, and the user entry and the reply entries are appended. The statistics gain one question and the score (0 when missing) after an evaluation and are unchanged after a failure |
| Interview.InterviewPage.RecordExchange | src/pages/Interview.jsx:143-178 | appends user, evaluation and (only for a truthy `nextQuestion`) ai entries in that order, or user and one `system` error entry |
| Interview.InterviewPage.ClearSession | src/pages/Interview.jsx:210-216 | the id is null, the transcript empty, the statistics zero, and `activeInterviewSession` is removed |
| Flashcards.WithoutId | src/pages/Flashcards.jsx:46 | no kept card has the deleted id, and the deck does not grow |
| Flashcards.WithoutIdCounts | src/pages/Flashcards.jsx:46 | every card with another id is kept as many times as it occurred; cards with the id are all dropped |
| Flashcards.WithoutIdAppend | src/pages/Flashcards.jsx:46 | the filter works piecewise, so kept cards stay in their original order |
| Flashcards.FindIndex | src/pages/Flashcards.jsx:56 | the first position holding the id, or -1 exactly when no card has it |
| Flashcards.MasteryTier | src/pages/Flashcards.jsx:230-234 | mastery 3 is Mastered, 2 Reviewing, anything else New |
| Flashcards.TierLabel | src/pages/Flashcards.jsx:234 | each tier has its own word: `Mastered` iff mastered, `Reviewing` iff reviewing, `New` iff new |
| Flashcards.TierColour | src/pages/Flashcards.jsx:230-232 | each tier has its own colour: green iff mastered, yellow iff reviewing, red iff new |
| Flashcards.MasteryBadge | src/pages/Flashcards.jsx:230-234 | mastery 3 shows `Mastered` in green, 2 `Reviewing` in yellow, anything else `New` in red |
| Flashcards.FlashcardsPage.constructor | src/pages/Flashcards.jsx:7-13 | empty deck and form, not studying, cursor 0, unflipped |
| Flashcards.FlashcardsPage.FetchCards | src/pages/Flashcards.jsx:19-28 | on success the deck is the server's list; on failure it is unchanged |
| Flashcards.FlashcardsPage.HandleAdd | src/pages/Flashcards.jsx:30-40 | on success the returned card is prepended to the unchanged old deck and the form is reset and hidden; on failure nothing changes |
| Flashcards.FlashcardsPage.HandleDelete | src/pages/Flashcards.jsx:42-50 | after confirmation and a successful delete, the deck keeps exactly the cards with another id; otherwise it is unchanged |
| Flashcards.FlashcardsPage.HandleMastery | src/pages/Flashcards.jsx:52-66 | on success only the first card with that id is replaced; the length and every other position are unchanged; in study mode the cursor advances as `nextCard` says |
| Flashcards.FlashcardsPage.NextCard | src/pages/Flashcards.jsx:68-77 | always unflips; increments the cursor below the last card, otherwise resets it to 0 and leaves study mode; a cursor on a card of a non-empty deck stays on a card |
| Flashcards.FlashcardsPage.ToggleForm | src/pages/Flashcards.jsx:159 | the form's visibility flips |
| Flashcards.FlashcardsPage.Flip | src/pages/Flashcards.jsx:100 | the card turns over |
| Flashcards.FlashcardsPage.ExitStudy | src/pages/Flashcards.jsx:95 | leaves study mode and keeps the cursor |
| Flashcards.FlashcardsPage.StudyNowAsWritten | src/pages/Flashcards.jsx:152-153 | offered only for a non-empty deck; enters study mode without touching the cursor |
| Flashcards.FlashcardsPage.StudyNow | src/pages/Flashcards.jsx:152-153 | offered only for a non-empty deck; enters study mode at the first card, so the rendered study card exists |
| Flashcards.StaleIndexScenario | src/pages/Flashcards.jsx:86-87 | a reachable state renders the study view with the cursor past the end of the deck |
| Flashcards.StaleIndexScenarioCorrected | src/pages/Flashcards.jsx:86-87 | the same steps with the corrected Study Now end with the cursor on a card |
| Debate.Ticks | src/pages/Debate.jsx:28-37 | after `k` ticks the time has not grown and has dropped by at most `k`; a timer that ends active was active; an inactive timer keeps its time |
| Debate.TickRule | src/pages/Debate.jsx:28-37 | an active timer with time left loses exactly one second; at zero the timer stops; an inactive timer keeps its time; the time never grows or goes below 0 |
| Debate.CountsDown | src/pages/Debate.jsx:28-37 | `k` ticks of an active timer at `t >= k` leave it active at `t - k` |
| Debate.StoppedAtZero | src/pages/Debate.jsx:32-33 | a stopped timer at zero stays stopped at zero |
| Debate.TicksSplit | src/pages/Debate.jsx:28-37 | ticking `a` times and then `b` times is ticking `a + b` times |
| Debate.TurnExpires | src/pages/Debate.jsx:28-37 | a turn of `t` seconds reads 0 after `t` ticks and is stopped at 0 from the next tick on |
| Debate.UrgentInLastTenSeconds | src/pages/Debate.jsx:231 | during a full turn the clock is red exactly after more than 50 ticks |
| Debate.LastAiContent | src/pages/Debate.jsx:124 | absent iff there is no `ai` message; otherwise the content of the last `ai` message |
| Debate.NatToString | src/pages/Debate.jsx:233 | decimal digits with no leading zero; one digit below 10, two below 100 |
| Debate.NatToStringRoundTrip | src/pages/Debate.jsx:233 | reading the printed digits back gives the number |
| Debate.PadStart2 | src/pages/Debate.jsx:233 | at least two characters: the string with as many leading `0`s as it lacks |
| Debate.TimerLabel | src/pages/Debate.jsx:233 | `00:` followed by at least two decimal digits |
| Debate.TimerLabelReadsBack | src/pages/Debate.jsx:233 | for every time left, the digits after `00:` read back as it |
| Debate.TimerLabelShape | src/pages/Debate.jsx:233 | below 100 the label has five characters: `00:`, the tens digit, the units digit |
| Debate.TimerUrgent | src/pages/Debate.jsx:231 | the clock is red exactly when the label's tens digit is `0` |
| Debate.DebatePage.constructor | src/pages/Debate.jsx:8-26 | setup phase, empty transcript, a full stopped clock, not speaking |
| Debate.DebatePage.Speak | src/pages/Debate.jsx:108-116 | when speech is available the text is spoken and the page is speaking; otherwise nothing changes |
| Debate.DebatePage.SpeechEnded | src/pages/Debate.jsx:113-114 | the page is no longer speaking |
| Debate.DebatePage.Tick | src/pages/Debate.jsx:28-37 | the clock moves by `TickRule` and stays within a turn |
| Debate.DebatePage.StartUserTurn | src/pages/Debate.jsx:58-62 | the input is cleared, the clock reads 60 and runs |
| Debate.DebatePage.StartDebate | src/pages/Debate.jsx:39-56 | on success setup turns into debating, the transcript is the opening statement, and the user's turn starts; the statement is spoken and the page speaking when speech is available, and otherwise speech state is unchanged; on failure nothing changes |
| Debate.DebatePage.SendTurn | src/pages/Debate.jsx:64-92 | blank input changes nothing. Otherwise the timer stops and the user's message is appended. On success exactly one `ai` reply follows and a new turn starts; the reply is spoken when speech is available. On failure the input is kept, the timer stays off and speech state is unchanged |
| Debate.DebatePage.EndDebateAsWritten | src/pages/Debate.jsx:94-106 | the handler as written: without speech synthesis the `cancel()` call throws first, so the phase and the analysis never change; with it, success turns debating into analysis |
| Debate.DebatePage.EndDebate | src/pages/Debate.jsx:94-106 | the handler as intended: on success debating turns into analysis with the analysis kept, whether or not speech is available; on failure the phase is unchanged; analysis always has an analysis to show |
| Debate.DebatePage.NewDebate | src/pages/Debate.jsx:337 | analysis turns into setup |
| Debate.DebatePage.ToggleSpeech | src/pages/Debate.jsx:118-127 | while speaking it stops and replays nothing; otherwise it replays the last `ai` message, if any |
| Debate.SpeechlessEndScenario | src/pages/Debate.jsx:39-106 | on a browser without speech synthesis, a started debate cannot be ended even when the server answers: it stays in debating with no analysis |
| Debate.FullRoundScenario | src/pages/Debate.jsx:39-106 | start, one answered turn, end and new debate lead back to setup with the analysis kept, the three messages in order and a fresh running turn |

## Left out

- `checkStorageHealth` (src/utils/storageManager.js:146-170), called from the constructor: it uses an asynchronous host estimate and a floating-point percentage.
- `formatBytes` and the formatted strings of `getStorageReport`: they use floating-point logarithms and rounding. The report keeps integer sizes and `totalBytes`.
- The text of the quota dialog and of the alerts, and `window.location.reload()`: the reload is the ghost flag `reloadRequested`, and the user's answer to the dialog is the `Recovery` argument.
- StorageGuard.StorageManager.CleanupOldData: its own reads and removals are modelled as never throwing. A throwing read makes the source skip a step, and a throwing removal leaves that key. Neither case is modelled.
- StorageGuard.StorageManager.EmergencyClearCache: its reads of the protected keys are modelled as never throwing. A failed write is modelled as stopping the restore, as the source's `catch` does.
- Sizes count Dafny characters (Unicode scalar values), while JavaScript `.length` counts UTF-16 code units. A character outside the Basic Multilingual Plane counts 1 here and 2 in the browser.
- Scores are integers, while the server may send fractions. The average `(totalScore / questions).toFixed(1)` on the Interview page is left out (floating point).
- Every network call: responses are arguments, with `None` for a rejected request. Request bodies are modelled only for the evaluation request. `fetchHistory` on the Interview page is left out: it only replaces the session list.
- `loading` flags (so the Debate page's `loading` staying true after a throwing `cancel()` is not modelled), `showHistory`, the history drawer, the difficulty and custom-topic inputs, typing into inputs, voice input and the form's field edits: these are UI plumbing with no rule to prove.
- Speech synthesis is the ghost log `spoken` and the flag `isSpeaking`. The `speak` helper of the Flashcards page is left out: it has no state.
- `setInterval` timing: only the per-tick rule is modelled (`Debate.TickRule`), not wall-clock time or React's effect scheduling.
- Concurrency: React's asynchronous state updates and interleaved requests (for example, a second send before the first evaluation returns) are not modelled. Each handler runs to completion with its response given up front.
- Debate.DebatePage.StartDebate, Debate.DebatePage.EndDebate, Debate.DebatePage.EndDebateAsWritten, Debate.DebatePage.NewDebate: each requires the phase whose screen renders its button.
- Flashcards.FlashcardsPage.HandleDelete, Flashcards.FlashcardsPage.FetchCards: the cursor invariant is promised only when called outside study mode. The delete button exists only in the list view, and the fetch runs once on mount.
- The rest of the client (routing, authentication context, other pages, PDF export, layout): it has no local logic of this kind.

## Findings

| source | as written | input that shows it | evidently intended | confidence | as-written member | corrected member |
|---|---|---|---|---|---|---|
| src/pages/Flashcards.jsx:152 | "Study Now" enters study mode without resetting `currentCardIndex`, which "Exit Study" (line 95) leaves as it was | deck `[a, b]`: Study Now, flip, rate `a` (cursor 1), Exit Study, delete `b`, Study Now. The study view renders a one-card deck with cursor 1, so `cards[1]` at line 87 is undefined and reading `.word` at line 105 throws | entering study mode starts at the first card, so the rendered card always exists | not executed | Flashcards.StaleIndexScenario | Flashcards.FlashcardsPage.StudyNow |
| src/pages/Debate.jsx:96 | `endDebate` calls `window.speechSynthesis.cancel()` outside its `try`, while `speak` (line 109) checks that speech synthesis exists | a browser without `window.speechSynthesis`: start a debate and press End Debate. `cancel()` throws before the request, so the page never reaches the analysis and `loading` stays true | the call is guarded like `speak`'s, so ending a debate works without speech synthesis | not executed | Debate.SpeechlessEndScenario | Debate.DebatePage.EndDebate |
