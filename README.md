# Mood-analysis hook of the journal app

The journal app lets a signed-in user write an entry and have its text scored
against six emotions (happiness, sadness, anger, fear, surprise, disgust). The
`useMoodAnalysis` hook is the client side of that scoring. It does three things:

- `analyzeText` checks the text and the user, calls the mood-analysis service, and
  keeps two state cells, `isAnalyzing` and `error`, up to date around the call.
- `getDominantEmotion` picks the highest-scoring entry of a mood.
- `getEmotionColor` maps an emotion name to a display colour.

This project models those three behaviours and proves what they promise.

- `js_text.dfy` (module `JsText`) models JavaScript's `String.prototype.trim`. Its
  whitespace set is WhiteSpace plus LineTerminator from sections 12.2 and 12.3 of
  ECMA-262. As in the TrimString operation of ECMA-262, it scans in from each end
  for the first character that is not whitespace.
- `emotions.dfy` (module `Emotions`) holds the dominant-emotion fold and the colour
  lookup. There are two forms of the lookup: the one written in the source and the
  intended one (see "## Findings").
- `mood_analysis.dfy` (module `MoodAnalysis`) models `analyzeText`:
  - `Analyze` is a specification function over a value of the hook's state.
    The lemma `AnalyzeContract` states what it promises.
  - `MoodAnalysisHook` is a class whose fields are the two state cells plus a log of
    the toast messages shown.
  - Its method `AnalyzeText` updates those fields step by step, just as the source does.
  - The method is proved to end in the state, and return the value, that `Analyze`
    describes.
- `wrappers.dfy` (module `Wrappers`) holds `Option`, which stands for `null`/`undefined`.

Inputs that the source gets from elsewhere are parameters here:

- The current user's id is an `Option<string>`. The source takes it from `useCurrentUser`.
- How the awaited `moodAnalysisService.analyzeMood` call ends is a `ServiceOutcome`.
  Either it resolves to a `{ success, data, error }` record, or it throws (an `Error`
  with a message, or some other value).

## Model

| member | source | states |
|---|---|---|
| `JsText.SkipLeading` | app/journal/_hooks/useMoodAnalysis.ts:15 | the forward scan of `trim` stops at the first non-whitespace character or at the end, and everything it skips is whitespace |
| `JsText.SkipTrailing` | app/journal/_hooks/useMoodAnalysis.ts:15 | the backward scan of `trim` stops just after the last non-whitespace character (not below the start), and everything it skips is whitespace |
| `JsText.Trim` | app/journal/_hooks/useMoodAnalysis.ts:15 | `text.trim()` is the slice of the text between a whitespace-only prefix and a whitespace-only suffix; it neither starts nor ends with whitespace; `!text.trim()` holds exactly when every character is whitespace |
| `MoodAnalysis.RequestFor` | app/journal/_hooks/useMoodAnalysis.ts:15-37 | the service is called exactly when the text has a non-whitespace character and the user id is present and non-empty; the call carries that text and id |
| `MoodAnalysis.GuardNotice` | app/journal/_hooks/useMoodAnalysis.ts:15-31 | a guard rejects exactly when no request is made; the text check comes first (whitespace-only text gives the "enter some text" notice even with no user); non-blank text with no user gives the "must be logged in" notice |
| `MoodAnalysis.ThrownBy` | app/journal/_hooks/useMoodAnalysis.ts:36-41 | the `try` block throws exactly when the service does not report success with data; a rejected call throws what the service threw; the `Error` thrown for a failed result has `result.error` as its message, or the default text when that is absent or empty, so the message is never empty |
| `MoodAnalysis.CaughtMessage` | app/journal/_hooks/useMoodAnalysis.ts:44-46 | the `catch` block takes an `Error`'s message and uses "Failed to analyze mood" for any other thrown value |
| `MoodAnalysis.FailureMessage` | app/journal/_hooks/useMoodAnalysis.ts:36-53 | no failure exactly when the service reports success with data; a reported failure yields `result.error`, or "Failed to analyze mood" when that is absent or empty; a thrown `Error` yields its own message; any other thrown value yields the default text |
| `MoodAnalysis.Analyze` | app/journal/_hooks/useMoodAnalysis.ts:12-57 | one call's awaited state, final state, request and returned value; the request is the one the guards allow; its promises are `MoodAnalysis.AnalyzeContract` |
| `MoodAnalysis.AnalyzeContract` | app/journal/_hooks/useMoodAnalysis.ts:12-57 | a rejected call returns null, makes no request, keeps `isAnalyzing` and `error`, and only adds its notice; on an accepted call `isAnalyzing` is true and `error` is null while the service is awaited, and `isAnalyzing` is false afterwards; success returns exactly the service's data with `error` still null; failure returns null and records and shows the failure message |
| `MoodAnalysis.MoodAnalysisHook.constructor` | app/journal/_hooks/useMoodAnalysis.ts:8-9 | the hook starts not analyzing, with no error |
| `MoodAnalysis.MoodAnalysisHook.AnalyzeText` | app/journal/_hooks/useMoodAnalysis.ts:12-57 | the step-by-step update of the state cells (guards, set analyzing, clear error, throw/catch, `finally` reset) ends in exactly the state, value, request and awaited-state that `Analyze` gives |
| `Emotions.Keep` | app/journal/_hooks/useMoodAnalysis.ts:75 | the reducer keeps the entry with the larger score, and on equal scores keeps the later entry `b` |
| `Emotions.Dominant` | app/journal/_hooks/useMoodAnalysis.ts:71-80 | the `reduce` over a non-empty mood returns one of its entries, and that entry's score is at least every entry's score |
| `Emotions.LastMaximumIndex` | app/journal/_hooks/useMoodAnalysis.ts:75 | reference tie-breaking rule: gives the last position whose score is maximal (every score is at most its score; every later score is strictly smaller) |
| `Emotions.DominantIsLastMaximum` | app/journal/_hooks/useMoodAnalysis.ts:74-79 | ties go to the later entry: if position k holds the last maximal score, the fold returns the entry at k |
| `Emotions.DominantAgreesWithReference` | app/journal/_hooks/useMoodAnalysis.ts:74-79 | the fold equals the entry at the reference last-maximum position, for every non-empty mood |
| `Emotions.EmotionColor` | app/journal/_hooks/useMoodAnalysis.ts:59-69 | the listed hex code for each of the six emotions, `#6B7280` for every other string, always a `#RRGGBB` code |
| `Emotions.PaletteLookup` | app/journal/_hooks/useMoodAnalysis.ts:60-68 | `colors[key]` gives the palette's own colour for the six names; for any other name it gives no string, and a truthy value exactly for the names inherited from Object.prototype |
| `Emotions.EmotionColorAsWritten` | app/journal/_hooks/useMoodAnalysis.ts:59-69 | the lookup as written gives a string exactly when the name is not inherited from Object.prototype, and that string is the intended colour |
| `Emotions.AsWrittenToStringIsNotAColor` | app/journal/_hooks/useMoodAnalysis.ts:68 | for the name "toString" the lookup as written gives a function, where the intended result is grey |

## Left out

- Toast display: `Toast.show` is a UI side effect. The model keeps only each toast's
  message text, in the `notices` log. The toast type and title are not modelled.
- React `useState`: state updates are asynchronous and callbacks can capture stale
  state. Both are out of scope. The two cells are plain fields, updated in
  program order.
- `MoodAnalysis.MoodAnalysisHook.AnalyzeText`, `MoodAnalysis.AnalyzeContract`: each call is modelled as one
  uninterrupted step; no second call overlaps it at the `await` of the service. The
  source has no re-entry guard, so two overlapping calls can interleave. If call A
  fails while call B is still waiting, A's `finally` sets `isAnalyzing` to false during
  B's wait. B's later success does not clear A's error either, because B's
  `setError(null)` ran before A failed. So "analyzing while awaited" and "success
  leaves the error null" are promised for one call at a time only.
- `moodAnalysisService.analyzeMood`: its source is not part of this model. Its
  outcome is an input to the call, and the model does not say what it computes.
- `useCurrentUser`: the session fetch and the auth subscription are not modelled.
  The user id is an input of `analyzeText`.
- The shape of `MoodAnalysisResult`: its type file is not part of this model. The
  model keeps only its `mood`, as a sequence of `(emotion, score)` entries. The
  order of that sequence is the order of `Object.entries`, which for these
  non-numeric keys is insertion order.
- `Emotions.Dominant`: it requires a non-empty mood. With no entries, `reduce` with no
  initial value throws a `TypeError`. That case is excluded rather than modelled.
- Emotion scores are JavaScript numbers, but the code only compares them, so they are
  modelled as reals. As a result NaN, for which `>` is always false, is not modelled.
- `lib/supabase.ts`, `components/Header.tsx`, `components/PrimaryButton.tsx`,
  `app/_layout.tsx`, `app/index.tsx` and the screens are client set-up, presentation
  and routing, and are not modelled.

## Findings

| source | as written | input that shows it | evidently intended | confidence | as-written member | corrected member |
|---|---|---|---|---|---|---|
| app/journal/_hooks/useMoodAnalysis.ts:60-68 | `colors[emotion] \|\| "#6B7280"` reads a property of an object literal, so names inherited from Object.prototype (`toString`, `constructor`, `__proto__`, …) are found and are truthy | `getEmotionColor("toString")` returns the function `Object.prototype.toString`, not a colour string | grey (`#6B7280`) for every name other than the six emotions, as the `string` return type says | not executed; follows from ECMA-262 property lookup | `Emotions.EmotionColorAsWritten`, `Emotions.AsWrittenToStringIsNotAColor` | `Emotions.EmotionColor` |
