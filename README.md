# Lettura (Dolce Voce Narrante): a verified model of its core

Lettura is an Italian storytelling web app. The user types or pastes a story
and presses "Leggi Storia", and a speech synthesizer reads it aloud at one of
three speeds. Stories can be saved to a per-user server table. A small
account system keeps a session in the browser's localStorage, and a local
user registry stands in when the remote endpoint cannot be reached. A
first-run tutorial walks through the controls.

This Dafny project models the parts of the app that carry logic, one module
per source file:

- `Playback` (`App.tsx`) models the playback controller as a class
  `StoryReader`. Its fields are the text, the generating and playing flags,
  the speed, the message, and the current audio source. The source is a
  `Source` object that is live until stopped.
  - `handleReadStory` is split at its `await` into `BeginReadStory` and
    `FinishReadStory`. The synthesis outcome is a parameter: a buffer,
    `null`, or a thrown error.
- `Auth` (`services/authService.ts`) models the session and the local user
  registry.
  - The service is a class over a localStorage map.
  - The local fallbacks of login and registration are methods proved against
    the pure `FindIndex` and `Taken`.
  - Unique usernames are a preserved invariant.
- `Stories` (`api/stories.ts`) models the saved-stories HTTP handler.
  - The pure `PlanFor` models request validation and status selection.
  - `StoryTable` is the table: a map from serial id to row. It has an id
    sequence and a clock for `created_at`, and `Insert`/`Update`/`Delete`
    methods.
  - `Handle` runs the plan against the table.
- `Tutorial` (`components/Tutorial.tsx`) models the eight fixed steps, the
  step state with next and skip, the progress dots, the button caption and
  the step counter.
- `AuthForm` (`components/AuthModal.tsx`) models the dialog: its mode and four
  fields, the submit logic, reset and mode toggle. The callbacks and alerts it
  issues are recorded.
- `ApiKeys` (`services/apiKeyService.ts`) models the user id's get-or-create
  and the key-shape predicate.
- `Text` holds JavaScript's `String.prototype.trim` with the full ECMAScript
  whitespace set, `startsWith`, and decimal rendering and parsing of naturals.
  `Wrappers` holds `Option` and `Result`.

Two behaviours of the code that the model keeps as they are:

- **Stale completion.** The completion handler has no generation guard. The
  `onended` of any source clears the playing state, even one that was
  already replaced (`Playback.StoryReader.SourceEnded`).
- **Null buffer.** A `null` buffer does not stop the playback already under
  way.

One consequence of the code that the model makes explicit: `Stories.ApplyPatch`
replaces a field with any value present in the PUT body, even an empty
string. So a story saved through POST with a non-empty title can later carry
an empty title.

## Model

| member | source | states |
|---|---|---|
| Text.Trim | App.tsx:37 | the result is a slice of the input with only whitespace before and after it, and it neither starts nor ends with ECMAScript whitespace |
| Text.BlankIffTrimEmpty | App.tsx:37 | `!text.trim()` holds exactly when every character of the text is whitespace (including the empty text) |
| Text.TrimIdempotent | components/AuthModal.tsx:20-22 | trimming a trimmed string changes nothing |
| Text.ParseDecimal | api/stories.ts:43-45 | the id parameter denotes a number exactly when it is a non-empty string of decimal digits |
| Text.DecimalRoundTrip | services/apiKeyService.ts:10 | the decimal rendering of the clock reading parses back to the same number |
| Playback.NoticeText | App.tsx:36-79 | the three messages of `handleReadStory` (blank text, no audio, failure), each a full sentence |
| Playback.NoticeTextsDistinct | App.tsx:36-79 | the three messages are pairwise different, so the user can tell the failures apart |
| Playback.PlaybackRate | App.tsx:57-58 | rate is 95/100 for slow, 1 for normal and 11/10 for fast; below 1 exactly for slow, above 1 exactly for fast |
| Playback.Source.Stop | App.tsx:25-30 | a stopped source is no longer live, and each stop is counted |
| Playback.StoryReader.constructor | App.tsx:6-13 | the controller starts with empty text, not generating, not playing, normal speed, no message and no source |
| Playback.StoryReader.StopShown | App.tsx:151-160 | the stop button replaces the read button exactly when the indicator says playing |
| Playback.StoryReader.ReadEnabled | App.tsx:158-171 | the read button is usable exactly when nothing plays, nothing is being generated and the text is not blank; it never shows together with the stop button |
| Playback.StoryReader.Status | App.tsx:151-153 | the indicator says playing exactly when playing, and generating exactly when generating and not playing |
| Playback.StoryReader.HandleStop | App.tsx:24-34 | with or without a current source, afterwards there is none and nothing plays; a source that was current has received exactly one stop; text, flags, speed and message are untouched |
| Playback.HandleStopIdempotent | App.tsx:24-34 | two stops in a row end exactly as one does: no source and not playing, the old source stopped once in all, text, generating flag, speed, message and sources unchanged |
| Playback.StoryReader.BeginReadStory | App.tsx:36-47 | blank text sets the "inserisci una storia" message, requests nothing and leaves generation and playback unchanged; otherwise the message is cleared, generation starts and the text with its speed is requested |
| Playback.StoryReader.FinishReadStory | App.tsx:47-78 | a buffer stops the previous source and installs exactly one fresh live source with that buffer at the requested speed's rate; `null` or a throw only sets its message and keeps the current playback; generating is false in every case |
| Playback.ReplacePlayback | App.tsx:49-69 | from any state, after two successful reads the second buffer's source is current and live, while the first buffer's source is no longer current, no longer live, and was stopped exactly once |
| Playback.StoryReader.SourceEnded | App.tsx:62-65 | the ended source is no longer live, the current reference is cleared and nothing plays, whichever source was current |
| Playback.StoryReader.ClearText | App.tsx:81-85 | text is empty, nothing plays, no source is current, no message; a previous source was stopped |
| Playback.StoryReader.SetText | App.tsx:105 | the text becomes the typed value |
| Playback.StoryReader.SetSpeed | App.tsx:135 | the speed becomes the chosen one |
| Auth.AuthService.CurrentUser | services/authService.ts:14-21 | a user is returned exactly when the user key holds a parsed user, and it is that user |
| Auth.AuthService.IsAuthenticated | services/authService.ts:38-40 | authenticated exactly when the user key holds a parsed user |
| Auth.AuthService.SetCurrentUser | services/authService.ts:24-29 | the user is stored and becomes the current user; the token is stored only when given and non-empty, otherwise the stored token is unchanged; the local registry is unchanged |
| Auth.AuthService.ClearCurrentUser | services/authService.ts:32-35 | the user and token keys are removed and nothing else; not authenticated afterwards |
| Auth.AuthService.Logout | services/authService.ts:128-130 | as clearing the current user |
| Auth.AuthService.LocalUsers | services/authService.ts:133-140 | the stored list when the key holds one, the empty list when it is missing, empty or not JSON |
| Auth.AuthService.SaveLocalUsers | services/authService.ts:142-148 | the list is stored under its key and read back unchanged |
| Auth.FindIndex | services/authService.ts:65-68 | the first user matching both username and password; none exactly when no user matches both |
| Auth.AuthService.LocalLogin | services/authService.ts:65-77 | with no match, fails and writes nothing; otherwise the first matching user, without its password, is returned and becomes the session user |
| Auth.AuthService.LocalRegister | services/authService.ts:103-124 | a taken username fails and writes nothing; otherwise exactly one user is appended at the end, the list is saved, the user without password becomes the session user; unique usernames are preserved |
| Auth.AppendKeepsUnique | services/authService.ts:105-119 | appending a user whose name is not taken keeps usernames unique |
| Auth.RegisterThenFind | services/authService.ts:110-119 | after appending a fresh user, searching for its credentials finds it at the appended position |
| Auth.RegisterThenLogin | services/authService.ts:65-123 | a successful local registration followed by a local login with the same credentials returns the same user |
| Stories.PlanFor | api/stories.ts:22-178 | OPTIONS gives 200 with no body; otherwise a missing or empty userId gives 400; POST without title or content gives 400; PUT or DELETE without id gives 400; other methods give 405; conversely a GET, POST, PUT or DELETE that passes these checks runs its operation, scoped to the request's userId, with the parsed id, and inserting the body's fields with an empty category as null; the 500 reply comes exactly from an unparsable body or a non-numeric id |
| Stories.ApplyPatch | api/stories.ts:112-121 | each field absent from the body keeps its value, each present one replaces it; owner and creation time never change |
| Stories.PatchIdempotent | api/stories.ts:115-117 | applying a patch twice equals applying it once; the empty patch changes nothing |
| Stories.ListOwned | api/stories.ts:61-65 | exactly the rows of the user below the bound, each with its stored contents, in strictly descending id order |
| Stories.ListNewestFirst | api/stories.ts:61-65 | when creation times grow with ids, the listing is in strictly descending creation time |
| Stories.StoryTable.Lookup | api/stories.ts:43-46 | a story is found exactly when the id exists and belongs to the user, and it is that row |
| Stories.StoryTable.ListFor | api/stories.ts:61-65 | exactly the caller's rows, newest `created_at` first |
| Stories.StoryTable.Insert | api/stories.ts:86-90 | exactly one new row under a fresh id, owned by the user, at the current time; other rows unchanged; table invariant kept |
| Stories.StoryTable.Update | api/stories.ts:112-121 | only the row matching both id and user is patched; with no match nothing changes and nothing is returned |
| Stories.StoryTable.Delete | api/stories.ts:147-151 | only the row matching both id and user is removed, and whether one was is reported; otherwise nothing changes |
| Stories.StoryTable.Handle | api/stories.ts:14-179 | early replies leave the table unchanged; GET by id gives 200 with the row or 404; GET lists the caller's rows with 200; POST inserts one row and gives 201; PUT patches and gives 200, or 404 without change; DELETE removes and gives 200, or 404 without change |
| Tutorial.ShowsArrow | components/Tutorial.tsx:98 | the tooltip has an arrow exactly on the steps between the welcome step and the closing step |
| Tutorial.DotsUpTo | components/Tutorial.tsx:114-123 | one dot per index, classified as active at the current step, done before it, pending after it |
| Tutorial.DotCounts | components/Tutorial.tsx:114-123 | the number of active, done and pending dots among the first n |
| Tutorial.ExactlyOneActiveDot | components/Tutorial.tsx:114-123 | at a valid step exactly one dot is active, `currentStep` are done and the rest pending |
| Tutorial.NextLabel | components/Tutorial.tsx:139 | the caption is "Inizia!" exactly on the last step and "Avanti" before it |
| Tutorial.StepCounter | components/Tutorial.tsx:145 | the counter shows `currentStep + 1` of 8, and the two are equal exactly when the caption is "Inizia!" |
| Tutorial.TutorialState.constructor | components/Tutorial.tsx:66 | the tutorial starts at the first step with no completions |
| Tutorial.TutorialState.CurrentStep | components/Tutorial.tsx:67 | the shown step is one of the eight steps |
| Tutorial.TutorialState.HandleNext | components/Tutorial.tsx:69-75 | before the last step advances by one without completing; on the last step completes once and stays; the step stays in range |
| Tutorial.TutorialState.HandleSkip | components/Tutorial.tsx:77-79 | completes once from any step without moving |
| AuthForm.AuthModal.constructor | components/AuthModal.tsx:11-15 | the dialog opens in login mode with the four fields empty |
| AuthForm.Submit | components/AuthModal.tsx:17-33 | login mode yields a login with the trimmed username and password; register mode yields a mismatch exactly when the trimmed passwords differ, else a registration with the trimmed username, password and email |
| AuthForm.SubmittedFieldsAreTrimmed | components/AuthModal.tsx:20-22 | whatever is submitted has no surrounding whitespace left |
| AuthForm.AuthModal.Edit | components/AuthModal.tsx:77-118 | the edited field takes the typed value and the other fields keep theirs |
| AuthForm.AuthModal.HandleSubmit | components/AuthModal.tsx:17-33 | a login or registration issues exactly that one callback; a mismatch issues no callback and one alert |
| AuthForm.AuthModal.ResetForm | components/AuthModal.tsx:35-40 | the four fields are empty |
| AuthForm.AuthModal.ToggleMode | components/AuthModal.tsx:42-45 | the mode flips and the four fields are empty |
| AuthForm.ToggleTwice | components/AuthModal.tsx:42-45 | toggling twice restores the mode, leaves the form empty, and issues nothing |
| ApiKeys.GeneratedUserId | services/apiKeyService.ts:10 | a minted id is non-empty and starts with `user_`, followed by the clock reading in decimal (it parses back to that reading), then `_` and the suffix |
| ApiKeys.ApiKeyService.GetUserId | services/apiKeyService.ts:7-14 | a stored non-empty id is returned and nothing is written; otherwise the minted id is stored under `lettura_user_id` and returned |
| ApiKeys.GetUserIdTwice | services/apiKeyService.ts:7-14 | two consecutive calls return the same id |
| ApiKeys.IsValidApiKey | services/apiKeyService.ts:80-83 | a valid key is not blank and starts with "AIza"; a key without that prefix is never valid |
| ApiKeys.ValidIffPrefix | services/apiKeyService.ts:80-83 | a key is valid exactly when it starts with "AIza"; empty or blank keys are never valid |

## Left out

- The Web Audio plumbing in `App.tsx` is not modelled: `initAudioContext`,
  the audio context, `createBufferSource`, `connect`, `start` and resuming a
  suspended context. These are browser APIs. A source is an object that is
  live until stopped or ended.
- Playback.StoryReader.FinishReadStory: the speech synthesis call
  (`generateStoryAudio` in `services/geminiService.ts`) is not part of this
  model. Its outcome is a parameter: a buffer, `null`, or a thrown error.
- Playback.StoryReader.BeginReadStory: React batches state updates and runs
  the `await` asynchronously. The model applies each update directly. It
  splits the handler into the part before the `await` and the continuation
  after it, and captures the speed at the click.
- Playback.PlaybackRate: JavaScript doubles are modelled as exact rationals.
- Playback.StoryReader.SourceEnded: no guard against a superseded source is
  asserted, because the code has none. The completion handler clears
  whatever is current.
- Auth: the `fetch` branches of `login` and `register` are network I/O and
  are not modelled. Only their local fallbacks are. The fallbacks also run
  when the server answers with an error, because that error is thrown inside
  the same `try`.
- Auth.AuthService.SaveLocalUsers: a storage failure (quota) is caught and
  only logged in the code. The model does not model that failure.
- Auth.AuthService.CurrentUser: JSON serialization is assumed to round-trip.
  An entry under the user key is either a user or text that is empty or not
  JSON. Other JSON there (`{}`, `42`) is not modelled. The code would return
  that value as the user and report the session as authenticated, while
  `null` would read as no user.
- Auth.AuthService.LocalUsers: an entry under the local-users key is either a
  list of users or text that is empty or not JSON. JSON that is not an array
  (`null`, `{}`) is not modelled. The code would return it as it is.
- Auth.AuthService.LocalRegister: with a non-array value under the
  local-users key, the code's `some` throws a TypeError and registration
  fails. That case lies outside the entries the model admits. The same holds
  for Auth.AuthService.LocalLogin and its `find`.
- Auth.AuthService.LocalRegister: `Date.now()` and `new Date().toISOString()`
  are parameters.
- ApiKeys.ApiKeyService.GetUserId: the clock reading and the random base-36
  suffix of a minted id are parameters.
- ApiKeys: `getApiKey`, `saveApiKey` and `deleteApiKey` are network I/O
  wrappers and are not modelled.
- Stories.PlanFor: an `id` is a number only when it is a non-empty string of
  decimal digits, and anything else becomes the handler's 500 reply. The
  database's cast also accepts surrounding whitespace and a sign, and rejects
  values beyond its integer range; the model captures neither.
- Stories.PlanFor: an unparsable JSON body is a 500. The contents of the 500
  reply's `details` are not modelled.
- Stories.StoryTable.Handle: other database failures (connection, driver) are
  not modelled, and neither are the CORS headers.
- Stories.StoryTable.Update: `updated_at` is not modelled. The real
  timestamps are not modelled either: `created_at` is a counter that grows
  with every insert.
- Tutorial: the steps' titles and descriptions are not modelled; they are
  display text. So is the tooltip placement (`getTooltipPosition`) and all
  markup.
- AuthForm: `preventDefault` and the browser's `required` and `minLength`
  form checks are not modelled. Neither are the parent's handling of the
  callbacks and the `alert` text.
- `services/storyService.ts`, `components/LibraryPanel.tsx`,
  `components/SaveDialog.tsx`, `env.d.ts` and `vite.config.ts` are not part
  of this model. They are network wrappers, markup, and type or build
  configuration.
- The app has no microphone recording, transcription, scroll sync or
  progress clock, so there is nothing of them to model.
