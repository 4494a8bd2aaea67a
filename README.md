# little-story backend, modelled in Dafny

The backend of a visual-novel app serves story content, keeps a hearts resource
that regenerates over time, and persists per-story player progress. This project
models its core, `backend/main.py`, in three parts:

- **Hearts** (`hearts.dfy`). The player profile `hearts / max_hearts /
  last_regen_time` is lazily regenerated on every read: one heart per 14400 s,
  capped at the maximum, with the clock advanced by whole periods only. Starting
  an episode debits a heart, and the clock restarts only on a debit made from
  full. The wait until the next heart is derived from the same fields.
- **Progress** (`progress.dfy`). The store maps a story id to a flat key/value
  state. Saving is a shallow merge into one story's entry (Python's
  `dict.update`).
- **Stories and sessions** (`stories.dfy`, `backend.dfy`). A story is found by
  scanning the content directory for a manifest with the id (first match wins).
  An episode file is found in `seasons[].episodes[]` order (first match wins).
  Starting an episode debits and saves the heart first, then looks up the story
  and the episode, and returns the episode document. That document's
  `initial_state` is the template overlaid with the saved progress.

`backend.dfy` holds the class `Server`:

- `userFile` and `progressFile` stand for `user.json` and `progress.json`. Each
  is `None` while its file does not exist.
- `stories` is the listing of the content directory.
- The ghost counter `profileWrites` records writes to `user.json`. This lets the
  contracts say when a read re-saves the profile.

Each handler is a method proved against the pure functions of the other modules.
Errors are values of `Outcomes.Error`:

- `NoHearts` is the HTTP 400 error.
- `StoryNotFound`, `EpisodeNotFound` and `NotFound` are the HTTP 404 errors.
- `ServerError` is an exception the handler does not catch.

Time is an integer number of seconds, passed in as `now`. Python's float `//`
and `%` by the positive constant 14400 agree with Dafny's integer `/` and `%`,
negative elapsed times included.

In these cases the code behaves differently from what the API's intended
behaviour suggests, and the model follows the code:

- A read re-saves `user.json` only when it adds a heart, not on every read.
- The "No hearts" failure of a start can come after a read that already
  re-saved a regenerated profile, but only for a stored profile with negative
  hearts (`Hearts.ReadThenNoHearts`), which no write of the backend produces.
- The story search raises an uncaught error on the first manifest that does not
  parse. It does not skip that manifest. Only the library listing skips it.
- An episode whose first matching entry names an empty file is reported as
  "Episode not found" (`if not ep_file`).

## Model

| member | source | states |
|---|---|---|
| `Hearts.Regenerate` | backend/main.py:32-37 | A read keeps `max_hearts` and never lowers the hearts. It keeps hearts within the maximum. It changes the profile exactly when hearts are below the maximum and at least one period has elapsed; otherwise the profile is unchanged. |
| `Hearts.RegenerateCredits` | backend/main.py:32-37 | Below the maximum with the clock not in the future, the hearts become `min(max, hearts + elapsed / 14400)`. The time left on the clock is `elapsed % 14400`, so it is always under one period. |
| `Hearts.RegenerateIdempotent` | backend/main.py:32-38 | A second read at the same instant changes nothing. |
| `Hearts.RegeneratePathIndependent` | backend/main.py:33-37 | Reading at t1 and then at t2 gives the same hearts as a single read at t2. Below the maximum it gives the same whole profile, so the leftover part of a period is never lost. |
| `Hearts.Debit` | backend/main.py:123-125 | Fails with `NoHearts` exactly when hearts <= 0. Otherwise hearts drop by exactly one and `max_hearts` is kept. The clock is set to `now` on a debit from full and kept on a debit from below full. A bounded profile stays bounded and ends below its maximum. |
| `Hearts.NextHeartIn` | backend/main.py:93-95 | The wait is never negative. It is 0 at the maximum and at most one period when the clock is not in the future. Below the maximum it ends exactly one period after `last_regen_time`, or is 0 once that moment has passed. |
| `Hearts.NextHeartInDecreases` | backend/main.py:93-95 | Below the maximum and within one period, the wait strictly shrinks as time advances, and a read adds no heart. |
| `Hearts.WaitAfterRead` | backend/main.py:92-95 | Just after a read that leaves hearts below the maximum, the reported wait is in (0, 14400]. |
| `Hearts.ReadThenNoHearts` | backend/main.py:32-38 | A read that adds a heart is followed by a "No hearts" failure only if the stored hearts were negative. |
| `Hearts.ClockRunsAfterStart` | backend/main.py:122-125 | After a read and a successful debit of a bounded profile, hearts are below the maximum and less than one period has elapsed on the clock. |
| `Progress.Overlay` | backend/main.py:62 | `dict.update` gives the keys of both maps. A key of the update takes the update's value; every other key keeps the base value. |
| `Progress.OverlayUnique` | backend/main.py:62 | That pointwise description fixes the merged map uniquely. |
| `Progress.OverlayTwice` | backend/main.py:62 | Two updates in a row equal one update with the merged update (later values win). |
| `Progress.StateOf` | backend/main.py:51 | `.get(story_id, {})`: the story's saved state, or the empty state for a story never saved. |
| `Progress.Saved` | backend/main.py:53-63 | Saving gives the story's entry the old keys plus the new keys. Every new key holds its new value and every other old key keeps its old value. Every other story's entry is unchanged. A story with no entry starts from empty. |
| `Progress.SavedTwice` | backend/main.py:60-63 | Two saves for one story equal one save of the merged state. |
| `Progress.SavedIdempotent` | backend/main.py:60-63 | Saving the same state twice equals saving it once. |
| `Progress.SavedCommutes` | backend/main.py:60-63 | Saves for two different stories can be done in either order. |
| `Stories.FindFrom` | backend/main.py:69-75 | The search returns the first folder whose manifest has the id. Every entry before it is skipped (not a folder, or no manifest) or names another story. A manifest that does not parse stops the search. Nothing is found only when every entry passes. |
| `Stories.FindFirstMatch` | backend/main.py:69-75 | Conversely, a matching folder that all earlier entries pass is the one found. |
| `Stories.FindAbsent` | backend/main.py:69-75 | The search finds nothing if and only if every entry passes. |
| `Stories.EpisodeFile` | backend/main.py:135 | The `next(...)` over seasons then episodes: no file if and only if no episode in any season has the id; a file found is the file of some episode with the id. |
| `Stories.EpisodeFileFirst` | backend/main.py:135 | The file found is that of the first episode with the id, in season-then-episode order. |
| `Stories.Library` | backend/main.py:98-110 | The library has at most one entry per directory entry. |
| `Stories.LibraryMembers` | backend/main.py:102-109 | A summary is in the library if and only if some folder with a manifest that parses has that summary; folders whose manifest fails to parse are skipped. |
| `Backend.Template` | backend/main.py:143 | `ep_data.get("initial_state", {})`: the empty state when the key is missing, the object's fields when it is an object, and no template (so a server error) otherwise. |
| `Backend.WithProgress` | backend/main.py:141-149 | The response keeps every other key of the episode document. Its `initial_state` is the template (an empty object when missing) overlaid with the saved progress, so progress wins on a key clash. A non-object `initial_state` is an error. |
| `Backend.EpisodeResponse` | backend/main.py:128-151 | "Story not found" exactly when the search finds nothing. An unreadable manifest is a server error. "Episode not found" exactly when the story is found but no usable episode file is named. A server error otherwise comes only from an unreadable manifest, a missing episode file or a non-object `initial_state`: the request succeeds exactly when the story is found, a non-empty episode file is named, that file is present and its `initial_state` is an object or missing. On success, the response is `WithProgress` of the episode document the manifest names, so every saved progress key appears in `initial_state` with its saved value. |
| `Backend.Server.constructor` | backend/main.py:19-20 | A fresh installation has neither user.json nor progress.json. |
| `Backend.Server.SaveUserProfile` | backend/main.py:41-43 | Writing user.json replaces the profile and leaves the progress file alone. |
| `Backend.Server.GetUserProfile` | backend/main.py:25-39 | Returns and stores the regenerated profile of the file, or of the defaults 3/3/0 when the file is missing. The file is written once more for creation and once more only if a heart was added. The progress file is untouched, boundedness is kept, and below the maximum less than one period is left on the clock. |
| `Backend.Server.GetStoryProgress` | backend/main.py:46-51 | Returns the story's saved state, or empty when there is none or no file. |
| `Backend.Server.SaveStoryProgress` | backend/main.py:53-66 | The progress file becomes the merge-save of the old store (empty when the file is missing). The profile is untouched. |
| `Backend.Server.FindStoryPath` | backend/main.py:69-75 | The loop with early return computes exactly the first-match search. |
| `Backend.Server.DebugResetHearts` | backend/main.py:79-88 | The profile becomes 3/3/0 and the progress file is removed, so every story reads as having no progress. user.json is written exactly once. |
| `Backend.Server.GetUser` | backend/main.py:90-96 | Reports the regenerated profile and its wait. With the clock not in the future, the wait lies in [0, 14400] and is positive exactly when hearts are below the maximum. |
| `Backend.Server.GetLibrary` | backend/main.py:98-110 | The loop builds exactly the library of the content directory; its members are the summaries of the parsed manifests. |
| `Backend.Server.GetManifest` | backend/main.py:112-116 | `NotFound` exactly when no story has the id. On success it returns that story's manifest. An unreadable manifest is a server error. |
| `Backend.Server.StartEpisode` | backend/main.py:119-151 | Progress is never changed. With no heart after the read, it fails with `NoHearts` and only the regenerated profile is stored. Otherwise the debited profile is stored before any lookup, and the response is `EpisodeResponse`. So a "not found" answer has already cost exactly one heart. user.json is written by the read (as in `GetUserProfile`) and once more exactly when the debit succeeds. |
| `Scenarios.RegenerationCapsAtMaximum` | backend/main.py:34-36 | 1 heart of 3, nine hours after the clock started, becomes 3. |
| `Scenarios.RegenerationKeepsLeftover` | backend/main.py:34-37 | 0 hearts of 3 after nine hours becomes 2, with one hour left on the clock. |
| `Scenarios.SavesMerge` | backend/main.py:60-63 | Saving `{a:1}` then `{b:2}` gives `{a:1, b:2}`; then saving `{a:5}` gives `{a:5, b:2}`. |
| `Scenarios.ProgressOverridesTemplate` | backend/main.py:143-149 | Template `{x:1, y:2}` with saved `{y:9}` gives an `initial_state` of `{x:1, y:9}`. |
| `Scenarios.TwoStartsAfterReset` | backend/main.py:122-126 | After a reset, a start at t=100 stores 2/3 with the clock at 100. A second start at t=200 stores 1/3 and leaves the clock at 100. |

## Left out

- `backend/bot.py` (the messaging-bot greeting) and `frontend/vite.config.js` (dev-server proxy) hold no backend logic.
- FastAPI routing, `HTTPException` as transport, and the CORS middleware (backend/main.py:7-15) are left out; errors are `Result` values.
- JSON parsing and file I/O are left out. Files are fields and values, manifests are typed records, and episode documents are JSON objects. The `{"status": ...}` answers are not modelled.
- `sync_progress` (backend/main.py:154-157) is `Server.SaveStoryProgress` followed by a constant answer.
- Errors that depend on malformed JSON are left out: a manifest or profile that is not an object, an episode entry without `id` or `file`, a progress entry that is not an object.
- `user.get("last_regen_time", 0)` is left out: the modelled profile always has the field, because every profile the backend writes has it.
- A missing stories directory is left out (`os.listdir` raises in the story search; the library checks for it). The directory listing order is a given sequence.
- `Backend.Server.StartEpisode` and `Backend.Server.GetUser` take one `now` per request, where the source reads the clock separately for regeneration and for the debit or the wait. Clock reads are whole seconds, not floats.
- Concurrency is left out: handlers run one at a time, so the lost-update race between simultaneous requests is not modelled.
