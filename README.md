# Book garden: session timer, page cursor and library store

A Dafny model of the sequential core of a terminal reading tracker:

- **Storage**: the library of books and their reading sessions, and the library file. Also the four load → edit → save operations (`add_book`, `update_book`, `save_session`, `save_current_page`) and `get_statistics`. The file system is one value, `LibraryFile`: absent, or present with text that decodes (`Some(library)`) or fails to parse (`None`). Whether each file-system step succeeds is passed in as an `Outcome`. The pure edits (`AppendBook`, `ReplaceBook`, `RecordSession`, `SetCurrentPage`) state their frame conditions. `AppendBook`, `RecordSession` and `SetCurrentPage` also state that session histories only grow at the end; `ReplaceBook` replaces a whole record, so it keeps only the other books' histories. The lemmas state the statistics bookkeeping.
- **App**: the reading screen's `AppState`, a class with the source's fields. It holds the three-state timer (`Stopped` / `Running` / `Paused`), the elapsed-before-pause accumulator, the optional running anchor, the clamped page cursor and the in-memory totals. The monotonic clock is a parameter `now`, in nanoseconds, the resolution of `Duration`. `Stop` makes the `save_session` / `save_current_page` calls on the `Store` and states what is committed and how the totals change for every outcome. It also keeps the design invariant `Synced`: the in-memory totals equal the statistics of the stored record.
- **BookSelect**: the selection cursor, `BookSelector`, with its cyclic `select_next` / `select_prev`. These are specified by `NextIndex` / `PrevIndex`, which are proved to undo each other.
- **Scenario**: client scenarios, checked by the verifier against the contracts above alone. One adds a book to an empty store and opens it. One reads 90 seconds to page 20, stops and reopens the book. One folds two running intervals. One stops after half a second.

Behaviours of the code that the model keeps as written:

- `stop` tests the whole `Duration` for zero but records `as_secs()`. So a session shorter than one second is committed with `duration_secs = 0` and still counts as a session. The guard itself skips only sessions with no time spent at all, but the record claims 0 seconds, which is the zero-duration history entry the design means to avoid. `Scenario.HalfSecondSession` shows this case.
- `stop` adds to the totals whenever `save_session` returns `Ok`. That includes a book index out of range, where nothing is written.
- `start` from `Paused` resets `session_start_page` to the current page, as the code does.

## Model

| member | source | states |
|---|---|---|
| Storage.LoadFallsBackToEmpty | src/storage.rs:41-54 | an absent file, or one that fails to parse, loads as the empty library |
| Storage.Written | src/storage.rs:57-62 | after a load → edit → save the file loads as the edit if load, the decision to write and the write all succeeded; otherwise the file is untouched |
| Storage.AppendBook | src/storage.rs:65-78 | one more book, at page 0 with no sessions, placed after all earlier books, which are unchanged; histories only grow |
| Storage.ReplaceBook | src/storage.rs:81-90 | exactly the record at the index is replaced and every other record is kept; an index out of range changes nothing |
| Storage.RecordSession | src/storage.rs:93-103 | only the indexed book changes: it moves to the session's end page, the session is appended to the end of its history, and title and page count are kept; other books are unchanged; an index out of range changes nothing; histories only grow |
| Storage.SetCurrentPage | src/storage.rs:106-115 | only the indexed book's page changes, with its title, page count and sessions kept; other books are unchanged; an index out of range changes nothing |
| Storage.ReplaceBookKeepsOtherHistories | src/storage.rs:84-86 | `update_book` keeps the history of every book except the replaced one |
| Storage.TotalDuration | src/storage.rs:119 | the summed time is at least each session's duration |
| Storage.Statistics | src/storage.rs:118-123 | the session count is the history's length, the time is 0 without sessions and bounds each duration |
| Storage.TotalDurationAppend | src/storage.rs:119 | appending a session raises the summed time by exactly its duration |
| Storage.StatisticsAfterRecordSession | src/storage.rs:97-98 | after a session is recorded, the book's statistics grow by exactly (its duration, 1) |
| Storage.StatisticsAfterSetCurrentPage | src/storage.rs:110 | a page commit leaves every book's statistics unchanged |
| Storage.AddBookDiscardsUnreadableFile | src/storage.rs:49 | after a successful `add_book` over a file that fails to parse, the file holds only the new book |
| Storage.Store.LoadLibrary | src/storage.rs:41-54 | fails only when the file system fails; otherwise yields the decoded library or, for an absent or unreadable file, the empty one |
| Storage.Store.SaveLibrary | src/storage.rs:57-62 | a successful save overwrites the file with the whole library; a failed one reports an error and leaves it |
| Storage.Store.AddBook | src/storage.rs:65-78 | returns the old length as the new book's index, where the new empty book now is; the file changes only when both steps succeed; histories only grow |
| Storage.Store.UpdateBook | src/storage.rs:81-90 | writes the replacement only for a valid index; reports success when the load succeeded and any write succeeded, including the no-op on an out-of-range index |
| Storage.Store.SaveSession | src/storage.rs:93-103 | writes the recorded session only for a valid index; reports success under the same rule as `update_book`; histories only grow |
| Storage.Store.SaveCurrentPage | src/storage.rs:106-115 | writes the page only for a valid index; reports success under the same rule as `update_book`; histories only grow |
| App.Since | src/app.rs:62 | the time from an anchor to now, zero if now is earlier (saturating `Instant::elapsed`) |
| App.ClampPage | src/app.rs:139 | the result is in `[0, totalPages]`, equals an in-range page, and is the in-range page nearest to the requested one |
| App.AppState.constructor | src/app.rs:26-41 | a new state is stopped with nothing accumulated; its page and session start are the book's page; its totals are the book's statistics |
| App.AppState.Elapsed | src/app.rs:43-50 | never less than the accumulated time; equal to it unless running; while running it adds the saturating time since the anchor, or nothing when there is no anchor |
| App.ElapsedMonotone | src/app.rs:43-50 | elapsed time never decreases as the clock advances |
| App.AppState.Start | src/app.rs:52-58 | from stopped or paused: running, anchored at now, session start is the current page, no time added; while running: nothing changes |
| App.AppState.Pause | src/app.rs:60-66 | from running: paused with no anchor and the running interval folded in; elapsed time is the same just before and just after; otherwise nothing changes |
| App.AppState.Stop | src/app.rs:68-101 | always ends stopped, without anchor, with zero accumulated and the session start at the current page; with time accumulated it commits a session of (session start, current page, truncated seconds) and adds it to the totals only on a reported success; without time it commits only the page and keeps the totals; in-memory totals stay in step with the stored statistics |
| App.AppState.Commit | src/app.rs:73-95 | the commit half of `stop`: a session record with the truncated seconds when time accumulated, the page otherwise; totals grow only on a reported success; in-memory totals stay in step with the stored statistics |
| App.AppState.SavePage | src/app.rs:103-107 | commits the current page only, and keeps the totals in step with the stored statistics |
| App.AppState.LoadBook | src/app.rs:109-124 | whatever the prior state, the timer is stopped with nothing accumulated; page and session start come from the new book, totals are its statistics |
| App.AppState.IncrementPage | src/app.rs:126-130 | one page forward unless at the last page; keeps `currentPage <= totalPages` |
| App.AppState.DecrementPage | src/app.rs:132-136 | one page back unless at page 0; keeps `currentPage <= totalPages` |
| App.AppState.AddPages | src/app.rs:138-141 | the page becomes the clamp of page + delta into `[0, totalPages]`, so it is always in range |
| App.AppState.Progress | src/app.rs:143-149 | in `[0, 1]`; 0 for a book without pages; 1 at or past the last page; otherwise exactly page / total |
| App.AppState.PagesReadThisSession | src/app.rs:151-153 | the signed movement from the session's first page, negative exactly when the reader went back |
| BookSelect.NextIndex | src/book_select.rs:34-39 | unchanged on an empty library; otherwise always in range, and from an in-range index one step down with the last wrapping to the first |
| BookSelect.PrevIndex | src/book_select.rs:41-50 | unchanged on an empty library; from an in-range index it stays in range; the first wraps to the last, others go one step up |
| BookSelect.NextUndoesPrev | src/book_select.rs:34-50 | on a non-empty library, moving up then down returns to the same book |
| BookSelect.PrevUndoesNext | src/book_select.rs:34-50 | on a non-empty library, moving down then up returns to the same book |
| BookSelect.BookSelector.constructor | src/book_select.rs:25-32 | starts on the first book in selection mode with empty title and page buffers |
| BookSelect.BookSelector.SelectNext | src/book_select.rs:34-39 | the index becomes `NextIndex` of the old one |
| BookSelect.BookSelector.SelectPrev | src/book_select.rs:41-50 | the index becomes `PrevIndex` of the old one |
| Scenario.AddAndOpen | src/main.rs:49-89 | adding a book to an empty store, reloading the library and opening the book at the returned index gives a stopped timer at page 0 with zero totals, in step with the stored statistics, and the file holds just that book |
| Scenario.ReadNinetySeconds | src/main.rs:113-145 | add a 200-page book, run 90 s, move to page 20 by two Up presses (each `add_pages(10)` then `save_page`), leave the book while running (`stop`, then `load_library`): the file holds one session (0 → 20, 90 s) at page 20, and reopening shows 1 session and 90 s, in step with the stored statistics |
| Scenario.SaveThenLoad | src/storage.rs:41-62 | a successful `save_library` followed by a successful `load_library` returns the saved library (serialization taken as exact) |
| Scenario.TwoIntervals | src/app.rs:52-66 | after start/pause/start/pause the elapsed time is the sum of the two running intervals |
| Scenario.HalfSecondSession | src/app.rs:74-79 | half a second of reading commits a session record of 0 seconds |

## Left out

- I/O: the data directory, reading and writing the file and their `io::Error`s are reduced to one `Outcome` per load and per save; the error's content and its `eprintln!` report in `stop` / `save_page` are not modelled.
- Storage.Store.SaveLibrary: a failed write is taken to leave the file as it was; a partially written file is not modelled.
- JSON (de)serialization with `serde_json` is a foreign library: the file holds the decoded library, and a save followed by a load is taken to be exact.
- Concurrent modification of the file between the load and save of one operation (the lost-update hazard) is not modelled; the store is one object owned by the caller.
- The clock: `Instant::now` is the parameter `now`; `chrono::Local::now` is an opaque `Timestamp` parameter.
- App.AppState.AddPages: the `as i32` casts are mathematical integers (the delta itself is an `i32`); page counts beyond `i32::MAX` would wrap or panic in the source: `total_pages as i32` can turn negative, and `clamp(0, negative)` panics; `current_page as i32 + delta` can overflow, which panics in debug builds.
- App.AppState.PagesReadThisSession: computed in mathematical integers; the source's `as i32` casts wrap beyond `i32::MAX`.
- App.AppState.Progress: the source computes in `f64`; the model uses exact reals.
- Overflow of `u64` / `usize` arithmetic (totals, the sum in `get_statistics`, `Duration` addition, `selected_index + 1`) is not modelled; integers are unbounded.
- `init_storage` is modelled only as part of a load or save outcome.
- `draw_book_select`, `src/ui.rs` (rendering) and `src/plant.rs` (floating-point drawing) are not part of this model.
- `src/main.rs` (event loop, key dispatch, input modes while entering a new book) is not part of this model; the scenarios call the modelled operations in the order its key handlers do (`add_book` then `load_library` before opening a book; `add_pages` then `save_page` for each Up press; `stop` then `load_library` when leaving a running book).
