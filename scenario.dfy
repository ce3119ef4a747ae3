/**
 * Client scenarios of the reading tracker, checked by the verifier against
 * the contracts of the modelled operations alone: what a reader sees after a
 * few key presses.
 */
module Scenario {
  import opened Storage
  import opened App

  /**
   * Add a book to an empty store, reload the library, select the new book by
   * the index `add_book` returned and open it, as the book-selection screen does.
   */
  method AddAndOpen(title: string, totalPages: nat) returns (store: Store, app: AppState)
    ensures Loaded(store.file) == Library([BookProgress(title, totalPages, 0, [])])
    ensures app.Valid() && app.timerState == Stopped && app.elapsedBeforePause == 0
    ensures app.currentPage == 0 && app.totalPages == totalPages && app.bookTitle == title && app.bookIndex == 0
    ensures app.totalTimeSecs == 0 && app.totalSessions == 0
    ensures app.Synced(store)
    ensures fresh(store) && fresh(app)
  {
    store := new Store(Absent);
    var added := store.AddBook(title, totalPages, Succeeds, Succeeds);
    assert added == Ok(0);
    var loaded := store.LoadLibrary(Succeeds);
    var library := loaded.value;
    assert library == Library([BookProgress(title, totalPages, 0, [])]);
    var index := added.value;
    app := new AppState(index, library.books[index]);
  }

  /**
   * Add a 200-page book to an empty store, read for 90 seconds while moving
   * to page 20 with two Up presses, go back to the book list while the timer
   * runs (which stops it and reloads the library), and reopen the book.
   */
  method ReadNinetySeconds(title: string, t0: nat, timestamp: Timestamp) returns (store: Store, reopened: AppState)
    ensures Loaded(store.file) == Library([BookProgress(title, 200, 20, [ReadingSession(title, 0, 20, 90, timestamp)])])
    ensures reopened.currentPage == 20 && reopened.timerState == Stopped
    ensures reopened.totalTimeSecs == 90 && reopened.totalSessions == 1
    ensures reopened.Synced(store)
  {
    var app;
    store, app := AddAndOpen(title, 200);
    app.Start(t0);
    app.AddPages(10);
    app.SavePage(store, Succeeds, Succeeds);
    app.AddPages(10);
    app.SavePage(store, Succeeds, Succeeds);
    assert app.currentPage == 20 && app.sessionStartPage == 0;
    assert app.Elapsed(t0 + 90 * NANOS_PER_SECOND) == 90 * NANOS_PER_SECOND;
    ghost var before := Loaded(store.file);
    app.Stop(t0 + 90 * NANOS_PER_SECOND, timestamp, store, Succeeds, Succeeds);
    var session := ReadingSession(title, 0, 20, 90, timestamp);
    assert store.file == Present(Some(RecordSession(before, 0, session)));
    assert RecordSession(before, 0, session).books[0] == BookProgress(title, 200, 20, [session]);
    assert |RecordSession(before, 0, session).books| == 1;
    assert RecordSession(before, 0, session).books == [BookProgress(title, 200, 20, [session])];
    assert app.totalTimeSecs == 90 && app.totalSessions == 1;
    assert app.Synced(store);
    var loaded := store.LoadLibrary(Succeeds);
    reopened := new AppState(0, loaded.value.books[0]);
  }

  /** A successful save followed by a successful load gives back the saved library. */
  method SaveThenLoad(store: Store, library: Library) returns (r: IoResult<Library>)
    modifies store
    ensures r == Ok(library)
  {
    var _ := store.SaveLibrary(library, Succeeds);
    r := store.LoadLibrary(Succeeds);
  }

  /** Two running intervals, separated by a pause, add up in the elapsed time. */
  method TwoIntervals(app: AppState, t0: nat, t1: nat, t2: nat, t3: nat)
    requires app.Valid() && app.timerState == Stopped
    requires t0 <= t1 <= t2 <= t3
    modifies app
    ensures app.timerState == Paused
    ensures app.Elapsed(t3) == old(app.elapsedBeforePause) + (t1 - t0) + (t3 - t2)
  {
    app.Start(t0);
    app.Pause(t1);
    app.Start(t2);
    app.Pause(t3);
  }

  /**
   * Half a second of reading is not "no time": stopping commits a session
   * record, and the truncation to whole seconds makes its duration 0.
   */
  method HalfSecondSession(title: string, t0: nat, timestamp: Timestamp) returns (store: Store)
    ensures Loaded(store.file) == Library([BookProgress(title, 100, 0, [ReadingSession(title, 0, 0, 0, timestamp)])])
  {
    store := new Store(Present(Some(Library([BookProgress(title, 100, 0, [])]))));
    var app := new AppState(0, BookProgress(title, 100, 0, []));
    app.Start(t0);
    ghost var before := Loaded(store.file);
    assert before.books == [BookProgress(title, 100, 0, [])];
    assert app.Elapsed(t0 + NANOS_PER_SECOND / 2) == NANOS_PER_SECOND / 2;
    app.Stop(t0 + NANOS_PER_SECOND / 2, timestamp, store, Succeeds, Succeeds);
    var session := ReadingSession(title, 0, 0, 0, timestamp);
    assert store.file == Present(Some(RecordSession(before, 0, session)));
    assert RecordSession(before, 0, session).books[0] == BookProgress(title, 100, 0, [session]);
    assert |RecordSession(before, 0, session).books| == 1;
    assert RecordSession(before, 0, session).books == [BookProgress(title, 100, 0, [session])];
    assert app.totalSessions == 1 && app.totalTimeSecs == 0;
  }
}
