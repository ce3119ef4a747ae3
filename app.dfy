/**
 * The reading screen's state: a session timer (stopped, running or paused),
 * the page cursor of the open book, and the in-memory reading totals.
 *
 * The monotonic clock is a parameter `now`, in nanoseconds (the resolution
 * of the source's `Duration`); each persistence call's file-system outcomes
 * are parameters too.
 */
module App {
  import opened Storage

  datatype TimerState = Stopped | Running | Paused

  const NANOS_PER_SECOND: nat := 1_000_000_000

  /** The source's 32-bit signed page delta. */
  newtype i32 = x: int | -0x8000_0000 <= x < 0x8000_0000

  /** `Instant::elapsed` for an instant taken at `anchor`: the time since then, saturating at zero. */
  function Since(anchor: nat, now: nat): (d: nat)
    ensures anchor <= now ==> anchor + d == now
    ensures now < anchor ==> d == 0
  {
    if anchor <= now then now - anchor else 0
  }

  /** The distance between two pages. */
  function Distance(a: int, b: int): nat
  {
    if a <= b then b - a else a - b
  }

  /** `page.clamp(0, totalPages)`: the page in `[0, totalPages]` nearest to `page`. */
  function ClampPage(page: int, totalPages: nat): (r: nat)
    ensures r <= totalPages
    ensures 0 <= page <= totalPages ==> r == page
    ensures forall q: int :: 0 <= q <= totalPages ==> Distance(r, page) <= Distance(q, page)
  {
    if page < 0 then 0 else if page > totalPages then totalPages else page
  }

  class AppState {
    var timerState: TimerState
    var startTime: Option<nat>
    var elapsedBeforePause: nat
    var currentPage: nat
    var totalPages: nat
    var bookTitle: string
    var sessionStartPage: nat
    var totalTimeSecs: nat
    var totalSessions: nat
    var bookIndex: nat

    /** The running anchor is present exactly while the timer runs. */
    ghost predicate Valid()
      reads this
    {
      startTime.Some? <==> timerState == Running
    }

    ghost predicate PageInRange()
      reads this
    {
      currentPage <= totalPages
    }

    /** The in-memory totals are the statistics of this book's record in the stored library. */
    ghost predicate Synced(store: Store)
      reads this`bookIndex, this`totalTimeSecs, this`totalSessions, store`file
    {
      var library := Loaded(store.file);
      bookIndex < |library.books| && Statistics(library.books[bookIndex]) == (totalTimeSecs, totalSessions)
    }

    /** `AppState::new`: open a book with the timer stopped and the totals taken from its history. */
    constructor (bookIndex: nat, progress: BookProgress)
      ensures Valid()
      ensures timerState == Stopped && startTime == None && elapsedBeforePause == 0
      ensures currentPage == progress.currentPage && sessionStartPage == progress.currentPage
      ensures totalPages == progress.totalPages && bookTitle == progress.bookTitle
      ensures this.bookIndex == bookIndex
      ensures (totalTimeSecs, totalSessions) == Statistics(progress)
    {
      var (time, count) := Statistics(progress);
      timerState := Stopped;
      startTime := None;
      elapsedBeforePause := 0;
      currentPage := progress.currentPage;
      totalPages := progress.totalPages;
      bookTitle := progress.bookTitle;
      sessionStartPage := progress.currentPage;
      totalTimeSecs := time;
      totalSessions := count;
      this.bookIndex := bookIndex;
    }

    /** `elapsed`: the accumulated time plus, while running, the time since the anchor (none if it is absent). */
    function Elapsed(now: nat): (d: nat)
      reads this
      ensures elapsedBeforePause <= d
      ensures timerState != Running ==> d == elapsedBeforePause
      ensures timerState == Running && startTime.Some? ==> d == elapsedBeforePause + Since(startTime.value, now)
      ensures timerState == Running && startTime.None? ==> d == elapsedBeforePause
    {
      match timerState
      case Running =>
        elapsedBeforePause + (match startTime case Some(s) => Since(s, now) case None => 0)
      case _ =>
        elapsedBeforePause
    }

    /** `start`: from stopped or paused, run from `now` and count pages from the current one; no change while running. */
    method Start(now: nat)
      requires Valid()
      modifies this`timerState, this`startTime, this`sessionStartPage
      ensures Valid() && timerState == Running
      ensures old(timerState) == Running ==> startTime == old(startTime) && sessionStartPage == old(sessionStartPage)
      ensures old(timerState) != Running ==> startTime == Some(now) && sessionStartPage == currentPage
      ensures old(timerState) != Running ==> Elapsed(now) == old(Elapsed(now)) == elapsedBeforePause
      ensures old(timerState) != Running ==> PagesReadThisSession() == 0
    {
      if timerState != Running {
        timerState := Running;
        startTime := Some(now);
        sessionStartPage := currentPage;
      }
    }

    /** `pause`: fold the running interval into the accumulated time; no change unless running. */
    method Pause(now: nat)
      requires Valid()
      modifies this`timerState, this`startTime, this`elapsedBeforePause
      ensures Valid()
      ensures old(timerState) == Running ==> timerState == Paused && startTime == None
      ensures old(timerState) != Running ==> timerState == old(timerState) && startTime == old(startTime) && elapsedBeforePause == old(elapsedBeforePause)
      ensures Elapsed(now) == old(Elapsed(now))
      ensures old(timerState) == Running ==> elapsedBeforePause == old(Elapsed(now))
    {
      if timerState == Running {
        elapsedBeforePause := elapsedBeforePause + Since(startTime.value, now);
        startTime := None;
        timerState := Paused;
      }
    }

    /**
     * `stop`: end the session. With time accumulated, commit a session record
     * (its duration truncated to whole seconds) and, if that commit reports
     * success, add it to the totals; with none, commit only the current page.
     * Whatever the outcome, the timer ends stopped and empty.
     */
    method Stop(now: nat, timestamp: Timestamp, store: Store, load: Outcome, save: Outcome)
      requires Valid()
      modifies this, store
      ensures Valid()
      ensures timerState == Stopped && startTime == None && elapsedBeforePause == 0
      ensures sessionStartPage == currentPage
      ensures currentPage == old(currentPage) && totalPages == old(totalPages)
      ensures bookTitle == old(bookTitle) && bookIndex == old(bookIndex)
      ensures Committed(old(store.file), store.file, old(Elapsed(now)), old(sessionStartPage), timestamp, load, save,
                        old(totalTimeSecs), old(totalSessions))
      ensures old(Synced(store)) ==> Synced(store)
    {
      if timerState == Running {
        Pause(now);
      }
      Commit(timestamp, store, load, save);
      timerState := Stopped;
      startTime := None;
      elapsedBeforePause := 0;
      sessionStartPage := currentPage;
    }

    /**
     * What `stop` commits once `accumulated` time has been folded in. With
     * time, it records a session running from `startPage` to the current
     * page for the whole seconds of `accumulated`, and adds it to the totals
     * only if the commit reports success. With none, it records the current
     * page only and leaves the totals as they were.
     */
    ghost predicate Committed(before: LibraryFile, after: LibraryFile, accumulated: nat, startPage: nat,
                              timestamp: Timestamp, load: Outcome, save: Outcome, time: nat, count: nat)
      reads this`bookTitle, this`currentPage, this`bookIndex, this`totalTimeSecs, this`totalSessions
    {
      var library := Loaded(before);
      var writes := bookIndex < |library.books|;
      var secs := accumulated / NANOS_PER_SECOND;
      var session := ReadingSession(bookTitle, startPage, currentPage, secs, timestamp);
      if accumulated != 0 then
        && after == Written(before, load, writes, save, RecordSession(library, bookIndex, session))
        && (totalTimeSecs, totalSessions) == if Succeeded(load, writes, save) then (time + secs, count + 1) else (time, count)
      else
        && after == Written(before, load, writes, save, SetCurrentPage(library, bookIndex, currentPage))
        && totalTimeSecs == time && totalSessions == count
    }

    /** The commit half of `stop`, run once the timer no longer runs. */
    method Commit(timestamp: Timestamp, store: Store, load: Outcome, save: Outcome)
      modifies this`totalTimeSecs, this`totalSessions, store
      ensures Committed(old(store.file), store.file, elapsedBeforePause, sessionStartPage, timestamp, load, save,
                        old(totalTimeSecs), old(totalSessions))
      ensures old(Synced(store)) ==> Synced(store)
    {
      ghost var library := Loaded(store.file);
      if elapsedBeforePause != 0 {
        var session := ReadingSession(bookTitle, sessionStartPage, currentPage, elapsedBeforePause / NANOS_PER_SECOND, timestamp);
        var saved := store.SaveSession(bookIndex, session, load, save);
        if saved.Ok? {
          totalTimeSecs := totalTimeSecs + elapsedBeforePause / NANOS_PER_SECOND;
          totalSessions := totalSessions + 1;
        }
        if bookIndex < |library.books| {
          StatisticsAfterRecordSession(library, bookIndex, session);
        }
      } else {
        var _ := store.SaveCurrentPage(bookIndex, currentPage, load, save);
        if bookIndex < |library.books| {
          StatisticsAfterSetCurrentPage(library, bookIndex, currentPage, bookIndex);
        }
      }
    }

    /** `save_page`: commit the current page only. */
    method SavePage(store: Store, load: Outcome, save: Outcome)
      modifies store
      ensures var library := Loaded(old(store.file));
        var writes := bookIndex < |library.books|;
        store.file == Written(old(store.file), load, writes, save, SetCurrentPage(library, bookIndex, currentPage))
      ensures old(Synced(store)) ==> Synced(store)
    {
      ghost var library := Loaded(store.file);
      var _ := store.SaveCurrentPage(bookIndex, currentPage, load, save);
      if bookIndex < |library.books| {
        StatisticsAfterSetCurrentPage(library, bookIndex, currentPage, bookIndex);
      }
    }

    /** `load_book`: switch to another book; the timer is reset whatever its state was. */
    method LoadBook(bookIndex: nat, progress: BookProgress)
      modifies this
      ensures Valid()
      ensures timerState == Stopped && startTime == None && elapsedBeforePause == 0
      ensures currentPage == progress.currentPage && sessionStartPage == progress.currentPage
      ensures totalPages == progress.totalPages && bookTitle == progress.bookTitle
      ensures this.bookIndex == bookIndex
      ensures (totalTimeSecs, totalSessions) == Statistics(progress)
    {
      var (time, count) := Statistics(progress);
      this.bookIndex := bookIndex;
      bookTitle := progress.bookTitle;
      totalPages := progress.totalPages;
      currentPage := progress.currentPage;
      sessionStartPage := progress.currentPage;
      totalTimeSecs := time;
      totalSessions := count;
      timerState := Stopped;
      startTime := None;
      elapsedBeforePause := 0;
    }

    /** `increment_page`: one page forward, stopping at the last page. */
    method IncrementPage()
      modifies this`currentPage
      ensures currentPage == if old(currentPage) < totalPages then old(currentPage) + 1 else old(currentPage)
      ensures old(PageInRange()) ==> PageInRange()
    {
      if currentPage < totalPages {
        currentPage := currentPage + 1;
      }
    }

    /** `decrement_page`: one page back, stopping at page 0. */
    method DecrementPage()
      modifies this`currentPage
      ensures currentPage == if old(currentPage) > 0 then old(currentPage) - 1 else 0
      ensures old(PageInRange()) ==> PageInRange()
    {
      if currentPage > 0 {
        currentPage := currentPage - 1;
      }
    }

    /** `add_pages`: move by a signed delta, clamped into `[0, totalPages]`. */
    method AddPages(delta: i32)
      modifies this`currentPage
      ensures currentPage == ClampPage(old(currentPage) + delta as int, totalPages)
      ensures PageInRange()
    {
      currentPage := ClampPage(currentPage + delta as int, totalPages);
    }

    /** `progress`: the fraction of the book read, capped at 1; 0 for a book without pages. */
    function Progress(): (p: real)
      reads this
      ensures 0.0 <= p <= 1.0
      ensures totalPages == 0 ==> p == 0.0
      ensures 0 < totalPages <= currentPage ==> p == 1.0
      ensures currentPage < totalPages ==> p * totalPages as real == currentPage as real
    {
      if totalPages == 0 then 0.0
      else if currentPage >= totalPages then 1.0
      else currentPage as real / totalPages as real
    }

    /** `pages_read_this_session`: the signed page movement since the session began. */
    function PagesReadThisSession(): (d: int)
      reads this
      ensures sessionStartPage + d == currentPage
      ensures d < 0 <==> currentPage < sessionStartPage
    {
      currentPage - sessionStartPage
    }
  }

  /** Within an open session the elapsed time never decreases as the clock advances. */
  lemma ElapsedMonotone(app: AppState, earlier: nat, later: nat)
    requires earlier <= later
    ensures app.Elapsed(earlier) <= app.Elapsed(later)
  {
  }
}
