/**
 * The persistence store of the reading tracker: the library of books with
 * their reading sessions, the library file it is loaded from and saved to,
 * and the four load -> edit -> save operations over it.
 *
 * The file system is abstracted to one value (`LibraryFile`); whether each
 * file-system step succeeds is a parameter (`Outcome`) of the operation that
 * performs it.
 */
module Storage {

  datatype Option<T> = None | Some(value: T)

  /** A wall-clock timestamp, as an integer (the source's `DateTime<Local>`). */
  type Timestamp = int

  /** One finished reading session; created once and never changed. */
  datatype ReadingSession = ReadingSession(
    bookTitle: string,
    startPage: nat,
    endPage: nat,
    durationSecs: nat,
    timestamp: Timestamp)

  /** The durable record of one book. */
  datatype BookProgress = BookProgress(
    bookTitle: string,
    totalPages: nat,
    currentPage: nat,
    sessions: seq<ReadingSession>)

  /** All books; a book is identified by its position. */
  datatype Library = Library(books: seq<BookProgress>)

  const EMPTY_LIBRARY := Library([])

  /** Whether one file-system step (creating the data directory, reading or writing the file) succeeds. */
  datatype Outcome = Succeeds | Fails

  /** The `std::io::Result` an operation returns; the error's content is not modelled. */
  datatype IoResult<T> = Ok(value: T) | Err

  /**
   * The library file: absent, or present with text that decodes to a
   * library (`Some`) or fails to parse (`None`).
   */
  datatype LibraryFile = Absent | Present(decoded: Option<Library>)

  /** The library that a successful `load_library` yields: an absent or unreadable file gives the empty library. */
  function Loaded(file: LibraryFile): Library
  {
    match file
    case Present(Some(library)) => library
    case _ => EMPTY_LIBRARY
  }

  lemma LoadFallsBackToEmpty(file: LibraryFile)
    requires file.Absent? || file.decoded.None?
    ensures Loaded(file).books == []
  {
  }

  /** Whether a load -> edit -> save operation returns `Ok`: the load succeeded and, if it wrote, so did the save. */
  predicate Succeeded(load: Outcome, writes: bool, save: Outcome)
  {
    load == Succeeds && (!writes || save == Succeeds)
  }

  /**
   * The file after a load -> edit -> save operation whose edit produced
   * `edited`: it is written only if the load succeeded, the operation
   * chose to write, and the write succeeded.
   */
  function Written(file: LibraryFile, load: Outcome, writes: bool, save: Outcome, edited: Library): (after: LibraryFile)
    ensures Loaded(after) == if load == Succeeds && writes && save == Succeeds then edited else Loaded(file)
    ensures !(load == Succeeds && writes && save == Succeeds) ==> after == file
  {
    if load == Succeeds && writes && save == Succeeds then Present(Some(edited)) else file
  }

  /**
   * Every book of `before` is still at its position in `after`, and its
   * session history has only grown at the end.
   */
  ghost predicate HistoryExtended(before: Library, after: Library)
  {
    && |before.books| <= |after.books|
    && forall j :: 0 <= j < |before.books| ==> before.books[j].sessions <= after.books[j].sessions
  }

  /** The edit of `add_book`: append a new book at page 0 with no sessions. */
  function AppendBook(library: Library, title: string, totalPages: nat): (r: Library)
    ensures |r.books| == |library.books| + 1
    ensures r.books[..|library.books|] == library.books
    ensures r.books[|library.books|] == BookProgress(title, totalPages, 0, [])
    ensures HistoryExtended(library, r)
  {
    Library(library.books + [BookProgress(title, totalPages, 0, [])])
  }

  /** The edit of `update_book`: replace the record at `index`, if there is one. */
  function ReplaceBook(library: Library, index: nat, progress: BookProgress): (r: Library)
    ensures |r.books| == |library.books|
    ensures index < |library.books| ==> r.books[index] == progress
    ensures forall j :: 0 <= j < |library.books| && j != index ==> r.books[j] == library.books[j]
    ensures index >= |library.books| ==> r == library
  {
    if index < |library.books| then Library(library.books[index := progress]) else library
  }

  /** The edit of `save_session`: move the book at `index` to the session's end page and append the session. */
  function RecordSession(library: Library, index: nat, session: ReadingSession): (r: Library)
    ensures |r.books| == |library.books|
    ensures index < |library.books| ==>
      var (was, now) := (library.books[index], r.books[index]);
      && now.currentPage == session.endPage
      && now.sessions == was.sessions + [session]
      && now.bookTitle == was.bookTitle
      && now.totalPages == was.totalPages
    ensures forall j :: 0 <= j < |library.books| && j != index ==> r.books[j] == library.books[j]
    ensures index >= |library.books| ==> r == library
    ensures HistoryExtended(library, r)
  {
    if index < |library.books| then
      var book := library.books[index];
      Library(library.books[index := book.(currentPage := session.endPage, sessions := book.sessions + [session])])
    else
      library
  }

  /** The edit of `save_current_page`: change only the current page of the book at `index`. */
  function SetCurrentPage(library: Library, index: nat, page: nat): (r: Library)
    ensures |r.books| == |library.books|
    ensures index < |library.books| ==>
      var (was, now) := (library.books[index], r.books[index]);
      && now.currentPage == page
      && now.sessions == was.sessions
      && now.bookTitle == was.bookTitle
      && now.totalPages == was.totalPages
    ensures forall j :: 0 <= j < |library.books| && j != index ==> r.books[j] == library.books[j]
    ensures index >= |library.books| ==> r == library
    ensures HistoryExtended(library, r)
  {
    if index < |library.books| then
      Library(library.books[index := library.books[index].(currentPage := page)])
    else
      library
  }

  /** `update_book` replaces a whole record, so only the other books keep their history. */
  lemma ReplaceBookKeepsOtherHistories(library: Library, index: nat, progress: BookProgress)
    ensures var r := ReplaceBook(library, index, progress);
      forall j :: 0 <= j < |library.books| && j != index ==> library.books[j].sessions <= r.books[j].sessions
  {
  }

  /** The sum of the sessions' durations, in seconds. */
  function TotalDuration(sessions: seq<ReadingSession>): (total: nat)
    ensures forall k :: 0 <= k < |sessions| ==> sessions[k].durationSecs <= total
  {
    if sessions == [] then 0 else sessions[0].durationSecs + TotalDuration(sessions[1..])
  }

  /** `get_statistics`: the total reading time in seconds and the number of sessions of a book. */
  function Statistics(progress: BookProgress): (r: (nat, nat))
    ensures r.1 == |progress.sessions|
    ensures r.1 == 0 ==> r.0 == 0
    ensures forall k :: 0 <= k < |progress.sessions| ==> progress.sessions[k].durationSecs <= r.0
  {
    (TotalDuration(progress.sessions), |progress.sessions|)
  }

  lemma {:induction false} TotalDurationAppend(sessions: seq<ReadingSession>, session: ReadingSession)
    ensures TotalDuration(sessions + [session]) == TotalDuration(sessions) + session.durationSecs
  {
    if sessions != [] {
      assert (sessions + [session])[1..] == sessions[1..] + [session];
      TotalDurationAppend(sessions[1..], session);
    }
  }

  /** Recording a session raises the book's statistics by exactly its duration and one session. */
  lemma StatisticsAfterRecordSession(library: Library, index: nat, session: ReadingSession)
    requires index < |library.books|
    ensures var (time, count) := Statistics(library.books[index]);
      Statistics(RecordSession(library, index, session).books[index]) == (time + session.durationSecs, count + 1)
  {
    TotalDurationAppend(library.books[index].sessions, session);
  }

  /** Moving the page of a book leaves every book's statistics as they were. */
  lemma StatisticsAfterSetCurrentPage(library: Library, index: nat, page: nat, j: nat)
    requires j < |library.books|
    ensures Statistics(SetCurrentPage(library, index, page).books[j]) == Statistics(library.books[j])
  {
  }

  /**
   * A file that fails to parse loads as the empty library, so the next
   * successful `add_book` replaces its whole content with the one new book.
   */
  lemma AddBookDiscardsUnreadableFile(title: string, totalPages: nat)
    ensures Written(Present(None), Succeeds, true, Succeeds, AppendBook(Loaded(Present(None)), title, totalPages))
         == Present(Some(Library([BookProgress(title, totalPages, 0, [])])))
  {
  }

  /** The file system holding the library file. */
  class Store {
    var file: LibraryFile

    constructor (file: LibraryFile)
      ensures this.file == file
    {
      this.file := file;
    }

    /** `load_library`: fails only if the file system does; an absent or unreadable file gives the empty library. */
    method LoadLibrary(load: Outcome) returns (r: IoResult<Library>)
      ensures load == Fails ==> r == Err
      ensures load == Succeeds ==> r == Ok(Loaded(file))
      ensures load == Succeeds && (file.Absent? || file.decoded.None?) ==> r == Ok(EMPTY_LIBRARY)
    {
      if load == Fails {
        return Err;
      }
      r := Ok(Loaded(file));
    }

    /** `save_library`: overwrite the file with the whole library. */
    method SaveLibrary(library: Library, save: Outcome) returns (r: IoResult<()>)
      modifies this
      ensures save == Succeeds ==> file == Present(Some(library)) && r == Ok(())
      ensures save == Fails ==> file == old(file) && r == Err
    {
      if save == Fails {
        return Err;
      }
      file := Present(Some(library));
      r := Ok(());
    }

    /** `add_book`: append a new book and return its index, the library's old length. */
    method AddBook(title: string, totalPages: nat, load: Outcome, save: Outcome) returns (r: IoResult<nat>)
      modifies this
      ensures var library := Loaded(old(file));
        && file == Written(old(file), load, true, save, AppendBook(library, title, totalPages))
        && r == if Succeeded(load, true, save) then Ok(|library.books|) else Err
      ensures r.Ok? ==> r.value < |Loaded(file).books| && Loaded(file).books[r.value] == BookProgress(title, totalPages, 0, [])
      ensures HistoryExtended(Loaded(old(file)), Loaded(file))
    {
      var loaded := LoadLibrary(load);
      if loaded.Err? {
        return Err;
      }
      var library := AppendBook(loaded.value, title, totalPages);
      var index := |library.books| - 1;
      var saved := SaveLibrary(library, save);
      if saved.Err? {
        return Err;
      }
      r := Ok(index);
    }

    /** `update_book`: replace the record at `index`; an index out of range writes nothing and still succeeds. */
    method UpdateBook(index: nat, progress: BookProgress, load: Outcome, save: Outcome) returns (r: IoResult<()>)
      modifies this
      ensures var library := Loaded(old(file));
        var writes := index < |library.books|;
        && file == Written(old(file), load, writes, save, ReplaceBook(library, index, progress))
        && r == if Succeeded(load, writes, save) then Ok(()) else Err
    {
      var loaded := LoadLibrary(load);
      if loaded.Err? {
        return Err;
      }
      var library := loaded.value;
      if index < |library.books| {
        library := ReplaceBook(library, index, progress);
        var saved := SaveLibrary(library, save);
        if saved.Err? {
          return Err;
        }
      }
      r := Ok(());
    }

    /** `save_session`: record a finished session for the book at `index`; an index out of range writes nothing and still succeeds. */
    method SaveSession(index: nat, session: ReadingSession, load: Outcome, save: Outcome) returns (r: IoResult<()>)
      modifies this
      ensures var library := Loaded(old(file));
        var writes := index < |library.books|;
        && file == Written(old(file), load, writes, save, RecordSession(library, index, session))
        && r == if Succeeded(load, writes, save) then Ok(()) else Err
      ensures HistoryExtended(Loaded(old(file)), Loaded(file))
    {
      var loaded := LoadLibrary(load);
      if loaded.Err? {
        return Err;
      }
      var library := loaded.value;
      if index < |library.books| {
        library := RecordSession(library, index, session);
        var saved := SaveLibrary(library, save);
        if saved.Err? {
          return Err;
        }
      }
      r := Ok(());
    }

    /** `save_current_page`: change only the current page of the book at `index`; an index out of range writes nothing and still succeeds. */
    method SaveCurrentPage(index: nat, page: nat, load: Outcome, save: Outcome) returns (r: IoResult<()>)
      modifies this
      ensures var library := Loaded(old(file));
        var writes := index < |library.books|;
        && file == Written(old(file), load, writes, save, SetCurrentPage(library, index, page))
        && r == if Succeeded(load, writes, save) then Ok(()) else Err
      ensures HistoryExtended(Loaded(old(file)), Loaded(file))
    {
      var loaded := LoadLibrary(load);
      if loaded.Err? {
        return Err;
      }
      var library := loaded.value;
      if index < |library.books| {
        library := SetCurrentPage(library, index, page);
        var saved := SaveLibrary(library, save);
        if saved.Err? {
          return Err;
        }
      }
      r := Ok(());
    }
  }
}
