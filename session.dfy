/**
 * The voice session's resumption handle: the backend keeps the last handle
 * the live-audio API gave it, with the time it was saved, in a small JSON
 * file, and reuses it only within a timeout.
 *
 * The file is modelled by what reading it yields. Times are microseconds;
 * `datetime.isoformat()` and `datetime.fromisoformat()` are the parameters
 * `formatIso` and `parseIso` (the latter `None` where Python raises).
 */
module Sessions {
  import opened Common

  /** `SESSION_TIMEOUT_SECONDS` of the backend settings. */
  const SessionTimeoutSeconds: nat := 60

  /** What opening and decoding the session file gives. */
  datatype SessionFile =
    | Missing                                                  // FileNotFoundError
    | Unreadable                                               // any other error while reading or decoding
    | Stored(handle: Option<string>, sessionTime: Option<string>)  // the decoded object's two keys

  /** The object `save_previous_session_handle` writes. */
  function SavedFile(handle: string, sessionTime: string): SessionFile {
    Stored(Some(handle), Some(sessionTime))
  }

  /** The empty object `clear_session` writes. */
  const ClearedFile: SessionFile := Stored(None, None)

  function Seconds(s: int): int {
    s * 1_000_000
  }

  /**
   * `load_previous_session_handle`: the stored handle when the file holds a
   * non-empty handle and a non-empty, parseable time less than the timeout
   * before `now`; otherwise `None`.
   */
  function LoadHandle(file: SessionFile, now: int, timeoutSeconds: int, parseIso: string -> Option<int>): (r: Option<string>)
    ensures r.Some? ==> file.Stored? && file.handle == r && r.value != ""
  {
    match file
    case Missing => None
    case Unreadable => None
    case Stored(handle, sessionTime) =>
      if Truthy(handle) && Truthy(sessionTime) then
        match parseIso(sessionTime.value)
        case None => None
        case Some(saved) => if now - saved < Seconds(timeoutSeconds) then handle else None
      else None
  }

  /**
   * A handle loads exactly when the file holds it together with a parseable
   * time less than the timeout old; a missing or unreadable file, an absent or
   * empty handle or time, or an expired time all give `None`.
   */
  lemma LoadHandleSpec(file: SessionFile, now: int, timeoutSeconds: int, parseIso: string -> Option<int>)
    ensures LoadHandle(file, now, timeoutSeconds, parseIso).Some? <==>
            file.Stored? && Truthy(file.handle) && Truthy(file.sessionTime) &&
            parseIso(file.sessionTime.value).Some? &&
            now - parseIso(file.sessionTime.value).value < Seconds(timeoutSeconds)
    ensures file.Missing? || file.Unreadable? ==> LoadHandle(file, now, timeoutSeconds, parseIso) == None
  {
  }

  /**
   * Saving a non-empty handle and loading it again before the timeout gives
   * the handle back; loading it at or after the timeout gives `None`.
   */
  lemma SaveLoadRoundTrip(handle: string, saved: int, now: int, timeoutSeconds: int,
                          formatIso: int -> string, parseIso: string -> Option<int>)
    requires handle != ""
    requires formatIso(saved) != "" && parseIso(formatIso(saved)) == Some(saved)
    ensures now - saved < Seconds(timeoutSeconds) ==>
              LoadHandle(SavedFile(handle, formatIso(saved)), now, timeoutSeconds, parseIso) == Some(handle)
    ensures now - saved >= Seconds(timeoutSeconds) ==>
              LoadHandle(SavedFile(handle, formatIso(saved)), now, timeoutSeconds, parseIso) == None
  {
  }

  /** An empty handle is saved but never loaded. */
  lemma EmptyHandleNeverLoads(sessionTime: string, now: int, timeoutSeconds: int, parseIso: string -> Option<int>)
    ensures LoadHandle(SavedFile("", sessionTime), now, timeoutSeconds, parseIso) == None
  {
  }

  /** A cleared file loads nothing. */
  lemma ClearedLoadsNothing(now: int, timeoutSeconds: int, parseIso: string -> Option<int>)
    ensures LoadHandle(ClearedFile, now, timeoutSeconds, parseIso) == None
  {
  }

  /** The session-file state of one backend process. */
  class SessionService {
    var file: SessionFile
    const timeoutSeconds: int

    constructor (file: SessionFile)
      ensures this.file == file && timeoutSeconds == SessionTimeoutSeconds
    {
      this.file := file;
      timeoutSeconds := SessionTimeoutSeconds;
    }

    /** `load_previous_session_handle` at time `now`. */
    method LoadPreviousSessionHandle(now: int, parseIso: string -> Option<int>) returns (handle: Option<string>)
      ensures handle == LoadHandle(file, now, timeoutSeconds, parseIso)
    {
      handle := LoadHandle(file, now, timeoutSeconds, parseIso);
    }

    /** `save_previous_session_handle`: the file is overwritten with the handle and the time of saving. */
    method SavePreviousSessionHandle(handle: string, now: int, formatIso: int -> string)
      modifies this
      ensures file == SavedFile(handle, formatIso(now))
    {
      file := SavedFile(handle, formatIso(now));
    }

    /** `clear_session`: the file is overwritten with an empty object. */
    method ClearSession()
      modifies this
      ensures file == ClearedFile
    {
      file := ClearedFile;
    }
  }

  /**
   * Whatever the file held, after saving a handle only that handle can be
   * loaded, and it is loaded while the timeout has not passed; after clearing,
   * nothing is.
   */
  method SaveClearScenario(s: SessionService, h1: string, h2: string, t1: int, t2: int, now: int,
                           formatIso: int -> string, parseIso: string -> Option<int>)
    returns (afterSaves: Option<string>, afterClear: Option<string>)
    requires h2 != "" && formatIso(t2) != "" && parseIso(formatIso(t2)) == Some(t2)
    requires now - t2 < Seconds(SessionTimeoutSeconds)
    requires s.timeoutSeconds == SessionTimeoutSeconds
    modifies s
    ensures afterSaves == Some(h2)
    ensures afterClear == None
  {
    s.SavePreviousSessionHandle(h1, t1, formatIso);
    s.SavePreviousSessionHandle(h2, t2, formatIso);
    afterSaves := s.LoadPreviousSessionHandle(now, parseIso);
    SaveLoadRoundTrip(h2, t2, now, s.timeoutSeconds, formatIso, parseIso);
    s.ClearSession();
    afterClear := s.LoadPreviousSessionHandle(now, parseIso);
  }
}
