/**
 * The dashboard's sync step `fetchLiveNDMA`: a guarded state transition over the `isFetching`
 * flag, the `loading` flag, the published alert list `updates` and the browser's offline
 * snapshot (`localStorage['ndma_xml_cache']`).
 *
 * The asynchronous function is split at the fetch hop: its two awaits, `fetch` and
 * `response.text()`, fold into one `HopOutcome`. `Begin` is the reentrancy guard up to the
 * request, `Finish` is the try/catch/finally run once the hop has an outcome. The class
 * `Dashboard` holds the fields and is proved against these two functions.
 */
module DashboardSync {
  import opened JsValues
  import opened CapParser

  /** The record published when the hop fails and there is no offline snapshot. */
  const SyncErrorRecord: AlertRecord :=
    AlertRecord("err", "SYNC ERR", "Scraper offline. Ensure 'node server.js' is running in your backend folder.", Some("alert"))

  /**
   * How the browser's `localStorage` behaves during one sync: it works, only `setItem` throws
   * (a full quota), or every access throws (site data blocked).
   */
  datatype Storage = Available | WriteThrows | Blocked

  /** The fetch hop to the backend: a response's status and text, or a throw from `fetch` or `text()`. */
  datatype HopOutcome = Delivered(status: int, text: string) | HopFailed

  /** The dashboard's sync-related state; `updates == None` is the list set to `null`. */
  datatype SyncState = SyncState(isFetching: bool, loading: bool, updates: Option<seq<AlertRecord>>, localCache: Option<string>)

  /**
   * The state when the dashboard mounts, with whatever snapshot an earlier session left: loading,
   * nothing published yet, and the first tick free to issue a hop.
   */
  function Initial(stored: Option<string>): (s: SyncState)
    ensures s.loading && s.updates == Some([]) && s.localCache == stored
    ensures Begin(s).0
  {
    SyncState(false, true, Some([]), stored)
  }

  /** The guard: a hop is issued only when none is in flight; either way one is in flight afterwards. */
  function Begin(s: SyncState): (r: (bool, SyncState))
    ensures r.0 <==> !s.isFetching
    ensures r.1.isFetching
    ensures r.1.(isFetching := s.isFetching) == s
  {
    (!s.isFetching, s.(isFetching := true))
  }

  /**
   * The catch branch: publish the parse of a truthy snapshot, or the single sync-error record.
   * When storage is blocked, `getItem` throws out of the catch and nothing is published.
   */
  function Recover(s: SyncState, storage: Storage, dom: string -> Option<Node>, fmt: string -> string): (t: SyncState)
    ensures t.localCache == s.localCache
    ensures storage.Blocked? ==> t.updates == s.updates
    ensures !storage.Blocked? && !Truthy(s.localCache) ==> t.updates == Some([SyncErrorRecord])
  {
    if storage.Blocked? then s
    else if Truthy(s.localCache) then s.(updates := ParseLiveCapData(s.localCache.value, dom, fmt))
    else s.(updates := Some([SyncErrorRecord]))
  }

  /**
   * The rest of a sync once the hop has an outcome; a snapshot write that throws lands in the
   * catch branch. Both flags are cleared at the end; the snapshot only ever changes to a
   * delivered markup body; the published list never becomes the empty list.
   */
  function Finish(s: SyncState, hop: HopOutcome, storage: Storage,
                  dom: string -> Option<Node>, fmt: string -> string): (t: SyncState)
    ensures !t.isFetching && !t.loading
    ensures t.localCache != s.localCache ==>
              hop.Delivered? && t.localCache == Some(hop.text) && LooksLikeMarkup(hop.text)
    ensures t.updates == s.updates || t.updates != Some([])
  {
    var next :=
      match hop
      case HopFailed => Recover(s, storage, dom, fmt)
      case Delivered(_, xmlString) =>
        if Truthy(Some(xmlString)) && LooksLikeMarkup(xmlString) then
          if !storage.Available? then Recover(s, storage, dom, fmt)
          else
            var liveUpdates := ParseLiveCapData(xmlString, dom, fmt);
            s.(localCache := Some(xmlString),
               updates := if liveUpdates.Some? && |liveUpdates.value| > 0 then liveUpdates else s.updates)
        else s;
    next.(loading := false, isFetching := false)
  }

  /** The offline snapshot, when present, looks like markup. */
  predicate SnapshotInvariant(s: SyncState)
  {
    s.localCache.Some? ==> LooksLikeMarkup(s.localCache.value)
  }

  class Dashboard {
    var isFetching: bool
    var loading: bool
    var updates: Option<seq<AlertRecord>>
    /** The browser's `ndma_xml_cache` entry. */
    var localCache: Option<string>

    function State(): SyncState
      reads this
    {
      SyncState(isFetching, loading, updates, localCache)
    }

    constructor (stored: Option<string>)
      ensures State() == Initial(stored)
    {
      isFetching, loading, updates, localCache := false, true, Some([]), stored;
    }

    /** Up to the fetch: returns whether the hop is issued. */
    method StartSync() returns (issued: bool)
      modifies this
      ensures (issued, State()) == Begin(old(State()))
    {
      if isFetching {
        return false;
      }
      isFetching := true;
      issued := true;
    }

    /** After the fetch: the try/catch/finally around the hop's outcome. */
    method CompleteSync(hop: HopOutcome, storage: Storage, dom: string -> Option<Node>, fmt: string -> string)
      modifies this
      ensures State() == Finish(old(State()), hop, storage, dom, fmt)
    {
      var threw := false;
      match hop {
        case HopFailed =>
          threw := true;
        case Delivered(_, xmlString) =>
          if xmlString != "" && LooksLikeMarkup(xmlString) {
            if !storage.Available? {
              threw := true;
            } else {
              localCache := Some(xmlString);
              var liveUpdates := ParseLiveCapData(xmlString, dom, fmt);
              if liveUpdates.Some? && |liveUpdates.value| > 0 {
                updates := liveUpdates;
              }
            }
          }
      }
      if threw && !storage.Blocked? {
        var cachedXml := localCache;
        if Truthy(cachedXml) {
          updates := ParseLiveCapData(cachedXml.value, dom, fmt);
        } else {
          updates := Some([SyncErrorRecord]);
        }
      }
      loading := false;
      isFetching := false;
    }

    /** A whole sync whose hop resolves before any other tick: nothing happens while one is in flight. */
    method FetchLiveNdma(hop: HopOutcome, storage: Storage, dom: string -> Option<Node>, fmt: string -> string)
      returns (fetched: bool)
      modifies this
      ensures fetched <==> !old(isFetching)
      ensures !fetched ==> State() == old(State())
      ensures fetched ==> State() == Finish(old(State()), hop, storage, dom, fmt)
    {
      fetched := StartSync();
      if fetched {
        CompleteSync(hop, storage, dom, fmt);
      }
    }
  }

  /** A tick that arrives while a hop is in flight issues nothing and changes nothing. */
  lemma TickWhileInFlightIsDropped(s: SyncState)
    requires s.isFetching
    ensures Begin(s) == (false, s)
  {
  }

  /**
   * Two ticks back to back issue one hop between them, and once the sync finishes the next
   * tick issues a hop again.
   */
  lemma BackToBackTicksFetchOnce(s: SyncState, hop: HopOutcome, storage: Storage,
                                   dom: string -> Option<Node>, fmt: string -> string)
    ensures !(Begin(s).0 && Begin(Begin(s).1).0)
    ensures Begin(Finish(Begin(s).1, hop, storage, dom, fmt)).0
  {
  }

  /**
   * A delivered body containing `<` overwrites the snapshot; the published list is replaced
   * exactly when the parse succeeds (a successful parse is never empty), and kept otherwise.
   */
  lemma DeliveredMarkupIsSnapshotted(s: SyncState, status: int, text: string,
                                     dom: string -> Option<Node>, fmt: string -> string)
    requires LooksLikeMarkup(text)
    ensures var t := Finish(s, Delivered(status, text), Available, dom, fmt);
            t.localCache == Some(text) &&
            t.updates == (if dom(text).Some? then ParseLiveCapData(text, dom, fmt) else s.updates)
  {
  }

  /** A delivered body without `<`, the empty text included, changes nothing but the two flags. */
  lemma DeliveredNonMarkupIsIgnored(s: SyncState, status: int, text: string, storage: Storage,
                                    dom: string -> Option<Node>, fmt: string -> string)
    requires !LooksLikeMarkup(text)
    ensures Finish(s, Delivered(status, text), storage, dom, fmt) == s.(isFetching := false, loading := false)
  {
  }

  /** A snapshot write that throws is handled exactly like a failed hop (with storage blocked too). */
  lemma StorageFailureIsHopFailure(s: SyncState, status: int, text: string, storage: Storage,
                                   dom: string -> Option<Node>, fmt: string -> string)
    requires LooksLikeMarkup(text) && !storage.Available?
    ensures Finish(s, Delivered(status, text), storage, dom, fmt) == Finish(s, HopFailed, storage, dom, fmt)
  {
  }

  /**
   * A failed hop leaves the snapshot alone and publishes the parse of a truthy snapshot (which may
   * be `null`), or else the single sync-error record; with storage blocked it publishes nothing.
   */
  lemma FailedHopFallsBack(s: SyncState, storage: Storage, dom: string -> Option<Node>, fmt: string -> string)
    ensures var t := Finish(s, HopFailed, storage, dom, fmt);
            t.localCache == s.localCache &&
            t.updates == if storage.Blocked? then s.updates
                         else if Truthy(s.localCache) then ParseLiveCapData(s.localCache.value, dom, fmt)
                         else Some([SyncErrorRecord])
  {
  }

  /** The published list becomes `null` when the hop fails and the snapshot fails to parse. */
  lemma UnparsableSnapshotPublishesNull(s: SyncState, storage: Storage, dom: string -> Option<Node>, fmt: string -> string)
    requires Truthy(s.localCache) && dom(s.localCache.value).None? && !storage.Blocked?
    ensures Finish(s, HopFailed, storage, dom, fmt).updates == None
  {
  }

  /** Every step keeps the snapshot markup-like, starting from no snapshot or a markup-like one. */
  lemma StepsKeepSnapshotInvariant(s: SyncState, hop: HopOutcome, storage: Storage,
                                   dom: string -> Option<Node>, fmt: string -> string)
    requires SnapshotInvariant(s)
    ensures SnapshotInvariant(Begin(s).1)
    ensures SnapshotInvariant(Finish(s, hop, storage, dom, fmt))
  {
  }

  /**
   * With a truthy snapshot, a failed hop never publishes the sync-error record: the list is the
   * snapshot's parse, or, with storage blocked, the list it had before.
   */
  lemma SnapshotHidesSyncError(s: SyncState, storage: Storage, dom: string -> Option<Node>, fmt: string -> string)
    requires Truthy(s.localCache)
    ensures var t := Finish(s, HopFailed, storage, dom, fmt);
            t.updates != Some([SyncErrorRecord]) || (storage.Blocked? && t.updates == s.updates)
  {
    var parsed := ParseLiveCapData(s.localCache.value, dom, fmt);
    if parsed.Some? {
      var doc := dom(s.localCache.value).value;
      ParsedIds(doc, fmt);
      assert SyncErrorRecord !in parsed.value;
    }
  }
}
