/**
 * The two halves joined: the response of the `/fetch-alerts` handler is what the dashboard's
 * fetch hop delivers. The client never looks at the status, so what the server sends decides
 * alone what the client stores and shows.
 */
module Pipeline {
  import opened JsValues
  import opened FeedCache
  import opened CapParser
  import opened DashboardSync

  /** The hop outcome the dashboard sees when the handler answers. */
  function Deliver(res: Response): HopOutcome
  {
    Delivered(res.status, res.body)
  }

  /**
   * From a markup-like server slot, every non-empty body the handler sends becomes the client's
   * offline snapshot (when the browser storage accepts it), whatever the status.
   */
  lemma ServedBodiesAreSnapshotted(file: CacheFile, req: Request, s: SyncState,
                                   dom: string -> Option<Node>, fmt: string -> string)
    requires SlotInvariant(file)
    requires Handle(file, req).response.body != ""
    ensures var res := Handle(file, req).response;
            Finish(s, Deliver(res), Available, dom, fmt).localCache == Some(res.body)
  {
  }

  /**
   * The 500 error page is stored as the offline snapshot, replacing any earlier feed, and, as a
   * document without `item` elements, is published as the "No active alerts" placeholder.
   */
  lemma ErrorPageReplacesSnapshot(file: CacheFile, req: Request, s: SyncState,
                                  dom: string -> Option<Node>, fmt: string -> string)
    requires Handle(file, req).response.status == 500
    requires dom(ConnectionFailedBody).Some? && FindAll(dom(ConnectionFailedBody).value, "item") == []
    ensures var t := Finish(s, Deliver(Handle(file, req).response), Available, dom, fmt);
            t.localCache == Some(ConnectionFailedBody) &&
            t.updates == Some([NoAlertsRecord])
  {
  }
}
