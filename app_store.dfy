/** The slice of the shared application store that the banner and the root
    component read and write. The store's own implementation is not part of
    this model: each setter here is the plain assignment its name promises. */
module AppStore {
  import opened JsBuiltins
  import opened Types

  class Store {
    var bannerOpen: bool
    var bannerAgentId: Option<string>
    /** Any string: the banner writes `BannerPanel` values, the root
        component's shortcuts can write 'summary'. */
    var bannerPanel: string
    var routingMode: RoutingMode
    var logs: seq<Entry>

    constructor (open: bool, agentId: Option<string>, panel: string, mode: RoutingMode, entries: seq<Entry>)
      ensures bannerOpen == open && bannerAgentId == agentId && bannerPanel == panel
      ensures routingMode == mode && logs == entries
    {
      bannerOpen, bannerAgentId, bannerPanel := open, agentId, panel;
      routingMode, logs := mode, entries;
    }

    method SetBannerPanel(p: string)
      modifies this`bannerPanel
      ensures bannerPanel == p
    {
      bannerPanel := p;
    }

    method SetRoutingMode(m: RoutingMode)
      modifies this`routingMode
      ensures routingMode == m
    {
      routingMode := m;
    }

    /** Appends one entry; the store's id and timestamp generation is
        outside the model, so both arrive as arguments. */
    method AddCommunicationLog(id: string, from: string, to: string, message: string, kind: EntryType, timestamp: string)
      modifies this`logs
      ensures logs == old(logs) + [Entry(id, from, to, message, kind, timestamp)]
    {
      logs := logs + [Entry(id, from, to, message, kind, timestamp)];
    }

    method CloseBanner()
      modifies this`bannerOpen
      ensures !bannerOpen
    {
      bannerOpen := false;
    }
  }
}
