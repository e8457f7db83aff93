/** The value types the banner and the root component share
    (src/types/index.ts), reduced to the fields their logic reads. */
module Types {

  /** An agent's identity. Its role, colours, 3D position, status,
      description and icon are display data only. */
  datatype Agent = Agent(id: string, name: string)

  /** The `type` tag of a communication-log entry. */
  datatype EntryType = Speech | Task | Feedback | Complete

  /** One entry of the shared communication log. */
  datatype Entry = Entry(
    id: string,
    from: string,
    to: string,
    message: string,
    kind: EntryType,
    timestamp: string)

  /** The `BannerPanel` values, in the banner's navigation order. The store's
      active-panel field holds a string: the root component writes a value
      outside this list, so membership is a predicate and not a type. */
  const Panels: seq<string> := ["chat", "prompts", "metrics"]

  predicate IsBannerPanel(p: string) {
    p in Panels
  }

  /** The eight message-routing modes. */
  datatype RoutingMode = All | Selected | Cycle | Sequence | Parallel | Direct | Human | Bookmark

  /** The routing buttons in the order the banner draws them. */
  const RoutingModes: seq<RoutingMode> :=
    [All, Selected, Cycle, Sequence, Parallel, Direct, Human, Bookmark]
}
