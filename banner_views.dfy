/** What the banner derives from shared data without changing it
    (src/components/ui-custom/AgentBanner.tsx): the agent it shows, that
    agent's slice of the communication log, which routing modes open the
    target picker, and which agents the picker lists. */
module BannerViews {
  import opened JsBuiltins
  import opened Types

  /** `agents.find(a => a.id === agentId)`: the first agent with that id.
      When there is none the banner renders nothing. */
  function FindAgent(agents: seq<Agent>, agentId: string): (r: Option<Agent>)
    ensures r.None? <==> forall k :: 0 <= k < |agents| ==> agents[k].id != agentId
    ensures r.Some? ==> r.value in agents && r.value.id == agentId
    ensures r.Some? ==> exists k :: 0 <= k < |agents| && agents[k] == r.value &&
                                    forall j :: 0 <= j < k ==> agents[j].id != agentId
  {
    var r := Find(agents, (a: Agent) => a.id == agentId);
    if r.Some? then
      FindIsFirst(agents, agentId);
      r
    else
      r
  }

  lemma {:induction false} FindIsFirst(agents: seq<Agent>, agentId: string)
    requires Find(agents, (a: Agent) => a.id == agentId).Some?
    ensures var a := Find(agents, (a: Agent) => a.id == agentId).value;
            exists k :: 0 <= k < |agents| && agents[k] == a &&
                        forall j :: 0 <= j < k ==> agents[j].id != agentId
  {
    if agents[0].id != agentId {
      FindIsFirst(agents[1..], agentId);
      var a := Find(agents, (a: Agent) => a.id == agentId).value;
      var k :| 0 <= k < |agents[1..]| && agents[1..][k] == a &&
               forall j :: 0 <= j < k ==> agents[1..][j].id != agentId;
      assert agents[k + 1] == a;
    } else {
      assert agents[0] == Find(agents, (a: Agent) => a.id == agentId).value;
    }
  }

  /** A log entry belongs to an agent's chat when it was sent by or to that
      agent's display name. */
  predicate Involves(e: Entry, name: string) {
    e.from == name || e.to == name
  }

  /** `agentChatMessages`: the entries sent by or to `name`, each exactly
      once per occurrence in `logs`, in log order. */
  function AgentMessages(logs: seq<Entry>, name: string): (r: seq<Entry>)
    ensures |r| <= |logs|
    ensures forall e :: e in r <==> e in logs && Involves(e, name)
  {
    Filter(logs, (e: Entry) => Involves(e, name))
  }

  /** Appending to the log extends an agent's chat by that entry exactly
      when the entry involves the agent, and leaves it unchanged otherwise. */
  lemma AgentMessagesAppend(logs: seq<Entry>, e: Entry, name: string)
    ensures AgentMessages(logs + [e], name) ==
      AgentMessages(logs, name) + (if Involves(e, name) then [e] else [])
  {
    FilterAppend(logs, [e], (e: Entry) => Involves(e, name));
    assert [e][1..] == [];
  }

  /** The chat of two log segments is the chat of the first followed by the
      chat of the second: the filter preserves the original order. */
  lemma AgentMessagesConcat(a: seq<Entry>, b: seq<Entry>, name: string)
    ensures AgentMessages(a + b, name) == AgentMessages(a, name) + AgentMessages(b, name)
  {
    FilterAppend(a, b, (e: Entry) => Involves(e, name));
  }

  /** Filtering an agent's chat again for the same name changes nothing. */
  lemma AgentMessagesIdempotent(logs: seq<Entry>, name: string)
    ensures AgentMessages(AgentMessages(logs, name), name) == AgentMessages(logs, name)
  {
    FilterIdempotent(logs, (e: Entry) => Involves(e, name));
  }

  /** The six modes whose button also opens the target picker. */
  predicate RevealsTargets(m: RoutingMode)
    ensures RevealsTargets(m) <==> m != All && m != Bookmark
  {
    assert m.All? || m.Selected? || m.Cycle? || m.Sequence? || m.Parallel? || m.Direct? || m.Human? || m.Bookmark?;
    m in [Selected, Cycle, Sequence, Parallel, Direct, Human]
  }

  /** Every mode has a button, and all modes but 'all' and 'bookmark' open
      the picker. */
  lemma RoutingModesRevealing(m: RoutingMode)
    ensures m in RoutingModes && |RoutingModes| == 8
    ensures RevealsTargets(m) <==> m != All && m != Bookmark
  {
  }

  /** The picker's list: `agents.filter(a => a.id !== agentId)`, every agent
      but the one whose banner is open, in the store's order. */
  function Targets(agents: seq<Agent>, agentId: string): (r: seq<Agent>)
    ensures |r| <= |agents|
    ensures forall a :: a in r <==> a in agents && a.id != agentId
  {
    Filter(agents, (a: Agent) => a.id != agentId)
  }
}
