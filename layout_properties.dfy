/**
 * What the layout guarantees about every configuration: ids in creation order, edges that point
 * forward and go down exactly one grid row, three grid columns, the edge count, the order of the
 * stages with their early returns, and the contents of the Managers and Sequential Call stages.
 */
module LayoutProperties {
  import opened Wrappers
  import opened Configurations
  import opened Diagrams

  /** The k-th node created has id k. */
  predicate IdsInCreationOrder(nodes: seq<Node>)
  {
    forall k :: 0 <= k < |nodes| ==> nodes[k].id == k
  }

  /** Every edge goes from a node to a later node of the diagram. */
  predicate EdgesPointForward(d: Diagram)
  {
    forall e :: e in d.edges ==> e.source < e.target < |d.nodes|
  }

  /** Every edge ends exactly one grid row below where it starts. */
  predicate EdgesDescendOneRow(d: Diagram)
  {
    forall e :: e in d.edges ==>
      e.source < |d.nodes| && e.target < |d.nodes| &&
      d.nodes[e.target].position.y == d.nodes[e.source].position.y + Offset
  }

  /** Every node is in the left, centre or right column. */
  predicate ColumnsOnGrid(nodes: seq<Node>)
  {
    forall n :: n in nodes ==> n.position.x == -Offset || n.position.x == 0 || n.position.x == Offset
  }

  predicate WellFormed(d: Diagram)
  {
    IdsInCreationOrder(d.nodes) && EdgesPointForward(d) && EdgesDescendOneRow(d) && ColumnsOnGrid(d.nodes)
  }

  /** Node `k` is drawn on its own row. */
  predicate OnOwnRow(d: Diagram, k: nat)
  {
    k < |d.nodes| && d.nodes[k].position.y == k * Offset
  }

  // ---------------------------------------------------------------------------------------------
  // Each stage keeps the diagram well formed.

  lemma BelowKeepsShape(d: Diagram, title: string, subTitle: Option<string>)
    requires WellFormed(d) && d.nodes != [] && OnOwnRow(d, |d.nodes| - 1)
    ensures var r := Below(d, title, subTitle); WellFormed(r) && OnOwnRow(r, |r.nodes| - 1)
  {
    var r := Below(d, title, subTitle);
    forall e | e in r.edges
      ensures e.source < |r.nodes| && e.target < |r.nodes| &&
              r.nodes[e.target].position.y == r.nodes[e.source].position.y + Offset
    {
      if e !in d.edges {
        assert e == Link(|d.nodes| - 1, |d.nodes|);
      }
    }
  }

  lemma OpeningShape(c: ConfigurationData)
    ensures var d := WithRecording(c, Root()); WellFormed(d) && OnOwnRow(d, |d.nodes| - 1)
  {
    if c.isCallRecordingEnabled {
      BelowKeepsShape(Root(), CallRecordingMessage, None);
    }
  }

  lemma AssigneesKeepShape(c: ConfigurationData, d: Diagram)
    requires WellFormed(d) && d.nodes != [] && OnOwnRow(d, |d.nodes| - 1)
    ensures var r := WithAssignees(c, d); WellFormed(r) && OnOwnRow(r, |r.nodes| - 1)
    ensures |d.nodes| >= 2 ==> OnOwnRow(WithAssignees(c, d), |d.nodes| - 1)
  {
    var r := WithAssignees(c, d);
    if c.HasAssignees() {
      forall e | e in r.edges
        ensures e.source < |r.nodes| && e.target < |r.nodes| &&
                r.nodes[e.target].position.y == r.nodes[e.source].position.y + Offset
      {
        if e !in d.edges {
          assert e == Link(|d.nodes| - 1, |d.nodes|);
        }
      }
    }
  }

  /**
   * What the SIP and Sequential Call stages need from the user stages: the last node on its own
   * row, or, with both user nodes, the two user nodes sharing the row before the last id.
   */
  predicate ReadyForModeNode(c: ConfigurationData, d: Diagram)
  {
    var last := |d.nodes| - 1;
    if HasBothUsers(c) then
      |d.nodes| >= 2 && OnOwnRow(d, last - 1) && d.nodes[last].position.y == (last - 1) * Offset
    else
      d.nodes != [] && OnOwnRow(d, last)
  }

  lemma ManagersKeepShape(c: ConfigurationData, a: Diagram)
    requires WellFormed(a) && a.nodes != [] && OnOwnRow(a, |a.nodes| - 1)
    requires c.HasAssignees() ==> |a.nodes| >= 2 && OnOwnRow(a, |a.nodes| - 2)
    ensures var r := WithManagers(c, a); WellFormed(r) && ReadyForModeNode(c, r)
  {
    var r := WithManagers(c, a);
    if c.HasManagers() {
      var row := |a.nodes|;
      forall e | e in r.edges
        ensures e.source < e.target < |r.nodes| &&
                r.nodes[e.target].position.y == r.nodes[e.source].position.y + Offset
      {
        if e !in a.edges {
          assert e.target == row;
          assert e.source == if c.HasAssignees() then row - 2 else row - 1;
        }
      }
    }
  }

  lemma UsersKeepShape(c: ConfigurationData, d: Diagram)
    requires WellFormed(d) && d.nodes != [] && OnOwnRow(d, |d.nodes| - 1)
    ensures var r := Users(c, d); WellFormed(r) && ReadyForModeNode(c, r)
  {
    AssigneesKeepShape(c, d);
    var a := WithAssignees(c, d);
    assert a.nodes[|d.nodes| - 1] == d.nodes[|d.nodes| - 1];
    ManagersKeepShape(c, a);
  }


  /** The row the SIP or Sequential Call node is drawn at. */
  function ModeRow(c: ConfigurationData, d: Diagram): int
  {
    if HasBothUsers(c) then |d.nodes| - 1 else |d.nodes|
  }

  lemma ModeNodeKeepsShape(c: ConfigurationData, d: Diagram, title: string, error: Option<string>)
    requires WellFormed(d) && ReadyForModeNode(c, d)
    ensures var r := ModeNode(c, d, title, error);
      WellFormed(r) && r.nodes[|d.nodes|].position.y == ModeRow(c, d) * Offset
  {
    var r := ModeNode(c, d, title, error);
    var row := |d.nodes|;
    forall e | e in r.edges
      ensures e.source < e.target < |r.nodes| &&
              r.nodes[e.target].position.y == r.nodes[e.source].position.y + Offset
    {
      if e !in d.edges {
        assert e.target == row;
      }
    }
  }

  /** The "Seq Call" nodes continue the ids and stay in the centre column. */
  lemma SeqCallNodesShape(nodes: seq<Node>, numbers: seq<string>, start: nat)
    requires nodes != [] && IdsInCreationOrder(nodes) && ColumnsOnGrid(nodes)
    ensures var r := nodes + SeqCallNodes(numbers, |nodes| - 1, start, |numbers|);
      IdsInCreationOrder(r) && ColumnsOnGrid(r)
  {
    var children := SeqCallNodes(numbers, |nodes| - 1, start, |numbers|);
    var r := nodes + children;
    forall k | 0 <= k < |r| ensures r[k].id == k {
      if k >= |nodes| {
        assert r[k] == children[k - |nodes|];
      }
    }
    forall n | n in r ensures n.position.x == -Offset || n.position.x == 0 || n.position.x == Offset {
      if n !in nodes {
        var k :| 0 <= k < |children| && children[k] == n;
      }
    }
  }

  /** The chain through the "Seq Call" nodes points forward and goes down one row per edge. */
  lemma SeqCallEdgesShape(d: Diagram, numbers: seq<string>, start: nat)
    requires d.nodes != [] && d.nodes[|d.nodes| - 1].position.y == start * Offset
    ensures var row := |d.nodes| - 1;
      var r := Diagram(d.nodes + SeqCallNodes(numbers, row, start, |numbers|), d.edges + SeqCallEdges(row, |numbers|));
      forall e :: e in SeqCallEdges(row, |numbers|) ==>
        e.source < e.target < |r.nodes| &&
        r.nodes[e.target].position.y == r.nodes[e.source].position.y + Offset
  {
    var row := |d.nodes| - 1;
    var children := SeqCallNodes(numbers, row, start, |numbers|);
    var links := SeqCallEdges(row, |numbers|);
    var r := Diagram(d.nodes + children, d.edges + links);
    forall e | e in links
      ensures e.source < e.target < |r.nodes| &&
              r.nodes[e.target].position.y == r.nodes[e.source].position.y + Offset
    {
      var k :| 0 <= k < |links| && links[k] == e;
      assert e == Link(row + k, row + k + 1);
      assert r.nodes[row + k + 1] == children[k];
      assert children[k].position.y == (start + k + 1) * Offset;
      if k > 0 {
        assert r.nodes[row + k] == children[k - 1];
        assert children[k - 1].position.y == (start + k) * Offset;
      }
    }
  }

  lemma SeqCallsKeepShape(c: ConfigurationData, d: Diagram)
    requires WellFormed(d) && |d.nodes| >= (if HasBothUsers(c) then 2 else 1)
    requires d.nodes[|d.nodes| - 1].position.y == (if HasBothUsers(c) then |d.nodes| - 2 else |d.nodes| - 1) * Offset
    ensures WellFormed(WithSeqCalls(c, d))
  {
    var row := |d.nodes| - 1;
    var start := if HasBothUsers(c) then row - 1 else row;
    SeqCallNodesShape(d.nodes, c.sequentialCallNumbers, start);
    SeqCallEdgesShape(d, c.sequentialCallNumbers, start);
  }

  lemma ModeStageKeepsShape(c: ConfigurationData, users: Diagram)
    requires WellFormed(users) && ReadyForModeNode(c, users)
    ensures WellFormed(ModeStage(c, users))
  {
    if c.isSipEnabled {
      ModeNodeKeepsShape(c, users, Sip, None);
    } else if c.isSequentialCallEnabled {
      ModeNodeKeepsShape(c, users, SequentialCall, SequentialCallError(c));
      SeqCallsKeepShape(c, ModeNode(c, users, SequentialCall, SequentialCallError(c)));
    }
  }

  /** Every layout is well formed: ids in creation order, forward edges one row down, three columns. */
  lemma LayoutWellFormed(c: ConfigurationData)
    ensures WellFormed(Layout(c))
  {
    OpeningShape(c);
    var opening := WithRecording(c, Root());
    if c.isCallForwardingEnabled {
      BelowKeepsShape(opening, CallForwarding, Some(c.forwardTo));
    } else if c.isPhoneTreeEnabled {
      BelowKeepsShape(opening, PhoneTree, None);
    } else {
      UsersKeepShape(c, opening);
      ModeStageKeepsShape(c, Users(c, opening));
    }
  }

  // ---------------------------------------------------------------------------------------------
  // Edge count.

  /** A SIP or Sequential Call node is laid out below both user nodes, so it gets two edges. */
  predicate JoinsBothUsers(c: ConfigurationData)
  {
    !c.isCallForwardingEnabled && !c.isPhoneTreeEnabled && HasBothUsers(c) &&
    (c.isSipEnabled || c.isSequentialCallEnabled)
  }

  /** One edge into every node but the root, and one more where both user nodes meet a mode node. */
  lemma LayoutEdgeCount(c: ConfigurationData)
    ensures |Layout(c).edges| == |Layout(c).nodes| - 1 + (if JoinsBothUsers(c) then 1 else 0)
  {
    var opening := WithRecording(c, Root());
    assert |opening.edges| + 1 == |opening.nodes|;
    if !c.isCallForwardingEnabled && !c.isPhoneTreeEnabled {
      var a := WithAssignees(c, opening);
      assert |a.edges| + 1 == |a.nodes|;
      var users := WithManagers(c, a);
      assert |users.edges| + 1 == |users.nodes|;
      if !c.isSipEnabled && c.isSequentialCallEnabled {
        var m := ModeNode(c, users, SequentialCall, SequentialCallError(c));
        assert |m.edges| == |m.nodes| - 1 + (if HasBothUsers(c) then 1 else 0);
      }
    }
  }

  // ---------------------------------------------------------------------------------------------
  // Stage order and early returns, seen through the node titles.

  function Titles(nodes: seq<Node>): (t: seq<string>)
  {
    seq(|nodes|, k requires 0 <= k < |nodes| => nodes[k].data.title)
  }

  function SeqCallTitles(count: nat): seq<string>
  {
    seq(count, k requires 0 <= k < count => SeqCallLabel(k + 1))
  }

  /** The titles before any routing: the root, then the recording message when recording is on. */
  function OpeningTitles(c: ConfigurationData): seq<string>
  {
    [IncomingCall] + if c.isCallRecordingEnabled then [CallRecordingMessage] else []
  }

  /** The user nodes' titles: Assignees, then Managers, each only when its list is non-empty. */
  function UserTitles(c: ConfigurationData): seq<string>
  {
    (if c.HasAssignees() then [Assignees] else []) + (if c.HasManagers() then [Managers] else [])
  }

  /** SIP, or else Sequential Call followed by one numbered call per number, or else nothing. */
  function ModeTitles(c: ConfigurationData): seq<string>
  {
    if c.isSipEnabled then [Sip]
    else if c.isSequentialCallEnabled then [SequentialCall] + SeqCallTitles(|c.sequentialCallNumbers|)
    else []
  }

  /**
   * The titles the stages emit, in order: the opening, then call forwarding or else phone tree
   * (each ending the diagram), or else the user nodes and the SIP or sequential-call titles.
   */
  function StageTitles(c: ConfigurationData): seq<string>
  {
    OpeningTitles(c) +
    if c.isCallForwardingEnabled then [CallForwarding]
    else if c.isPhoneTreeEnabled then [PhoneTree]
    else UserTitles(c) + ModeTitles(c)
  }

  lemma ConcatAssociative(a: seq<string>, b: seq<string>, c: seq<string>)
    ensures a + b + c == a + (b + c)
  {
  }

  lemma TitlesAppend(a: seq<Node>, b: seq<Node>)
    ensures Titles(a + b) == Titles(a) + Titles(b)
  {
  }

  lemma BelowTitles(d: Diagram, title: string, subTitle: Option<string>)
    requires d.nodes != []
    ensures Titles(Below(d, title, subTitle).nodes) == Titles(d.nodes) + [title]
  {
    var r := Below(d, title, subTitle);
    TitlesAppend(d.nodes, [r.nodes[|d.nodes|]]);
  }

  lemma UsersTitles(c: ConfigurationData, d: Diagram)
    requires d.nodes != []
    ensures Titles(Users(c, d).nodes) ==
      Titles(d.nodes) + (if c.HasAssignees() then [Assignees] else []) + (if c.HasManagers() then [Managers] else [])
  {
    var a := WithAssignees(c, d);
    var users := WithManagers(c, a);
    if c.HasAssignees() {
      TitlesAppend(d.nodes, [a.nodes[|d.nodes|]]);
    }
    if c.HasManagers() {
      TitlesAppend(a.nodes, [users.nodes[|a.nodes|]]);
    }
  }

  lemma ModeNodeTitles(c: ConfigurationData, d: Diagram, title: string, error: Option<string>)
    requires |d.nodes| >= if HasBothUsers(c) then 2 else 1
    ensures Titles(ModeNode(c, d, title, error).nodes) == Titles(d.nodes) + [title]
  {
    var r := ModeNode(c, d, title, error);
    TitlesAppend(d.nodes, [r.nodes[|d.nodes|]]);
  }

  lemma SeqCallsTitles(c: ConfigurationData, d: Diagram)
    requires |d.nodes| >= if HasBothUsers(c) then 2 else 1
    ensures Titles(WithSeqCalls(c, d).nodes) == Titles(d.nodes) + SeqCallTitles(|c.sequentialCallNumbers|)
  {
    var numbers := c.sequentialCallNumbers;
    var row := |d.nodes| - 1;
    var start := if HasBothUsers(c) then row - 1 else row;
    var children := SeqCallNodes(numbers, row, start, |numbers|);
    TitlesAppend(d.nodes, children);
    assert Titles(children) == SeqCallTitles(|numbers|);
  }

  lemma ModeTitlesOfLayout(c: ConfigurationData, users: Diagram)
    requires |users.nodes| >= if HasBothUsers(c) then 2 else 1
    requires c.isSipEnabled || c.isSequentialCallEnabled
    ensures var r := if c.isSipEnabled then ModeNode(c, users, Sip, None)
                     else WithSeqCalls(c, ModeNode(c, users, SequentialCall, SequentialCallError(c)));
      Titles(r.nodes) == Titles(users.nodes) + ModeTitles(c)
  {
    if c.isSipEnabled {
      ModeNodeTitles(c, users, Sip, None);
    } else {
      var m := ModeNode(c, users, SequentialCall, SequentialCallError(c));
      ModeNodeTitles(c, users, SequentialCall, SequentialCallError(c));
      SeqCallsTitles(c, m);
      ConcatAssociative(Titles(users.nodes), [SequentialCall], SeqCallTitles(|c.sequentialCallNumbers|));
    }
  }

  /** The layout emits exactly the stage titles, in stage order. */
  lemma LayoutTitles(c: ConfigurationData)
    ensures Titles(Layout(c).nodes) == StageTitles(c)
  {
    var opening := WithRecording(c, Root());
    if c.isCallRecordingEnabled {
      BelowTitles(Root(), CallRecordingMessage, None);
    }
    assert Titles(opening.nodes) == OpeningTitles(c);
    if c.isCallForwardingEnabled {
      BelowTitles(opening, CallForwarding, Some(c.forwardTo));
    } else if c.isPhoneTreeEnabled {
      BelowTitles(opening, PhoneTree, None);
    } else {
      var users := Users(c, opening);
      UsersTitles(c, opening);
      var o, u := OpeningTitles(c), UserTitles(c);
      assert Titles(users.nodes) == o + u;
      if c.isSipEnabled || c.isSequentialCallEnabled {
        ModeTitlesOfLayout(c, users);
      }
      ConcatAssociative(o, u, ModeTitles(c));
    }
  }

  /** The edges of a plain chain: each node is linked from the one created before it. */
  predicate IsSimpleChain(d: Diagram)
  {
    |d.edges| + 1 == |d.nodes| && forall k :: 0 <= k < |d.edges| ==> d.edges[k] == Link(k, k + 1)
  }

  /**
   * Call forwarding (checked first) and phone tree end the diagram right after the optional
   * recording message: a plain chain whose last node is the mode node, carrying the forwarding
   * number as its subtitle for call forwarding.
   */
  lemma EarlyReturnsAreSimpleChains(c: ConfigurationData)
    requires c.isCallForwardingEnabled || c.isPhoneTreeEnabled
    ensures var d := Layout(c);
      IsSimpleChain(d) && |d.nodes| == (if c.isCallRecordingEnabled then 3 else 2) &&
      d.nodes[|d.nodes| - 1].data ==
        if c.isCallForwardingEnabled then NodeData(CallForwarding, Some(c.forwardTo), None, None)
        else NodeData(PhoneTree, None, None, None)
  {
    var d := Layout(c);
    if c.isCallRecordingEnabled {
      assert d.edges == [Link(0, 1), Link(1, 2)];
    } else {
      assert d.edges == [Link(0, 1)];
    }
  }

  // ---------------------------------------------------------------------------------------------
  // The Managers node and its edge.

  /** The Managers node is dimmed exactly when managers may not take calls. */
  predicate ManagersDimmedWhenBlocked(d: Diagram, allowed: bool)
  {
    forall k :: 0 <= k < |d.nodes| && d.nodes[k].data.title == Managers ==> d.nodes[k].data.disabled == Some(!allowed)
  }

  /** Only edges into the Managers node carry a label: "X" when managers may not take calls, "" otherwise. */
  predicate OnlyManagersEdgeLabelled(d: Diagram, allowed: bool)
  {
    forall e :: e in d.edges ==>
      e.target < |d.nodes| &&
      e.text == if d.nodes[e.target].data.title == Managers then Some(if allowed then Allowed else Blocked) else None
  }

  predicate ManagersMarked(d: Diagram, allowed: bool)
  {
    ManagersDimmedWhenBlocked(d, allowed) && OnlyManagersEdgeLabelled(d, allowed)
  }

  /** Appending nodes and edges keeps the marks when the appended part is marked correctly. */
  lemma ExtendKeepsMarks(d: Diagram, newNodes: seq<Node>, newEdges: seq<Edge>, allowed: bool)
    requires ManagersMarked(d, allowed)
    requires forall k :: 0 <= k < |newNodes| && newNodes[k].data.title == Managers ==> newNodes[k].data.disabled == Some(!allowed)
    requires forall e :: e in newEdges ==>
      |d.nodes| <= e.target < |d.nodes| + |newNodes| &&
      e.text == if newNodes[e.target - |d.nodes|].data.title == Managers then Some(if allowed then Allowed else Blocked) else None
    ensures ManagersMarked(Diagram(d.nodes + newNodes, d.edges + newEdges), allowed)
  {
    var r := Diagram(d.nodes + newNodes, d.edges + newEdges);
    forall k | 0 <= k < |r.nodes| && r.nodes[k].data.title == Managers
      ensures r.nodes[k].data.disabled == Some(!allowed)
    {
      if k >= |d.nodes| {
        assert r.nodes[k] == newNodes[k - |d.nodes|];
      }
    }
    forall e | e in r.edges
      ensures e.target < |r.nodes| &&
        e.text == if r.nodes[e.target].data.title == Managers then Some(if allowed then Allowed else Blocked) else None
    {
      if e in newEdges {
        assert r.nodes[e.target] == newNodes[e.target - |d.nodes|];
      }
    }
  }

  lemma TitlesAreNotManagers(k: nat)
    ensures IncomingCall != Managers && CallRecordingMessage != Managers && CallForwarding != Managers
    ensures PhoneTree != Managers && Assignees != Managers && Sip != Managers && SequentialCall != Managers
    ensures SeqCallLabel(k) != Managers
  {
    assert |SeqCallLabel(k)| > |Managers|;
  }

  lemma BelowMarks(d: Diagram, title: string, subTitle: Option<string>, allowed: bool)
    requires d.nodes != [] && ManagersMarked(d, allowed) && title != Managers
    ensures ManagersMarked(Below(d, title, subTitle), allowed)
  {
    var row := |d.nodes|;
    ExtendKeepsMarks(d, [NewNode(0, row, title, subTitle, None, None, None)], [Link(row - 1, row)], allowed);
  }

  lemma UsersMarks(c: ConfigurationData, d: Diagram)
    requires d.nodes != [] && ManagersMarked(d, c.areManagersAllowedToGetCall)
    ensures ManagersMarked(Users(c, d), c.areManagersAllowedToGetCall)
  {
    TitlesAreNotManagers(0);
    var allowed := c.areManagersAllowedToGetCall;
    var a := WithAssignees(c, d);
    if c.HasAssignees() {
      var row := |d.nodes|;
      ExtendKeepsMarks(d, [a.nodes[row]], [Link(row - 1, row)], allowed);
      assert a == Diagram(d.nodes + [a.nodes[row]], d.edges + [Link(row - 1, row)]);
    }
    if c.HasManagers() {
      var row := |a.nodes|;
      var r := WithManagers(c, a);
      var from := if c.HasAssignees() then row - 2 else row - 1;
      ExtendKeepsMarks(a, [r.nodes[row]], [Edge(from, row, Some(if allowed then Allowed else Blocked))], allowed);
      assert r == Diagram(a.nodes + [r.nodes[row]], a.edges + [Edge(from, row, Some(if allowed then Allowed else Blocked))]);
    }
  }

  lemma ModeNodeMarks(c: ConfigurationData, d: Diagram, title: string, error: Option<string>, allowed: bool)
    requires |d.nodes| >= (if HasBothUsers(c) then 2 else 1) && ManagersMarked(d, allowed) && title != Managers
    ensures ManagersMarked(ModeNode(c, d, title, error), allowed)
  {
    var row := |d.nodes|;
    var r := ModeNode(c, d, title, error);
    ExtendKeepsMarks(d, [r.nodes[row]], r.edges[|d.edges|..], allowed);
    assert r == Diagram(d.nodes + [r.nodes[row]], d.edges + r.edges[|d.edges|..]);
  }

  lemma SeqCallsMarks(c: ConfigurationData, d: Diagram, allowed: bool)
    requires |d.nodes| >= (if HasBothUsers(c) then 2 else 1) && ManagersMarked(d, allowed)
    ensures ManagersMarked(WithSeqCalls(c, d), allowed)
  {
    var numbers := c.sequentialCallNumbers;
    var row := |d.nodes| - 1;
    var start := if HasBothUsers(c) then row - 1 else row;
    var children := SeqCallNodes(numbers, row, start, |numbers|);
    var links := SeqCallEdges(row, |numbers|);
    forall k | 0 <= k < |children| ensures children[k].data.title != Managers {
      TitlesAreNotManagers(k + 1);
    }
    forall e | e in links
      ensures |d.nodes| <= e.target < |d.nodes| + |children| &&
        e.text == if children[e.target - |d.nodes|].data.title == Managers then Some(if allowed then Allowed else Blocked) else None
    {
      var k :| 0 <= k < |links| && links[k] == e;
      assert e == Link(row + k, row + k + 1);
    }
    ExtendKeepsMarks(d, children, links, allowed);
  }

  /**
   * Whatever the configuration, any Managers node is dimmed exactly when managers may not take
   * calls, and the only labelled edges are those into the Managers node: "X" when managers may not
   * take calls and empty otherwise.
   */
  lemma LayoutMarksManagers(c: ConfigurationData)
    ensures ManagersMarked(Layout(c), c.areManagersAllowedToGetCall)
  {
    TitlesAreNotManagers(0);
    var allowed := c.areManagersAllowedToGetCall;
    var opening := WithRecording(c, Root());
    if c.isCallRecordingEnabled {
      BelowMarks(Root(), CallRecordingMessage, None, allowed);
    }
    if c.isCallForwardingEnabled {
      BelowMarks(opening, CallForwarding, Some(c.forwardTo), allowed);
    } else if c.isPhoneTreeEnabled {
      BelowMarks(opening, PhoneTree, None, allowed);
    } else {
      UsersMarks(c, opening);
      var users := Users(c, opening);
      if c.isSipEnabled {
        ModeNodeMarks(c, users, Sip, None, allowed);
      } else if c.isSequentialCallEnabled {
        ModeNodeMarks(c, users, SequentialCall, SequentialCallError(c), allowed);
        SeqCallsMarks(c, ModeNode(c, users, SequentialCall, SequentialCallError(c)), allowed);
      }
    }
  }

  // ---------------------------------------------------------------------------------------------
  // The user nodes and the Sequential Call chain, node by node.

  /** Number of nodes before the user stage: the Incoming Call node and the optional recording message. */
  function OpeningLength(c: ConfigurationData): nat
  {
    if c.isCallRecordingEnabled then 2 else 1
  }

  /**
   * The opening nodes start every diagram: the Incoming Call node with id 0 and, when recording
   * is on, the Call Recording Message node with id 1 below it, linked from the Incoming Call node
   * by the first edge of the diagram.
   */
  lemma OpeningEdges(c: ConfigurationData)
    ensures var d := Layout(c);
      |d.nodes| >= OpeningLength(c) &&
      d.nodes[0] == NewNode(0, 0, IncomingCall, None, None, None, None) &&
      (c.isCallRecordingEnabled ==>
        d.nodes[1] == NewNode(0, 1, CallRecordingMessage, None, None, None, None) &&
        |d.edges| >= 1 && d.edges[0] == Link(0, 1))
  {
    var opening := WithRecording(c, Root());
    var d := Layout(c);
    var o := OpeningLength(c);
    if c.isCallForwardingEnabled {
      assert d == Below(opening, CallForwarding, Some(c.forwardTo));
    } else if c.isPhoneTreeEnabled {
      assert d == Below(opening, PhoneTree, None);
    } else {
      UsersArePrefix(c);
      var users := Users(c, opening);
      var a := WithAssignees(c, opening);
      assert a.nodes[..o] == opening.nodes && a.edges[..|opening.edges|] == opening.edges;
      assert users.nodes[..o] == opening.nodes && users.edges[..|opening.edges|] == opening.edges;
      assert d.nodes[..o] == d.nodes[..|users.nodes|][..o];
      assert d.edges[..|opening.edges|] == d.edges[..|users.edges|][..|opening.edges|];
      assert d.nodes[0] == opening.nodes[0];
      if c.isCallRecordingEnabled {
        assert d.nodes[1] == opening.nodes[1];
        assert d.edges[0] == opening.edges[0];
      }
    }
  }

  /** The later stages only append: the user stage's nodes and edges are prefixes of the whole diagram. */
  lemma UsersArePrefix(c: ConfigurationData)
    requires !c.isCallForwardingEnabled && !c.isPhoneTreeEnabled
    ensures var users := Users(c, WithRecording(c, Root()));
      |users.nodes| <= |Layout(c).nodes| && Layout(c).nodes[..|users.nodes|] == users.nodes &&
      |users.edges| <= |Layout(c).edges| && Layout(c).edges[..|users.edges|] == users.edges
  {
    var users := Users(c, WithRecording(c, Root()));
    if c.isSipEnabled {
      var m := ModeNode(c, users, Sip, None);
      assert m.nodes[..|users.nodes|] == users.nodes;
      assert m.edges[..|users.edges|] == users.edges;
    } else if c.isSequentialCallEnabled {
      var m := ModeNode(c, users, SequentialCall, SequentialCallError(c));
      assert m.nodes[..|users.nodes|] == users.nodes;
      assert m.edges[..|users.edges|] == users.edges;
      assert Layout(c).nodes[..|m.nodes|] == m.nodes;
      assert Layout(c).edges[..|m.edges|] == m.edges;
    }
  }

  /**
   * Without call forwarding or phone tree, the Assignees node (when there are assignees) and then
   * the Managers node (when there are managers) come right after the opening nodes, both on the
   * row below them: the assignees one column left when managers follow, the managers one column
   * right when assignees precede, each subtitled with its names joined by ", ", and the Managers
   * node dimmed when managers may not take calls.
   */
  lemma UserNodes(c: ConfigurationData)
    requires !c.isCallForwardingEnabled && !c.isPhoneTreeEnabled
    ensures var d := Layout(c); var o := OpeningLength(c);
      var m := if c.HasAssignees() then o + 1 else o;
      |d.nodes| >= o + (if c.HasAssignees() then 1 else 0) + (if c.HasManagers() then 1 else 0) &&
      (c.HasAssignees() ==>
        d.nodes[o] == Node(o, Position(if c.HasManagers() then -Offset else 0, o * Offset),
                           NodeData(Assignees, Some(Join(c.assignees, Separator)), None, None))) &&
      (c.HasManagers() ==>
        d.nodes[m] == Node(m, Position(if c.HasAssignees() then Offset else 0, o * Offset),
                           NodeData(Managers, Some(Join(c.managers, Separator)), None,
                                    Some(!c.areManagersAllowedToGetCall))))
  {
    var opening := WithRecording(c, Root());
    var users := Users(c, opening);
    UsersArePrefix(c);
    var o := OpeningLength(c);
    var m := if c.HasAssignees() then o + 1 else o;
    if c.HasAssignees() {
      assert Layout(c).nodes[o] == users.nodes[o];
    }
    if c.HasManagers() {
      assert Layout(c).nodes[m] == users.nodes[m];
    }
  }

  /**
   * No two nodes of a diagram share an id, not even the Assignees and Managers nodes, which are
   * drawn on the same row when both are present.
   */
  lemma IdsDistinct(c: ConfigurationData)
    ensures var d := Layout(c);
      forall i, j :: 0 <= i < j < |d.nodes| ==> d.nodes[i].id != d.nodes[j].id
    ensures var d := Layout(c); var o := OpeningLength(c);
      !c.isCallForwardingEnabled && !c.isPhoneTreeEnabled && HasBothUsers(c) ==>
        o + 1 < |d.nodes| && d.nodes[o].position.y == d.nodes[o + 1].position.y &&
        d.nodes[o].id != d.nodes[o + 1].id
  {
    LayoutWellFormed(c);
    if !c.isCallForwardingEnabled && !c.isPhoneTreeEnabled {
      UserNodes(c);
    }
  }

  /**
   * Without call forwarding or phone tree, the Assignees node is linked from the last opening
   * node, and so is the Managers node, by an edge labelled "X" when managers may not take calls
   * and "" otherwise.
   */
  lemma UserEdges(c: ConfigurationData)
    requires !c.isCallForwardingEnabled && !c.isPhoneTreeEnabled
    ensures var d := Layout(c); var o := OpeningLength(c);
      var m := if c.HasAssignees() then o + 1 else o;
      (c.HasAssignees() ==> Link(o - 1, o) in d.edges) &&
      (c.HasManagers() ==>
        Edge(o - 1, m, Some(if c.areManagersAllowedToGetCall then Allowed else Blocked)) in d.edges)
  {
    var opening := WithRecording(c, Root());
    var users := Users(c, opening);
    UsersArePrefix(c);
    var o := OpeningLength(c);
    var m := if c.HasAssignees() then o + 1 else o;
    var a := WithAssignees(c, opening);
    var d := Layout(c);
    if c.HasAssignees() {
      assert a.edges[|a.edges| - 1] == Link(o - 1, o);
      assert users.edges[|a.edges| - 1] == Link(o - 1, o);
      assert d.edges[..|users.edges|][|a.edges| - 1] == Link(o - 1, o);
    }
    if c.HasManagers() {
      var e := Edge(o - 1, m, Some(if c.areManagersAllowedToGetCall then Allowed else Blocked));
      assert users.edges[|users.edges| - 1] == e;
      assert d.edges[..|users.edges|][|users.edges| - 1] == e;
    }
  }

  /** The id of the SIP or Sequential Call node: the next one after the opening and user nodes. */
  function ModeNodeId(c: ConfigurationData): nat
  {
    OpeningLength(c) + (if c.HasAssignees() then 1 else 0) + (if c.HasManagers() then 1 else 0)
  }

  /**
   * The edges into node `s` are exactly an unlabelled one from the node before it and, when both
   * user nodes are present, an unlabelled one from the node two before it.
   */
  predicate JoinedFromUsers(d: Diagram, s: nat, both: bool)
  {
    s >= (if both then 2 else 1) &&
    Link(s - 1, s) in d.edges && (both ==> Link(s - 2, s) in d.edges) &&
    forall e :: e in d.edges && e.target == s ==> e == Link(s - 1, s) || (both && e == Link(s - 2, s))
  }

  lemma ModeNodeJoined(c: ConfigurationData, d: Diagram, title: string, error: Option<string>)
    requires EdgesPointForward(d) && |d.nodes| >= if HasBothUsers(c) then 2 else 1
    ensures JoinedFromUsers(ModeNode(c, d, title, error), |d.nodes|, HasBothUsers(c))
  {
    var r := ModeNode(c, d, title, error);
    var s := |d.nodes|;
    if HasBothUsers(c) {
      assert r.edges[|d.edges|] == Link(s - 2, s) && r.edges[|d.edges| + 1] == Link(s - 1, s);
    } else {
      assert r.edges[|d.edges|] == Link(s - 1, s);
    }
    forall e | e in r.edges && e.target == s
      ensures e == Link(s - 1, s) || (HasBothUsers(c) && e == Link(s - 2, s))
    {
      assert e !in d.edges;
    }
  }

  lemma SeqCallsKeepJoin(c: ConfigurationData, d: Diagram, both: bool)
    requires |d.nodes| >= (if HasBothUsers(c) then 2 else 1) && JoinedFromUsers(d, |d.nodes| - 1, both)
    ensures JoinedFromUsers(WithSeqCalls(c, d), |d.nodes| - 1, both)
  {
    var r := WithSeqCalls(c, d);
    var s := |d.nodes| - 1;
    var links := SeqCallEdges(s, |c.sequentialCallNumbers|);
    forall e | e in links
      ensures e.target > s
    {
      var k :| 0 <= k < |links| && links[k] == e;
      assert e == Link(s + k, s + k + 1);
    }
  }

  /**
   * Without call forwarding or phone tree, a SIP or Sequential Call node gets the next id after
   * the user nodes, and its incoming edges are exactly one from each user node when both are
   * present, and otherwise one from the node before it.
   */
  lemma ModeNodeEdges(c: ConfigurationData)
    requires !c.isCallForwardingEnabled && !c.isPhoneTreeEnabled && (c.isSipEnabled || c.isSequentialCallEnabled)
    ensures var d := Layout(c); var s := ModeNodeId(c);
      s < |d.nodes| && d.nodes[s].id == s &&
      d.nodes[s].data.title == (if c.isSipEnabled then Sip else SequentialCall) &&
      JoinedFromUsers(d, s, HasBothUsers(c))
  {
    OpeningShape(c);
    var opening := WithRecording(c, Root());
    UsersKeepShape(c, opening);
    var users := Users(c, opening);
    ModeStageJoined(c, users);
    assert Layout(c) == ModeStage(c, users);
  }

  lemma ModeStageJoined(c: ConfigurationData, users: Diagram)
    requires c.isSipEnabled || c.isSequentialCallEnabled
    requires EdgesPointForward(users) && |users.nodes| >= if HasBothUsers(c) then 2 else 1
    ensures var d := ModeStage(c, users); var s := |users.nodes|;
      s < |d.nodes| && d.nodes[s] == NewNode(0, s, if c.isSipEnabled then Sip else SequentialCall, Some(Empty),
        Some(if HasBothUsers(c) then s - 1 else s), if c.isSipEnabled then None else SequentialCallError(c), None) &&
      JoinedFromUsers(d, s, HasBothUsers(c))
  {
    var s := |users.nodes|;
    if c.isSipEnabled {
      ModeNodeJoined(c, users, Sip, None);
    } else {
      var m := ModeNode(c, users, SequentialCall, SequentialCallError(c));
      ModeNodeJoined(c, users, SequentialCall, SequentialCallError(c));
      SeqCallsKeepJoin(c, m, HasBothUsers(c));
      assert WithSeqCalls(c, m).nodes[s] == m.nodes[s];
    }
  }

  /**
   * The "Seq Call k" chain below the node at `s`: one node per number, in list order, each
   * subtitled with its number, linked from the node before it and drawn one row below it.
   */
  predicate SeqCallChainAt(d: Diagram, s: nat, numbers: seq<string>)
    requires s + |numbers| < |d.nodes|
  {
    forall k :: 0 <= k < |numbers| ==>
      d.nodes[s + 1 + k].data == NodeData(SeqCallLabel(k + 1), Some(numbers[k]), None, None) &&
      d.nodes[s + 1 + k].position.y == d.nodes[s].position.y + (k + 1) * Offset &&
      Link(s + k, s + k + 1) in d.edges
  }

  /** The chain appended below the last node of `d`, which is drawn at the row the chain starts from. */
  lemma SeqCallsFormChain(c: ConfigurationData, d: Diagram)
    requires |d.nodes| >= if HasBothUsers(c) then 2 else 1
    requires d.nodes[|d.nodes| - 1].position.y == (if HasBothUsers(c) then |d.nodes| - 2 else |d.nodes| - 1) * Offset
    ensures SeqCallChainAt(WithSeqCalls(c, d), |d.nodes| - 1, c.sequentialCallNumbers)
  {
    var r := WithSeqCalls(c, d);
    var numbers := c.sequentialCallNumbers;
    var row := |d.nodes| - 1;
    var start := if HasBothUsers(c) then row - 1 else row;
    var children := SeqCallNodes(numbers, row, start, |numbers|);
    var links := SeqCallEdges(row, |numbers|);
    forall k | 0 <= k < |numbers|
      ensures r.nodes[row + 1 + k].data == NodeData(SeqCallLabel(k + 1), Some(numbers[k]), None, None) &&
        r.nodes[row + 1 + k].position.y == r.nodes[row].position.y + (k + 1) * Offset &&
        Link(row + k, row + k + 1) in r.edges
    {
      assert r.nodes[row] == d.nodes[row];
      assert r.nodes[row + 1 + k] == children[k];
      assert children[k].position.y == (start + k + 1) * Offset;
      assert r.edges[|d.edges| + k] == links[k];
    }
  }

  /**
   * With Sequential Call the mode shown (neither call forwarding, phone tree nor SIP), the diagram
   * ends with the Sequential Call node, which carries the "No Seq Call Numbers" error exactly when
   * the list is empty, followed by the chain of one "Seq Call k" node per number.
   */
  lemma SequentialCallChain(c: ConfigurationData)
    requires !c.isCallForwardingEnabled && !c.isPhoneTreeEnabled && !c.isSipEnabled && c.isSequentialCallEnabled
    ensures var d := Layout(c); var numbers := c.sequentialCallNumbers;
      |d.nodes| >= |numbers| + 2 &&
      d.nodes[|d.nodes| - 1 - |numbers|].data ==
        NodeData(SequentialCall, Some(Empty), if numbers == [] then Some(NoSeqCallNumbers) else None, None) &&
      SeqCallChainAt(d, |d.nodes| - 1 - |numbers|, numbers)
  {
    var users := Users(c, WithRecording(c, Root()));
    var mode := ModeNode(c, users, SequentialCall, SequentialCallError(c));
    var row := |users.nodes|;
    assert row >= if HasBothUsers(c) then 3 else 1;
    SeqCallsFormChain(c, mode);
    assert Layout(c).nodes[row] == mode.nodes[row];
  }

  /**
   * The diagram first shown: the Incoming Call node with the Assignees node below-left and the
   * Managers node below-right, the managers' edge labelled as allowed.
   */
  lemma DefaultDiagram()
    ensures Layout(DefaultConfiguration) ==
      Diagram([Node(0, Position(0, 0), NodeData(IncomingCall, None, None, None)),
               Node(1, Position(-Offset, Offset), NodeData(Assignees, Some("Manuk, Tejinder"), None, None)),
               Node(2, Position(Offset, Offset),
                    NodeData(Managers, Some("Manuk, Tejinder, Saxon"), None, Some(false)))],
              [Link(0, 1), Edge(0, 2, Some(Allowed))])
  {
    assert Join(DemoAssignees, Separator) == "Manuk, Tejinder";
    assert Join(DemoManagers, Separator) == "Manuk, Tejinder, Saxon";
  }

  // ---------------------------------------------------------------------------------------------
  // The diagram agrees with the routing type the select list shows.

  lemma ModesNotInSeqCallTitles(count: nat)
    ensures CallForwarding !in SeqCallTitles(count) && PhoneTree !in SeqCallTitles(count)
    ensures Sip !in SeqCallTitles(count) && SequentialCall !in SeqCallTitles(count)
  {
    forall k | 0 <= k < count
      ensures SeqCallTitles(count)[k] !in {CallForwarding, PhoneTree, Sip, SequentialCall}
    {
      assert SeqCallTitles(count)[k][3] == ' ';
    }
  }

  /**
   * When at most one routing mode is on, the diagram holds the node of a routing mode exactly
   * when `callRoutingType` names that mode.
   */
  lemma DiagramShowsRoutingType(c: ConfigurationData)
    requires c.ModesExclusive()
    ensures var t := Titles(Layout(c).nodes);
      (CallForwarding in t <==> c.CallRoutingType() == Some(CallForwardingName)) &&
      (PhoneTree in t <==> c.CallRoutingType() == Some(PhoneTreeName)) &&
      (Sip in t <==> c.CallRoutingType() == Some(SipName)) &&
      (SequentialCall in t <==> c.CallRoutingType() == Some(SequentialCallName))
  {
    LayoutTitles(c);
    var o := OpeningTitles(c);
    assert CallForwarding !in o && PhoneTree !in o && Sip !in o && SequentialCall !in o;
    if c.isCallForwardingEnabled {
      assert StageTitles(c) == o + [CallForwarding];
    } else if c.isPhoneTreeEnabled {
      assert StageTitles(c) == o + [PhoneTree];
    } else {
      var u := UserTitles(c);
      assert CallForwarding !in u && PhoneTree !in u && Sip !in u && SequentialCall !in u;
      var m := ModeTitles(c);
      if c.isSipEnabled {
        assert m == [Sip];
      } else if c.isSequentialCallEnabled {
        ModesNotInSeqCallTitles(|c.sequentialCallNumbers|);
        assert m == [SequentialCall] + SeqCallTitles(|c.sequentialCallNumbers|);
      }
      assert StageTitles(c) == o + (u + m);
    }
  }

}
