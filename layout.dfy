/**
 * The layout transform of app/welcome/welcome.tsx: a configuration becomes an ordered list of
 * diagram nodes on an OFFSET-spaced grid and a list of edges between them.
 */
module Diagrams {
  import opened Wrappers
  import opened Configurations

  /** Pixel spacing between grid columns and between grid rows. */
  const Offset: int := 150

  datatype Position = Position(x: int, y: int)

  /** The display payload of a node (`title` is the source's `label`); absent optional properties are `None`. */
  datatype NodeData = NodeData(title: string, subTitle: Option<string>, error: Option<string>, disabled: Option<bool>)

  /** A diagram vertex; the source writes the id as the decimal text of this number. */
  datatype Node = Node(id: nat, position: Position, data: NodeData)

  /** A directed connector between two node ids, with its optional text label. */
  datatype Edge = Edge(source: nat, target: nat, text: Option<string>)

  datatype Diagram = Diagram(nodes: seq<Node>, edges: seq<Edge>)

  /**
   * The row a node is drawn at: the override row when one is given and it is non-zero (JavaScript's
   * `overrideY || y`), otherwise the node's own row.
   */
  function DisplayRow(y: nat, overrideY: Option<int>): int
  {
    if overrideY.Some? && overrideY.value != 0 then overrideY.value else y
  }

  /** The node constructor (`title` is the source's `label`). */
  function NewNode(x: int, y: nat, title: string, subTitle: Option<string>, overrideY: Option<int>,
                   error: Option<string>, disabled: Option<bool>): Node
  {
    Node(y, Position(x * Offset, DisplayRow(y, overrideY) * Offset), NodeData(title, subTitle, error, disabled))
  }

  /**
   * What the node constructor builds: the id is the row `y`, never the override; the node is drawn
   * in column `x` and at the override row when one is given and it is non-zero, at row `y` otherwise;
   * the display data are the given ones.
   */
  lemma NewNodeLayout(x: int, y: nat, title: string, subTitle: Option<string>, overrideY: Option<int>,
                      error: Option<string>, disabled: Option<bool>)
    ensures var n := NewNode(x, y, title, subTitle, overrideY, error, disabled);
      n.id == y && n.position.x == x * Offset &&
      (overrideY.Some? && overrideY.value != 0 ==> n.position.y == overrideY.value * Offset) &&
      (overrideY == None || overrideY == Some(0) ==> n.position.y == y * Offset) &&
      n.data == NodeData(title, subTitle, error, disabled)
  {
  }

  /** An unlabelled edge. */
  function Link(source: nat, target: nat): Edge
  {
    Edge(source, target, None)
  }

  /** The names joined with a separator, as `Array.prototype.join` does. */
  function Join(parts: seq<string>, separator: string): string
  {
    if |parts| == 0 then ""
    else if |parts| == 1 then parts[0]
    else parts[0] + separator + Join(parts[1..], separator)
  }

  /** The number a text of decimal digits stands for, most significant digit first. */
  function DigitsValue(s: string): nat
  {
    if s == [] then 0
    else
      var d := s[|s| - 1] as int - '0' as int;
      DigitsValue(s[..|s| - 1]) * 10 + (if 0 <= d then d else 0)
  }

  /** The decimal text of a natural number, as a template literal writes it: one or more digits. */
  function Decimal(n: nat): (s: string)
    ensures |s| >= 1 && forall i :: 0 <= i < |s| ==> '0' <= s[i] <= '9'
  {
    var digit := [(('0' as int) + n % 10) as char];
    if n < 10 then digit else Decimal(n / 10) + digit
  }

  /** The decimal text reads back as the number it was made from, with a single digit exactly below ten. */
  lemma {:induction false} DecimalReadsBack(n: nat)
    ensures DigitsValue(Decimal(n)) == n
    ensures n < 10 <==> |Decimal(n)| == 1
  {
    if n >= 10 {
      DecimalReadsBack(n / 10);
      var rest := Decimal(n / 10);
      assert Decimal(n)[..|Decimal(n)| - 1] == rest;
    }
  }

  // The node titles and fixed texts of the diagram.
  const IncomingCall: string := "Incoming Call"
  const CallRecordingMessage: string := "Call Recording Message"
  const CallForwarding: string := "Call Forwarding"
  const PhoneTree: string := "Phone Tree"
  const Assignees: string := "Assignees"
  const Managers: string := "Managers"
  const Sip: string := "SIP"
  const SequentialCall: string := "Sequential Call"
  const NoSeqCallNumbers: string := "No Seq Call Numbers"
  const Separator: string := ", "
  const Empty: string := ""
  const Allowed: string := ""
  const Blocked: string := "X"

  /** The title of the k-th sequential-call node: "Seq Call " followed by the decimal digits of k. */
  function SeqCallLabel(k: nat): string
  {
    "Seq Call " + Decimal(k)
  }

  /** A "Seq Call" title names its number: after the fixed prefix come digits that read back as k. */
  lemma SeqCallLabelNamesNumber(k: nat)
    ensures |SeqCallLabel(k)| > 9 && SeqCallLabel(k)[..9] == "Seq Call "
    ensures DigitsValue(SeqCallLabel(k)[9..]) == k
  {
    DecimalReadsBack(k);
    assert SeqCallLabel(k)[9..] == Decimal(k);
  }

  // ---------------------------------------------------------------------------------------------
  // The layout, stage by stage, as a value: every stage appends its nodes, and the next id is
  // always the number of nodes already laid out.

  /** The diagram before any stage: the "Incoming Call" node alone. */
  function Root(): Diagram
  {
    Diagram([NewNode(0, 0, IncomingCall, None, None, None, None)], [])
  }

  /** A node in the centre column one row below the last node, linked from it. */
  function Below(d: Diagram, title: string, subTitle: Option<string>): (r: Diagram)
    requires d.nodes != []
    ensures |r.nodes| == |d.nodes| + 1
  {
    var row := |d.nodes|;
    Diagram(d.nodes + [NewNode(0, row, title, subTitle, None, None, None)], d.edges + [Link(row - 1, row)])
  }

  /** The call-recording message, when recording is on. */
  function WithRecording(c: ConfigurationData, d: Diagram): (r: Diagram)
    requires d.nodes != []
    ensures |r.nodes| == |d.nodes| + if c.isCallRecordingEnabled then 1 else 0
  {
    if c.isCallRecordingEnabled then Below(d, CallRecordingMessage, None) else d
  }

  /** The Assignees node, when there are assignees: one column left when managers follow. */
  function WithAssignees(c: ConfigurationData, d: Diagram): (r: Diagram)
    requires d.nodes != []
    ensures |r.nodes| == |d.nodes| + if c.HasAssignees() then 1 else 0
  {
    if c.HasAssignees() then
      var row := |d.nodes|;
      Diagram(d.nodes + [NewNode(if c.HasManagers() then -1 else 0, row, Assignees,
                                 Some(Join(c.assignees, Separator)), None, None, None)],
              d.edges + [Link(row - 1, row)])
    else d
  }

  /**
   * The Managers node, when there are managers. After an Assignees node it sits one column right
   * on the assignees' row, and its edge leaves from the node before the assignees; the edge is
   * marked "X" and the node dimmed when managers may not take calls.
   */
  function WithManagers(c: ConfigurationData, d: Diagram): (r: Diagram)
    requires |d.nodes| >= if c.HasAssignees() then 2 else 1
    ensures |r.nodes| == |d.nodes| + if c.HasManagers() then 1 else 0
  {
    if c.HasManagers() then
      var row := |d.nodes|;
      var from := if c.HasAssignees() then row - 2 else row - 1;
      Diagram(d.nodes + [NewNode(if c.HasAssignees() then 1 else 0, row, Managers,
                                 Some(Join(c.managers, Separator)),
                                 Some(if c.HasAssignees() then row - 1 else row),
                                 None, Some(!c.areManagersAllowedToGetCall))],
              d.edges + [Edge(from, row, Some(if c.areManagersAllowedToGetCall then Allowed else Blocked))])
    else d
  }

  /** Both user nodes are present, so a following SIP or Sequential Call node has two parents. */
  predicate HasBothUsers(c: ConfigurationData)
  {
    c.HasManagers() && c.HasAssignees()
  }

  /**
   * The SIP or Sequential Call node after the user stage: one row below the shared row of both
   * user nodes with an edge from each, or one row below the last node with one edge.
   */
  function ModeNode(c: ConfigurationData, d: Diagram, title: string, error: Option<string>): (r: Diagram)
    requires |d.nodes| >= if HasBothUsers(c) then 2 else 1
    ensures |r.nodes| == |d.nodes| + 1
  {
    var row := |d.nodes|;
    var both := HasBothUsers(c);
    Diagram(d.nodes + [NewNode(0, row, title, Some(Empty), Some(if both then row - 1 else row), error, None)],
            d.edges + (if both then [Link(row - 2, row), Link(row - 1, row)] else [Link(row - 1, row)]))
  }

  /** The first `count` "Seq Call" nodes below the Sequential Call node at id `row`, drawn from row `start` on. */
  function SeqCallNodes(numbers: seq<string>, row: nat, start: nat, count: nat): (s: seq<Node>)
    requires count <= |numbers|
    ensures |s| == count
  {
    seq(count, k requires 0 <= k < count =>
      NewNode(0, row + k + 1, SeqCallLabel(k + 1), Some(numbers[k]), Some(start + k + 1), None, None))
  }

  /** The chain of edges through the first `count` "Seq Call" nodes below the node at id `row`. */
  function SeqCallEdges(row: nat, count: nat): (s: seq<Edge>)
    ensures |s| == count
  {
    seq(count, k requires 0 <= k < count => Link(row + k, row + k + 1))
  }

  /** The Sequential Call node's error text: set only when there are no numbers. */
  function SequentialCallError(c: ConfigurationData): Option<string>
  {
    if |c.sequentialCallNumbers| > 0 then None else Some(NoSeqCallNumbers)
  }

  /** The "Seq Call" chain below the Sequential Call node, which is the last node of `d`. */
  function WithSeqCalls(c: ConfigurationData, d: Diagram): (r: Diagram)
    requires |d.nodes| >= if HasBothUsers(c) then 2 else 1
    ensures |r.nodes| == |d.nodes| + |c.sequentialCallNumbers|
  {
    var row := |d.nodes| - 1;
    var start := if HasBothUsers(c) then row - 1 else row;
    var numbers := c.sequentialCallNumbers;
    Diagram(d.nodes + SeqCallNodes(numbers, row, start, |numbers|), d.edges + SeqCallEdges(row, |numbers|))
  }

  /** The user stages: assignees, then managers. */
  function Users(c: ConfigurationData, d: Diagram): (r: Diagram)
    requires d.nodes != []
    ensures |r.nodes| == |d.nodes| + (if c.HasAssignees() then 1 else 0) + (if c.HasManagers() then 1 else 0)
  {
    WithManagers(c, WithAssignees(c, d))
  }

  /** The stages after the users: a SIP node, or a Sequential Call node and its chain, or nothing. */
  function ModeStage(c: ConfigurationData, users: Diagram): (r: Diagram)
    requires |users.nodes| >= if HasBothUsers(c) then 2 else 1
    ensures |r.nodes| >= |users.nodes|
  {
    if c.isSipEnabled then ModeNode(c, users, Sip, None)
    else if c.isSequentialCallEnabled then WithSeqCalls(c, ModeNode(c, users, SequentialCall, SequentialCallError(c)))
    else users
  }

  /** The whole diagram of a configuration: the reference definition of the transform. */
  function Layout(c: ConfigurationData): Diagram
  {
    var opening := WithRecording(c, Root());
    if c.isCallForwardingEnabled then Below(opening, CallForwarding, Some(c.forwardTo))
    else if c.isPhoneTreeEnabled then Below(opening, PhoneTree, None)
    else ModeStage(c, Users(c, opening))
  }

  // ---------------------------------------------------------------------------------------------
  // The transform as the source runs it: a row counter, pushes onto two lists, early returns.

  /**
   * Lays out a configuration, or nothing for a missing one. It has no `modifies` clause, so the
   * configuration is left exactly as it was.
   */
  method ConvertToNodesAndEdges(configuration: Configuration?) returns (nodes: seq<Node>, edges: seq<Edge>)
    ensures configuration == null ==> nodes == [] && edges == []
    ensures configuration != null ==> Diagram(nodes, edges) == Layout(configuration.Snapshot())
  {
    if configuration == null {
      return [], [];
    }
    var c := configuration.Snapshot();
    nodes, edges := [], [];
    var index: nat := 0;
    var xIndex := 0;

    nodes := nodes + [NewNode(xIndex, index, IncomingCall, None, None, None, None)];
    assert Diagram(nodes, edges) == Root();

    if c.isCallRecordingEnabled {
      index := index + 1;
      nodes := nodes + [NewNode(xIndex, index, CallRecordingMessage, None, None, None, None)];
      edges := edges + [Link(index - 1, index)];
    }
    ghost var opening := WithRecording(c, Root());
    assert Diagram(nodes, edges) == opening && index + 1 == |nodes|;

    if c.isCallForwardingEnabled {
      index := index + 1;
      nodes := nodes + [NewNode(xIndex, index, CallForwarding, Some(c.forwardTo), None, None, None)];
      edges := edges + [Link(index - 1, index)];
      assert Diagram(nodes, edges) == Below(opening, CallForwarding, Some(c.forwardTo)) == Layout(c);
      return;
    }

    if c.isPhoneTreeEnabled {
      index := index + 1;
      nodes := nodes + [NewNode(xIndex, index, PhoneTree, None, None, None, None)];
      edges := edges + [Link(index - 1, index)];
      assert Diagram(nodes, edges) == Below(opening, PhoneTree, None) == Layout(c);
      return;
    }

    nodes, edges, index := PushUsers(c, nodes, edges, index);
    assert Diagram(nodes, edges) == Users(c, opening);
    nodes, edges := PushModeStage(c, nodes, edges, index);
  }

  /**
   * The SIP stage, which ends the transform, and otherwise the Sequential Call stage: the mode
   * node below the user nodes and, for Sequential Call, one node per number below it.
   */
  method PushModeStage(c: ConfigurationData, nodes0: seq<Node>, edges0: seq<Edge>, index0: nat)
    returns (nodes: seq<Node>, edges: seq<Edge>)
    requires index0 + 1 == |nodes0| && |nodes0| >= if HasBothUsers(c) then 2 else 1
    ensures Diagram(nodes, edges) == ModeStage(c, Diagram(nodes0, edges0))
  {
    nodes, edges := nodes0, edges0;
    var index := index0;
    if c.isSipEnabled {
      index := index + 1;
      nodes, edges := PushModeNode(nodes, edges, index, HasBothUsers(c), Sip, None);
      return;
    }

    if c.isSequentialCallEnabled {
      index := index + 1;
      var hasBothUsers := c.HasManagers() && c.HasAssignees();
      var numbers := c.sequentialCallNumbers;
      nodes, edges := PushModeNode(nodes, edges, index, hasBothUsers, SequentialCall,
                                   if |numbers| > 0 then None else Some(NoSeqCallNumbers));
      ghost var sequential := Diagram(nodes, edges);
      assert sequential == ModeNode(c, Diagram(nodes0, edges0), SequentialCall, SequentialCallError(c));
      var startingIndex := if hasBothUsers then index - 1 else index;
      nodes, edges := PushSeqCalls(nodes, edges, numbers, index, startingIndex);
      index := index + |numbers|;
      assert Diagram(nodes, edges) == WithSeqCalls(c, sequential);
    }
  }

  /**
   * The assignee and manager stages: an Assignees node when there are assignees, then a Managers
   * node when there are managers; `index` is the id of the last node and moves with each push.
   */
  method PushUsers(c: ConfigurationData, nodes0: seq<Node>, edges0: seq<Edge>, index0: nat)
    returns (nodes: seq<Node>, edges: seq<Edge>, index: nat)
    requires index0 + 1 == |nodes0|
    ensures Diagram(nodes, edges) == Users(c, Diagram(nodes0, edges0)) && index + 1 == |nodes|
  {
    nodes, edges, index := nodes0, edges0, index0;
    var xIndex := 0;
    var hasAssignees, hasManagers := c.HasAssignees(), c.HasManagers();
    if hasAssignees {
      index := index + 1;
      nodes := nodes + [NewNode(if hasManagers then xIndex - 1 else xIndex, index, Assignees,
                                Some(Join(c.assignees, Separator)), None, None, None)];
      edges := edges + [Link(index - 1, index)];
    }
    assert Diagram(nodes, edges) == WithAssignees(c, Diagram(nodes0, edges0));

    if hasManagers {
      index := index + 1;
      var from := index - (if hasAssignees then 2 else 1);
      nodes := nodes + [NewNode(if hasAssignees then xIndex + 1 else xIndex, index, Managers,
                                Some(Join(c.managers, Separator)),
                                Some(if hasAssignees then index - 1 else index),
                                None, Some(!c.areManagersAllowedToGetCall))];
      edges := edges + [Edge(from, index, Some(if c.areManagersAllowedToGetCall then Allowed else Blocked))];
    }
  }

  /**
   * The step shared by the SIP and Sequential Call stages: the node at id `index`, drawn on the
   * row above it when both user nodes are present, with an edge from each user node in that case
   * and from the node before it otherwise.
   */
  method PushModeNode(nodes0: seq<Node>, edges0: seq<Edge>, index: nat, hasBothUsers: bool,
                      title: string, error: Option<string>)
    returns (nodes: seq<Node>, edges: seq<Edge>)
    requires index >= if hasBothUsers then 2 else 1
    ensures nodes == nodes0 + [NewNode(0, index, title, Some(Empty), Some(if hasBothUsers then index - 1 else index), error, None)]
    ensures edges == edges0 + if hasBothUsers then [Link(index - 2, index), Link(index - 1, index)] else [Link(index - 1, index)]
  {
    var xIndex := 0;
    nodes := nodes0 + [NewNode(xIndex, index, title, Some(Empty), Some(if hasBothUsers then index - 1 else index), error, None)];
    edges := edges0;
    if hasBothUsers {
      edges := edges + [Link(index - 2, index)];
      edges := edges + [Link(index - 1, index)];
    } else {
      edges := edges + [Link(index - 1, index)];
    }
  }

  /**
   * The `forEach` over the sequential-call numbers: the i-th number becomes node `row + i + 1`,
   * drawn at row `start + i + 1` and linked from the node before it.
   */
  method PushSeqCalls(nodes0: seq<Node>, edges0: seq<Edge>, numbers: seq<string>, row: nat, start: nat)
    returns (nodes: seq<Node>, edges: seq<Edge>)
    ensures nodes == nodes0 + SeqCallNodes(numbers, row, start, |numbers|)
    ensures edges == edges0 + SeqCallEdges(row, |numbers|)
  {
    nodes, edges := nodes0, edges0;
    var xIndex := 0;
    var i := 0;
    while i < |numbers|
      invariant 0 <= i <= |numbers|
      invariant nodes == nodes0 + SeqCallNodes(numbers, row, start, i)
      invariant edges == edges0 + SeqCallEdges(row, i)
    {
      var seqIndex := row + i + 1;
      nodes := nodes + [NewNode(xIndex, seqIndex, SeqCallLabel(i + 1), Some(numbers[i]), Some(start + i + 1), None, None)];
      edges := edges + [Link(seqIndex - 1, seqIndex)];
      i := i + 1;
    }
  }
}
