# Call-routing configurator: configuration state machine and flow-diagram layout

The welcome screen of this app edits an incoming-call routing configuration and draws it as a flow
diagram. This project models the two parts of that screen that carry logic:

- **The `Configuration` object** (`configuration.dfy`, module `Configurations`). It holds ten
  fields:
  - two name lists: assignees and managers;
  - four routing-mode flags: phone tree, call forwarding, sequential call and SIP;
  - two independent flags: managers may take calls, and call recording;
  - the forwarding number;
  - the list of sequential-call numbers.

  Each mutator of the source is a method of the class `Configuration` that updates the fields in
  place. Each method is proved to move the object's `Snapshot()` exactly as the matching
  value-level function of `ConfigurationData` says. Those functions carry the real contracts:
  - every toggle keeps at most one routing mode on when at most one was on before;
  - switching a mode on leaves it as the only mode;
  - the toggles' side effects;
  - the number list stays a prefix of the three-number demo pool;
  - the getters `hasAssignees`, `hasManagers` and `callRoutingType`.

  `Operation`, `Apply` and `ApplyAll` replay a sequence of user actions.
  `routing_properties.dfy` proves what such sequences do.
- **The layout transform** (`layout.dfy`, module `Diagrams`). `ConvertToNodesAndEdges` is the
  source's `convertToNodesAndEdges` written imperatively:
  - a row counter;
  - pushes onto a node list and an edge list;
  - early returns for call forwarding, phone tree and SIP;
  - a loop over the sequential-call numbers.

  It is proved equal to `Layout`, a stage-by-stage reference definition. `NewNode` is the `Node`
  constructor: the id is the row `y`, and the drawn row is the override when it is non-zero.
  `layout_properties.dfy` proves what every layout looks like:
  - ids in creation order, and forward edges that descend exactly one grid row;
  - three columns;
  - the edge count;
  - the titles in stage order;
  - the early-return chains;
  - the Managers marks;
  - the opening nodes and the recording edge;
  - the user nodes and the Sequential Call chain, with the edges into the user and mode nodes;
  - agreement between the diagram and the reported routing type.

Node ids and edge endpoints are natural numbers; the source writes them as their decimal text. A
node's display label is the field `title`, and an edge's label is `text`.

## Model

| member | source | states |
|---|---|---|
| Configurations.ConfigurationData.HasAssignees | app/welcome/welcome.tsx:304-306 | true exactly when the assignee list is non-empty |
| Configurations.ConfigurationData.HasManagers | app/welcome/welcome.tsx:308-310 | true exactly when the manager list is non-empty |
| Configurations.ConfigurationData.CallRoutingType | app/welcome/welcome.tsx:312-325 | the name of the first flag set in the order phone tree, call forwarding, sequential call, SIP: each name is reported exactly when its flag is set and no earlier flag is; undefined exactly when no mode flag is set; under mode exclusivity each name is reported exactly when its flag is set |
| Configurations.ConfigurationData.RemoveAssignees | app/welcome/welcome.tsx:327-329 | afterwards there are no assignees, and no other field changes |
| Configurations.ConfigurationData.RemoveManagers | app/welcome/welcome.tsx:331-333 | afterwards there are no managers, and no other field changes |
| Configurations.ConfigurationData.AddAssignees | app/welcome/welcome.tsx:335-339 | afterwards there are assignees; an empty list becomes the demo list; a non-empty one leaves the whole configuration unchanged |
| Configurations.ConfigurationData.AddManagers | app/welcome/welcome.tsx:340-344 | afterwards there are managers; an empty list becomes the demo list; a non-empty one leaves the whole configuration unchanged |
| Configurations.ConfigurationData.ToggleManagersAllowedToGetCall | app/welcome/welcome.tsx:346-348 | flips that flag and changes nothing else |
| Configurations.ConfigurationData.ToggleCallRecordingEnabled | app/welcome/welcome.tsx:419-421 | flips that flag and changes nothing else |
| Configurations.ConfigurationData.TogglePhoneTreeEnabled | app/welcome/welcome.tsx:350-357 | flips phone tree; switched on, it is the only mode on; switched off, only its own flag changed; the non-routing fields never change; mode exclusivity is preserved |
| Configurations.ConfigurationData.ToggleSipEnabled | app/welcome/welcome.tsx:359-366 | flips SIP; switched on, it is the only mode on; switched off, only its own flag changed; the non-routing fields never change; mode exclusivity is preserved |
| Configurations.ConfigurationData.ToggleCallForwardingEnabled | app/welcome/welcome.tsx:368-376 | flips call forwarding; switched on, it is the only mode on and the forwarding number is the demo number; switched off, only its own flag changed; the other non-routing fields never change; mode exclusivity is preserved |
| Configurations.ConfigurationData.ToggleSequentialCallEnabled | app/welcome/welcome.tsx:378-386 | flips sequential call; switched on, it is the only mode on; in both directions the number list becomes the first pool number; the other non-routing fields never change; mode exclusivity is preserved |
| Configurations.ConfigurationData.AddSequentialCallNumber | app/welcome/welcome.tsx:388-398 | when sequential call is on and fewer than three numbers are present, appends the pool entry at the current length; otherwise nothing changes; only the number list ever changes; a pool prefix stays a pool prefix |
| Configurations.ConfigurationData.RemoveSequentialCallNumber | app/welcome/welcome.tsx:400-410 | when sequential call is on and the list is non-empty, drops exactly the last number; otherwise nothing changes; only the number list ever changes; a pool prefix stays a pool prefix |
| Configurations.ConfigurationData.RemoveCallRouting | app/welcome/welcome.tsx:412-417 | afterwards no mode is on and the routing type is undefined; nothing but the four mode flags changes |
| Configurations.Apply | app/welcome/welcome.tsx:327-421 | every single operation preserves mode exclusivity and the pool-prefix property of the numbers |
| Configurations.ApplyAll | app/welcome/welcome.tsx:327-421 | any sequence of operations preserves mode exclusivity and the pool-prefix property |
| Configurations.SelectOperation | app/welcome/welcome.tsx:215-233 | each of the four mode names selects exactly its own toggle; every other value, and only those, selects removing call routing |
| Configurations.Configuration.constructor | app/welcome/welcome.tsx:291-302 | the new object's ten fields are those of the given data |
| Configurations.Configuration.RemoveAssignees | app/welcome/welcome.tsx:327-329 | the fields move exactly as `ConfigurationData.RemoveAssignees` says |
| Configurations.Configuration.RemoveManagers | app/welcome/welcome.tsx:331-333 | the fields move exactly as `ConfigurationData.RemoveManagers` says |
| Configurations.Configuration.AddAssignees | app/welcome/welcome.tsx:335-339 | the fields move exactly as `ConfigurationData.AddAssignees` says |
| Configurations.Configuration.AddManagers | app/welcome/welcome.tsx:340-344 | the fields move exactly as `ConfigurationData.AddManagers` says |
| Configurations.Configuration.ToggleManagersAllowedToGetCall | app/welcome/welcome.tsx:346-348 | the fields move exactly as the value-level toggle says |
| Configurations.Configuration.TogglePhoneTreeEnabled | app/welcome/welcome.tsx:350-357 | the fields move exactly as the value-level toggle says, and an object with at most one mode on keeps at most one on |
| Configurations.Configuration.ToggleSipEnabled | app/welcome/welcome.tsx:359-366 | the fields move exactly as the value-level toggle says, and an object with at most one mode on keeps at most one on |
| Configurations.Configuration.ToggleCallForwardingEnabled | app/welcome/welcome.tsx:368-376 | the fields move exactly as the value-level toggle says, and an object with at most one mode on keeps at most one on |
| Configurations.Configuration.ToggleSequentialCallEnabled | app/welcome/welcome.tsx:378-386 | the fields move exactly as the value-level toggle says, and an object with at most one mode on keeps at most one on |
| Configurations.Configuration.AddSequentialCallNumber | app/welcome/welcome.tsx:388-398 | the fields move exactly as the value-level operation says |
| Configurations.Configuration.RemoveSequentialCallNumber | app/welcome/welcome.tsx:400-410 | the fields move exactly as the value-level operation says |
| Configurations.Configuration.RemoveCallRouting | app/welcome/welcome.tsx:412-417 | the fields move exactly as the value-level operation says, and afterwards at most one mode is on |
| Configurations.Configuration.ToggleCallRecordingEnabled | app/welcome/welcome.tsx:419-421 | the fields move exactly as the value-level toggle says |
| RoutingProperties.RepeatedAdd | app/welcome/welcome.tsx:388-398 | in sequential-call mode, k presses of "add number" on a pool prefix of length n give the pool prefix of length min(n + k, 3); nothing else changes |
| RoutingProperties.AddFiveTimesFromEmpty | app/welcome/welcome.tsx:100-104 | five presses from an empty list in sequential-call mode give exactly the three pool numbers |
| RoutingProperties.RepeatedRemove | app/welcome/welcome.tsx:400-410 | in sequential-call mode, k presses of "remove number" keep the first max(n - k, 0) numbers; nothing else changes |
| RoutingProperties.NumberEditsNeedSequentialMode | app/welcome/welcome.tsx:388-410 | while sequential call is off, any run of number additions and removals leaves the configuration unchanged |
| RoutingProperties.SelectSetsRoutingType | app/welcome/welcome.tsx:215-233 | from a configuration with at most one mode on, choosing a different value in the select list leaves at most one mode on; the routing type becomes the chosen mode name, or undefined for any other value |
| RoutingProperties.ToggleTwiceRestores | app/welcome/welcome.tsx:346-348 | toggling "managers may take calls" twice, or call recording twice, restores the configuration |
| RoutingProperties.ReachableConfigurationsAreConsistent | app/welcome/welcome.tsx:108-119 | every sequence of operations from the initial configuration ends with at most one mode on and the numbers a pool prefix |
| Diagrams.NewNodeLayout | app/welcome/welcome.tsx:439-457 | the `Node` constructor: the id is the row `y`, never the override; x is the column times OFFSET; the drawn row is the override when it is given and non-zero, and `y` otherwise; the display data are the given ones (the layout lemmas `LayoutWellFormed`, `UserNodes` and `SequentialCallChain` rely on this) |
| Diagrams.DecimalReadsBack | app/welcome/welcome.tsx:448 | the decimal text used for ids and "Seq Call" titles reads back as the number it was made from, and is a single digit exactly for numbers below ten |
| Diagrams.SeqCallLabelNamesNumber | app/welcome/welcome.tsx:628 | the title of the k-th sequential-call node is "Seq Call " followed by digits that read back as k |
| Diagrams.ConvertToNodesAndEdges | app/welcome/welcome.tsx:460-645 | a missing configuration gives empty node and edge lists; otherwise the pushed lists are exactly `Layout` of the configuration's fields, and the configuration is not modified |
| Diagrams.PushUsers | app/welcome/welcome.tsx:512-550 | the Assignees and Managers pushes append exactly the user stage of `Layout`, and the counter stays the last node's id |
| Diagrams.PushModeStage | app/welcome/welcome.tsx:552-642 | the SIP branch with its early return, or else the Sequential Call branch, appends exactly the mode stage of `Layout` |
| Diagrams.PushModeNode | app/welcome/welcome.tsx:556-579 | the push shared by the SIP node and, at lines 587-620, the Sequential Call node: appends one node with id `index` and an empty subtitle, drawn one row up when both user lists are present; its edges come from `index - 2` and `index - 1` in that case, and from `index - 1` otherwise |
| Diagrams.PushSeqCalls | app/welcome/welcome.tsx:621-639 | the `forEach` over the numbers appends exactly one "Seq Call" node and one edge per number, in order |
| LayoutProperties.IdsDistinct | app/welcome/welcome.tsx:448 | no two nodes of any diagram share an id, including the Assignees and Managers nodes, which are drawn on the same row when both are present |
| LayoutProperties.OpeningEdges | app/welcome/welcome.tsx:470-481 | every diagram starts with the Incoming Call node at id 0; with recording on, the Call Recording Message node follows at id 1 and the first edge links it from the Incoming Call node, whichever stages come after |
| LayoutProperties.LayoutWellFormed | app/welcome/welcome.tsx:460-645 | in every layout the k-th node has id k; every edge goes from a smaller id to a larger one within the list; every edge ends exactly one grid row (OFFSET) below its start; every x position is -OFFSET, 0 or OFFSET |
| LayoutProperties.LayoutEdgeCount | app/welcome/welcome.tsx:552-620 | there is one edge per node except the first, plus one more exactly when a SIP or Sequential Call node follows both an Assignees and a Managers node |
| LayoutProperties.LayoutTitles | app/welcome/welcome.tsx:471-642 | the node titles, in order: Incoming Call, Call Recording Message when recording is on, then Call Forwarding alone, or else Phone Tree alone, or else Assignees and Managers (each when present) followed by SIP, or Sequential Call and "Seq Call 1..n", or nothing |
| LayoutProperties.EarlyReturnsAreSimpleChains | app/welcome/welcome.tsx:484-510 | with call forwarding or phone tree on, the diagram is a plain chain of 2 or 3 nodes (3 with recording), ending in the Call Forwarding node subtitled with the forwarding number, or else in the Phone Tree node |
| LayoutProperties.LayoutMarksManagers | app/welcome/welcome.tsx:530-550 | any Managers node is marked disabled exactly when managers may not take calls; the only labelled edges are the ones into the Managers node, labelled "X" when managers may not take calls and "" otherwise (that such an edge exists is `UserEdges`) |
| LayoutProperties.UserNodes | app/welcome/welcome.tsx:512-550 | without call forwarding or phone tree, the Assignees node and then the Managers node (each when present) follow the opening nodes with the next ids; both are drawn on the row below the opening nodes, the assignees one column left when managers follow and the managers one column right when assignees precede; each is subtitled with its names joined by ", " |
| LayoutProperties.UserEdges | app/welcome/welcome.tsx:522-549 | without call forwarding or phone tree, the Assignees node has an unlabelled edge from the last opening node; the Managers node has an edge from that same node (two ids back when assignees precede), labelled "X" when managers may not take calls and "" otherwise |
| LayoutProperties.ModeNodeEdges | app/welcome/welcome.tsx:552-620 | without call forwarding or phone tree, the SIP or Sequential Call node takes the next id after the opening and user nodes; its incoming edges are exactly unlabelled ones from the two nodes before it when both user nodes are present, and otherwise exactly one from the node before it |
| LayoutProperties.SequentialCallChain | app/welcome/welcome.tsx:583-642 | in sequential-call mode the Sequential Call node is followed by the last n nodes; it has the "No Seq Call Numbers" error exactly when the list is empty; the i-th following node is "Seq Call i" subtitled with the i-th number, drawn i rows below the Sequential Call node and linked from the node before it |
| LayoutProperties.DiagramShowsRoutingType | app/welcome/welcome.tsx:312-325 | under mode exclusivity, the diagram contains the Call Forwarding, Phone Tree, SIP or Sequential Call node exactly when `callRoutingType` names that mode |
| LayoutProperties.DefaultDiagram | app/welcome/welcome.tsx:108-119 | the initial configuration is drawn as Incoming Call, with Assignees below-left and Managers below-right, and the managers' edge labelled "" |

## Left out

- Rendering is not modelled: `CustomNode`, `Welcome`, the `ConfigurationForm` markup, React state and hooks, `fitView` and CSS. The form's select-list dispatch is modelled as `SelectOperation`; the other form handlers each call one modelled operation.
- Array aliasing is not modelled. In the source, `push` and `pop` change the number array in place, and that array can be shared with the React state snapshot. `addAssignees` and `addManagers` store a reference to the demo arrays. Here every list is a value sequence held in a class field and reassigned.
- The `Array.isArray` and `Number.isInteger` guards of the number operations are always true for the declared types, so they are not modelled.
- The `nodesAndEdges` getter is not a method of the class: it only delegates to the transform, and `Diagrams.ConvertToNodesAndEdges` takes the object directly.
- The textual ids of nodes and edges are modelled as natural numbers: `${y}` for a node, and `e<source>-<target>` for an edge.
- The edges' constant `animated: true` and the nodes' constant `type: "custom"` rendering hints are not modelled.
- Absent optional node properties are `None`, so `undefined` and a missing property are not distinguished.
- `NewNode` models `overrideY || y` as "the override when present and non-zero". A zero override falls back to `y`, as it does in JavaScript. The transform never passes 0.
- `Diagrams.PushUsers`, `Diagrams.PushModeStage`, `Diagrams.PushModeNode` and `Diagrams.PushSeqCalls` split the body of `convertToNodesAndEdges` into its stages. Each keeps the source's statements, so the proof of each stage stays small. The SIP early return happens inside `PushModeStage`.
- `toggleCallForwardingEnabled` writes the number as a literal. It is the same text as `DEMO_CALL_FORWARDING_NUMBER`, so the model uses the constant `DemoCallForwardingNumber`.
- The external flow-diagram library, with its node positions, handles and viewport, is not part of this model.
