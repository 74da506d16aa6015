/**
 * The call-routing configuration of app/welcome/welcome.tsx: the demo data tables, the plain
 * snapshot type the `Configuration` class is built from, the value-level meaning of every
 * operation, and the class itself, whose methods update its fields in place.
 */
module Configurations {
  import opened Wrappers

  // Demo data used as reset values by the operations.
  const DemoAssignees: seq<string> := ["Manuk", "Tejinder"]
  const DemoManagers: seq<string> := ["Manuk", "Tejinder", "Saxon"]
  const DemoCallForwardingNumber: string := "+918851641823"
  const DemoSeqCallNumbers: seq<string> := ["+918851641813", "+918851641853", "+918851641822"]

  // The names `callRoutingType` reports and the routing select list offers.
  const PhoneTreeName: string := "phone-tree"
  const CallForwardingName: string := "call-forwarding"
  const SequentialCallName: string := "sequential-call"
  const SipName: string := "sip"

  /** One snapshot of the ten configuration fields (the plain data the class is constructed from). */
  datatype ConfigurationData = ConfigurationData(
    assignees: seq<string>,
    managers: seq<string>,
    areManagersAllowedToGetCall: bool,
    isPhoneTreeEnabled: bool,
    isCallForwardingEnabled: bool,
    isCallRecordingEnabled: bool,
    isSequentialCallEnabled: bool,
    isSipEnabled: bool,
    sequentialCallNumbers: seq<string>,
    forwardTo: string)
  {
    function HasAssignees(): (b: bool)
      ensures b <==> assignees != []
    {
      |assignees| > 0
    }

    function HasManagers(): (b: bool)
      ensures b <==> managers != []
    {
      |managers| > 0
    }

    /** How many of the four routing-mode flags are set. */
    function ModeCount(): nat
    {
      (if isPhoneTreeEnabled then 1 else 0) + (if isCallForwardingEnabled then 1 else 0) +
      (if isSequentialCallEnabled then 1 else 0) + (if isSipEnabled then 1 else 0)
    }

    /** The invariant the toggles maintain: at most one routing mode is on. */
    predicate ModesExclusive()
    {
      ModeCount() <= 1
    }

    /** The sequential-call numbers are the first few entries of the demo pool, in order. */
    predicate NumbersFromPool()
    {
      |sequentialCallNumbers| <= |DemoSeqCallNumbers| &&
      sequentialCallNumbers == DemoSeqCallNumbers[..|sequentialCallNumbers|]
    }

    /** Every field other than the four routing-mode flags agrees with `other`. */
    predicate SameApartFromRouting(other: ConfigurationData)
    {
      assignees == other.assignees && managers == other.managers &&
      areManagersAllowedToGetCall == other.areManagersAllowedToGetCall &&
      isCallRecordingEnabled == other.isCallRecordingEnabled &&
      sequentialCallNumbers == other.sequentialCallNumbers && forwardTo == other.forwardTo
    }

    /**
     * The name of the first routing flag that is set, checked in the order phone tree, call
     * forwarding, sequential call, SIP; `None` stands for `undefined`.
     */
    function CallRoutingType(): (r: Option<string>)
      ensures r == None <==> ModeCount() == 0
      ensures r == Some(PhoneTreeName) <==> isPhoneTreeEnabled
      ensures r == Some(CallForwardingName) <==> !isPhoneTreeEnabled && isCallForwardingEnabled
      ensures r == Some(SequentialCallName) <==>
        !isPhoneTreeEnabled && !isCallForwardingEnabled && isSequentialCallEnabled
      ensures r == Some(SipName) <==>
        !isPhoneTreeEnabled && !isCallForwardingEnabled && !isSequentialCallEnabled && isSipEnabled
      ensures r.Some? ==> r.value in {PhoneTreeName, CallForwardingName, SequentialCallName, SipName}
      ensures ModesExclusive() ==>
        (r == Some(CallForwardingName) <==> isCallForwardingEnabled) &&
        (r == Some(SequentialCallName) <==> isSequentialCallEnabled) &&
        (r == Some(SipName) <==> isSipEnabled)
    {
      if isPhoneTreeEnabled then Some(PhoneTreeName)
      else if isCallForwardingEnabled then Some(CallForwardingName)
      else if isSequentialCallEnabled then Some(SequentialCallName)
      else if isSipEnabled then Some(SipName)
      else None
    }

    function RemoveAssignees(): (r: ConfigurationData)
      ensures !r.HasAssignees()
      ensures r.(assignees := assignees) == this
    {
      this.(assignees := [])
    }

    function RemoveManagers(): (r: ConfigurationData)
      ensures !r.HasManagers()
      ensures r.(managers := managers) == this
    {
      this.(managers := [])
    }

    /** Fills an empty assignee list with the demo list; a non-empty list is kept. */
    function AddAssignees(): (r: ConfigurationData)
      ensures r.HasAssignees()
      ensures assignees == [] ==> r == this.(assignees := DemoAssignees)
      ensures assignees != [] ==> r == this
    {
      if |assignees| == 0 then this.(assignees := DemoAssignees) else this
    }

    /** Fills an empty manager list with the demo list; a non-empty list is kept. */
    function AddManagers(): (r: ConfigurationData)
      ensures r.HasManagers()
      ensures managers == [] ==> r == this.(managers := DemoManagers)
      ensures managers != [] ==> r == this
    {
      if |managers| == 0 then this.(managers := DemoManagers) else this
    }

    function ToggleManagersAllowedToGetCall(): (r: ConfigurationData)
      ensures r.areManagersAllowedToGetCall != areManagersAllowedToGetCall
      ensures r.(areManagersAllowedToGetCall := areManagersAllowedToGetCall) == this
    {
      this.(areManagersAllowedToGetCall := !areManagersAllowedToGetCall)
    }

    function ToggleCallRecordingEnabled(): (r: ConfigurationData)
      ensures r.isCallRecordingEnabled != isCallRecordingEnabled
      ensures r.(isCallRecordingEnabled := isCallRecordingEnabled) == this
    {
      this.(isCallRecordingEnabled := !isCallRecordingEnabled)
    }

    /** Switching phone tree on clears the other three modes; switching it off touches only its flag. */
    function TogglePhoneTreeEnabled(): (r: ConfigurationData)
      ensures r.isPhoneTreeEnabled != isPhoneTreeEnabled
      ensures r.isPhoneTreeEnabled ==> r.ModeCount() == 1
      ensures !r.isPhoneTreeEnabled ==> r == this.(isPhoneTreeEnabled := false)
      ensures r.SameApartFromRouting(this)
      ensures ModesExclusive() ==> r.ModesExclusive()
    {
      var cleared := if !isPhoneTreeEnabled
        then this.(isCallForwardingEnabled := false, isSequentialCallEnabled := false, isSipEnabled := false)
        else this;
      cleared.(isPhoneTreeEnabled := !isPhoneTreeEnabled)
    }

    /** Switching SIP on clears the other three modes; switching it off touches only its flag. */
    function ToggleSipEnabled(): (r: ConfigurationData)
      ensures r.isSipEnabled != isSipEnabled
      ensures r.isSipEnabled ==> r.ModeCount() == 1
      ensures !r.isSipEnabled ==> r == this.(isSipEnabled := false)
      ensures r.SameApartFromRouting(this)
      ensures ModesExclusive() ==> r.ModesExclusive()
    {
      var cleared := if !isSipEnabled
        then this.(isCallForwardingEnabled := false, isSequentialCallEnabled := false, isPhoneTreeEnabled := false)
        else this;
      cleared.(isSipEnabled := !isSipEnabled)
    }

    /**
     * Switching call forwarding on clears the other three modes and sets the forwarding number to
     * the demo number; switching it off touches only its flag.
     */
    function ToggleCallForwardingEnabled(): (r: ConfigurationData)
      ensures r.isCallForwardingEnabled != isCallForwardingEnabled
      ensures r.isCallForwardingEnabled ==> r.ModeCount() == 1 && r.forwardTo == DemoCallForwardingNumber
      ensures !r.isCallForwardingEnabled ==> r == this.(isCallForwardingEnabled := false)
      ensures r.(forwardTo := forwardTo).SameApartFromRouting(this)
      ensures ModesExclusive() ==> r.ModesExclusive()
    {
      var cleared := if !isCallForwardingEnabled
        then this.(isPhoneTreeEnabled := false, isSequentialCallEnabled := false, isSipEnabled := false,
                   forwardTo := DemoCallForwardingNumber)
        else this;
      cleared.(isCallForwardingEnabled := !isCallForwardingEnabled)
    }

    /**
     * Switching sequential call on clears the other three modes. In both directions the number
     * list is reset to the first demo number.
     */
    function ToggleSequentialCallEnabled(): (r: ConfigurationData)
      ensures r.isSequentialCallEnabled != isSequentialCallEnabled
      ensures r.isSequentialCallEnabled ==> r.ModeCount() == 1
      ensures !r.isSequentialCallEnabled ==>
        r == this.(isSequentialCallEnabled := false, sequentialCallNumbers := [DemoSeqCallNumbers[0]])
      ensures r.sequentialCallNumbers == [DemoSeqCallNumbers[0]] && r.NumbersFromPool()
      ensures r.(sequentialCallNumbers := sequentialCallNumbers).SameApartFromRouting(this)
      ensures ModesExclusive() ==> r.ModesExclusive()
    {
      var cleared := if !isSequentialCallEnabled
        then this.(isPhoneTreeEnabled := false, isCallForwardingEnabled := false, isSipEnabled := false)
        else this;
      cleared.(isSequentialCallEnabled := !isSequentialCallEnabled,
               sequentialCallNumbers := [DemoSeqCallNumbers[0]])
    }

    /**
     * Appends the pool entry at the current length when sequential call is on and fewer numbers
     * than the pool holds are present; otherwise nothing changes.
     */
    function AddSequentialCallNumber(): (r: ConfigurationData)
      ensures isSequentialCallEnabled && |sequentialCallNumbers| < |DemoSeqCallNumbers| ==>
        r.sequentialCallNumbers == sequentialCallNumbers + [DemoSeqCallNumbers[|sequentialCallNumbers|]]
      ensures r.(sequentialCallNumbers := sequentialCallNumbers) == this
      ensures !(isSequentialCallEnabled && |sequentialCallNumbers| < |DemoSeqCallNumbers|) ==> r == this
      ensures NumbersFromPool() ==> r.NumbersFromPool()
    {
      if isSequentialCallEnabled then
        var len := |sequentialCallNumbers|;
        if len < |DemoSeqCallNumbers| then
          this.(sequentialCallNumbers := sequentialCallNumbers + [DemoSeqCallNumbers[len]])
        else this
      else this
    }

    /** Drops the last number when sequential call is on and the list is non-empty; otherwise nothing changes. */
    function RemoveSequentialCallNumber(): (r: ConfigurationData)
      ensures isSequentialCallEnabled && sequentialCallNumbers != [] ==>
        r.sequentialCallNumbers + [sequentialCallNumbers[|sequentialCallNumbers| - 1]] == sequentialCallNumbers
      ensures r.(sequentialCallNumbers := sequentialCallNumbers) == this
      ensures !(isSequentialCallEnabled && sequentialCallNumbers != []) ==> r == this
      ensures NumbersFromPool() ==> r.NumbersFromPool()
    {
      if isSequentialCallEnabled then
        var len := |sequentialCallNumbers|;
        if len > 0 then this.(sequentialCallNumbers := sequentialCallNumbers[..len - 1]) else this
      else this
    }

    /** Clears all four routing-mode flags and nothing else. */
    function RemoveCallRouting(): (r: ConfigurationData)
      ensures r.ModeCount() == 0 && r.CallRoutingType() == None
      ensures r.SameApartFromRouting(this)
    {
      this.(isPhoneTreeEnabled := false, isCallForwardingEnabled := false,
            isSequentialCallEnabled := false, isSipEnabled := false)
    }
  }

  /** The initial snapshot the screen starts from. */
  const DefaultConfiguration: ConfigurationData := ConfigurationData(
    DemoAssignees, DemoManagers, true, false, false, false, false, false, [], "")

  /** Each user action of the configuration form, mapped one to one onto an operation. */
  datatype Operation =
    | AddAssignees | RemoveAssignees | AddManagers | RemoveManagers
    | ToggleManagersAllowedToGetCall | ToggleCallRecordingEnabled
    | TogglePhoneTreeEnabled | ToggleCallForwardingEnabled | ToggleSequentialCallEnabled | ToggleSipEnabled
    | RemoveCallRouting | AddSequentialCallNumber | RemoveSequentialCallNumber

  /** The effect of one operation on a snapshot; it keeps both invariants of the configuration. */
  function Apply(op: Operation, d: ConfigurationData): (r: ConfigurationData)
    ensures d.ModesExclusive() ==> r.ModesExclusive()
    ensures d.NumbersFromPool() ==> r.NumbersFromPool()
  {
    match op
    case AddAssignees => d.AddAssignees()
    case RemoveAssignees => d.RemoveAssignees()
    case AddManagers => d.AddManagers()
    case RemoveManagers => d.RemoveManagers()
    case ToggleManagersAllowedToGetCall => d.ToggleManagersAllowedToGetCall()
    case ToggleCallRecordingEnabled => d.ToggleCallRecordingEnabled()
    case TogglePhoneTreeEnabled => d.TogglePhoneTreeEnabled()
    case ToggleCallForwardingEnabled => d.ToggleCallForwardingEnabled()
    case ToggleSequentialCallEnabled => d.ToggleSequentialCallEnabled()
    case ToggleSipEnabled => d.ToggleSipEnabled()
    case RemoveCallRouting => d.RemoveCallRouting()
    case AddSequentialCallNumber => d.AddSequentialCallNumber()
    case RemoveSequentialCallNumber => d.RemoveSequentialCallNumber()
  }

  /** The effect of a sequence of operations, applied first to last; it keeps both invariants. */
  function ApplyAll(ops: seq<Operation>, d: ConfigurationData): (r: ConfigurationData)
    ensures d.ModesExclusive() ==> r.ModesExclusive()
    ensures d.NumbersFromPool() ==> r.NumbersFromPool()
    decreases |ops|
  {
    if ops == [] then d else ApplyAll(ops[1..], Apply(ops[0], d))
  }

  /** The routing select list: a mode name toggles that mode, any other value removes call routing. */
  function SelectOperation(value: string): (op: Operation)
    ensures value == PhoneTreeName <==> op == TogglePhoneTreeEnabled
    ensures value == CallForwardingName <==> op == ToggleCallForwardingEnabled
    ensures value == SequentialCallName <==> op == ToggleSequentialCallEnabled
    ensures value == SipName <==> op == ToggleSipEnabled
    ensures value !in {PhoneTreeName, CallForwardingName, SequentialCallName, SipName} <==> op == RemoveCallRouting
  {
    if value == PhoneTreeName then TogglePhoneTreeEnabled
    else if value == CallForwardingName then ToggleCallForwardingEnabled
    else if value == SequentialCallName then ToggleSequentialCallEnabled
    else if value == SipName then ToggleSipEnabled
    else RemoveCallRouting
  }

  /** The configuration object the form edits in place. */
  class Configuration {
    var assignees: seq<string>
    var managers: seq<string>
    var areManagersAllowedToGetCall: bool
    var isPhoneTreeEnabled: bool
    var isCallForwardingEnabled: bool
    var isCallRecordingEnabled: bool
    var isSequentialCallEnabled: bool
    var isSipEnabled: bool
    var sequentialCallNumbers: seq<string>
    var forwardTo: string

    /** The current values of the ten fields. */
    function Snapshot(): ConfigurationData
      reads this
    {
      ConfigurationData(assignees, managers, areManagersAllowedToGetCall, isPhoneTreeEnabled,
        isCallForwardingEnabled, isCallRecordingEnabled, isSequentialCallEnabled, isSipEnabled,
        sequentialCallNumbers, forwardTo)
    }

    /** At most one routing mode is on. */
    predicate ModesExclusive()
      reads this
    {
      Snapshot().ModesExclusive()
    }

    constructor (data: ConfigurationData)
      ensures Snapshot() == data
    {
      assignees := data.assignees;
      managers := data.managers;
      areManagersAllowedToGetCall := data.areManagersAllowedToGetCall;
      isPhoneTreeEnabled := data.isPhoneTreeEnabled;
      isCallForwardingEnabled := data.isCallForwardingEnabled;
      isCallRecordingEnabled := data.isCallRecordingEnabled;
      isSequentialCallEnabled := data.isSequentialCallEnabled;
      sequentialCallNumbers := data.sequentialCallNumbers;
      forwardTo := data.forwardTo;
      isSipEnabled := data.isSipEnabled;
    }

    method RemoveAssignees()
      modifies this
      ensures Snapshot() == old(Snapshot()).RemoveAssignees()
    {
      assignees := [];
    }

    method RemoveManagers()
      modifies this
      ensures Snapshot() == old(Snapshot()).RemoveManagers()
    {
      managers := [];
    }

    method AddAssignees()
      modifies this
      ensures Snapshot() == old(Snapshot()).AddAssignees()
    {
      if |assignees| == 0 {
        assignees := DemoAssignees;
      }
    }

    method AddManagers()
      modifies this
      ensures Snapshot() == old(Snapshot()).AddManagers()
    {
      if |managers| == 0 {
        managers := DemoManagers;
      }
    }

    method ToggleManagersAllowedToGetCall()
      modifies this
      ensures Snapshot() == old(Snapshot()).ToggleManagersAllowedToGetCall()
    {
      areManagersAllowedToGetCall := !areManagersAllowedToGetCall;
    }

    method TogglePhoneTreeEnabled()
      modifies this
      ensures Snapshot() == old(Snapshot()).TogglePhoneTreeEnabled()
      ensures old(ModesExclusive()) ==> ModesExclusive()
    {
      if !isPhoneTreeEnabled {
        isCallForwardingEnabled := false;
        isSequentialCallEnabled := false;
        isSipEnabled := false;
      }
      isPhoneTreeEnabled := !isPhoneTreeEnabled;
    }

    method ToggleSipEnabled()
      modifies this
      ensures Snapshot() == old(Snapshot()).ToggleSipEnabled()
      ensures old(ModesExclusive()) ==> ModesExclusive()
    {
      if !isSipEnabled {
        isCallForwardingEnabled := false;
        isSequentialCallEnabled := false;
        isPhoneTreeEnabled := false;
      }
      isSipEnabled := !isSipEnabled;
    }

    method ToggleCallForwardingEnabled()
      modifies this
      ensures Snapshot() == old(Snapshot()).ToggleCallForwardingEnabled()
      ensures old(ModesExclusive()) ==> ModesExclusive()
    {
      if !isCallForwardingEnabled {
        isPhoneTreeEnabled := false;
        isSequentialCallEnabled := false;
        isSipEnabled := false;
        forwardTo := DemoCallForwardingNumber;
      }
      isCallForwardingEnabled := !isCallForwardingEnabled;
    }

    method ToggleSequentialCallEnabled()
      modifies this
      ensures Snapshot() == old(Snapshot()).ToggleSequentialCallEnabled()
      ensures old(ModesExclusive()) ==> ModesExclusive()
    {
      if !isSequentialCallEnabled {
        isPhoneTreeEnabled := false;
        isCallForwardingEnabled := false;
        isSipEnabled := false;
      }
      isSequentialCallEnabled := !isSequentialCallEnabled;
      sequentialCallNumbers := [DemoSeqCallNumbers[0]];
    }

    method AddSequentialCallNumber()
      modifies this
      ensures Snapshot() == old(Snapshot()).AddSequentialCallNumber()
    {
      if isSequentialCallEnabled {
        var len := |sequentialCallNumbers|;
        if len < |DemoSeqCallNumbers| {
          sequentialCallNumbers := sequentialCallNumbers + [DemoSeqCallNumbers[len]];
        }
      }
    }

    method RemoveSequentialCallNumber()
      modifies this
      ensures Snapshot() == old(Snapshot()).RemoveSequentialCallNumber()
    {
      if isSequentialCallEnabled {
        var len := |sequentialCallNumbers|;
        if len > 0 {
          sequentialCallNumbers := sequentialCallNumbers[..len - 1];
        }
      }
    }

    method RemoveCallRouting()
      modifies this
      ensures Snapshot() == old(Snapshot()).RemoveCallRouting()
      ensures ModesExclusive()
    {
      isPhoneTreeEnabled := false;
      isCallForwardingEnabled := false;
      isSequentialCallEnabled := false;
      isSipEnabled := false;
    }

    method ToggleCallRecordingEnabled()
      modifies this
      ensures Snapshot() == old(Snapshot()).ToggleCallRecordingEnabled()
    {
      isCallRecordingEnabled := !isCallRecordingEnabled;
    }
  }
}
