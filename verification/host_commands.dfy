/**
  Host command processing (mesh_app_proc_rx_cmd): recognise one of the eight
  Light CTL opcodes, have the stack build a mesh event from the command, and
  hand the decoded request to the matching client send function.
 */
module HostCommands {
  import opened Stream
  import opened LightCtl
  import opened MeshStack

  /**
    The numeric HCI opcodes of the eight Light CTL commands. Their values
    are defined by the host-control API header, outside this model.
   */
  datatype OpcodeTable = OpcodeTable(
    ctlGet: uint16, ctlSet: uint16,
    temperatureGet: uint16, temperatureSet: uint16,
    temperatureRangeGet: uint16, temperatureRangeSet: uint16,
    defaultGet: uint16, defaultSet: uint16)

  function OpcodeOf(t: OpcodeTable, c: Command): uint16
  {
    match c
    case CtlGet => t.ctlGet
    case CtlSet => t.ctlSet
    case TemperatureGet => t.temperatureGet
    case TemperatureSet => t.temperatureSet
    case TemperatureRangeGet => t.temperatureRangeGet
    case TemperatureRangeSet => t.temperatureRangeSet
    case DefaultGet => t.defaultGet
    case DefaultSet => t.defaultSet
  }

  /** The case labels of a switch are pairwise distinct. */
  predicate Distinct(t: OpcodeTable)
  {
    forall c, d :: OpcodeOf(t, c) == OpcodeOf(t, d) ==> c == d
  }

  /** The switch on the opcode: which of the eight commands it names, if any. */
  function Recognize(t: OpcodeTable, opcode: uint16): (r: Option<Command>)
    ensures r.Some? ==> OpcodeOf(t, r.value) == opcode
    ensures r.None? ==> forall c :: OpcodeOf(t, c) != opcode
  {
    if opcode == t.ctlGet then Some(CtlGet)
    else if opcode == t.ctlSet then Some(CtlSet)
    else if opcode == t.temperatureGet then Some(TemperatureGet)
    else if opcode == t.temperatureSet then Some(TemperatureSet)
    else if opcode == t.temperatureRangeGet then Some(TemperatureRangeGet)
    else if opcode == t.temperatureRangeSet then Some(TemperatureRangeSet)
    else if opcode == t.defaultGet then Some(DefaultGet)
    else if opcode == t.defaultSet then Some(DefaultSet)
    else None
  }

  /** With distinct case labels, each command's opcode is recognised as that command. */
  lemma RecognizeOpcodeOf(t: OpcodeTable, c: Command)
    requires Distinct(t)
    ensures Recognize(t, OpcodeOf(t, c)) == Some(c)
  {
    var r := Recognize(t, OpcodeOf(t, c));
    assert OpcodeOf(t, r.value) == OpcodeOf(t, c);
  }

  /** How many payload bytes the command's decoder reads. */
  function PayloadSize(c: Command): nat
  {
    match c
    case CtlSet => 12
    case TemperatureSet => 10
    case TemperatureRangeSet => 4
    case DefaultSet => 6
    case _ => 0
  }

  /**
    mesh_app_proc_rx_cmd. `created` is what wiced_bt_mesh_create_event_from_wiced_hci
    returns when asked: None for a NULL event, or Some(rest), the payload left
    once the stack has taken its addressing header off the front.
    The result is whether the command was this client's.
   */
  method ProcRxCmd(t: OpcodeTable, opcode: uint16, payload: seq<uint8>, created: Option<seq<uint8>>)
    returns (handled: bool, calls: seq<StackCall>)
    requires Recognize(t, opcode).Some? && created.Some? ==>
      PayloadSize(Recognize(t, opcode).value) <= |created.value|
    ensures handled <==> exists c :: OpcodeOf(t, c) == opcode
    ensures !handled ==> calls == []
    ensures handled && created.None? ==> calls == [CreateEventFromHci(opcode, payload)]
    ensures handled && created.Some? ==>
      && |calls| == 2 && calls[0] == CreateEventFromHci(opcode, payload)
      && CommandSent(calls[1]) == Recognize(t, opcode)
      && OpcodeOf(t, CommandSent(calls[1]).value) == opcode
    ensures ClientSendCount(calls) == (if handled && created.Some? then 1 else 0)
    ensures ReleaseCount(calls) == 0
    ensures created.Some? ==> match Recognize(t, opcode)
      case Some(CtlSet) => calls[1].SendSet? && CtlSetBytes(calls[1].ctlSet) == created.value[..12]
      case Some(TemperatureSet) =>
        calls[1].SendTemperatureSet? && TemperatureSetBytes(calls[1].temperatureSet) == created.value[..10]
      case Some(TemperatureRangeSet) =>
        calls[1].SendTemperatureRangeSet? && TemperatureRangeBytes(calls[1].range) == created.value[..4]
      case Some(DefaultSet) => calls[1].SendDefaultSet? && DefaultBytes(calls[1].defaults) == created.value[..6]
      case _ => true
  {
    var command := Recognize(t, opcode);
    if command.None? {
      return false, [];
    }
    calls := [CreateEventFromHci(opcode, payload)];
    if created.None? {
      return true, calls;
    }
    var p := created.value;
    var send;
    match command.value {
      case CtlGet => send := SendGet;
      case CtlSet => send := SendSet(DecodeCtlSet(p));
      case TemperatureGet => send := SendTemperatureGet;
      case TemperatureSet => send := SendTemperatureSet(DecodeTemperatureSet(p));
      case TemperatureRangeGet => send := SendTemperatureRangeGet;
      case TemperatureRangeSet => send := SendTemperatureRangeSet(DecodeTemperatureRangeSet(p));
      case DefaultGet => send := SendDefaultGet;
      case DefaultSet => send := SendDefaultSet(DecodeDefaultSet(p));
    }
    calls := calls + [send];
    handled := true;
  }
}
