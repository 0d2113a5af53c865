/**
  The calls this client makes into the vendor mesh stack and the host
  transport. The stack itself is not modelled: each call is recorded, with
  its arguments, in the trace a handler returns.
 */
module MeshStack {
  import opened Stream
  import opened LightCtl

  /** The Light CTL commands the host may send. */
  datatype Command =
    | CtlGet | CtlSet
    | TemperatureGet | TemperatureSet
    | TemperatureRangeGet | TemperatureRangeSet
    | DefaultGet | DefaultSet

  /** The status events forwarded to the host. */
  datatype HostEvent = CtlStatusEvent | TemperatureStatusEvent | TemperatureRangeStatusEvent | DefaultStatusEvent

  datatype StackCall =
      // wiced_bt_mesh_create_event_from_wiced_hci, given the opcode and the raw command payload
    | CreateEventFromHci(opcode: uint16, payload: seq<uint8>)
      // wiced_bt_mesh_model_light_ctl_client_send_*
    | SendGet
    | SendSet(ctlSet: LightCtlSet)
    | SendTemperatureGet
    | SendTemperatureSet(temperatureSet: LightCtlTemperatureSet)
    | SendTemperatureRangeGet
    | SendTemperatureRangeSet(range: LightCtlTemperatureRangeData)
    | SendDefaultGet
    | SendDefaultSet(defaults: LightCtlDefaultData)
      // wiced_bt_mesh_create_hci_event
    | CreateHciEvent
      // wiced_bt_mesh_send_hci_tx_complete
    | SendHciTxComplete
      // mesh_transport_send_data: the event code and the bytes of the event, header included
    | TransportSend(event: HostEvent, frame: seq<uint8>)
      // wiced_bt_mesh_release_event
    | ReleaseEvent

  /** The command whose send function a call is, if it is one. */
  function CommandSent(c: StackCall): Option<Command>
  {
    match c
    case SendGet => Some(CtlGet)
    case SendSet(_) => Some(CtlSet)
    case SendTemperatureGet => Some(TemperatureGet)
    case SendTemperatureSet(_) => Some(TemperatureSet)
    case SendTemperatureRangeGet => Some(TemperatureRangeGet)
    case SendTemperatureRangeSet(_) => Some(TemperatureRangeSet)
    case SendDefaultGet => Some(DefaultGet)
    case SendDefaultSet(_) => Some(DefaultSet)
    case _ => None
  }

  datatype Option<T> = None | Some(value: T)

  /** How many calls of a trace are Light CTL client send calls (transport sends are not among them). */
  function ClientSendCount(calls: seq<StackCall>): nat
  {
    if calls == [] then 0
    else ClientSendCount(calls[..|calls| - 1]) + (if CommandSent(calls[|calls| - 1]).Some? then 1 else 0)
  }

  /** How many calls of a trace release the stack event. */
  function ReleaseCount(calls: seq<StackCall>): nat
  {
    if calls == [] then 0
    else ReleaseCount(calls[..|calls| - 1]) + (if calls[|calls| - 1] == ReleaseEvent then 1 else 0)
  }

  /** Counting distributes over concatenation of traces. */
  lemma {:induction false} CountsAppend(a: seq<StackCall>, b: seq<StackCall>)
    ensures ClientSendCount(a + b) == ClientSendCount(a) + ClientSendCount(b)
    ensures ReleaseCount(a + b) == ReleaseCount(a) + ReleaseCount(b)
    decreases |b|
  {
    if b == [] {
      assert a + b == a;
    } else {
      var b' := b[..|b| - 1];
      assert (a + b)[..|a + b| - 1] == a + b';
      CountsAppend(a, b');
    }
  }

  /** The calls of consecutive handler runs, one after the other. */
  function Flatten(runs: seq<seq<StackCall>>): seq<StackCall>
  {
    if runs == [] then [] else Flatten(runs[..|runs| - 1]) + runs[|runs| - 1]
  }

  /**
    When every run makes one release call, a session of n runs makes exactly
    n release calls. Release calls do not name the event they release, so
    this is a statement about their number only.
   */
  lemma {:induction false} SessionReleases(runs: seq<seq<StackCall>>)
    requires forall i :: 0 <= i < |runs| ==> ReleaseCount(runs[i]) == 1
    ensures ReleaseCount(Flatten(runs)) == |runs|
  {
    if runs != [] {
      var init := runs[..|runs| - 1];
      SessionReleases(init);
      CountsAppend(Flatten(init), runs[|runs| - 1]);
    }
  }
}
