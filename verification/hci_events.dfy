/**
  Relay of Light CTL status events to the host: the four encoders that fill
  the data part of an HCI event buffer through an advancing cursor, and the
  handler the mesh stack calls for every Light CTL client event.

  The event buffer is the one wiced_bt_mesh_create_hci_event hands out; its
  header occupies the first `hdr` bytes and the data follows. The header
  layout belongs to the stack and is not modelled.
 */
module HciEvents {
  import opened Stream
  import opened LightCtl
  import opened MeshStack

  /** The (uint16_t) cast applied to the event length handed to the transport. */
  function ReportedLength(n: nat): uint16
  {
    n % 0x1_0000
  }

  /**
    One more field written at the cursor: if `s` holds `written` after the
    header and `t` is `s` with `y` stored right after it, `t` holds `written + y`.
   */
  lemma Advance(orig: seq<uint8>, hdr: nat, written: seq<uint8>, s: seq<uint8>, y: seq<uint8>, t: seq<uint8>)
    requires hdr + |written| + |y| <= |orig|
    requires s == orig[..hdr] + written + orig[hdr + |written|..]
    requires t == s[..hdr + |written|] + y + s[hdr + |written| + |y|..]
    ensures t == orig[..hdr] + (written + y) + orig[hdr + |written + y|..]
  {
    assert s[..hdr + |written|] == orig[..hdr] + written;
    assert s[hdr + |written| + |y|..] == orig[hdr + |written| + |y|..];
  }

  /** mesh_light_ctl_hci_event_send_status */
  method SendStatus(ev: array<uint8>, hdr: nat, data: LightCtlStatusData) returns (sent: StackCall)
    requires hdr + 12 <= ev.Length
    modifies ev
    ensures ev[..] == old(ev[..hdr]) + StatusBytes(data) + old(ev[hdr + 12..])
    ensures sent == TransportSend(CtlStatusEvent, ev[..ReportedLength(hdr + 12)])
  {
    ghost var orig := ev[..];
    ghost var written: seq<uint8> := [];
    ghost var s := ev[..];
    var p := hdr;
    p := PutU16(ev, p, data.present.lightness);
    Advance(orig, hdr, written, s, LE16(data.present.lightness), ev[..]);
    assert [] + LE16(data.present.lightness) == LE16(data.present.lightness);
    written, s := LE16(data.present.lightness), ev[..];
    p := PutU16(ev, p, data.present.temperature);
    Advance(orig, hdr, written, s, LE16(data.present.temperature), ev[..]);
    written, s := written + LE16(data.present.temperature), ev[..];
    p := PutU16(ev, p, data.target.lightness);
    Advance(orig, hdr, written, s, LE16(data.target.lightness), ev[..]);
    written, s := written + LE16(data.target.lightness), ev[..];
    p := PutU16(ev, p, data.target.temperature);
    Advance(orig, hdr, written, s, LE16(data.target.temperature), ev[..]);
    written, s := written + LE16(data.target.temperature), ev[..];
    p := PutU32(ev, p, data.remainingTime);
    Advance(orig, hdr, written, s, LE32(data.remainingTime), ev[..]);
    written, s := written + LE32(data.remainingTime), ev[..];
    assert written == StatusBytes(data);
    sent := TransportSend(CtlStatusEvent, ev[..ReportedLength(p)]);
  }

  /** mesh_light_ctl_hci_event_send_temperature_status */
  method SendTemperatureStatus(ev: array<uint8>, hdr: nat, data: LightCtlStatusData) returns (sent: StackCall)
    requires hdr + 12 <= ev.Length
    modifies ev
    ensures ev[..] == old(ev[..hdr]) + TemperatureStatusBytes(data) + old(ev[hdr + 12..])
    ensures sent == TransportSend(TemperatureStatusEvent, ev[..ReportedLength(hdr + 12)])
  {
    ghost var orig := ev[..];
    ghost var written: seq<uint8> := [];
    ghost var s := ev[..];
    var p := hdr;
    p := PutU16(ev, p, data.present.temperature);
    Advance(orig, hdr, written, s, LE16(data.present.temperature), ev[..]);
    assert [] + LE16(data.present.temperature) == LE16(data.present.temperature);
    written, s := LE16(data.present.temperature), ev[..];
    p := PutU16(ev, p, data.present.deltaUv);
    Advance(orig, hdr, written, s, LE16(data.present.deltaUv), ev[..]);
    written, s := written + LE16(data.present.deltaUv), ev[..];
    p := PutU16(ev, p, data.target.temperature);
    Advance(orig, hdr, written, s, LE16(data.target.temperature), ev[..]);
    written, s := written + LE16(data.target.temperature), ev[..];
    p := PutU16(ev, p, data.target.deltaUv);
    Advance(orig, hdr, written, s, LE16(data.target.deltaUv), ev[..]);
    written, s := written + LE16(data.target.deltaUv), ev[..];
    p := PutU32(ev, p, data.remainingTime);
    Advance(orig, hdr, written, s, LE32(data.remainingTime), ev[..]);
    written, s := written + LE32(data.remainingTime), ev[..];
    sent := TransportSend(TemperatureStatusEvent, ev[..ReportedLength(p)]);
  }

  /** mesh_light_ctl_hci_event_send_temperature_range_status */
  method SendTemperatureRangeStatus(ev: array<uint8>, hdr: nat, data: LightCtlTemperatureRangeStatusData)
    returns (sent: StackCall)
    requires hdr + 5 <= ev.Length
    modifies ev
    ensures ev[..] == old(ev[..hdr]) + TemperatureRangeStatusBytes(data) + old(ev[hdr + 5..])
    ensures sent == TransportSend(TemperatureRangeStatusEvent, ev[..ReportedLength(hdr + 5)])
  {
    ghost var orig := ev[..];
    ghost var written: seq<uint8> := [];
    ghost var s := ev[..];
    var p := hdr;
    p := PutU8(ev, p, data.status);
    Advance(orig, hdr, written, s, [data.status], ev[..]);
    assert [] + [data.status] == [data.status];
    written, s := [data.status], ev[..];
    p := PutU16(ev, p, data.minLevel);
    Advance(orig, hdr, written, s, LE16(data.minLevel), ev[..]);
    written, s := written + LE16(data.minLevel), ev[..];
    p := PutU16(ev, p, data.maxLevel);
    Advance(orig, hdr, written, s, LE16(data.maxLevel), ev[..]);
    written, s := written + LE16(data.maxLevel), ev[..];
    assert written == [data.status] + (LE16(data.minLevel) + LE16(data.maxLevel));
    assert written == TemperatureRangeStatusBytes(data);
    sent := TransportSend(TemperatureRangeStatusEvent, ev[..ReportedLength(p)]);
  }

  /** mesh_light_ctl_hci_event_send_default_status */
  method SendDefaultStatus(ev: array<uint8>, hdr: nat, data: LightCtlDefaultData) returns (sent: StackCall)
    requires hdr + 6 <= ev.Length
    modifies ev
    ensures ev[..] == old(ev[..hdr]) + DefaultBytes(data) + old(ev[hdr + 6..])
    ensures DecodeDefaultSet(ev[hdr..]) == data
    ensures sent == TransportSend(DefaultStatusEvent, ev[..ReportedLength(hdr + 6)])
  {
    ghost var orig := ev[..];
    ghost var written: seq<uint8> := [];
    ghost var s := ev[..];
    var p := hdr;
    p := PutU16(ev, p, data.defaultStatus.lightness);
    Advance(orig, hdr, written, s, LE16(data.defaultStatus.lightness), ev[..]);
    assert [] + LE16(data.defaultStatus.lightness) == LE16(data.defaultStatus.lightness);
    written, s := LE16(data.defaultStatus.lightness), ev[..];
    p := PutU16(ev, p, data.defaultStatus.temperature);
    Advance(orig, hdr, written, s, LE16(data.defaultStatus.temperature), ev[..]);
    written, s := written + LE16(data.defaultStatus.temperature), ev[..];
    p := PutU16(ev, p, data.defaultStatus.deltaUv);
    Advance(orig, hdr, written, s, LE16(data.defaultStatus.deltaUv), ev[..]);
    written, s := written + LE16(data.defaultStatus.deltaUv), ev[..];
    sent := TransportSend(DefaultStatusEvent, ev[..ReportedLength(p)]);
    assert ev[hdr..] == DefaultBytes(data) + old(ev[hdr + 6..]);
    DecodeDefaultSetRoundTrip(data, old(ev[hdr + 6..]));
  }

  /** The traces the handler produces release once and send nothing. */
  lemma HandlerTraceCounts(calls: seq<StackCall>)
    requires calls == [ReleaseEvent] || calls == [CreateHciEvent, ReleaseEvent]
      || (|calls| == 3 && calls[0] == CreateHciEvent && calls[2] == ReleaseEvent
          && (calls[1] == SendHciTxComplete || calls[1].TransportSend?))
    ensures ReleaseCount(calls) == 1 && ClientSendCount(calls) == 0
  {
    if |calls| == 3 {
      var init := calls[..2];
      assert init[..1] == [CreateHciEvent];
      assert ReleaseCount(init) == 0 && ClientSendCount(init) == 0;
      assert calls[..|calls| - 1] == init;
    }
  }

  /** A Light CTL client event from the stack, paired with the data its code announces. */
  datatype MeshEvent =
    | TxComplete
    | CtlStatus(status: LightCtlStatusData)
    | CtlDefaultStatus(defaults: LightCtlDefaultData)
    | CtlTemperatureStatus(status: LightCtlStatusData)
    | CtlTemperatureRangeStatus(rangeStatus: LightCtlTemperatureRangeStatusData)
    | OtherEvent(code: uint16)

  /** The host event a status is relayed as, and the bytes its encoder writes after the header. */
  function Relayed(e: MeshEvent): Option<(HostEvent, seq<uint8>)>
  {
    match e
    case CtlStatus(d) => Some((CtlStatusEvent, StatusBytes(d)))
    case CtlDefaultStatus(d) => Some((DefaultStatusEvent, DefaultBytes(d)))
    case CtlTemperatureStatus(d) => Some((TemperatureStatusEvent, TemperatureStatusBytes(d)))
    case CtlTemperatureRangeStatus(d) => Some((TemperatureRangeStatusEvent, TemperatureRangeStatusBytes(d)))
    case _ => None
  }

  /** The encoder the handler calls for a status event, chosen by the event code. */
  method RelayStatus(event: MeshEvent, ev: array<uint8>, hdr: nat) returns (sent: StackCall)
    requires Relayed(event).Some? && hdr + |Relayed(event).value.1| <= ev.Length
    modifies ev
    ensures
      var (kind, bytes) := Relayed(event).value;
      && ev[..] == old(ev[..hdr]) + bytes + old(ev[hdr + |bytes|..])
      && sent == TransportSend(kind, ev[..ReportedLength(hdr + |bytes|)])
  {
    match event {
      case CtlStatus(d) =>
        sent := SendStatus(ev, hdr, d);
      case CtlDefaultStatus(d) =>
        sent := SendDefaultStatus(ev, hdr, d);
      case CtlTemperatureStatus(d) =>
        sent := SendTemperatureStatus(ev, hdr, d);
      case CtlTemperatureRangeStatus(d) =>
        sent := SendTemperatureRangeStatus(ev, hdr, d);
    }
  }

  /**
    mesh_light_ctl_client_message_handler. `hciEvent` is what
    wiced_bt_mesh_create_hci_event returns when the handler asks for it
    (null when it fails). Whatever the event, the stack event is released
    exactly once, as the last call, and no client send call is made.
   */
  method MessageHandler(event: MeshEvent, hciEvent: array?<uint8>, hdr: nat) returns (calls: seq<StackCall>)
    requires hciEvent != null && Relayed(event).Some? ==> hdr + |Relayed(event).value.1| <= hciEvent.Length
    modifies hciEvent
    ensures ReleaseCount(calls) == 1 && calls[|calls| - 1] == ReleaseEvent
    ensures ClientSendCount(calls) == 0
    ensures event.OtherEvent? ==> calls == [ReleaseEvent]
    ensures !event.OtherEvent? && hciEvent == null ==> calls == [CreateHciEvent, ReleaseEvent]
    ensures event.TxComplete? && hciEvent != null ==> calls == [CreateHciEvent, SendHciTxComplete, ReleaseEvent]
    ensures hciEvent != null && event.OtherEvent? ==> unchanged(hciEvent)
    ensures hciEvent != null && Relayed(event).Some? ==>
      var (kind, bytes) := Relayed(event).value;
      && hciEvent[..] == old(hciEvent[..hdr]) + bytes + old(hciEvent[hdr + |bytes|..])
      && calls == [CreateHciEvent, TransportSend(kind, hciEvent[..ReportedLength(hdr + |bytes|)]), ReleaseEvent]
  {
    // the call made with the HCI event, when there is one
    var relay: seq<StackCall> := [];
    if hciEvent != null && event.TxComplete? {
      relay := [SendHciTxComplete];
    } else if hciEvent != null && Relayed(event).Some? {
      var sent := RelayStatus(event, hciEvent, hdr);
      relay := [sent];
    }
    if event.OtherEvent? {
      calls := [ReleaseEvent];
    } else {
      calls := [CreateHciEvent] + relay + [ReleaseEvent];
    }
    HandlerTraceCounts(calls);
  }
}
