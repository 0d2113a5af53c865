# Light CTL client: host codec and dispatch

A model of the application layer of a Bluetooth Mesh Light CTL Client node
built on a vendor mesh stack (`mesh_light_ctl_client.c`, with `HCI_CONTROL`
defined). The node sits between a host, which talks to it over the WICED HCI
control channel, and the mesh stack:

- host commands arrive as an opcode and a payload; `mesh_app_proc_rx_cmd`
  accepts the eight Light CTL opcodes (CTL, Temperature, Temperature Range and
  Default, each Get and Set), asks the stack for a mesh event and hands the
  decoded request to the matching `wiced_bt_mesh_model_light_ctl_client_send_*`;
- the four Set decoders read fixed little-endian layouts from the payload;
- stack events reach `mesh_light_ctl_client_message_handler`, which relays the
  four kinds of status to the host through four encoders that write into the
  HCI event buffer with an advancing cursor, and releases the stack event;
- `mesh_app_init` splits the 16-bit appearance into two bytes for the scan
  response.

Modules, one file each:

- `Stream` (`stream.dfy`): byte and integer types, the little-endian images
  `LE16`/`LE32`, the read step (`StreamToU16`, `StreamToU32`) as functions on
  sequences and the write step (`PutU8`, `PutU16`, `PutU32`) as methods on an
  array with a cursor.
- `LightCtl` (`light_ctl.dfy`): the request and status records, the byte
  layout of each, the four decoders and the lemmas about them.
- `MeshStack` (`mesh_stack.dfy`): the calls into the stack and the transport,
  recorded as values in a trace, and counts over traces.
- `HciEvents` (`hci_events.dfy`): the four status encoders and the message
  handler.
- `HostCommands` (`host_commands.dfy`): opcode recognition and the command
  dispatcher.
- `AppInit` (`app_init.dfy`): the appearance bytes.

Stack and transport calls are not executed: every call the firmware makes is
a `StackCall` value in the trace a handler returns, with its arguments. What
the stack answers is a parameter: for the dispatcher, `created` is `None`
when event creation returns NULL, or the payload left after the stack has
taken its addressing header; for the handler, `hciEvent` is the HCI event
buffer or null. The size of the HCI event header is the parameter `hdr`. The
numeric opcodes come in as an `OpcodeTable`; a stack event and its data come
in as one `MeshEvent` value, since the event code decides the type of the
data pointer.

Observations the lemmas make precise: the CTL Status event carries no delta
UV and the CTL Temperature Status event carries no lightness
(`StatusBytesSame`, `TemperatureStatusBytesSame`); the Default Status event
uses the very layout the Default Set command reads, so one decodes the other
(`DecodeDefaultSetRoundTrip`); the Temperature Range Status event is the
status byte followed by the Temperature Range Set layout.

## Model

| member | source | states |
|---|---|---|
| `Stream.StreamToU16` | mesh_light_ctl_client.c:365 | reads a 16-bit value low byte first: the two bytes consumed are exactly the image of the value, and the stream continues after them |
| `Stream.StreamToU32` | mesh_light_ctl_client.c:368 | reads a 32-bit value least significant byte first: the four bytes consumed are the image of the value, and the stream continues after them |
| `Stream.ReadWrite16` | mesh_light_ctl_client.c:494-496 | reading a 16-bit value back from what the write step stored gives the value written and leaves what followed |
| `Stream.ReadWrite32` | mesh_light_ctl_client.c:452 | reading a 32-bit value back from what the write step stored gives the value written and leaves what followed |
| `Stream.PutU8` | mesh_light_ctl_client.c:480 | stores one byte at the cursor, leaves every other byte unchanged, advances the cursor by 1 |
| `Stream.PutU16` | mesh_light_ctl_client.c:448 | stores the two bytes of a value at the cursor, low byte first, leaves every other byte unchanged, advances the cursor by 2 |
| `Stream.PutU32` | mesh_light_ctl_client.c:452 | stores the four bytes of a value at the cursor, least significant first, leaves every other byte unchanged, advances the cursor by 4 |
| `LightCtl.DecodeCtlSet` | mesh_light_ctl_client.c:361-372 | the decoded CTL Set request is the one whose layout (lightness, temperature, delta UV as u16, transition time as u32, delay as u16, all little-endian) is the first 12 payload bytes |
| `LightCtl.DecodeTemperatureSet` | mesh_light_ctl_client.c:385-395 | the decoded request's layout (temperature, delta UV, transition time u32, delay) is the first 10 payload bytes |
| `LightCtl.DecodeDefaultSet` | mesh_light_ctl_client.c:408-417 | the decoded default state's layout (lightness, temperature, delta UV) is the first 6 payload bytes |
| `LightCtl.DecodeTemperatureRangeSet` | mesh_light_ctl_client.c:430-438 | the decoded range's layout (min level, max level) is the first 4 payload bytes |
| `LightCtl.DecodeCtlSetRoundTrip` | mesh_light_ctl_client.c:365-369 | the CTL Set decoder gives back any request from its 12-byte layout, whatever bytes follow |
| `LightCtl.DecodeTemperatureSetRoundTrip` | mesh_light_ctl_client.c:389-392 | the Temperature Set decoder gives back any request from its 10-byte layout, whatever bytes follow |
| `LightCtl.DecodeDefaultSetRoundTrip` | mesh_light_ctl_client.c:412-414 | the Default Set decoder gives back the lightness, temperature and delta UV that the Default Status encoder writes, whatever bytes follow |
| `LightCtl.DecodeTemperatureRangeSetRoundTrip` | mesh_light_ctl_client.c:434-435 | the Range Set decoder gives back any range from its 4-byte layout, whatever bytes follow |
| `LightCtl.DecodeCtlSetPrefix` | mesh_light_ctl_client.c:365-369 | the CTL Set decoder consumes exactly 12 bytes: two payloads decode alike if and only if their first 12 bytes agree |
| `LightCtl.DecodeTemperatureSetPrefix` | mesh_light_ctl_client.c:389-392 | the Temperature Set decoder consumes exactly 10 bytes: two payloads decode alike if and only if their first 10 bytes agree |
| `LightCtl.DecodeDefaultSetPrefix` | mesh_light_ctl_client.c:412-414 | the Default Set decoder consumes exactly 6 bytes: two payloads decode alike if and only if their first 6 bytes agree |
| `LightCtl.DecodeTemperatureRangeSetPrefix` | mesh_light_ctl_client.c:434-435 | the Range Set decoder consumes exactly 4 bytes: two payloads decode alike if and only if their first 4 bytes agree |
| `LightCtl.DecodeCtlSetExample` | mesh_light_ctl_client.c:365-369 | bytes `10 27 64 00 00 00 E8 03 00 00 00 00` decode to lightness 10000, temperature 100, delta UV 0, transition 1000, delay 0 |
| `LightCtl.StatusBytesFields` | mesh_light_ctl_client.c:448-452 | the CTL Status encoding is 12 bytes; reading u16 at offsets 0, 2, 4, 6 and u32 at 8 gives present lightness, present temperature, target lightness, target temperature, remaining time |
| `LightCtl.StatusBytesSame` | mesh_light_ctl_client.c:448-452 | two CTL statuses encode alike if and only if those five fields agree (delta UV is not carried) |
| `LightCtl.TemperatureStatusBytesFields` | mesh_light_ctl_client.c:464-468 | the Temperature Status encoding is 12 bytes: present temperature, present delta UV, target temperature, target delta UV at 0, 2, 4, 6, remaining time at 8 |
| `LightCtl.TemperatureStatusBytesSame` | mesh_light_ctl_client.c:464-468 | two statuses have the same Temperature Status encoding if and only if those five fields agree (lightness is not carried) |
| `LightCtl.TemperatureRangeStatusBytesFields` | mesh_light_ctl_client.c:480-482 | the Temperature Range Status encoding is 5 bytes: the status byte, then min and max level, which the Range Set decoder reads back |
| `LightCtl.DefaultBytesFields` | mesh_light_ctl_client.c:494-496 | the Default Status encoding is 6 bytes and the Default Set decoder reads the same default state back from it |
| `HciEvents.SendStatus` | mesh_light_ctl_client.c:444-455 | the buffer becomes header, then the CTL Status encoding, then its old tail; one transport send of CTL Status with the length header + 12 cut to 16 bits |
| `HciEvents.SendTemperatureStatus` | mesh_light_ctl_client.c:460-471 | the buffer becomes header, then the Temperature Status encoding, then its old tail; one transport send with length header + 12 cut to 16 bits |
| `HciEvents.SendTemperatureRangeStatus` | mesh_light_ctl_client.c:476-485 | the buffer becomes header, then the 5-byte Temperature Range Status encoding, then its old tail; one transport send with length header + 5 cut to 16 bits |
| `HciEvents.SendDefaultStatus` | mesh_light_ctl_client.c:490-499 | the buffer becomes header, then the 6-byte Default Status encoding, then its old tail, and the Default Set decoder reads the data back from after the header; one transport send with length header + 6 cut to 16 bits |
| `HciEvents.RelayStatus` | mesh_light_ctl_client.c:231-273 | for each of the four status events, the encoder its code selects writes that status's encoding after the header and makes one transport send of the matching host event |
| `HciEvents.MessageHandler` | mesh_light_ctl_client.c:211-280 | for every event, including unknown ones and a failed HCI event creation, the stack event is released exactly once and last, and no client send is made; unknown events create nothing; statuses are relayed with their encoding when the HCI event exists |
| `MeshStack.SessionReleases` | mesh_light_ctl_client.c:279 | over any session of handler runs that each make one release call, the number of release calls equals the number of runs |
| `HostCommands.Recognize` | mesh_light_ctl_client.c:291-305 | the command recognised has exactly the given opcode, and none is recognised when no command has it |
| `HostCommands.RecognizeOpcodeOf` | mesh_light_ctl_client.c:293-300 | with distinct opcodes, each command's opcode is recognised as that command |
| `HostCommands.ProcRxCmd` | mesh_light_ctl_client.c:286-348 | returns TRUE exactly for the eight opcodes; other opcodes make no call; a NULL event gives TRUE after the creation call only; otherwise exactly one send call follows, of the command the opcode names, carrying the request whose layout is the front of the payload |
| `AppInit.AppearanceBytes` | mesh_light_ctl_client.c:197-198 | the appearance becomes two bytes, low byte first, from which the read step gives it back |

## Left out

- The Light CTL message encoding of the mesh model itself (conversion of the
  millisecond transition time, transport security, segmentation,
  provisioning) lives in the vendor library behind
  `wiced_bt_mesh_model_light_ctl_client_send_*`; those calls appear only as
  trace entries with their arguments.
- `wiced_bt_mesh_create_event_from_wiced_hci`, `wiced_bt_mesh_create_hci_event`,
  `wiced_bt_mesh_send_hci_tx_complete` and `mesh_transport_send_data` are
  vendor calls: their results are parameters and their effects trace entries.
  The layout of the HCI event header is not modelled; only its size, `hdr`.
- The numeric values of the HCI opcodes and of the mesh event codes come from
  headers that are not part of this model; `OpcodeTable` and `MeshEvent` stand
  for them.
- `WICED_BT_TRACE` logging is diagnostic output only.
- The configuration tables `mesh_config`, `mesh_elements`,
  `mesh_element1_models`, `wiced_bt_mesh_app_func_table` and the property
  arrays are constants with nothing to verify; the `LOW_POWER_NODE` variant is
  a build choice.
- `mesh_app_init` apart from the appearance bytes: device name, the scan
  response element list and its registration, and the registration of the
  client model are configuration side effects on library globals.
- The build without `HCI_CONTROL` (the dispatcher then returns TRUE for every
  opcode and the handler relays nothing) is not modelled.
- The `length` argument of the `*_get` and `*_set` functions is ignored by the
  firmware and is not modelled.
- `LightCtl.DecodeCtlSet`, `LightCtl.DecodeTemperatureSet`,
  `LightCtl.DecodeDefaultSet`, `LightCtl.DecodeTemperatureRangeSet`: require
  the payload to hold the 12, 10, 6 or 4 bytes they read; the firmware reads
  them without checking the payload length, and a shorter payload is read
  past its end, which is not modelled.
- `HostCommands.ProcRxCmd`: requires the payload left after the stack's header
  to hold the bytes the recognised command's decoder reads, for the same
  reason.
- `HciEvents.MessageHandler`: what the vendor call `wiced_bt_mesh_send_hci_tx_complete`
  writes into the HCI event buffer is not modelled, so for a transmit-complete
  event the contract says nothing about the buffer afterwards; only for an
  unknown event, where no HCI event is created, is the buffer promised unchanged.
- `MeshStack.SessionReleases`: counts release calls only; a release call does
  not carry the identity of the event it releases, so the model does not show
  that each run releases its own event.
- `HciEvents.MessageHandler`: requires the HCI event buffer to have room for
  the status after the header; the firmware relies on the stack's buffer size.
