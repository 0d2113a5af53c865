/**
  The one computation in mesh_app_init that this model keeps: the
  appearance value placed in the scan response of an unprovisioned device
  as two bytes, low byte first.
 */
module AppInit {
  import opened Stream

  /** The `buf` of the appearance advertising element. */
  method AppearanceBytes(appearance: uint16) returns (buf: array<uint8>)
    ensures buf.Length == 2
    ensures buf[..] == LE16(appearance)
    ensures StreamToU16(buf[..]).0 == appearance
  {
    buf := new uint8[2];
    buf[0] := appearance % 0x100;
    buf[1] := (appearance / 0x100) % 0x100;
    ReadWrite16(appearance, []);
    assert buf[..] == LE16(appearance) + [];
  }
}
