/**
  The Light CTL records that cross the host-control channel, their fixed
  little-endian layouts, and the four decoders that turn a host command
  payload into the request handed to the mesh stack.
 */
module LightCtl {
  import opened Stream

  /** Lightness, temperature and delta UV of a CTL state. */
  datatype LightCtlData = LightCtlData(lightness: uint16, temperature: uint16, deltaUv: uint16)

  /** Request of a Light CTL Set command. */
  datatype LightCtlSet = LightCtlSet(target: LightCtlData, transitionTime: uint32, delay: uint16)

  /** Request of a Light CTL Temperature Set command. */
  datatype LightCtlTemperatureSet =
    LightCtlTemperatureSet(targetTemperature: uint16, targetDeltaUv: uint16, transitionTime: uint32, delay: uint16)

  /** Default CTL state: the request of a Default Set and the data of a Default Status. */
  datatype LightCtlDefaultData = LightCtlDefaultData(defaultStatus: LightCtlData)

  /** Request of a Temperature Range Set command. */
  datatype LightCtlTemperatureRangeData = LightCtlTemperatureRangeData(minLevel: uint16, maxLevel: uint16)

  /** Data of a CTL Status or a CTL Temperature Status reported by a server. */
  datatype LightCtlStatusData = LightCtlStatusData(present: LightCtlData, target: LightCtlData, remainingTime: uint32)

  /** Data of a Temperature Range Status reported by a server. */
  datatype LightCtlTemperatureRangeStatusData =
    LightCtlTemperatureRangeStatusData(status: uint8, minLevel: uint16, maxLevel: uint16)

  // Host command payload layouts: the bytes each decoder expects at the front of its payload.

  function CtlSetBytes(s: LightCtlSet): seq<uint8>
  {
    LE16(s.target.lightness) + LE16(s.target.temperature) + LE16(s.target.deltaUv)
      + LE32(s.transitionTime) + LE16(s.delay)
  }

  function TemperatureSetBytes(s: LightCtlTemperatureSet): seq<uint8>
  {
    LE16(s.targetTemperature) + LE16(s.targetDeltaUv) + LE32(s.transitionTime) + LE16(s.delay)
  }

  /** Layout of the default CTL state, shared by the Default Set payload and the Default Status event. */
  function DefaultBytes(d: LightCtlDefaultData): seq<uint8>
  {
    LE16(d.defaultStatus.lightness) + LE16(d.defaultStatus.temperature) + LE16(d.defaultStatus.deltaUv)
  }

  function TemperatureRangeBytes(r: LightCtlTemperatureRangeData): seq<uint8>
  {
    LE16(r.minLevel) + LE16(r.maxLevel)
  }

  // Host event layouts: what each status encoder writes after the event header.

  /** CTL Status: present and target lightness and temperature, then the remaining time. */
  function StatusBytes(s: LightCtlStatusData): seq<uint8>
  {
    LE16(s.present.lightness) + LE16(s.present.temperature)
      + LE16(s.target.lightness) + LE16(s.target.temperature) + LE32(s.remainingTime)
  }

  /** CTL Temperature Status: present and target temperature and delta UV, then the remaining time. */
  function TemperatureStatusBytes(s: LightCtlStatusData): seq<uint8>
  {
    LE16(s.present.temperature) + LE16(s.present.deltaUv)
      + LE16(s.target.temperature) + LE16(s.target.deltaUv) + LE32(s.remainingTime)
  }

  /** Temperature Range Status: the status byte, then the range in the Range Set layout. */
  function TemperatureRangeStatusBytes(s: LightCtlTemperatureRangeStatusData): seq<uint8>
  {
    [s.status] + TemperatureRangeBytes(LightCtlTemperatureRangeData(s.minLevel, s.maxLevel))
  }

  // Decoders. The firmware reads its fields without looking at the payload
  // length; here the payload must hold the bytes read.

  /** Decoder of mesh_light_ctl_client_set: the request is the one whose layout is the first 12 bytes. */
  function DecodeCtlSet(p: seq<uint8>): (r: LightCtlSet)
    requires |p| >= 12
    ensures CtlSetBytes(r) == p[..12]
  {
    var (lightness, p1) := StreamToU16(p);
    var (temperature, p2) := StreamToU16(p1);
    var (deltaUv, p3) := StreamToU16(p2);
    var (transitionTime, p4) := StreamToU32(p3);
    var (delay, _) := StreamToU16(p4);
    assert p[..12] == p[..2] + p1[..2] + p2[..2] + p3[..4] + p4[..2];
    LightCtlSet(LightCtlData(lightness, temperature, deltaUv), transitionTime, delay)
  }

  /** Decoder of mesh_light_ctl_client_temperature_set: the layout of the request is the first 10 bytes. */
  function DecodeTemperatureSet(p: seq<uint8>): (r: LightCtlTemperatureSet)
    requires |p| >= 10
    ensures TemperatureSetBytes(r) == p[..10]
  {
    var (targetTemperature, p1) := StreamToU16(p);
    var (targetDeltaUv, p2) := StreamToU16(p1);
    var (transitionTime, p3) := StreamToU32(p2);
    var (delay, _) := StreamToU16(p3);
    assert p[..10] == p[..2] + p1[..2] + p2[..4] + p3[..2];
    LightCtlTemperatureSet(targetTemperature, targetDeltaUv, transitionTime, delay)
  }

  /** Decoder of mesh_light_ctl_client_default_set: the layout of the request is the first 6 bytes. */
  function DecodeDefaultSet(p: seq<uint8>): (r: LightCtlDefaultData)
    requires |p| >= 6
    ensures DefaultBytes(r) == p[..6]
  {
    var (lightness, p1) := StreamToU16(p);
    var (temperature, p2) := StreamToU16(p1);
    var (deltaUv, _) := StreamToU16(p2);
    assert p[..6] == p[..2] + p1[..2] + p2[..2];
    LightCtlDefaultData(LightCtlData(lightness, temperature, deltaUv))
  }

  /** Decoder of mesh_light_ctl_client_temperature_range_set: the layout of the request is the first 4 bytes. */
  function DecodeTemperatureRangeSet(p: seq<uint8>): (r: LightCtlTemperatureRangeData)
    requires |p| >= 4
    ensures TemperatureRangeBytes(r) == p[..4]
  {
    var (minLevel, p1) := StreamToU16(p);
    var (maxLevel, _) := StreamToU16(p1);
    assert p[..4] == p[..2] + p1[..2];
    LightCtlTemperatureRangeData(minLevel, maxLevel)
  }

  // Round trips: each decoder gives back the request whose layout it reads,
  // whatever follows that layout in the payload.

  lemma {:induction false} DecodeCtlSetRoundTrip(s: LightCtlSet, rest: seq<uint8>)
    ensures DecodeCtlSet(CtlSetBytes(s) + rest) == s
  {
    var t := s.target;
    var p4 := LE16(s.delay) + rest;
    var p3 := LE32(s.transitionTime) + p4;
    var p2 := LE16(t.deltaUv) + p3;
    var p1 := LE16(t.temperature) + p2;
    assert CtlSetBytes(s) + rest == LE16(t.lightness) + p1;
    ReadWrite16(t.lightness, p1);
    ReadWrite16(t.temperature, p2);
    ReadWrite16(t.deltaUv, p3);
    ReadWrite32(s.transitionTime, p4);
    ReadWrite16(s.delay, rest);
  }

  lemma {:induction false} DecodeTemperatureSetRoundTrip(s: LightCtlTemperatureSet, rest: seq<uint8>)
    ensures DecodeTemperatureSet(TemperatureSetBytes(s) + rest) == s
  {
    var p3 := LE16(s.delay) + rest;
    var p2 := LE32(s.transitionTime) + p3;
    var p1 := LE16(s.targetDeltaUv) + p2;
    assert TemperatureSetBytes(s) + rest == LE16(s.targetTemperature) + p1;
    ReadWrite16(s.targetTemperature, p1);
    ReadWrite16(s.targetDeltaUv, p2);
    ReadWrite32(s.transitionTime, p3);
    ReadWrite16(s.delay, rest);
  }

  /**
    The Default Set decoder applied to what the Default Status encoder writes
    gives back the same lightness, temperature and delta UV.
   */
  lemma {:induction false} DecodeDefaultSetRoundTrip(d: LightCtlDefaultData, rest: seq<uint8>)
    ensures DecodeDefaultSet(DefaultBytes(d) + rest) == d
  {
    var v := d.defaultStatus;
    var p2 := LE16(v.deltaUv) + rest;
    var p1 := LE16(v.temperature) + p2;
    assert DefaultBytes(d) + rest == LE16(v.lightness) + p1;
    ReadWrite16(v.lightness, p1);
    ReadWrite16(v.temperature, p2);
    ReadWrite16(v.deltaUv, rest);
  }

  lemma {:induction false} DecodeTemperatureRangeSetRoundTrip(r: LightCtlTemperatureRangeData, rest: seq<uint8>)
    ensures DecodeTemperatureRangeSet(TemperatureRangeBytes(r) + rest) == r
  {
    var p1 := LE16(r.maxLevel) + rest;
    assert TemperatureRangeBytes(r) + rest == LE16(r.minLevel) + p1;
    ReadWrite16(r.minLevel, p1);
    ReadWrite16(r.maxLevel, rest);
  }

  // Each decoder consumes a fixed number of bytes: its result depends on those bytes only.

  lemma DecodeCtlSetPrefix(p: seq<uint8>, q: seq<uint8>)
    requires |p| >= 12 && |q| >= 12
    ensures DecodeCtlSet(p) == DecodeCtlSet(q) <==> p[..12] == q[..12]
  {
    if p[..12] == q[..12] {
      var a, b := DecodeCtlSet(p), DecodeCtlSet(q);
      DecodeCtlSetRoundTrip(a, []);
      DecodeCtlSetRoundTrip(b, []);
      assert CtlSetBytes(a) + [] == CtlSetBytes(b) + [];
    }
  }

  lemma DecodeTemperatureSetPrefix(p: seq<uint8>, q: seq<uint8>)
    requires |p| >= 10 && |q| >= 10
    ensures DecodeTemperatureSet(p) == DecodeTemperatureSet(q) <==> p[..10] == q[..10]
  {
    if p[..10] == q[..10] {
      var a, b := DecodeTemperatureSet(p), DecodeTemperatureSet(q);
      DecodeTemperatureSetRoundTrip(a, []);
      DecodeTemperatureSetRoundTrip(b, []);
      assert TemperatureSetBytes(a) + [] == TemperatureSetBytes(b) + [];
    }
  }

  lemma DecodeDefaultSetPrefix(p: seq<uint8>, q: seq<uint8>)
    requires |p| >= 6 && |q| >= 6
    ensures DecodeDefaultSet(p) == DecodeDefaultSet(q) <==> p[..6] == q[..6]
  {
    if p[..6] == q[..6] {
      var a, b := DecodeDefaultSet(p), DecodeDefaultSet(q);
      DecodeDefaultSetRoundTrip(a, []);
      DecodeDefaultSetRoundTrip(b, []);
      assert DefaultBytes(a) + [] == DefaultBytes(b) + [];
    }
  }

  lemma DecodeTemperatureRangeSetPrefix(p: seq<uint8>, q: seq<uint8>)
    requires |p| >= 4 && |q| >= 4
    ensures DecodeTemperatureRangeSet(p) == DecodeTemperatureRangeSet(q) <==> p[..4] == q[..4]
  {
    if p[..4] == q[..4] {
      var a, b := DecodeTemperatureRangeSet(p), DecodeTemperatureRangeSet(q);
      DecodeTemperatureRangeSetRoundTrip(a, []);
      DecodeTemperatureRangeSetRoundTrip(b, []);
      assert TemperatureRangeBytes(a) + [] == TemperatureRangeBytes(b) + [];
    }
  }

  /** The documented CTL Set payload decodes to lightness 10000, temperature 100, delta UV 0, 1000 ms, no delay. */
  lemma DecodeCtlSetExample()
    ensures DecodeCtlSet([0x10, 0x27, 0x64, 0x00, 0x00, 0x00, 0xE8, 0x03, 0x00, 0x00, 0x00, 0x00])
         == LightCtlSet(LightCtlData(10000, 100, 0), 1000, 0)
  {
  }

  // Status encodings: the read step gives back every field the encoder wrote,
  // and two statuses have the same encoding exactly when those fields agree.

  lemma {:induction false} StatusBytesFields(s: LightCtlStatusData)
    ensures var b := StatusBytes(s);
      && |b| == 12
      && StreamToU16(b).0 == s.present.lightness
      && StreamToU16(b[2..]).0 == s.present.temperature
      && StreamToU16(b[4..]).0 == s.target.lightness
      && StreamToU16(b[6..]).0 == s.target.temperature
      && StreamToU32(b[8..]).0 == s.remainingTime
  {
    var b := StatusBytes(s);
    var p4 := LE32(s.remainingTime) + [];
    var p3 := LE16(s.target.temperature) + p4;
    var p2 := LE16(s.target.lightness) + p3;
    var p1 := LE16(s.present.temperature) + p2;
    assert b == LE16(s.present.lightness) + p1;
    ReadWrite16(s.present.lightness, p1);
    ReadWrite16(s.present.temperature, p2);
    ReadWrite16(s.target.lightness, p3);
    ReadWrite16(s.target.temperature, p4);
    ReadWrite32(s.remainingTime, []);
  }

  /** The CTL Status encoding carries lightness, temperature and remaining time, and not delta UV. */
  lemma StatusBytesSame(a: LightCtlStatusData, b: LightCtlStatusData)
    ensures StatusBytes(a) == StatusBytes(b) <==>
      && a.present.lightness == b.present.lightness && a.present.temperature == b.present.temperature
      && a.target.lightness == b.target.lightness && a.target.temperature == b.target.temperature
      && a.remainingTime == b.remainingTime
  {
    StatusBytesFields(a);
    StatusBytesFields(b);
  }

  lemma {:induction false} TemperatureStatusBytesFields(s: LightCtlStatusData)
    ensures var b := TemperatureStatusBytes(s);
      && |b| == 12
      && StreamToU16(b).0 == s.present.temperature
      && StreamToU16(b[2..]).0 == s.present.deltaUv
      && StreamToU16(b[4..]).0 == s.target.temperature
      && StreamToU16(b[6..]).0 == s.target.deltaUv
      && StreamToU32(b[8..]).0 == s.remainingTime
  {
    var b := TemperatureStatusBytes(s);
    var p4 := LE32(s.remainingTime) + [];
    var p3 := LE16(s.target.deltaUv) + p4;
    var p2 := LE16(s.target.temperature) + p3;
    var p1 := LE16(s.present.deltaUv) + p2;
    assert b == LE16(s.present.temperature) + p1;
    ReadWrite16(s.present.temperature, p1);
    ReadWrite16(s.present.deltaUv, p2);
    ReadWrite16(s.target.temperature, p3);
    ReadWrite16(s.target.deltaUv, p4);
    ReadWrite32(s.remainingTime, []);
  }

  /** The CTL Temperature Status encoding carries temperature, delta UV and remaining time, and not lightness. */
  lemma TemperatureStatusBytesSame(a: LightCtlStatusData, b: LightCtlStatusData)
    ensures TemperatureStatusBytes(a) == TemperatureStatusBytes(b) <==>
      && a.present.temperature == b.present.temperature && a.present.deltaUv == b.present.deltaUv
      && a.target.temperature == b.target.temperature && a.target.deltaUv == b.target.deltaUv
      && a.remainingTime == b.remainingTime
  {
    TemperatureStatusBytesFields(a);
    TemperatureStatusBytesFields(b);
  }

  /**
    The Temperature Range Status encoding is 5 bytes: the status byte, then
    the range, which the Range Set decoder reads back.
   */
  lemma TemperatureRangeStatusBytesFields(s: LightCtlTemperatureRangeStatusData)
    ensures var b := TemperatureRangeStatusBytes(s);
      && |b| == 5
      && b[0] == s.status
      && DecodeTemperatureRangeSet(b[1..]) == LightCtlTemperatureRangeData(s.minLevel, s.maxLevel)
  {
    var r := LightCtlTemperatureRangeData(s.minLevel, s.maxLevel);
    assert TemperatureRangeStatusBytes(s)[1..] == TemperatureRangeBytes(r) + [];
    DecodeTemperatureRangeSetRoundTrip(r, []);
  }

  /** The Default Status encoding is 6 bytes, which the Default Set decoder reads back. */
  lemma DefaultBytesFields(d: LightCtlDefaultData)
    ensures |DefaultBytes(d)| == 6
    ensures DecodeDefaultSet(DefaultBytes(d)) == d
  {
    assert DefaultBytes(d) == DefaultBytes(d) + [];
    DecodeDefaultSetRoundTrip(d, []);
  }
}
