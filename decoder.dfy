/** The joystick event record and the state update one record causes (`scan_joy`).
    A record is 8 bytes laid out as `struct` format 'IhBB' in little-endian order:
    a u32 timestamp, an i16 value, a u8 type and a u8 number. */
module Decoder {

  const RecordSize: nat := 8
  const U32Limit: int := 0x1_0000_0000

  datatype Option<T> = None | Some(value: T)

  /** A byte of the record, as an integer. */
  type Byte = b: int | 0 <= b < 0x100

  /** One decoded record. `kind` is the type byte, `number` the axis or button index. */
  datatype JsEvent = JsEvent(time: int, value: int, kind: Byte, number: Byte)

  /** The ranges of the packed fields: a u32 time and an i16 value. */
  predicate WellFormed(e: JsEvent)
  {
    0 <= e.time < U32Limit && -0x8000 <= e.value < 0x8000
  }

  /** Type bit 0x01: a button changed. */
  predicate IsButton(kind: Byte) { kind % 2 == 1 }

  /** Type bit 0x02: an axis moved. */
  predicate IsAxis(kind: Byte) { (kind / 2) % 2 == 1 }

  /** Type bit 0x80: a synthetic event sent when the device is opened. It only
      changes what a debug build prints, never the state. */
  predicate IsInitial(kind: Byte) { kind >= 0x80 }

  function U16(lo: Byte, hi: Byte): (u: int)
    ensures 0 <= u < 0x1_0000
  {
    lo + 0x100 * hi
  }

  /** `struct.unpack('IhBB', rec)`, little-endian. */
  function Unpack(rec: seq<Byte>): (e: JsEvent)
    requires |rec| == RecordSize
    ensures WellFormed(e)
    ensures e.kind == rec[6] && e.number == rec[7]
    ensures e.value < 0 <==> rec[5] >= 0x80
  {
    var time := U16(rec[0], rec[1]) + 0x1_0000 * U16(rec[2], rec[3]);
    var raw := U16(rec[4], rec[5]);
    JsEvent(time, if raw < 0x8000 then raw else raw - 0x1_0000, rec[6], rec[7])
  }

  /** `struct.pack('IhBB', ...)`: the inverse of `Unpack` on well-formed events. */
  function Pack(e: JsEvent): (rec: seq<Byte>)
    requires WellFormed(e)
    ensures |rec| == RecordSize
  {
    var lo, hi := e.time % 0x1_0000, e.time / 0x1_0000;
    var raw := if e.value < 0 then e.value + 0x1_0000 else e.value;
    [lo % 0x100, lo / 0x100, hi % 0x100, hi / 0x100,
     raw % 0x100, raw / 0x100, e.kind, e.number]
  }

  lemma SplitU16(u: int)
    requires 0 <= u < 0x1_0000
    ensures U16(u % 0x100, u / 0x100) == u
  {
  }

  lemma {:induction false} UnpackPack(e: JsEvent)
    requires WellFormed(e)
    ensures Unpack(Pack(e)) == e
  {
    var rec := Pack(e);
    var lo, hi := e.time % 0x1_0000, e.time / 0x1_0000;
    SplitU16(lo);
    SplitU16(hi);
    var raw := if e.value < 0 then e.value + 0x1_0000 else e.value;
    SplitU16(raw);
  }

  /** Dividing `lo + 0x100 * hi` by 0x100 gives back `hi`, with remainder `lo`. */
  lemma JoinByte(lo: int, hi: int)
    requires 0 <= lo < 0x100
    ensures (lo + 0x100 * hi) % 0x100 == lo && (lo + 0x100 * hi) / 0x100 == hi
  {
  }

  /** Dividing `lo + 0x1_0000 * hi` by 0x1_0000 gives back `hi`, with remainder `lo`. */
  lemma JoinWord(lo: int, hi: int)
    requires 0 <= lo < 0x1_0000
    ensures (lo + 0x1_0000 * hi) % 0x1_0000 == lo && (lo + 0x1_0000 * hi) / 0x1_0000 == hi
  {
  }

  lemma {:induction false} PackUnpack(rec: seq<Byte>)
    requires |rec| == RecordSize
    ensures Pack(Unpack(rec)) == rec
  {
    var e := Unpack(rec);
    var lo, hi := U16(rec[0], rec[1]), U16(rec[2], rec[3]);
    JoinWord(lo, hi);
    JoinByte(rec[0], rec[1]);
    JoinByte(rec[2], rec[3]);
    JoinByte(rec[4], rec[5]);
    var p := Pack(e);
    assert p[0] == rec[0] && p[1] == rec[1] && p[2] == rec[2] && p[3] == rec[3];
    assert p[4] == rec[4] && p[5] == rec[5];
  }

  /** Axis normalisation: the raw i16 divided by 32767. */
  function Normalize(value: int): (r: real)
    requires -0x8000 <= value < 0x8000
    ensures -32768.0 / 32767.0 <= r <= 1.0
    ensures r * 32767.0 == value as real
    ensures r < 0.0 <==> value < 0
  {
    value as real / 32767.0
  }

  /** What one non-blocking read of up to 8 bytes gives: nothing queued (the read
      raises BlockingIOError), or the bytes read, possibly none. */
  datatype ReadResult = NoData | Bytes(data: seq<Byte>)

  /** The record a read delivers, if any. */
  function Received(read: ReadResult): (r: Option<JsEvent>)
    requires read.Bytes? ==> |read.data| == 0 || |read.data| == RecordSize
    ensures r.Some? <==> read.Bytes? && |read.data| == RecordSize
    ensures r.Some? ==> WellFormed(r.value) && Pack(r.value) == read.data
  {
    if read.NoData? || |read.data| == 0 then None
    else
      PackUnpack(read.data);
      Some(Unpack(read.data))
  }

  /** What the program demands of a read: a whole record or nothing, and an index
      inside the name table its type bits select (otherwise it raises an error). */
  predicate Decodable(read: ReadResult, axisCount: nat, buttonCount: nat)
  {
    read.Bytes? && |read.data| > 0 ==>
      |read.data| == RecordSize &&
      (IsButton(read.data[6]) ==> read.data[7] < buttonCount) &&
      (IsAxis(read.data[6]) ==> read.data[7] < axisCount)
  }

  /** The two state dictionaries: axis name to normalised value, button name to
      the raw value of its last event. */
  datatype States = States(axes: map<string, real>, buttons: map<string, int>)

  /** The state after applying one record: a button record stores the raw value
      under the button's name, an axis record the normalised value under the
      axis's name; an empty name is skipped. Both can apply to one record. */
  function Apply(e: JsEvent, axisMap: seq<string>, buttonMap: seq<string>, s: States): (s': States)
    requires WellFormed(e)
    requires IsButton(e.kind) ==> e.number < |buttonMap|
    requires IsAxis(e.kind) ==> e.number < |axisMap|
    ensures forall n :: n in s'.buttons <==>
      n in s.buttons || (IsButton(e.kind) && n == buttonMap[e.number] && n != "")
    ensures forall n :: n in s'.axes <==>
      n in s.axes || (IsAxis(e.kind) && n == axisMap[e.number] && n != "")
  {
    var buttons :=
      if IsButton(e.kind) && buttonMap[e.number] != "" then s.buttons[buttonMap[e.number] := e.value]
      else s.buttons;
    var axes :=
      if IsAxis(e.kind) && axisMap[e.number] != "" then s.axes[axisMap[e.number] := Normalize(e.value)]
      else s.axes;
    States(axes, buttons)
  }

  /** The effect of one call of `scan_joy`. */
  function Scan(read: ReadResult, axisMap: seq<string>, buttonMap: seq<string>, s: States): (s': States)
    requires Decodable(read, |axisMap|, |buttonMap|)
    ensures forall n :: n in s'.buttons ==> n in s.buttons || n in buttonMap
    ensures forall n :: n in s'.axes ==> n in s.axes || n in axisMap
  {
    match Received(read)
    case None => s
    case Some(e) => Apply(e, axisMap, buttonMap, s)
  }

  /** An empty read, or no data at all, leaves both dictionaries as they were. */
  lemma ScanNothingRead(read: ReadResult, axisMap: seq<string>, buttonMap: seq<string>, s: States)
    requires read.NoData? || read.data == []
    ensures Scan(read, axisMap, buttonMap, s) == s
  {
  }

  /** A record whose type has neither the button nor the axis bit (the 0x80 bit
      alone, say) changes nothing. */
  lemma ScanInitialOnly(rec: seq<Byte>, axisMap: seq<string>, buttonMap: seq<string>, s: States)
    requires |rec| == RecordSize && !IsButton(rec[6]) && !IsAxis(rec[6])
    ensures Scan(Bytes(rec), axisMap, buttonMap, s) == s
  {
  }

  /** The 0x80 bit never matters: a record marked initial changes the state
      exactly as the same record without the mark. */
  lemma InitialBitIgnored(rec: seq<Byte>, axisMap: seq<string>, buttonMap: seq<string>, s: States)
    requires |rec| == RecordSize && !IsInitial(rec[6])
    requires Decodable(Bytes(rec), |axisMap|, |buttonMap|)
    ensures IsInitial(rec[6] + 0x80)
    ensures Decodable(Bytes(rec[6 := rec[6] + 0x80]), |axisMap|, |buttonMap|)
    ensures Scan(Bytes(rec[6 := rec[6] + 0x80]), axisMap, buttonMap, s) == Scan(Bytes(rec), axisMap, buttonMap, s)
  {
    var k := rec[6];
    var marked := rec[6 := k + 0x80];
    assert IsButton(k + 0x80) == IsButton(k) && IsAxis(k + 0x80) == IsAxis(k);
    var e := Unpack(rec);
    assert Unpack(marked) == e.(kind := k + 0x80);
    assert Received(Bytes(marked)) == Some(e.(kind := k + 0x80));
  }

  /** A record changes at most the entry its button bit names in the button
      dictionary, to the raw value, and the entry its axis bit names in the axis
      dictionary, to the value over 32767; every other entry stays. */
  lemma ScanUpdates(rec: seq<Byte>, axisMap: seq<string>, buttonMap: seq<string>, s: States, name: string)
    requires Decodable(Bytes(rec), |axisMap|, |buttonMap|) && |rec| == RecordSize
    ensures var e, r := Unpack(rec), Scan(Bytes(rec), axisMap, buttonMap, s);
      (IsButton(e.kind) && name == buttonMap[e.number] && name != "" ==>
        name in r.buttons && r.buttons[name] == e.value) &&
      (!(IsButton(e.kind) && name == buttonMap[e.number] && name != "") ==>
        (name in r.buttons <==> name in s.buttons) &&
        (name in s.buttons ==> r.buttons[name] == s.buttons[name])) &&
      (IsAxis(e.kind) && name == axisMap[e.number] && name != "" ==>
        name in r.axes && r.axes[name] * 32767.0 == e.value as real) &&
      (!(IsAxis(e.kind) && name == axisMap[e.number] && name != "") ==>
        (name in r.axes <==> name in s.axes) &&
        (name in s.axes ==> r.axes[name] == s.axes[name]))
  {
  }

  /** The normalised range: every stored axis value lies in [-32768/32767, 1]. */
  predicate InRange(s: States)
  {
    forall n :: n in s.axes ==> -32768.0 / 32767.0 <= s.axes[n] <= 1.0
  }

  /** A scan keeps every stored axis value in the normalised range. */
  lemma ScanKeepsRange(read: ReadResult, axisMap: seq<string>, buttonMap: seq<string>, s: States)
    requires Decodable(read, |axisMap|, |buttonMap|) && InRange(s)
    ensures InRange(Scan(read, axisMap, buttonMap, s))
  {
  }
}
