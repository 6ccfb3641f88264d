/** Names of axes and buttons: the code tables borrowed from linux/input.h and the
    placeholder name `unknown(0x..)` for a code missing from them. */
module Names {

  const AxisNames: map<nat, string> := map[
    0x00 := "x", 0x01 := "y", 0x02 := "z", 0x03 := "rx", 0x04 := "ry", 0x05 := "rz",
    0x06 := "trottle", 0x07 := "rudder", 0x08 := "wheel", 0x09 := "gas", 0x0a := "brake",
    0x10 := "hat0x", 0x11 := "hat0y", 0x12 := "hat1x", 0x13 := "hat1y",
    0x14 := "hat2x", 0x15 := "hat2y", 0x16 := "hat3x", 0x17 := "hat3y",
    0x18 := "pressure", 0x19 := "distance", 0x1a := "tilt_x", 0x1b := "tilt_y",
    0x1c := "tool_width", 0x20 := "volume", 0x28 := "misc"]

  const ButtonNames: map<nat, string> := map[
    0x120 := "trigger", 0x121 := "thumb", 0x122 := "thumb2", 0x123 := "top",
    0x124 := "top2", 0x125 := "pinkie", 0x126 := "base", 0x127 := "base2",
    0x128 := "base3", 0x129 := "base4", 0x12a := "base5", 0x12b := "base6",
    0x12f := "dead", 0x130 := "a", 0x131 := "b", 0x132 := "c", 0x133 := "x",
    0x134 := "y", 0x135 := "z", 0x136 := "tl", 0x137 := "tr", 0x138 := "tl2",
    0x139 := "tr2", 0x13a := "select", 0x13b := "start", 0x13c := "mode",
    0x13d := "thumbl", 0x13e := "thumbr",
    0x220 := "dpad_up", 0x221 := "dpad_down", 0x222 := "dpad_left", 0x223 := "dpad_right",
    // codes of the XBox 360 controller
    0x2c0 := "dpad_left", 0x2c1 := "dpad_right", 0x2c2 := "dpad_up", 0x2c3 := "dpad_down"]

  /** Minimum digit counts of the placeholders: '%02x' for axes, '%03x' for buttons. */
  const AxisWidth: nat := 2
  const ButtonWidth: nat := 3

  const HexChars: string := "0123456789abcdef"

  function DigitValue(c: char): (v: nat)
    ensures v < 16
    ensures c in HexChars ==> HexChars[v] == c
  {
    if '0' <= c <= '9' then c as nat - '0' as nat
    else if 'a' <= c <= 'f' then c as nat - 'a' as nat + 10
    else 0
  }

  /** The value of a string of lower-case hex digits, most significant first. */
  function HexValue(s: string): (v: nat)
  {
    if s == [] then 0 else 16 * HexValue(s[..|s| - 1]) + DigitValue(s[|s| - 1])
  }

  /** The lower-case hex digits of `n`, without leading zeros. */
  function Hex(n: nat): (s: string)
    ensures |s| >= 1 && s[0] in HexChars
    ensures forall i | 0 <= i < |s| :: s[i] in HexChars
    ensures n > 0 ==> s[0] != '0'
    ensures n == 0 ==> s == "0"
  {
    if n < 16 then [HexChars[n]] else Hex(n / 16) + [HexChars[n % 16]]
  }

  function Zeros(k: nat): (z: string)
    ensures |z| == k && forall i | 0 <= i < k :: z[i] == '0'
  {
    seq(k, _ => '0')
  }

  /** `'%0<width>x' % n`: the hex digits padded with zeros to `width`. */
  function PadHex(n: nat, width: nat): (s: string)
    ensures |s| == if |Hex(n)| >= width then |Hex(n)| else width
    ensures forall i | 0 <= i < |s| :: s[i] in HexChars
  {
    var h := Hex(n);
    if |h| >= width then h else Zeros(width - |h|) + h
  }

  lemma HexDigitValue(d: nat)
    requires d < 16
    ensures DigitValue(HexChars[d]) == d
  {
  }

  lemma {:induction false} HexRoundTrip(n: nat)
    ensures HexValue(Hex(n)) == n
  {
    if n < 16 {
      HexDigitValue(n);
    } else {
      HexDigitValue(n % 16);
      var s := Hex(n);
      assert s[..|s| - 1] == Hex(n / 16);
      HexRoundTrip(n / 16);
    }
  }

  lemma {:induction false} LeadingZero(s: string)
    ensures HexValue(['0'] + s) == HexValue(s)
  {
    if s != [] {
      var t := ['0'] + s;
      assert t[..|t| - 1] == ['0'] + s[..|s| - 1];
      LeadingZero(s[..|s| - 1]);
    }
  }

  lemma {:induction false} LeadingZeros(k: nat, s: string)
    ensures HexValue(Zeros(k) + s) == HexValue(s)
  {
    if k > 0 {
      var rest := Zeros(k - 1) + s;
      assert Zeros(k) + s == ['0'] + rest;
      LeadingZero(rest);
      LeadingZeros(k - 1, s);
    } else {
      assert Zeros(k) + s == s;
    }
  }

  /** Padding keeps the value: the placeholder digits spell the code. */
  lemma PadHexValue(n: nat, width: nat)
    ensures HexValue(PadHex(n, width)) == n
  {
    HexRoundTrip(n);
    var h := Hex(n);
    if |h| < width {
      LeadingZeros(width - |h|, h);
    }
  }

  /** The placeholder for a code missing from the table. */
  function UnknownName(code: nat, width: nat): (s: string)
    ensures |s| == |PadHex(code, width)| + 11
    ensures s[..10] == "unknown(0x" && s[|s| - 1] == ')'
    ensures s[10..|s| - 1] == PadHex(code, width)
    ensures HexValue(s[10..|s| - 1]) == code
  {
    var digits := PadHex(code, width);
    PadHexValue(code, width);
    var s := "unknown(0x" + digits + ")";
    assert s[10..|s| - 1] == digits;
    s
  }

  /** `table.get(code, placeholder)`. */
  function NameOf(table: map<nat, string>, code: nat, width: nat): (name: string)
    ensures code in table ==> name == table[code]
    ensures code !in table ==> name == UnknownName(code, width)
  {
    if code in table then table[code] else UnknownName(code, width)
  }

  /** The names of a sequence of codes, in order. */
  function Names(codes: seq<nat>, table: map<nat, string>, width: nat): (names: seq<string>)
    ensures |names| == |codes|
  {
    if codes == [] then []
    else Names(codes[..|codes| - 1], table, width) + [NameOf(table, codes[|codes| - 1], width)]
  }

  /** Position `i` of the names is the name of code `i`. */
  lemma {:induction false} NamesAt(codes: seq<nat>, table: map<nat, string>, width: nat, i: nat)
    requires i < |codes|
    ensures Names(codes, table, width)[i] == NameOf(table, codes[i], width)
  {
    var front := codes[..|codes| - 1];
    var names := Names(codes, table, width);
    var last := NameOf(table, codes[|codes| - 1], width);
    assert names == Names(front, table, width) + [last];
    if i < |front| {
      NamesAt(front, table, width, i);
      assert names[i] == Names(front, table, width)[i];
      assert front[i] == codes[i];
    } else {
      assert i == |codes| - 1;
      assert names[i] == last;
    }
  }

  /** The name table built from the first `count` codes of a device buffer
      (a slice: never more codes than the buffer holds). */
  function NameTable(codes: seq<nat>, count: nat, table: map<nat, string>, width: nat): (names: seq<string>)
    ensures |names| == if count < |codes| then count else |codes|
  {
    Names(codes[..if count < |codes| then count else |codes|], table, width)
  }

  /** Every entry of the name table is the table's name for its code, or the placeholder. */
  lemma NameTableAt(codes: seq<nat>, count: nat, table: map<nat, string>, width: nat, i: nat)
    requires i < count && i < |codes|
    ensures NameTable(codes, count, table, width)[i] == NameOf(table, codes[i], width)
  {
    var prefix := codes[..if count < |codes| then count else |codes|];
    NamesAt(prefix, table, width, i);
    assert prefix[i] == codes[i];
  }

  /** Reading one more code appends its name. */
  lemma NameTableSnoc(codes: seq<nat>, i: nat, table: map<nat, string>, width: nat)
    requires i < |codes|
    ensures NameTable(codes, i + 1, table, width) == NameTable(codes, i, table, width) + [NameOf(table, codes[i], width)]
  {
    assert codes[..i + 1][..i] == codes[..i];
  }
}
