/**
 The character LCD driver: an HD44780-style controller wired in 4-bit mode.
 Every byte goes out as two nibbles, high nibble first, on four data lines
 spread over three ports (D4 = P2.7, D5 = P8.0, D6 = P5.1, D7 = P2.5), with
 RS (P1.0) low for commands and high for data, and a pulse on E (P1.1) that
 makes the controller latch RS and the data lines.

 The driver's observable output is the list of latches the controller sees
 (`bus`); the port registers are kept alongside so that the pin-level
 behaviour, and what it leaves untouched, can be stated. Delays are omitted.
 */
module Lcd {
  import opened Registers
  import opened Wrappers

  const LCD_RS: bv8 := BIT0
  const LCD_E: bv8 := BIT1
  const LCD_D4: bv8 := BIT7
  const LCD_D5: bv8 := BIT0
  const LCD_D6: bv8 := BIT1
  const LCD_D7: bv8 := BIT5

  /** HD44780 commands the driver issues. */
  const CLEAR_DISPLAY: bv8 := 0x01
  const LINE1_HOME: bv8 := 0x80
  const LINE2_HOME: bv8 := 0xC0
  const FUNCTION_SET_4BIT_2LINE: bv8 := 0x28
  const DISPLAY_ON: bv8 := 0x0C
  const ENTRY_INCREMENT: bv8 := 0x06

  /** The port registers the LCD lines live on. */
  datatype Ports = Ports(
    p1dir: bv8, p1out: bv8,
    p2dir: bv8, p2out: bv8,
    p5dir: bv8, p5out: bv8,
    p8dir: bv8, p8out: bv8)

  /** One latch of the controller: the RS level (true = data) and the four data lines. */
  datatype Strobe = Strobe(rs: bool, nibble: bv8)

  /** The port registers together with every latch the controller has seen so far. */
  datatype Display = Display(ports: Ports, bus: seq<Strobe>)

  /** The nibble currently presented on D4..D7. */
  function DataPins(p: Ports): bv8 {
    (if IsSet(p.p2out, LCD_D4) then 0x01 else 0)
    | (if IsSet(p.p8out, LCD_D5) then 0x02 else 0)
    | (if IsSet(p.p5out, LCD_D6) then 0x04 else 0)
    | (if IsSet(p.p2out, LCD_D7) then 0x08 else 0)
  }

  /** The data lines do not depend on port 1. */
  lemma DataPinsIgnoreP1(a: Ports, b: Ports)
    requires b == a.(p1out := b.p1out)
    ensures DataPins(b) == DataPins(a)
  {
  }

  /** `b` differs from `a` at most on the six LCD lines of the output registers. */
  predicate OnlyLcdPinsChanged(a: Ports, b: Ports) {
    && b.p1dir == a.p1dir && b.p2dir == a.p2dir && b.p5dir == a.p5dir && b.p8dir == a.p8dir
    && SameOutside(b.p1out, a.p1out, LCD_RS | LCD_E)
    && SameOutside(b.p2out, a.p2out, LCD_D4 | LCD_D7)
    && SameOutside(b.p5out, a.p5out, LCD_D6)
    && SameOutside(b.p8out, a.p8out, LCD_D5)
  }

  /**
   `b` differs from `a` at most in the direction and output bits of the six
   LCD lines: what `lcdInit` is allowed to touch.
   */
  predicate OnlyLcdLinesTouched(a: Ports, b: Ports) {
    && SameOutside(b.p1dir, a.p1dir, LCD_RS | LCD_E) && SameOutside(b.p1out, a.p1out, LCD_RS | LCD_E)
    && SameOutside(b.p2dir, a.p2dir, LCD_D4 | LCD_D7) && SameOutside(b.p2out, a.p2out, LCD_D4 | LCD_D7)
    && SameOutside(b.p5dir, a.p5dir, LCD_D6) && SameOutside(b.p5out, a.p5out, LCD_D6)
    && SameOutside(b.p8dir, a.p8dir, LCD_D5) && SameOutside(b.p8out, a.p8out, LCD_D5)
  }

  lemma OnlyLcdPinsChangedTrans(a: Ports, b: Ports, c: Ports)
    requires OnlyLcdPinsChanged(a, b) && OnlyLcdPinsChanged(b, c)
    ensures OnlyLcdPinsChanged(a, c)
  {
  }

  /** Registers equal outside `m` agree on every bit of `pin` when `pin` lies outside `m`. */
  lemma SameOutsideKeepsPin(a: bv8, b: bv8, m: bv8, pin: bv8)
    requires SameOutside(a, b, m) && pin & m == 0
    ensures IsSet(a, pin) == IsSet(b, pin)
  {
  }

  lemma SameOutsideCompose(a: bv8, b: bv8, c: bv8, m1: bv8, m2: bv8)
    requires SameOutside(a, b, m1) && SameOutside(b, c, m2)
    ensures SameOutside(a, c, m1 | m2)
  {
  }

  /** Four pin levels read as a nibble give back the nibble whose bits they are. */
  lemma NibbleFromPins(nibble: bv8, b0: bool, b1: bool, b2: bool, b3: bool)
    requires b0 == (nibble & 0x01 != 0) && b1 == (nibble & 0x02 != 0)
    requires b2 == (nibble & 0x04 != 0) && b3 == (nibble & 0x08 != 0)
    ensures (if b0 then 0x01 else 0) | (if b1 then 0x02 else 0) | (if b2 then 0x04 else 0) | (if b3 then 0x08 else 0)
         == nibble & 0x0F
  {
  }

  /**
   The data-line half of `lcdSendNibble`: each of the nibble's four bits goes
   to its own pin by read-modify-write of that pin's port.
   */
  function PresentNibble(p: Ports, nibble: bv8): (h: Ports)
    ensures DataPins(h) == nibble & 0x0F
    ensures SameOutside(h.p2out, p.p2out, LCD_D4 | LCD_D7)
    ensures SameOutside(h.p8out, p.p8out, LCD_D5) && SameOutside(h.p5out, p.p5out, LCD_D6)
    ensures h == p.(p2out := h.p2out, p8out := h.p8out, p5out := h.p5out)
  {
    var b0 := nibble & 0x01 != 0;
    var b1 := nibble & 0x02 != 0;
    var b2 := nibble & 0x04 != 0;
    var b3 := nibble & 0x08 != 0;
    var p2a := Drive(p.p2out, LCD_D4, b0);
    var p2 := Drive(p2a, LCD_D7, b3);
    var h := p.(p2out := p2, p8out := Drive(p.p8out, LCD_D5, b1), p5out := Drive(p.p5out, LCD_D6, b2));
    SameOutsideKeepsPin(p2, p2a, LCD_D7, LCD_D4);
    SameOutsideCompose(p2, p2a, p.p2out, LCD_D7, LCD_D4);
    assert LCD_D7 | LCD_D4 == LCD_D4 | LCD_D7;
    NibbleFromPins(nibble, b0, b1, b2, b3);
    h
  }

  /**
   The first part of `lcdSendNibble`, up to the moment E is high: RS at the
   level of the transfer kind, the nibble on D4..D7, then E raised.
   */
  function Presented(p: Ports, nibble: bv8, rsHigh: bool): (h: Ports)
    ensures DataPins(h) == nibble & 0x0F
    ensures IsSet(h.p1out, LCD_RS) == rsHigh && IsSet(h.p1out, LCD_E)
    ensures OnlyLcdPinsChanged(p, h)
  {
    var rs := Drive(p.p1out, LCD_RS, rsHigh);
    var data := PresentNibble(p.(p1out := rs), nibble);
    var h := data.(p1out := Drive(rs, LCD_E, true));
    SameOutsideKeepsPin(h.p1out, rs, LCD_E, LCD_RS);
    SameOutsideCompose(h.p1out, rs, p.p1out, LCD_E, LCD_RS);
    assert LCD_E | LCD_RS == LCD_RS | LCD_E;
    DataPinsIgnoreP1(data, h);
    h
  }

  /**
   `lcdSendNibble`: set RS for the transfer kind, put the nibble's four bits on
   D4..D7, then pulse E. The controller latches what the pins show while E is
   high.
   */
  function SendNibble(l: Display, nibble: bv8, isCommand: int): (r: Display)
    ensures r.bus == l.bus + [Strobe(isCommand == 0, nibble & 0x0F)]
    ensures DataPins(r.ports) == nibble & 0x0F
    ensures IsSet(r.ports.p1out, LCD_RS) <==> isCommand == 0
    ensures !IsSet(r.ports.p1out, LCD_E)
    ensures OnlyLcdPinsChanged(l.ports, r.ports)
  {
    var high := Presented(l.ports, nibble, isCommand == 0);
    var latched := Strobe(IsSet(high.p1out, LCD_RS), DataPins(high));
    var low := high.(p1out := Drive(high.p1out, LCD_E, false));
    SameOutsideKeepsPin(low.p1out, high.p1out, LCD_E, LCD_RS);
    SameOutsideCompose(low.p1out, high.p1out, high.p1out, LCD_E, LCD_RS | LCD_E);
    assert LCD_E | (LCD_RS | LCD_E) == LCD_RS | LCD_E;
    DataPinsIgnoreP1(high, low);
    OnlyLcdPinsChangedTrans(l.ports, high, low);
    Display(low, l.bus + [latched])
  }

  /** A byte-level transfer: a command byte (RS low) or a data byte (RS high). */
  datatype Transfer = Command(b: bv8) | Data(b: bv8)

  /** The two latches of one transfer: high nibble, then low nibble. */
  function Strobes(t: Transfer): seq<Strobe> {
    [Strobe(t.Data?, t.b >> 4), Strobe(t.Data?, t.b & 0x0F)]
  }

  function Encode(ts: seq<Transfer>): (bus: seq<Strobe>)
    ensures |bus| == 2 * |ts|
    decreases |ts|
  {
    if ts == [] then [] else Strobes(ts[0]) + Encode(ts[1..])
  }

  /**
   What the controller reconstructs from a latch sequence: pairs of latches
   with equal RS and 4-bit data, high nibble first. Anything else is garbage.
   */
  function Decode(bus: seq<Strobe>): (r: Option<seq<Transfer>>)
    ensures r.Some? ==> |bus| == 2 * |r.value|
    decreases |bus|
  {
    if bus == [] then Some([])
    else if |bus| == 1 then None
    else if bus[0].rs != bus[1].rs || bus[0].nibble >= 16 || bus[1].nibble >= 16 then None
    else
      var b := (bus[0].nibble << 4) | bus[1].nibble;
      var t := if bus[0].rs then Data(b) else Command(b);
      match Decode(bus[2..])
      case None => None
      case Some(rest) => Some([t] + rest)
  }

  /** Splitting a byte into nibbles loses nothing. */
  lemma NibbleSplit(b: bv8)
    ensures b >> 4 < 16 && b & 0x0F < 16
    ensures (b >> 4) & 0x0F == b >> 4 && (b & 0x0F) & 0x0F == b & 0x0F
    ensures ((b >> 4) << 4) | (b & 0x0F) == b
  {
  }

  /** The serialiser round-trips: the controller reads back exactly the transfers sent. */
  lemma {:induction false} DecodeEncode(ts: seq<Transfer>)
    ensures Decode(Encode(ts)) == Some(ts)
    decreases |ts|
  {
    if ts != [] {
      var bus := Encode(ts);
      assert bus[2..] == Encode(ts[1..]);
      NibbleSplit(ts[0].b);
      DecodeEncode(ts[1..]);
      assert [ts[0]] + ts[1..] == ts;
    }
  }

  /** Two 4-bit values joined into a byte split back into the same two values. */
  lemma NibbleJoin(hi: bv8, lo: bv8)
    requires hi < 16 && lo < 16
    ensures ((hi << 4) | lo) >> 4 == hi && ((hi << 4) | lo) & 0x0F == lo
  {
  }

  /** Conversely, every latch sequence the controller accepts is the encoding of what it reads. */
  lemma {:induction false} EncodeDecode(bus: seq<Strobe>)
    ensures Decode(bus).Some? ==> Encode(Decode(bus).value) == bus
    decreases |bus|
  {
    if |bus| >= 2 && Decode(bus).Some? {
      var ts := Decode(bus).value;
      NibbleJoin(bus[0].nibble, bus[1].nibble);
      EncodeDecode(bus[2..]);
      assert ts[1..] == Decode(bus[2..]).value;
      assert Strobes(ts[0]) == bus[..2];
      assert bus == bus[..2] + bus[2..];
    }
  }

  lemma {:induction false} EncodeAppend(a: seq<Transfer>, b: seq<Transfer>)
    ensures Encode(a + b) == Encode(a) + Encode(b)
    decreases |a|
  {
    if a != [] {
      assert (a + b)[0] == a[0];
      assert (a + b)[1..] == a[1..] + b;
      EncodeAppend(a[1..], b);
    } else {
      assert a + b == b;
    }
  }

  /**
   `lcdWriteByte`: the high nibble then the low nibble, both with the caller's
   RS choice; the controller sees exactly one transfer of that byte.
   */
  method WriteByte(l: Display, b: bv8, isCommand: int) returns (r: Display)
    ensures r.bus == l.bus + Encode([if isCommand != 0 then Command(b) else Data(b)])
    ensures |r.bus| == |l.bus| + 2
    ensures (IsSet(r.ports.p1out, LCD_RS) <==> isCommand == 0) && !IsSet(r.ports.p1out, LCD_E)
    ensures OnlyLcdPinsChanged(l.ports, r.ports)
  {
    ghost var t := if isCommand != 0 then Command(b) else Data(b);
    var hiNibble := b >> 4;
    var loNibble := b & 0x0F;
    var hi := SendNibble(l, hiNibble, isCommand);
    r := SendNibble(hi, loNibble, isCommand);
    NibbleSplit(b);
    assert Strobes(t) == [Strobe(isCommand == 0, hiNibble), Strobe(isCommand == 0, loNibble)];
    EncodeSingle(t);
    OnlyLcdPinsChangedTrans(l.ports, hi.ports, r.ports);
  }

  lemma EncodeSingle(t: Transfer)
    ensures Encode([t]) == Strobes(t)
  {
    assert [t][1..] == [];
  }

  /** `lcdSendCommand`: one command transfer, RS left low. */
  method SendCommand(l: Display, c: bv8) returns (r: Display)
    ensures r.bus == l.bus + Encode([Command(c)])
    ensures !IsSet(r.ports.p1out, LCD_RS) && !IsSet(r.ports.p1out, LCD_E)
    ensures OnlyLcdPinsChanged(l.ports, r.ports)
  {
    r := WriteByte(l, c, 1);
  }

  /** The characters of a NUL-terminated C string: everything before the first NUL. */
  function CString(s: seq<bv8>): (t: seq<bv8>)
    requires 0 in s
    ensures |t| < |s| && s[|t|] == 0 && t == s[..|t|]
    ensures forall i :: 0 <= i < |t| ==> t[i] != 0
  {
    if s[0] == 0 then [] else [s[0]] + CString(s[1..])
  }

  function DataOf(text: seq<bv8>): (ts: seq<Transfer>)
    ensures |ts| == |text|
    ensures forall i :: 0 <= i < |text| ==> ts[i] == Data(text[i])
  {
    seq(|text|, i requires 0 <= i < |text| => Data(text[i]))
  }

  /** The transfers for one line of text: the cursor-home command, then the characters. */
  function LineTransfers(home: bv8, text: seq<bv8>): seq<Transfer> {
    [Command(home)] + DataOf(text)
  }

  /** The transfers `lcdDisplayText` makes for two lines of text. */
  function TextTransfers(line1: seq<bv8>, line2: seq<bv8>): seq<Transfer> {
    [Command(CLEAR_DISPLAY)] + LineTransfers(LINE1_HOME, line1) + LineTransfers(LINE2_HOME, line2)
  }

  /** Write the characters of a C string as data, one byte at a time. */
  method WriteText(l: Display, text: seq<bv8>) returns (r: Display)
    requires 0 in text
    ensures r.bus == l.bus + Encode(DataOf(CString(text)))
    ensures OnlyLcdPinsChanged(l.ports, r.ports)
  {
    ghost var chars := CString(text);
    r := l;
    var i := 0;
    while text[i] != 0
      invariant 0 <= i <= |chars|
      invariant r.bus == l.bus + Encode(DataOf(chars[..i]))
      invariant OnlyLcdPinsChanged(l.ports, r.ports)
      decreases |chars| - i
    {
      ghost var before := r;
      r := WriteByte(r, text[i], 0);
      EncodeDataSnoc(chars, i);
      OnlyLcdPinsChangedTrans(l.ports, before.ports, r.ports);
      i := i + 1;
    }
    assert chars[..i] == chars;
  }

  /** The latches of a text prefix grow by one character's two latches. */
  lemma EncodeDataSnoc(text: seq<bv8>, i: nat)
    requires i < |text|
    ensures Encode(DataOf(text[..i + 1])) == Encode(DataOf(text[..i])) + Encode([Data(text[i])])
  {
    assert DataOf(text[..i + 1]) == DataOf(text[..i]) + [Data(text[i])];
    EncodeAppend(DataOf(text[..i]), [Data(text[i])]);
  }

  /**
   `lcdDisplayText`: clear, home to line 1, the characters of `line1`, home to
   line 2, the characters of `line2`. Both arguments are NUL-terminated.
   */
  method DisplayText(l: Display, line1: seq<bv8>, line2: seq<bv8>) returns (r: Display)
    requires 0 in line1 && 0 in line2
    ensures r.bus == l.bus + Encode(TextTransfers(CString(line1), CString(line2)))
    ensures |r.bus| == |l.bus| + 2 * (3 + |CString(line1)| + |CString(line2)|)
    ensures |l.bus| <= |r.bus| && Decode(r.bus[|l.bus|..]) == Some(TextTransfers(CString(line1), CString(line2)))
    ensures OnlyLcdPinsChanged(l.ports, r.ports)
  {
    ghost var t0 := [Command(CLEAR_DISPLAY)];
    ghost var t1 := LineTransfers(LINE1_HOME, CString(line1));
    ghost var t2 := LineTransfers(LINE2_HOME, CString(line2));
    var a := SendCommand(l, CLEAR_DISPLAY);
    var b := WriteLine(a, LINE1_HOME, line1);
    r := WriteLine(b, LINE2_HOME, line2);
    OnlyLcdPinsChangedTrans(l.ports, a.ports, b.ports);
    OnlyLcdPinsChangedTrans(l.ports, b.ports, r.ports);
    EncodeAppend(t0, t1);
    EncodeAppend(t0 + t1, t2);
    AppendThree(l.bus, Encode(t0), Encode(t1), Encode(t2));
    EncodedSuffix(l.bus, t0 + t1 + t2);
  }

  lemma AppendThree<T>(h: seq<T>, x: seq<T>, y: seq<T>, z: seq<T>)
    ensures h + x + y + z == h + (x + y + z)
  {
  }

  /** Latches appended after a bus history decode back to exactly the transfers sent. */
  lemma EncodedSuffix(before: seq<Strobe>, ts: seq<Transfer>)
    ensures |before + Encode(ts)| == |before| + 2 * |ts|
    ensures Decode((before + Encode(ts))[|before|..]) == Some(ts)
  {
    assert (before + Encode(ts))[|before|..] == Encode(ts);
    DecodeEncode(ts);
  }

  /** One line of `lcdDisplayText`: move the cursor home on that line, then write the text. */
  method WriteLine(l: Display, home: bv8, text: seq<bv8>) returns (r: Display)
    requires 0 in text
    ensures r.bus == l.bus + Encode(LineTransfers(home, CString(text)))
    ensures OnlyLcdPinsChanged(l.ports, r.ports)
  {
    var a := SendCommand(l, home);
    r := WriteText(a, text);
    OnlyLcdPinsChangedTrans(l.ports, a.ports, r.ports);
    EncodeAppend([Command(home)], DataOf(CString(text)));
  }

  /** `lcdInitGPIO`: the six LCD lines become outputs and are driven low. */
  function InitGpio(l: Display): (r: Display)
    ensures r.bus == l.bus
    ensures r.ports.p1dir & (LCD_RS | LCD_E) == LCD_RS | LCD_E
    ensures r.ports.p2dir & (LCD_D4 | LCD_D7) == LCD_D4 | LCD_D7
    ensures IsSet(r.ports.p8dir, LCD_D5) && IsSet(r.ports.p5dir, LCD_D6)
    ensures r.ports.p1out & (LCD_RS | LCD_E) == 0 && r.ports.p2out & (LCD_D4 | LCD_D7) == 0
    ensures r.ports.p8out & LCD_D5 == 0 && r.ports.p5out & LCD_D6 == 0
    ensures OnlyLcdLinesTouched(l.ports, r.ports)
  {
    var p := l.ports;
    var dirs := p.(p1dir := Set(p.p1dir, LCD_RS | LCD_E), p2dir := Set(p.p2dir, LCD_D4 | LCD_D7),
                   p8dir := Set(p.p8dir, LCD_D5), p5dir := Set(p.p5dir, LCD_D6));
    var outs := dirs.(p1out := Clear(p.p1out, LCD_RS | LCD_E), p2out := Clear(p.p2out, LCD_D4 | LCD_D7),
                      p8out := Clear(p.p8out, LCD_D5), p5out := Clear(p.p5out, LCD_D6));
    Display(outs, l.bus)
  }

  /** The configuration bytes `lcdInit` sends once the controller is in 4-bit mode. */
  const InitCommands: seq<Transfer> :=
    [Command(FUNCTION_SET_4BIT_2LINE), Command(DISPLAY_ON), Command(ENTRY_INCREMENT), Command(CLEAR_DISPLAY)]

  /**
   `lcdInit`: configure the pins, send the single command nibbles 3, 3, 3, 2
   that switch the controller to 4-bit mode, then the four configuration
   commands as full bytes.
   */
  method Init(l: Display) returns (r: Display)
    ensures |r.bus| == |l.bus| + 12
    ensures r.bus[..|l.bus|] == l.bus
    ensures r.bus[|l.bus|..|l.bus| + 4] == WAKE_UP
    ensures Decode(r.bus[|l.bus| + 4..]) == Some(InitCommands)
    ensures r.ports.p1dir & (LCD_RS | LCD_E) == LCD_RS | LCD_E
    ensures r.ports.p2dir & (LCD_D4 | LCD_D7) == LCD_D4 | LCD_D7
    ensures IsSet(r.ports.p8dir, LCD_D5) && IsSet(r.ports.p5dir, LCD_D6)
    ensures !IsSet(r.ports.p1out, LCD_E) && !IsSet(r.ports.p1out, LCD_RS)
    ensures OnlyLcdLinesTouched(l.ports, r.ports)
  {
    var g := InitGpio(l);
    var m := WakeUp(g);
    r := Configure(m);
    assert OnlyLcdPinsChanged(g.ports, r.ports) by {
      OnlyLcdPinsChangedTrans(g.ports, m.ports, r.ports);
    }
    assert r.bus[|l.bus| + 4..] == Encode(InitCommands);
    DecodeEncode(InitCommands);
  }

  /** The single command nibbles that put the controller into 4-bit mode. */
  const WAKE_UP := [Strobe(false, 3), Strobe(false, 3), Strobe(false, 3), Strobe(false, 2)]

  /** First half of `lcdInit`: the wake-up nibbles 3, 3, 3, 2 as commands. */
  method WakeUp(l: Display) returns (r: Display)
    ensures r.bus == l.bus + WAKE_UP
    ensures OnlyLcdPinsChanged(l.ports, r.ports)
  {
    var a := SendNibble(l, 0x03, 1);
    var b := SendNibble(a, 0x03, 1);
    var c := SendNibble(b, 0x03, 1);
    r := SendNibble(c, 0x02, 1);
    OnlyLcdPinsChangedTrans(l.ports, a.ports, b.ports);
    OnlyLcdPinsChangedTrans(l.ports, b.ports, c.ports);
    OnlyLcdPinsChangedTrans(l.ports, c.ports, r.ports);
  }

  /** Second half of `lcdInit`: the four configuration commands as full bytes. */
  method Configure(l: Display) returns (r: Display)
    ensures r.bus == l.bus + Encode(InitCommands)
    ensures !IsSet(r.ports.p1out, LCD_E) && !IsSet(r.ports.p1out, LCD_RS)
    ensures OnlyLcdPinsChanged(l.ports, r.ports)
  {
    var k1 := [Command(FUNCTION_SET_4BIT_2LINE)];
    var k2 := k1 + [Command(DISPLAY_ON)];
    var k3 := k2 + [Command(ENTRY_INCREMENT)];
    assert k3 + [Command(CLEAR_DISPLAY)] == InitCommands;
    var a := WriteByte(l, FUNCTION_SET_4BIT_2LINE, 1);
    var b := WriteByte(a, DISPLAY_ON, 1);
    EncodeAppend(k1, [Command(DISPLAY_ON)]);
    var c := WriteByte(b, ENTRY_INCREMENT, 1);
    EncodeAppend(k2, [Command(ENTRY_INCREMENT)]);
    r := WriteByte(c, CLEAR_DISPLAY, 1);
    EncodeAppend(k3, [Command(CLEAR_DISPLAY)]);
    OnlyLcdPinsChangedTrans(l.ports, a.ports, b.ports);
    OnlyLcdPinsChangedTrans(l.ports, b.ports, c.ports);
    OnlyLcdPinsChangedTrans(l.ports, c.ports, r.ports);
  }

  /**
   Driving the LCD never disturbs the other users of its ports: the colour
   sensor's illumination LEDs (P8.2, P8.3) and the RGB indicator pins
   (P1.5, P1.6, P1.7).
   */
  lemma LcdSparesSharedPins(a: Ports, b: Ports)
    requires OnlyLcdPinsChanged(a, b)
    ensures b.p8out & (BIT2 | BIT3) == a.p8out & (BIT2 | BIT3)
    ensures b.p1out & (BIT5 | BIT6 | BIT7) == a.p1out & (BIT5 | BIT6 | BIT7)
  {
  }

}
