/** The Bluetooth LE bookkeeping of the app: scanning, the list of discovered
    devices, adopting an Arduino-like peripheral and its first writable
    characteristic, and sending one byte per write. CoreBluetooth itself is
    abstracted: its callbacks are methods called with the data they carry, and
    every `writeValue` is an entry appended to the log `writes`. */
module BLE {
  import opened Wrappers
  import opened Ascii

  datatype CharacteristicProperties = CharacteristicProperties(write: bool, writeWithoutResponse: bool)

  datatype Characteristic = Characteristic(uuid: string, properties: CharacteristicProperties)

  datatype Peripheral = Peripheral(identifier: string, name: Option<string>)

  datatype WriteType = WithResponse | WithoutResponse

  /** One `writeValue` call: a one-byte payload and its write type. */
  datatype Write = Write(value: Byte, writeType: WriteType)

  /** The part of the manager the send path looks at. */
  datatype Link = Link(isConnected: bool, peripheral: Option<Peripheral>, characteristic: Option<Characteristic>)

  /** The payload bytes of a sequence of writes. */
  function WrittenBytes(ws: seq<Write>): seq<Byte> {
    seq(|ws|, i requires 0 <= i < |ws| => ws[i].value)
  }

  lemma WrittenBytesAppend(a: seq<Write>, b: seq<Write>)
    ensures WrittenBytes(a + b) == WrittenBytes(a) + WrittenBytes(b)
  {
    assert forall i :: 0 <= i < |a| + |b| ==> WrittenBytes(a + b)[i] == (WrittenBytes(a) + WrittenBytes(b))[i];
  }

  predicate IsWritable(c: Characteristic) {
    c.properties.write || c.properties.writeWithoutResponse
  }

  /** The write type `sendData` chooses: without response whenever the
      characteristic allows it, else with response, else no write at all. */
  function WriteTypeFor(p: CharacteristicProperties): (r: Option<WriteType>)
    ensures r == Some(WithoutResponse) <==> p.writeWithoutResponse
    ensures r == Some(WithResponse) <==> p.write && !p.writeWithoutResponse
    ensures r == None <==> !p.write && !p.writeWithoutResponse
  {
    if p.writeWithoutResponse then Some(WithoutResponse)
    else if p.write then Some(WithResponse)
    else None
  }

  /** The writes `sendData` issues for one byte. */
  function SendDataWrites(c: Characteristic, b: Byte): seq<Write> {
    match WriteTypeFor(c.properties)
    case Some(t) => [Write(b, t)]
    case None => []
  }

  /** A peripheral and a writable characteristic are both present. */
  predicate CanWrite(link: Link) {
    link.peripheral.Some? && link.characteristic.Some? && IsWritable(link.characteristic.value)
  }

  /** Connected as well: what a finished connection looks like. */
  predicate Ready(link: Link) {
    link.isConnected && CanWrite(link)
  }

  /** The writes `sendASCII` issues: none without a peripheral and a
      characteristic (it does not look at `isConnected`), otherwise those of
      `sendData`. */
  function ASCIIWrites(link: Link, b: Byte): (r: seq<Write>)
    ensures |r| <= 1
    ensures r != [] <==> CanWrite(link)
    ensures r != [] ==> r[0].value == b && Some(r[0].writeType) == WriteTypeFor(link.characteristic.value.properties)
  {
    if link.characteristic.None? || link.peripheral.None? then []
    else SendDataWrites(link.characteristic.value, b)
  }

  /** The writes for one character of a string: its ASCII code, if it has one. */
  function CharWrites(link: Link, c: char): seq<Write> {
    match AsciiValue(c)
    case Some(b) => ASCIIWrites(link, b)
    case None => []
  }

  function CharsWrites(link: Link, s: string): seq<Write> {
    if s == [] then [] else CharWrites(link, s[0]) + CharsWrites(link, s[1..])
  }

  lemma {:induction false} CharsWritesAppend(link: Link, s: string, t: string)
    ensures CharsWrites(link, s + t) == CharsWrites(link, s) + CharsWrites(link, t)
  {
    if s == [] {
      assert s + t == t;
    } else {
      assert (s + t)[0] == s[0];
      assert (s + t)[1..] == s[1..] + t;
      CharsWritesAppend(link, s[1..], t);
    }
  }

  /** Extending the characters sent by one adds that character's writes. */
  lemma CharsWritesSnoc(link: Link, s: string, i: nat)
    requires i < |s|
    ensures CharsWrites(link, s[..i + 1]) == CharsWrites(link, s[..i]) + CharWrites(link, s[i])
  {
    assert s[..i + 1] == s[..i] + [s[i]];
    CharsWritesAppend(link, s[..i], [s[i]]);
    assert CharsWrites(link, [s[i]]) == CharWrites(link, s[i]) + CharsWrites(link, []);
  }

  /** The writes `sendString` issues: nothing while disconnected, otherwise one
      `sendASCII` per ASCII character, in order. */
  function StringWrites(link: Link, s: string): seq<Write> {
    if !link.isConnected then [] else CharsWrites(link, s)
  }

  lemma {:induction false} CharsWritesBytes(link: Link, s: string)
    ensures CanWrite(link) ==> WrittenBytes(CharsWrites(link, s)) == AsciiBytes(s)
    ensures !CanWrite(link) ==> CharsWrites(link, s) == []
  {
    if s != [] {
      CharsWritesBytes(link, s[1..]);
      var head, tail := CharWrites(link, s[0]), CharsWrites(link, s[1..]);
      assert CharsWrites(link, s) == head + tail;
      if CanWrite(link) {
        WrittenBytesAppend(head, tail);
        assert AsciiBytes(s) == (if AsciiValue(s[0]).Some? then [AsciiValue(s[0]).value] else []) + AsciiBytes(s[1..]);
        assert WrittenBytes(head) == if AsciiValue(s[0]).Some? then [AsciiValue(s[0]).value] else [];
      } else {
        assert head == [];
      }
    }
  }

  /** On a finished connection a string goes out as the ASCII codes of its ASCII
      characters, in order; while disconnected, or without a writable target,
      nothing is written. */
  lemma StringWritesSpec(link: Link, s: string)
    ensures Ready(link) ==> WrittenBytes(StringWrites(link, s)) == AsciiBytes(s)
    ensures !Ready(link) ==> StringWrites(link, s) == []
  {
    CharsWritesBytes(link, s);
  }

  /** The byte `sendControlSequence` sends: with Ctrl, `key - 96` for keys from
      96 up, the key itself below that. */
  function CtrlKey(ctrl: bool, key: Byte): Byte {
    if ctrl && key >= 96 then key - 96 else key
  }

  /** Ctrl turns the lower-case letters into the control codes 1..26, the
      letter's position in the alphabet; other keys below 96 pass unchanged. */
  lemma CtrlKeyLetters(ctrl: bool, key: Byte)
    ensures ctrl && 'a' as Byte <= key <= 'z' as Byte ==>
      1 <= CtrlKey(ctrl, key) <= 26 && CtrlKey(ctrl, key) == key - 'a' as Byte + 1
    ensures ctrl && 96 <= key < 128 ==> CtrlKey(ctrl, key) < 32
    ensures !ctrl || key < 96 ==> CtrlKey(ctrl, key) == key
  {
  }

  /** The writes `sendControlSequence` issues: nothing while disconnected. */
  function ControlWrites(link: Link, ctrl: bool, key: Byte): seq<Write> {
    if !link.isConnected then [] else ASCIIWrites(link, CtrlKey(ctrl, key))
  }

  /** `isArduinoDevice`: the lower-cased name mentions arduino, esp32 or nano. */
  function IsArduinoDevice(deviceName: string): bool {
    var lowercaseName := Lowercased(deviceName);
    Contains(lowercaseName, "arduino") || Contains(lowercaseName, "esp32") || Contains(lowercaseName, "nano")
  }

  /** The name test holds exactly when one of the three words occurs in the
      lower-cased name, and it ignores the case of ASCII letters. */
  lemma IsArduinoDeviceIff(deviceName: string)
    ensures IsArduinoDevice(deviceName) <==>
      (exists i :: OccursAt(Lowercased(deviceName), "arduino", i))
      || (exists i :: OccursAt(Lowercased(deviceName), "esp32", i))
      || (exists i :: OccursAt(Lowercased(deviceName), "nano", i))
    ensures IsArduinoDevice(Lowercased(deviceName)) == IsArduinoDevice(deviceName)
  {
    var l := Lowercased(deviceName);
    ContainsIff(l, "arduino");
    ContainsIff(l, "esp32");
    ContainsIff(l, "nano");
    assert Lowercased(l) == l;
  }

  /** `createDeviceInfo`: "<name> (<rssi>dBm)". */
  function CreateDeviceInfo(name: string, rssi: int): string {
    name + " (" + DecimalString(rssi) + "dBm)"
  }

  /** The entry starts with the name, and for one name different signal
      strengths give different entries. */
  lemma CreateDeviceInfoSpec(name: string, rssi1: int, rssi2: int)
    ensures CreateDeviceInfo(name, rssi1)[..|name|] == name
    ensures CreateDeviceInfo(name, rssi1) == CreateDeviceInfo(name, rssi2) ==> rssi1 == rssi2
  {
    var a, b := CreateDeviceInfo(name, rssi1), CreateDeviceInfo(name, rssi2);
    if a == b {
      var n := |name| + 2;
      DecimalStringSign(rssi1);
      assert |DecimalString(rssi1)| == |DecimalString(rssi2)|;
      assert DecimalString(rssi1) == a[n..|a| - 4];
      assert DecimalString(rssi2) == b[n..|b| - 4];
      DecimalStringInjective(rssi1, rssi2);
    }
  }

  /** The characteristic the discovery handler adopts: the first writable one. */
  function FirstWritable(cs: seq<Characteristic>): Option<Characteristic> {
    if cs == [] then None
    else if IsWritable(cs[0]) then Some(cs[0])
    else FirstWritable(cs[1..])
  }

  lemma {:induction false} FirstWritableSpec(cs: seq<Characteristic>)
    ensures FirstWritable(cs).None? <==> forall i :: 0 <= i < |cs| ==> !IsWritable(cs[i])
    ensures FirstWritable(cs).Some? ==>
      exists i :: 0 <= i < |cs| && cs[i] == FirstWritable(cs).value && IsWritable(cs[i])
        && forall j :: 0 <= j < i ==> !IsWritable(cs[j])
  {
    if cs != [] && !IsWritable(cs[0]) {
      FirstWritableSpec(cs[1..]);
      if FirstWritable(cs[1..]).Some? {
        var i :| 0 <= i < |cs[1..]| && cs[1..][i] == FirstWritable(cs[1..]).value && IsWritable(cs[1..][i])
          && forall j :: 0 <= j < i ==> !IsWritable(cs[1..][j]);
        assert cs[i + 1] == cs[1..][i];
        assert forall j :: 0 <= j < i + 1 ==> !IsWritable(cs[j]) by {
          forall j | 0 <= j < i + 1 ensures !IsWritable(cs[j]) {
            if j > 0 { assert cs[j] == cs[1..][j - 1]; }
          }
        }
      } else {
        assert forall i :: 0 <= i < |cs| ==> !IsWritable(cs[i]) by {
          forall i | 0 <= i < |cs| ensures !IsWritable(cs[i]) {
            if i > 0 { assert cs[i] == cs[1..][i - 1]; }
          }
        }
      }
    }
  }

  predicate NoDuplicates(s: seq<string>) {
    forall i, j :: 0 <= i < j < |s| ==> s[i] != s[j]
  }

  /** Everything the manager holds except the write log. */
  datatype ManagerState = ManagerState(
    poweredOn: bool, isScanning: bool, isConnected: bool, discoveredDevices: seq<string>,
    peripheral: Option<Peripheral>, characteristic: Option<Characteristic>)

  /** The name shown for a peripheral without one. */
  const UnnamedDevice: string := "名前なし"

  class BLEManager {
    /** Whether the central manager reports `.poweredOn`. */
    var poweredOn: bool
    var isScanning: bool
    var isConnected: bool
    var discoveredDevices: seq<string>
    var peripheral: Option<Peripheral>
    var characteristic: Option<Characteristic>
    /** Every `writeValue` issued, in order. */
    var writes: seq<Write>

    ghost predicate Valid()
      reads this
    {
      NoDuplicates(discoveredDevices)
    }

    function CurrentLink(): Link
      reads this
    {
      Link(isConnected, peripheral, characteristic)
    }

    function State(): ManagerState
      reads this
    {
      ManagerState(poweredOn, isScanning, isConnected, discoveredDevices, peripheral, characteristic)
    }

    constructor ()
      ensures Valid() && writes == []
      ensures State() == ManagerState(false, false, false, [], None, None)
    {
      poweredOn, isScanning, isConnected := false, false, false;
      discoveredDevices := [];
      peripheral, characteristic := None, None;
      writes := [];
    }

    /** `centralManagerDidUpdateState`: records the power state; power-on starts a scan. */
    method CentralManagerDidUpdateState(poweredOn: bool)
      requires Valid()
      modifies this
      ensures Valid() && writes == old(writes)
      ensures this.poweredOn == poweredOn
      ensures poweredOn ==> isScanning && discoveredDevices == []
      ensures !poweredOn ==> isScanning == old(isScanning) && discoveredDevices == old(discoveredDevices)
      ensures isConnected == old(isConnected) && peripheral == old(peripheral)
      ensures characteristic == old(characteristic)
    {
      this.poweredOn := poweredOn;
      if poweredOn {
        StartScanning();
      }
    }

    /** Starts a scan with an empty device list; does nothing unless powered on. */
    method StartScanning()
      requires Valid()
      modifies this
      ensures Valid() && writes == old(writes)
      ensures !old(poweredOn) ==> State() == old(State())
      ensures old(poweredOn) ==> State() == old(State()).(isScanning := true, discoveredDevices := [])
    {
      if !poweredOn {
        return;
      }
      discoveredDevices := [];
      isScanning := true;
    }

    method StopScanning()
      modifies this
      ensures writes == old(writes)
      ensures State() == old(State()).(isScanning := false)
    {
      isScanning := false;
    }

    /** The block scheduled 30 s after a scan starts, run as a step of its own. */
    method ScanTimeoutElapsed()
      modifies this
      ensures writes == old(writes)
      ensures State() == old(State()).(isScanning := false)
    {
      if isScanning {
        StopScanning();
      }
    }

    /** One one-byte write when a peripheral and a writable characteristic are
        present, otherwise none. */
    method SendASCII(ascii: Byte)
      modifies this
      ensures State() == old(State())
      ensures writes == old(writes) + ASCIIWrites(old(CurrentLink()), ascii)
    {
      if characteristic.None? || peripheral.None? {
        return;
      }
      SendData(ascii, characteristic.value);
    }

    method SendData(ascii: Byte, c: Characteristic)
      modifies this
      ensures State() == old(State())
      ensures writes == old(writes) + SendDataWrites(c, ascii)
    {
      if c.properties.writeWithoutResponse {
        writes := writes + [Write(ascii, WithoutResponse)];
      } else if c.properties.write {
        writes := writes + [Write(ascii, WithResponse)];
      }
    }

    method SendString(s: string)
      modifies this
      ensures State() == old(State())
      ensures writes == old(writes) + StringWrites(old(CurrentLink()), s)
    {
      if !isConnected {
        return;
      }
      var link := CurrentLink();
      var i := 0;
      while i < |s|
        invariant 0 <= i <= |s|
        invariant State() == old(State()) && CurrentLink() == link
        invariant writes == old(writes) + CharsWrites(link, s[..i])
      {
        var ascii := AsciiValue(s[i]);
        if ascii.Some? {
          SendASCII(ascii.value);
        }
        CharsWritesSnoc(link, s, i);
        i := i + 1;
      }
      assert s[..|s|] == s;
    }

    method SendControlSequence(ctrl: bool, key: Byte)
      modifies this
      ensures State() == old(State())
      ensures writes == old(writes) + ControlWrites(old(CurrentLink()), ctrl, key)
    {
      if !isConnected {
        return;
      }
      if ctrl {
        var ctrlKey := if key >= 96 then key - 96 else key;
        SendASCII(ctrlKey);
      } else {
        SendASCII(key);
      }
    }

    /** Sends 'A'. */
    method SendTestMessage()
      modifies this
      ensures State() == old(State())
      ensures writes == old(writes) + ASCIIWrites(old(CurrentLink()), 65)
    {
      SendASCII(65);
    }

    /** `didDiscover`: lists "<name> (<rssi>dBm)" once, and adopts an
        Arduino-like peripheral, which ends the scan. */
    method DidDiscover(p: Peripheral, rssi: int)
      requires Valid()
      modifies this
      ensures Valid() && writes == old(writes)
      ensures var info := CreateDeviceInfo(p.name.GetOr(UnnamedDevice), rssi);
        discoveredDevices == if info in old(discoveredDevices) then old(discoveredDevices)
                             else old(discoveredDevices) + [info]
      ensures IsArduinoDevice(p.name.GetOr(UnnamedDevice)) ==> peripheral == Some(p) && !isScanning
      ensures !IsArduinoDevice(p.name.GetOr(UnnamedDevice)) ==>
        peripheral == old(peripheral) && isScanning == old(isScanning)
      ensures poweredOn == old(poweredOn) && isConnected == old(isConnected)
      ensures characteristic == old(characteristic)
    {
      var deviceName := p.name.GetOr(UnnamedDevice);
      var deviceInfo := CreateDeviceInfo(deviceName, rssi);
      if deviceInfo !in discoveredDevices {
        discoveredDevices := discoveredDevices + [deviceInfo];
      }
      if IsArduinoDevice(deviceName) {
        AttemptConnection(p);
      }
    }

    method AttemptConnection(p: Peripheral)
      modifies this
      ensures writes == old(writes)
      ensures State() == old(State()).(peripheral := Some(p), isScanning := false)
    {
      peripheral := Some(p);
      isScanning := false;
    }

    /** `didDisconnectPeripheral`: only the connected flag drops; the peripheral
        and characteristic stay. */
    method DidDisconnect()
      modifies this
      ensures writes == old(writes)
      ensures State() == old(State()).(isConnected := false)
    {
      isConnected := false;
    }

    /** `didDiscoverCharacteristicsFor`: adopts the first writable characteristic
        and marks the link connected; an error, a missing list or a list with no
        writable entry leaves everything as it was. */
    method DidDiscoverCharacteristics(error: bool, characteristics: Option<seq<Characteristic>>)
      modifies this
      ensures writes == old(writes)
      ensures error || characteristics.None? || FirstWritable(characteristics.value).None? ==>
        State() == old(State())
      ensures !error && characteristics.Some? && FirstWritable(characteristics.value).Some? ==>
        State() == old(State()).(characteristic := FirstWritable(characteristics.value), isConnected := true)
    {
      if error {
        return;
      }
      if characteristics.None? {
        return;
      }
      var cs := characteristics.value;
      var i := 0;
      while i < |cs|
        invariant 0 <= i <= |cs|
        invariant FirstWritable(cs[i..]) == FirstWritable(cs)
        invariant State() == old(State()) && writes == old(writes)
      {
        assert cs[i..][1..] == cs[i + 1..];
        if cs[i].properties.write || cs[i].properties.writeWithoutResponse {
          HandleWritableCharacteristic(cs[i]);
          return;
        }
        i := i + 1;
      }
    }

    method HandleWritableCharacteristic(c: Characteristic)
      modifies this
      ensures writes == old(writes)
      ensures State() == old(State()).(characteristic := Some(c), isConnected := true)
    {
      characteristic := Some(c);
      isConnected := true;
    }
  }

  /** A characteristic adopted by discovery is one `sendData` can write to, so
      after discovery every `sendASCII` issues exactly one write. */
  lemma AdoptedCharacteristicIsWritable(cs: seq<Characteristic>, p: Peripheral, b: Byte)
    requires FirstWritable(cs).Some?
    ensures WriteTypeFor(FirstWritable(cs).value.properties).Some?
    ensures |ASCIIWrites(Link(true, Some(p), FirstWritable(cs)), b)| == 1
  {
    FirstWritableSpec(cs);
  }
}
