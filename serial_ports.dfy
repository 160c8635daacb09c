/** Serial-port descriptors as `serial.tools.list_ports.comports()` yields
    them, and the two keyword tests the scripts use to call a port
    "Arduino-like". */
module SerialPorts {
  import opened Wrappers
  import opened Strings
  import opened Sequences

  /** A port as the scripts read it: its device path and its description. */
  datatype Port = Port(device: string, description: string)

  /** The five keywords of the description-only test. */
  const DescriptionKeywords: seq<string> := ["arduino", "ch340", "cp210", "ftdi", "usb"]

  /** The seven keywords of the description-or-device test. */
  const ExtendedKeywords: seq<string> := ["arduino", "ch340", "cp210", "ftdi", "usb", "usbmodem", "usbserial"]

  /** `any(keyword in text for keyword in keywords)` */
  predicate AnyKeywordIn(keywords: seq<string>, text: string) {
    exists k :: k in keywords && Contains(text, k)
  }

  /** `any(keyword in port.description.lower() for keyword in [5 keywords])` */
  predicate DescriptionMatch(p: Port) {
    AnyKeywordIn(DescriptionKeywords, Lower(p.description))
  }

  /** The 7-keyword test on the lower-cased description, or else on the lower-cased device. */
  predicate ExtendedMatch(p: Port) {
    AnyKeywordIn(ExtendedKeywords, Lower(p.description)) || AnyKeywordIn(ExtendedKeywords, Lower(p.device))
  }

  /** The ports the description-only test keeps, in enumeration order. */
  function DescriptionCandidates(ports: seq<Port>): seq<Port> {
    Filter(ports, DescriptionMatch)
  }

  /** The ports the description-or-device test keeps, in enumeration order. */
  function ExtendedCandidates(ports: seq<Port>): seq<Port> {
    Filter(ports, ExtendedMatch)
  }

  /** `usbmodem` and `usbserial` both begin with `usb`, so the two extra
      keywords never decide a match: the seven keywords accept exactly the
      texts the five do. */
  lemma ExtraKeywordsRedundant(text: string)
    ensures AnyKeywordIn(ExtendedKeywords, text) <==> AnyKeywordIn(DescriptionKeywords, text)
  {
    if AnyKeywordIn(ExtendedKeywords, text) {
      var k :| k in ExtendedKeywords && Contains(text, k);
      if k == "usbmodem" || k == "usbserial" {
        ContainsPrefixOf(text, k, "usb");
        assert "usb" in DescriptionKeywords;
      } else {
        assert k in DescriptionKeywords;
      }
    }
    if AnyKeywordIn(DescriptionKeywords, text) {
      var k :| k in DescriptionKeywords && Contains(text, k);
      assert k in ExtendedKeywords;
    }
  }

  /** The description-or-device test is the description-only test widened to the device path. */
  lemma ExtendedMatchIff(p: Port)
    ensures ExtendedMatch(p) <==> DescriptionMatch(p) || AnyKeywordIn(DescriptionKeywords, Lower(p.device))
  {
    ExtraKeywordsRedundant(Lower(p.description));
    ExtraKeywordsRedundant(Lower(p.device));
  }

  /** The 7-keyword filter keeps an order-preserving superset of what the 5-keyword filter keeps. */
  lemma ExtendedAcceptsSuperset(ports: seq<Port>)
    ensures IsSubsequence(DescriptionCandidates(ports), ExtendedCandidates(ports))
    ensures forall p :: p in DescriptionCandidates(ports) ==> p in ExtendedCandidates(ports)
  {
    forall p | DescriptionMatch(p) ensures ExtendedMatch(p) {
      ExtendedMatchIff(p);
    }
    FilterWeakerSuperset(ports, DescriptionMatch, ExtendedMatch);
    forall p | p in DescriptionCandidates(ports) ensures p in ExtendedCandidates(ports) {
      FilterMembership(ports, DescriptionMatch, p);
      FilterMembership(ports, ExtendedMatch, p);
    }
  }

  /** Dropping `usbmodem` and `usbserial` from the 7-keyword list never changes
      which ports the description-or-device test keeps. */
  lemma ExtendedCandidatesWithFiveKeywords(ports: seq<Port>)
    ensures ExtendedCandidates(ports) == Filter(ports, (p: Port) =>
      AnyKeywordIn(DescriptionKeywords, Lower(p.description)) || AnyKeywordIn(DescriptionKeywords, Lower(p.device)))
  {
    var five := (p: Port) => AnyKeywordIn(DescriptionKeywords, Lower(p.description)) || AnyKeywordIn(DescriptionKeywords, Lower(p.device));
    forall i | 0 <= i < |ports| ensures ExtendedMatch(ports[i]) == five(ports[i]) {
      ExtraKeywordsRedundant(Lower(ports[i].description));
      ExtraKeywordsRedundant(Lower(ports[i].device));
    }
    FilterAgree(ports, ExtendedMatch, five);
  }

  /** A CP210x bridge is a candidate by its description. */
  lemma BridgeIsCandidate(p: Port)
    requires p == Port("COM3", "Silicon Labs CP210x UART Bridge")
    ensures DescriptionMatch(p)
  {
    var d := Lower(p.description);
    assert forall i :: 13 <= i < 18 ==> d[i] == LowerChar(p.description[i]);
    assert d[13..18] == "cp210";
    assert OccursAt(d, "cp210", 13);
    ContainsIffOccurs(d, "cp210");
    assert "cp210" in DescriptionKeywords;
  }

  /** A text without '0', 'f', 's' and one of the letters of "arduino",
      in either case, contains none of the description keywords once lower-cased. */
  lemma NoKeywordIn(text: string, a: nat)
    requires a < 7 && forall i :: 0 <= i < |text| ==>
      LowerChar(text[i]) != "arduino"[a] && LowerChar(text[i]) !in {'0', 'f', 's'}
    ensures !AnyKeywordIn(DescriptionKeywords, Lower(text))
  {
    var t := Lower(text);
    NotContainsIfCharAbsent(t, "arduino", a);
    NotContainsIfCharAbsent(t, "ch340", 4);
    NotContainsIfCharAbsent(t, "cp210", 4);
    NotContainsIfCharAbsent(t, "ftdi", 0);
    NotContainsIfCharAbsent(t, "usb", 1);
  }

  /** The macOS Bluetooth port is no candidate, by description or by device path. */
  lemma BluetoothIsNotCandidate(p: Port)
    requires p == Port("/dev/cu.Bluetooth-Incoming-Port", "n/a")
    ensures !ExtendedMatch(p)
  {
    BluetoothPathHasNoKeyword(p.device);
    NoKeywordIn(p.description, 1);
    ExtendedMatchIff(p);
  }

  lemma BluetoothPathHasNoKeyword(device: string)
    requires device == "/dev/cu.Bluetooth-Incoming-Port"
    ensures !AnyKeywordIn(DescriptionKeywords, Lower(device))
  {
    NoKeywordIn(device, 0);
  }

  /** The device paths of the given ports, in order. */
  function DevicePaths(ports: seq<Port>): (r: seq<string>)
    ensures |r| == |ports| && forall j :: 0 <= j < |ports| ==> r[j] == ports[j].device
  {
    seq(|ports|, j requires 0 <= j < |ports| => ports[j].device)
  }

  /** The index of the first port passing the description-only test. */
  function FirstCandidateIndex(ports: seq<Port>): (r: Option<nat>)
    ensures r.Some? ==> r.value < |ports| && DescriptionMatch(ports[r.value])
    ensures r.Some? ==> forall j :: 0 <= j < r.value ==> !DescriptionMatch(ports[j])
    ensures r.None? <==> forall j :: 0 <= j < |ports| ==> !DescriptionMatch(ports[j])
  {
    if ports == [] then None
    else if DescriptionMatch(ports[0]) then Some(0)
    else match FirstCandidateIndex(ports[1..])
      case None => None
      case Some(i) => Some(i + 1)
  }

  /** `find_arduino`'s result: the device of the first description match, or `None`. */
  function FirstCandidateDevice(ports: seq<Port>): Option<string> {
    match FirstCandidateIndex(ports)
    case None => None
    case Some(i) => Some(ports[i].device)
  }

  /** `find_arduino`: the loop that returns the device of the first port
      whose description matches. */
  method FindArduino(ports: seq<Port>) returns (r: Option<string>)
    ensures r == FirstCandidateDevice(ports)
  {
    for i := 0 to |ports|
      invariant forall j :: 0 <= j < i ==> !DescriptionMatch(ports[j])
    {
      if AnyKeywordIn(DescriptionKeywords, Lower(ports[i].description)) {
        return Some(ports[i].device);
      }
    }
    return None;
  }

  /** The first description match is the head of the description-only filter. */
  lemma {:induction false} FirstCandidateIsHead(ports: seq<Port>)
    ensures FirstCandidateDevice(ports)
      == if DescriptionCandidates(ports) == [] then None else Some(DescriptionCandidates(ports)[0].device)
  {
    if ports != [] && !DescriptionMatch(ports[0]) {
      FirstCandidateIsHead(ports[1..]);
    }
  }

  function Descriptions(ports: seq<Port>): seq<string> {
    seq(|ports|, i requires 0 <= i < |ports| => ports[i].description)
  }

  /** Which port is chosen depends on the descriptions only, never on the device paths. */
  lemma {:induction false} FirstCandidateIgnoresDevices(ports: seq<Port>, others: seq<Port>)
    requires Descriptions(ports) == Descriptions(others)
    ensures FirstCandidateIndex(ports) == FirstCandidateIndex(others)
  {
    if ports != [] {
      assert |others| == |ports|;
      assert ports[0].description == Descriptions(ports)[0];
      assert Descriptions(ports[1..]) == Descriptions(ports)[1..];
      assert Descriptions(others[1..]) == Descriptions(others)[1..];
      FirstCandidateIgnoresDevices(ports[1..], others[1..]);
    }
  }
}
