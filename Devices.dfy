/** Device inventory and selection: the DirectSound device list, the
    DirectMusic port enumeration and the by-index lookups over them. */
module Devices {
  import opened Com

  /** An opaque GUID. */
  type Guid = nat

  /** An LPCGUID: NULL stands for the primary (default) device. */
  datatype DeviceId = Default | Device(guid: Guid)

  /** One entry of the DirectSound device list (DSDeviceData). */
  datatype AudioDevice = AudioDevice(id: DeviceId, name: string)

  /** The fields of DMUS_PORTCAPS the player reads. */
  datatype PortCaps = PortCaps(
    flags: bv32,
    guidPort: Guid,
    maxChannelGroups: nat,
    maxVoices: nat,
    maxAudioChannels: nat,
    effectFlags: bv32,
    description: string)

  /** What one IDirectMusic8::EnumPort(ordinal) call reports: S_OK with the
      port's capabilities, S_FALSE when there is no port at that ordinal, or
      any other code. */
  datatype PortResult = Ok(caps: PortCaps) | Exhausted | Error(code: HResult)

  /** The provider answers ordinal i with ports[i]; past the end of the
      sequence it reports exhaustion. */
  function EnumPort(ports: seq<PortResult>, ordinal: nat): (r: PortResult)
    ensures ordinal >= |ports| ==> r == Exhausted
  {
    if ordinal < |ports| then ports[ordinal] else Exhausted
  }

  /** Number of consecutive Ok answers from ordinal 0 on. */
  function OkRun(ports: seq<PortResult>): (n: nat)
    ensures n <= |ports|
    ensures forall i | 0 <= i < n :: ports[i].Ok?
    ensures n < |ports| ==> !ports[n].Ok?
  {
    if ports == [] || !ports[0].Ok? then 0 else 1 + OkRun(ports[1..])
  }

  /** The names a full enumeration appends to the port list: one per
      consecutive Ok answer, in ordinal order, stopping at the first
      exhaustion or error. */
  function PortNames(ports: seq<PortResult>): (names: seq<string>)
    ensures |names| == OkRun(ports)
    ensures forall i | 0 <= i < |names| :: ports[i].Ok? && names[i] == ports[i].caps.description
  {
    if ports == [] || !ports[0].Ok? then []
    else [ports[0].caps.description] + PortNames(ports[1..])
  }

  /** The conversion of an int to DWORD that the comparison
      `dwIndex != idx` performs: two's complement, modulo 2^32. */
  function ToDword(x: int): (r: nat)
    ensures r < 0x1_0000_0000
    ensures 0 <= x < 0x1_0000_0000 ==> r == x
    ensures x < 0 && -0x1_0000_0000 <= x ==> r == x + 0x1_0000_0000
  {
    x % 0x1_0000_0000
  }

  /** Reference definition of the ordinal search: walk the answers in
      order, count Ok answers down to the wanted ordinal, and give up with
      `unset` at the first answer that is not Ok. */
  function LookupCaps(ports: seq<PortResult>, target: nat, unset: PortCaps): (caps: PortCaps)
    ensures target < OkRun(ports) ==> caps == ports[target].caps
    ensures target >= OkRun(ports) ==> caps == unset
    decreases |ports|
  {
    if ports == [] then unset
    else match ports[0]
      case Ok(c) => if target == 0 then c else LookupCaps(ports[1..], target - 1, unset)
      case _ => unset
  }

  /** GetDeviceGuidByIndex: a negative or too large index gives NULL (the
      default device); an index inside the list gives that entry's
      identifier, which may itself be NULL for the primary driver. */
  function GetDeviceGuidByIndex(devices: seq<AudioDevice>, index: int): (r: DeviceId)
    ensures index < 0 ==> r == Default
    ensures 0 <= index < |devices| ==> r == devices[index].id
    ensures index >= |devices| ==> r == Default
    ensures r != Default ==> exists i | 0 <= i < |devices| :: devices[i].id == r
  {
    if index < 0 then Default
    else if index < |devices| then devices[index].id
    else Default
  }

  /** GetPortCapsByIndex: query ordinals 0, 1, ... until ordinal `idx`
      answers Ok; an exhaustion or error before that yields the
      uninitialised `unset` record. `queried` counts the EnumPort calls. */
  method GetPortCapsByIndex(ports: seq<PortResult>, idx: int, unset: PortCaps)
    returns (caps: PortCaps, queried: nat)
    ensures caps == LookupCaps(ports, ToDword(idx), unset)
    ensures queried == if ToDword(idx) < OkRun(ports) then ToDword(idx) + 1 else OkRun(ports) + 1
    ensures queried <= ToDword(idx) + 1
  {
    var target := ToDword(idx);
    var dwIndex: nat := 0;
    var r: PortResult;
    queried := 0;
    while true
      invariant dwIndex <= target && dwIndex <= OkRun(ports)
      invariant queried == dwIndex
      decreases target - dwIndex
    {
      r := EnumPort(ports, dwIndex);
      queried := queried + 1;
      if r.Exhausted? {
        caps := unset;
        return;
      }
      if !r.Ok? {
        caps := unset;
        return;
      }
      if dwIndex != target {
        dwIndex := dwIndex + 1;
        continue;
      }
      break;
    }
    caps := r.caps;
  }

  /** When the search sees the same answers as the listing did, the port
      whose capabilities it returns is the one whose name the listing showed
      at the same ordinal; an ordinal past the listed names yields `unset`.
      The program enumerates twice, so in a run this holds only when the
      re-scan answers like the first enumeration (`rescan == ports`). */
  lemma LookupAgreesWithNames(ports: seq<PortResult>, target: nat, unset: PortCaps)
    ensures target < |PortNames(ports)| ==>
      LookupCaps(ports, target, unset).description == PortNames(ports)[target]
    ensures target >= |PortNames(ports)| ==> LookupCaps(ports, target, unset) == unset
  {
  }
}
