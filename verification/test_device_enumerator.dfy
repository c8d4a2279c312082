/** The in-memory device enumerator used by the tests (`TestDeviceEnumerator`).

    A bag of test devices with distinct ids, and four default-id slots. The
    bag is a sequence here; with distinct ids the order of the concurrent bag
    does not change any answer about a single device. */
module TestDeviceEnumerator {
  import opened Outcomes
  import opened AudioTypes

  /** A device id; `EmptyGuid` is `Guid.Empty`, the value every default slot
      starts with. */
  type Guid = nat
  const EmptyGuid: Guid := 0

  /** A test device: its id, kind and state flags (a 32-bit enum). */
  datatype TestDevice = TestDevice(id: Guid, deviceType: DeviceType, state: bv32) {
    predicate IsPlaybackDevice() { deviceType == Playback }
    predicate IsCaptureDevice() { deviceType == DeviceType.Capture }
  }

  /** A device as seen through the `IDevice` interface: null, a test device,
      or some other implementation. */
  datatype AnyDevice = NullDevice | Test(device: TestDevice) | OtherDevice(id: Guid)

  /** The four default-id slots. */
  datatype Slot = PlaybackSlot | PlaybackCommSlot | CaptureSlot | CaptureCommSlot

  datatype Enumerator = Enumerator(
    devices: seq<TestDevice>,
    defaultPlaybackId: Guid,
    defaultPlaybackCommId: Guid,
    defaultCaptureId: Guid,
    defaultCaptureCommId: Guid)

  /** The result of a setter: the new enumerator and the returned flag. */
  datatype Update = Update(enumerator: Enumerator, success: bool)

  predicate UniqueIds(devices: seq<TestDevice>)
  {
    forall i, j :: 0 <= i < j < |devices| ==> devices[i].id != devices[j].id
  }

  function SlotId(e: Enumerator, slot: Slot): Guid
  {
    match slot
    case PlaybackSlot => e.defaultPlaybackId
    case PlaybackCommSlot => e.defaultPlaybackCommId
    case CaptureSlot => e.defaultCaptureId
    case CaptureCommSlot => e.defaultCaptureCommId
  }

  /** `e'` is `e` with slot `slot` set to `id` and nothing else changed. */
  predicate SetsOnly(e: Enumerator, e': Enumerator, slot: Slot, id: Guid)
  {
    && e'.devices == e.devices
    && SlotId(e', slot) == id
    && forall s: Slot :: s != slot ==> SlotId(e', s) == SlotId(e, s)
  }

  /** `n` when the loop `for (i = 0; i < n; i++)` runs, else zero. */
  function Iterations(n: int): nat
  {
    if n < 0 then 0 else n
  }

  /** `FirstOrDefault(x => x.Id == id)`: the first device with that id, or null. */
  function FirstWithId(devices: seq<TestDevice>, id: Guid): (r: Option<TestDevice>)
    ensures r.Some? ==> r.value in devices && r.value.id == id
    ensures r.None? <==> forall i :: 0 <= i < |devices| ==> devices[i].id != id
  {
    if |devices| == 0 then None
    else if devices[0].id == id then Some(devices[0])
    else FirstWithId(devices[1..], id)
  }

  /** With distinct ids, looking up a member's id finds that member. */
  lemma {:induction false} FindsMember(devices: seq<TestDevice>, d: TestDevice)
    requires UniqueIds(devices)
    requires d in devices
    ensures FirstWithId(devices, d.id) == Some(d)
  {
    if devices[0] != d {
      assert devices[0].id != d.id by {
        var k :| 0 <= k < |devices| && devices[k] == d;
        assert k != 0;
      }
      assert d in devices[1..];
      assert UniqueIds(devices[1..]) by {
        forall i, j | 0 <= i < j < |devices[1..]|
          ensures devices[1..][i].id != devices[1..][j].id
        {
          assert devices[1..][i] == devices[i + 1] && devices[1..][j] == devices[j + 1];
        }
      }
      FindsMember(devices[1..], d);
    }
  }

  /** The constructor. `freshIds` are the successive `Guid.NewGuid()`
      values; version-4 GUIDs are distinct and never `Guid.Empty`.
      `initialState` is the state a new test device starts in. */
  method New(numPlaybackDevices: int, numCaptureDevices: int, freshIds: seq<Guid>, initialState: bv32)
    returns (e: Enumerator)
    requires |freshIds| == Iterations(numPlaybackDevices) + Iterations(numCaptureDevices)
    requires forall i, j :: 0 <= i < j < |freshIds| ==> freshIds[i] != freshIds[j]
    requires forall i :: 0 <= i < |freshIds| ==> freshIds[i] != EmptyGuid
    ensures |e.devices| == |freshIds|
    ensures forall i :: 0 <= i < Iterations(numPlaybackDevices) ==>
      e.devices[i] == TestDevice(freshIds[i], Playback, initialState)
    ensures forall i :: Iterations(numPlaybackDevices) <= i < |e.devices| ==>
      e.devices[i] == TestDevice(freshIds[i], DeviceType.Capture, initialState)
    ensures UniqueIds(e.devices)
    ensures forall s: Slot :: SlotId(e, s) == EmptyGuid && FirstWithId(e.devices, SlotId(e, s)).None?
  {
    var devices: seq<TestDevice> := [];
    var i := 0;
    while i < numPlaybackDevices
      invariant 0 <= i <= Iterations(numPlaybackDevices)
      invariant |devices| == i
      invariant forall k :: 0 <= k < i ==> devices[k] == TestDevice(freshIds[k], Playback, initialState)
    {
      devices := devices + [TestDevice(freshIds[i], Playback, initialState)];
      i := i + 1;
    }
    var p := |devices|;
    i := 0;
    while i < numCaptureDevices
      invariant 0 <= i <= Iterations(numCaptureDevices)
      invariant |devices| == p + i
      invariant forall k :: 0 <= k < p ==> devices[k] == TestDevice(freshIds[k], Playback, initialState)
      invariant forall k :: p <= k < p + i ==> devices[k] == TestDevice(freshIds[k], DeviceType.Capture, initialState)
    {
      devices := devices + [TestDevice(freshIds[p + i], DeviceType.Capture, initialState)];
      i := i + 1;
    }
    e := Enumerator(devices, EmptyGuid, EmptyGuid, EmptyGuid, EmptyGuid);
    assert forall k :: 0 <= k < |devices| ==> devices[k].id == freshIds[k];
  }

  function DefaultPlaybackDevice(e: Enumerator): (r: Option<TestDevice>)
    ensures r.Some? ==> r.value in e.devices && r.value.id == e.defaultPlaybackId
    ensures r.None? <==> forall i :: 0 <= i < |e.devices| ==> e.devices[i].id != e.defaultPlaybackId
  {
    FirstWithId(e.devices, e.defaultPlaybackId)
  }

  function DefaultCommunicationsPlaybackDevice(e: Enumerator): (r: Option<TestDevice>)
    ensures r.Some? ==> r.value in e.devices && r.value.id == e.defaultPlaybackCommId
    ensures r.None? <==> forall i :: 0 <= i < |e.devices| ==> e.devices[i].id != e.defaultPlaybackCommId
  {
    FirstWithId(e.devices, e.defaultPlaybackCommId)
  }

  function DefaultCaptureDevice(e: Enumerator): (r: Option<TestDevice>)
    ensures r.Some? ==> r.value in e.devices && r.value.id == e.defaultCaptureId
    ensures r.None? <==> forall i :: 0 <= i < |e.devices| ==> e.devices[i].id != e.defaultCaptureId
  {
    FirstWithId(e.devices, e.defaultCaptureId)
  }

  function DefaultCommunicationsCaptureDevice(e: Enumerator): (r: Option<TestDevice>)
    ensures r.Some? ==> r.value in e.devices && r.value.id == e.defaultCaptureCommId
    ensures r.None? <==> forall i :: 0 <= i < |e.devices| ==> e.devices[i].id != e.defaultCaptureCommId
  {
    FirstWithId(e.devices, e.defaultCaptureCommId)
  }

  function GetDevice(e: Enumerator, id: Guid): (r: Option<TestDevice>)
    ensures r.Some? ==> r.value in e.devices && r.value.id == id
    ensures r.None? <==> forall i :: 0 <= i < |e.devices| ==> e.devices[i].id != id
  {
    FirstWithId(e.devices, id)
  }

  /** The slot a `(deviceType, role)` query reads: console and multimedia
      use the plain default, every other role the communications default;
      `All` has no slot. */
  function SlotFor(deviceType: DeviceType, role: Role): (r: Option<Slot>)
    ensures r.None? <==> deviceType == DeviceType.All
    ensures r.Some? ==> (r.value.PlaybackSlot? || r.value.PlaybackCommSlot? <==> deviceType == Playback)
    ensures r.Some? ==> (r.value.PlaybackSlot? || r.value.CaptureSlot? <==> role == Console || role == Multimedia)
  {
    match deviceType
    case Capture => if role == Console || role == Multimedia then Some(CaptureSlot) else Some(CaptureCommSlot)
    case Playback => if role == Console || role == Multimedia then Some(PlaybackSlot) else Some(PlaybackCommSlot)
    case All => None
  }

  function GetDefaultDevice(e: Enumerator, deviceType: DeviceType, role: Role): (r: Option<TestDevice>)
    ensures deviceType == DeviceType.Capture && (role == Console || role == Multimedia) ==> r == DefaultCaptureDevice(e)
    ensures deviceType == DeviceType.Capture && role == Communications ==> r == DefaultCommunicationsCaptureDevice(e)
    ensures deviceType == Playback && (role == Console || role == Multimedia) ==> r == DefaultPlaybackDevice(e)
    ensures deviceType == Playback && role == Communications ==> r == DefaultCommunicationsPlaybackDevice(e)
    ensures deviceType == DeviceType.All ==> r.None?
    ensures SlotFor(deviceType, role).Some? ==> r == FirstWithId(e.devices, SlotId(e, SlotFor(deviceType, role).value))
  {
    match deviceType
    case Capture =>
      if role == Console || role == Multimedia then DefaultCaptureDevice(e) else DefaultCommunicationsCaptureDevice(e)
    case Playback =>
      if role == Console || role == Multimedia then DefaultPlaybackDevice(e) else DefaultCommunicationsPlaybackDevice(e)
    case All => None
  }

  /** The enum value read as the signed 32-bit integer C# compares with `0`. */
  function AsInt32(b: bv32): int
  {
    if b < 0x8000_0000 then b as int else b as int - 0x1_0000_0000
  }

  /** `(State & mask) > 0`, a signed comparison on the int-backed enum. */
  predicate StateMatches(state: bv32, mask: bv32)
  {
    AsInt32(state & mask) > 0
  }

  /** The `Where` clause of `GetDevices`. */
  predicate Selected(d: TestDevice, deviceType: DeviceType, mask: bv32)
  {
    (d.deviceType == deviceType || deviceType == DeviceType.All) && StateMatches(d.state, mask)
  }

  /** For every mask without the sign bit (all `DeviceState` flags), the
      state test is "some flag in common". */
  lemma StateMatchesIsOverlap(state: bv32, mask: bv32)
    requires mask < 0x8000_0000
    ensures StateMatches(state, mask) <==> state & mask != 0
  {
    assert state & mask <= mask;
  }

  /** `Where` over the bag, keeping order. */
  function Filter(devices: seq<TestDevice>, deviceType: DeviceType, mask: bv32): (r: seq<TestDevice>)
    ensures |r| <= |devices|
    ensures forall d :: d in r <==> d in devices && Selected(d, deviceType, mask)
    ensures UniqueIds(devices) ==> UniqueIds(r)
  {
    if |devices| == 0 then []
    else
      var rest := Filter(devices[1..], deviceType, mask);
      assert forall d :: d in devices <==> d == devices[0] || d in devices[1..];
      assert UniqueIds(devices) ==> UniqueIds(devices[1..]) by {
        if UniqueIds(devices) {
          forall i, j | 0 <= i < j < |devices[1..]|
            ensures devices[1..][i].id != devices[1..][j].id
          {
            assert devices[1..][i] == devices[i + 1] && devices[1..][j] == devices[j + 1];
          }
        }
      }
      if Selected(devices[0], deviceType, mask) then
        assert UniqueIds(devices) ==> forall k :: 0 <= k < |rest| ==> rest[k].id != devices[0].id by {
          if UniqueIds(devices) {
            forall k | 0 <= k < |rest| ensures rest[k].id != devices[0].id {
              assert rest[k] in devices[1..];
              var m :| 0 <= m < |devices[1..]| && devices[1..][m] == rest[k];
              assert devices[m + 1] == rest[k];
            }
          }
        }
        [devices[0]] + rest
      else rest
  }

  function GetDevices(e: Enumerator, deviceType: DeviceType, mask: bv32): (r: seq<TestDevice>)
    ensures forall d :: d in r <==> d in e.devices && Selected(d, deviceType, mask)
    ensures UniqueIds(e.devices) ==> UniqueIds(r)
  {
    Filter(e.devices, deviceType, mask)
  }

  /** `SetDefaultDevice(TestDevice)`: playback first, then capture, else false. */
  function SetDefaultDevice(e: Enumerator, dev: TestDevice): (r: Update)
    ensures dev.IsPlaybackDevice() ==> r.success && SetsOnly(e, r.enumerator, PlaybackSlot, dev.id)
    ensures dev.IsCaptureDevice() ==> r.success && SetsOnly(e, r.enumerator, CaptureSlot, dev.id)
    ensures !dev.IsPlaybackDevice() && !dev.IsCaptureDevice() ==> r == Update(e, false)
  {
    if dev.IsPlaybackDevice() then Update(e.(defaultPlaybackId := dev.id), true)
    else if dev.IsCaptureDevice() then Update(e.(defaultCaptureId := dev.id), true)
    else Update(e, false)
  }

  /** `SetDefaultCommunicationsDevice(TestDevice)`: the communications slots. */
  function SetDefaultCommunicationsDevice(e: Enumerator, dev: TestDevice): (r: Update)
    ensures dev.IsPlaybackDevice() ==> r.success && SetsOnly(e, r.enumerator, PlaybackCommSlot, dev.id)
    ensures dev.IsCaptureDevice() ==> r.success && SetsOnly(e, r.enumerator, CaptureCommSlot, dev.id)
    ensures !dev.IsPlaybackDevice() && !dev.IsCaptureDevice() ==> r == Update(e, false)
  {
    if dev.IsPlaybackDevice() then Update(e.(defaultPlaybackCommId := dev.id), true)
    else if dev.IsCaptureDevice() then Update(e.(defaultCaptureCommId := dev.id), true)
    else Update(e, false)
  }

  /** `SetDefaultDevice(IDevice)`: delegates for a test device, otherwise false. */
  function SetDefaultDeviceAny(e: Enumerator, dev: AnyDevice): (r: Update)
    ensures dev.Test? ==> r == SetDefaultDevice(e, dev.device)
    ensures !dev.Test? ==> r == Update(e, false)
  {
    match dev
    case Test(d) => SetDefaultDevice(e, d)
    case _ => Update(e, false)
  }

  /** `SetDefaultCommunicationsDevice(IDevice)`. */
  function SetDefaultCommunicationsDeviceAny(e: Enumerator, dev: AnyDevice): (r: Update)
    ensures dev.Test? ==> r == SetDefaultCommunicationsDevice(e, dev.device)
    ensures !dev.Test? ==> r == Update(e, false)
  {
    match dev
    case Test(d) => SetDefaultCommunicationsDevice(e, d)
    case _ => Update(e, false)
  }

  /** Setting a member of the bag as default makes it the answer for the
      console and multimedia roles of its kind, and for `GetDevice` of its
      id, while the communications answers are unchanged. */
  lemma SetDefaultThenGet(e: Enumerator, d: TestDevice)
    requires UniqueIds(e.devices) && d in e.devices
    requires d.deviceType != DeviceType.All
    ensures var e' := SetDefaultDevice(e, d).enumerator;
      && GetDefaultDevice(e', d.deviceType, Console) == Some(d)
      && GetDefaultDevice(e', d.deviceType, Multimedia) == Some(d)
      && GetDefaultDevice(e', d.deviceType, Communications) == GetDefaultDevice(e, d.deviceType, Communications)
      && GetDevice(e', d.id) == Some(d)
      && (d.IsPlaybackDevice() ==> DefaultPlaybackDevice(e') == Some(d))
      && (d.IsCaptureDevice() ==> DefaultCaptureDevice(e') == Some(d))
  {
    FindsMember(e.devices, d);
  }

  /** The communications counterpart: only the communications answer moves. */
  lemma SetCommunicationsThenGet(e: Enumerator, d: TestDevice)
    requires UniqueIds(e.devices) && d in e.devices
    requires d.deviceType != DeviceType.All
    ensures var e' := SetDefaultCommunicationsDevice(e, d).enumerator;
      && GetDefaultDevice(e', d.deviceType, Communications) == Some(d)
      && GetDefaultDevice(e', d.deviceType, Console) == GetDefaultDevice(e, d.deviceType, Console)
      && GetDefaultDevice(e', d.deviceType, Multimedia) == GetDefaultDevice(e, d.deviceType, Multimedia)
      && (d.IsPlaybackDevice() ==> DefaultCommunicationsPlaybackDevice(e') == Some(d))
      && (d.IsCaptureDevice() ==> DefaultCommunicationsCaptureDevice(e') == Some(d))
  {
    FindsMember(e.devices, d);
  }
}
