/** `CaptureDevice`, the record the camera code hands around. */
module CaptureDevices {

  datatype CaptureDevice = CaptureDevice(id: string, name: string)
}

/**
 * Key-value observation of the capture-device class's preferred-camera
 * properties, as the three preferred-camera observers use it: each
 * registers once on "systemPreferredCamera" with the old and new values
 * and no context, and reacts to a change only when the old and new
 * `uniqueID`s differ.
 */
module KeyValueObserving {
  import opened Wrappers
  import opened CaptureDevices

  const SystemPreferredCamera := "systemPreferredCamera"
  const UserPreferredCamera := "userPreferredCamera"

  /** A `CaptureDeviceProtocol` object; only its `uniqueID` is read. */
  datatype Source = Source(uniqueID: string)

  /** A change dictionary read through `change?[.oldKey] as? Source` and `change?[.newKey] as? Source`. */
  datatype Change = Change(oldSource: Option<Source>, newSource: Option<Source>)

  datatype ObservingOption = OldValue | NewValue

  /** Calls on the class's registration methods, as the tests' mock device records them. */
  datatype Record =
    | AddObserver(keyPath: string, options: set<ObservingOption>, withContext: bool)
    | RemoveObserver(keyPath: string, withContext: bool)

  const Registration: Record := AddObserver(SystemPreferredCamera, {OldValue, NewValue}, false)
  const Deregistration: Record := RemoveObserver(SystemPreferredCamera, false)

  /** Whether an observer whose registration calls were `records` is still observing `keyPath`. */
  function Observing(records: seq<Record>, keyPath: string): bool
    decreases |records|
  {
    if |records| == 0 then false
    else
      var last := records[|records| - 1];
      if last.keyPath == keyPath then last.AddObserver? else Observing(records[..|records| - 1], keyPath)
  }

  /** The registrations made in `init`: observing the system camera and nothing else. */
  lemma RegisteredObservesOnlySystemCamera(keyPath: string)
    ensures Observing([Registration], keyPath) <==> keyPath == SystemPreferredCamera
    ensures !Observing([Registration, Deregistration], keyPath)
  {
  }

  /** `source?.uniqueID`. */
  function UniqueID(s: Option<Source>): Option<string> {
    s.Map((x: Source) => x.uniqueID)
  }

  /** The old and new sources differ by `uniqueID`, nil counting as its own value. */
  predicate IdentityChanged(c: Change) {
    UniqueID(c.oldSource) != UniqueID(c.newSource)
  }

  /** `newSource.map { CaptureDevice(id: $0.uniqueID, name: "") }`. */
  function AsCaptureDevice(s: Option<Source>): (d: Option<CaptureDevice>)
    ensures d.None? <==> s.None?
    ensures d.Some? ==> d.value.id == s.value.uniqueID && d.value.name == ""
  {
    s.Map((x: Source) => CaptureDevice(x.uniqueID, ""))
  }

  /** Mapping to a device loses nothing `uniqueID` does not already lose. */
  lemma AsCaptureDeviceKeepsIdentity(a: Option<Source>, b: Option<Source>)
    ensures AsCaptureDevice(a) == AsCaptureDevice(b) <==> UniqueID(a) == UniqueID(b)
  {
  }

  function AsCaptureDevices(sources: seq<Option<Source>>): (r: seq<Option<CaptureDevice>>)
    ensures |r| == |sources|
    ensures forall i :: 0 <= i < |r| ==> r[i] == AsCaptureDevice(sources[i])
  {
    seq(|sources|, i requires 0 <= i < |sources| => AsCaptureDevice(sources[i]))
  }

  /**
   * Assigning `values` in turn to the observed class property, starting
   * from `initial`: with the old and new options, each assignment notifies
   * one change pairing the value before it with the one assigned.
   */
  function Assignments(initial: Option<Source>, values: seq<Option<Source>>): (cs: seq<Change>)
    ensures |cs| == |values|
    ensures forall i :: 0 <= i < |cs| ==> cs[i].newSource == values[i]
    ensures |cs| > 0 ==> cs[0].oldSource == initial
    ensures forall i :: 0 < i < |cs| ==> cs[i].oldSource == values[i - 1]
    decreases |values|
  {
    if |values| == 0 then []
    else [Change(initial, values[0])] + Assignments(values[0], values[1..])
  }

  /** What one `observeValue` call does. */
  datatype Reaction<T> = PreconditionFailure | Ignored | Emitted(value: T)
}
