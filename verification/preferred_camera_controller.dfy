/**
 * `PreferredCameraController`: the provider's stream of system-preferred
 * cameras plus a setter for the user-preferred camera.
 */
module PreferredCameraController {
  import opened Wrappers
  import opened CaptureDevices
  import opened KeyValueObserving
  import PreferredCameraProvider

  /**
   * `setPreferredCamera`: the value assigned to `userPreferredCamera`.
   * `cameraIDs` are the ids for which `Camera(uniqueID:)` finds a device;
   * for any other id the failable initialiser gives nil.
   */
  function SetPreferredCamera(cameraIDs: set<string>, preferred: Option<CaptureDevice>): (r: Option<Source>)
    ensures r.Some? <==> preferred.Some? && preferred.value.id in cameraIDs
    ensures r.Some? ==> r.value.uniqueID == preferred.value.id
  {
    match preferred
    case None => None
    case Some(d) => if d.id in cameraIDs then Some(Source(d.id)) else None
  }

  /** Only the id of the selected device matters; its name is never read. */
  lemma NameIsIgnored(cameraIDs: set<string>, id: string, name1: string, name2: string)
    ensures SetPreferredCamera(cameraIDs, Some(CaptureDevice(id, name1)))
         == SetPreferredCamera(cameraIDs, Some(CaptureDevice(id, name2)))
  {
  }

  /**
   * A known camera set as preferred and read back the way the stream
   * reports devices is the same device without its name.
   */
  lemma SetThenReadBack(cameraIDs: set<string>, d: CaptureDevice)
    requires d.id in cameraIDs
    ensures AsCaptureDevice(SetPreferredCamera(cameraIDs, Some(d))) == Some(d.(name := ""))
  {
  }

  /** The nested `Observer`'s registration calls on creation. */
  function ObserverInit(): (records: seq<Record>)
    ensures records == [AddObserver(SystemPreferredCamera, {OldValue, NewValue}, false)]
  {
    [Registration]
  }

  function ObserverDeinit(records: seq<Record>): (r: seq<Record>)
    ensures r == records + [RemoveObserver(SystemPreferredCamera, false)]
  {
    records + [Deregistration]
  }

  /** The nested `Observer`'s `observeValue`. */
  function ObserveValue(keyPath: string, change: Change): (r: Reaction<Option<CaptureDevice>>)
    ensures r.PreconditionFailure? <==> keyPath != SystemPreferredCamera
    ensures r.Emitted? <==> keyPath == SystemPreferredCamera && UniqueID(change.oldSource) != UniqueID(change.newSource)
    ensures r.Emitted? ==> r.value.Some? == change.newSource.Some?
    ensures r.Emitted? && r.value.Some? ==> r.value.value == CaptureDevice(change.newSource.value.uniqueID, "")
  {
    if keyPath != SystemPreferredCamera then PreconditionFailure
    else if IdentityChanged(change) then Emitted(AsCaptureDevice(change.newSource))
    else Ignored
  }

  /** The controller's stream carries what the provider's would, for every change. */
  lemma SameAsProvider(keyPath: string, change: Change)
    ensures ObserveValue(keyPath, change) == PreferredCameraProvider.ObserveValue(keyPath, change)
  {
  }
}
