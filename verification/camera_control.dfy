/**
 * `CameraControl`: the selected camera, pushed to the preferred-camera
 * controller on every assignment, and the list of cameras from a
 * discovery service.
 */
module CameraControls {
  import opened Wrappers
  import opened CaptureDevices

  /** `forwarded` is the sequence of `setPreferredCamera` calls made so far. */
  datatype CameraControl = CameraControl(
    selectedCamera: Option<CaptureDevice>,
    listOfCameras: seq<CaptureDevice>,
    forwarded: seq<Option<CaptureDevice>>)

  function Init(): (c: CameraControl)
    ensures c.selectedCamera.None? && c.listOfCameras == [] && c.forwarded == []
  {
    CameraControl(None, [], [])
  }

  /** Assigning `selectedCamera`: its `didSet` forwards the value, nil included, even when unchanged. */
  function SelectCamera(c: CameraControl, d: Option<CaptureDevice>): (r: CameraControl)
    ensures r.selectedCamera == d
    ensures r.forwarded == c.forwarded + [d]
    ensures r.listOfCameras == c.listOfCameras
  {
    c.(selectedCamera := d, forwarded := c.forwarded + [d])
  }

  /** Selecting twice forwards twice, in order, and keeps the second. */
  lemma SelectionsForwardedInOrder(c: CameraControl, d1: Option<CaptureDevice>, d2: Option<CaptureDevice>)
    ensures SelectCamera(SelectCamera(c, d1), d2).forwarded == c.forwarded + [d1, d2]
    ensures SelectCamera(SelectCamera(c, d1), d2).selectedCamera == d2
  {
  }

  /** The one test: the selected device reaches the controller unchanged. */
  lemma SelectionReachesController()
    ensures SelectCamera(Init(), Some(CaptureDevice("ID", "Camera"))).forwarded
         == [Some(CaptureDevice("ID", "Camera"))]
  {
  }

  /**
   * What an async sequence produces before its consumer stops: the
   * elements delivered, and whether the sequence then finishes or stays
   * suspended for ever.
   */
  datatype Elements<T> = Elements(values: seq<T>, finishes: bool)

  /** `for await devices in devices { listOfCameras = devices }`. */
  function ApplyDeviceLists(c: CameraControl, lists: seq<seq<CaptureDevice>>): (r: CameraControl)
    ensures |lists| > 0 ==> r.listOfCameras == lists[|lists| - 1]
    ensures |lists| == 0 ==> r.listOfCameras == c.listOfCameras
    ensures r.selectedCamera == c.selectedCamera && r.forwarded == c.forwarded
    decreases |lists|
  {
    if |lists| == 0 then c else ApplyDeviceLists(c.(listOfCameras := lists[0]), lists[1..])
  }

  /**
   * `listenForCameras`: the first preferred camera, if any, becomes the
   * selection; only once the preferred stream ends (after one element or
   * by finishing) are device lists applied. A preferred stream that stays
   * empty and open blocks the rest for ever.
   */
  function ListenForCameras(c: CameraControl, preferred: Elements<Option<CaptureDevice>>,
                            lists: seq<seq<CaptureDevice>>): (r: CameraControl)
    ensures |preferred.values| > 0 ==> r.selectedCamera == preferred.values[0]
    ensures |preferred.values| > 0 ==> r.forwarded == c.forwarded + [preferred.values[0]]
    ensures |preferred.values| == 0 ==> r.selectedCamera == c.selectedCamera && r.forwarded == c.forwarded
    ensures |preferred.values| == 0 && !preferred.finishes ==> r == c
    ensures (|preferred.values| > 0 || preferred.finishes) && |lists| > 0 ==> r.listOfCameras == lists[|lists| - 1]
  {
    if |preferred.values| > 0 then ApplyDeviceLists(SelectCamera(c, preferred.values[0]), lists)
    else if preferred.finishes then ApplyDeviceLists(c, lists)
    else c
  }

  /** Later preferred cameras are never read: only the first element is taken. */
  lemma OnlyFirstPreferredCameraTaken(c: CameraControl, first: Option<CaptureDevice>,
                                      rest1: seq<Option<CaptureDevice>>, rest2: seq<Option<CaptureDevice>>,
                                      f1: bool, f2: bool, lists: seq<seq<CaptureDevice>>)
    ensures ListenForCameras(c, Elements([first] + rest1, f1), lists)
         == ListenForCameras(c, Elements([first] + rest2, f2), lists)
  {
  }
}
