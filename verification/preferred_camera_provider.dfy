/**
 * `PreferredCameraProvider`: publishes the system-preferred camera as a
 * newest-1 `AsyncStream<CaptureDevice?>`, one element per change of its
 * `uniqueID`.
 */
module PreferredCameraProvider {
  import opened Wrappers
  import opened CaptureDevices
  import opened KeyValueObserving
  import NewestChannel

  /** The provider's own registration calls and its stream's buffer. */
  datatype Provider = Provider(records: seq<Record>, buffered: Option<Option<CaptureDevice>>)

  /** `init`: one observer on "systemPreferredCamera" with old and new values and a nil context. */
  function Init(): (p: Provider)
    ensures p.records == [AddObserver(SystemPreferredCamera, {OldValue, NewValue}, false)]
    ensures p.buffered.None?
  {
    Provider([Registration], None)
  }

  /** `deinit` removes that observer. */
  function Deinit(p: Provider): (r: Provider)
    ensures r.records == p.records + [RemoveObserver(SystemPreferredCamera, false)]
  {
    p.(records := p.records + [Deregistration])
  }

  /** A provider made and released records exactly an add and then a remove. */
  lemma RegistrationLifecycle()
    ensures Deinit(Init()).records
         == [AddObserver("systemPreferredCamera", {OldValue, NewValue}, false),
             RemoveObserver("systemPreferredCamera", false)]
  {
  }

  /** `observeValue(forKeyPath:of:change:context:)`. */
  function ObserveValue(keyPath: string, change: Change): (r: Reaction<Option<CaptureDevice>>)
    ensures r.PreconditionFailure? <==> keyPath != SystemPreferredCamera
    ensures r.Emitted? <==> keyPath == SystemPreferredCamera && UniqueID(change.oldSource) != UniqueID(change.newSource)
    ensures r.Emitted? ==> r.value == AsCaptureDevice(change.newSource)
  {
    if keyPath != SystemPreferredCamera then PreconditionFailure
    else if IdentityChanged(change) then Emitted(AsCaptureDevice(change.newSource))
    else Ignored
  }

  /**
   * A change of `keyPath` on the class: it reaches `observeValue` only if
   * the provider observes that key path; an emitted value replaces the
   * buffered one. None is the precondition failure.
   */
  function Notify(p: Provider, keyPath: string, change: Change): (r: Option<Provider>)
    ensures !Observing(p.records, keyPath) ==> r == Some(p)
    ensures r.Some? ==> r.value.records == p.records
    ensures r.None? <==> Observing(p.records, keyPath) && ObserveValue(keyPath, change).PreconditionFailure?
    ensures Observing(p.records, keyPath) && ObserveValue(keyPath, change).Ignored? ==> r == Some(p)
    ensures Observing(p.records, keyPath) && ObserveValue(keyPath, change).Emitted?
            ==> r.Some? && r.value.buffered == Some(ObserveValue(keyPath, change).value)
  {
    if !Observing(p.records, keyPath) then Some(p)
    else
      match ObserveValue(keyPath, change)
      case PreconditionFailure => None
      case Ignored => Some(p)
      case Emitted(d) => Some(p.(buffered := Some(d)))
  }

  /**
   * A provider that has not been released never hits the precondition:
   * its only registration is for the system camera. Changes of
   * "userPreferredCamera" never reach it at all.
   */
  lemma LiveProviderNeverFails(keyPath: string, change: Change, buffered: Option<Option<CaptureDevice>>)
    ensures Notify(Init().(buffered := buffered), keyPath, change).Some?
    ensures Notify(Init().(buffered := buffered), UserPreferredCamera, change) == Some(Init().(buffered := buffered))
  {
    RegisteredObservesOnlySystemCamera(keyPath);
    RegisteredObservesOnlySystemCamera(UserPreferredCamera);
  }

  /** The values the provider yields for successive changes of "systemPreferredCamera". */
  function Emissions(changes: seq<Change>): (r: seq<Option<CaptureDevice>>)
    ensures |r| <= |changes|
    decreases |changes|
  {
    if |changes| == 0 then []
    else
      (if IdentityChanged(changes[0]) then [AsCaptureDevice(changes[0].newSource)] else []) + Emissions(changes[1..])
  }

  /** Delivers `changes` of "systemPreferredCamera" one after another; None once one hits the precondition. */
  function NotifyAll(p: Provider, changes: seq<Change>): (r: Option<Provider>)
    ensures r.Some? ==> r.value.records == p.records
    decreases |changes|
  {
    if |changes| == 0 then Some(p)
    else
      match Notify(p, SystemPreferredCamera, changes[0])
      case None => None
      case Some(q) => NotifyAll(q, changes[1..])
  }

  /**
   * A provider that observes the system camera takes any run of its
   * changes without failing, keeps its registrations, and ends up
   * buffering the last value it emitted, or what it buffered before if
   * it emitted nothing.
   */
  lemma {:induction false} NotifyAllBuffersLastEmission(p: Provider, changes: seq<Change>)
    requires Observing(p.records, SystemPreferredCamera)
    ensures NotifyAll(p, changes).Some?
    ensures NotifyAll(p, changes).value.records == p.records
    ensures var e := Emissions(changes);
            NotifyAll(p, changes).value.buffered == if |e| == 0 then p.buffered else Some(e[|e| - 1])
    decreases |changes|
  {
    if |changes| > 0 {
      var q := Notify(p, SystemPreferredCamera, changes[0]).value;
      NotifyAllBuffersLastEmission(q, changes[1..]);
    }
  }

  /**
   * The provider's buffer after a run of changes is the buffer of the
   * newest-1 stream after the values it emitted are yielded into it.
   */
  lemma ProviderBufferIsChannelBuffer(buffered: Option<Option<CaptureDevice>>, changes: seq<Change>)
    ensures NotifyAll(Init().(buffered := buffered), changes).Some?
    ensures NotifyAll(Init().(buffered := buffered), changes).value.buffered
         == NewestChannel.Run(buffered, NewestChannel.YieldsOf(Emissions(changes))).buffered
  {
    RegisteredObservesOnlySystemCamera(SystemPreferredCamera);
    NotifyAllBuffersLastEmission(Init().(buffered := buffered), changes);
  }

  /** The values yielded while `values` are assigned in turn, starting from `initial`. */
  function YieldsFor(initial: Option<Source>, values: seq<Option<Source>>): seq<Option<CaptureDevice>> {
    Emissions(Assignments(initial, values))
  }

  /** The first assignment yields its device if it changes the identity; the rest start from it. */
  lemma YieldsForFirst(initial: Option<Source>, values: seq<Option<Source>>)
    requires |values| > 0
    ensures YieldsFor(initial, values)
         == (if UniqueID(values[0]) != UniqueID(initial) then [AsCaptureDevice(values[0])] else [])
            + YieldsFor(values[0], values[1..])
  {
    assert Assignments(initial, values)[1..] == Assignments(values[0], values[1..]);
  }

  /** Nothing is yielded exactly when every value assigned has the initial `uniqueID`. */
  lemma {:induction false} NothingYieldedIffSameIdentity(initial: Option<Source>, values: seq<Option<Source>>)
    ensures |YieldsFor(initial, values)| == 0
        <==> forall i :: 0 <= i < |values| ==> UniqueID(values[i]) == UniqueID(initial)
    decreases |values|
  {
    if |values| > 0 {
      YieldsForFirst(initial, values);
      NothingYieldedIffSameIdentity(values[0], values[1..]);
      if UniqueID(values[0]) == UniqueID(initial) {
        forall i | 0 < i < |values|
          ensures values[i] == values[1..][i - 1]
        {
        }
      }
    }
  }

  /** The first value yielded differs from the initial device, and no two consecutive ones are equal. */
  lemma {:induction false} YieldsAlwaysChange(initial: Option<Source>, values: seq<Option<Source>>)
    ensures var e := YieldsFor(initial, values);
            && (|e| > 0 ==> e[0] != AsCaptureDevice(initial))
            && (forall i :: 0 < i < |e| ==> e[i - 1] != e[i])
    decreases |values|
  {
    if |values| > 0 {
      YieldsForFirst(initial, values);
      YieldsAlwaysChange(values[0], values[1..]);
      AsCaptureDeviceKeepsIdentity(values[0], initial);
    }
  }

  /** When anything is yielded, the last value yielded is the device of the last value assigned. */
  lemma {:induction false} LastYieldIsLastValue(initial: Option<Source>, values: seq<Option<Source>>)
    ensures var e := YieldsFor(initial, values);
            |e| > 0 ==> e[|e| - 1] == AsCaptureDevice(values[|values| - 1])
    decreases |values|
  {
    if |values| > 0 {
      var v := values[0];
      var rest := values[1..];
      YieldsForFirst(initial, values);
      LastYieldIsLastValue(v, rest);
      if |YieldsFor(v, rest)| == 0 && |rest| > 0 {
        NothingYieldedIffSameIdentity(v, rest);
        assert UniqueID(rest[|rest| - 1]) == UniqueID(v);
        AsCaptureDeviceKeepsIdentity(rest[|rest| - 1], v);
      }
    }
  }

  /**
   * For any run of assignments: nothing is yielded iff every value has the
   * initial `uniqueID`; the first yielded value differs from the initial
   * one; no two consecutive yielded values are equal; and the last one is
   * the device of the last value assigned.
   */
  lemma EmissionsFollowIdentity(initial: Option<Source>, values: seq<Option<Source>>)
    ensures var e := Emissions(Assignments(initial, values));
            && (|e| == 0 <==> forall i :: 0 <= i < |values| ==> UniqueID(values[i]) == UniqueID(initial))
            && (|e| > 0 ==> e[0] != AsCaptureDevice(initial))
            && (|e| > 0 ==> e[|e| - 1] == AsCaptureDevice(values[|values| - 1]))
            && (forall i :: 0 < i < |e| ==> e[i - 1] != e[i])
  {
    NothingYieldedIffSameIdentity(initial, values);
    YieldsAlwaysChange(initial, values);
    LastYieldIsLastValue(initial, values);
  }

  function S(id: string): Option<Source> {
    Some(Source(id))
  }

  function D(id: string): Option<CaptureDevice> {
    Some(CaptureDevice(id, ""))
  }

  /** The tests' sequences: "1", nil, "2" yields all three; "1", "1", nil yields the repeat once. */
  lemma TestSequences()
    ensures Emissions(Assignments(None, [S("1"), None, S("2")])) == [D("1"), None, D("2")]
    ensures Emissions(Assignments(None, [S("1"), S("1"), None])) == [D("1"), None]
  {
    var a := Assignments(None, [S("1"), None, S("2")]);
    assert a == [Change(None, S("1")), Change(S("1"), None), Change(None, S("2"))];
    assert a[1..][1..][1..] == [];
    var b := Assignments(None, [S("1"), S("1"), None]);
    assert b == [Change(None, S("1")), Change(S("1"), S("1")), Change(S("1"), None)];
    assert b[1..][1..][1..] == [];
  }

  /**
   * A reader that starts after the three assignments sees only the latest
   * camera: the provider buffers it, and the stream delivers it.
   */
  lemma LateReaderSeesLatest()
    ensures var changes := Assignments(None, [S("1"), None, S("2")]);
            && NotifyAll(Init(), changes) == Some(Init().(buffered := Some(D("2"))))
            && NewestChannel.Run(None, NewestChannel.YieldsOf(Emissions(changes)) + [NewestChannel.Next]).received == [D("2")]
  {
    TestSequences();
    RegisteredObservesOnlySystemCamera(SystemPreferredCamera);
    NotifyAllBuffersLastEmission(Init(), Assignments(None, [S("1"), None, S("2")]));
    NewestChannel.LateReaderSeesNewest(None, [D("1"), None, D("2")]);
  }
}
