/**
 * `PreferredCameraObserver`: the same observation as the provider, but
 * handing the raw source to an `onNext` callback instead of yielding a
 * `CaptureDevice`.
 */
module PreferredCameraObserver {
  import opened Wrappers
  import opened CaptureDevices
  import opened KeyValueObserving
  import PreferredCameraProvider

  /** The observer's own registration calls and the `onNext` calls made so far. */
  datatype Observer = Observer(records: seq<Record>, delivered: seq<Option<Source>>)

  function Init(): (o: Observer)
    ensures o.records == [AddObserver(SystemPreferredCamera, {OldValue, NewValue}, false)]
    ensures o.delivered == []
  {
    Observer([Registration], [])
  }

  function Deinit(o: Observer): (r: Observer)
    ensures r.records == o.records + [RemoveObserver(SystemPreferredCamera, false)]
    ensures r.delivered == o.delivered
  {
    o.(records := o.records + [Deregistration])
  }

  /** `observeValue(forKeyPath:of:change:context:)`: the callback gets the new source itself. */
  function ObserveValue(keyPath: string, change: Change): (r: Reaction<Option<Source>>)
    ensures r.PreconditionFailure? <==> keyPath != SystemPreferredCamera
    ensures r.Emitted? <==> keyPath == SystemPreferredCamera && UniqueID(change.oldSource) != UniqueID(change.newSource)
    ensures r.Emitted? ==> r.value == change.newSource
  {
    if keyPath != SystemPreferredCamera then PreconditionFailure
    else if IdentityChanged(change) then Emitted(change.newSource)
    else Ignored
  }

  /**
   * A change of `keyPath` on the class: it reaches `observeValue` only if
   * the observer observes that key path. None is the precondition failure.
   */
  function Notify(o: Observer, keyPath: string, change: Change): (r: Option<Observer>)
    ensures !Observing(o.records, keyPath) ==> r == Some(o)
    ensures r.Some? ==> r.value.records == o.records
    ensures r.Some? ==> |r.value.delivered| <= |o.delivered| + 1
    ensures r.None? <==> Observing(o.records, keyPath) && keyPath != SystemPreferredCamera
  {
    if !Observing(o.records, keyPath) then Some(o)
    else
      match ObserveValue(keyPath, change)
      case PreconditionFailure => None
      case Ignored => Some(o)
      case Emitted(s) => Some(o.(delivered := o.delivered + [s]))
  }

  /**
   * The tests' run: "userPreferredCamera" set to "2" and back to nil, then
   * "systemPreferredCamera" set to "1": only "1" reaches `onNext`.
   */
  lemma UserPreferredChangesNotDelivered()
    ensures var o := Init();
            var a := Notify(o, UserPreferredCamera, Change(None, Some(Source("2"))));
            && a == Some(o)
            && Notify(a.value, UserPreferredCamera, Change(Some(Source("2")), None)) == Some(o)
            && Notify(o, SystemPreferredCamera, Change(None, Some(Source("1"))))
               == Some(o.(delivered := [Some(Source("1"))]))
  {
    RegisteredObservesOnlySystemCamera(UserPreferredCamera);
    RegisteredObservesOnlySystemCamera(SystemPreferredCamera);
    assert Init().delivered + [Some(Source("1"))] == [Some(Source("1"))];
  }

  /** After `deinit` no change reaches the observer. */
  lemma ReleasedObserverHearsNothing(keyPath: string, change: Change)
    ensures Notify(Deinit(Init()), keyPath, change) == Some(Deinit(Init()))
  {
    RegisteredObservesOnlySystemCamera(keyPath);
  }

  /** One change of "systemPreferredCamera" delivered to a live observer. */
  function OnChange(o: Observer, change: Change): (r: Observer)
    ensures r.records == o.records
    ensures IdentityChanged(change) ==> r.delivered == o.delivered + [change.newSource]
    ensures !IdentityChanged(change) ==> r.delivered == o.delivered
  {
    match ObserveValue(SystemPreferredCamera, change)
    case Emitted(s) => o.(delivered := o.delivered + [s])
    case _ => o
  }

  /** A live observer reacts to a change of the system camera exactly as `OnChange` states. */
  lemma NotifyIsOnChange(o: Observer, change: Change)
    requires Observing(o.records, SystemPreferredCamera)
    ensures Notify(o, SystemPreferredCamera, change) == Some(OnChange(o, change))
  {
  }

  /** The `onNext` calls for successive changes. */
  function OnNextCalls(changes: seq<Change>): (r: seq<Option<Source>>)
    ensures |r| <= |changes|
    decreases |changes|
  {
    if |changes| == 0 then []
    else (if IdentityChanged(changes[0]) then [changes[0].newSource] else []) + OnNextCalls(changes[1..])
  }

  /** Feeding the changes one at a time appends exactly `OnNextCalls`. */
  lemma {:induction false} OnChangesAppendOnNextCalls(o: Observer, changes: seq<Change>)
    ensures var r := FoldChanges(o, changes);
            r.records == o.records && r.delivered == o.delivered + OnNextCalls(changes)
    decreases |changes|
  {
    if |changes| > 0 {
      var o' := OnChange(o, changes[0]);
      OnChangesAppendOnNextCalls(o', changes[1..]);
    }
  }

  function FoldChanges(o: Observer, changes: seq<Change>): Observer
    decreases |changes|
  {
    if |changes| == 0 then o else FoldChanges(OnChange(o, changes[0]), changes[1..])
  }

  /**
   * The provider yields, change for change, the devices of the sources the
   * observer passes on: the two observers filter identically.
   */
  lemma {:induction false} ProviderYieldsObserverCalls(changes: seq<Change>)
    ensures PreferredCameraProvider.Emissions(changes) == AsCaptureDevices(OnNextCalls(changes))
    decreases |changes|
  {
    if |changes| > 0 {
      ProviderYieldsObserverCalls(changes[1..]);
    }
  }

  /** The test sequence "1", "1", nil calls `onNext` with "1" and then nil. */
  lemma RepeatedSourceCalledOnce()
    ensures OnNextCalls(Assignments(None, [Some(Source("1")), Some(Source("1")), None]))
         == [Some(Source("1")), None]
  {
    var a := Assignments(None, [Some(Source("1")), Some(Source("1")), None]);
    assert a == [Change(None, Some(Source("1"))), Change(Some(Source("1")), Some(Source("1"))), Change(Some(Source("1")), None)];
    assert a[1..][1..][1..] == [];
  }
}
