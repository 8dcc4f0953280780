/**
 * Functions, properties and subscripts: a delegate held weakly by an alert
 * view, a computed property, a setter, two custom subscripts and an escaping
 * completion handler that is stored but never called.
 *
 * `print` calls are not modelled, except where printing is all a delegate
 * callback does: there the callback is recorded in a list of taps.
 */
module FunctionsAsDelegates {
  import opened Wrappers

  // Delegates, Foundation style

  /** The one `AlertViewDelegate` of the source; `taps` records every `didTapButton` call. */
  class ViewController {
    const alert: AlertView
    var taps: seq<int>

    /** Creates its alert with the default buttons and becomes its delegate. */
    constructor ()
      ensures fresh(alert)
      ensures alert.buttons == ["OK", "Cancel"] && alert.delegate == this
      ensures taps == []
    {
      alert := new AlertView(["OK", "Cancel"]);
      taps := [];
      new;
      alert.delegate := this;
    }

    method DidTapButton(atIndex: int)
      modifies this
      ensures taps == old(taps) + [atIndex]
    {
      taps := taps + [atIndex];
    }
  }

  class AlertView {
    var buttons: seq<string>
    /** Weak: `null` once the delegate is gone, or before one is set. */
    var delegate: ViewController?

    constructor (buttons: seq<string> := ["OK", "Cancel"])
      ensures this.buttons == buttons && delegate == null
    {
      this.buttons := buttons;
      delegate := null;
    }

    /** Taps button 1 on the delegate, if there is one. */
    method Fire()
      modifies delegate
      ensures delegate != null ==> delegate.taps == old(delegate.taps) + [1]
    {
      if delegate != null {
        delegate.DidTapButton(1);
      }
    }
  }

  /** A view controller's alert fires into the view controller itself. */
  method ScenarioAlertFires()
  {
    var vc := new ViewController();
    vc.alert.Fire();
    assert vc.taps == [1];
    var lonely := new AlertView();
    assert lonely.buttons == ["OK", "Cancel"];
    lonely.Fire();
    assert vc.taps == [1];
  }

  // Computed properties

  /** `GPSTrack.timestamps`: the second component of every record, in order. */
  function Timestamps(record: seq<(string, string)>): (r: seq<string>)
    ensures |r| == |record|
    ensures forall k :: 0 <= k < |record| ==> r[k] == record[k].1
  {
    if record == [] then [] else [record[0].1] + Timestamps(record[1..])
  }

  // Change observers

  datatype State = Moving | Stopped

  class Robot {
    var stateObserver: State
    var stateValue: State

    constructor ()
      ensures stateObserver == Stopped && stateValue == Stopped
    {
      stateObserver := Stopped;
      stateValue := Stopped;
    }

    /** The getter of `state`. */
    function CurrentState(): (s: State)
      reads this
      ensures s == stateValue
    {
      stateValue
    }

    /** Assigning `stateObserver`; its `didSet` only prints. */
    method SetStateObserver(newValue: State)
      modifies this
      ensures stateObserver == newValue && stateValue == old(stateValue)
    {
      stateObserver := newValue;
    }

    /** The setter of `state` as written: it only prints, so the new value is lost. */
    method SetState(newValue: State)
      ensures unchanged(this)
    {
    }

    /** The setter of `state` as intended: it stores the value the getter returns. */
    method SetStateStoring(newValue: State)
      modifies this
      ensures CurrentState() == newValue && stateObserver == old(stateObserver)
    {
      stateValue := newValue;
    }
  }

  /**
   * As written, `state` cannot be set: after `state = .moving` it still reads
   * `.stopped`, while the observed property it is said to be equivalent to
   * reads `.moving`; the intended setter makes the two agree.
   */
  method ScenarioRobotSetterDiscards()
  {
    var robot := new Robot();
    robot.SetStateObserver(Moving);
    robot.SetState(Moving);
    assert robot.stateObserver == Moving && robot.CurrentState() == Stopped;
    robot.SetStateStoring(Moving);
    assert robot.stateObserver == Moving && robot.CurrentState() == Moving;
  }

  // Subscripts

  /** `subscript(indexList:)` on an array: the elements at the given indices, in order. */
  method ElementsAt<T>(c: seq<T>, indexList: seq<int>) returns (result: seq<T>)
    requires forall k :: 0 <= k < |indexList| ==> 0 <= indexList[k] < |c|
    ensures |result| == |indexList|
    ensures forall k :: 0 <= k < |indexList| ==> result[k] == c[indexList[k]]
  {
    result := [];
    for n := 0 to |indexList|
      invariant |result| == n
      invariant forall k :: 0 <= k < n ==> result[k] == c[indexList[k]]
    {
      result := result + [c[indexList[n]]];
    }
  }

  /** `String.subscript(i:)`: walks `i` characters from the start. */
  function CharacterAt(s: string, i: int): (ch: char)
    requires 0 <= i < |s|
    ensures ch == s[i]
  {
    if i == 0 then s[0] else CharacterAt(s[1..], i - 1)
  }

  // The @escaping annotation

  function Sum(values: seq<int>): int
  {
    if values == [] then 0 else Sum(values[..|values| - 1]) + values[|values| - 1]
  }

  /**
   * The closure `doSomething` hands over: with the request still alive, it
   * stores the sum it is called with into `sum`.
   */
  datatype SumHandler = StoreSum

  class AgeRequest {
    var sum: Option<int>
    var completionHandler: Option<SumHandler>

    constructor ()
      ensures sum == None && completionHandler == None
    {
      sum := None;
      completionHandler := None;
    }

    /**
     * Adds up `values` (the `array` argument) into a local that is then dropped, and stores
     * `handler` without calling it; `computed` is that local's final value.
     */
    method GetSumOf(values: seq<int>, handler: SumHandler) returns (ghost computed: int)
      modifies this
      ensures completionHandler == Some(handler) && sum == old(sum)
      ensures computed == Sum(values)
    {
      var total := 0;
      for i := 0 to |values|
        invariant total == Sum(values[..i])
      {
        assert values[..i + 1][..i] == values[..i];
        total := total + values[i];
      }
      assert values[..|values|] == values;
      computed := total;
      completionHandler := Some(handler);
    }

    /**
     * What calling the stored handler with `n` would do. Nothing in the
     * request calls it; this is the effect `getSumOf` leaves out.
     */
    method RunCompletionHandler(n: int)
      requires completionHandler.Some?
      modifies this
      ensures completionHandler == old(completionHandler)
      ensures sum == Some(n)
    {
      match completionHandler.value
      case StoreSum => sum := Some(n);
    }

    /** Requests a sum whose handler would store it; since it is never called, `sum` stays as it was. */
    method DoSomething()
      modifies this
      ensures sum == old(sum) && completionHandler == Some(StoreSum)
    {
      ghost var dropped := GetSumOf([16, 756, 442, 6, 23], StoreSum);
    }
  }

  /**
   * After `doSomething` on a new request, `sum` is still `nil`; only running
   * the stored handler would set it to the sum, 1243.
   */
  method ScenarioSumStaysNil()
  {
    var request := new AgeRequest();
    request.DoSomething();
    assert request.sum == None;
    ghost var total := request.GetSumOf([16, 756, 442, 6, 23], StoreSum);
    ghost var values := [16, 756, 442, 6, 23];
    assert values[..1] == [16] && Sum([16]) == 16;
    assert values[..2][..1] == values[..1] && Sum(values[..2]) == 772;
    assert values[..3][..2] == values[..2] && Sum(values[..3]) == 1214;
    assert values[..4][..3] == values[..3] && Sum(values[..4]) == 1220;
    assert values[..4] == values[..|values| - 1] && Sum(values) == 1243;
    assert total == 1243;
    assert request.sum == None;
    request.RunCompletionHandler(1243);
    assert request.sum == Some(1243);
  }
}
