/**
 * Clients of `Bindable` that use only the contracts of `bindable_values.dfy`:
 * a dead owner is pruned, a bound owner receives the current value at once,
 * and a binding made twice fires twice.
 */
module BindableScenarios {
  import opened Wrappers
  import opened BindableValues

  /**
   * Int value, no initial value; A bound; update(5) reaches A; A dies, and a
   * new object never takes its identity; update(6) reaches no one.
   */
  method ScenarioDeadOwnerIsPruned()
  {
    var world := new Owners<int>();
    var b := new Bindable<int, int>();
    var a := world.Allocate();
    var identity := (v: int) => v;
    b.Bind(identity, a, "text", world);
    assert world.log == [];
    ghost var o := Observation(a, "text", PlainWrite(identity));
    assert b.observations == [o];
    LiveLength([o], world.alive);
    DeliveriesAt([o], 5);
    b.Update(5, world);
    assert b.observations == [o];
    ghost var d := Delivery(a, "text", Plain(5));
    assert Deliveries([o], 5) == [d];
    assert world.log == [d];
    world.Release(a);
    var newcomer := world.Allocate();
    assert newcomer != a && a !in world.alive;
    LiveLength([o], world.alive);
    b.Update(6, world);
    assert b.observations == [];
    assert world.log == [d];
  }

  /** Value 1 published before binding; B bound receives 1 at once, then 2 on update. */
  method ScenarioImmediateDelivery()
  {
    var world := new Owners<int>();
    var b := new Bindable<int, int>(Some(1));
    var owner := world.Allocate();
    var identity := (v: int) => v;
    b.BindOptional(identity, owner, "text", world);
    ghost var sent := Delivery(owner, "text", Wrapped(Some(1)));
    assert world.log == [sent];
    ghost var o := Observation(owner, "text", WrappedWrite(identity));
    assert b.observations == [o];
    SingleObservationUpdate(o, world.alive, 2, world.fields);
    b.Update(2, world);
    ghost var d := Delivery(owner, "text", Wrapped(Some(2)));
    assert Deliver(o, 2) == d;
    assert world.log == [sent, d];
    assert world.fields[(owner, "text")] == Wrapped(Some(2));
  }

  /** C bound twice; update(3) invokes both observations; a second update(3) invokes both again. */
  method ScenarioDuplicateBindings()
  {
    var world := new Owners<int>();
    var b := new Bindable<int, int>();
    var c := world.Allocate();
    var identity := (v: int) => v;
    b.Bind(identity, c, "count", world);
    b.Bind(identity, c, "count", world);
    ghost var o := Observation(c, "count", PlainWrite(identity));
    ghost var obs := b.observations;
    assert obs == [o, o];
    LiveLength(obs, world.alive);
    DeliveriesAt(obs, 3);
    b.Update(3, world);
    assert b.observations == obs;
    ghost var d := Delivery(c, "count", Plain(3));
    assert Deliveries(obs, 3) == [d, d];
    assert world.log == [d, d];
    ghost var log1 := world.log;
    b.Update(3, world);
    assert b.observations == obs;
    assert world.log == log1 + [d, d];
  }
}
