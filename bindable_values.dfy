/**
 * `Bindable<Value>`: an observable value holder. It keeps the last published
 * value and an ordered list of observations; each observation refers weakly
 * to its owner and, when run, writes a projection of the published value into
 * one property of that owner. `update` runs every observation in insertion
 * order and drops, during the same pass, those whose owner has died.
 *
 * The owners live in an `Owners` environment: `alive` stands for the objects
 * that reference counting still retains, `fields` for their properties that
 * bindings write, and `log` records every handler invocation in order.
 */
module BindableValues {
  import opened Wrappers

  /** Identity of an observing object. */
  type OwnerId = nat

  /** The property of the owner that a `ReferenceWritableKeyPath` designates. */
  type FieldName = string

  /** What a handler stores: into a property of type `T`, or of type `T?`. */
  datatype Stored<F> = Plain(value: F) | Wrapped(opt: Option<F>)

  /** One handler invocation: `object[keyPath: field] = written`. */
  datatype Delivery<F> = Delivery(owner: OwnerId, field: FieldName, written: Stored<F>)

  /**
   * One entry of `observations`: the closure `addObservation` appends, which
   * holds `owner` weakly and, while it is alive, stores `write(value)` into
   * its property `field`.
   */
  datatype Observation<!V, F> = Observation(owner: OwnerId, field: FieldName, write: V -> Stored<F>)

  /** The handler invocation an observation makes for a published `value`. */
  function Deliver<V, F>(o: Observation<V, F>, value: V): Delivery<F>
  {
    Delivery(o.owner, o.field, o.write(value))
  }

  /** The observations that `filter { $0(value) }` keeps: those whose owner is alive. */
  ghost function Live<V, F>(obs: seq<Observation<V, F>>, alive: set<OwnerId>): seq<Observation<V, F>>
  {
    if obs == [] then []
    else
      var last := obs[|obs| - 1];
      Live(obs[..|obs| - 1], alive) + (if last.owner in alive then [last] else [])
  }

  /** The handler invocations, in order, that running `obs` with `value` makes. */
  ghost function Deliveries<V, F>(obs: seq<Observation<V, F>>, value: V): seq<Delivery<F>>
  {
    if obs == [] then []
    else Deliveries(obs[..|obs| - 1], value) + [Deliver(obs[|obs| - 1], value)]
  }

  /** The owners' properties after the writes `ds`, applied in order. */
  ghost function WriteAll<F>(fields: map<(OwnerId, FieldName), Stored<F>>, ds: seq<Delivery<F>>): map<(OwnerId, FieldName), Stored<F>>
  {
    if ds == [] then fields
    else
      var last := ds[|ds| - 1];
      WriteAll(fields, ds[..|ds| - 1])[(last.owner, last.field) := last.written]
  }

  /** The write of the plain `bind`: `object[keyPath:] = projection(value)`. */
  function PlainWrite<V, F>(projection: V -> F): V -> Stored<F>
  {
    v => Plain(projection(v))
  }

  /** The write of `bind` into an optional property: the projection wrapped as `some`. */
  function WrappedWrite<V, F>(projection: V -> F): V -> Stored<F>
  {
    v => Wrapped(Some(projection(v)))
  }

  /** The write of `bind(_:to:_:transform:)`: `transform(projection(value))`. */
  function TransformWrite<V, T, F>(projection: V -> T, transform: T -> Option<F>): V -> Stored<F>
  {
    v => Wrapped(transform(projection(v)))
  }

  /**
   * The objects that bindings observe. Object identities are never reused:
   * every identity handed out is below `next`.
   */
  class Owners<F> {
    var alive: set<OwnerId>
    var next: OwnerId
    var fields: map<(OwnerId, FieldName), Stored<F>>
    var log: seq<Delivery<F>>

    ghost predicate Valid()
      reads this
    {
      forall id :: id in alive ==> id < next
    }

    constructor ()
      ensures Valid()
      ensures alive == {} && fields == map[] && log == []
    {
      alive, next, fields, log := {}, 0, map[], [];
    }

    /** A new object comes into existence. */
    method Allocate() returns (id: OwnerId)
      requires Valid()
      modifies this
      ensures Valid()
      ensures id == old(next) && next == old(next) + 1
      ensures id !in old(alive) && alive == old(alive) + {id}
      ensures fields == old(fields) && log == old(log)
    {
      id := next;
      next := next + 1;
      alive := alive + {id};
    }

    /** The last strong reference to `id` goes away, so a weak reference to it reads `nil`. */
    method Release(id: OwnerId)
      requires Valid()
      modifies this
      ensures Valid()
      ensures alive == old(alive) - {id} && next == old(next)
      ensures fields == old(fields) && log == old(log)
    {
      alive := alive - {id};
    }

    /** A handler writes into a property of a live owner. */
    method Write(d: Delivery<F>)
      requires d.owner in alive
      modifies this
      ensures alive == old(alive) && next == old(next)
      ensures fields == old(fields)[(d.owner, d.field) := d.written]
      ensures log == old(log) + [d]
    {
      fields := fields[(d.owner, d.field) := d.written];
      log := log + [d];
    }
  }

  /**
   * The pass `observations.filter { $0(value) }`: runs every observation in
   * order, each live owner receiving its write, and returns those whose
   * owner is alive.
   */
  method RunObservations<V, F>(obs: seq<Observation<V, F>>, value: V, world: Owners<F>)
    returns (kept: seq<Observation<V, F>>)
    modifies world
    ensures kept == Live(obs, old(world.alive))
    ensures world.alive == old(world.alive) && world.next == old(world.next)
    ensures world.log == old(world.log) + Deliveries(kept, value)
    ensures world.fields == WriteAll(old(world.fields), Deliveries(kept, value))
  {
    ghost var alive, log0, fields0 := world.alive, world.log, world.fields;
    kept := [];
    var i := 0;
    while i < |obs|
      invariant i <= |obs|
      invariant world.alive == alive && world.next == old(world.next)
      invariant kept == Live(obs[..i], alive)
      invariant world.log == log0 + Deliveries(kept, value)
      invariant world.fields == WriteAll(fields0, Deliveries(kept, value))
    {
      var o := obs[i];
      UpdateStep(obs, i, alive, value, fields0);
      if o.owner in world.alive {
        world.Write(Deliver(o, value));
        kept := kept + [o];
      }
      i := i + 1;
    }
    assert obs[..|obs|] == obs;
  }

  class Bindable<V, F> {
    var observations: seq<Observation<V, F>>
    var lastValue: Option<V>

    /** `init(_ value: Value? = nil)`. */
    constructor (value: Option<V> := None)
      ensures lastValue == value && observations == []
    {
      lastValue := value;
      observations := [];
    }

    /**
     * Runs the new observation at once when a value is already published,
     * then appends it.
     */
    method AddObservation(owner: OwnerId, field: FieldName, write: V -> Stored<F>, world: Owners<F>)
      requires owner in world.alive
      modifies this, world
      ensures lastValue == old(lastValue)
      ensures observations == old(observations) + [Observation(owner, field, write)]
      ensures world.alive == old(world.alive) && world.next == old(world.next)
      ensures old(lastValue).None? ==> world.fields == old(world.fields) && world.log == old(world.log)
      ensures old(lastValue).Some? ==>
                var d := Delivery(owner, field, write(old(lastValue).value));
                world.log == old(world.log) + [d] &&
                world.fields == old(world.fields)[(owner, field) := d.written]
    {
      var o := Observation(owner, field, write);
      if lastValue.Some? {
        world.Write(Deliver(o, lastValue.value));
      }
      observations := observations + [o];
    }

    /**
     * Publishes `value`: runs every observation in insertion order, each live
     * owner receiving its write, and keeps exactly the observations whose
     * owner was alive.
     */
    method Update(value: V, world: Owners<F>)
      modifies this, world
      ensures lastValue == Some(value)
      ensures observations == Live(old(observations), old(world.alive))
      ensures world.alive == old(world.alive) && world.next == old(world.next)
      ensures world.log == old(world.log) + Deliveries(observations, value)
      ensures world.fields == WriteAll(old(world.fields), Deliveries(observations, value))
    {
      lastValue := Some(value);
      observations := RunObservations(observations, value, world);
    }

    /** `bind(_:to:_:)` into a property of the projected type. */
    method Bind(projection: V -> F, owner: OwnerId, field: FieldName, world: Owners<F>)
      requires owner in world.alive
      modifies this, world
      ensures lastValue == old(lastValue)
      ensures observations == old(observations) + [Observation(owner, field, PlainWrite(projection))]
      ensures world.alive == old(world.alive) && world.next == old(world.next)
      ensures old(lastValue).None? ==> world.fields == old(world.fields) && world.log == old(world.log)
      ensures old(lastValue).Some? ==>
                var d := Delivery(owner, field, Plain(projection(old(lastValue).value)));
                world.log == old(world.log) + [d] &&
                world.fields == old(world.fields)[(owner, field) := d.written]
    {
      AddObservation(owner, field, PlainWrite(projection), world);
    }

    /** `bind(_:to:_:)` into an optional property: the projection is stored as `some`. */
    method BindOptional(projection: V -> F, owner: OwnerId, field: FieldName, world: Owners<F>)
      requires owner in world.alive
      modifies this, world
      ensures lastValue == old(lastValue)
      ensures observations == old(observations) + [Observation(owner, field, WrappedWrite(projection))]
      ensures world.alive == old(world.alive) && world.next == old(world.next)
      ensures old(lastValue).None? ==> world.fields == old(world.fields) && world.log == old(world.log)
      ensures old(lastValue).Some? ==>
                var d := Delivery(owner, field, Wrapped(Some(projection(old(lastValue).value))));
                world.log == old(world.log) + [d] &&
                world.fields == old(world.fields)[(owner, field) := d.written]
    {
      AddObservation(owner, field, WrappedWrite(projection), world);
    }

    /** `bind(_:to:_:transform:)`: stores `transform(projection(value))` into an optional property. */
    method BindTransform<T>(projection: V -> T, owner: OwnerId, field: FieldName,
                            transform: T -> Option<F>, world: Owners<F>)
      requires owner in world.alive
      modifies this, world
      ensures lastValue == old(lastValue)
      ensures observations == old(observations) + [Observation(owner, field, TransformWrite(projection, transform))]
      ensures world.alive == old(world.alive) && world.next == old(world.next)
      ensures old(lastValue).None? ==> world.fields == old(world.fields) && world.log == old(world.log)
      ensures old(lastValue).Some? ==>
                var d := Delivery(owner, field, Wrapped(transform(projection(old(lastValue).value))));
                world.log == old(world.log) + [d] &&
                world.fields == old(world.fields)[(owner, field) := d.written]
    {
      AddObservation(owner, field, TransformWrite(projection, transform), world);
    }
  }

  // Properties of the pruning pass.

  /** One round of the pruning loop: the next observation is either kept and delivered, or dropped. */
  lemma UpdateStep<V, F>(obs: seq<Observation<V, F>>, i: nat, alive: set<OwnerId>, value: V,
                         fields: map<(OwnerId, FieldName), Stored<F>>)
    requires i < |obs|
    ensures var o, kept := obs[i], Live(obs[..i], alive);
            var ds, d := Deliveries(kept, value), Deliver(o, value);
            (o.owner in alive ==>
               Live(obs[..i + 1], alive) == kept + [o] &&
               Deliveries(kept + [o], value) == ds + [d] &&
               WriteAll(fields, ds + [d]) == WriteAll(fields, ds)[(d.owner, d.field) := d.written]) &&
            (o.owner !in alive ==> Live(obs[..i + 1], alive) == kept)
  {
    var o, kept := obs[i], Live(obs[..i], alive);
    assert obs[..i + 1] == obs[..i] + [o];
    LiveSnoc(obs[..i], o, alive);
    DeliveriesSnoc(kept, o, value);
    WriteAllSnoc(fields, Deliveries(kept, value), Deliver(o, value));
  }

  lemma DeliveriesSnoc<V, F>(obs: seq<Observation<V, F>>, o: Observation<V, F>, value: V)
    ensures Deliveries(obs + [o], value) == Deliveries(obs, value) + [Deliver(o, value)]
  {
    assert (obs + [o])[..|obs|] == obs;
  }

  lemma WriteAllSnoc<F>(fields: map<(OwnerId, FieldName), Stored<F>>, ds: seq<Delivery<F>>, d: Delivery<F>)
    ensures WriteAll(fields, ds + [d]) == WriteAll(fields, ds)[(d.owner, d.field) := d.written]
  {
    assert (ds + [d])[..|ds|] == ds;
  }

  /** Pruning keeps exactly the observations of live owners. */
  lemma {:induction false} LiveMembers<V, F>(obs: seq<Observation<V, F>>, alive: set<OwnerId>)
    ensures forall o :: o in Live(obs, alive) <==> o in obs && o.owner in alive
  {
    if obs != [] {
      var init := obs[..|obs| - 1];
      LiveMembers(init, alive);
      assert obs == init + [obs[|obs| - 1]];
    }
  }

  /** Every observation in `obs` has a live owner. */
  ghost predicate AllAlive<V, F>(obs: seq<Observation<V, F>>, alive: set<OwnerId>)
  {
    forall k :: 0 <= k < |obs| ==> obs[k].owner in alive
  }

  lemma LiveSnoc<V, F>(init: seq<Observation<V, F>>, o: Observation<V, F>, alive: set<OwnerId>)
    ensures Live(init + [o], alive) == Live(init, alive) + (if o.owner in alive then [o] else [])
  {
    assert (init + [o])[..|init|] == init;
  }

  lemma AllAliveSnoc<V, F>(init: seq<Observation<V, F>>, o: Observation<V, F>, alive: set<OwnerId>)
    ensures AllAlive(init + [o], alive) <==> AllAlive(init, alive) && o.owner in alive
  {
    var obs := init + [o];
    if AllAlive(obs, alive) {
      forall k | 0 <= k < |init|
        ensures init[k].owner in alive
      {
        assert obs[k] == init[k];
      }
      assert obs[|init|] == o;
    }
  }

  /** Pruning never lengthens the list, and leaves it whole exactly when every owner is alive. */
  lemma {:induction false} LiveLength<V, F>(obs: seq<Observation<V, F>>, alive: set<OwnerId>)
    ensures |Live(obs, alive)| <= |obs|
    ensures |Live(obs, alive)| == |obs| <==> AllAlive(obs, alive)
    ensures AllAlive(obs, alive) ==> Live(obs, alive) == obs
  {
    if obs != [] {
      var init, last := obs[..|obs| - 1], obs[|obs| - 1];
      assert obs == init + [last];
      LiveSnoc(init, last, alive);
      AllAliveSnoc(init, last, alive);
      LiveLength(init, alive);
    }
  }

  /** Pruning distributes over concatenation: the relative order of kept entries is preserved. */
  lemma {:induction false} LiveConcat<V, F>(a: seq<Observation<V, F>>, b: seq<Observation<V, F>>, alive: set<OwnerId>)
    ensures Live(a + b, alive) == Live(a, alive) + Live(b, alive)
  {
    if b == [] {
      assert a + b == a;
    } else {
      var init := b[..|b| - 1];
      LiveConcat(a, init, alive);
      assert (a + b)[..|a + b| - 1] == a + init;
    }
  }

  /** Pruning a pruned list changes nothing. */
  lemma {:induction false} LiveIdempotent<V, F>(obs: seq<Observation<V, F>>, alive: set<OwnerId>)
    ensures Live(Live(obs, alive), alive) == Live(obs, alive)
  {
    if obs != [] {
      var init := obs[..|obs| - 1];
      var last := obs[|obs| - 1];
      LiveIdempotent(init, alive);
      LiveConcat(Live(init, alive), if last.owner in alive then [last] else [], alive);
      if last.owner in alive {
        assert [last][..0] == [];
      }
    }
  }

  /** The k-th handler invocation is that of the k-th observation; there is one per observation. */
  lemma {:induction false} DeliveriesAt<V, F>(obs: seq<Observation<V, F>>, value: V)
    ensures |Deliveries(obs, value)| == |obs|
    ensures forall k :: 0 <= k < |obs| ==> Deliveries(obs, value)[k] == Deliver(obs[k], value)
  {
    if obs != [] {
      DeliveriesAt(obs[..|obs| - 1], value);
    }
  }

  /**
   * One `update` with `value` invokes the handler of every live observation,
   * once each, in insertion order, and no handler of a dead owner.
   */
  lemma UpdateDeliversToLiveOnly<V, F>(obs: seq<Observation<V, F>>, alive: set<OwnerId>, value: V)
    ensures forall d :: d in Deliveries(Live(obs, alive), value) ==> d.owner in alive
    ensures forall o :: o in obs && o.owner in alive ==> Deliver(o, value) in Deliveries(Live(obs, alive), value)
    ensures forall o :: o in obs && o.owner !in alive ==> o !in Live(obs, alive)
  {
    var kept := Live(obs, alive);
    LiveMembers(obs, alive);
    DeliveriesAt(kept, value);
    forall d | d in Deliveries(kept, value)
      ensures d.owner in alive
    {
      var k :| 0 <= k < |kept| && Deliveries(kept, value)[k] == d;
      assert kept[k] in kept;
    }
    forall o | o in obs && o.owner in alive
      ensures Deliver(o, value) in Deliveries(kept, value)
    {
      var k :| 0 <= k < |kept| && kept[k] == o;
      assert Deliveries(kept, value)[k] == Deliver(o, value);
    }
  }

  /** An update over a single observation of a live owner keeps it and makes its one write. */
  lemma SingleObservationUpdate<V, F>(o: Observation<V, F>, alive: set<OwnerId>, value: V,
                                      fields: map<(OwnerId, FieldName), Stored<F>>)
    requires o.owner in alive
    ensures Live([o], alive) == [o]
    ensures Deliveries([o], value) == [Deliver(o, value)]
    ensures WriteAll(fields, [Deliver(o, value)]) == fields[(o.owner, o.field) := o.write(value)]
  {
    LiveSnoc([], o, alive);
    DeliveriesSnoc([], o, value);
    WriteAllSnoc(fields, [], Deliver(o, value));
    assert [] + [o] == [o];
    assert [] + [Deliver(o, value)] == [Deliver(o, value)];
  }

  /**
   * For a key that the writes `ds` touch, the result does not depend on the
   * properties written over; for any other key, it is the old property.
   */
  lemma {:induction false} WriteAllAt<F>(fields: map<(OwnerId, FieldName), Stored<F>>, ds: seq<Delivery<F>>,
                                         key: (OwnerId, FieldName))
    ensures key in WriteAll(fields, ds) <==> key in fields || key in WriteAll(map[], ds)
    ensures key in WriteAll(map[], ds) ==> WriteAll(fields, ds)[key] == WriteAll(map[], ds)[key]
    ensures key !in WriteAll(map[], ds) && key in fields ==> WriteAll(fields, ds)[key] == fields[key]
  {
    if ds != [] {
      WriteAllAt(fields, ds[..|ds| - 1], key);
    }
  }

  /** Applying the same writes a second time changes no property. */
  lemma WriteAllTwice<F>(fields: map<(OwnerId, FieldName), Stored<F>>, ds: seq<Delivery<F>>)
    ensures WriteAll(WriteAll(fields, ds), ds) == WriteAll(fields, ds)
  {
    var once := WriteAll(fields, ds);
    forall key | key in once || key in WriteAll(once, ds)
      ensures key in once && key in WriteAll(once, ds) && WriteAll(once, ds)[key] == once[key]
    {
      WriteAllAt(fields, ds, key);
      WriteAllAt(once, ds, key);
    }
  }

  /**
   * A second `update` with the same value and the same owners alive keeps
   * the same observations, makes the same handler invocations again (there
   * is no deduplication), and leaves every property as the first left it.
   */
  lemma UpdateTwice<V, F>(obs: seq<Observation<V, F>>, alive: set<OwnerId>, value: V,
                          fields: map<(OwnerId, FieldName), Stored<F>>)
    ensures Live(Live(obs, alive), alive) == Live(obs, alive)
    ensures var first := Deliveries(Live(obs, alive), value);
            var second := Deliveries(Live(Live(obs, alive), alive), value);
            second == first && WriteAll(WriteAll(fields, first), second) == WriteAll(fields, first)
  {
    LiveIdempotent(obs, alive);
    WriteAllTwice(fields, Deliveries(Live(obs, alive), value));
  }
}
