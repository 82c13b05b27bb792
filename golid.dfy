/** Package golid's reactive core as objects on the heap: a `Signal` holds a
    value and the set of effects watching it, an `Effect` holds its body and
    the set of signals its latest run read, and a `Runtime` holds the
    package-level `currentEffect` slot together with the `runEffect`
    goroutines that writes have spawned and that have not had their turn yet.

    Every public operation is proved against the functions of module Reactive
    through `Runtime.Abs()`; the helpers `Signal.RemoveWatcher`, `Runtime.Spawn`,
    `Runtime.SpawnAll` and `Runtime.Unsubscribe` state their effect on the heap
    fields directly. `Runtime.Valid()` carries the invariants proved there:
    every edge is recorded in both directions and names a known object. */
module Golid {
  import opened Reactive

  /** An effect: a body fixed at creation, and the signals its latest run read. */
  class Effect {
    const body: seq<Step<Signal>>
    var deps: set<Signal>

    /** Watch's allocation: the body, and an empty dependency set. */
    constructor (body: seq<Step<Signal>>)
      ensures this.body == body && deps == {}
    {
      this.body := body;
      deps := {};
    }
  }

  /** A signal: a value, and the effects to re-run when it is written. */
  class Signal {
    var value: Value
    var watchers: set<Effect>

    /** NewSignal's allocation: the initial value and no watchers. */
    constructor (initial: Value)
      ensures value == initial && watchers == {}
    {
      value := initial;
      watchers := {};
    }

    /** Returns the current value; while an effect is current, adds it to this
        signal's watchers and this signal to its dependencies. */
    method Get(rt: Runtime) returns (v: Value)
      requires WellFormed(rt.Abs()) && this in rt.signals
      modifies this`watchers, rt.effects`deps
      ensures v == old(value)
      ensures rt.Abs() == Reactive.Get(old(rt.Abs()), this)
    {
      ghost var st := rt.Abs();
      var e := rt.current;
      if e != null {
        watchers := watchers + {e};
        e.deps := e.deps + {this};
      }
      v := value;
      assert rt.Abs().watchers == Reactive.Get(st, this).watchers;
      assert rt.Abs().deps == Reactive.Get(st, this).deps;
    }

    /** Stores `v` unconditionally, then spawns a re-run of every effect that
        watches this signal at the time of the write. */
    method Set(rt: Runtime, v: Value)
      requires WellFormed(rt.Abs()) && this in rt.signals
      modifies this`value, rt`spawned
      ensures rt.Abs() == Reactive.Set(old(rt.Abs()), this, v)
    {
      ghost var st := rt.Abs();
      value := v;
      assert rt.Values() == st.values[this := v];
      rt.SpawnAll(watchers);
      assert rt.Abs().values == st.values[this := v];
      assert rt.Abs().watchers == st.watchers;
      assert rt.Abs().deps == st.deps;
    }

    /** Drops exactly `e` from the watchers. */
    method RemoveWatcher(e: Effect)
      modifies this`watchers
      ensures watchers == old(watchers) - {e}
    {
      watchers := watchers - {e};
    }
  }

  /** The package-level state: the `currentEffect` slot, the re-runs spawned by
      writes and not yet run, and (ghost) every signal and effect created so far. */
  class Runtime {
    var current: Effect?
    var spawned: multiset<Effect>
    ghost var signals: set<Signal>
    ghost var effects: set<Effect>

    ghost function Values(): (r: map<Signal, Value>)
      reads this`signals, signals`value
      ensures r.Keys == signals
    {
      map s | s in signals :: s.value
    }

    ghost function Watchers(): (r: map<Signal, set<Effect>>)
      reads this`signals, signals`watchers
      ensures r.Keys == signals
    {
      map s | s in signals :: s.watchers
    }

    ghost function Deps(): (r: map<Effect, set<Signal>>)
      reads this`effects, effects`deps
      ensures r.Keys == effects
    {
      map e | e in effects :: e.deps
    }

    ghost function Running(): (r: Option<Effect>)
      reads this`current
    {
      if current == null then None else var c: Effect := current; Some(c)
    }

    /** The whole reactive state, as module Reactive describes it. */
    ghost function Abs(): (r: State<Signal, Effect>)
      reads this`current, this`spawned, this`signals, this`effects, signals`value, signals`watchers, effects`deps
    {
      State(Values(), Watchers(), Deps(), Running(), spawned)
    }

    /** Every effect's body touches only signals created before it. */
    ghost predicate Scripted()
      reads this`signals, this`effects
    {
      forall e :: e in effects ==> ScriptWithin(e.body, signals)
    }

    /** The object invariant: the edges are closed and consistent. */
    ghost predicate Valid()
      reads this`current, this`spawned, this`signals, this`effects, signals`value, signals`watchers, effects`deps
    {
      WellFormed(Abs()) && Closed(Abs()) && Consistent(Abs()) && Scripted()
    }

    /** The package's initial state: no signal, no effect, an empty slot. */
    constructor ()
      ensures Valid() && signals == {} && effects == {}
      ensures Abs() == State(map[], map[], map[], None, multiset{})
    {
      current := null;
      spawned := multiset{};
      signals := {};
      effects := {};
    }

    /** `go runEffect(e)`: the re-run is scheduled, not performed. */
    method Spawn(e: Effect)
      modifies this`spawned
      ensures spawned == old(spawned) + multiset{e}
    {
      spawned := spawned + multiset{e};
    }

    /** Set's loop over the watchers: one `go runEffect` per watcher, in
        whatever order the map yields them. */
    method SpawnAll(es: set<Effect>)
      modifies this`spawned
      ensures spawned == old(spawned) + multiset(es)
    {
      var todo := es;
      while todo != {}
        invariant todo <= es
        invariant spawned == old(spawned) + multiset(es - todo)
        decreases todo
      {
        var e :| e in todo;
        Spawn(e);
        todo := todo - {e};
      }
      assert es - {} == es;
    }

    /** NewSignal: a fresh signal holding `initial`, watched by nobody. */
    method NewSignal(initial: Value) returns (s: Signal)
      requires Valid()
      modifies this`signals
      ensures Valid() && fresh(s) && signals == old(signals) + {s}
      ensures Abs() == Reactive.NewSignal(old(Abs()), s, initial)
    {
      ghost var st := Abs();
      s := new Signal(initial);
      AddSignal(s);
      assert Abs() == Reactive.NewSignal(st, s, initial);
      NewSignalPreservesInvariant(st, s, initial);
      forall e | e in effects
        ensures ScriptWithin(e.body, signals)
      {
        ScriptWithinGrows(e.body, old(signals), signals);
      }
    }

    /** Records a signal in the ghost population. */
    ghost method AddSignal(s: Signal)
      requires s !in signals
      modifies this`signals
      ensures signals == old(signals) + {s}
      ensures Abs() == old(Abs()).(values := old(Abs()).values[s := s.value], watchers := old(Abs()).watchers[s := s.watchers])
    {
      signals := signals + {s};
      assert Values() == old(Abs()).values[s := s.value];
      assert Watchers() == old(Abs()).watchers[s := s.watchers];
    }

    /** Watch's allocation: a new effect with an empty dependency set. */
    method NewEffect(body: seq<Step<Signal>>) returns (e: Effect)
      modifies this`effects
      ensures fresh(e) && e.body == body && effects == old(effects) + {e}
      ensures Abs() == old(Abs()).(deps := old(Abs()).deps[e := {}])
    {
      e := new Effect(body);
      effects := effects + {e};
      assert Deps() == old(Abs()).deps[e := {}];
    }

    /** Watch: creates an effect and runs it once, at once. The Go function
        hands the effect to nobody; the ghost result names it for the contract. */
    method Watch(body: seq<Step<Signal>>) returns (ghost e: Effect)
      requires Valid() && ScriptWithin(body, signals)
      modifies this`effects, this`current, this`spawned, signals`value, signals`watchers, effects`deps
      ensures Valid() && fresh(e) && e.body == body && effects == old(effects) + {e}
      ensures Abs() == Reactive.Watch(old(Abs()), e, body)
    {
      ghost var st := Abs();
      var fx := NewEffect(body);
      e := fx;
      RunEffect(fx);
      assert Abs() == Reactive.Watch(st, fx, body);
      WatchTracksBody(st, fx, body);
    }

    /** runEffect's first loop: every signal `e` used last time drops `e`. */
    method Unsubscribe(e: Effect)
      requires e.deps <= signals
      modifies signals`watchers
      ensures forall s :: s in signals ==>
        s.watchers == if s in e.deps then old(s.watchers) - {e} else old(s.watchers)
    {
      var stale := e.deps;
      while stale != {}
        invariant stale <= e.deps
        invariant forall s :: s in signals ==>
          s.watchers == if s in e.deps - stale then old(s.watchers) - {e} else old(s.watchers)
        decreases stale
      {
        var s :| s in stale;
        s.RemoveWatcher(e);
        stale := stale - {s};
      }
    }

    /** runEffect's cleanup: unsubscribe `e`, then give it a fresh, empty
        dependency set. */
    method Detach(e: Effect)
      requires WellFormed(Abs()) && e in effects && e.deps <= signals
      modifies signals`watchers, e`deps
      ensures Abs() == Reactive.Detach(old(Abs()), e)
    {
      ghost var st := Abs();
      Unsubscribe(e);
      assert Watchers() == Unwatch(st, e, st.deps[e]).watchers;
      e.deps := {};
      assert Values() == st.values;
      assert Deps() == st.deps[e := {}];
    }

    /** Assigns the `currentEffect` slot. */
    method SetCurrent(e: Effect?)
      modifies this`current
      ensures current == e
      ensures Abs() == old(Abs()).(current := Running())
    {
      current := e;
    }

    /** One step of an effect body. */
    method Perform(step: Step<Signal>)
      requires WellFormed(Abs()) && StepWithin(step, signals)
      modifies this`spawned, signals`value, signals`watchers, effects`deps
      ensures Abs() == Apply(old(Abs()), step)
    {
      match step
      case Read(s) =>
        var _ := s.Get(this);
      case Write(s, v) =>
        s.Set(this, v);
      case Copy(src, dst) =>
        var v := src.Get(this);
        dst.Set(this, v);
      case ReadIf(g, wanted, s) =>
        var v := g.Get(this);
        if v == wanted {
          var _ := s.Get(this);
        }
    }

    /** `e.fn()`: the body's steps, in order. */
    method RunBody(e: Effect)
      requires WellFormed(Abs()) && ScriptWithin(e.body, signals)
      modifies this`spawned, signals`value, signals`watchers, effects`deps
      ensures Abs() == Exec(old(Abs()), e.body)
    {
      ghost var st := Abs();
      var i := 0;
      while i < |e.body|
        invariant 0 <= i <= |e.body|
        invariant signals == old(signals) && effects == old(effects)
        invariant Abs() == ExecPrefix(st, e.body, i)
      {
        Perform(e.body[i]);
        i := i + 1;
      }
    }

    /** runEffect: detach `e`, make it current, run its body, then empty the
        slot (whatever it held before). */
    method RunEffect(e: Effect)
      requires WellFormed(Abs()) && e in effects && e.deps <= signals && ScriptWithin(e.body, signals)
      modifies this`current, this`spawned, signals`value, signals`watchers, effects`deps
      ensures Abs() == Run(old(Abs()), e, e.body)
    {
      Detach(e);
      SetCurrent(e);
      RunBody(e);
      SetCurrent(null);
    }

    /** A spawned goroutine starts: it leaves the pending multiset. */
    method Dequeue(e: Effect)
      modifies this`spawned
      ensures spawned == old(spawned) - multiset{e}
      ensures Abs() == old(Abs()).(spawned := old(spawned) - multiset{e})
    {
      ghost var st := Abs();
      spawned := spawned - multiset{e};
      assert Values() == st.values && Watchers() == st.watchers && Deps() == st.deps;
    }

    /** One spawned `runEffect(e)` runs to completion. */
    method RunOne(e: Effect)
      requires Valid() && e in spawned
      modifies this`current, this`spawned, signals`value, signals`watchers, effects`deps
      ensures Valid() && Abs() == Reactive.RunSpawned(old(Abs()), e, e.body)
    {
      RunSpawnedPreservesInvariant(Abs(), e, e.body);
      Dequeue(e);
      RunEffect(e);
    }

    /** Go's scheduler giving the spawned goroutines their turns: one at a
        time, each to completion, in no particular order. `fuel` bounds how
        many run, since a body can re-spawn itself forever. */
    method RunSpawned(fuel: nat) returns (ran: nat)
      requires Valid()
      modifies this`current, this`spawned, signals`value, signals`watchers, effects`deps
      ensures Valid() && ran <= fuel && (ran < fuel ==> spawned == multiset{})
    {
      ran := 0;
      while ran < fuel && spawned != multiset{}
        invariant ran <= fuel && Valid()
      {
        var e :| e in spawned;
        RunOne(e);
        ran := ran + 1;
      }
    }
  }
}
