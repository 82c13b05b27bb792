/** The dependency-tracking engine of package golid, as a pure specification.

    A `State` records every signal's value and watcher set, every effect's
    dependency set, the process-wide "current effect" slot and the effects
    whose re-run has been spawned by a write but has not happened yet.
    Signals and effects are identities (the type parameters `S` and `E`);
    an effect body is a script of `Step`s. */
module Reactive {

  /** The engine never looks at values, so one value type stands for every `T`. */
  type Value = int

  datatype Option<T> = None | Some(value: T)

  /** One thing an effect body does to the signals it can see. */
  datatype Step<S> =
    | Read(s: S)                                  // s.Get()
    | Write(s: S, v: Value)                       // s.Set(v)
    | Copy(src: S, dst: S)                        // dst.Set(src.Get())
    | ReadIf(guard: S, wanted: Value, s: S)       // if guard.Get() == wanted { s.Get() }

  datatype State<S(==), E(==)> = State(
    values: map<S, Value>,
    watchers: map<S, set<E>>,
    deps: map<E, set<S>>,
    current: Option<E>,
    spawned: multiset<E>)

  predicate StepWithin<S>(step: Step<S>, signals: set<S>) {
    match step
    case Read(s) => s in signals
    case Write(s, _) => s in signals
    case Copy(src, dst) => src in signals && dst in signals
    case ReadIf(g, _, s) => g in signals && s in signals
  }

  /** Every step of `body` touches only signals in `signals`. */
  predicate ScriptWithin<S>(body: seq<Step<S>>, signals: set<S>) {
    forall i :: 0 <= i < |body| ==> StepWithin(body[i], signals)
  }

  /** A script within some signals is within any superset of them. */
  lemma ScriptWithinGrows<S>(body: seq<Step<S>>, small: set<S>, large: set<S>)
    requires ScriptWithin(body, small) && small <= large
    ensures ScriptWithin(body, large)
  {
  }

  /** The maps describe one population of signals: every signal has a value
      and a watcher set, and the current effect, if any, has a dependency set. */
  predicate WellFormed<S, E>(st: State<S, E>) {
    && st.watchers.Keys == st.values.Keys
    && (st.current.Some? ==> st.current.value in st.deps)
  }

  /** The two halves of every edge agree: e is in s's watchers iff s is in e's deps. */
  predicate Consistent<S, E>(st: State<S, E>) {
    forall s, e :: s in st.watchers && e in st.deps ==> (e in st.watchers[s] <==> s in st.deps[e])
  }

  /** Every edge and every pending re-run names a signal or an effect that
      exists: dependency sets hold known signals, watcher sets hold known
      effects, and only known effects are spawned. */
  predicate Closed<S, E>(st: State<S, E>) {
    && (forall e :: e in st.deps ==> st.deps[e] <= st.values.Keys)
    && (forall s :: s in st.watchers ==> st.watchers[s] <= st.deps.Keys)
    && (forall e :: e in st.spawned ==> e in st.deps)
  }

  // ---------------------------------------------------------------------------
  // Operations
  // ---------------------------------------------------------------------------

  /** NewSignal: a fresh signal holding `initial`, watched by nobody. */
  function NewSignal<S, E>(st: State<S, E>, s: S, initial: Value): (r: State<S, E>)
    requires WellFormed(st) && s !in st.values
    ensures r.values.Keys == st.values.Keys + {s} && r.deps == st.deps
    ensures WellFormed(r) && r.values[s] == initial && r.watchers[s] == {}
    ensures forall s' :: s' in st.values ==> r.values[s'] == st.values[s'] && r.watchers[s'] == st.watchers[s']
    ensures r.current == st.current && r.spawned == st.spawned
  {
    st.(values := st.values[s := initial], watchers := st.watchers[s := {}])
  }

  /** The bookkeeping half of Get (its value is `st.values[s]`): while an effect
      is current, record the edge in both directions. */
  function Get<S, E>(st: State<S, E>, s: S): (r: State<S, E>)
    requires WellFormed(st) && s in st.values
    ensures WellFormed(r) && r.values == st.values && r.current == st.current && r.spawned == st.spawned
  {
    match st.current
    case None => st
    case Some(e) =>
      st.(watchers := st.watchers[s := st.watchers[s] + {e}],
          deps := st.deps[e := st.deps[e] + {s}])
  }

  /** Set: replace the value, with no equality check, and spawn one re-run per
      watcher of `s` at the time of the write. */
  function Set<S, E>(st: State<S, E>, s: S, v: Value): (r: State<S, E>)
    requires WellFormed(st) && s in st.values
    ensures WellFormed(r) && s in r.values && r.values[s] == v && r.watchers == st.watchers && r.deps == st.deps
  {
    st.(values := st.values[s := v], spawned := st.spawned + multiset(st.watchers[s]))
  }

  /** The cleanup loop of runEffect after it has visited the signals `from`. */
  function Unwatch<S, E>(st: State<S, E>, e: E, from: set<S>): (r: State<S, E>)
    ensures r.values == st.values && r.deps == st.deps && r.current == st.current && r.spawned == st.spawned
    ensures r.watchers.Keys == st.watchers.Keys
    ensures forall s :: s in st.watchers && s in from ==> r.watchers[s] == st.watchers[s] - {e}
    ensures forall s :: s in st.watchers && s !in from ==> r.watchers[s] == st.watchers[s]
  {
    st.(watchers := map s | s in st.watchers :: if s in from then st.watchers[s] - {e} else st.watchers[s])
  }

  /** The first part of runEffect: remove `e` from every signal it used last
      time, then clear its dependency set. */
  function Detach<S, E>(st: State<S, E>, e: E): (r: State<S, E>)
    requires WellFormed(st) && e in st.deps
    ensures WellFormed(r) && r.values == st.values && r.deps.Keys == st.deps.Keys
    ensures r.current == st.current && r.spawned == st.spawned
  {
    Unwatch(st, e, st.deps[e]).(deps := st.deps[e := {}])
  }

  /** Detach `e`, then make it the current effect. */
  function Begin<S, E>(st: State<S, E>, e: E): (r: State<S, E>)
    requires WellFormed(st) && e in st.deps
    ensures WellFormed(r) && r.current == Some(e) && r.values == st.values && r.spawned == st.spawned
  {
    Detach(st, e).(current := Some(e))
  }

  function Apply<S, E>(st: State<S, E>, step: Step<S>): (r: State<S, E>)
    requires WellFormed(st) && StepWithin(step, st.values.Keys)
    ensures WellFormed(r) && r.current == st.current
    ensures r.values.Keys == st.values.Keys && r.deps.Keys == st.deps.Keys
  {
    match step
    case Read(s) => Get(st, s)
    case Write(s, v) => Set(st, s, v)
    case Copy(src, dst) => Set(Get(st, src), dst, st.values[src])
    case ReadIf(g, x, s) => if st.values[g] == x then Get(Get(st, g), s) else Get(st, g)
  }

  /** The state after the first `n` steps of `body`, applied in order. */
  function ExecPrefix<S, E>(st: State<S, E>, body: seq<Step<S>>, n: nat): (r: State<S, E>)
    requires WellFormed(st) && ScriptWithin(body, st.values.Keys) && n <= |body|
    ensures WellFormed(r) && r.current == st.current
    ensures r.values.Keys == st.values.Keys && r.deps.Keys == st.deps.Keys
  {
    if n == 0 then st
    else Apply(ExecPrefix(st, body, n - 1), body[n - 1])
  }

  /** The state after the whole of `body`. */
  function Exec<S, E>(st: State<S, E>, body: seq<Step<S>>): (r: State<S, E>)
    requires WellFormed(st) && ScriptWithin(body, st.values.Keys)
    ensures WellFormed(r) && r.current == st.current
    ensures r.values.Keys == st.values.Keys && r.deps.Keys == st.deps.Keys
  {
    ExecPrefix(st, body, |body|)
  }

  /** runEffect: detach, run the body with `e` current, then clear the slot
      (to nothing, whatever was current before). */
  function Run<S, E>(st: State<S, E>, e: E, body: seq<Step<S>>): (r: State<S, E>)
    requires WellFormed(st) && e in st.deps && ScriptWithin(body, st.values.Keys)
    ensures WellFormed(r) && r.current == None
    ensures r.values.Keys == st.values.Keys && r.deps.Keys == st.deps.Keys
  {
    Exec(Begin(st, e), body).(current := None)
  }

  /** Watch: a new effect with no dependencies, run once at once. */
  function Watch<S, E>(st: State<S, E>, e: E, body: seq<Step<S>>): (r: State<S, E>)
    requires WellFormed(st) && e !in st.deps && ScriptWithin(body, st.values.Keys)
    ensures WellFormed(r) && r.deps.Keys == st.deps.Keys + {e}
  {
    Run(st.(deps := st.deps[e := {}]), e, body)
  }

  /** One spawned goroutine `runEffect(e)` getting its turn. */
  function RunSpawned<S, E>(st: State<S, E>, e: E, body: seq<Step<S>>): (r: State<S, E>)
    requires WellFormed(st) && e in st.spawned && e in st.deps && ScriptWithin(body, st.values.Keys)
    ensures WellFormed(r) && r.deps.Keys == st.deps.Keys && r.values.Keys == st.values.Keys
  {
    Run(st.(spawned := st.spawned - multiset{e}), e, body)
  }

  // ---------------------------------------------------------------------------
  // Reference semantics of a body, over values alone
  // ---------------------------------------------------------------------------

  /** The values after one step. */
  function StepValues<S>(values: map<S, Value>, step: Step<S>): (r: map<S, Value>)
    requires StepWithin(step, values.Keys)
    ensures r.Keys == values.Keys
  {
    match step
    case Write(s, v) => values[s := v]
    case Copy(src, dst) => values[dst := values[src]]
    case _ => values
  }

  /** The signals one step reads. */
  function StepReads<S>(values: map<S, Value>, step: Step<S>): (r: set<S>)
    requires StepWithin(step, values.Keys)
    ensures r <= values.Keys
  {
    match step
    case Read(s) => {s}
    case Write(_, _) => {}
    case Copy(src, _) => {src}
    case ReadIf(g, w, s) => if values[g] == w then {g, s} else {g}
  }

  /** The values after the first `n` steps of `body`, run from `values`. */
  function FinalPrefix<S>(values: map<S, Value>, body: seq<Step<S>>, n: nat): (r: map<S, Value>)
    requires ScriptWithin(body, values.Keys) && n <= |body|
    ensures r.Keys == values.Keys
  {
    if n == 0 then values
    else StepValues(FinalPrefix(values, body, n - 1), body[n - 1])
  }

  /** The signals the first `n` steps of `body` read, run from `values`. */
  function ReadsPrefix<S>(values: map<S, Value>, body: seq<Step<S>>, n: nat): (r: set<S>)
    requires ScriptWithin(body, values.Keys) && n <= |body|
    ensures r <= values.Keys
  {
    if n == 0 then {}
    else ReadsPrefix(values, body, n - 1) + StepReads(FinalPrefix(values, body, n - 1), body[n - 1])
  }

  function Final<S>(values: map<S, Value>, body: seq<Step<S>>): (r: map<S, Value>)
    requires ScriptWithin(body, values.Keys)
  {
    FinalPrefix(values, body, |body|)
  }

  /** The set of signals a run of `body` from `values` reads. */
  function ReadsOf<S>(values: map<S, Value>, body: seq<Step<S>>): (r: set<S>)
    requires ScriptWithin(body, values.Keys)
  {
    ReadsPrefix(values, body, |body|)
  }

  // ---------------------------------------------------------------------------
  // Get
  // ---------------------------------------------------------------------------

  /** A read while `e` is current adds exactly the edge s -> e (in both
      directions); outside any effect it changes nothing. */
  lemma GetRecordsEdge<S, E>(st: State<S, E>, s: S)
    requires WellFormed(st) && s in st.values
    ensures var r := Get(st, s);
      && r.values == st.values && r.current == st.current && r.spawned == st.spawned
      && r.watchers.Keys == st.watchers.Keys && r.deps.Keys == st.deps.Keys
      && (forall s', e :: s' in r.watchers && e in r.deps ==>
            (e in r.watchers[s'] <==> e in st.watchers[s'] || (s' == s && st.current == Some(e))))
      && (forall s', e :: s' in r.watchers && e in r.deps ==>
            (s' in r.deps[e] <==> s' in st.deps[e] || (s' == s && st.current == Some(e))))
  {
  }

  /** Reading the same signal twice in one run leaves a single edge. */
  lemma GetTwiceIsGetOnce<S, E>(st: State<S, E>, s: S)
    requires WellFormed(st) && s in st.values
    ensures Get(Get(st, s), s) == Get(st, s)
  {
    match st.current
    case None =>
    case Some(e) =>
      var r := Get(st, s);
      assert r.watchers[s := r.watchers[s] + {e}] == r.watchers;
      assert r.deps[e := r.deps[e] + {s}] == r.deps;
  }

  lemma GetPreservesConsistency<S, E>(st: State<S, E>, s: S)
    requires WellFormed(st) && Consistent(st) && s in st.values
    ensures Consistent(Get(st, s))
  {
    GetRecordsEdge(st, s);
  }

  // ---------------------------------------------------------------------------
  // Set
  // ---------------------------------------------------------------------------

  /** A write stores `v` whatever the old value was, leaves every edge alone,
      and spawns exactly one re-run for each watcher of `s`: also when `v`
      equals the value already held. */
  lemma AlwaysNotify<S, E>(st: State<S, E>, s: S, v: Value)
    requires WellFormed(st) && s in st.values
    ensures var r := Set(st, s, v);
      && r.values[s] == v
      && (forall s' :: s' in st.values && s' != s ==> r.values[s'] == st.values[s'])
      && r.watchers == st.watchers && r.deps == st.deps && r.current == st.current
      && (forall e :: r.spawned[e] == st.spawned[e] + (if e in st.watchers[s] then 1 else 0))
  {
  }

  // ---------------------------------------------------------------------------
  // runEffect
  // ---------------------------------------------------------------------------

  /** Cleanup before a re-run: no signal `e` used last time still lists it,
      its dependency set is empty, and no other effect's edges move. If the
      edges were consistent, then no signal at all lists `e` afterwards and
      they are still consistent. */
  lemma DetachCleans<S, E>(st: State<S, E>, e: E)
    requires WellFormed(st) && e in st.deps
    ensures var r := Detach(st, e);
      && r.deps[e] == {}
      && (forall s :: s in st.deps[e] && s in r.watchers ==> e !in r.watchers[s])
      && (forall s, e' :: s in r.watchers && e' != e ==> (e' in r.watchers[s] <==> e' in st.watchers[s]))
      && (forall e' :: e' in r.deps && e' != e ==> r.deps[e'] == st.deps[e'])
      && r.current == st.current && r.spawned == st.spawned
    ensures Consistent(st) ==>
      && (forall s :: s in Detach(st, e).watchers ==> e !in Detach(st, e).watchers[s])
      && Consistent(Detach(st, e))
  {
    var r := Detach(st, e);
    if Consistent(st) {
      forall s | s in r.watchers
        ensures e !in r.watchers[s]
      {
        if s !in st.deps[e] {
          assert e !in st.watchers[s];
        }
      }
    }
  }

  /** While an effect is current, one step changes the values as `StepValues`
      says and adds to that effect's dependencies what `StepReads` says. */
  lemma ApplyRecords<S, E>(st: State<S, E>, step: Step<S>)
    requires WellFormed(st) && st.current.Some? && StepWithin(step, st.values.Keys)
    ensures var r := Apply(st, step); var e := st.current.value;
      && r.values == StepValues(st.values, step)
      && r.deps == st.deps[e := st.deps[e] + StepReads(st.values, step)]
  {
    var e := st.current.value;
    match step
    case Read(s) =>
    case Write(s, v) =>
      assert st.deps[e] + {} == st.deps[e];
      assert st.deps[e := st.deps[e]] == st.deps;
    case Copy(src, dst) =>
    case ReadIf(g, w, s) =>
      var g1 := Get(st, g);
      assert g1.deps == st.deps[e := st.deps[e] + {g}];
      if st.values[g] == w {
        assert st.deps[e] + {g} + {s} == st.deps[e] + {g, s};
        assert g1.deps[e := g1.deps[e] + {s}] == st.deps[e := st.deps[e] + {g, s}];
      }
  }

  /** While an effect is current, its first `n` steps leave the values
      `FinalPrefix` describes and add to its dependencies exactly the signals
      `ReadsPrefix` lists; no other effect's dependencies change. */
  lemma {:induction false} ExecRecords<S, E>(st: State<S, E>, body: seq<Step<S>>, n: nat)
    requires WellFormed(st) && st.current.Some? && ScriptWithin(body, st.values.Keys) && n <= |body|
    ensures ExecPrefix(st, body, n).values == FinalPrefix(st.values, body, n)
    ensures ExecPrefix(st, body, n).deps
         == st.deps[st.current.value := st.deps[st.current.value] + ReadsPrefix(st.values, body, n)]
  {
    var e := st.current.value;
    if n == 0 {
      assert st.deps[e] + {} == st.deps[e];
      assert st.deps[e := st.deps[e]] == st.deps;
    } else {
      var prev := ExecPrefix(st, body, n - 1);
      ExecRecords(st, body, n - 1);
      ApplyRecords(prev, body[n - 1]);
      var d, before := st.deps[e], ReadsPrefix(st.values, body, n - 1);
      var now := StepReads(prev.values, body[n - 1]);
      assert ReadsPrefix(st.values, body, n) == before + now;
      assert d + before + now == d + (before + now);
      assert prev.deps[e := prev.deps[e] + now] == st.deps[e := d + (before + now)];
    }
  }

  /** Precise tracking: after runEffect(e), `e`'s dependency set is exactly the
      set of signals this run read (not those of earlier runs), the values are
      those the body wrote, no other effect's dependencies change, and the
      current-effect slot is empty, whatever it held before. */
  lemma PreciseTracking<S, E>(st: State<S, E>, e: E, body: seq<Step<S>>)
    requires WellFormed(st) && e in st.deps && ScriptWithin(body, st.values.Keys)
    ensures var r := Run(st, e, body);
      && r.deps[e] == ReadsOf(st.values, body)
      && r.values == Final(st.values, body)
      && (forall e' :: e' in st.deps && e' != e ==> r.deps[e'] == st.deps[e'])
      && r.current == None
  {
    DetachCleans(st, e);
    ExecRecords(Begin(st, e), body, |body|);
  }

  lemma ApplyPreservesConsistency<S, E>(st: State<S, E>, step: Step<S>)
    requires WellFormed(st) && Consistent(st) && StepWithin(step, st.values.Keys)
    ensures Consistent(Apply(st, step))
  {
    match step
    case Read(s) => GetPreservesConsistency(st, s);
    case Write(s, v) =>
    case Copy(src, dst) => GetPreservesConsistency(st, src);
    case ReadIf(g, w, s) =>
      GetPreservesConsistency(st, g);
      GetPreservesConsistency(Get(st, g), s);
  }

  lemma {:induction false} ExecPreservesConsistency<S, E>(st: State<S, E>, body: seq<Step<S>>, n: nat)
    requires WellFormed(st) && Consistent(st) && ScriptWithin(body, st.values.Keys) && n <= |body|
    ensures Consistent(ExecPrefix(st, body, n))
  {
    if n != 0 {
      ExecPreservesConsistency(st, body, n - 1);
      ApplyPreservesConsistency(ExecPrefix(st, body, n - 1), body[n - 1]);
    }
  }

  /** runEffect keeps "e in s.watchers iff s in e.deps" for every pair. */
  lemma RunPreservesConsistency<S, E>(st: State<S, E>, e: E, body: seq<Step<S>>)
    requires WellFormed(st) && Consistent(st) && e in st.deps && ScriptWithin(body, st.values.Keys)
    ensures Consistent(Run(st, e, body))
  {
    DetachCleans(st, e);
    ExecPreservesConsistency(Begin(st, e), body, |body|);
  }

  lemma ApplyPreservesClosed<S, E>(st: State<S, E>, step: Step<S>)
    requires WellFormed(st) && Closed(st) && StepWithin(step, st.values.Keys)
    ensures Closed(Apply(st, step))
  {
    match step
    case Read(s) =>
    case Write(s, v) =>
    case Copy(src, dst) =>
    case ReadIf(g, w, s) =>
  }

  lemma {:induction false} ExecPreservesClosed<S, E>(st: State<S, E>, body: seq<Step<S>>, n: nat)
    requires WellFormed(st) && Closed(st) && ScriptWithin(body, st.values.Keys) && n <= |body|
    ensures Closed(ExecPrefix(st, body, n))
  {
    if n != 0 {
      ExecPreservesClosed(st, body, n - 1);
      ApplyPreservesClosed(ExecPrefix(st, body, n - 1), body[n - 1]);
    }
  }

  /** runEffect adds only edges between existing signals and effects, and
      spawns only existing effects. */
  lemma RunPreservesClosed<S, E>(st: State<S, E>, e: E, body: seq<Step<S>>)
    requires WellFormed(st) && Closed(st) && e in st.deps && ScriptWithin(body, st.values.Keys)
    ensures Closed(Run(st, e, body))
  {
    ExecPreservesClosed(Begin(st, e), body, |body|);
  }

  /** After runEffect(e), `e` watches a signal iff this run read it. */
  lemma WatchedIffRead<S, E>(st: State<S, E>, e: E, body: seq<Step<S>>, s: S)
    requires WellFormed(st) && Consistent(st) && e in st.deps && ScriptWithin(body, st.values.Keys)
    requires s in st.values
    ensures e in Run(st, e, body).watchers[s] <==> s in ReadsOf(st.values, body)
  {
    PreciseTracking(st, e, body);
    RunPreservesConsistency(st, e, body);
  }

  /** A later write to `s` re-spawns `e` iff its last run read `s`: a signal
      it stopped reading no longer triggers it. */
  lemma WriteRetriggersIffRead<S, E>(st: State<S, E>, e: E, body: seq<Step<S>>, s: S, v: Value)
    requires WellFormed(st) && Consistent(st) && e in st.deps && ScriptWithin(body, st.values.Keys)
    requires s in st.values
    ensures var r := Run(st, e, body);
      Set(r, s, v).spawned[e] == r.spawned[e] + (if s in ReadsOf(st.values, body) then 1 else 0)
  {
    WatchedIffRead(st, e, body, s);
  }

  /** Cleanup before re-run, on a branching body: an effect that read `a` last
      time and now takes the other branch of `if g.Get() == w { a.Get() }` no
      longer watches `a`, so a later write to `a` does not re-spawn it. */
  lemma SwitchedBranchStopsTriggering<S, E>(st: State<S, E>, e: E, g: S, w: Value, a: S, v: Value)
    requires WellFormed(st) && Consistent(st) && e in st.deps && g in st.values && a in st.values
    requires a in st.deps[e] && a != g && st.values[g] != w
    ensures var r := Run(st, e, [ReadIf(g, w, a)]);
      && r.deps[e] == {g}
      && e !in r.watchers[a]
      && Set(r, a, v).spawned[e] == r.spawned[e]
  {
    var body := [ReadIf(g, w, a)];
    assert FinalPrefix(st.values, body, 0) == st.values;
    assert ReadsPrefix(st.values, body, 1) == {} + StepReads(st.values, body[0]);
    PreciseTracking(st, e, body);
    WatchedIffRead(st, e, body, a);
    WriteRetriggersIffRead(st, e, body, a, v);
  }

  /** Nesting is not supported: a run started while `outer` is current does not
      credit its reads to `outer`, and leaves the slot empty, so `outer`'s
      later reads are not recorded at all. */
  lemma NestedRunDropsOuterContext<S, E>(st: State<S, E>, outer: E, e: E, body: seq<Step<S>>, s: S)
    requires WellFormed(st) && st.current == Some(outer) && outer != e
    requires e in st.deps && ScriptWithin(body, st.values.Keys) && s in st.values
    ensures var r := Run(st, e, body);
      && r.current == None
      && r.deps[outer] == st.deps[outer]
      && Get(r, s) == r
  {
    PreciseTracking(st, e, body);
  }

  /** No cycle breaker: a body that reads `s` and then writes it spawns a
      re-run of itself. */
  lemma SelfWriteReschedules<S, E>(st: State<S, E>, e: E, s: S, v: Value)
    requires WellFormed(st) && e in st.deps && s in st.values
    ensures Run(st, e, [Read(s), Write(s, v)]).spawned[e] == st.spawned[e] + 1
  {
    var body := [Read(s), Write(s, v)];
    var b := Begin(st, e);
    var g := Get(b, s);
    assert ExecPrefix(b, body, 1) == g;
    assert e in g.watchers[s];
    assert Exec(b, body) == Set(g, s, v);
    assert multiset(g.watchers[s])[e] == 1;
  }

  // ---------------------------------------------------------------------------
  // Watch, NewSignal and the spawned re-runs
  // ---------------------------------------------------------------------------

  /** Watch runs the new effect once, at once: afterwards it depends on
      exactly what that run read, watches exactly those signals, and the
      edges are still consistent and closed. */
  lemma WatchTracksBody<S, E>(st: State<S, E>, e: E, body: seq<Step<S>>)
    requires WellFormed(st) && Consistent(st) && Closed(st)
    requires e !in st.deps && ScriptWithin(body, st.values.Keys)
    ensures var r := Watch(st, e, body);
      && Consistent(r) && Closed(r)
      && r.deps[e] == ReadsOf(st.values, body)
      && r.values == Final(st.values, body)
      && (forall s :: s in st.values ==> (e in r.watchers[s] <==> s in ReadsOf(st.values, body)))
  {
    var st1 := st.(deps := st.deps[e := {}]);
    assert Consistent(st1);
    PreciseTracking(st1, e, body);
    RunPreservesConsistency(st1, e, body);
    RunPreservesClosed(st1, e, body);
  }

  /** A new signal has no edges, so the edges stay consistent and closed. */
  lemma NewSignalPreservesInvariant<S, E>(st: State<S, E>, s: S, initial: Value)
    requires WellFormed(st) && Consistent(st) && Closed(st) && s !in st.values
    ensures Consistent(NewSignal(st, s, initial)) && Closed(NewSignal(st, s, initial))
  {
    var r := NewSignal(st, s, initial);
    forall s', e | s' in r.watchers && e in r.deps
      ensures e in r.watchers[s'] <==> s' in r.deps[e]
    {
      if s' == s {
        assert s !in st.deps[e];
      }
    }
  }

  /** Whichever spawned re-run goes next, the edges stay consistent and
      closed, and the effect that ran depends on exactly what it read. */
  lemma RunSpawnedPreservesInvariant<S, E>(st: State<S, E>, e: E, body: seq<Step<S>>)
    requires WellFormed(st) && Consistent(st) && Closed(st) && e in st.spawned
    requires ScriptWithin(body, st.values.Keys)
    ensures Consistent(RunSpawned(st, e, body)) && Closed(RunSpawned(st, e, body))
    ensures RunSpawned(st, e, body).deps[e] == ReadsOf(st.values, body)
  {
    var st1 := st.(spawned := st.spawned - multiset{e});
    RunPreservesConsistency(st1, e, body);
    RunPreservesClosed(st1, e, body);
    PreciseTracking(st1, e, body);
  }
}
