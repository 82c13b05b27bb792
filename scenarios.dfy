/** The end-to-end behaviour golid's reactivity promises, traced through the
    specification on a concrete program. */
module Scenarios {
  import opened Reactive

  /** The state with no signal, no effect and an empty slot. */
  function Empty<S, E>(): (r: State<S, E>)
    ensures WellFormed(r) && Consistent(r) && Closed(r)
  {
    State(map[], map[], map[], None, multiset{})
  }

  /** A run of the one-step body `c.Get()`, from a state where `e` is the only
      possible watcher of `c`, leaves `e` watching exactly `c`, the values
      unchanged, and nothing newly spawned. */
  lemma ReadOnlyRun<S, E>(st: State<S, E>, e: E, c: S)
    requires WellFormed(st) && Consistent(st) && Closed(st) && e in st.deps && c in st.values
    requires st.watchers[c] <= {e}
    ensures var r := Run(st, e, [Read(c)]);
      && r.values == st.values && r.deps[e] == {c} && r.watchers[c] == {e}
      && r.spawned == st.spawned && Consistent(r) && Closed(r)
  {
    var body := [Read(c)];
    assert FinalPrefix(st.values, body, 0) == st.values;
    assert ReadsPrefix(st.values, body, 1) == {} + StepReads(st.values, body[0]);
    PreciseTracking(st, e, body);
    RunPreservesConsistency(st, e, body);
    RunPreservesClosed(st, e, body);
    var r := Run(st, e, body);
    assert e in r.watchers[c];
    var b := Begin(st, e);
    assert ExecPrefix(b, body, 0) == b;
    assert ExecPrefix(b, body, 1) == Apply(b, body[0]);
  }

  /** `e` is the only watcher of `c`, reads only `c`, and nothing is pending. */
  predicate Settled<S, E>(st: State<S, E>, e: E, c: S) {
    && WellFormed(st) && Consistent(st) && Closed(st)
    && e in st.deps && c in st.values
    && st.deps[e] == {c} && st.watchers[c] == {e} && st.spawned == multiset{}
  }

  /** Watch on the body `c.Get()`, when nobody watches `c` and nothing is
      pending: the effect runs at once, sees the value of `c`, and settles as
      its sole watcher. */
  lemma WatchSettles<S, E>(st: State<S, E>, e: E, c: S)
    requires WellFormed(st) && Consistent(st) && Closed(st) && e !in st.deps && c in st.values
    requires st.watchers[c] == {} && st.spawned == multiset{}
    ensures var r := Watch(st, e, [Read(c)]);
      Settled(r, e, c) && r.values == st.values
  {
    var st1 := st.(deps := st.deps[e := {}]);
    assert Consistent(st1);
    ReadOnlyRun(st1, e, c);
  }

  /** From a settled state, a write of `v`, whether or not it changes the
      value, spawns exactly one re-run of `e`; that re-run reads `v` and
      settles again. */
  lemma WriteThenRerun<S, E>(st: State<S, E>, e: E, c: S, v: Value)
    requires Settled(st, e, c)
    ensures Set(st, c, v).spawned == multiset{e}
    ensures var r := RunSpawned(Set(st, c, v), e, [Read(c)]);
      Settled(r, e, c) && r.values[c] == v
  {
    var st3 := Set(st, c, v);
    assert multiset(st.watchers[c]) == multiset{e};
    var pending := st3.(spawned := st3.spawned - multiset{e});
    assert pending == st.(values := st3.values);
    assert Consistent(pending) && Closed(pending);
    ReadOnlyRun(pending, e, c);
  }

  /** A counter signal `c` starting at 0, an effect `e` whose body reads it,
      then two writes of 5. The effect runs at once and sees 0. Each write
      spawns exactly one re-run, the second one too although the value does
      not change. The re-run sees 5 and watches `c` again. */
  lemma CounterAlwaysNotifies<S, E>(c: S, e: E)
    ensures
      var st2 := Watch(NewSignal(Empty(), c, 0), e, [Read(c)]);
      && c in st2.values && e in st2.deps
      && st2.values[c] == 0 && st2.deps[e] == {c} && st2.watchers[c] == {e} && st2.spawned == multiset{}
      && var st3 := Set(st2, c, 5);
         && st3.spawned == multiset{e}
         && var st4 := RunSpawned(st3, e, [Read(c)]);
            && st4.values[c] == 5 && st4.deps[e] == {c} && st4.watchers[c] == {e}
            && st4.spawned == multiset{}
            && var st5 := Set(st4, c, 5);
               && st5.spawned == multiset{e}
               && var st6 := RunSpawned(st5, e, [Read(c)]);
                  && st6.values[c] == 5 && st6.deps[e] == {c} && st6.watchers[c] == {e}
                  && st6.spawned == multiset{}
  {
    NewSignalPreservesInvariant(Empty<S, E>(), c, 0);
    WatchSettles(NewSignal(Empty<S, E>(), c, 0), e, c);
    var st2 := Watch(NewSignal(Empty<S, E>(), c, 0), e, [Read(c)]);
    WriteThenRerun(st2, e, c, 5);
    WriteThenRerun(RunSpawned(Set(st2, c, 5), e, [Read(c)]), e, c, 5);
  }
}
