# golid's reactive core in Dafny

golid is a small reactive UI toolkit for Go compiled to WebAssembly. Its core
is a dependency-tracking engine of about sixty lines:

- a `Signal[T]` holds a value and the set of effects that watch it;
- an `effect` holds a body and the set of signals its latest run read;
- one package-level `currentEffect` slot names the effect that is running.

Reading a signal while an effect runs records an edge in both directions.
Writing a signal stores the value with no equality check, then starts a
goroutine `runEffect(e)` for every watcher. `runEffect` detaches the effect
from everything it read last time, clears its dependencies, runs the body
with the effect current, then empties the slot.

The project has three modules:

- `reactive.dfy`, module `Reactive`: the engine as a pure specification over
  an abstract `State` (values, watcher sets, dependency sets, the current
  slot, and the multiset of spawned re-runs that have not run yet), with the
  lemmas about it. Signals and effects are type parameters. An effect body is
  a script of `Step`s: `Read(s)`, `Write(s, v)`, `Copy(src, dst)` (a
  `dst.Set(src.Get())`) and `ReadIf(g, w, s)` (read `s` only when `g` holds
  `w`, which gives dynamic dependencies).
- `golid.dfy`, module `Golid`: the same engine as the Go code has it, with
  objects updated in place. Classes `Signal` and `Effect` carry the Go
  struct fields. Class `Runtime` carries `currentEffect` and the spawned
  re-runs. Every method that changes the modelled state is proved against a
  `Reactive` function through `Runtime.Abs()`; the small helpers
  `Signal.RemoveWatcher`, `Runtime.Spawn`, `Runtime.SpawnAll` and
  `Runtime.Unsubscribe` state their effect on the heap fields directly. `Runtime.Valid()` is the object invariant: every edge is
  recorded in both directions (`e in s.watchers` iff `s in e.deps`), and
  every edge names a signal or an effect that exists.
- `scenarios.dfy`, module `Scenarios`: the counter example traced through
  the specification. A signal starts at 0, an effect reads it, and then
  5 is written twice. The effect sees 0 at once, each write spawns exactly
  one re-run, and each re-run sees 5.

`go runEffect(e)` is modelled as it behaves in Go. The re-run is scheduled
inside `Set` (`Runtime.Spawn` adds it to the `spawned` multiset), and it
runs later, to completion, in an order nobody chooses (`Runtime.RunSpawned`
picks any pending effect).

## Model

| member | source | states |
|---|---|---|
| Reactive.NewSignal | golid/golid.go:46-51 | the new signal holds the initial value and has no watchers; no other signal and no effect changes |
| Reactive.Get | golid/golid.go:53-59 | a read changes no value, no pending re-run and not the current slot, and keeps the state well formed (its edges are stated by GetRecordsEdge) |
| Reactive.Set | golid/golid.go:61-66 | a write stores the new value and moves no edge (the re-runs it spawns are stated by AlwaysNotify) |
| Reactive.Unwatch | golid/golid.go:81-85 | the cleanup loop, after visiting the signals `from`, has removed `e` from exactly those signals' watcher sets; every other watcher set, the values, the dependency sets, the slot and the pending re-runs are unchanged |
| Reactive.Detach | golid/golid.go:81-86 | the cleanup before a run changes no value, no pending re-run, no current slot and no set of effects |
| Reactive.Begin | golid/golid.go:81-87 | after cleanup the effect is current, with values and pending re-runs untouched |
| Reactive.Apply | golid/golid.go:88 | one body step keeps the current slot and the populations of signals and effects |
| Reactive.ExecPrefix | golid/golid.go:88 | running a prefix of the body keeps the current slot and the populations |
| Reactive.Exec | golid/golid.go:88 | `e.fn()`: the whole body runs with the current slot unchanged and the populations of signals and effects kept (its values and reads are stated by ExecRecords) |
| Reactive.Run | golid/golid.go:80-90 | after runEffect the slot is empty, whatever it held before, and the populations are unchanged |
| Reactive.Watch | golid/golid.go:72-78 | Watch adds exactly one effect to the population |
| Reactive.RunSpawned | golid/golid.go:64 | a spawned re-run getting its turn changes neither population |
| Reactive.GetRecordsEdge | golid/golid.go:53-59 | a read while `e` is current adds exactly the edge between `s` and `e`, in both directions; outside an effect it changes no edge; the value and the pending re-runs never change |
| Reactive.GetTwiceIsGetOnce | golid/golid.go:55-56 | reading the same signal twice in one run leaves the same single edge as reading it once |
| Reactive.GetPreservesConsistency | golid/golid.go:54-57 | a read keeps "e watches s iff s is a dependency of e" for every pair |
| Reactive.AlwaysNotify | golid/golid.go:61-66 | a write stores the value whatever it was, changes no other value and no edge, and spawns exactly one re-run per watcher at the time of the write, also when the value is unchanged |
| Reactive.DetachCleans | golid/golid.go:81-86 | after cleanup no signal of the previous run still lists the effect, its dependency set is empty, and no other effect's edges move; from a consistent state no signal lists it at all and consistency holds |
| Reactive.ApplyRecords | golid/golid.go:88 | while an effect is current, one step changes the values as the reference `StepValues` says and adds to its dependencies exactly what `StepReads` says |
| Reactive.ExecRecords | golid/golid.go:87-88 | while an effect is current, its steps change the values as the reference `FinalPrefix` says and add to its dependencies exactly the signals `ReadsPrefix` lists |
| Reactive.PreciseTracking | golid/golid.go:80-90 | after runEffect the effect depends on exactly the signals this run read (not those of earlier runs), the values are those the body wrote, other effects' dependencies are unchanged, and the slot is empty |
| Reactive.ApplyPreservesConsistency | golid/golid.go:88 | one body step keeps every edge recorded in both directions |
| Reactive.ExecPreservesConsistency | golid/golid.go:88 | a run of body steps keeps every edge recorded in both directions |
| Reactive.RunPreservesConsistency | golid/golid.go:80-90 | runEffect keeps every edge recorded in both directions |
| Reactive.ApplyPreservesClosed | golid/golid.go:88 | one body step only adds edges between existing signals and effects and only spawns existing effects |
| Reactive.ExecPreservesClosed | golid/golid.go:88 | a run of body steps keeps every edge and every pending re-run among existing objects |
| Reactive.RunPreservesClosed | golid/golid.go:80-90 | runEffect keeps every edge and every pending re-run among existing objects |
| Reactive.WatchedIffRead | golid/golid.go:80-90 | after runEffect the effect watches a signal iff this run read it |
| Reactive.WriteRetriggersIffRead | golid/golid.go:61-90 | a later write to `s` re-spawns the effect iff its latest run read `s` |
| Reactive.SwitchedBranchStopsTriggering | golid/golid.go:81-88 | an effect that read `a` last time and now takes the branch that skips it no longer watches `a`, and a write to `a` no longer re-spawns it |
| Reactive.NestedRunDropsOuterContext | golid/golid.go:87-89 | a run started while another effect is current does not credit its reads to that effect and leaves the slot empty, so the outer effect's later reads are not recorded |
| Reactive.SelfWriteReschedules | golid/golid.go:61-66 | a body that reads a signal and then writes it spawns a re-run of itself: there is no cycle breaker |
| Reactive.WatchTracksBody | golid/golid.go:72-78 | Watch runs the new effect at once: it then depends on and watches exactly what that run read, the values are those the body wrote, and the edges are consistent and closed |
| Reactive.NewSignalPreservesInvariant | golid/golid.go:46-51 | a new signal keeps the edges consistent and closed |
| Reactive.RunSpawnedPreservesInvariant | golid/golid.go:64 | whichever pending re-run goes next, the edges stay consistent and closed and the effect depends on exactly what it read |
| Golid.Effect.constructor | golid/golid.go:73-76 | a new effect has the given body and no dependencies |
| Golid.Signal.constructor | golid/golid.go:47-50 | a new signal holds the initial value and has no watchers |
| Golid.Signal.Get | golid/golid.go:53-59 | returns the current value and updates the heap exactly as Reactive.Get |
| Golid.Signal.Set | golid/golid.go:61-66 | updates the value and the pending re-runs exactly as Reactive.Set |
| Golid.Signal.RemoveWatcher | golid/golid.go:68-70 | removes exactly the given effect from the watchers |
| Golid.Runtime.constructor | golid/golid.go:35 | the package starts with no signal, no effect, an empty slot, nothing pending, and the invariant holding |
| Golid.Runtime.Spawn | golid/golid.go:64 | `go runEffect(e)` adds one pending re-run of `e` |
| Golid.Runtime.SpawnAll | golid/golid.go:63-65 | the loop over the watchers adds one pending re-run per watcher, in any iteration order |
| Golid.Runtime.NewSignal | golid/golid.go:46-51 | allocates a fresh signal, updates the state exactly as Reactive.NewSignal, and keeps the invariant |
| Golid.Runtime.NewEffect | golid/golid.go:73-76 | allocates a fresh effect with the given body and an empty dependency set |
| Golid.Runtime.Watch | golid/golid.go:72-78 | creates an effect and runs it once, updating the state exactly as Reactive.Watch and keeping the invariant |
| Golid.Runtime.Unsubscribe | golid/golid.go:81-85 | every signal in the effect's dependency set drops the effect, and every other signal's watchers stay as they were |
| Golid.Runtime.Detach | golid/golid.go:81-86 | cleanup updates the state exactly as Reactive.Detach |
| Golid.Runtime.SetCurrent | golid/golid.go:87 | sets the current-effect slot and changes nothing else |
| Golid.Runtime.Perform | golid/golid.go:88 | one body step updates the state exactly as Reactive.Apply |
| Golid.Runtime.RunBody | golid/golid.go:88 | the body's loop updates the state exactly as Reactive.Exec |
| Golid.Runtime.RunEffect | golid/golid.go:80-90 | runEffect updates the state exactly as Reactive.Run |
| Golid.Runtime.Dequeue | golid/golid.go:64 | a spawned goroutine starting removes one pending re-run and changes nothing else |
| Golid.Runtime.RunOne | golid/golid.go:64 | one pending re-run runs to completion as Reactive.RunSpawned says, keeping the invariant |
| Golid.Runtime.RunSpawned | golid/golid.go:64 | runs pending re-runs one at a time, in any order, keeping the invariant; if it stops before its bound, nothing is pending |
| Scenarios.ReadOnlyRun | golid/golid.go:80-90 | re-running a body that only reads `c` leaves the effect as the sole watcher of `c`, the values unchanged, and nothing new pending |
| Scenarios.WatchSettles | golid/golid.go:72-78 | Watch on a body reading an unwatched `c` makes the effect its sole watcher and depends on `c` alone |
| Scenarios.WriteThenRerun | golid/golid.go:61-66 | from that settled state, any write to `c` spawns exactly one re-run, which sees the new value and settles again |
| Scenarios.CounterAlwaysNotifies | golid/golid.go:46-90 | a counter at 0 watched by an effect, then written 5 twice: the effect sees 0 at once, and each write, including the one that does not change the value, spawns exactly one re-run that sees 5 |

## Left out

- Goroutine interleaving: `go runEffect(e)` (golid/golid.go:64) is modelled as a pending re-run that later runs alone and to completion. Interleavings of several goroutines on the shared `currentEffect` slot are not modelled, because they are data races on unsynchronised state and have no sequential meaning.
- `Set` does not wait for the re-runs: the code starts goroutines (golid/golid.go:63-65), so after `Signal.Set` returns the re-runs are only pending. Re-running every dependent before the write returns is not modelled.
- Runtime.RunSpawned: bounded by `fuel`, because a body may re-spawn itself forever (Reactive.SelfWriteReschedules). Its contract says the invariant holds and that nothing is pending if it stops early; it does not list which effects ran.
- Generic `T` is collapsed to one value type (`int`), because the engine never inspects values beyond passing them on.
- Effect bodies are Go closures; they are modelled as scripts of reads, writes, copies and conditional reads. What a closure does outside the engine (DOM updates, logging) is not modelled.
- Runtime.Watch requires the body to use only signals that already exist, because the script language has no step that creates a signal. A Go body that calls `NewSignal` itself and then uses the new signal is not modelled.
- Signal.Get and Signal.Set require the signal to be in the runtime's ghost population, which only `Runtime.NewSignal` extends. A zero-value `golid.Signal[T]` declared without `NewSignal` is not modelled: its `watchers` map is nil, so `Get` inside an effect panics on the map write at golid/golid.go:55, and that panic path is not modelled.
- The `any`-keyed dependency map and the `hasWatchers` type assertion (golid/golid.go:81-84) collapse to a set of signals, because only signals are ever stored in it.
- `Bind`, `BindText`, `BindInput`, `OnClick`, `OnInput`, `ForEach`, `ForEachSignal`, `RenderHTML`, `Render`, `Append`, `NodeFromID`, `BodyElement`, `GenID`, `Callback`, `Run`, `Log` and `Logf` (golid/golid.go:96-309) are left out, because they are foreign calls into the browser, the gomponents library, the uuid library or the console.
- cmd/devserver/main.go, main.go and counter/counter.go are not part of this model. They are a development server and example components with no reactive logic of their own.
- There is no way to dispose of an effect, and none is modelled: an effect stays in the population for good.
