# Task context registry of the data execution engine

This project models the per-thread `TaskContext` of the data execution engine and proves its properties in Dafny. A `TaskContext` describes one task running a block transform: its index, its operator's name, and some optional side-channel data. The registry binds at most one context to each execution thread. Nested transform code reads the context without it being passed as a parameter, and the task wrapper sets it before the task and clears it afterwards.

Files:

- `wrappers.dfy`, module `Wrappers`: the `Option` datatype. It stands for Python's `Optional[...]` and for the `None` that a lookup returns.
- `task_context.dfy`, module `TaskContexts`:
  - the `TaskContext` datatype, with the dataclass defaults as constructor default values;
  - the registry as a value: `GetCurrent`, `SetCurrent` and `ResetCurrent` act on a map from thread identity to context;
  - `Registry`, a class whose mutable `bindings` map is the module-level `threading.local()` object. Its methods `Get`, `Set` and `Reset` are the three classmethods, with the calling thread made an explicit argument;
  - `NestedReadScenario`, a usage example rather than a model of a source function. Thread 0 binds `{task_idx: 3, op_name: "Map", target_max_block_size: 1024, kwargs: {"batch_size": 8}}` and reads it back field for field. Thread 1 sees nothing. After the reset, the next task on thread 0 reads `None`.
- `thread_trace.dfy`, module `ThreadTrace`:
  - interleaved traces of `set_current` and `reset_current` calls made by many threads;
  - the per-thread state machine UNBOUND ⇄ BOUND (`None` / `Some(c)`);
  - lemmas, proved by induction over the trace, that each thread's view depends only on its own calls.

The progress-bar handle, the map-transformer handle and Python's `Any` are opaque type parameters `PB`, `MT` and `V`. The map-level registry functions are generic in the stored value, so they cannot inspect or change a context: what `Get` returns is exactly what `Set` stored.

`task_context.py:44` asks, only in a comment, that `upstream_map_ray_remote_args` be set whenever `upstream_map_transformer` is. The dataclass checks nothing. The model follows the code: `TaskContext.UpstreamPaired` states the rule as an optional predicate, and neither the constructor nor the registry requires it.

## Model

| member | source | states |
|---|---|---|
| `TaskContexts.ConstructionDefaults` | python/ray/data/_internal/execution/interfaces/task_context.py:20-51 | A context built from only `task_idx` and `op_name` keeps those two values. Its progress-bar dict, upstream transformer, upstream remote args and target block size are `None`, and its `kwargs` is the empty map. It trivially satisfies the pairing predicate. |
| `TaskContexts.GetCurrent` | python/ray/data/_internal/execution/interfaces/task_context.py:59 | The read is `Some(b[t])` exactly when thread `t` is bound and `None` otherwise, so reading an unbound thread never raises. |
| `TaskContexts.SetCurrent` | python/ray/data/_internal/execution/interfaces/task_context.py:69 | After binding `c` on `t`, `t` reads `Some(c)`. The bound threads are the old ones plus `t`. Every other thread keeps its binding. |
| `TaskContexts.ResetCurrent` | python/ray/data/_internal/execution/interfaces/task_context.py:75-76 | After the reset, `t` reads `None`. The bound threads are the old ones minus `t`. Every remaining binding is unchanged. On an unbound thread, the registry is left exactly as it was (the `hasattr` guard). |
| `TaskContexts.LastWriteWins` | python/ray/data/_internal/execution/interfaces/task_context.py:69 | Binding `c1` and then `c2` on one thread gives the same registry as binding `c2` alone. The thread reads `c2`, and `c1` is never restored. |
| `TaskContexts.ResetIdempotent` | python/ray/data/_internal/execution/interfaces/task_context.py:75-76 | Two resets in a row leave the same registry as one. |
| `TaskContexts.ResetAfterSet` | python/ray/data/_internal/execution/interfaces/task_context.py:69-76 | Binding and then resetting a thread gives the same registry as resetting alone. No earlier binding comes back. |
| `TaskContexts.Registry.constructor` | python/ray/data/_internal/execution/interfaces/task_context.py:11 | A fresh thread-local object holds no binding for any thread. |
| `TaskContexts.Registry.Get` | python/ray/data/_internal/execution/interfaces/task_context.py:53-59 | `get_current` returns `None` exactly when the thread has no binding, and never raises. Otherwise it returns the bound context unchanged. It reads no other thread's cell. |
| `TaskContexts.Registry.Set` | python/ray/data/_internal/execution/interfaces/task_context.py:61-69 | `set_current` overwrites the thread's cell with `c`, with no error when a binding already exists. Afterwards the thread reads `Some(c)`, and every other thread reads what it read before. |
| `TaskContexts.Registry.Reset` | python/ray/data/_internal/execution/interfaces/task_context.py:71-76 | `reset_current` removes the thread's cell. Afterwards the thread reads `None`. On an unbound thread it is a no-op and raises nothing. Every other thread reads what it read before. |
| `ThreadTrace.Isolation` | python/ray/data/_internal/execution/interfaces/task_context.py:11-76 | After any interleaving of calls by many threads, thread `t` reads the state its own state machine reaches. That state is computed from `t`'s initial binding and `t`'s own calls, in their order. |
| `ThreadTrace.InterleavingsAgree` | python/ray/data/_internal/execution/interfaces/task_context.py:11 | Take two interleavings in which every thread makes the same calls in the same order. They leave the whole registry in the same state, so there is no cross-talk between threads. |
| `ThreadTrace.OthersInvisible` | python/ray/data/_internal/execution/interfaces/task_context.py:11 | Calls made by other threads never change what thread `t` reads. |
| `ThreadTrace.SetThenOthers` | python/ray/data/_internal/execution/interfaces/task_context.py:62-69 | After `set_current(c)` on `t`, `t` reads exactly `c`, whatever other threads do afterwards. |
| `ThreadTrace.ResetThenOthers` | python/ray/data/_internal/execution/interfaces/task_context.py:72-76 | After `reset_current()` on `t`, `t` reads `None`, whatever other threads do afterwards. |
| `ThreadTrace.NeverSetReadsNone` | python/ray/data/_internal/execution/interfaces/task_context.py:54-59 | Start from a fresh registry and take any interleaving. A thread that never called `set_current` reads `None`, however many resets it made. |

## Left out

- `rllib/tuned_examples/marwil/cartpole_marwil.py`: this is an experiment configuration script. It parses arguments, builds paths, computes a floating-point learning rate and hands off to a runner. It has no logic to model.
- The real `threading.local` mechanism and actual concurrency: the calling thread is an explicit argument, and the per-thread partition is a map keyed by thread identity. The model of concurrent execution is the set of all interleavings of the threads' calls (`ThreadTrace`). Reclaiming a thread's cell when the thread dies is not modelled.
- The internals of `ProgressBar` and `MapTransformer`: both are foreign types. They are the opaque type parameters `PB` and `MT`, and Python's `Any` is `V`.
- Object identity and aliasing: Python stores a reference to the context object. A caller that mutates that object after `set_current` changes what `get_current` returns. The model stores the context as an immutable value, so it captures "returns exactly what was stored" but not later mutation through another reference.
- TaskContexts.Registry.Set: takes a `TaskContext`, whereas Python's `set_current` accepts any object, `None` included. Storing `None` cannot be told apart from a reset: `get_current` returns `None` either way, and the guarded `delattr` removes the attribute either way.
- The pairing rule for `upstream_map_transformer` and `upstream_map_ray_remote_args`: `task_context.py:44` states it only in a comment. It is the optional predicate `TaskContext.UpstreamPaired`, which nothing enforces.
- The "driver side only" use of `sub_progress_bar_dict`: this is a usage convention in a comment, not behaviour of the code.
- The dataclass-generated `__eq__` and `__repr__`: the model uses datatype equality in its place.
- A scoped set-then-reset helper: `task_context.py` has none. Callers pair `set_current` and `reset_current` themselves.
