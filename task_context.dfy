/**
 * The per-thread task context of the data execution engine: the `TaskContext`
 * record and the registry that binds at most one of them to each execution
 * thread (`get_current`, `set_current`, `reset_current`).
 *
 * The module-level `threading.local()` object becomes an explicit map from a
 * thread identity to the context bound on that thread; a thread is a key of
 * the map exactly when its `task_context` attribute exists.
 */
module TaskContexts {
  import opened Wrappers

  /**
   * The information of one task running a block transform. The progress-bar
   * handle `PB`, the map-transformer handle `MT` and the `Any` value type `V`
   * are foreign to this component and stay opaque.
   *
   * As in the dataclass, only the task index and the operator name are
   * required; the other fields default to `None`, and `kwargs` to an empty map.
   */
  datatype TaskContext<PB, MT, V> = TaskContext(
    taskIdx: int,
    opName: string,
    subProgressBarDict: Option<map<string, PB>> := None,
    upstreamMapTransformer: Option<MT> := None,
    upstreamMapRayRemoteArgs: Option<map<string, V>> := None,
    targetMaxBlockSize: Option<int> := None,
    kwargs: map<string, V> := map[])
  {
    /**
     * The documented pairing of the fused-upstream fields: remote arguments
     * should be present whenever a transformer is. Nothing checks it, neither
     * the record nor the registry; it is here for clients that want to state it.
     */
    predicate UpstreamPaired() {
      upstreamMapTransformer.Some? ==> upstreamMapRayRemoteArgs.Some?
    }
  }

  /** A context built from the two required fields alone carries every default. */
  lemma ConstructionDefaults<PB, MT, V>(taskIdx: int, opName: string)
    ensures var c: TaskContext<PB, MT, V> := TaskContext(taskIdx, opName);
      && c.taskIdx == taskIdx && c.opName == opName
      && c.subProgressBarDict == None
      && c.upstreamMapTransformer == None
      && c.upstreamMapRayRemoteArgs == None
      && c.targetMaxBlockSize == None
      && c.kwargs == map[]
      && c.UpstreamPaired()
  {
  }

  // The registry as a value: one optional cell per thread. These functions
  // are generic in the stored value `C`, so they cannot look inside it.

  /** `getattr(_thread_local, "task_context", None)` on thread `t`: never an error. */
  function GetCurrent<Tid, C>(b: map<Tid, C>, t: Tid): (r: Option<C>)
    ensures r.Some? <==> t in b
    ensures t in b ==> r == Some(b[t])
  {
    if t in b then Some(b[t]) else None
  }

  /** `_thread_local.task_context = context` on thread `t`. */
  function SetCurrent<Tid, C>(b: map<Tid, C>, t: Tid, c: C): (r: map<Tid, C>)
    ensures GetCurrent(r, t) == Some(c)
    ensures r.Keys == b.Keys + {t}
    ensures forall u :: u in b && u != t ==> r[u] == b[u]
  {
    b[t := c]
  }

  /** The `hasattr`-guarded `delattr` on thread `t`. */
  function ResetCurrent<Tid, C>(b: map<Tid, C>, t: Tid): (r: map<Tid, C>)
    ensures GetCurrent(r, t) == None
    ensures r.Keys == b.Keys - {t}
    ensures forall u :: u in r ==> r[u] == b[u]
    ensures t !in b ==> r == b
  {
    if t in b then b - {t} else b
  }

  /** Rebinding discards the earlier context for good: only the last write is seen. */
  lemma LastWriteWins<Tid, C>(b: map<Tid, C>, t: Tid, c1: C, c2: C)
    ensures SetCurrent(SetCurrent(b, t, c1), t, c2) == SetCurrent(b, t, c2)
    ensures GetCurrent(SetCurrent(SetCurrent(b, t, c1), t, c2), t) == Some(c2)
  {
  }

  /** A second reset changes nothing: two resets in a row are one. */
  lemma ResetIdempotent<Tid, C>(b: map<Tid, C>, t: Tid)
    ensures ResetCurrent(ResetCurrent(b, t), t) == ResetCurrent(b, t)
  {
  }

  /** Binding and then resetting leaves the registry as resetting alone would: nothing is restored. */
  lemma ResetAfterSet<Tid, C>(b: map<Tid, C>, t: Tid, c: C)
    ensures ResetCurrent(SetCurrent(b, t, c), t) == ResetCurrent(b, t)
  {
  }

  /**
   * The registry itself: the `_thread_local` object, with the calling thread
   * made an explicit argument of each classmethod.
   */
  class Registry<Tid(==), PB, MT, V> {
    /** The thread-to-context cells; `t in bindings` is `hasattr` on thread `t`. */
    var bindings: map<Tid, TaskContext<PB, MT, V>>

    /** `threading.local()`: no thread has a context yet. */
    constructor ()
      ensures bindings == map[]
    {
      bindings := map[];
    }

    /** `get_current`: the context bound on `t`, or `None` when there is none (never an error). */
    method Get(t: Tid) returns (r: Option<TaskContext<PB, MT, V>>)
      ensures r == GetCurrent(bindings, t)
      ensures r == None <==> t !in bindings
      ensures t in bindings ==> r == Some(bindings[t])
    {
      if t in bindings {
        r := Some(bindings[t]);
      } else {
        r := None;
      }
    }

    /** `set_current`: bind `c` on `t`, overwriting any earlier binding; no other thread is touched. */
    method Set(t: Tid, c: TaskContext<PB, MT, V>)
      modifies this
      ensures bindings == SetCurrent(old(bindings), t, c)
      ensures GetCurrent(bindings, t) == Some(c)
      ensures forall u :: u != t ==> GetCurrent(bindings, u) == GetCurrent(old(bindings), u)
    {
      bindings := bindings[t := c];
    }

    /** `reset_current`: drop the binding of `t` if there is one; otherwise a no-op. No other thread is touched. */
    method Reset(t: Tid)
      modifies this
      ensures bindings == ResetCurrent(old(bindings), t)
      ensures GetCurrent(bindings, t) == None
      ensures t !in old(bindings) ==> bindings == old(bindings)
      ensures forall u :: u != t ==> GetCurrent(bindings, u) == GetCurrent(old(bindings), u)
    {
      if t in bindings {
        bindings := bindings - {t};
      }
    }
  }

  /**
   * A caller's view: thread 0 binds a context, code nested in the task on the
   * same thread reads it back field for field, and after the reset the next task
   * on that thread sees no context; thread 1 never sees thread 0's binding.
   */
  method NestedReadScenario()
  {
    var registry := new Registry<int, (), (), int>();
    var c := TaskContext(3, "Map", targetMaxBlockSize := Some(1024), kwargs := map["batch_size" := 8]);
    registry.Set(0, c);
    var seen := registry.Get(0);
    assert seen == Some(c);
    assert seen.value.taskIdx == 3 && seen.value.opName == "Map";
    assert seen.value.targetMaxBlockSize == Some(1024) && seen.value.kwargs["batch_size"] == 8;
    var other := registry.Get(1);
    assert other == None;
    registry.Reset(0);
    var next := registry.Get(0);
    assert next == None;
  }
}
