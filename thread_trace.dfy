/**
 * Thread isolation of the task-context registry over whole executions.
 *
 * Many worker threads call `set_current` and `reset_current` in some
 * interleaving; `get_current` changes nothing and is left out of a trace.
 * Because the storage is partitioned by thread, what a thread reads after
 * any interleaving is decided by its own operations alone, in their own
 * order, through the per-thread state machine
 * UNBOUND --set--> BOUND, BOUND --set--> BOUND, BOUND --reset--> UNBOUND
 * (UNBOUND is `None`, BOUND to `c` is `Some(c)`).
 */
module ThreadTrace {
  import opened Wrappers
  import opened TaskContexts

  /** One registry write made by a thread. */
  datatype Op<Tid, C> = Set(thread: Tid, context: C) | Reset(thread: Tid)

  /** The effect of one write on the whole registry. */
  function Apply<Tid, C>(b: map<Tid, C>, op: Op<Tid, C>): map<Tid, C>
  {
    match op
    case Set(t, c) => SetCurrent(b, t, c)
    case Reset(t) => ResetCurrent(b, t)
  }

  /** The registry after the writes of `ops`, in order, starting from `b`. */
  function Replay<Tid, C>(b: map<Tid, C>, ops: seq<Op<Tid, C>>): map<Tid, C>
    decreases |ops|
  {
    if ops == [] then b else Apply(Replay(b, ops[..|ops| - 1]), ops[|ops| - 1])
  }

  /** The writes that thread `t` made, in their order within `ops`. */
  function OwnOps<Tid(==), C>(ops: seq<Op<Tid, C>>, t: Tid): seq<Op<Tid, C>>
    decreases |ops|
  {
    if ops == [] then []
    else
      var own := OwnOps(ops[..|ops| - 1], t);
      if ops[|ops| - 1].thread == t then own + [ops[|ops| - 1]] else own
  }

  /** One transition of a single thread's state machine. */
  function Step<Tid, C>(s: Option<C>, op: Op<Tid, C>): Option<C>
  {
    match op
    case Set(_, c) => Some(c)
    case Reset(_) => None
  }

  /** A single thread's state after its own writes `ops`, starting in state `s`. */
  function Run<Tid, C>(s: Option<C>, ops: seq<Op<Tid, C>>): Option<C>
    decreases |ops|
  {
    if ops == [] then s else Step(Run(s, ops[..|ops| - 1]), ops[|ops| - 1])
  }

  /**
   * Isolation: after any interleaving, thread `t` reads what its own state
   * machine reaches from its initial binding through its own writes.
   */
  lemma {:induction false} Isolation<Tid, C>(b: map<Tid, C>, ops: seq<Op<Tid, C>>, t: Tid)
    ensures GetCurrent(Replay(b, ops), t) == Run(GetCurrent(b, t), OwnOps(ops, t))
    decreases |ops|
  {
    if ops != [] {
      var pre, op := ops[..|ops| - 1], ops[|ops| - 1];
      Isolation(b, pre, t);
      if op.thread == t {
        var own := OwnOps(pre, t) + [op];
        assert own[..|own| - 1] == OwnOps(pre, t);
      }
    }
  }

  /**
   * No cross-talk: two interleavings in which every thread makes the same
   * writes in the same order leave the registry in the same state.
   * Thread identities are plain values here (`!new`), so map equality can be
   * concluded from agreement on every identity.
   */
  lemma InterleavingsAgree<Tid(!new), C>(b: map<Tid, C>, ops1: seq<Op<Tid, C>>, ops2: seq<Op<Tid, C>>)
    requires forall t :: OwnOps(ops1, t) == OwnOps(ops2, t)
    ensures Replay(b, ops1) == Replay(b, ops2)
  {
    var r1, r2 := Replay(b, ops1), Replay(b, ops2);
    forall t
      ensures t in r1 <==> t in r2
      ensures t in r1 ==> r1[t] == r2[t]
    {
      Isolation(b, ops1, t);
      Isolation(b, ops2, t);
    }
    assert r1.Keys == r2.Keys;
  }

  /**
   * Whatever other threads do afterwards, `t` keeps reading what it read
   * before they started.
   */
  lemma {:induction false} OthersInvisible<Tid, C>(b: map<Tid, C>, ops: seq<Op<Tid, C>>, others: seq<Op<Tid, C>>, t: Tid)
    requires forall i :: 0 <= i < |others| ==> others[i].thread != t
    ensures GetCurrent(Replay(b, ops + others), t) == GetCurrent(Replay(b, ops), t)
    decreases |others|
  {
    if others == [] {
      assert ops + others == ops;
    } else {
      var pre := others[..|others| - 1];
      OthersInvisible(b, ops, pre, t);
      assert (ops + others)[..|ops + others| - 1] == ops + pre;
    }
  }

  /** After `set_current(c)` on `t`, `t` reads exactly `c` however other threads interleave. */
  lemma SetThenOthers<Tid, C>(b: map<Tid, C>, ops: seq<Op<Tid, C>>, t: Tid, c: C, others: seq<Op<Tid, C>>)
    requires forall i :: 0 <= i < |others| ==> others[i].thread != t
    ensures GetCurrent(Replay(b, ops + [Set(t, c)] + others), t) == Some(c)
  {
    OthersInvisible(b, ops + [Set(t, c)], others, t);
    assert (ops + [Set(t, c)])[..|ops|] == ops;
  }

  /** After `reset_current()` on `t`, `t` reads `None` however other threads interleave. */
  lemma ResetThenOthers<Tid, C>(b: map<Tid, C>, ops: seq<Op<Tid, C>>, t: Tid, others: seq<Op<Tid, C>>)
    requires forall i :: 0 <= i < |others| ==> others[i].thread != t
    ensures GetCurrent(Replay(b, ops + [Reset(t)] + others), t) == None
  {
    OthersInvisible(b, ops + [Reset(t)], others, t);
    assert (ops + [Reset(t)])[..|ops|] == ops;
  }

  /**
   * A thread that has never called `set_current` reads `None` from a fresh
   * registry, however many resets it made and whatever the other threads did.
   */
  lemma {:induction false} NeverSetReadsNone<Tid, C>(ops: seq<Op<Tid, C>>, t: Tid)
    requires forall i :: 0 <= i < |ops| ==> ops[i].thread == t ==> ops[i].Reset?
    ensures GetCurrent(Replay(map[], ops), t) == None
    decreases |ops|
  {
    if ops != [] {
      NeverSetReadsNone(ops[..|ops| - 1], t);
    }
  }
}
