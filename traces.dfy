/** Sequences of webhook deliveries and what holds of the `conversations` map across them. */
module Traces {
  import opened Wrappers
  import opened Events
  import opened Pipeline
  import opened Orchestrator

  /** One HTTP delivery to `/webhook`, with what its foreign calls do. */
  datatype Delivery = Delivery(raw: RawEvent, env: Outcomes)

  /** The map after handling the deliveries one after another. */
  function Run(store: Store, trace: seq<Delivery>): Store
    decreases |trace|
  {
    if trace == [] then store
    else Run(Deliver(store, trace[0].raw, trace[0].env).store, trace[1..])
  }

  /** A delivery that passes the signature check and names call `x`. */
  predicate Names(d: Delivery, x: CallId)
  {
    d.env.signatureValid && CallOf(Classify(d.raw)) == Some(x)
  }

  /** A delivery that passes the signature check and may reset or remove the history of `x`. */
  predicate Restarts(d: Delivery, x: CallId)
  {
    var ev := Classify(d.raw);
    && d.env.signatureValid
    && (ev.CallInitiated? || ev.CallReceived? || ev.StreamingStopped? || ev.CallHangup?)
    && ev.id == x
  }

  /** Well-formed histories stay well formed over any sequence of deliveries. */
  lemma {:induction false} RunKeepsWellFormed(store: Store, trace: seq<Delivery>)
    requires WellFormedStore(store)
    ensures WellFormedStore(Run(store, trace))
    decreases |trace|
  {
    if trace != [] {
      DeliverKeepsWellFormed(store, trace[0].raw, trace[0].env);
      RunKeepsWellFormed(Deliver(store, trace[0].raw, trace[0].env).store, trace[1..]);
    }
  }

  /** No cross-talk: a call that no delivery names keeps its presence and its history. */
  lemma {:induction false} RunLeavesOtherCalls(store: Store, trace: seq<Delivery>, x: CallId)
    requires forall i :: 0 <= i < |trace| ==> !Names(trace[i], x)
    ensures x in Run(store, trace) <==> x in store
    ensures x in store ==> Run(store, trace)[x] == store[x]
    decreases |trace|
  {
    if trace != [] {
      var next := Deliver(store, trace[0].raw, trace[0].env).store;
      assert !Names(trace[0], x);
      assert x in next <==> x in store;
      assert x in store ==> next[x] == store[x];
      RunLeavesOtherCalls(next, trace[1..], x);
    }
  }

  /** One delivery that does not restart `x` only appends to its history. */
  lemma DeliverAppendOnly(store: Store, d: Delivery, x: CallId)
    requires x in store && !Restarts(d, x)
    ensures var next := Deliver(store, d.raw, d.env).store;
      x in next && store[x] <= next[x]
  {
  }

  /**
   * Histories are append-only: until a start or end event arrives for `x`, its earlier turns
   * stay where they are and new turns only go after them.
   */
  lemma {:induction false} RunAppendOnly(store: Store, trace: seq<Delivery>, x: CallId)
    requires x in store
    requires forall i :: 0 <= i < |trace| ==> !Restarts(trace[i], x)
    ensures x in Run(store, trace) && store[x] <= Run(store, trace)[x]
    decreases |trace|
  {
    if trace != [] {
      var next := Deliver(store, trace[0].raw, trace[0].env).store;
      DeliverAppendOnly(store, trace[0], x);
      RunAppendOnly(next, trace[1..], x);
    }
  }

  /**
   * After a hangup, a completed turn on the same id starts a history of its own: the old turns
   * are gone and the entry holds exactly the new user and assistant turns.
   */
  lemma HangupThenTurnStartsFresh(store: Store, x: CallId, ended: Outcomes, chunk: string, env: Outcomes)
    requires ended.signatureValid && env.signatureValid
    requires chunk != "" && Truthy(env.transcript) && env.reply.Some?
    ensures var gone := Deliver(store, Raw(CallHangup(x)), ended).store;
      && x !in gone
      && Deliver(gone, Raw(MediaStreaming(x, Some(chunk))), env).store[x]
         == [Turn(User, env.transcript.value), Turn(Assistant, env.reply.value)]
  {
  }
}
