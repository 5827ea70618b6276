/** Resources inside the engine: a granted request is a triggered event until it is processed, so the clock cannot
    move before the retries that its processing makes. */
module Clockwork {
  import opened Options
  import Kernel
  import Agenda
  import SingleResume
  import EngineTheorems
  import opened Waiting
  import Slots
  import Preemption
  import Stores
  import Containers

  /** Each granted request still to be processed is one of the engine's events: triggered at its grant, not
      processed, and no timeout. */
  ghost predicate Standing<S, P, G>(k: Kernel.State, m: Machine<S, P, G>, event: nat -> nat) {
    forall id :: id in m.newPuts || id in m.newGets ==>
      && event(id) < |k.events| && !k.events[event(id)].kind.Timeout?
      && Kernel.Triggered(k.events[event(id)]) && !Kernel.Processed(k.events[event(id)])
  }

  lemma Nobody(ids: seq<nat>)
    ensures ids == [] <==> forall id :: id !in ids
  {
    if ids != [] { assert ids[0] in ids; }
  }

  /** In every run of the engine, when the clock moves no granted request is left to be processed. */
  lemma QuiescentWhenClockMoves<S, P, G>(moves: seq<Kernel.Move>, a: Kernel.Move, m: Machine<S, P, G>, event: nat -> nat)
    requires var k := Kernel.Run(moves); k.now < Kernel.Next(k, a).now && Standing(k, m, event)
    ensures Quiescent(m)
  {
    var k := Kernel.Run(moves);
    EngineTheorems.RunKeepsEngine(moves);
    if k.control.Running? { SingleResume.RunningOk(k); }
    Agenda.ClockAdvance(k, a);
    hide EngineTheorems.EngineOk, Kernel.Next;
    Nobody(m.newPuts);
    Nobody(m.newGets);
  }

  /** So whenever the clock moves no request for a slot of a plain or priority resource waits beside a free one. */
  lemma SlotsServed(moves: seq<Kernel.Move>, a: Kernel.Move, event: nat -> nat,
      ranked: bool, capacity: nat, actions: seq<Action<Slots.Ask, nat>>)
    requires var k := Kernel.Run(moves); k.now < Kernel.Next(k, a).now
    requires Standing(Kernel.Run(moves), Run(Slots.Rules(ranked), Fresh(Slots.Pool(capacity, [], [])), actions), event)
    ensures var m := Run(Slots.Rules(ranked), Fresh(Slots.Pool(capacity, [], [])), actions);
      m.puts == [] || |m.state.users| == capacity
  {
    var m := Run(Slots.Rules(ranked), Fresh(Slots.Pool(capacity, [], [])), actions);
    hide Kernel.Run, Kernel.Next, Run, Slots.Rules;
    QuiescentWhenClockMoves(moves, a, m, event);
    Slots.NoLostWakeup(ranked, capacity, actions);
  }

  /** Nor one of a preemptive resource, unless a preemption has taken a slot away in vain. */
  lemma ContendersServed(moves: seq<Kernel.Move>, a: Kernel.Move, event: nat -> nat,
      capacity: nat, history: seq<Preemption.Moment>)
    requires var k := Kernel.Run(moves); k.now < Kernel.Next(k, a).now
    requires Standing(Kernel.Run(moves), Preemption.Lived(capacity, history, |history|), event)
    requires capacity >= 1 && Preemption.NoSlotLost(capacity, history, |history|)
    ensures var m := Preemption.Lived(capacity, history, |history|); m.puts == [] || |m.state.users| == capacity
  {
    var m := Preemption.Lived(capacity, history, |history|);
    hide Kernel.Run, Kernel.Next, Preemption.Lived, Preemption.NoSlotLost;
    QuiescentWhenClockMoves(moves, a, m, event);
    Preemption.NoRequestBesideFreeSlot(capacity, history);
  }

  /** No put waits beside room in a store, and no get beside an item it accepts. */
  lemma StoresServed(moves: seq<Kernel.Move>, a: Kernel.Move, event: nat -> nat,
      limit: Option<nat>, actions: seq<Action<Stores.Item, Stores.Want>>)
    requires var k := Kernel.Run(moves); k.now < Kernel.Next(k, a).now
    ensures var m := Run(Stores.Plain(), Stores.Empty(limit), actions);
      Standing(Kernel.Run(moves), m, event) ==>
        (m.puts == [] || !Stores.HasRoom(m.state)) && (m.gets == [] || m.state.items == [])
    ensures var m := Run(Stores.Filtering(), Stores.Empty(limit), actions);
      Standing(Kernel.Run(moves), m, event) ==>
        (m.puts == [] || !Stores.HasRoom(m.state)) && Stores.NoMatch(m.gets, m.state.items)
  {
    var m := Run(Stores.Plain(), Stores.Empty(limit), actions);
    var f := Run(Stores.Filtering(), Stores.Empty(limit), actions);
    hide Kernel.Run, Kernel.Next, Run, Standing, Stores.Plain, Stores.Filtering, Stores.NoMatch, Stores.HasRoom;
    if Standing(Kernel.Run(moves), m, event) { QuiescentWhenClockMoves(moves, a, m, event); }
    if Standing(Kernel.Run(moves), f, event) { QuiescentWhenClockMoves(moves, a, f, event); }
    Stores.StoreHistory(limit, actions);
    Stores.FilterStoreHistory(limit, actions);
  }

  /** And neither head of a container could be served, unless a cancellation has stranded it. */
  lemma ContainersServed(moves: seq<Kernel.Move>, a: Kernel.Move, event: nat -> nat,
      capacity: Option<real>, init: real, actions: seq<Action<real, real>>)
    requires var k := Kernel.Run(moves); k.now < Kernel.Next(k, a).now
    requires Containers.Start(capacity, init).Some?
    requires Containers.NobodyStranded(Containers.Start(capacity, init).value, actions, |actions|)
    requires Standing(Kernel.Run(moves), Containers.History(Containers.Start(capacity, init).value, actions), event)
    ensures var m := Containers.History(Containers.Start(capacity, init).value, actions);
      !Containers.HeadPutStuck(m) && !Containers.HeadGetStuck(m)
  {
    var m := Containers.History(Containers.Start(capacity, init).value, actions);
    hide Kernel.Run, Kernel.Next, Containers.History, Containers.NobodyStranded, Containers.HeadPutStuck, Containers.HeadGetStuck;
    QuiescentWhenClockMoves(moves, a, m, event);
    Containers.HeadsAwake(capacity, init, actions);
  }
}
