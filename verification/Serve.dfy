/** Starting and stopping the background tasks of the server: one worker per configured emitter, rollback of a
    partial start, and draining. A task ends only after shutdown was requested, so awaiting one before that is refused. */
module Serve {
  import opened Wrappers
  import opened State

  class ShutdownSignal {
    var sent: bool

    constructor ()
      ensures !sent
    {
      sent := false;
    }

    method Send()
      modifies this
      ensures sent
    {
      sent := true;
    }
  }

  datatype Kind = Worker | ChannelDrain

  // A spawned task; whether it panics is decided outside the model.
  class Task {
    const emitter: EmitterName
    const kind: Kind
    const panics: bool
    const signal: ShutdownSignal
    var ended: bool

    constructor (emitter: EmitterName, kind: Kind, panics: bool, signal: ShutdownSignal)
      ensures this.emitter == emitter && this.kind == kind && this.panics == panics && this.signal == signal && !ended
    {
      this.emitter := emitter;
      this.kind := kind;
      this.panics := panics;
      this.signal := signal;
      ended := false;
    }

    function Name(): (name: string)
      ensures kind.Worker? ==> name == emitter
      ensures kind.ChannelDrain? ==> name == emitter + "-drain"
    {
      if kind.Worker? then emitter else emitter + "-drain"
    }

    method Await() returns (ok: bool)
      requires signal.sent
      modifies this`ended
      ensures ended && ok == !panics
    {
      ended := true;
      ok := !panics;
    }
  }

  // The names are those of the panicked tasks and of no others, each once, in the order of the tasks; `indices` says where.
  ghost predicate NamesPanicked(names: seq<string>, tasks: seq<Task>, indices: seq<nat>) {
    && |names| == |indices|
    && (forall j, k :: 0 <= j < k < |indices| ==> indices[j] < indices[k])
    && (forall i: nat :: i in indices <==> i < |tasks| && tasks[i].panics)
    && (forall k :: 0 <= k < |indices| && indices[k] < |tasks| ==> names[k] == tasks[indices[k]].Name())
  }

  lemma OnePanicMore(names: seq<string>, tasks: seq<Task>, indices: seq<nat>, t: Task)
    requires NamesPanicked(names, tasks, indices)
    ensures if t.panics then NamesPanicked(names + [t.Name()], tasks + [t], indices + [|tasks|])
            else NamesPanicked(names, tasks + [t], indices)
  {
    forall k | 0 <= k < |indices| ensures indices[k] < |tasks| { assert indices[k] in indices; }
    forall i: nat ensures i in indices + [|tasks|] <==> i in indices || i == |tasks| {}
  }

  /** Awaits every task, also after one of them panicked, and names exactly those that did, in order. */
  method DrainWorkerHandles(tasks: seq<Task>, signal: ShutdownSignal) returns (panicked: seq<string>, ghost indices: seq<nat>)
    requires signal.sent && forall t :: t in tasks ==> t.signal == signal
    modifies tasks
    ensures forall t :: t in tasks ==> t.ended
    ensures NamesPanicked(panicked, tasks, indices)
    ensures panicked == [] <==> forall t :: t in tasks ==> !t.panics
  {
    panicked, indices := [], [];
    var i := 0;
    while i < |tasks|
      invariant 0 <= i <= |tasks| && signal.sent
      invariant forall k :: 0 <= k < i ==> tasks[k].ended
      invariant NamesPanicked(panicked, tasks[..i], indices)
    {
      assert tasks[..i + 1] == tasks[..i] + [tasks[i]];
      OnePanicMore(panicked, tasks[..i], indices, tasks[i]);
      var ok := tasks[i].Await();
      if !ok {
        panicked, indices := panicked + [tasks[i].Name()], indices + [i];
      }
      i := i + 1;
    }
    assert tasks[..i] == tasks;
    NoneNamed(panicked, tasks, indices);
  }

  lemma NoneNamed(names: seq<string>, tasks: seq<Task>, indices: seq<nat>)
    requires NamesPanicked(names, tasks, indices)
    ensures names == [] <==> forall t :: t in tasks ==> !t.panics
  {
    if names == [] {
      forall t | t in tasks ensures !t.panics {
        var i :| 0 <= i < |tasks| && tasks[i] == t;
        assert i in indices <==> t.panics;
      }
    } else {
      assert indices[0] in indices;
      assert tasks[indices[0]] in tasks;
    }
  }

  // What building one [[emitters]] entry yields: an emitter, for the development channel also a drain task, or an error.
  datatype Built = Emitter(panics: bool) | WithDrain(panics: bool, drainPanics: bool) | BuildError(error: string)

  datatype Entry = Entry(name: EmitterName, built: Built)

  datatype Plan = Plan(emitter: EmitterName, kind: Kind, panics: bool)

  // What is spawned for an entry, in order.
  function PlansOf(e: Entry): seq<Plan> {
    match e.built
    case Emitter(panics) => [Plan(e.name, Worker, panics)]
    case WithDrain(panics, drainPanics) => [Plan(e.name, ChannelDrain, drainPanics), Plan(e.name, Worker, panics)]
    case BuildError(_) => []
  }

  function Planned(entries: seq<Entry>): seq<Plan> {
    if entries == [] then [] else Planned(entries[..|entries| - 1]) + PlansOf(entries[|entries| - 1])
  }

  function Plans(tasks: seq<Task>): seq<Plan> {
    seq(|tasks|, i requires 0 <= i < |tasks| => Plan(tasks[i].emitter, tasks[i].kind, tasks[i].panics))
  }

  function FirstError(entries: seq<Entry>): Option<nat> {
    if entries == [] then None
    else
      var earlier, last := FirstError(entries[..|entries| - 1]), |entries| - 1;
      if earlier.Some? then earlier else if entries[last].built.BuildError? then Some(last) else None
  }

  lemma {:induction false} FirstErrorIsFirst(entries: seq<Entry>)
    ensures FirstError(entries).Some? <==> exists i :: 0 <= i < |entries| && entries[i].built.BuildError?
    ensures FirstError(entries).Some? ==>
      var n := FirstError(entries).value;
      n < |entries| && entries[n].built.BuildError? && forall i :: 0 <= i < n ==> !entries[i].built.BuildError?
  {
    if entries != [] {
      FirstErrorIsFirst(entries[..|entries| - 1]);
    }
  }

  // How many tasks of a kind are planned for an emitter.
  function TasksFor(plan: seq<Plan>, e: EmitterName, kind: Kind): nat {
    if plan == [] then 0
    else
      var last := plan[|plan| - 1];
      TasksFor(plan[..|plan| - 1], e, kind) + (if last.emitter == e && last.kind == kind then 1 else 0)
  }

  lemma {:induction false} TasksForAppend(plan: seq<Plan>, more: seq<Plan>, e: EmitterName, kind: Kind)
    ensures TasksFor(plan + more, e, kind) == TasksFor(plan, e, kind) + TasksFor(more, e, kind)
    decreases |more|
  {
    if more == [] {
      assert plan + more == plan;
    } else {
      var n := |more| - 1;
      TasksForAppend(plan, more[..n], e, kind);
      assert (plan + more)[..|plan + more| - 1] == plan + more[..n];
    }
  }

  // Whether an entry is to have a task of this kind.
  predicate Wants(entry: Entry, e: EmitterName, kind: Kind) {
    entry.name == e && (kind.Worker? || entry.built.WithDrain?)
  }

  lemma EntryGetsItsTasks(entry: Entry, e: EmitterName, kind: Kind)
    requires !entry.built.BuildError?
    ensures TasksFor(PlansOf(entry), e, kind) == if Wants(entry, e, kind) then 1 else 0
  {
    var worker := [Plan(entry.name, Worker, entry.built.panics)];
    assert worker[..0] == [];
    assert TasksFor(worker, e, kind) == if entry.name == e && kind.Worker? then 1 else 0;
    if entry.built.WithDrain? {
      var drain := [Plan(entry.name, ChannelDrain, entry.built.drainPanics)];
      assert drain[..0] == [] && PlansOf(entry) == drain + worker;
      TasksForAppend(drain, worker, e, kind);
    }
  }

  predicate Wanted(entries: seq<Entry>, e: EmitterName, kind: Kind) {
    exists i :: 0 <= i < |entries| && Wants(entries[i], e, kind)
  }

  lemma WantedNext(entries: seq<Entry>, last: Entry, e: EmitterName, kind: Kind)
    ensures Wanted(entries + [last], e, kind) <==> Wanted(entries, e, kind) || Wants(last, e, kind)
  {
    assert (entries + [last])[|entries|] == last;
    if Wanted(entries, e, kind) {
      var i :| 0 <= i < |entries| && Wants(entries[i], e, kind);
      assert Wants((entries + [last])[i], e, kind);
    }
  }

  /** With distinct names and no build error each configured emitter has exactly one worker, one drain task if it is a
      development channel, and no other emitter has any. */
  lemma {:induction false} OneWorkerPerEmitter(entries: seq<Entry>, e: EmitterName, kind: Kind)
    requires forall i, j :: 0 <= i < j < |entries| ==> entries[i].name != entries[j].name
    requires FirstError(entries).None?
    ensures TasksFor(Planned(entries), e, kind) == if Wanted(entries, e, kind) then 1 else 0
  {
    if entries != [] {
      var init, last := entries[..|entries| - 1], entries[|entries| - 1];
      OneWorkerPerEmitter(init, e, kind);
      TasksForAppend(Planned(init), PlansOf(last), e, kind);
      EntryGetsItsTasks(last, e, kind);
      assert entries == init + [last];
      WantedNext(init, last, e, kind);
    }
  }

  predicate Panics(b: Built) {
    (b.Emitter? && b.panics) || (b.WithDrain? && (b.panics || b.drainPanics))
  }

  // Some planned task panics exactly if the entry it is planned for says so.
  lemma {:induction false} PanicsPlanned(entries: seq<Entry>)
    ensures (exists p :: p in Planned(entries) && p.panics) <==> exists i :: 0 <= i < |entries| && Panics(entries[i].built)
  {
    if entries != [] {
      var init, last := entries[..|entries| - 1], entries[|entries| - 1];
      PanicsPlanned(init);
      assert entries == init + [last];
      assert (exists p :: p in PlansOf(last) && p.panics) <==> Panics(last.built) by {
        if last.built.Emitter? { assert PlansOf(last)[0] in PlansOf(last); }
        if last.built.WithDrain? { assert PlansOf(last)[0] in PlansOf(last) && PlansOf(last)[1] in PlansOf(last); }
      }
      assert forall p :: p in Planned(entries) <==> p in Planned(init) || p in PlansOf(last);
      if i :| 0 <= i < |init| && Panics(init[i].built) { assert Panics(entries[i].built); }
    }
  }

  datatype Start = Started(tasks: seq<Task>) | StartFailed(error: string)

  // Tasks that were just spawned on this signal and are still running.
  ghost predicate Running(tasks: seq<Task>, signal: ShutdownSignal)
    reads tasks
  {
    forall t :: t in tasks ==> t.signal == signal && !t.ended
  }

  method SpawnEntry(entry: Entry, signal: ShutdownSignal) returns (tasks: seq<Task>)
    requires !entry.built.BuildError?
    ensures fresh(tasks) && Running(tasks, signal) && Plans(tasks) == PlansOf(entry)
  {
    tasks := [];
    if entry.built.WithDrain? {
      var drain := new Task(entry.name, ChannelDrain, entry.built.drainPanics, signal);
      tasks := [drain];
    }
    var worker := new Task(entry.name, Worker, entry.built.panics, signal);
    tasks := tasks + [worker];
  }

  /** Spawns what every entry needs, or, if one cannot be built, requests shutdown and returns only after every
      task spawned so far has ended. */
  method SpawnEmitterWorkers(entries: seq<Entry>, signal: ShutdownSignal) returns (start: Start, ghost spawned: seq<Task>)
    requires !signal.sent
    modifies signal
    ensures fresh(spawned)
    ensures start.Started? <==> FirstError(entries).None?
    ensures start.Started? ==>
      && !signal.sent && start.tasks == spawned && Running(spawned, signal) && Plans(spawned) == Planned(entries)
    ensures start.StartFailed? ==>
      var n := FirstError(entries).value;
      && n < |entries| && entries[n].built == BuildError(start.error)
      && signal.sent && Plans(spawned) == Planned(entries[..n])
      && forall t :: t in spawned ==> t.signal == signal && t.ended
  {
    var tasks: seq<Task> := [];
    var i := 0;
    while i < |entries|
      invariant 0 <= i <= |entries| && !signal.sent
      invariant fresh(tasks) && Running(tasks, signal) && Plans(tasks) == Planned(entries[..i])
      invariant forall k :: 0 <= k < i ==> !entries[k].built.BuildError?
    {
      FirstErrorIsFirst(entries);
      assert entries[..i + 1][..i] == entries[..i];
      if entries[i].built.BuildError? {
        signal.Send();
        var panicked, _ := DrainWorkerHandles(tasks, signal);
        return StartFailed(entries[i].built.error), tasks;
      }
      var more := SpawnEntry(entries[i], signal);
      assert Plans(tasks + more) == Plans(tasks) + Plans(more);
      tasks := tasks + more;
      i := i + 1;
    }
    FirstErrorIsFirst(entries);
    assert entries[..i] == entries;
    return Started(tasks), tasks;
  }

  datatype Exit = Clean | FailedToStart(error: string) | ServerError(error: string) | TasksPanicked(names: seq<string>)

  // Some task spawned for these entries panics.
  predicate SomePanic(entries: seq<Entry>) {
    exists i :: 0 <= i < |entries| && Panics(entries[i].built)
  }

  lemma SpawnedPanic(entries: seq<Entry>, spawned: seq<Task>)
    requires Plans(spawned) == Planned(entries)
    ensures SomePanic(entries) <==> exists t :: t in spawned && t.panics
  {
    PanicsPlanned(entries);
    if p :| p in Planned(entries) && p.panics {
      var i :| 0 <= i < |spawned| && Plans(spawned)[i] == p;
      assert spawned[i] in spawned;
    }
    if t :| t in spawned && t.panics {
      var i :| 0 <= i < |spawned| && spawned[i] == t;
      assert Plans(spawned)[i] in Planned(entries);
    }
  }

  /** From start to exit: however the server ends, shutdown has been requested and no spawned task is left running. It is
      clean exactly if everything could be built, the server met no error and no task panicked; a server error is
      reported before panics, and exactly the panicked tasks are named. */
  method ServeInner(entries: seq<Entry>, serverError: Option<string>)
    returns (exit: Exit, ghost spawned: seq<Task>, ghost indices: seq<nat>)
    ensures forall t :: t in spawned ==> t.ended && t.signal.sent
    ensures exit.FailedToStart? <==> exists i :: 0 <= i < |entries| && entries[i].built.BuildError?
    ensures !exit.FailedToStart? ==> Plans(spawned) == Planned(entries)
    ensures exit.Clean? <==> FirstError(entries).None? && serverError.None? && !SomePanic(entries)
    ensures exit.ServerError? <==> FirstError(entries).None? && serverError.Some?
    ensures exit.ServerError? ==> serverError == Some(exit.error)
    ensures exit.TasksPanicked? <==> FirstError(entries).None? && serverError.None? && SomePanic(entries)
    ensures exit.TasksPanicked? ==> NamesPanicked(exit.names, spawned, indices)
  {
    var signal := new ShutdownSignal();
    indices := [];
    FirstErrorIsFirst(entries);
    var start;
    start, spawned := SpawnEmitterWorkers(entries, signal);
    if start.StartFailed? {
      return FailedToStart(start.error), spawned, indices;
    }
    signal.Send();
    SpawnedPanic(entries, spawned);
    var panicked;
    panicked, indices := DrainWorkerHandles(start.tasks, signal);
    if serverError.Some? {
      exit := ServerError(serverError.value);
    } else if panicked == [] {
      exit := Clean;
    } else {
      exit := TasksPanicked(panicked);
    }
  }
}
