/** The buffered trace writer: its methods, and every interleaving of the threads that call them. */
module TraceWriter {
  import opened Common

  /** A trace; an empty one is what enqueuing nothing leaves behind. */
  datatype Trace = Empty | Filled(id: int)

  // ----- the store

  /** The batch writer drops empty rows; the row-by-row writer keeps them. */
  function Kept(rows: seq<Trace>): seq<Trace> {
    if rows == [] then []
    else if rows[|rows| - 1].Empty? then Kept(rows[..|rows| - 1])
    else Kept(rows[..|rows| - 1]) + [rows[|rows| - 1]]
  }

  function Stores(batching: bool, rows: seq<Trace>): seq<Trace> {
    if batching then Kept(rows) else rows
  }

  lemma {:induction false} KeptConcat(a: seq<Trace>, b: seq<Trace>)
    ensures Kept(a + b) == Kept(a) + Kept(b)
  {
    if b == [] {
      assert a + b == a;
    } else {
      assert (a + b)[..|a + b| - 1] == a + b[..|b| - 1];
      KeptConcat(a, b[..|b| - 1]);
    }
  }

  /** The two ways of writing agree exactly on batches without an empty trace. */
  lemma {:induction false} WritersAgreeIff(rows: seq<Trace>)
    ensures |Kept(rows)| <= |rows|
    ensures Stores(true, rows) == Stores(false, rows) <==> Empty !in rows
  {
    if rows != [] {
      var init, last := rows[..|rows| - 1], rows[|rows| - 1];
      assert rows == init + [last];
      WritersAgreeIff(init);
      if !last.Empty? && Kept(rows) == rows { assert Kept(init) == Kept(rows)[..|init|]; }
    }
  }

  lemma StoresConcat(batching: bool, a: seq<Trace>, b: seq<Trace>)
    ensures Stores(batching, a + b) == Stores(batching, a) + Stores(batching, b)
  {
    KeptConcat(a, b);
  }

  /** Handing over one more trace keeps the account between store, buffer and what was handed over. */
  lemma OneMore(batching: bool, rows: seq<Trace>, buffer: seq<Trace>, enqueued: seq<Trace>, record: Trace)
    requires rows + Stores(batching, buffer) == Stores(batching, enqueued)
    ensures rows + Stores(batching, buffer + [record]) == Stores(batching, enqueued + [record])
  {
    StoresConcat(batching, buffer, [record]);
    StoresConcat(batching, enqueued, [record]);
    Regroup(rows, Stores(batching, buffer), Stores(batching, [record]));
  }

  class Store {
    const batching: bool       // whether the store offers a batch writer
    var rows: seq<Trace>

    constructor (batching: bool)
      ensures this.batching == batching && rows == []
    {
      this.batching := batching;
      rows := [];
    }

    method AppendBatch(batch: seq<Trace>)
      modifies this
      ensures rows == old(rows) + Kept(batch)
    {
      var filled := [];
      for i := 0 to |batch|
        invariant filled == Kept(batch[..i])
      {
        assert batch[..i + 1][..i] == batch[..i];
        if !batch[i].Empty? { filled := filled + [batch[i]]; }
      }
      assert batch[..|batch|] == batch;
      rows := rows + filled;
    }

    method AppendOne(row: Trace)
      modifies this
      ensures rows == old(rows) + [row]
    {
      rows := rows + [row];
    }
  }

  // ----- the writer, one call at a time

  class BatchedTraceWriter {
    const store: Store
    const maxBuffer: int
    var buffer: seq<Trace>
    ghost var enqueued: seq<Trace>    // every trace handed over so far

    /** Nothing is lost but what the batch writer drops, nothing repeated or reordered. */
    ghost predicate Valid()
      reads this, store
    {
      && store.rows + Stores(store.batching, buffer) == Stores(store.batching, enqueued)
      && (buffer == [] || |buffer| < maxBuffer)
    }

    constructor (store: Store, maxBuffer: int)
      requires store.rows == []
      ensures Valid() && this.store == store && this.maxBuffer == maxBuffer && enqueued == []
    {
      this.store, this.maxBuffer, buffer, enqueued := store, maxBuffer, [], [];
    }

    method Enqueue(record: Trace)
      requires Valid()
      modifies this, store
      ensures Valid() && enqueued == old(enqueued) + [record]
      ensures buffer == if |old(buffer)| + 1 >= maxBuffer then [] else old(buffer) + [record]
    {
      OneMore(store.batching, store.rows, buffer, enqueued, record);
      buffer := buffer + [record];
      enqueued := enqueued + [record];
      if |buffer| >= maxBuffer {
        ghost var due := Stores(store.batching, enqueued);
        var _ := FlushLocked();
        assert store.rows == due && Stores(store.batching, []) == [];
        assert store.rows + [] == due;
      }
    }

    method Flush() returns (written: nat)
      requires Valid()
      modifies this, store
      ensures Valid() && buffer == [] && enqueued == old(enqueued) && written == |old(buffer)|
    {
      written := FlushLocked();
    }

    method FlushLocked() returns (written: nat)
      modifies this`buffer, store
      ensures buffer == [] && written == |old(buffer)|
      ensures store.rows == old(store.rows) + Stores(store.batching, old(buffer))
    {
      if buffer == [] { return 0; }
      var batch := buffer;
      buffer := [];
      if store.batching {
        store.AppendBatch(batch);
      } else {
        for i := 0 to |batch|
          invariant store.rows == old(store.rows) + batch[..i]
          invariant buffer == []
        {
          store.AppendOne(batch[i]);
        }
        assert batch[..|batch|] == batch;
      }
      written := |batch|;
    }
  }

  // ----- threads

  /** Where a thread is. Every phase from AddRecord on is inside the critical section. */
  datatype Phase =
    | Outside                                // no call in progress
    | Waiting                                // the flush loop, between flushes
    | Halted                                 // the flush loop, after it saw the stop flag
    | WantEnqueue(record: Trace)             // before taking the lock
    | WantFlush
    | AddRecord(record: Trace)               // about to append
    | CheckFull                              // about to compare the length with the bound
    | CopyBatch                              // about to copy the buffer, or leave if it is empty
    | ClearBuffer(batch: seq<Trace>)         // about to clear
    | Write(rest: seq<Trace>)                // rows still to be written
    | Leave                                  // about to release the lock
  {
    predicate Inside() {
      AddRecord? || CheckFull? || CopyBatch? || ClearBuffer? || Write? || Leave?
    }
  }

  /** The shared fields and the store; `enqueued` is in the order the lock admitted the records. */
  datatype Shared = Shared(buffer: seq<Trace>, stored: seq<Trace>, enqueued: seq<Trace>)

  datatype State = State(phases: map<nat, Phase>, lock: Option<nat>, stopped: bool, shared: Shared)

  /** `loop` is the flush loop's thread; any other thread calls `enqueue`, `flush` or `stop`. */
  datatype Setup = Setup(threads: set<nat>, loop: nat, maxBuffer: int, batching: bool)

  function Start(c: Setup): State {
    State(map t | t in c.threads :: if t == c.loop then Waiting else Outside, None, false, Shared([], [], []))
  }

  /** One read or write of the lock holder inside the critical section. */
  function Work(c: Setup, p: Phase, sh: Shared): (Phase, Shared)
    requires p.Inside() && !p.Leave?
  {
    match p
    case AddRecord(record) =>
      (CheckFull, sh.(buffer := sh.buffer + [record], enqueued := sh.enqueued + [record]))
    case CheckFull => (if |sh.buffer| >= c.maxBuffer then CopyBatch else Leave, sh)
    case CopyBatch => (if sh.buffer == [] then Leave else ClearBuffer(sh.buffer), sh)
    case ClearBuffer(batch) => (Write(batch), sh.(buffer := []))
    case Write(rest) =>
      if rest == [] then (Leave, sh)
      else if c.batching then (Write([]), sh.(stored := sh.stored + Kept(rest)))
      else (Write(rest[1..]), sh.(stored := sh.stored + [rest[0]]))
  }

  /** What a thread may do next outside the critical section, and whether that raises the stop flag. */
  ghost predicate Moves(p: Phase, p': Phase, stopped: bool, stopped': bool) {
    match p
    case Outside => (p'.WantEnqueue? && stopped' == stopped) || (p'.WantFlush? && (stopped' || !stopped))
    case Waiting => p' == (if stopped then Halted else WantFlush) && stopped' == stopped
    case _ => false
  }

  ghost predicate Step(c: Setup, s: State, s': State, t: nat) {
    t in s.phases &&
    var p := s.phases[t];
    if p.Inside() && !p.Leave? then
      var (p', sh') := Work(c, p, s.shared);
      s' == s.(phases := s.phases[t := p'], shared := sh')
    else if p.Leave? then
      s' == s.(lock := None, phases := s.phases[t := if t == c.loop then Waiting else Outside])
    else if p.WantEnqueue? || p.WantFlush? then
      && s.lock.None?
      && s' == s.(lock := Some(t), phases := s.phases[t := if p.WantEnqueue? then AddRecord(p.record) else CopyBatch])
    else
      && t in s'.phases && Moves(p, s'.phases[t], s.stopped, s'.stopped)
      && s' == s.(stopped := s'.stopped, phases := s.phases[t := s'.phases[t]])
  }

  /** A run: consecutive states of any interleaving, from the start. */
  ghost predicate IsRun(c: Setup, run: seq<State>, who: seq<nat>) {
    && |run| == |who| + 1 && run[0] == Start(c)
    && forall i :: 0 <= i < |who| ==> Step(c, run[i], run[i + 1], who[i])
  }

  /** What the lock holder has copied out of the buffer but not written yet. */
  function InFlight(p: Phase): seq<Trace> {
    if p.Write? then p.rest else []
  }

  ghost predicate MutualExclusion(s: State) {
    && (s.lock.Some? ==> s.lock.value in s.phases)
    && forall t :: t in s.phases ==> (s.phases[t].Inside() <==> s.lock == Some(t))
  }

  /** Stored traces, then those in flight, then the buffer: the enqueued ones in lock order. */
  ghost predicate Accounted(c: Setup, p: Phase, sh: Shared) {
    sh.stored + Stores(c.batching, InFlight(p)) + Stores(c.batching, sh.buffer) == Stores(c.batching, sh.enqueued)
  }

  ghost predicate Bounded(c: Setup, sh: Shared) {
    sh.buffer == [] || |sh.buffer| < c.maxBuffer
  }

  /** What a phase of the lock holder says about the buffer. */
  ghost predicate PhaseBound(c: Setup, p: Phase, sh: Shared) {
    match p
    case AddRecord(_) => Bounded(c, sh)
    case ClearBuffer(batch) => batch == sh.buffer
    case Write(_) => sh.buffer == []
    case Leave => Bounded(c, sh)
    case _ => true
  }

  ghost predicate Inv(c: Setup, s: State) {
    && MutualExclusion(s)
    && (s.lock.None? ==> Accounted(c, Outside, s.shared) && Bounded(c, s.shared))
    && (s.lock.Some? ==>
          var p := s.phases[s.lock.value]; Accounted(c, p, s.shared) && PhaseBound(c, p, s.shared))
  }

  /** A step inside the critical section keeps the account. */
  lemma WorkKeepsAccount(c: Setup, p: Phase, sh: Shared)
    requires p.Inside() && !p.Leave?
    requires Accounted(c, p, sh) && PhaseBound(c, p, sh)
    ensures var (p', sh') := Work(c, p, sh); p'.Inside() && Accounted(c, p', sh') && PhaseBound(c, p', sh')
  {
    var stored, kept := sh.stored, Stores(c.batching, sh.buffer);
    match p
    case AddRecord(record) =>
      OneMore(c.batching, stored + [], sh.buffer, sh.enqueued, record);
    case CheckFull =>
    case CopyBatch =>
    case ClearBuffer(batch) =>
      assert stored + [] + kept == stored + kept + [];
    case Write(rest) =>
      if rest != [] && c.batching {
        assert stored + Kept(rest) + [] == (stored + Kept(rest)) + [] + [];
      } else if rest != [] {
        assert rest == [rest[0]] + rest[1..];
        assert stored + rest + [] == (stored + [rest[0]]) + rest[1..] + [];
      }
  }

  lemma InvStep(c: Setup, s: State, s': State, t: nat)
    requires Inv(c, s) && Step(c, s, s', t)
    ensures Inv(c, s')
  {
    var p := s.phases[t];
    if p.Inside() && !p.Leave? {
      WorkKeepsAccount(c, p, s.shared);
    }
  }

  /**
   * Main result, for every interleaving of any number of enqueuers, flushers, stoppers and the flush loop:
   * whenever the lock is free, the store followed by the buffer is what was enqueued, in lock order, and the buffer
   * is within its bound. Only empty traces are dropped, and only by a batching store.
   */
  lemma {:induction false} NothingLostInAnyInterleaving(c: Setup, run: seq<State>, who: seq<nat>)
    requires IsRun(c, run, who)
    ensures Inv(c, run[|who|])
    ensures run[|who|].lock.None? ==> InOrder(c, run[|who|].shared)
  {
    var n := |who|;
    if n > 0 {
      RunPrefix(c, run, who);
      NothingLostInAnyInterleaving(c, run[..n], who[..n - 1]);
      assert run[..n][n - 1] == run[n - 1];
      InvStep(c, run[n - 1], run[n], who[n - 1]);
    }
    if run[n].lock.None? { FreeInOrder(c, run[n].shared); }
  }

  /** The store followed by the buffer is what was enqueued, and the buffer is within its bound. */
  ghost predicate InOrder(c: Setup, sh: Shared) {
    && sh.stored + Stores(c.batching, sh.buffer) == Stores(c.batching, sh.enqueued)
    && (sh.buffer == [] || |sh.buffer| < c.maxBuffer)
  }

  lemma FreeInOrder(c: Setup, sh: Shared)
    requires Accounted(c, Outside, sh) && Bounded(c, sh)
    ensures InOrder(c, sh)
  {
    assert Stores(c.batching, []) == [];
    assert sh.stored + [] == sh.stored;
  }

  lemma RunPrefix(c: Setup, run: seq<State>, who: seq<nat>)
    requires IsRun(c, run, who) && who != []
    ensures IsRun(c, run[..|who|], who[..|who| - 1])
  {
    var n := |who|;
    forall i | 0 <= i < n - 1 ensures Step(c, run[..n][i], run[..n][i + 1], who[..n - 1][i]) {
      assert Step(c, run[i], run[i + 1], who[i]);
    }
  }

  // ----- the critical section as a whole

  /** Steps that `Work` still takes before it leaves, besides writing rows. */
  function StepsLeft(p: Phase): nat {
    match p
    case AddRecord(_) => 5
    case CheckFull => 4
    case CopyBatch => 3
    case ClearBuffer(_) => 2
    case Write(_) => 1
    case _ => 0
  }

  /** The shared fields when the lock holder, working on from a phase, leaves. */
  function Through(c: Setup, p: Phase, sh: Shared): Shared
    requires p.Inside()
    decreases StepsLeft(p), |InFlight(p)|
  {
    if p.Leave? then sh
    else
      var (p', sh') := Work(c, p, sh);
      Through(c, p', sh')
  }

  lemma {:induction false} WriteThrough(c: Setup, rest: seq<Trace>, sh: Shared)
    ensures Through(c, Write(rest), sh) == sh.(stored := sh.stored + Stores(c.batching, rest))
    decreases |rest|
  {
    if rest == [] {
      assert sh.stored + [] == sh.stored;
    } else if c.batching {
      assert Through(c, Write([]), sh.(stored := sh.stored + Kept(rest))) == sh.(stored := sh.stored + Kept(rest));
    } else {
      WriteThrough(c, rest[1..], sh.(stored := sh.stored + [rest[0]]));
      assert rest == [rest[0]] + rest[1..];
      assert sh.stored + rest == sh.stored + [rest[0]] + rest[1..];
    }
  }

  /** Step by step, a flush does what the method does: the whole buffer moves to the store. */
  lemma FlushThrough(c: Setup, sh: Shared)
    ensures Through(c, CopyBatch, sh) == sh.(buffer := [], stored := sh.stored + Stores(c.batching, sh.buffer))
  {
    if sh.buffer == [] {
      assert sh.stored + [] == sh.stored;
    } else {
      WriteThrough(c, sh.buffer, sh.(buffer := []));
      assert Through(c, ClearBuffer(sh.buffer), sh) == Through(c, Write(sh.buffer), sh.(buffer := []));
    }
  }

  /** So does an enqueue: the record joins the buffer, which moves to the store when it is full. */
  lemma EnqueueThrough(c: Setup, record: Trace, sh: Shared)
    ensures var more, enqueued := sh.buffer + [record], sh.enqueued + [record];
      Through(c, AddRecord(record), sh) ==
        if |more| >= c.maxBuffer then Shared([], sh.stored + Stores(c.batching, more), enqueued)
        else Shared(more, sh.stored, enqueued)
  {
    var added := sh.(buffer := sh.buffer + [record], enqueued := sh.enqueued + [record]);
    assert Through(c, AddRecord(record), sh) == Through(c, CheckFull, added);
    FlushThrough(c, added);
  }

  /** The flush loop only flushes, until it halts for good, and only under the stop flag; no other thread is it. */
  ghost predicate Roles(c: Setup, s: State) {
    forall t :: t in s.phases ==>
      var p := s.phases[t];
      if t == c.loop then !p.Outside? && !p.WantEnqueue? && !p.AddRecord? && !p.CheckFull? && (p.Halted? ==> s.stopped)
      else !p.Waiting? && !p.Halted?
  }

  lemma RolesStep(c: Setup, s: State, s': State, t: nat)
    requires Roles(c, s) && Step(c, s, s', t)
    ensures Roles(c, s') && s'.phases.Keys == s.phases.Keys && (s.stopped ==> s'.stopped)
    ensures s.phases[t] != Halted && (t == c.loop && s.stopped ==> !s'.phases[t].WantFlush?)
    ensures s'.stopped && !s.stopped ==> Raises(c, s, s', t)
  {
  }

  /** A caller raises the stop flag on its way into a flush. */
  ghost predicate Raises(c: Setup, s: State, s': State, t: nat) {
    !s.stopped && s'.stopped && t != c.loop && t in s'.phases && s'.phases[t].WantFlush?
  }

  /** The stop flag is never up but for a caller who then flushes, so what is pending at a stop is written. */
  lemma {:induction false} StopFlushes(c: Setup, run: seq<State>, who: seq<nat>) returns (i: nat)
    requires IsRun(c, run, who) && run[|who|].stopped
    ensures i < |who| && Raises(c, run[i], run[i + 1], who[i])
  {
    var n := |who|;
    assert n > 0;
    i := n - 1;
    RunPrefix(c, run, who);
    assert Step(c, run[i], run[i + 1], who[i]) && run[..n][i] == run[i];
    if run[i].stopped {
      i := StopFlushes(c, run[..n], who[..n - 1]);
      assert run[..n][i] == run[i] && run[..n][i + 1] == run[i + 1];
    } else {
      RolesKept(c, run[..n], who[..n - 1]);
      RolesStep(c, run[i], run[i + 1], who[i]);
    }
  }

  /** In every run the threads keep their roles, none is lost, and the loop takes no step once it has halted. */
  lemma {:induction false} RolesKept(c: Setup, run: seq<State>, who: seq<nat>)
    requires IsRun(c, run, who)
    ensures Roles(c, run[|who|]) && run[|who|].phases.Keys == c.threads
  {
    var n := |who|;
    if n > 0 {
      RunPrefix(c, run, who);
      RolesKept(c, run[..n], who[..n - 1]);
      assert run[..n][n - 1] == run[n - 1];
      RolesStep(c, run[n - 1], run[n], who[n - 1]);
    }
  }

  /** Two threads are never inside the critical section together. */
  lemma AtMostOneInside(c: Setup, run: seq<State>, who: seq<nat>, t: nat, u: nat)
    requires IsRun(c, run, who)
    requires t in run[|who|].phases && u in run[|who|].phases
    requires run[|who|].phases[t].Inside() && run[|who|].phases[u].Inside()
    ensures t == u
  {
    NothingLostInAnyInterleaving(c, run, who);
  }
}
