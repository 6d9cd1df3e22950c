/** The exporter's fan-in: one dispatcher starts fetch workers up to a limit, workers
    send batches into a channel as large as the limit, the dispatcher waits for them
    and closes it, and one consumer drains it. Steps of all parties interleave freely. */
module FanIn {

  /** What fetching from a collector pod comes to. Decided per pod, so that every run
      below is about every combination of outcomes. */
  datatype Outcome = NoURL | FetchFails | EmptyBatch | Batch

  /** Life of the fetch for one pod: not dispatched, fetching, about to send, returning
      from the goroutine, and gone (its slot released). */
  datatype Worker = Waiting | Fetching | Sending | Returning | Gone

  /** Pods are named by their index. `queue` is the channel, `received` what the
      consumer took out of it, `stopped` the end of the consumer's range loop. */
  datatype State = State(workers: seq<Worker>, next: nat, queue: seq<nat>, closed: bool, received: seq<nat>, stopped: bool)

  function Start(outcomes: seq<Outcome>): State {
    State(seq(|outcomes|, i => Waiting), 0, [], false, [], false)
  }

  predicate Active(w: Worker) {
    w == Fetching || w == Sending || w == Returning
  }

  function Count(ws: seq<Worker>): nat {
    if |ws| == 0 then 0 else Count(ws[..|ws| - 1]) + if Active(ws[|ws| - 1]) then 1 else 0
  }

  // ---------- steps ----------

  datatype Step = Dispatch | Fetched(i: nat) | Send(i: nat) | Leave(i: nat) | Close | Receive | Stop

  /** When a step can be taken. Dispatching a pod that has a URL blocks at the limit,
      sending blocks on a full channel, and closing waits for every worker. */
  predicate Enabled(outcomes: seq<Outcome>, limit: nat, n: State, st: Step) {
    match st
    case Dispatch => n.next < |outcomes| && n.next < |n.workers| && (outcomes[n.next] == NoURL || Count(n.workers) < limit)
    case Fetched(i) => i < |n.workers| && i < |outcomes| && n.workers[i] == Fetching
    case Send(i) => i < |n.workers| && n.workers[i] == Sending && |n.queue| < limit
    case Leave(i) => i < |n.workers| && n.workers[i] == Returning
    case Close => n.next == |outcomes| && Count(n.workers) == 0 && !n.closed
    case Receive => |n.queue| > 0 && !n.stopped
    case Stop => n.closed && |n.queue| == 0 && !n.stopped
  }

  function Take(outcomes: seq<Outcome>, limit: nat, n: State, st: Step): State
    requires Enabled(outcomes, limit, n, st)
  {
    match st
    case Dispatch =>
      n.(workers := n.workers[n.next := if outcomes[n.next] == NoURL then Gone else Fetching], next := n.next + 1)
    case Fetched(i) => n.(workers := n.workers[i := if outcomes[i] == Batch then Sending else Returning])
    case Send(i) => n.(workers := n.workers[i := Returning], queue := n.queue + [i])
    case Leave(i) => n.(workers := n.workers[i := Gone])
    case Close => n.(closed := true)
    case Receive => n.(queue := n.queue[1..], received := n.received + [n.queue[0]])
    case Stop => n.(stopped := true)
  }

  /** `trace` is a run of the protocol from its start. */
  ghost predicate IsRun(outcomes: seq<Outcome>, limit: nat, steps: seq<Step>, trace: seq<State>) {
    && |trace| == |steps| + 1 && trace[0] == Start(outcomes)
    && forall k :: 0 <= k < |steps| ==>
      Enabled(outcomes, limit, trace[k], steps[k]) && trace[k + 1] == Take(outcomes, limit, trace[k], steps[k])
  }

  // ---------- invariant ----------

  /** Whether pod `i`'s batch has been put on the channel. */
  predicate Sent(outcomes: seq<Outcome>, n: State, i: nat)
    requires i < |outcomes| == |n.workers|
  {
    outcomes[i] == Batch && (n.workers[i] == Returning || n.workers[i] == Gone)
  }

  ghost predicate WorkersOk(outcomes: seq<Outcome>, n: State) {
    && |n.workers| == |outcomes| && n.next <= |outcomes|
    && (forall i :: n.next <= i < |outcomes| ==> n.workers[i] == Waiting)
    && (forall i :: 0 <= i < n.next ==> n.workers[i] != Waiting)
    && (forall i :: 0 <= i < n.next && n.workers[i] == Sending ==> outcomes[i] == Batch)
    && (forall i :: 0 <= i < n.next && outcomes[i] == NoURL ==> n.workers[i] == Gone)
  }

  ghost predicate Inv(outcomes: seq<Outcome>, limit: nat, n: State) {
    && WorkersOk(outcomes, n)
    && Count(n.workers) <= limit && |n.queue| <= limit
    && (n.closed ==> n.next == |outcomes| && Count(n.workers) == 0)
    && (n.stopped ==> n.closed && n.queue == [])
    && (forall i :: 0 <= i < |outcomes| ==>
         multiset(n.received + n.queue)[i] == if Sent(outcomes, n, i) then 1 else 0)
    && (forall i :: i in n.received + n.queue ==> i < |outcomes|)
  }

  lemma {:induction false} CountUpdate(ws: seq<Worker>, i: nat, w: Worker)
    requires i < |ws|
    ensures Count(ws[i := w]) + (if Active(ws[i]) then 1 else 0) == Count(ws) + if Active(w) then 1 else 0
  {
    if i == |ws| - 1 {
      assert ws[i := w][..i] == ws[..i];
    } else {
      var last := |ws| - 1;
      assert ws[i := w][..last] == ws[..last][i := w];
      CountUpdate(ws[..last], i, w);
    }
  }

  lemma {:induction false} CountZero(ws: seq<Worker>)
    ensures Count(ws) == 0 <==> forall i :: 0 <= i < |ws| ==> !Active(ws[i])
  {
    if |ws| > 0 {
      CountZero(ws[..|ws| - 1]);
      assert forall i :: 0 <= i < |ws| - 1 ==> ws[..|ws| - 1][i] == ws[i];
    }
  }

  lemma StartInv(outcomes: seq<Outcome>, limit: nat)
    ensures Inv(outcomes, limit, Start(outcomes))
  {
    CountZero(Start(outcomes).workers);
  }

  lemma WorkerStepInv(outcomes: seq<Outcome>, limit: nat, n: State, st: Step)
    requires Inv(outcomes, limit, n) && Enabled(outcomes, limit, n, st)
    requires st.Dispatch? || st.Fetched? || st.Leave?
    ensures Inv(outcomes, limit, Take(outcomes, limit, n, st))
  {
    var t := Take(outcomes, limit, n, st);
    var i := if st.Dispatch? then n.next else st.i;
    CountUpdate(n.workers, i, t.workers[i]);
    assert t.workers == n.workers[i := t.workers[i]];
    if n.closed {
      CountZero(n.workers);
    }
  }

  lemma SendInv(outcomes: seq<Outcome>, limit: nat, n: State, i: nat)
    requires Inv(outcomes, limit, n) && Enabled(outcomes, limit, n, Send(i))
    ensures !n.closed && Inv(outcomes, limit, Take(outcomes, limit, n, Send(i)))
  {
    var t := Take(outcomes, limit, n, Send(i));
    CountUpdate(n.workers, i, Returning);
    CountZero(n.workers);
    assert t.received + t.queue == (n.received + n.queue) + [i];
  }

  lemma ReceiveInv(outcomes: seq<Outcome>, limit: nat, n: State)
    requires Inv(outcomes, limit, n) && Enabled(outcomes, limit, n, Receive)
    ensures Inv(outcomes, limit, Take(outcomes, limit, n, Receive))
  {
    var t := Take(outcomes, limit, n, Receive);
    assert t.received + t.queue == n.received + n.queue;
  }

  /** Every step keeps the invariant, and no batch is sent on a closed channel. */
  lemma StepInv(outcomes: seq<Outcome>, limit: nat, n: State, st: Step)
    requires Inv(outcomes, limit, n) && Enabled(outcomes, limit, n, st)
    ensures Inv(outcomes, limit, Take(outcomes, limit, n, st))
    ensures st.Send? ==> !n.closed
  {
    match st
    case Send(i) => SendInv(outcomes, limit, n, i);
    case Receive => ReceiveInv(outcomes, limit, n);
    case Close =>
    case Stop =>
    case _ => WorkerStepInv(outcomes, limit, n, st);
  }

  /** Safety, in every reachable state of every interleaving: at most `limit` workers
      run and at most `limit` batches are buffered, the channel is closed only after
      every worker has gone, and every batch sent is received or queued exactly once. */
  lemma {:induction false} RunInv(outcomes: seq<Outcome>, limit: nat, steps: seq<Step>, trace: seq<State>, k: nat)
    requires IsRun(outcomes, limit, steps, trace) && k < |trace|
    ensures Inv(outcomes, limit, trace[k])
  {
    if k == 0 {
      StartInv(outcomes, limit);
    } else {
      RunInv(outcomes, limit, steps, trace, k - 1);
      StepInv(outcomes, limit, trace[k - 1], steps[k - 1]);
    }
  }

  // ---------- termination ----------

  function Rank(w: Worker): nat {
    match w
    case Waiting => 5
    case Fetching => 4
    case Sending => 3
    case Returning => 1
    case Gone => 0
  }

  function Ranks(ws: seq<Worker>): nat {
    if |ws| == 0 then 0 else Ranks(ws[..|ws| - 1]) + Rank(ws[|ws| - 1])
  }

  function Measure(n: State): nat {
    Ranks(n.workers) + |n.queue| + (if n.closed then 0 else 1) + (if n.stopped then 0 else 1)
  }

  lemma {:induction false} RanksUpdate(ws: seq<Worker>, i: nat, w: Worker)
    requires i < |ws|
    ensures Ranks(ws[i := w]) + Rank(ws[i]) == Ranks(ws) + Rank(w)
  {
    if i == |ws| - 1 {
      assert ws[i := w][..i] == ws[..i];
    } else {
      var last := |ws| - 1;
      assert ws[i := w][..last] == ws[..last][i := w];
      RanksUpdate(ws[..last], i, w);
    }
  }

  lemma {:induction false} RanksWaiting(ws: seq<Worker>)
    requires forall i :: 0 <= i < |ws| ==> ws[i] == Waiting
    ensures Ranks(ws) == 5 * |ws|
  {
    if |ws| > 0 {
      RanksWaiting(ws[..|ws| - 1]);
    }
  }

  lemma StepDescends(outcomes: seq<Outcome>, limit: nat, n: State, st: Step)
    requires Inv(outcomes, limit, n) && Enabled(outcomes, limit, n, st)
    ensures Measure(Take(outcomes, limit, n, st)) < Measure(n)
  {
    var t := Take(outcomes, limit, n, st);
    if st.Dispatch? || st.Fetched? || st.Send? || st.Leave? {
      var i := if st.Dispatch? then n.next else st.i;
      RanksUpdate(n.workers, i, t.workers[i]);
      assert t.workers == n.workers[i := t.workers[i]];
    }
  }

  /** Termination: no interleaving takes more than five steps per pod plus two. */
  lemma {:induction false} RunsAreShort(outcomes: seq<Outcome>, limit: nat, steps: seq<Step>, trace: seq<State>, k: nat)
    requires IsRun(outcomes, limit, steps, trace) && k < |trace|
    ensures k + Measure(trace[k]) <= 5 * |outcomes| + 2
  {
    if k == 0 {
      RanksWaiting(Start(outcomes).workers);
    } else {
      RunsAreShort(outcomes, limit, steps, trace, k - 1);
      RunInv(outcomes, limit, steps, trace, k - 1);
      StepDescends(outcomes, limit, trace[k - 1], steps[k - 1]);
    }
  }

  // ---------- no deadlock, exactly-once delivery ----------

  /** The dispatcher never has to wait for a slot that no one can free. */
  predicate Viable(outcomes: seq<Outcome>, limit: nat) {
    limit > 0 || forall i :: 0 <= i < |outcomes| ==> outcomes[i] == NoURL
  }

  /** Some step can be taken until the consumer has stopped. */
  lemma Progress(outcomes: seq<Outcome>, limit: nat, n: State) returns (st: Step)
    requires Inv(outcomes, limit, n) && Viable(outcomes, limit) && !n.stopped
    ensures Enabled(outcomes, limit, n, st)
  {
    CountZero(n.workers);
    if i :| 0 <= i < |n.workers| && n.workers[i] == Fetching {
      st := Fetched(i);
    } else if i :| 0 <= i < |n.workers| && n.workers[i] == Returning {
      st := Leave(i);
    } else if i :| 0 <= i < |n.workers| && n.workers[i] == Sending {
      st := if |n.queue| < limit then Send(i) else Receive;
    } else if n.next < |outcomes| {
      st := Dispatch;
    } else if !n.closed {
      st := Close;
    } else {
      st := if |n.queue| > 0 then Receive else Stop;
    }
  }

  /** The consumer has received every fetched non-empty batch exactly once and nothing else. */
  ghost predicate DeliversAll(outcomes: seq<Outcome>, n: State) {
    forall i: nat :: multiset(n.received)[i] == if i < |outcomes| && outcomes[i] == Batch then 1 else 0
  }

  /** When the consumer has stopped it has received every fetched non-empty batch exactly
      once and nothing else. */
  lemma StoppedHasAll(outcomes: seq<Outcome>, limit: nat, n: State)
    requires Inv(outcomes, limit, n) && n.stopped
    ensures DeliversAll(outcomes, n)
  {
    CountZero(n.workers);
    assert n.received + n.queue == n.received;
    forall i: nat
      ensures multiset(n.received)[i] == if i < |outcomes| && outcomes[i] == Batch then 1 else 0
    {
      if i < |outcomes| {
        assert n.workers[i] == Gone;
      } else {
        assert i !in n.received + n.queue;
      }
    }
  }

  /** A run that cannot be continued has ended properly, the consumer stopped with every
      fetched non-empty batch exactly once, if and only if the limit is positive or no
      pod has a URL. */
  lemma EveryBatchExactlyOnce(outcomes: seq<Outcome>, limit: nat, steps: seq<Step>, trace: seq<State>)
    requires IsRun(outcomes, limit, steps, trace)
    requires forall st :: !Enabled(outcomes, limit, trace[|steps|], st)
    ensures trace[|steps|].stopped <==> Viable(outcomes, limit)
    ensures trace[|steps|].stopped ==> DeliversAll(outcomes, trace[|steps|])
  {
    var n := trace[|steps|];
    RunInv(outcomes, limit, steps, trace, |steps|);
    if n.stopped {
      StoppedHasAll(outcomes, limit, n);
    }
    if Viable(outcomes, limit) {
      if !n.stopped {
        var st := Progress(outcomes, limit, n);
      }
    } else {
      var pod :| 0 <= pod < |outcomes| && outcomes[pod] != NoURL;
      ZeroLimitBlocks(outcomes, steps, trace, pod, |steps|);
    }
  }

  /** With a limit of zero a single pod with a URL blocks the dispatcher for good: no
      interleaving closes the channel, so the consumer waits forever. */
  lemma {:induction false} ZeroLimitBlocks(outcomes: seq<Outcome>, steps: seq<Step>, trace: seq<State>, pod: nat, k: nat)
    requires IsRun(outcomes, 0, steps, trace) && k < |trace|
    requires pod < |outcomes| && outcomes[pod] != NoURL
    ensures trace[k].next <= pod && !trace[k].closed && !trace[k].stopped
  {
    if k > 0 {
      ZeroLimitBlocks(outcomes, steps, trace, pod, k - 1);
    }
  }

  // ---------- the configured limit ----------

  /** How an export begins: without collector pods it returns at once; otherwise making
      the channel panics for a negative size. */
  datatype Beginning = NothingToDo | Panics | Begins(limit: nat)

  function Begin(outcomes: seq<Outcome>, limit: int): Beginning {
    if |outcomes| == 0 then NothingToDo else if limit < 0 then Panics else Begins(limit)
  }

  /** Loading the configuration replaces an absent or zero limit by 20 and keeps a
      negative one. */
  function LoadedLimit(configured: int): int {
    if configured == 0 then 20 else configured
  }

  /** Under a loaded configuration an export panics exactly when the configured limit is
      negative and there is a collector pod; otherwise every run that cannot be
      continued has delivered everything. A zero limit reaches an exporter only when
      it is constructed without loading. */
  lemma LoadedLimitDelivers(outcomes: seq<Outcome>, configured: int, steps: seq<Step>, trace: seq<State>)
    ensures Begin(outcomes, LoadedLimit(configured)).Panics? <==> configured < 0 && |outcomes| > 0
    ensures Begin(outcomes, LoadedLimit(configured)).Begins? ==>
      Begin(outcomes, LoadedLimit(configured)).limit == if configured == 0 then 20 else configured
    ensures Begin(outcomes, LoadedLimit(configured)).Begins? ==>
      var limit := Begin(outcomes, LoadedLimit(configured)).limit;
      IsRun(outcomes, limit, steps, trace) && (forall st :: !Enabled(outcomes, limit, trace[|steps|], st)) ==>
        trace[|steps|].stopped && DeliversAll(outcomes, trace[|steps|])
  {
    var b := Begin(outcomes, LoadedLimit(configured));
    if b.Begins? && IsRun(outcomes, b.limit, steps, trace) && forall st :: !Enabled(outcomes, b.limit, trace[|steps|], st) {
      EveryBatchExactlyOnce(outcomes, b.limit, steps, trace);
    }
  }
}
