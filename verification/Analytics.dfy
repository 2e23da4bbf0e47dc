/** The analytics pipeline: request handlers record events into a bounded channel, one loop moves them to a
  * buffer and hands the buffer to the ClickHouse writer in batches. A batch belongs to the writer once it is
  * handed over; what the writer then loses is lost.
  */
module Analytics {
  datatype Event = Event(projectId: nat, tunnelId: nat, verb: string, path: string, status: int, durationMs: int,
                         receivedAt: int)

  /** A row of request_events: the status in 16 bits, the duration in 32. */
  datatype Row = Row(projectId: nat, tunnelId: nat, verb: string, path: string, status: int, durationMs: int,
                     receivedAt: int)

  const CAPACITY := 1024
  const BATCH := 500

  /** What happens to one batch: whether it is prepared, the positions at which appending fails, whether it is sent. */
  datatype Writer = Writer(prepares: bool, rejects: set<nat>, sends: bool)

  datatype Step = Record(e: Event) | Receive(w: Writer) | Tick(w: Writer) | Stop(w: Writer)

  /** The store: `ch` in channel order, `batches` handed over so far, `rows` in the table. */
  datatype Queue = Queue(enabled: bool, stopped: bool, buf: seq<Event>, ch: seq<Event>, batches: seq<seq<Event>>,
                         rows: seq<Row>)

  function ToRow(e: Event): Row {
    Row(e.projectId, e.tunnelId, e.verb, e.path, e.status % 0x1_0000, e.durationMs % 0x1_0000_0000, e.receivedAt)
  }

  /** The rows appended from a batch. */
  function Appended(batch: seq<Event>, rejects: set<nat>): seq<Row> {
    if batch == [] then []
    else
      var n := |batch| - 1;
      Appended(batch[..n], rejects) + if n in rejects then [] else [ToRow(batch[n])]
  }

  function Written(batch: seq<Event>, w: Writer): seq<Row> {
    if w.prepares && w.sends then Appended(batch, w.rejects) else []
  }

  function Flushed(q: Queue, w: Writer): Queue {
    if q.buf == [] then q
    else q.(buf := [], batches := q.batches + [q.buf], rows := q.rows + Written(q.buf, w))
  }

  /** One event of the pipeline; the loop does nothing when it has stopped or finds the channel empty. */
  function Next(q: Queue, s: Step): Queue {
    if !q.enabled then q
    else match s
      case Record(e) => if |q.ch| < CAPACITY then q.(ch := q.ch + [e]) else q
      case Receive(w) =>
        if q.stopped || q.ch == [] then q
        else
          var r := q.(buf := q.buf + [q.ch[0]], ch := q.ch[1..]);
          if |r.buf| >= BATCH then Flushed(r, w) else r
      case Tick(w) => if q.stopped then q else Flushed(q, w)
      case Stop(w) => if q.stopped then q else Flushed(q, w).(stopped := true)
  }

  function After(q: Queue, steps: seq<Step>): Queue {
    if steps == [] then q else Next(After(q, steps[..|steps| - 1]), steps[|steps| - 1])
  }

  const OPENED := Queue(true, false, [], [], [], [])

  // ---- The store in place -----------------------------------------------------------------

  class Store {
    const enabled: bool
    var stopped: bool
    var buf: seq<Event>
    var ch: seq<Event>
    var batches: seq<seq<Event>>
    var rows: seq<Row>

    ghost function View(): Queue
      reads this
    {
      Queue(enabled, stopped, buf, ch, batches, rows)
    }

    constructor (enabled: bool)
      ensures View() == OPENED.(enabled := enabled)
    {
      this.enabled, stopped, buf, ch, batches, rows := enabled, false, [], [], [], [];
    }

    method Record(e: Event)
      modifies this
      ensures View() == Next(old(View()), Step.Record(e))
    {
      if !enabled { return; }
      if |ch| < CAPACITY { ch := ch + [e]; }
    }

    method Flush(w: Writer)
      modifies this`buf, this`batches, this`rows
      ensures View() == Flushed(old(View()), w)
    {
      if |buf| == 0 { return; }
      var batch := buf;
      buf := [];
      batches := batches + [batch];
      if !w.prepares { return; }
      var pending: seq<Row> := [];
      var i := 0;
      while i < |batch|
        invariant 0 <= i <= |batch|
        invariant pending == Appended(batch[..i], w.rejects)
      {
        if i !in w.rejects { pending := pending + [ToRow(batch[i])]; }
        assert batch[..i + 1][..i] == batch[..i];
        i := i + 1;
      }
      assert batch[..i] == batch;
      if w.sends { rows := rows + pending; }
    }

    /** One turn of the loop, with the select's chosen case. */
    method Turn(s: Step)
      requires enabled && !s.Record?
      modifies this
      ensures View() == Next(old(View()), s)
    {
      if stopped { return; }
      match s
      case Receive(w) =>
        if |ch| == 0 { return; }
        buf := buf + [ch[0]];
        ch := ch[1..];
        if |buf| >= BATCH { Flush(w); }
      case Tick(w) => Flush(w);
      case Stop(w) =>
        Flush(w);
        stopped := true;
    }
  }

  // ---- Conservation -----------------------------------------------------------------------

  /** How many events wait in the channel, by counting alone. */
  function Backlog(steps: seq<Step>): nat {
    if steps == [] then 0
    else
      var n := |steps| - 1;
      var b := Backlog(steps[..n]);
      match steps[n]
      case Record(_) => if b < 1024 then b + 1 else b
      case Receive(_) => if b == 0 || StopsIn(steps[..n]) then b else b - 1
      case _ => b
  }

  predicate StopsIn(steps: seq<Step>) {
    exists k :: 0 <= k < |steps| && steps[k].Stop?
  }

  /** The recorded events that found room: all but those recorded while 1024 were waiting. */
  function Accepted(steps: seq<Step>): seq<Event> {
    if steps == [] then []
    else
      var n := |steps| - 1;
      Accepted(steps[..n]) + if steps[n].Record? && Backlog(steps[..n]) < 1024 then [steps[n].e] else []
  }

  function Concat<T>(batches: seq<seq<T>>): seq<T> {
    if batches == [] then [] else Concat(batches[..|batches| - 1]) + batches[|batches| - 1]
  }

  ghost predicate Bounded(q: Queue) {
    && |q.ch| <= 1024 && |q.buf| < 500
    && forall k | 0 <= k < |q.batches| :: 1 <= |q.batches[k]| <= 500
  }

  /** Everything the store holds or has handed over, in order. */
  function Content(q: Queue): seq<Event> {
    Concat(q.batches) + q.buf + q.ch
  }

  lemma FlushKeepsContent(q: Queue, w: Writer)
    ensures Content(Flushed(q, w)) == Content(q)
  {
  }

  lemma StepContent(q: Queue, s: Step)
    requires q.enabled && Bounded(q)
    ensures Bounded(Next(q, s))
    ensures Content(Next(q, s)) == Content(q) + if s.Record? && |q.ch| < CAPACITY then [s.e] else []
    ensures |Next(q, s).ch| == |q.ch|
      + (if s.Record? && |q.ch| < CAPACITY then 1 else if s.Receive? && !q.stopped && q.ch != [] then -1 else 0)
  {
    match s
    case Record(e) => assert Content(q) + [e] == Concat(q.batches) + q.buf + (q.ch + [e]);
    case Receive(w) =>
      if !q.stopped && q.ch != [] {
        var r := q.(buf := q.buf + [q.ch[0]], ch := q.ch[1..]);
        assert [q.ch[0]] + q.ch[1..] == q.ch;
        assert Concat(q.batches) + (q.buf + [q.ch[0]]) + q.ch[1..] == Concat(q.batches) + q.buf
          + ([q.ch[0]] + q.ch[1..]);
        FlushKeepsContent(r, w);
      }
    case Tick(w) => FlushKeepsContent(q, w);
    case Stop(w) => FlushKeepsContent(q, w);
  }

  lemma {:induction false} StoppedIffStopped(steps: seq<Step>)
    ensures After(OPENED, steps).enabled && (After(OPENED, steps).stopped <==> StopsIn(steps))
  {
    if steps != [] {
      var n := |steps| - 1;
      StoppedIffStopped(steps[..n]);
      assert StopsIn(steps) <==> StopsIn(steps[..n]) || steps[n].Stop? by {
        if StopsIn(steps[..n]) {
          var k :| 0 <= k < n && steps[..n][k].Stop?;
          assert steps[k].Stop?;
        }
        if StopsIn(steps) && !steps[n].Stop? {
          var k :| 0 <= k < |steps| && steps[k].Stop?;
          assert steps[..n][k].Stop?;
        }
      }
    }
  }

  /** In every run of handlers and loop: the batches handed over, then the buffer, then the channel are exactly the
    * accepted events in order, none lost and none repeated; fewer than 500 are buffered, 1 to 500 are in a batch. */
  lemma {:induction false} FifoConservation(steps: seq<Step>)
    ensures Content(After(OPENED, steps)) == Accepted(steps)
    ensures Bounded(After(OPENED, steps)) && |After(OPENED, steps).ch| == Backlog(steps)
  {
    if steps != [] {
      var n := |steps| - 1;
      hide Next, Content, Bounded;
      FifoConservation(steps[..n]);
      StoppedIffStopped(steps[..n]);
      StepContent(After(OPENED, steps[..n]), steps[n]);
    }
  }

  /** A tick leaves nothing in the buffer: at the end of every run that ends with one, every accepted event that is not
    * still in the channel has been handed over, so none waits in the buffer for longer than until the next tick. */
  lemma TickHandsOver(steps: seq<Step>)
    requires steps != [] && steps[|steps| - 1].Tick?
    ensures var q := After(OPENED, steps); q.buf == [] && Accepted(steps) == Concat(q.batches) + q.ch
  {
    hide After, Next, Accepted, Bounded, Concat;
    FifoConservation(steps);
    LastTickEmpties(steps);
    assert Content(After(OPENED, steps)) == Accepted(steps);
  }

  lemma LastTickEmpties(steps: seq<Step>)
    requires steps != [] && steps[|steps| - 1].Tick?
    ensures After(OPENED, steps).buf == []
  {
    StoppedIffStopped(steps[..|steps| - 1]);
    StoppedHasNoBuffer(steps[..|steps| - 1]);
    hide Bounded;
  }

  /** Taking an event from the channel hands over a batch exactly when it is the five hundredth in the buffer; otherwise
    * the event only joins the buffer. A loop that has stopped, or finds the channel empty, takes nothing. */
  lemma ReceiveHandsOver(steps: seq<Step>)
    requires steps != [] && steps[|steps| - 1].Receive?
    ensures var was, now := After(OPENED, steps[..|steps| - 1]), After(OPENED, steps);
      if was.stopped || was.ch == [] then now == was
      else
        && now.ch == was.ch[1..] && now.stopped == was.stopped
        && (if |was.buf| == 499 then now.buf == [] && now.batches == was.batches + [was.buf + [was.ch[0]]]
            else now.buf == was.buf + [was.ch[0]] && now.batches == was.batches && now.rows == was.rows)
  {
    var n := |steps| - 1;
    FifoConservation(steps[..n]);
    StoppedIffStopped(steps[..n]);
    hide Content;
  }

  /** A store without a connection takes no event and writes no row. */
  lemma {:induction false} DisabledIsInert(steps: seq<Step>)
    ensures After(OPENED.(enabled := false), steps) == OPENED.(enabled := false)
  {
    if steps != [] { DisabledIsInert(steps[..|steps| - 1]); }
  }

  lemma {:induction false} StoppedHasNoBuffer(steps: seq<Step>)
    ensures After(OPENED, steps).stopped ==> After(OPENED, steps).buf == []
  {
    if steps != [] { StoppedHasNoBuffer(steps[..|steps| - 1]); }
  }

  lemma {:induction false} StoppedHandsOverNothing(q: Queue, later: seq<Step>)
    requires q.stopped
    ensures After(q, later).stopped && After(q, later).batches == q.batches && q.ch <= After(q, later).ch
  {
    if later != [] { StoppedHandsOverNothing(q, later[..|later| - 1]); }
  }

  lemma {:induction false} AfterConcat(q: Queue, first: seq<Step>, second: seq<Step>)
    ensures After(q, first + second) == After(After(q, first), second)
    decreases |second|
  {
    if second == [] {
      assert first + second == first;
    } else {
      assert (first + second)[..|first + second| - 1] == first + second[..|second| - 1];
      AfterConcat(q, first, second[..|second| - 1]);
    }
  }

  /** After shutdown the accepted events have all been handed over exactly when none were left in the channel; those
    * left stay there and are never handed over. */
  lemma ShutdownKeepsChannel(steps: seq<Step>, later: seq<Step>)
    requires StopsIn(steps)
    ensures var q := After(OPENED, steps);
      && q.buf == [] && Accepted(steps) == Concat(q.batches) + q.ch
      && (Accepted(steps) == Concat(q.batches) <==> q.ch == [])
    ensures After(OPENED, steps + later).batches == After(OPENED, steps).batches
    ensures After(OPENED, steps).ch <= After(OPENED, steps + later).ch
  {
    hide After;
    var q := After(OPENED, steps);
    FifoConservation(steps);
    StoppedIffStopped(steps);
    StoppedHasNoBuffer(steps);
    assert |Accepted(steps)| == |Concat(q.batches)| + |q.ch|;
    AfterConcat(OPENED, steps, later);
    StoppedHandsOverNothing(q, later);
  }

  // ---- The table --------------------------------------------------------------------------

  function ToRows(events: seq<Event>): seq<Row> {
    seq(|events|, k requires 0 <= k < |events| => ToRow(events[k]))
  }

  predicate Works(w: Writer) {
    w.prepares && w.sends && w.rejects == {}
  }

  ghost predicate AllWork(steps: seq<Step>) {
    forall k | 0 <= k < |steps| :: steps[k].Record? || Works(steps[k].w)
  }

  lemma ToRowsConcat(a: seq<Event>, b: seq<Event>)
    ensures ToRows(a + b) == ToRows(a) + ToRows(b)
  {
  }

  lemma {:induction false} AppendedAll(batch: seq<Event>)
    ensures Appended(batch, {}) == ToRows(batch)
  {
    if batch != [] {
      var n := |batch| - 1;
      AppendedAll(batch[..n]);
      ToRowsConcat(batch[..n], [batch[n]]);
      assert batch == batch[..n] + [batch[n]];
    }
  }

  lemma FlushWrites(q: Queue, w: Writer)
    requires Works(w) && q.rows == ToRows(Concat(q.batches))
    ensures Flushed(q, w).rows == ToRows(Concat(Flushed(q, w).batches))
  {
    if q.buf != [] {
      AppendedAll(q.buf);
      ToRowsConcat(Concat(q.batches), q.buf);
      assert Flushed(q, w).batches[..|q.batches|] == q.batches;
    }
  }

  lemma StepWrites(q: Queue, s: Step)
    requires (s.Record? || Works(s.w)) && q.rows == ToRows(Concat(q.batches))
    ensures Next(q, s).rows == ToRows(Concat(Next(q, s).batches))
  {
    hide Flushed, ToRows, Works;
    match s
    case Record(_) =>
    case Receive(w) => if q.ch != [] { FlushWrites(q.(buf := q.buf + [q.ch[0]], ch := q.ch[1..]), w); }
    case Tick(w) => FlushWrites(q, w);
    case Stop(w) => FlushWrites(q, w);
  }

  lemma {:induction false} RowsAreBatches(steps: seq<Step>)
    requires AllWork(steps)
    ensures After(OPENED, steps).rows == ToRows(Concat(After(OPENED, steps).batches))
  {
    if steps != [] {
      var n := |steps| - 1;
      assert forall k | 0 <= k < n :: steps[..n][k] == steps[k];
      RowsAreBatches(steps[..n]);
      hide Next, ToRows, Works;
      StepWrites(After(OPENED, steps[..n]), steps[n]);
    }
  }

  /** While the writer works, the table holds the accepted events in order, up to those still queued. */
  lemma TableIsAcceptedPrefix(steps: seq<Step>)
    requires AllWork(steps)
    ensures After(OPENED, steps).rows + ToRows(After(OPENED, steps).buf + After(OPENED, steps).ch)
         == ToRows(Accepted(steps))
  {
    hide After;
    var q := After(OPENED, steps);
    RowsAreBatches(steps);
    FifoConservation(steps);
    ToRowsConcat(Concat(q.batches), q.buf + q.ch);
    assert Content(q) == Concat(q.batches) + (q.buf + q.ch);
  }

  /** A row tells the event exactly when the status fits 16 bits and the duration 32. */
  lemma RowIsFaithful(e: Event)
    ensures (ToRow(e).status == e.status && ToRow(e).durationMs == e.durationMs)
       <==> 0 <= e.status < 0x1_0000 && 0 <= e.durationMs < 0x1_0000_0000
  {
  }

  /** The columns of a row: those of the event, but the last 16 bits of its status and the last 32 of its duration. */
  ghost predicate Tells(r: Row, e: Event) {
    && r.projectId == e.projectId && r.tunnelId == e.tunnelId && r.verb == e.verb && r.path == e.path
    && r.receivedAt == e.receivedAt
    && 0 <= r.status < 65536 && (exists n: int :: e.status == r.status + 65536 * n)
    && 0 <= r.durationMs < 4294967296 && (exists n: int :: e.durationMs == r.durationMs + 4294967296 * n)
  }

  lemma RowTells(e: Event)
    ensures Tells(ToRow(e), e)
  {
    assert e.status == ToRow(e).status + 65536 * (e.status / 0x1_0000);
    assert e.durationMs == ToRow(e).durationMs + 4294967296 * (e.durationMs / 0x1_0000_0000);
  }

  /** While the writer works, row j of the table is the j-th accepted event, column by column. */
  lemma TableTellsEvents(steps: seq<Step>, j: nat)
    requires AllWork(steps) && j < |After(OPENED, steps).rows|
    ensures j < |Accepted(steps)| && Tells(After(OPENED, steps).rows[j], Accepted(steps)[j])
  {
    var q := After(OPENED, steps);
    TableIsAcceptedPrefix(steps);
    assert (q.rows + ToRows(q.buf + q.ch))[j] == q.rows[j];
    RowTells(Accepted(steps)[j]);
    hide After, Tells;
  }

  // ---- When the writer does not work --------------------------------------------------------

  /** The positions below n that are not rejected. */
  function Kept(rejects: set<nat>, n: nat): set<nat> {
    set j: nat | j < n && j !in rejects
  }

  lemma KeptGrows(rejects: set<nat>, n: nat)
    ensures |Kept(rejects, n + 1)| == |Kept(rejects, n)| + if n in rejects then 0 else 1
  {
    if n in rejects { assert Kept(rejects, n + 1) == Kept(rejects, n); }
    else { assert Kept(rejects, n + 1) == Kept(rejects, n) + {n}; }
  }

  /** Of a batch, the rows written are those of the events that were not rejected, in order. */
  lemma {:induction false} AppendedAreKept(batch: seq<Event>, rejects: set<nat>)
    ensures |Appended(batch, rejects)| == |Kept(rejects, |batch|)|
    ensures forall k | 0 <= k < |batch| && k !in rejects ::
      |Kept(rejects, k)| < |Appended(batch, rejects)| && Appended(batch, rejects)[|Kept(rejects, k)|] == ToRow(batch[k])
  {
    if batch == [] {
      assert Kept(rejects, 0) == {};
    } else {
      var n := |batch| - 1;
      AppendedAreKept(batch[..n], rejects);
      KeptGrows(rejects, n);
      forall k | 0 <= k < |batch| && k !in rejects
        ensures |Kept(rejects, k)| < |Appended(batch, rejects)|
        ensures Appended(batch, rejects)[|Kept(rejects, k)|] == ToRow(batch[k])
      {
        if k < n { assert batch[..n][k] == batch[k] && |Kept(rejects, k)| < |Appended(batch[..n], rejects)|; }
      }
    }
  }

  /** What an event of the pipeline adds to the table: nothing unless it hands a batch over, and then nothing if that
    * batch could not be prepared or sent, and the rows of its events that were not rejected otherwise. */
  lemma RowsOfOneStep(q: Queue, s: Step)
    requires q.enabled
    ensures Next(q, s).batches == q.batches ==> Next(q, s).rows == q.rows
    ensures Next(q, s).batches != q.batches ==>
      && !s.Record? && |Next(q, s).batches| == |q.batches| + 1
      && Next(q, s).rows == q.rows
         + if s.w.prepares && s.w.sends then Appended(Next(q, s).batches[|q.batches|], s.w.rejects) else []
  {
    assert q.batches + [q.buf] != q.batches by { assert |q.batches + [q.buf]| > |q.batches|; }
    if s.Receive? && q.ch != [] {
      var buf := q.buf + [q.ch[0]];
      assert q.batches + [buf] != q.batches by { assert |q.batches + [buf]| > |q.batches|; }
    }
  }
}
