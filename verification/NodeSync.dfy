/** The NodeSync client exchange
    (crates/ackplane-client/src/node_sync.rs): one frame out, one answer in,
    with directives buffered on the way and a timeout that retires the
    connection. The server's side of the stream is a trace of arrivals; how
    many of them come before a call's ten seconds run out is up to the
    environment. */
module NodeSync {
  import opened Common

  type Directive = nat

  datatype ReceiptKind = SupervisorFrameReceipt | BatchReceipt | ContextPacketReply | ContextPacketUseAck

  /** `Stray` stands for the frame kinds no exchange asks for. */
  datatype ServerFrame =
    | Rejection(body: nat)
    | Receipt(kind: ReceiptKind, body: nat)
    | AgentDirective(directive: Directive)
    | FlowControl
    | Notice
    | Stray(body: nat)

  datatype Arrival = Envelope(frame: Option<ServerFrame>) | TransportFailure

  datatype NodeFrame = ContextPacketUseReport(body: nat) | OtherNodeFrame(body: nat)

  datatype ClientError =
    | AcknowledgementTimeout
    | SendFailure
    | StreamFailure
    | ClosedStream
    | FrameRefused(body: nat)
    | UnexpectedFrame(got: ServerFrame)

  datatype Sending = Sent | SendFailed | SendStuck

  /** The send's fate, and how many receives complete before the timeout. */
  datatype Env = Env(sending: Sending, arrivals: nat)

  predicate IsAnswer(a: Arrival) {
    a.Envelope? && a.frame.Some? && (a.frame.value.Rejection? || a.frame.value.Receipt?)
  }

  /** An arrival that ends an exchange without answering it. */
  predicate IsInterruption(a: Arrival) {
    a.TransportFailure? || (a.Envelope? && a.frame.Some? && a.frame.value.Stray?)
  }

  // ---------------------------------------------------------------- the loop

  datatype Waited = Waited(cursor: nat, directives: seq<Directive>, result: Option<Result<nat, ClientError>>)

  /** What an arrival settles; `None` when the loop goes on. */
  function Settles(a: Arrival, expected: ReceiptKind): Option<Result<nat, ClientError>> {
    match a
    case TransportFailure => Some(Err(StreamFailure))
    case Envelope(None) => None
    case Envelope(Some(Rejection(body))) => Some(Err(FrameRefused(body)))
    case Envelope(Some(AgentDirective(_))) => None
    case Envelope(Some(FlowControl)) => None
    case Envelope(Some(Notice)) => None
    case Envelope(Some(Receipt(kind, body))) =>
      Some(if kind == expected then Ok(body) else Err(UnexpectedFrame(Receipt(kind, body))))
    case Envelope(Some(Stray(body))) => Some(Err(UnexpectedFrame(Stray(body))))
  }

  function DirectiveOf(a: Arrival): seq<Directive> {
    match a
    case Envelope(Some(AgentDirective(d))) => [d]
    case _ => []
  }

  /** The receive loop from `cursor`; no result means the time ran out. */
  function Await(trace: seq<Arrival>, cursor: nat, arrivals: nat, expected: ReceiptKind): Waited
    requires cursor <= |trace|
    decreases |trace| - cursor
  {
    if arrivals == 0 then Waited(cursor, [], None)
    else if cursor == |trace| then Waited(cursor, [], Some(Err(ClosedStream)))
    else if Settles(trace[cursor], expected).Some? then Waited(cursor + 1, [], Settles(trace[cursor], expected))
    else
      var rest := Await(trace, cursor + 1, arrivals - 1, expected);
      Waited(rest.cursor, DirectiveOf(trace[cursor]) + rest.directives, rest.result)
  }

  /** A connection: what has been read of the trace and written to the server,
      the directive buffer, the timeout flag, and the directives already handed
      out. */
  datatype Connection = Connection(trace: seq<Arrival>, cursor: nat, sent: seq<NodeFrame>,
                                   directives: seq<Directive>, timedOut: bool, popped: seq<Directive>)

  predicate Within(c: Connection) { c.cursor <= |c.trace| }

  function Fresh(trace: seq<Arrival>): Connection { Connection(trace, 0, [], [], false, []) }

  function Exchange(c: Connection, frame: NodeFrame, expected: ReceiptKind, env: Env)
    : (r: (Connection, Result<nat, ClientError>))
    requires Within(c)
    ensures r.0.trace == c.trace && r.0.popped == c.popped
  {
    if c.timedOut then (c, Err(AcknowledgementTimeout))
    else match env.sending
      case SendFailed => (c, Err(SendFailure))
      case SendStuck => (c.(timedOut := true), Err(AcknowledgementTimeout))
      case Sent =>
        var w := Await(c.trace, c.cursor, env.arrivals, expected);
        var c' := c.(cursor := w.cursor, sent := c.sent + [frame], directives := c.directives + w.directives);
        if w.result.None? then (c'.(timedOut := true), Err(AcknowledgementTimeout)) else (c', w.result.value)
  }

  function Pop(c: Connection): Connection {
    if c.directives == [] then c
    else c.(directives := c.directives[1..], popped := c.popped + [c.directives[0]])
  }

  lemma AwaitUnfolds(trace: seq<Arrival>, cursor: nat, arrivals: nat, expected: ReceiptKind, read: seq<Directive>)
    requires cursor <= |trace| && arrivals > 0
    ensures var w := Await(trace, cursor, arrivals, expected);
            if cursor == |trace| then w == Waited(cursor, [], Some(Err(ClosedStream))) && read + w.directives == read
            else
              var settled := Settles(trace[cursor], expected);
              if settled.Some? then w == Waited(cursor + 1, [], settled) && read + w.directives == read
              else
                var rest := Await(trace, cursor + 1, arrivals - 1, expected);
                && w.cursor == rest.cursor && w.result == rest.result
                && read + w.directives == read + DirectiveOf(trace[cursor]) + rest.directives
                && read + [] == read
  {}

  // -------------------------------------------------------- the imperative form

  class NodeSyncConnection {
    const trace: seq<Arrival>
    var cursor: nat
    var sent: seq<NodeFrame>
    var directives: seq<Directive>
    var exchangeTimedOut: bool
    ghost var popped: seq<Directive>

    ghost function State(): Connection
      reads this
    {
      Connection(trace, cursor, sent, directives, exchangeTimedOut, popped)
    }

    constructor (trace: seq<Arrival>)
      ensures State() == Fresh(trace)
    {
      this.trace, cursor, sent, directives, exchangeTimedOut, popped := trace, 0, [], [], false, [];
    }

    method Receive() returns (a: Option<Arrival>)
      requires Within(State())
      modifies `cursor
      ensures Within(State())
      ensures if old(cursor) < |trace| then a == Some(trace[old(cursor)]) && cursor == old(cursor) + 1
              else a == None && cursor == old(cursor)
    {
      if cursor == |trace| { return None; }
      a := Some(trace[cursor]);
      cursor := cursor + 1;
    }

    /** The receive loop of `exchange`: `None` when the timer fires first. */
    method AwaitReceipt(expected: ReceiptKind, arrivals: nat) returns (r: Option<Result<nat, ClientError>>)
      requires Within(State())
      modifies `cursor, `directives
      ensures Within(State())
      ensures var w := Await(trace, old(cursor), arrivals, expected);
              cursor == w.cursor && directives == old(directives) + w.directives && r == w.result
    {
      var left := arrivals;
      ghost var total := Await(trace, cursor, arrivals, expected);
      ghost var read: seq<Directive> := [];
      while left > 0
        invariant Within(State()) && directives == old(directives) + read
        invariant var w := Await(trace, cursor, left, expected);
                  total.cursor == w.cursor && total.result == w.result && total.directives == read + w.directives
        decreases left
      {
        AwaitUnfolds(trace, cursor, left, expected, read);
        var arrival := Receive();
        left := left - 1;
        if arrival.None? { return Some(Err(ClosedStream)); }
        var settled := Settles(arrival.value, expected);
        if settled.Some? { return settled; }
        directives := directives + DirectiveOf(arrival.value);
        read := read + DirectiveOf(arrival.value);
      }
      return None;
    }

    method ExchangeFrame(frame: NodeFrame, expected: ReceiptKind, env: Env) returns (r: Result<nat, ClientError>)
      requires Within(State())
      modifies this
      ensures Within(State())
      ensures (State(), r) == Exchange(old(State()), frame, expected, env)
    {
      if exchangeTimedOut { return Err(AcknowledgementTimeout); }
      if env.sending.SendFailed? { return Err(SendFailure); }
      var result: Option<Result<nat, ClientError>> := None;
      if env.sending.Sent? {
        sent := sent + [frame];
        result := AwaitReceipt(expected, env.arrivals);
      }
      if result.None? {
        exchangeTimedOut := true;
        return Err(AcknowledgementTimeout);
      }
      return result.value;
    }

    method ExchangeSupervisorFrame(frame: NodeFrame, env: Env) returns (r: Result<nat, ClientError>)
      requires Within(State())
      modifies this
      ensures Within(State())
      ensures (State(), r) == Exchange(old(State()), frame, SupervisorFrameReceipt, env)
    {
      r := ExchangeFrame(frame, SupervisorFrameReceipt, env);
    }

    method ExchangeEventBatch(frame: NodeFrame, env: Env) returns (r: Result<nat, ClientError>)
      requires Within(State())
      modifies this
      ensures Within(State())
      ensures (State(), r) == Exchange(old(State()), frame, BatchReceipt, env)
    {
      r := ExchangeFrame(frame, BatchReceipt, env);
    }

    /** A use report earns its own acknowledgement, anything else a supervisor
        receipt. */
    method ExchangeOutboxFrame(frame: NodeFrame, env: Env) returns (r: Outcome<ClientError>)
      requires Within(State())
      modifies this
      ensures Within(State())
      ensures var expected := if frame.ContextPacketUseReport? then ContextPacketUseAck else SupervisorFrameReceipt;
              var (c, result) := Exchange(old(State()), frame, expected, env);
              State() == c && r == match result case Ok(_) => Pass case Err(e) => Fail(e)
    {
      var result;
      if frame.ContextPacketUseReport? {
        result := ExchangeFrame(frame, ContextPacketUseAck, env);
      } else {
        result := ExchangeSupervisorFrame(frame, env);
      }
      match result {
        case Ok(_) => return Pass;
        case Err(e) => return Fail(e);
      }
    }

    method NextDirective() returns (d: Option<Directive>)
      modifies this
      ensures State() == Pop(old(State()))
      ensures d == if old(directives) == [] then None else Some(old(directives)[0])
    {
      if directives == [] { return None; }
      d := Some(directives[0]);
      popped := popped + [directives[0]];
      directives := directives[1..];
    }
  }

  // ------------------------------------------------------------------ the runs

  datatype Call = DoExchange(frame: NodeFrame, expected: ReceiptKind, env: Env) | DoPop

  function Step(c: Connection, call: Call): (c': Connection)
    requires Within(c)
    ensures c'.trace == c.trace
  {
    match call
    case DoExchange(frame, expected, env) => Exchange(c, frame, expected, env).0
    case DoPop => Pop(c)
  }

  function AnswerCount(trace: seq<Arrival>, n: nat): nat
    requires n <= |trace|
  {
    if n == 0 then 0 else AnswerCount(trace, n - 1) + (if IsAnswer(trace[n - 1]) then 1 else 0)
  }

  function InterruptionCount(trace: seq<Arrival>, n: nat): nat
    requires n <= |trace|
  {
    if n == 0 then 0 else InterruptionCount(trace, n - 1) + (if IsInterruption(trace[n - 1]) then 1 else 0)
  }

  function DirectivesIn(trace: seq<Arrival>, n: nat): seq<Directive>
    requires n <= |trace|
  {
    if n == 0 then []
    else DirectivesIn(trace, n - 1) + DirectiveOf(trace[n - 1])
  }

  /** What one wait consumes: at most one answer or interruption, and that is
      the last thing read. */
  predicate WaitedOk(trace: seq<Arrival>, cursor: nat, expected: ReceiptKind, w: Waited)
    requires cursor <= |trace|
  {
    && cursor <= w.cursor <= |trace|
    && if w.result.None? then AnswerCount(trace, w.cursor) == AnswerCount(trace, cursor)
       else if w.result.value == Err(ClosedStream)
       then w.cursor == |trace| && AnswerCount(trace, w.cursor) == AnswerCount(trace, cursor)
       else
         && cursor < w.cursor && AnswerCount(trace, w.cursor - 1) == AnswerCount(trace, cursor)
         && Settles(trace[w.cursor - 1], expected) == w.result
  }

  lemma {:induction false} AwaitMeaning(trace: seq<Arrival>, cursor: nat, arrivals: nat, expected: ReceiptKind)
    requires cursor <= |trace|
    ensures WaitedOk(trace, cursor, expected, Await(trace, cursor, arrivals, expected))
    decreases |trace| - cursor
  {
    if arrivals > 0 && cursor < |trace| {
      SettlesMeaning(trace[cursor], expected);
      if Settles(trace[cursor], expected).None? {
        AwaitMeaning(trace, cursor + 1, arrivals - 1, expected);
      }
    }
  }

  lemma Assoc(a: seq<Directive>, b: seq<Directive>, c: seq<Directive>)
    ensures a + b + c == a + (b + c) && a + [] == a
  {}

  /** And every directive on the way, in order. */
  lemma {:induction false} AwaitCollects(trace: seq<Arrival>, cursor: nat, arrivals: nat, expected: ReceiptKind)
    requires cursor <= |trace|
    ensures var w := Await(trace, cursor, arrivals, expected);
            cursor <= w.cursor <= |trace|
            && DirectivesIn(trace, w.cursor) == DirectivesIn(trace, cursor) + w.directives
    decreases |trace| - cursor
  {
    var was := DirectivesIn(trace, cursor);
    if arrivals == 0 || cursor == |trace| {
      Assoc(was, [], []);
    } else {
      AwaitUnfolds(trace, cursor, arrivals, expected, was);
      DirectivesStep(trace, cursor, expected);
      if Settles(trace[cursor], expected).None? {
        AwaitCollects(trace, cursor + 1, arrivals - 1, expected);
      }
    }
  }

  lemma DirectivesStep(trace: seq<Arrival>, n: nat, expected: ReceiptKind)
    requires n < |trace|
    ensures DirectivesIn(trace, n + 1) == DirectivesIn(trace, n) + DirectiveOf(trace[n])
    ensures Settles(trace[n], expected).Some? ==> DirectivesIn(trace, n + 1) == DirectivesIn(trace, n)
  {
    SettlesMeaning(trace[n], expected);
  }

  /** An arrival settles a wait exactly when it is an answer or an
      interruption, and then it is not a directive. */
  lemma SettlesMeaning(a: Arrival, expected: ReceiptKind)
    ensures Settles(a, expected).Some? <==> IsAnswer(a) || IsInterruption(a)
    ensures Settles(a, expected).Some? ==>
              && DirectiveOf(a) == []
              && match Settles(a, expected).value
                 case Ok(body) => a == Envelope(Some(Receipt(expected, body)))
                 case Err(FrameRefused(body)) => a == Envelope(Some(Rejection(body)))
                 case Err(_) => true
  {}

  // ---------------------------------------------------- conservation, poison

  /** Handed out, then still buffered: exactly what has been read, in order. */
  predicate Conserved(c: Connection) {
    Within(c) && c.popped + c.directives == DirectivesIn(c.trace, c.cursor)
  }

  lemma StepConserves(c: Connection, call: Call)
    requires Conserved(c)
    ensures Conserved(Step(c, call))
  {
    match call {
      case DoExchange(frame, expected, env) =>
        if !c.timedOut && env.sending.Sent? {
          AwaitCollects(c.trace, c.cursor, env.arrivals, expected);
          Assoc(c.popped, c.directives, Await(c.trace, c.cursor, env.arrivals, expected).directives);
        }
      case DoPop =>
        if c.directives != [] {
          assert c.popped + [c.directives[0]] + c.directives[1..] == c.popped + c.directives;
        }
    }
  }

  function Run(c: Connection, calls: seq<Call>): (c': Connection)
    requires Conserved(c)
    ensures Conserved(c') && c'.trace == c.trace
    decreases |calls|
  {
    if calls == [] then c else StepConserves(c, calls[0]); Run(Step(c, calls[0]), calls[1..])
  }

  /** Over any run, whatever succeeded, was refused, failed or timed out, no
      directive read is lost, repeated or reordered. */
  lemma DirectivesAreConserved(trace: seq<Arrival>, calls: seq<Call>)
    ensures var c := Run(Fresh(trace), calls);
            c.popped + c.directives == DirectivesIn(trace, c.cursor)
  {}

  lemma ReceiptAhead(c: Connection, frame: NodeFrame, expected: ReceiptKind, env: Env)
    requires Within(c) && Exchange(c, frame, expected, env).1.Ok?
    ensures var (c', result) := Exchange(c, frame, expected, env);
            && 0 < c'.cursor <= |c.trace|
            && c.trace[c'.cursor - 1] == Envelope(Some(Receipt(expected, result.value)))
            && DirectivesIn(c.trace, c'.cursor) == DirectivesIn(c.trace, c'.cursor - 1)
  {
    AwaitMeaning(c.trace, c.cursor, env.arrivals, expected);
    var w := Await(c.trace, c.cursor, env.arrivals, expected);
    SettlesMeaning(c.trace[w.cursor - 1], expected);
    DirectivesStep(c.trace, w.cursor - 1, expected);
  }

  /** A receipt is a delivery barrier: every directive ahead of it is already
      in hand. */
  lemma ReceiptIsABarrier(trace: seq<Arrival>, calls: seq<Call>, frame: NodeFrame, expected: ReceiptKind, env: Env)
    ensures var c := Run(Fresh(trace), calls);
            var (c', result) := Exchange(c, frame, expected, env);
            result.Ok? ==>
              && 0 < c'.cursor <= |trace|
              && trace[c'.cursor - 1] == Envelope(Some(Receipt(expected, result.value)))
              && c'.popped + c'.directives == DirectivesIn(trace, c'.cursor - 1)
  {
    var c := Run(Fresh(trace), calls);
    StepConserves(c, DoExchange(frame, expected, env));
    if Exchange(c, frame, expected, env).1.Ok? { ReceiptAhead(c, frame, expected, env); }
  }

  /** After one timeout nothing is sent or read again, whatever is called. */
  lemma {:induction false} TimeoutIsFinal(c: Connection, calls: seq<Call>)
    requires Conserved(c) && c.timedOut
    ensures var c' := Run(c, calls);
            c'.timedOut && c'.sent == c.sent && c'.cursor == c.cursor
    decreases |calls|
  {
    if calls != [] {
      StepConserves(c, calls[0]);
      TimeoutIsFinal(Step(c, calls[0]), calls[1..]);
    }
  }
}
