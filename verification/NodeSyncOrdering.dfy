/** Which server traces keep answers and frames in step. A server that answers
    in order gives the n-th frame sent the n-th answer of the trace, so a
    returned answer belongs to its call exactly when as many answers precede it
    as frames were sent before that call's. */
module NodeSyncOrdering {
  import opened Common
  import opened NodeSync

  /** The call's reply, if it is an answer, is the answer to its own frame. */
  predicate OwnAnswer(c: Connection, call: Call)
    requires Within(c)
  {
    match call
    case DoPop => true
    case DoExchange(frame, expected, env) =>
      var (c', result) := Exchange(c, frame, expected, env);
      (result.Ok? || result.error.FrameRefused?) ==>
        && c'.sent == c.sent + [frame]
        && 0 < c'.cursor <= |c.trace|
        && AnswerCount(c.trace, c'.cursor - 1) == |c.sent|
        && c.trace[c'.cursor - 1] ==
           Envelope(Some(if result.Ok? then Receipt(expected, result.value) else Rejection(result.error.body)))
  }

  ghost predicate OwnAnswers(c: Connection, calls: seq<Call>)
    requires Conserved(c)
    decreases |calls|
  {
    calls != [] ==>
      OwnAnswer(c, calls[0]) && (StepConserves(c, calls[0]); OwnAnswers(Step(c, calls[0]), calls[1..]))
  }

  /** No answer follows a stray frame or a transport failure. */
  predicate InStep(trace: seq<Arrival>) {
    forall j, k :: 0 <= j < k < |trace| && IsInterruption(trace[j]) ==> !IsAnswer(trace[k])
  }

  // --------------------------------------------------------- it is sufficient

  predicate Exhausted(trace: seq<Arrival>, cursor: nat) {
    forall k :: cursor <= k < |trace| ==> !IsAnswer(trace[k])
  }

  /** Either the connection is retired, or each frame sent has been answered,
      or no answer is left. */
  predicate Synced(c: Connection) {
    Within(c) && (c.timedOut || AnswerCount(c.trace, c.cursor) == |c.sent| || Exhausted(c.trace, c.cursor))
  }

  lemma ExchangeInStep(c: Connection, frame: NodeFrame, expected: ReceiptKind, env: Env)
    requires Synced(c) && InStep(c.trace)
    ensures Synced(Exchange(c, frame, expected, env).0)
    ensures OwnAnswer(c, DoExchange(frame, expected, env))
  {
    if !c.timedOut && env.sending.Sent? {
      AwaitMeaning(c.trace, c.cursor, env.arrivals, expected);
      var w := Await(c.trace, c.cursor, env.arrivals, expected);
      if w.result.Some? && w.result.value != Err(ClosedStream) {
        var last := c.trace[w.cursor - 1];
        SettlesMeaning(last, expected);
        if IsInterruption(last) {
          assert Exhausted(c.trace, w.cursor);
        } else {
          assert !Exhausted(c.trace, c.cursor);
        }
      }
    }
  }

  lemma {:induction false} InStepIsSufficient(c: Connection, calls: seq<Call>)
    requires Conserved(c) && Synced(c) && InStep(c.trace)
    ensures OwnAnswers(c, calls)
    decreases |calls|
  {
    if calls != [] {
      StepConserves(c, calls[0]);
      match calls[0] {
        case DoExchange(frame, expected, env) => ExchangeInStep(c, frame, expected, env);
        case DoPop =>
      }
      InStepIsSufficient(Step(c, calls[0]), calls[1..]);
    }
  }

  // ----------------------------------------------------------- it is necessary

  predicate IsStop(a: Arrival) { IsAnswer(a) || IsInterruption(a) }

  /** A position just past a stop, or the start. */
  predicate AtStop(trace: seq<Arrival>, n: nat) {
    n <= |trace| && (n == 0 || IsStop(trace[n - 1]))
  }

  predicate Quiet(trace: seq<Arrival>, from: nat, until: nat) {
    until <= |trace| && forall k :: from <= k < until ==> !IsStop(trace[k])
  }

  function PreviousStop(trace: seq<Arrival>, n: nat): (p: nat)
    requires n <= |trace|
    ensures p <= n && AtStop(trace, p) && Quiet(trace, p, n)
  {
    if n == 0 || IsStop(trace[n - 1]) then n else PreviousStop(trace, n - 1)
  }

  lemma {:induction false} AwaitReachesStop(trace: seq<Arrival>, from: nat, until: nat, arrivals: nat,
                                            expected: ReceiptKind)
    requires from < until <= |trace| && Quiet(trace, from, until - 1) && IsStop(trace[until - 1])
    requires arrivals >= until - from
    ensures var w := Await(trace, from, arrivals, expected);
            w.cursor == until && w.result == Settles(trace[until - 1], expected) && w.result.Some?
    decreases until - from
  {
    SettlesMeaning(trace[from], expected);
    if from + 1 < until { AwaitReachesStop(trace, from + 1, until, arrivals - 1, expected); }
  }

  lemma {:induction false} QuietCounts(trace: seq<Arrival>, from: nat, until: nat)
    requires from <= until && Quiet(trace, from, until)
    ensures AnswerCount(trace, until) == AnswerCount(trace, from)
    ensures InterruptionCount(trace, until) == InterruptionCount(trace, from)
  {
    if from < until { QuietCounts(trace, from, until - 1); }
  }

  /** A patient call: it waits out the whole trace if it has to. */
  function Patient(trace: seq<Arrival>, expected: ReceiptKind): Call {
    DoExchange(OtherNodeFrame(0), expected, Env(Sent, |trace| + 1))
  }

  lemma {:induction false} RunSnoc(c: Connection, calls: seq<Call>, call: Call)
    requires Conserved(c)
    ensures Run(c, calls + [call]) == Step(Run(c, calls), call)
    decreases |calls|
  {
    if calls == [] {
      assert [] + [call] == [call] && [call][1..] == [];
      StepConserves(c, call);
    } else {
      StepConserves(c, calls[0]);
      assert (calls + [call])[1..] == calls[1..] + [call];
      RunSnoc(Step(c, calls[0]), calls[1..], call);
    }
  }

  /** A live connection that has read exactly `n` arrivals and sent one frame
      per stop. */
  predicate PatientAt(c: Connection, trace: seq<Arrival>, n: nat)
    requires n <= |trace|
  {
    c.trace == trace && c.cursor == n && !c.timedOut
    && |c.sent| == AnswerCount(trace, n) + InterruptionCount(trace, n)
  }

  lemma PatientStep(c: Connection, trace: seq<Arrival>, p: nat, n: nat, expected: ReceiptKind)
    requires p < n <= |trace| && PatientAt(c, trace, p) && Quiet(trace, p, n - 1) && IsStop(trace[n - 1])
    ensures PatientAt(Step(c, Patient(trace, expected)), trace, n)
    ensures Exchange(c, OtherNodeFrame(0), expected, Env(Sent, |trace| + 1)).1 == Settles(trace[n - 1], expected).value
  {
    AwaitReachesStop(trace, p, n, |trace| + 1, expected);
    QuietCounts(trace, p, n - 1);
  }

  /** Patient calls visit the stops one by one. */
  lemma {:induction false} PatientRun(trace: seq<Arrival>, n: nat) returns (calls: seq<Call>)
    requires AtStop(trace, n)
    ensures PatientAt(Run(Fresh(trace), calls), trace, n)
    decreases n
  {
    if n == 0 {
      calls := [];
    } else {
      var p, call := PreviousStop(trace, n - 1), Patient(trace, BatchReceipt);
      var before := PatientRun(trace, p);
      calls := before + [call];
      RunSnoc(Fresh(trace), before, call);
      PatientStep(Run(Fresh(trace), before), trace, p, n, BatchReceipt);
    }
  }

  lemma {:induction false} InterruptionsCount(trace: seq<Arrival>, j: nat, n: nat)
    requires j < n <= |trace| && IsInterruption(trace[j])
    ensures InterruptionCount(trace, n) > 0
  {
    if j + 1 < n { InterruptionsCount(trace, j, n - 1); }
  }

  lemma {:induction false} OwnAnswersSnoc(c: Connection, calls: seq<Call>, call: Call)
    requires Conserved(c) && OwnAnswers(c, calls + [call])
    ensures OwnAnswer(Run(c, calls), call)
    decreases |calls|
  {
    if calls == [] {
      assert [] + [call] == [call];
    } else {
      StepConserves(c, calls[0]);
      assert (calls + [call])[1..] == calls[1..] + [call];
      OwnAnswersSnoc(Step(c, calls[0]), calls[1..], call);
    }
  }

  /** The receipt kind that would be satisfied by this answer. */
  function KindFor(a: Arrival): ReceiptKind {
    match a
    case Envelope(Some(Receipt(kind, _))) => kind
    case _ => BatchReceipt
  }

  lemma MisattributedStep(c: Connection, trace: seq<Arrival>, p: nat, k: nat)
    requires p <= k < |trace| && PatientAt(c, trace, p) && Quiet(trace, p, k) && IsAnswer(trace[k])
    requires InterruptionCount(trace, p) > 0
    ensures !OwnAnswer(c, Patient(trace, KindFor(trace[k])))
  {
    PatientStep(c, trace, p, k + 1, KindFor(trace[k]));
    QuietCounts(trace, p, k);
  }

  /** Where an answer follows an interruption, some run takes it for the wrong
      frame. */
  lemma MisattributingRun(trace: seq<Arrival>, j: nat, k: nat) returns (calls: seq<Call>)
    requires j < k < |trace| && IsInterruption(trace[j]) && IsAnswer(trace[k])
    ensures !OwnAnswers(Fresh(trace), calls)
  {
    var p := PreviousStop(trace, k);
    assert p > j;
    var before := PatientRun(trace, p);
    var c := Run(Fresh(trace), before);
    var call := Patient(trace, KindFor(trace[k]));
    calls := before + [call];
    InterruptionsCount(trace, j, p);
    MisattributedStep(c, trace, p, k);
    if OwnAnswers(Fresh(trace), calls) { OwnAnswersSnoc(Fresh(trace), before, call); }
  }

  /** Every run of every mix of calls, timeouts and send failures hands each
      caller the answer to its own frame exactly when the server sends no
      answer after a stray frame or transport failure. A timeout never breaks
      it; an unexpected frame can, because only timeouts retire a connection. */
  lemma AnswersStayInStepExactlyWhen(trace: seq<Arrival>)
    ensures (forall calls :: OwnAnswers(Fresh(trace), calls)) <==> InStep(trace)
  {
    if InStep(trace) {
      forall calls ensures OwnAnswers(Fresh(trace), calls) { InStepIsSufficient(Fresh(trace), calls); }
    } else {
      var j, k :| 0 <= j < k < |trace| && IsInterruption(trace[j]) && IsAnswer(trace[k]);
      var calls := MisattributingRun(trace, j, k);
      assert !OwnAnswers(Fresh(trace), calls);
    }
  }
}
