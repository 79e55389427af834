/**
 * The reconciliation loop: one connection attempt consumes the stream until
 * the observation window closes, the stream ends or it yields an error; the
 * retry loop around it starts a new attempt after every transient outcome and
 * stops at the first permanent one. One report and one start instant serve
 * every attempt of a run, so time is the elapsed value each message carries.
 */
module Reconciler {
  import opened Wrappers
  import opened Request
  import opened Reporting

  /** The updates the stream delivers; every kind the checker does not act on is `Other`. */
  datatype Update =
    | Block(slot: U64, executedTransactionCount: U64, reply: RpcReply)
    | Ping(sendOk: bool)
    | Other

  /** One item of the stream: an update, or an error in its place. */
  datatype Message = Ok(update: Update) | Err

  /** A stream item with the time elapsed since the run started when it arrived. */
  datatype Received = Received(elapsed: nat, message: Message)

  /** How far the connect, subscribe and initial send of one attempt got. */
  datatype Setup = ConnectFailed | SubscribeFailed | RequestSendFailed | Subscribed

  /** What the network does during one connection attempt. */
  datatype Attempt = Attempt(setup: Setup, stream: seq<Received>)

  datatype Cause = TimerCompleted | StreamEnded | ConnectError | SubscribeError | SendError

  /** How an attempt ends: a permanent outcome stops the retries, a transient one asks for another. */
  datatype Outcome = Permanent(cause: Cause) | Transient(cause: Cause)

  // ---------------------------------------------------------------------------
  // One update

  /** The report after one update: a block is counted, then compared; nothing else changes it. */
  function Step(s: ReportState, u: Update): (t: ReportState)
    ensures u.Block? ==> t.totalBlocks == s.totalBlocks + 1
    ensures u.Block? ==> t.totalGrpcTxs == s.totalGrpcTxs + u.executedTransactionCount
    ensures !u.Block? ==> t == s
    ensures Consistent(s) ==> Consistent(t)
    ensures Extends(s, t)
  {
    match u
    case Block(slot, count, reply) => Compared(BlockCounted(s, count), slot, count, reply)
    case Ping(_) => s
    case Other => s
  }

  /** The report after a sequence of updates, in arrival order. */
  function Steps(s: ReportState, us: seq<Update>): ReportState
    decreases |us|
  {
    if |us| == 0 then s else Steps(Step(s, us[0]), us[1..])
  }

  lemma {:induction false} StepsSnoc(s: ReportState, us: seq<Update>, u: Update)
    ensures Steps(s, us + [u]) == Step(Steps(s, us), u)
    decreases |us|
  {
    if |us| > 0 {
      assert (us + [u])[1..] == us[1..] + [u];
      StepsSnoc(Step(s, us[0]), us[1..], u);
    }
  }

  /** Updates keep the report invariant and only move the report forward. */
  lemma {:induction false} StepsKeepInvariant(s: ReportState, us: seq<Update>)
    ensures Consistent(s) ==> Consistent(Steps(s, us))
    ensures Extends(s, Steps(s, us))
    decreases |us|
  {
    if |us| > 0 {
      StepsKeepInvariant(Step(s, us[0]), us[1..]);
      ExtendsTransitive(s, Step(s, us[0]), Steps(s, us));
    }
  }

  // ---------------------------------------------------------------------------
  // Totals of a sequence of updates, stated independently of the report

  function BlockCount(us: seq<Update>): nat {
    if |us| == 0 then 0 else (if us[0].Block? then 1 else 0) + BlockCount(us[1..])
  }

  function GrpcSum(us: seq<Update>): nat {
    if |us| == 0 then 0
    else (if us[0].Block? then us[0].executedTransactionCount else 0) + GrpcSum(us[1..])
  }

  /** The reference count an update contributes: only a block whose query succeeded has one. */
  function RpcContribution(u: Update): nat {
    if u.Block? && u.reply.RpcBlock? then ReferenceCount(u.reply.signatures) else 0
  }

  function RpcSum(us: seq<Update>): nat {
    if |us| == 0 then 0 else RpcContribution(us[0]) + RpcSum(us[1..])
  }

  /** The disagreement an update reveals, if any. */
  function MismatchOf(u: Update): seq<MismatchRecord> {
    if u.Block? && u.reply.RpcBlock? && u.executedTransactionCount != ReferenceCount(u.reply.signatures)
    then [MismatchRecord(u.slot, u.executedTransactionCount, ReferenceCount(u.reply.signatures))]
    else []
  }

  function Mismatches(us: seq<Update>): seq<MismatchRecord> {
    if |us| == 0 then [] else MismatchOf(us[0]) + Mismatches(us[1..])
  }

  /** The detail lines of a sequence of mismatches, one per mismatch, in order. */
  function DetailLines(ms: seq<MismatchRecord>): (lines: seq<string>)
    ensures |lines| == |ms|
  {
    if |ms| == 0 then [] else [FormatMismatch(ms[0])] + DetailLines(ms[1..])
  }

  /** The i-th detail line is the i-th mismatch, formatted. */
  lemma {:induction false} DetailLinesAt(ms: seq<MismatchRecord>, i: nat)
    requires i < |ms|
    ensures DetailLines(ms)[i] == FormatMismatch(ms[i])
  {
    var lines := DetailLines(ms);
    assert lines == [FormatMismatch(ms[0])] + DetailLines(ms[1..]);
    if i > 0 {
      DetailLinesAt(ms[1..], i - 1);
      assert lines[i] == DetailLines(ms[1..])[i - 1];
    }
  }

  /** Each detail line names the slot and counts of its own mismatch. */
  lemma DetailLinesName(ms: seq<MismatchRecord>, i: nat)
    requires i < |ms|
    ensures DetailLines(ms)[i] == FormatMismatch(ms[i])
    ensures ParseMismatch(DetailLines(ms)[i]) == Some(ms[i])
  {
    DetailLinesAt(ms, i);
    ParseFormat(ms[i]);
  }

  /**
   * The report after a sequence of updates, in closed form: one block per block
   * update, the stream's counts summed, the reference counts of the successful
   * queries summed, and one detail line per disagreement in arrival order.
   */
  lemma {:induction false} StepsTotals(s: ReportState, us: seq<Update>)
    ensures Steps(s, us) == ReportState(
      s.totalBlocks + BlockCount(us),
      s.mismatchedBlocks + |Mismatches(us)|,
      s.totalGrpcTxs + GrpcSum(us),
      s.totalRpcTxs + RpcSum(us),
      s.details + DetailLines(Mismatches(us)))
    decreases |us|
  {
    if |us| > 0 {
      var t := Step(s, us[0]);
      StepContribution(s, us[0]);
      StepsTotals(t, us[1..]);
      DetailLinesAppend(MismatchOf(us[0]), Mismatches(us[1..]));
    }
  }

  /** What one update adds to each part of the report. */
  lemma StepContribution(s: ReportState, u: Update)
    ensures Step(s, u) == ReportState(
      s.totalBlocks + (if u.Block? then 1 else 0),
      s.mismatchedBlocks + |MismatchOf(u)|,
      s.totalGrpcTxs + (if u.Block? then u.executedTransactionCount else 0),
      s.totalRpcTxs + RpcContribution(u),
      s.details + DetailLines(MismatchOf(u)))
  {
  }

  lemma {:induction false} DetailLinesAppend(ms: seq<MismatchRecord>, ns: seq<MismatchRecord>)
    ensures DetailLines(ms + ns) == DetailLines(ms) + DetailLines(ns)
  {
    if |ms| > 0 {
      assert (ms + ns)[1..] == ms[1..] + ns;
      DetailLinesAppend(ms[1..], ns);
    } else {
      assert ms + ns == ns;
    }
  }

  // ---------------------------------------------------------------------------
  // Ping replies

  function PingCount(us: seq<Update>): nat {
    if |us| == 0 then 0 else (if us[0].Ping? then 1 else 0) + PingCount(us[1..])
  }

  /** The requests sent in answer to pings: one ping reply per ping, whatever the send returned. */
  function Pongs(us: seq<Update>): seq<SubscribeRequest> {
    if |us| == 0 then [] else (if us[0].Ping? then [PingReply()] else []) + Pongs(us[1..])
  }

  /** Exactly one ping reply is sent per ping, and nothing else. */
  lemma {:induction false} PongsPerPing(us: seq<Update>)
    ensures |Pongs(us)| == PingCount(us)
    ensures forall i :: 0 <= i < |Pongs(us)| ==> Pongs(us)[i] == PingReply()
  {
    if |us| > 0 {
      PongsPerPing(us[1..]);
    }
  }

  lemma {:induction false} PongsSnoc(us: seq<Update>, u: Update)
    ensures Pongs(us + [u]) == Pongs(us) + (if u.Ping? then [PingReply()] else [])
  {
    if |us| > 0 {
      assert (us + [u])[1..] == us[1..] + [u];
      PongsSnoc(us[1..], u);
    }
  }

  // ---------------------------------------------------------------------------
  // One attempt's stream

  /**
   * The updates an attempt processes: every item up to the first one that
   * arrives at or after the deadline or is an error, which is not processed.
   */
  function Processed(duration: nat, stream: seq<Received>): (us: seq<Update>)
    ensures |us| <= |stream|
  {
    if |stream| == 0 || stream[0].elapsed >= duration || stream[0].message.Err? then []
    else [stream[0].message.update] + Processed(duration, stream[1..])
  }

  /**
   * The processed updates are the longest prefix of the stream whose items all
   * arrived before the deadline and are updates, not errors.
   */
  lemma {:induction false} ProcessedIsLongestPrefix(duration: nat, stream: seq<Received>)
    ensures var us := Processed(duration, stream);
      && (forall i :: 0 <= i < |us| ==> stream[i].elapsed < duration && stream[i].message == Ok(us[i]))
      && (|us| < |stream| ==> stream[|us|].elapsed >= duration || stream[|us|].message.Err?)
  {
    if |stream| > 0 && stream[0].elapsed < duration && stream[0].message.Ok? {
      ProcessedIsLongestPrefix(duration, stream[1..]);
      var us := Processed(duration, stream);
      forall i | 0 <= i < |us|
        ensures stream[i].elapsed < duration && stream[i].message == Ok(us[i])
      {
        if i > 0 {
          assert stream[i] == stream[1..][i - 1];
        }
      }
    }
  }

  /** How a subscribed attempt ends: the deadline is checked before the item is looked at. */
  function StreamOutcome(duration: nat, stream: seq<Received>): (o: Outcome)
    ensures o == Permanent(TimerCompleted) || o == Transient(StreamEnded)
  {
    if |stream| == 0 then Transient(StreamEnded)
    else if stream[0].elapsed >= duration then Permanent(TimerCompleted)
    else if stream[0].message.Err? then Transient(StreamEnded)
    else StreamOutcome(duration, stream[1..])
  }

  /**
   * An attempt ends permanently exactly when an item arrived at or after the
   * deadline before any error item and before the stream ended.
   */
  lemma {:induction false} StreamOutcomeIsDeadline(duration: nat, stream: seq<Received>)
    ensures var k := |Processed(duration, stream)|;
      StreamOutcome(duration, stream) == Permanent(TimerCompleted) <==> k < |stream| && stream[k].elapsed >= duration
  {
    if |stream| > 0 && stream[0].elapsed < duration && stream[0].message.Ok? {
      StreamOutcomeIsDeadline(duration, stream[1..]);
    }
  }

  /** How the item at position `i` decides what is left of the stream's processing. */
  lemma StreamAt(duration: nat, stream: seq<Received>, i: nat)
    requires i < |stream|
    ensures stream[i].elapsed >= duration ==>
      Processed(duration, stream[i..]) == [] && StreamOutcome(duration, stream[i..]) == Permanent(TimerCompleted)
    ensures stream[i].elapsed < duration && stream[i].message.Err? ==>
      Processed(duration, stream[i..]) == [] && StreamOutcome(duration, stream[i..]) == Transient(StreamEnded)
    ensures stream[i].elapsed < duration && stream[i].message.Ok? ==>
      && Processed(duration, stream[i..]) == [stream[i].message.update] + Processed(duration, stream[i + 1..])
      && StreamOutcome(duration, stream[i..]) == StreamOutcome(duration, stream[i + 1..])
  {
  }

  function AttemptState(s: ReportState, duration: nat, attempt: Attempt): ReportState {
    if attempt.setup.Subscribed? then Steps(s, Processed(duration, attempt.stream)) else s
  }

  function AttemptOutcome(duration: nat, attempt: Attempt): Outcome {
    match attempt.setup
    case ConnectFailed => Transient(ConnectError)
    case SubscribeFailed => Transient(SubscribeError)
    case RequestSendFailed => Transient(SendError)
    case Subscribed => StreamOutcome(duration, attempt.stream)
  }

  /** The requests an attempt sends: the subscription once it has a channel, then the ping replies. */
  function AttemptSent(request: SubscribeRequest, duration: nat, attempt: Attempt): seq<SubscribeRequest> {
    match attempt.setup
    case ConnectFailed => []
    case SubscribeFailed => []
    case RequestSendFailed => [request]
    case Subscribed => [request] + Pongs(Processed(duration, attempt.stream))
  }

  /** Only a subscribed attempt whose window has closed ends permanently; every failure is transient. */
  lemma AttemptOutcomeKinds(duration: nat, attempt: Attempt)
    ensures AttemptOutcome(duration, attempt).Permanent? <==>
      && attempt.setup.Subscribed?
      && var k := |Processed(duration, attempt.stream)|;
         k < |attempt.stream| && attempt.stream[k].elapsed >= duration
    ensures AttemptOutcome(duration, attempt).Permanent? ==> AttemptOutcome(duration, attempt).cause == TimerCompleted
  {
    StreamOutcomeIsDeadline(duration, attempt.stream);
  }

  /** Two streams that differ only in whether ping replies could be sent. */
  predicate SameButSendResults(a: seq<Received>, b: seq<Received>) {
    && |a| == |b|
    && forall i :: 0 <= i < |a| ==>
         && a[i].elapsed == b[i].elapsed
         && (a[i].message == b[i].message
             || (a[i].message.Ok? && b[i].message.Ok? && a[i].message.update.Ping? && b[i].message.update.Ping?))
  }

  /** A failed ping reply is ignored: the report, the outcome and the requests sent do not depend on it. */
  lemma {:induction false} PingSendResultIgnored(s: ReportState, duration: nat, a: seq<Received>, b: seq<Received>)
    requires SameButSendResults(a, b)
    ensures StreamOutcome(duration, a) == StreamOutcome(duration, b)
    ensures Steps(s, Processed(duration, a)) == Steps(s, Processed(duration, b))
    ensures Pongs(Processed(duration, a)) == Pongs(Processed(duration, b))
    decreases |a|
  {
    if |a| > 0 && a[0].elapsed < duration && a[0].message.Ok? {
      assert SameButSendResults(a[1..], b[1..]) by {
        forall i | 0 <= i < |a| - 1 ensures a[1..][i] == a[i + 1] && b[1..][i] == b[i + 1] { }
      }
      PingSendResultIgnored(Step(s, a[0].message.update), duration, a[1..], b[1..]);
    }
  }

  // ---------------------------------------------------------------------------
  // The retry loop

  /** The number of attempts a run makes: up to and including the first permanent outcome. */
  function AttemptsUsed(duration: nat, attempts: seq<Attempt>): (n: nat)
    ensures n <= |attempts| && (|attempts| > 0 ==> n > 0)
    ensures forall i :: 0 <= i < n - 1 ==> AttemptOutcome(duration, attempts[i]).Transient?
    ensures 0 < n < |attempts| ==> AttemptOutcome(duration, attempts[n - 1]).Permanent?
  {
    if |attempts| == 0 then 0
    else if AttemptOutcome(duration, attempts[0]).Permanent? then 1
    else 1 + AttemptsUsed(duration, attempts[1..])
  }

  /** A run that retried after every transient attempt and stopped at a permanent one used exactly those attempts. */
  lemma AttemptsUsedStopsAtFirstPermanent(duration: nat, attempts: seq<Attempt>, k: nat)
    requires 0 < k <= |attempts|
    requires forall i :: 0 <= i < k - 1 ==> AttemptOutcome(duration, attempts[i]).Transient?
    requires k == |attempts| || AttemptOutcome(duration, attempts[k - 1]).Permanent?
    ensures AttemptsUsed(duration, attempts) == k
  {
  }

  /** The shared report after a run of attempts: never reset between them. */
  function RunState(s: ReportState, duration: nat, attempts: seq<Attempt>): ReportState
    decreases |attempts|
  {
    if |attempts| == 0 then s else RunState(AttemptState(s, duration, attempts[0]), duration, attempts[1..])
  }

  lemma {:induction false} RunStateAppend(s: ReportState, duration: nat, a: seq<Attempt>, b: seq<Attempt>)
    ensures RunState(s, duration, a + b) == RunState(RunState(s, duration, a), duration, b)
    decreases |a|
  {
    if |a| > 0 {
      assert (a + b)[1..] == a[1..] + b;
      RunStateAppend(AttemptState(s, duration, a[0]), duration, a[1..], b);
    } else {
      assert a + b == b;
    }
  }

  /** Every attempt keeps the report invariant and only moves the report forward. */
  lemma {:induction false} RunKeepsInvariant(s: ReportState, duration: nat, attempts: seq<Attempt>)
    ensures Consistent(s) ==> Consistent(RunState(s, duration, attempts))
    ensures Extends(s, RunState(s, duration, attempts))
    decreases |attempts|
  {
    if |attempts| > 0 {
      var t := AttemptState(s, duration, attempts[0]);
      if attempts[0].setup.Subscribed? {
        StepsKeepInvariant(s, Processed(duration, attempts[0].stream));
      }
      RunKeepsInvariant(t, duration, attempts[1..]);
      ExtendsTransitive(s, t, RunState(s, duration, attempts));
    }
  }

  /** Across retries the counters never decrease and details are only appended to. */
  lemma RunMonotone(s: ReportState, duration: nat, attempts: seq<Attempt>, i: nat, j: nat)
    requires i <= j <= |attempts|
    ensures Extends(RunState(s, duration, attempts[..i]), RunState(s, duration, attempts[..j]))
  {
    assert attempts[..j] == attempts[..i] + attempts[i..j];
    RunStateAppend(s, duration, attempts[..i], attempts[i..j]);
    RunKeepsInvariant(RunState(s, duration, attempts[..i]), duration, attempts[i..j]);
  }

  /**
   * With a zero-length window the first message of any attempt ends the run:
   * no update is processed, so no reference query is made and the report stays as it was.
   */
  lemma {:induction false} ZeroDurationReportsNothing(s: ReportState, attempts: seq<Attempt>)
    ensures RunState(s, 0, attempts) == s
    ensures forall a :: a in attempts ==> Processed(0, a.stream) == []
    ensures forall a :: a in attempts && a.setup.Subscribed? && |a.stream| > 0 ==>
      AttemptOutcome(0, a) == Permanent(TimerCompleted)
    decreases |attempts|
  {
    if |attempts| > 0 {
      ZeroDurationReportsNothing(s, attempts[1..]);
    }
  }

  /** A reference reply that lists exactly `n` signatures. */
  predicate Lists(reply: RpcReply, n: nat) {
    reply.RpcBlock? && ReferenceCount(reply.signatures) == n
  }

  /**
   * Three blocks with stream counts 5, 7, 2 whose reference blocks list 5, 7 and 3
   * signatures: three blocks, one mismatch whose line names the third slot with 2 and 3.
   */
  lemma ThreeBlockScenario(r0: RpcReply, r1: RpcReply, r2: RpcReply, stream: seq<Received>)
    requires Lists(r0, 5) && Lists(r1, 7) && Lists(r2, 3)
    requires stream == [
      Received(1, Ok(Block(100, 5, r0))),
      Received(2, Ok(Block(101, 7, r1))),
      Received(3, Ok(Block(102, 2, r2)))]
    ensures AttemptState(Empty, 60, Attempt(Subscribed, stream))
         == ReportState(3, 1, 14, 15, [FormatMismatch(MismatchRecord(102, 2, 3))])
    ensures AttemptOutcome(60, Attempt(Subscribed, stream)) == Transient(StreamEnded)
    ensures ParseMismatch(AttemptState(Empty, 60, Attempt(Subscribed, stream)).details[0])
         == Some(MismatchRecord(102, 2, 3))
  {
    var b0, b1, b2 := Block(100, 5, r0), Block(101, 7, r1), Block(102, 2, r2);
    ScenarioStream(stream, b0, b1, b2);
    ScenarioReport(b0, b1, b2);
    ParseFormat(MismatchRecord(102, 2, 3));
  }

  /** The scenario's three blocks, folded over an empty report. */
  lemma ScenarioReport(b0: Update, b1: Update, b2: Update)
    requires b0.Block? && b0.slot == 100 && b0.executedTransactionCount == 5 && Lists(b0.reply, 5)
    requires b1.Block? && b1.slot == 101 && b1.executedTransactionCount == 7 && Lists(b1.reply, 7)
    requires b2.Block? && b2.slot == 102 && b2.executedTransactionCount == 2 && Lists(b2.reply, 3)
    ensures Steps(Empty, [b0, b1, b2])
         == ReportState(3, 1, 14, 15, [FormatMismatch(MismatchRecord(102, 2, 3))])
  {
    var s1, s2 := ReportState(1, 0, 5, 5, []), ReportState(2, 0, 12, 12, []);
    ScenarioStep(Empty, b0, 5, s1);
    ScenarioStep(s1, b1, 7, s2);
    ScenarioStep(s2, b2, 3, ReportState(3, 1, 14, 15, [FormatMismatch(MismatchRecord(102, 2, 3))]));
    ThreeSteps(Empty, b0, b1, b2);
  }

  /** The scenario's stream is processed in full and its end is transient. */
  lemma ScenarioStream(stream: seq<Received>, b0: Update, b1: Update, b2: Update)
    requires stream == [Received(1, Ok(b0)), Received(2, Ok(b1)), Received(3, Ok(b2))]
    ensures Processed(60, stream) == [b0, b1, b2]
    ensures StreamOutcome(60, stream) == Transient(StreamEnded)
  {
    var rest1, rest2 := stream[1..], stream[2..];
    assert rest1 == [Received(2, Ok(b1)), Received(3, Ok(b2))];
    assert rest2 == rest1[1..] == [Received(3, Ok(b2))];
    assert rest2[1..] == [];
    assert Processed(60, rest2) == [b2];
    assert Processed(60, rest1) == [b1, b2];
    assert StreamOutcome(60, rest2) == Transient(StreamEnded);
    assert StreamOutcome(60, rest1) == Transient(StreamEnded);
  }

  /** One block whose reference reply lists `rpcCount` signatures: one more block, its counts, and a line exactly when they differ. */
  lemma ScenarioStep(s: ReportState, u: Update, rpcCount: nat, t: ReportState)
    requires u.Block? && Lists(u.reply, rpcCount)
    requires t == ReportState(
      s.totalBlocks + 1,
      s.mismatchedBlocks + (if u.executedTransactionCount == rpcCount then 0 else 1),
      s.totalGrpcTxs + u.executedTransactionCount,
      s.totalRpcTxs + rpcCount,
      s.details + (if u.executedTransactionCount == rpcCount then []
                   else [FormatMismatch(MismatchRecord(u.slot, u.executedTransactionCount, rpcCount))]))
    ensures Step(s, u) == t
  {
    if u.executedTransactionCount == rpcCount {
      assert s.details + [] == s.details;
    }
  }

  lemma ThreeSteps(s: ReportState, b0: Update, b1: Update, b2: Update)
    ensures Steps(s, [b0, b1, b2]) == Step(Step(Step(s, b0), b1), b2)
  {
    assert [b0, b1, b2][1..] == [b1, b2];
    assert [b1, b2][1..] == [b2];
    assert [b2][1..] == [];
    var s1 := Step(s, b0);
    var s2 := Step(s1, b1);
    assert Steps(s2, [b2]) == Step(s2, b2);
    assert Steps(s1, [b1, b2]) == Step(s2, b2);
  }

  /** The message loop's invariants carried past one processed item. */
  lemma LoopAdvance(s0: ReportState, duration: nat, stream: seq<Received>, i: nat, done: seq<Update>)
    requires i < |stream| && stream[i].elapsed < duration && stream[i].message.Ok?
    requires Processed(duration, stream) == done + Processed(duration, stream[i..])
    requires StreamOutcome(duration, stream) == StreamOutcome(duration, stream[i..])
    ensures var u := stream[i].message.update;
      && Processed(duration, stream) == (done + [u]) + Processed(duration, stream[i + 1..])
      && StreamOutcome(duration, stream) == StreamOutcome(duration, stream[i + 1..])
      && Steps(s0, done + [u]) == Step(Steps(s0, done), u)
      && Pongs(done + [u]) == Pongs(done) + (if u.Ping? then [PingReply()] else [])
  {
    var u := stream[i].message.update;
    StreamAt(duration, stream, i);
    StepsSnoc(s0, done, u);
    PongsSnoc(done, u);
    assert done + [u] + Processed(duration, stream[i + 1..]) == done + ([u] + Processed(duration, stream[i + 1..]));
  }

  /**
   * The body of the message loop for one update: a block is counted and
   * compared against the reference feed, a ping is answered, anything else is
   * ignored. Returns the requests sent in answer.
   */
  method HandleUpdate(report: Report, update: Update) returns (replies: seq<SubscribeRequest>)
    modifies report
    ensures report.State() == Step(old(report.State()), update)
    ensures replies == if update.Ping? then [PingReply()] else []
    ensures old(report.Valid()) ==> report.Valid()
  {
    replies := [];
    match update {
      case Block(slot, count, reply) =>
        report.totalBlocks := report.totalBlocks + 1;
        report.totalGrpcTxs := report.totalGrpcTxs + count;
        // A failed comparison is only logged; the loop goes on.
        var compared := CompareWithRpc(slot, count, reply, report);
      case Ping(_) =>
        // The result of the send is discarded.
        replies := [PingReply()];
      case Other =>
    }
  }

  /**
   * The message loop of a subscribed attempt: before each item the elapsed time
   * is checked against the window; an error item or the end of the stream ends
   * the attempt for a retry. `request` is the subscription already sent.
   */
  method ConsumeStream(report: Report, request: SubscribeRequest, duration: nat, stream: seq<Received>)
    returns (outcome: Outcome, sent: seq<SubscribeRequest>)
    modifies report
    ensures report.State() == Steps(old(report.State()), Processed(duration, stream))
    ensures outcome == StreamOutcome(duration, stream)
    ensures sent == [request] + Pongs(Processed(duration, stream))
    ensures old(report.Valid()) ==> report.Valid()
  {
    sent := [request];
    ghost var s0 := report.State();
    ghost var done: seq<Update> := [];
    var i := 0;
    while i < |stream|
      invariant 0 <= i <= |stream|
      invariant Processed(duration, stream) == done + Processed(duration, stream[i..])
      invariant StreamOutcome(duration, stream) == StreamOutcome(duration, stream[i..])
      invariant report.State() == Steps(s0, done)
      invariant sent == [request] + Pongs(done)
    {
      var received := stream[i];
      if received.elapsed >= duration {
        StreamAt(duration, stream, i);
        assert done + [] == done;
        StepsKeepInvariant(s0, done);
        return Permanent(TimerCompleted), sent;
      }
      if received.message.Err? {
        StreamAt(duration, stream, i);
        break;
      }
      var update := received.message.update;
      var replies := HandleUpdate(report, update);
      sent := sent + replies;
      LoopAdvance(s0, duration, stream, i, done);
      done := done + [update];
      i := i + 1;
    }
    if i == |stream| {
      assert stream[i..] == [];
    }
    assert done + [] == done;
    StepsKeepInvariant(s0, done);
    return Transient(StreamEnded), sent;
  }

  /**
   * One connection attempt against the shared `report`: connect, subscribe and
   * send `request`, any failure of which is transient, then run the message loop.
   */
  method RunAttempt(report: Report, request: SubscribeRequest, duration: nat, attempt: Attempt)
    returns (outcome: Outcome, sent: seq<SubscribeRequest>)
    modifies report
    ensures report.State() == AttemptState(old(report.State()), duration, attempt)
    ensures outcome == AttemptOutcome(duration, attempt)
    ensures sent == AttemptSent(request, duration, attempt)
    ensures old(report.Valid()) ==> report.Valid()
  {
    match attempt.setup {
      case ConnectFailed => return Transient(ConnectError), [];
      case SubscribeFailed => return Transient(SubscribeError), [];
      case RequestSendFailed => return Transient(SendError), [request];
      case Subscribed => outcome, sent := ConsumeStream(report, request, duration, attempt.stream);
    }
  }

  /**
   * A whole run: one report for every attempt, a new attempt after each
   * transient outcome, stopping at the first permanent one or when the backoff
   * policy allows no further attempt.
   */
  method RunStreamForDuration(request: SubscribeRequest, duration: nat, attempts: seq<Attempt>)
    returns (report: Report, used: nat, outcome: Outcome)
    requires |attempts| > 0
    ensures fresh(report)
    ensures used == AttemptsUsed(duration, attempts)
    ensures outcome == AttemptOutcome(duration, attempts[used - 1])
    ensures report.State() == RunState(Empty, duration, attempts[..used])
    ensures report.Valid()
  {
    report := new Report();
    var sent;
    outcome, sent := RunAttempt(report, request, duration, attempts[0]);
    used := 1;
    assert attempts[..1] == [attempts[0]];
    while outcome.Transient? && used < |attempts|
      invariant 1 <= used <= |attempts|
      invariant forall i :: 0 <= i < used - 1 ==> AttemptOutcome(duration, attempts[i]).Transient?
      invariant outcome == AttemptOutcome(duration, attempts[used - 1])
      invariant report.State() == RunState(Empty, duration, attempts[..used])
      invariant report.Valid()
    {
      ghost var before := report.State();
      outcome, sent := RunAttempt(report, request, duration, attempts[used]);
      assert attempts[..used + 1] == attempts[..used] + [attempts[used]];
      RunStateAppend(Empty, duration, attempts[..used], [attempts[used]]);
      used := used + 1;
    }
    AttemptsUsedStopsAtFirstPermanent(duration, attempts, used);
  }
}
