# Solana gRPC integrity checker: reconciliation core

This project models how the checker reconciles a Yellowstone gRPC block
stream with a Solana RPC node. For every block the stream delivers, the
checker counts the block and the stream's `executed_transaction_count`. It
then asks the RPC node for the same slot and counts that block's signatures.
It adds the reference count to the report, and when the two counts differ it
records a mismatch and one detail line. Keep-alive pings are answered. Every
other update is ignored.

When the stream yields a next item or ends, the stream loop ends in one of
two ways:

- A message arrives after the observation window has closed. This ends the run
  with a *permanent* outcome.
- The stream yields an error item or ends. This gives a *transient* "Stream
  ended" outcome, and the retry loop connects again.

One `Report` and one start instant serve every attempt of a run, so totals
carry over across reconnections.

Modules:

- `Wrappers`: `Option` and `Result`.
- `Decimal`: the decimal text Rust's `{}` gives an unsigned integer, and a
  reader that inverts it.
- `Request`: the block subscription request and the ping reply.
- `Reporting`: the `Report` class, with four counters and an append-only
  `details` list updated in place. Also its value `ReportState`, the detail-line
  format and its parser, and `CompareWithRpc` with the function `Compared`
  that specifies it.
- `Reconciler`: the events of the stream and the pure specification of one
  update (`Step`), of one attempt (`Processed`, `StreamOutcome`) and of a run
  (`AttemptsUsed`, `RunState`). It also holds the imperative loops
  `ConsumeStream` and `RunStreamForDuration`, proved against that
  specification.

How the environment is represented:

- Each received item carries the time elapsed since the run started.
- An RPC answer is an input: `RpcFailed`, or a block whose signature list may
  be absent.
- Connecting, subscribing and sending the initial request are an input `Setup`
  for each attempt.
- The retry policy's allowance is the finite sequence of attempts given to
  `RunStreamForDuration`.

## Model

| member | source | states |
|---|---|---|
| `Request.BuildBlocksRequest` | src/main.rs:50-67 | the request has exactly one block filter, named "client"; that filter includes transactions, has no account filter and leaves accounts and entries unset; the commitment decodes to Finalized; no ping is set |
| `Request.CommitmentCode` | src/main.rs:64 | the wire number sent for a commitment level decodes back to that level |
| `Request.PingReply` | src/main.rs:125-130 | the ping answer carries ping id 1 and nothing else, and differs from the subscription request |
| `Decimal.Show` | src/main.rs:169-172 | the decimal text of a count is non-empty and all digits; it is "0" exactly for 0, and otherwise has no leading zero |
| `Decimal.ReadShow` | src/main.rs:169-172 | reading back the decimal text of any number gives that number |
| `Decimal.ShowInjective` | src/main.rs:169-172 | two numbers with the same decimal text are equal |
| `Reporting.ParseFormat` | src/main.rs:169-172 | every mismatch detail line names its slot, its gRPC count and its RPC count: parsing the line gives all three back |
| `Reporting.FormatInjective` | src/main.rs:169-172 | different mismatches never produce the same detail line |
| `Reporting.ComparedEffect` | src/main.rs:161-180 | a comparison leaves the block and gRPC totals alone. A failed RPC query changes nothing. A successful one adds the signature count, or 0 when there is no signature list. On inequality it adds 1 to the mismatch count and appends exactly one line that parses back to the slot and both counts. On equality the mismatch count and details are unchanged |
| `Reporting.CompareWithRpc` | src/main.rs:142-183 | the report after the call is `Compared` of the report before it; the call returns an error exactly when the RPC query failed |
| `Reporting.Report.constructor` | src/main.rs:70-80 | a new report has all counters at zero and no details |
| `Reconciler.Step` | src/main.rs:108-131 | a block update adds 1 to the block total and adds its executed-transaction count to the gRPC total, whatever the RPC answer. A ping or any other update leaves the report unchanged. Every update keeps the report invariant (mismatches at most blocks, one detail line per mismatch) and only moves the report forward |
| `Reconciler.StepsKeepInvariant` | src/main.rs:113-120 | after any sequence of updates the report invariant still holds, no counter has decreased, and the old details are a prefix of the new ones |
| `Reconciler.StepsTotals` | src/main.rs:108-123 | after a sequence of updates, the block total has grown by the number of block updates and the gRPC total by the sum of their counts. The RPC total has grown by the sum of the reference counts of the successful queries. The mismatch count has grown by the number of disagreements, and the details by one line per disagreement, in arrival order |
| `Reconciler.DetailLinesName` | src/main.rs:169-172 | the i-th appended detail line is the formatted i-th disagreement and parses back to it |
| `Reconciler.PongsPerPing` | src/main.rs:124-131 | the requests sent in answer to pings are exactly one ping reply per ping update |
| `Reconciler.PingSendResultIgnored` | src/main.rs:125-130 | two streams that differ only in whether ping replies could be sent give the same report, the same outcome and the same sent requests |
| `Reconciler.ProcessedIsLongestPrefix` | src/main.rs:98-106 | the processed updates are the longest prefix of the stream whose items all arrived before the deadline and are updates, not error items |
| `Reconciler.StreamOutcomeIsDeadline` | src/main.rs:98-134 | a subscribed attempt ends with the permanent "timer completed" outcome exactly when the first unprocessed item arrived at or after the deadline. Otherwise (error item or end of stream) it ends with the transient "Stream ended" outcome |
| `Reconciler.AttemptOutcomeKinds` | src/main.rs:88-134 | an attempt ends permanently only if it subscribed and its window closed, and the cause is then the timer. Connect, subscribe and send failures are transient |
| `Reconciler.AttemptsUsed` | src/main.rs:83-137 | the run makes at least one attempt and no more than it is allowed. Every attempt before the last one was transient. If attempts remain after the last one, the last one was permanent |
| `Reconciler.AttemptsUsedStopsAtFirstPermanent` | src/main.rs:83-137 | a run that retried after each transient outcome and stopped at a permanent one made exactly that many attempts |
| `Reconciler.RunKeepsInvariant` | src/main.rs:80-137 | the shared report keeps its invariant across all attempts of a run and never moves backwards |
| `Reconciler.RunMonotone` | src/main.rs:80-88 | the report is never reset between attempts: for any i <= j, the report after j attempts extends the report after i attempts |
| `Reconciler.ZeroDurationReportsNothing` | src/main.rs:98-104 | with a zero-length window no update is ever processed, so no RPC query is made and the report stays empty. The first message of any subscribed attempt ends the run permanently |
| `Reconciler.ThreeBlockScenario` | src/main.rs:108-180 | for any reference replies listing 5, 7 and 3 signatures, stream counts 5, 7, 2 give 3 blocks, 1 mismatch, 14 gRPC and 15 RPC transactions, and one detail line naming the third slot with 2 and 3; the stream's end is transient |
| `Reconciler.HandleUpdate` | src/main.rs:108-131 | the loop body takes the report from its old state to `Step` of it, keeps the report invariant, and sends one ping reply exactly for a ping |
| `Reconciler.ConsumeStream` | src/main.rs:98-134 | the message loop applies exactly the processed updates to the report, in order, and keeps the report invariant. It returns the outcome `StreamOutcome` and sends the subscription followed by one reply per processed ping |
| `Reconciler.RunAttempt` | src/main.rs:87-135 | a failure to connect, to subscribe or to send the request returns a transient outcome and leaves the report alone; otherwise the message loop runs. Either way the report invariant is kept |
| `Reconciler.RunStreamForDuration` | src/main.rs:79-139 | a run creates one fresh report, makes `AttemptsUsed` attempts, and returns the last attempt's outcome. The final report is every attempt's effect folded over one empty report and satisfies the report invariant |

## Left out

- Connecting with TLS and an x-token, and the subscribe handshake
  (src/main.rs:41-48, 88-96), are network I/O through client libraries. Each
  attempt's `Setup` says how far it got. Whether the initial send succeeded is
  an input, and the request itself is recorded as sent.
- The RPC call `get_block_with_config` (src/main.rs:148-159) is a blocking call
  into a client library. Its result is the input `RpcReply`. The RPC client
  construction, encoding and transaction-version settings are not modelled.
- The `ExponentialBackoff` delay schedule and its maximum elapsed time
  (src/main.rs:83) live in the `backoff` crate. Only the
  transient-versus-permanent decision is modelled. The point where the policy
  gives up is the end of the attempt sequence. No delays are modelled, so no
  property of the retry delays is stated.
- Wall-clock time (src/main.rs:81, 99) is the `elapsed` value on each received
  item. Items are not required to carry increasing values.
- `Arc`, `Mutex` and the tokio runtime (src/main.rs:80, 114, 163, 216-228) are
  left out. Each comparison is awaited inline, so the loop is sequential and
  every report update is one step.
- Logging, the final report printout (src/main.rs:185-201), argument parsing
  and logger setup (src/main.rs:26-38, 203-212) are output or configuration.
  They have no effect on the report.
- `SubscribeRequest` fields other than the block filters, the commitment and
  the ping are not represented. The checker leaves them all at their defaults.
- The wire numbers of the commitment levels come from the Yellowstone protocol
  definition, which is not part of this model.
- Reporting.CompareWithRpc: the counters are unbounded naturals. A `u64` total
  that overflowed would panic or wrap in the source, and the model does not
  capture that.
- Reconciler.HandleUpdate: as for `CompareWithRpc`, `u64` overflow of
  `total_blocks` and `total_grpc_txs` is not modelled.
- A ping is answered with ping id 1, whatever the id of the ping received
  (src/main.rs:127).
- A single error item ends the attempt (src/main.rs:106).
- Comparisons are awaited inline, so detail lines are in arrival order
  (src/main.rs:120).
- A subscription that stays open but sends nothing is not represented. The
  model covers only attempts whose stream yields a next item or ends. In the
  source, the deadline is checked only after `stream.next()` returns
  (src/main.rs:98-99), and there is no receive time-out. A silent open stream
  therefore keeps the run waiting past its window: it never returns the
  permanent outcome and never prints the report.
