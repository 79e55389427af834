/**
 * The shared report and the comparison of one block against the reference RPC
 * feed. The report is one object whose four counters and detail list are
 * updated in place; `ReportState` is its value, used to specify every update.
 */
module Reporting {
  import opened Wrappers
  import Decimal

  /** Slots and per-block transaction counts arrive as unsigned 64-bit numbers. */
  type U64 = x: nat | x < 0x1_0000_0000_0000_0000

  /** One disagreement: the slot and the two transaction counts that differ. */
  datatype MismatchRecord = MismatchRecord(slot: nat, grpcCount: nat, rpcCount: nat)

  const SlotLabel: string := "Slot "
  const GrpcLabel: string := " mismatch: gRPC Tx Count="
  const RpcLabel: string := " RPC Tx Count="

  /** The detail line the report keeps for a mismatch. */
  function FormatMismatch(m: MismatchRecord): string {
    SlotLabel + Decimal.Show(m.slot) + GrpcLabel + Decimal.Show(m.grpcCount) + RpcLabel + Decimal.Show(m.rpcCount)
  }

  /** Reads a number at the head of `text` and the `tag` after it; gives the number and what follows. */
  function NumberThen(text: string, tag: string): Option<(nat, string)> {
    var len := Decimal.DigitRun(text);
    var afterNumber := text[len..];
    if len == 0 || !(tag <= afterNumber) then None
    else Some((Decimal.Read(text[..len]), afterNumber[|tag|..]))
  }

  /** Recovers the slot and both counts from a detail line, if it is one. */
  function ParseMismatch(line: string): Option<MismatchRecord> {
    if !(SlotLabel <= line) then None else
    match NumberThen(line[|SlotLabel|..], GrpcLabel)
    case None => None
    case Some((slot, afterGrpcLabel)) =>
      match NumberThen(afterGrpcLabel, RpcLabel)
      case None => None
      case Some((grpcCount, rpcText)) =>
        if |rpcText| == 0 || !Decimal.AllDigits(rpcText) then None
        else Some(MismatchRecord(slot, grpcCount, Decimal.Read(rpcText)))
  }

  /** A number's text followed by a tag reads back as that number, then what follows the tag. */
  lemma NumberThenShow(n: nat, tag: string, rest: string)
    requires |tag| > 0 && !Decimal.IsDigit(tag[0])
    ensures NumberThen(Decimal.Show(n) + tag + rest, tag) == Some((n, rest))
  {
    var digits := Decimal.Show(n);
    var after := tag + rest;
    var text := digits + tag + rest;
    assert text == digits + after;
    var len := Decimal.DigitRun(text);
    assert len == |digits| by {
      Decimal.DigitRunStopsAtNonDigit(digits, after);
    }
    assert text[..len] == digits;
    assert text[len..] == after;
    assert after[|tag|..] == rest;
    Decimal.ReadShow(n);
  }

  /** Every detail line names its slot and both counts: parsing it gives them back. */
  lemma ParseFormat(m: MismatchRecord)
    ensures ParseMismatch(FormatMismatch(m)) == Some(m)
  {
    var a, b, c := Decimal.Show(m.slot), Decimal.Show(m.grpcCount), Decimal.Show(m.rpcCount);
    var afterGrpcLabel := b + RpcLabel + c;
    var afterSlotLabel := a + GrpcLabel + afterGrpcLabel;
    Regroup(SlotLabel, a, GrpcLabel, b, RpcLabel, c);
    NumberThenShow(m.slot, GrpcLabel, afterGrpcLabel);
    NumberThenShow(m.grpcCount, RpcLabel, c);
    Decimal.ReadShow(m.rpcCount);
    ParseLabelled(SlotLabel + afterSlotLabel, m, afterSlotLabel, afterGrpcLabel, c);
  }

  /** The detail line's six parts, regrouped from the right so it splits after each label. */
  lemma Regroup(p: string, q: string, r: string, s: string, t: string, u: string)
    ensures p + q + r + s + t + u == p + (q + r + (s + t + u))
  {
  }

  /** A line made of the slot label, then a number and the gRPC label, and so on, parses to those numbers. */
  lemma ParseLabelled(line: string, m: MismatchRecord, afterSlotLabel: string, afterGrpcLabel: string, rpcText: string)
    requires line == SlotLabel + afterSlotLabel
    requires NumberThen(afterSlotLabel, GrpcLabel) == Some((m.slot, afterGrpcLabel))
    requires NumberThen(afterGrpcLabel, RpcLabel) == Some((m.grpcCount, rpcText))
    requires |rpcText| > 0 && Decimal.AllDigits(rpcText) && Decimal.Read(rpcText) == m.rpcCount
    ensures ParseMismatch(line) == Some(m)
  {
    assert line[|SlotLabel|..] == afterSlotLabel;
  }

  /** Distinct mismatches never produce the same detail line. */
  lemma FormatInjective(m1: MismatchRecord, m2: MismatchRecord)
    ensures FormatMismatch(m1) == FormatMismatch(m2) ==> m1 == m2
  {
    ParseFormat(m1);
    ParseFormat(m2);
  }

  /** The value of a report: four running totals and the mismatch lines in arrival order. */
  datatype ReportState = ReportState(
    totalBlocks: nat,
    mismatchedBlocks: nat,
    totalGrpcTxs: nat,
    totalRpcTxs: nat,
    details: seq<string>)

  const Empty := ReportState(0, 0, 0, 0, [])

  /** The report invariant: one detail line per mismatch, never more mismatches than blocks. */
  ghost predicate Consistent(s: ReportState) {
    s.mismatchedBlocks <= s.totalBlocks && |s.details| == s.mismatchedBlocks
  }

  /** `t` is a later state of the report `s`: no counter went down and details only grew at the end. */
  ghost predicate Extends(s: ReportState, t: ReportState) {
    && s.totalBlocks <= t.totalBlocks
    && s.mismatchedBlocks <= t.mismatchedBlocks
    && s.totalGrpcTxs <= t.totalGrpcTxs
    && s.totalRpcTxs <= t.totalRpcTxs
    && s.details <= t.details
  }

  lemma ExtendsTransitive(s: ReportState, t: ReportState, u: ReportState)
    requires Extends(s, t) && Extends(t, u)
    ensures Extends(s, u)
  {
  }

  /** What the reference RPC feed answered for one slot. */
  datatype RpcReply = RpcFailed | RpcBlock(signatures: Option<seq<string>>)

  datatype RpcError = RpcError

  /** The reference count: the number of signatures, or 0 when the block lists none. */
  function ReferenceCount(signatures: Option<seq<string>>): nat {
    match signatures
    case None => 0
    case Some(sigs) => |sigs|
  }

  /** The block counted on receipt, before it is compared. */
  function BlockCounted(s: ReportState, grpcCount: nat): ReportState {
    s.(totalBlocks := s.totalBlocks + 1, totalGrpcTxs := s.totalGrpcTxs + grpcCount)
  }

  /** The report after comparing the stream's count for `slot` with the reference reply. */
  function Compared(s: ReportState, slot: nat, grpcCount: nat, reply: RpcReply): ReportState {
    match reply
    case RpcFailed => s
    case RpcBlock(signatures) =>
      var rpcCount := ReferenceCount(signatures);
      var counted := s.(totalRpcTxs := s.totalRpcTxs + rpcCount);
      if grpcCount != rpcCount then
        counted.(mismatchedBlocks := counted.mismatchedBlocks + 1,
                 details := counted.details + [FormatMismatch(MismatchRecord(slot, grpcCount, rpcCount))])
      else counted
  }

  /**
   * What one comparison does to the report: the reference count is added; a
   * mismatch adds one to the mismatch count and appends one line that names the
   * slot and both counts; a match and a failed query add nothing else.
   */
  lemma ComparedEffect(s: ReportState, slot: nat, grpcCount: nat, reply: RpcReply)
    ensures var t := Compared(s, slot, grpcCount, reply);
      && t.totalBlocks == s.totalBlocks && t.totalGrpcTxs == s.totalGrpcTxs
      && (reply.RpcFailed? ==> t == s)
      && (reply.RpcBlock? ==>
            var rpcCount := ReferenceCount(reply.signatures);
            && t.totalRpcTxs == s.totalRpcTxs + rpcCount
            && (grpcCount == rpcCount ==>
                  t.mismatchedBlocks == s.mismatchedBlocks && t.details == s.details)
            && (grpcCount != rpcCount ==>
                  && t.mismatchedBlocks == s.mismatchedBlocks + 1
                  && |t.details| == |s.details| + 1
                  && t.details[..|s.details|] == s.details
                  && ParseMismatch(t.details[|s.details|]) == Some(MismatchRecord(slot, grpcCount, rpcCount))))
  {
    if reply.RpcBlock? {
      var rpcCount := ReferenceCount(reply.signatures);
      ParseFormat(MismatchRecord(slot, grpcCount, rpcCount));
      var t := Compared(s, slot, grpcCount, reply);
      if grpcCount != rpcCount {
        assert t.details == s.details + [FormatMismatch(MismatchRecord(slot, grpcCount, rpcCount))];
      }
    }
  }

  /** The report shared by every connection attempt of one run. */
  class Report {
    var totalBlocks: nat
    var mismatchedBlocks: nat
    var totalGrpcTxs: nat
    var totalRpcTxs: nat
    var details: seq<string>

    constructor ()
      ensures State() == Empty
    {
      totalBlocks, mismatchedBlocks, totalGrpcTxs, totalRpcTxs := 0, 0, 0, 0;
      details := [];
    }

    function State(): ReportState
      reads this
    {
      ReportState(totalBlocks, mismatchedBlocks, totalGrpcTxs, totalRpcTxs, details)
    }

    ghost predicate Valid()
      reads this
    {
      Consistent(State())
    }
  }

  /**
   * Queries the reference feed's answer for `slot` and records the comparison in
   * `report`. A failed query is returned as an error and leaves the report as it was.
   */
  method CompareWithRpc(slot: U64, grpcCount: U64, reply: RpcReply, report: Report)
    returns (r: Result<(), RpcError>)
    modifies report
    ensures report.State() == Compared(old(report.State()), slot, grpcCount, reply)
    ensures r.Failure? <==> reply.RpcFailed?
  {
    if reply.RpcFailed? {
      return Failure(RpcError);
    }
    var rpcCount := ReferenceCount(reply.signatures);
    report.totalRpcTxs := report.totalRpcTxs + rpcCount;
    if grpcCount != rpcCount {
      report.mismatchedBlocks := report.mismatchedBlocks + 1;
      report.details := report.details + [FormatMismatch(MismatchRecord(slot, grpcCount, rpcCount))];
    }
    return Success(());
  }
}
