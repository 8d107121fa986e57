/** The extended RTP sequence number (media/rtp_sequencer.go, appendix A.1 of RFC 3550). */
module RtpSequencer {
  import opened Basics
  import opened Wrap16

  const MAX_MISORDER := 100
  const MAX_DROPOUT := 3000
  const MAX_SEQ := 65535
  const EXTENDED_SPAN := 65536 * 65536

  datatype Error = OutOfSequence | Duplicate
  datatype Verdict = Accepted | Refused(error: Error)

  /** The three fields of RTPExtendedSequenceNumber. */
  datatype SeqState = SeqState(seqNum: U16, wraps: U16, badSeq: U16) {
    function Extended(): nat {
      seqNum + SPAN * wraps
    }
  }

  function Init(number: U16): SeqState {
    SeqState(number, 0, MAX_SEQ)
  }

  function Update(s: SeqState, number: U16): (SeqState, Verdict) {
    var ahead := Wrap(number - s.seqNum);
    if ahead < MAX_DROPOUT then
      (SeqState(number, if number < s.seqNum then Wrap(s.wraps + 1) else s.wraps, s.badSeq), Accepted)
    else if ahead <= MAX_SEQ - MAX_MISORDER then
      if number == s.badSeq then (Init(number), Accepted)
      else (s.(badSeq := Wrap(number + 1)), Refused(OutOfSequence))
    else
      (s, Refused(Duplicate))
  }

  function Next(s: SeqState): SeqState {
    var n := Wrap(s.seqNum + 1);
    SeqState(n, if n == 0 then Wrap(s.wraps + 1) else s.wraps, s.badSeq)
  }

  /** The state after the packets with the given true indices arrive in turn. */
  function RunUpdates(s: SeqState, indices: seq<int>): SeqState
    decreases |indices|
  {
    if indices == [] then s
    else RunUpdates(Update(s, Wrap(indices[0])).0, indices[1..])
  }

  function RunNext(s: SeqState, count: nat): SeqState
    decreases count
  {
    if count == 0 then s else RunNext(Next(s), count - 1)
  }

  function Highest(top: int, indices: seq<int>): int
    decreases |indices|
  {
    if indices == [] then top
    else Highest(if indices[0] > top then indices[0] else top, indices[1..])
  }

  /** Every packet lies fewer than 3000 ahead of, or at most 100 behind, the highest so far. */
  predicate WithinReach(top: int, indices: seq<int>)
    decreases |indices|
  {
    indices == [] ||
    (-MAX_MISORDER <= indices[0] - top < MAX_DROPOUT &&
     WithinReach(if indices[0] > top then indices[0] else top, indices[1..]))
  }

  /** `s` holds the true value `x` in 32 bits. */
  predicate Holds(s: SeqState, x: int) {
    s.Extended() == x % EXTENDED_SPAN
  }

  lemma HoldsParts(s: SeqState, x: int)
    ensures Holds(s, x) <==> s.seqNum == Wrap(x) && s.wraps == Wrap(x / SPAN)
  {
    var q := x / SPAN;
    assert x == SPAN * q + Wrap(x);
    assert q == SPAN * (q / SPAN) + Wrap(q);
    assert x == EXTENDED_SPAN * (q / SPAN) + (SPAN * Wrap(q) + Wrap(x));
    QuotientUnique(x, q / SPAN, SPAN * Wrap(q) + Wrap(x));
  }

  lemma QuotientUnique(x: int, q: int, r: int)
    requires 0 <= r < EXTENDED_SPAN && x == EXTENDED_SPAN * q + r
    ensures x % EXTENDED_SPAN == r
  {
  }

  lemma Split(x: int, q: int, r: int)
    requires 0 <= r < SPAN && x == SPAN * q + r
    ensures x / SPAN == q && Wrap(x) == r
  {
  }

  /** Adding less than a wrap carries into the quotient exactly when the remainder falls. */
  lemma Carry(x: int, step: nat)
    requires step < SPAN
    ensures (x + step) / SPAN == x / SPAN + if Wrap(x + step) < Wrap(x) then 1 else 0
  {
    var q, r := x / SPAN, Wrap(x);
    if r + step < SPAN {
      Split(x + step, q, r + step);
    } else {
      Split(x + step, q + 1, r + step - SPAN);
    }
  }

  lemma AdvanceHolds(s: SeqState, x: int, step: nat, t: SeqState)
    requires Holds(s, x) && step < SPAN
    requires t.seqNum == Wrap(x + step)
    requires t.wraps == if t.seqNum < s.seqNum then Wrap(s.wraps + 1) else s.wraps
    ensures Holds(t, x + step)
  {
    HoldsParts(s, x);
    HoldsParts(t, x + step);
    Carry(x, step);
    WrapShift(x / SPAN, 1);
    hide Wrap, Holds;
  }

  lemma WithinReachWraps(d: int)
    requires -MAX_MISORDER <= d < MAX_DROPOUT
    ensures Wrap(d) == if d >= 0 then d else d + SPAN
  {
  }

  lemma UpdateHolds(s: SeqState, x: int, index: int, top: int)
    requires Holds(s, x) && Wrap(x) == Wrap(top)
    requires -MAX_MISORDER <= index - top < MAX_DROPOUT
    ensures var t := Update(s, Wrap(index)).0;
            var grown := if index > top then index else top;
            Holds(t, x + (grown - top)) && Wrap(x + (grown - top)) == Wrap(grown)
  {
    HoldsParts(s, x);
    hide Wrap, Holds;
    ResidueDifference(index, top);
    WithinReachWraps(index - top);
    if index >= top {
      ResidueSum(x, top, index - top);
      AdvanceHolds(s, x, index - top, Update(s, Wrap(index)).0);
    }
  }

  lemma ResidueDifference(a: int, b: int)
    ensures Wrap(Wrap(a) - Wrap(b)) == Wrap(a - b)
  {
    assert a == SPAN * (a / SPAN) + Wrap(a);
    assert b == SPAN * (b / SPAN) + Wrap(b);
    assert a - b == SPAN * (a / SPAN - b / SPAN) + (Wrap(a) - Wrap(b));
  }

  lemma ResidueSum(x: int, y: int, step: int)
    requires Wrap(x) == Wrap(y)
    ensures Wrap(x + step) == Wrap(y + step)
  {
    WrapShift(x, step);
    WrapShift(y, step);
  }

  /**
   * The extended number follows the true highest index through any number of wraps: it is
   * that index's advance from the start, modulo 2^32, and exactly it below 2^32.
   */
  lemma {:induction false} TracksHighest(first: int, indices: seq<int>)
    requires WithinReach(first, indices)
    ensures var s := RunUpdates(Init(Wrap(first)), indices);
            var grown := Init(Wrap(first)).Extended() + (Highest(first, indices) - first);
            Holds(s, grown) &&
            (grown < EXTENDED_SPAN ==> s.Extended() == grown)
  {
    var start := Init(Wrap(first));
    StartHolds(Wrap(first));
    TracksFrom(start, Wrap(first), first, indices);
    HighestGrows(first, indices);
    BelowSpan(Wrap(first) + (Highest(first, indices) - first));
  }

  lemma StartHolds(number: U16)
    ensures Holds(Init(number), number)
  {
    HoldsParts(Init(number), number);
  }

  lemma BelowSpan(x: nat)
    ensures x < EXTENDED_SPAN ==> x % EXTENDED_SPAN == x
  {
  }

  lemma {:induction false} TracksFrom(s: SeqState, x: int, top: int, indices: seq<int>)
    requires Holds(s, x) && Wrap(x) == Wrap(top)
    requires WithinReach(top, indices)
    ensures Holds(RunUpdates(s, indices), x + (Highest(top, indices) - top))
    decreases |indices|
  {
    if indices == [] {
    } else {
      var grown := if indices[0] > top then indices[0] else top;
      UpdateHolds(s, x, indices[0], top);
      TracksFrom(Update(s, Wrap(indices[0])).0, x + (grown - top), grown, indices[1..]);
    }
  }

  lemma {:induction false} HighestGrows(top: int, indices: seq<int>)
    ensures Highest(top, indices) >= top
    ensures forall i :: 0 <= i < |indices| ==> indices[i] <= Highest(top, indices)
    ensures Highest(top, indices) == top || Highest(top, indices) in indices
    decreases |indices|
  {
    if indices == [] {
    } else {
      HighestGrows(if indices[0] > top then indices[0] else top, indices[1..]);
    }
  }

  /** A writer's sequencer counts every packet it numbered, modulo 2^32. */
  lemma {:induction false} NextCounts(s: SeqState, x: int, count: nat)
    requires Holds(s, x)
    ensures Holds(RunNext(s, count), x + count)
    decreases count
  {
    if count == 0 {
    } else {
      HoldsParts(s, x);
      WrapShift(x, 1);
      AdvanceHolds(s, x, 1, Next(s));
      NextCounts(Next(s), x + 1, count - 1);
    }
  }

  /** Within reach, a packet is accepted exactly when it is not behind the highest, else a duplicate. */
  lemma VerdictTellsTheOrder(s: SeqState, x: int, index: int, top: int)
    requires Holds(s, x) && Wrap(x) == Wrap(top)
    requires -MAX_MISORDER <= index - top < MAX_DROPOUT
    ensures Update(s, Wrap(index)).1 == if index >= top then Accepted else Refused(Duplicate)
  {
    HoldsParts(s, x);
    ResidueDifference(index, top);
  }

  // ---------- restarts after a large jump ----------

  predicate Jumps(s: SeqState, number: U16) {
    MAX_DROPOUT <= Wrap(number - s.seqNum) <= MAX_SEQ - MAX_MISORDER
  }

  function RunNumbers(first: U16, numbers: seq<U16>): SeqState {
    if numbers == [] then Init(first)
    else Update(RunNumbers(first, numbers[..|numbers| - 1]), numbers[|numbers| - 1]).0
  }

  /** The last jump refused since the number was last set anew. */
  function LastRefused(first: U16, numbers: seq<U16>): (j: Option<U16>) {
    if numbers == [] then None
    else
      var n := numbers[|numbers| - 1];
      var s := RunNumbers(first, numbers[..|numbers| - 1]);
      if !Jumps(s, n) then LastRefused(first, numbers[..|numbers| - 1])
      else if Update(s, n).1 == Accepted then None
      else Some(n)
  }

  lemma {:induction false} BadSeqFollowsTheJump(first: U16, numbers: seq<U16>)
    ensures var j := LastRefused(first, numbers);
            RunNumbers(first, numbers).badSeq == if j.Some? then Wrap(j.value + 1) else MAX_SEQ
    decreases |numbers|
  {
    if numbers == [] {
    } else {
      BadSeqFollowsTheJump(first, numbers[..|numbers| - 1]);
    }
  }

  /**
   * In every run a large jump sets the number anew exactly when it follows the last refused jump or,
   * with none refused since, when it is 65535; otherwise it is refused and the number stays.
   */
  lemma JumpRestartsExactlyWhen(first: U16, numbers: seq<U16>, n: U16)
    requires Jumps(RunNumbers(first, numbers), n)
    ensures var s := RunNumbers(first, numbers);
            var j := LastRefused(first, numbers);
            var (t, v) := Update(s, n);
            if (j.Some? && n == Wrap(j.value + 1)) || (j.None? && n == MAX_SEQ)
            then t == Init(n) && v == Accepted
            else t.Extended() == s.Extended() && v == Refused(OutOfSequence)
  {
    BadSeqFollowsTheJump(first, numbers);
  }

  /** Appendix A.1 of RFC 3550 asks for two packets in a row; here a lone stray 65535 restarts. */
  lemma LoneJumpCanRestart()
    ensures Jumps(Init(20000), MAX_SEQ) && Update(Init(20000), MAX_SEQ) == (Init(MAX_SEQ), Accepted)
  {
  }

  /** RTPExtendedSequenceNumber */
  class ExtendedSequenceNumber {
    var seqNum: U16
    var wrapAroundCount: U16
    var badSeq: U16

    function State(): SeqState
      reads this
    {
      SeqState(seqNum, wrapAroundCount, badSeq)
    }

    constructor (number: U16)
      ensures State() == Init(number)
    {
      seqNum, badSeq, wrapAroundCount := number, MAX_SEQ, 0;
    }

    method InitSeq(number: U16)
      modifies this
      ensures State() == Init(number)
    {
      seqNum := number;
      badSeq := MAX_SEQ;
      wrapAroundCount := 0;
    }

    method UpdateSeq(number: U16) returns (v: Verdict)
      modifies this
      ensures (State(), v) == Update(old(State()), number)
    {
      var maxSeq := seqNum;
      var udelta := Wrap(number - maxSeq);
      if udelta < MAX_DROPOUT {
        if number < maxSeq {
          wrapAroundCount := Wrap(wrapAroundCount + 1);
        }
        seqNum := number;
        return Accepted;
      }
      if udelta <= MAX_SEQ - MAX_MISORDER {
        if number == badSeq {
          InitSeq(number);
          return Accepted;
        }
        badSeq := Wrap(number + 1);
        return Refused(OutOfSequence);
      }
      return Refused(Duplicate);
    }

    method ReadExtendedSeq() returns (x: nat)
      ensures x == State().Extended()
    {
      x := seqNum + (MAX_SEQ + 1) * wrapAroundCount;
    }

    method NextSeqNumber() returns (n: U16)
      modifies this
      ensures State() == Next(old(State())) && n == State().seqNum
    {
      seqNum := Wrap(seqNum + 1);
      if seqNum == 0 {
        wrapAroundCount := Wrap(wrapAroundCount + 1);
      }
      n := seqNum;
    }
  }
}
