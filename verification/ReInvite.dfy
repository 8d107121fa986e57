/**
 * Answering the peer's re-INVITE against a crossing BYE (dialog_media.go, dialog_server_session.go;
 * sections 13.3.1.4, 14.1, 14.2 and 15.1.2 of RFC 3261). Each event is one hold of answerMu or
 * mu; the handler holds requestMu from its Begin to its EndUpdate, so there is one at a time.
 */
module ReInvite {
  import opened Basics

  const REQUEST_PENDING := 491
  const REQUEST_TERMINATED := 487
  const NO_TRANSACTION := 481
  const SERVER_ERROR := 500
  const BAD_REQUEST := 400
  const OK := 200

  predicate IsSuccess(status: int) {
    200 <= status < 300
  }

  /**
   * What is passed to a server transaction; `again` marks a retransmission, `ended` a BYE that ended
   * the dialog.
   */
  datatype Sent =
    | ToReInvite(tx: nat, status: int, again: bool)
    | ToBye(status: int, ended: bool)

  /** The goroutine retransmitting a 2xx: its interval and, once over, whether the ACK never came. */
  datatype Retransmission = NotStarted | Running(interval: int) | Over(timedOut: bool)

  /** pendingReInvite; `res` is the 2xx sent, once one is. */
  datatype Pending = Pending(tx: nat, cseq: int, answered: bool, res: int, ackWaited: bool, acked: bool,
                             resend: Retransmission)

  /** How far the handler holding requestMu has come; once leaving, only its update is left to end. */
  datatype Handler = Idle | Reading(tx: nat) | Updating(tx: nat) | Answered(tx: nat) | Leaving(tx: nat)

  /** Whose re-INVITE mediaUpdateDone stands for. */
  datatype Update = NoUpdate | Ours | Peers

  datatype State = State(ended: bool, closed: bool, pending: Option<Pending>, update: Update,
                         handler: Handler, seen: set<nat>, trace: seq<Sent>)

  datatype Timers = Timers(t1: int, t2: int)

  /**
   * A BYE taken ends the dialog, whether or not its 200 could be sent, but for one whose 200 failed
   * with the dialog left live; one out of order is answered 500.
   */
  datatype ByeOutcome = Accepted(answerSent: bool) | FailedLive | OutOfOrder

  datatype Event =
    | Unready(tx: nat)
    | Begin(tx: nat, cseq: int)
    | Refuse(status: int, sent: bool)
    | TakeUpdate
    | Answer(status: int, sent: bool)
    | Ack(cseq: int)
    | Retransmit(sent: bool)
    | StopRetransmit(timedOut: bool)
    | EndReInvite
    | EndUpdate
    | Bye(outcome: ByeOutcome)
    | OwnEnd
    | CloseMedia
    | OwnBegin
    | OwnDone

  function Initial(): State {
    State(false, false, None, NoUpdate, Idle, {}, [])
  }

  function Send(s: State, m: Sent): State {
    s.(trace := s.trace + [m])
  }

  /** beginPeerReInvite */
  function BeginPeer(s: State, tx: nat, cseq: int): State {
    if s.ended then
      Send(s, ToReInvite(tx, NO_TRANSACTION, false))
    else
      s.(pending := Some(Pending(tx, cseq, false, 0, false, false, NotStarted)))
  }

  /** respondPeerReInvite */
  function RespondPeer(s: State, t: Timers, tx: nat, status: int, sent: bool): State {
    if s.pending == None || s.pending.value.tx != tx then
      Send(s, ToReInvite(tx, status, false))
    else
      var p := s.pending.value;
      if p.answered then s
      else if s.ended then
        Send(s.(pending := Some(p.(answered := true))), ToReInvite(tx, REQUEST_TERMINATED, false))
      else if !IsSuccess(status) then
        Send(s.(pending := Some(p.(answered := true))), ToReInvite(tx, status, false))
      else
        var q := p.(answered := true, res := status, ackWaited := true, resend := if sent then Running(t.t1) else NotStarted);
        Send(s.(pending := Some(q)), ToReInvite(tx, status, false))
  }

  /** ackPeerReInvite */
  function AckPeer(s: State, cseq: int): State {
    if s.pending.Some? && s.pending.value.ackWaited && s.pending.value.cseq == cseq then
      s.(pending := Some(s.pending.value.(acked := true)))
    else s
  }

  /** A timer turn of retransmitReInvite2xx */
  function ResendPeer(s: State, t: Timers, sent: bool): State {
    if s.pending.Some? && s.pending.value.resend.Running? then
      var p := s.pending.value;
      if s.ended then s.(pending := Some(p.(resend := Over(false))))
      else
        var next := if sent then Running(Min(2 * p.resend.interval, t.t2)) else Over(true);
        Send(s.(pending := Some(p.(resend := next))), ToReInvite(p.tx, p.res, true))
    else s
  }

  /** terminatePeerReInviteLocked */
  function TerminatePeer(s: State): State {
    if s.pending.Some? && !s.pending.value.answered then
      var p := s.pending.value;
      Send(s.(pending := Some(p.(answered := true))), ToReInvite(p.tx, REQUEST_TERMINATED, false))
    else s
  }

  /** ReadBye, which holds answerMu throughout */
  function ReadBye(s: State, outcome: ByeOutcome): State {
    match outcome
    case OutOfOrder => Send(s, ToBye(SERVER_ERROR, false))
    case FailedLive => Send(s, ToBye(OK, s.ended))
    case Accepted(answerSent) =>
      var e := Send(s.(ended := true), ToBye(OK, true));
      if answerSent then TerminatePeer(e) else e
  }

  /** endPeerReInvite, once any retransmission is over */
  function EndPeer(s: State, tx: nat): State {
    s.(pending := if s.pending.Some? && s.pending.value.tx == tx then None else s.pending)
  }

  function Step(s: State, t: Timers, e: Event): State {
    match e
    case Unready(tx) =>
      if tx in s.seen then s
      else Send(s.(seen := s.seen + {tx}), ToReInvite(tx, REQUEST_PENDING, false))
    case Begin(tx, cseq) =>
      if s.handler != Idle || tx in s.seen then s
      else
        var b := BeginPeer(s.(seen := s.seen + {tx}), tx, cseq);
        if s.ended then b else b.(handler := Reading(tx))
    case Refuse(status, sent) =>
      if !s.handler.Reading? || IsSuccess(status) then s
      else RespondPeer(s, t, s.handler.tx, status, sent).(handler := Answered(s.handler.tx))
    case TakeUpdate =>
      // while one is in progress the handler goes on to refuse with 491
      if s.handler.Reading? && s.update == NoUpdate then s.(update := Peers, handler := Updating(s.handler.tx)) else s
    case Answer(status, sent) =>
      if !s.handler.Updating? then s
      else RespondPeer(s, t, s.handler.tx, status, sent).(handler := Answered(s.handler.tx))
    case Ack(cseq) => AckPeer(s, cseq)
    case Retransmit(sent) => ResendPeer(s, t, sent)
    case StopRetransmit(timedOut) =>
      if s.pending.Some? && s.pending.value.resend.Running? &&
         (timedOut || s.pending.value.acked || s.ended)
      then s.(pending := Some(s.pending.value.(resend := Over(timedOut))))
      else s
    case EndReInvite =>
      if s.handler.Answered? && !(s.pending.Some? && s.pending.value.resend.Running?) then
        EndPeer(s, s.handler.tx).(handler := Leaving(s.handler.tx))
      else s
    case EndUpdate =>
      if s.handler.Leaving? then s.(handler := Idle, update := if s.update == Peers then NoUpdate else s.update) else s
    case Bye(outcome) => ReadBye(s, outcome)
    case OwnEnd => s.(ended := true)
    case CloseMedia => s.(closed := true)
    case OwnBegin => if !s.closed && s.update == NoUpdate then s.(update := Ours) else s
    case OwnDone => if s.update == Ours then s.(update := NoUpdate) else s
  }

  function Run(t: Timers, events: seq<Event>): State {
    if events == [] then Initial()
    else Step(Run(t, events[..|events| - 1]), t, events[|events| - 1])
  }

  // ---------- what every step keeps ----------

  /** The final responses passed to `tx`, retransmissions apart. */
  function Finals(trace: seq<Sent>, tx: nat): nat {
    if trace == [] then 0
    else
      var m := trace[|trace| - 1];
      Finals(trace[..|trace| - 1], tx) + if m.ToReInvite? && m.tx == tx && !m.again then 1 else 0
  }

  predicate Succeeds(m: Sent) {
    m.ToReInvite? && IsSuccess(m.status)
  }

  /** No 2xx to a re-INVITE, first or again, follows the 200 to a BYE of the peer's that ended the dialog. */
  predicate NoSuccessAfterBye(trace: seq<Sent>) {
    forall i, j :: 0 <= i < j < |trace| && trace[i] == ToBye(OK, true) ==> !Succeeds(trace[j])
  }

  /** Every retransmission repeats an earlier 2xx to the same re-INVITE. */
  predicate ResendsFollow(trace: seq<Sent>) {
    forall j :: 0 <= j < |trace| && trace[j].ToReInvite? && trace[j].again ==>
      ToReInvite(trace[j].tx, trace[j].status, false) in trace[..j] && IsSuccess(trace[j].status)
  }

  predicate Handled(s: State) {
    match s.handler
    case Idle => s.pending == None
    case Reading(tx) =>
      s.pending.Some? && s.pending.value.tx == tx && s.pending.value.resend == NotStarted
    case Updating(tx) =>
      s.pending.Some? && s.pending.value.tx == tx && s.pending.value.resend == NotStarted && s.update == Peers
    case Answered(tx) =>
      s.pending.Some? && s.pending.value.tx == tx && s.pending.value.answered
    case Leaving(_) => s.pending == None
  }

  ghost predicate Counted(s: State) {
    && (forall tx :: Finals(s.trace, tx) ==
                     if tx !in s.seen || (s.pending.Some? && s.pending.value.tx == tx && !s.pending.value.answered)
                     then 0 else 1)
    && (s.pending.Some? ==> s.pending.value.tx in s.seen)
  }

  predicate Sequenced(s: State) {
    && NoSuccessAfterBye(s.trace)
    && ResendsFollow(s.trace)
    && (ToBye(OK, true) in s.trace ==> s.ended)
    && (s.pending.Some? && s.pending.value.resend.Running? ==>
          && s.pending.value.answered && s.update == Peers && IsSuccess(s.pending.value.res)
          && s.pending.value.ackWaited
          && ToReInvite(s.pending.value.tx, s.pending.value.res, false) in s.trace)
    && (s.update == Peers ==> s.handler.Updating? || s.handler.Answered? || s.handler.Leaving?)
  }

  ghost predicate Inv(s: State) {
    Handled(s) && Counted(s) && Sequenced(s)
  }

  lemma SendCounts(trace: seq<Sent>, m: Sent)
    ensures forall tx :: Finals(trace + [m], tx) ==
                         Finals(trace, tx) + if m.ToReInvite? && m.tx == tx && !m.again then 1 else 0
  {
    assert (trace + [m])[..|trace|] == trace;
  }

  lemma SendOrder(trace: seq<Sent>, m: Sent)
    requires NoSuccessAfterBye(trace) && ResendsFollow(trace)
    requires Succeeds(m) ==> ToBye(OK, true) !in trace
    requires m.ToReInvite? && m.again ==> ToReInvite(m.tx, m.status, false) in trace && IsSuccess(m.status)
    ensures NoSuccessAfterBye(trace + [m]) && ResendsFollow(trace + [m])
  {
    var grown := trace + [m];
    forall j | 0 <= j < |grown| && grown[j].ToReInvite? && grown[j].again
      ensures ToReInvite(grown[j].tx, grown[j].status, false) in grown[..j]
    {
      if j < |trace| {
        assert grown[..j] == trace[..j];
      } else {
        assert grown[..j] == trace;
      }
    }
  }

  /** The handler's own final response keeps the invariant and leaves the re-INVITE answered. */
  lemma RespondKeeps(s: State, t: Timers, status: int, sent: bool)
    requires Inv(s) && (s.handler.Reading? || s.handler.Updating?)
    requires IsSuccess(status) ==> s.handler.Updating?
    ensures Inv(RespondPeer(s, t, s.handler.tx, status, sent).(handler := Answered(s.handler.tx)))
  {
    hide Finals, NoSuccessAfterBye, ResendsFollow;
    var p := s.pending.value;
    if !p.answered {
      var m := ToReInvite(p.tx, if s.ended then REQUEST_TERMINATED else status, false);
      SendCounts(s.trace, m);
      SendOrder(s.trace, m);
    }
  }

  lemma ByeKeeps(s: State, outcome: ByeOutcome)
    requires Inv(s)
    ensures Inv(ReadBye(s, outcome))
  {
    hide Finals, NoSuccessAfterBye, ResendsFollow;
    var m := match outcome
      case OutOfOrder => ToBye(SERVER_ERROR, false)
      case FailedLive => ToBye(OK, s.ended)
      case Accepted(_) => ToBye(OK, true);
    SendCounts(s.trace, m);
    SendOrder(s.trace, m);
    if s.pending.Some? {
      var terminated := ToReInvite(s.pending.value.tx, REQUEST_TERMINATED, false);
      SendCounts(s.trace + [m], terminated);
      SendOrder(s.trace + [m], terminated);
    }
  }

  lemma ResendKeeps(s: State, t: Timers, sent: bool)
    requires Inv(s)
    ensures Inv(ResendPeer(s, t, sent))
  {
    hide Finals, NoSuccessAfterBye, ResendsFollow;
    if s.pending.Some? && s.pending.value.resend.Running? && !s.ended {
      var m := ToReInvite(s.pending.value.tx, s.pending.value.res, true);
      SendCounts(s.trace, m);
      SendOrder(s.trace, m);
    }
  }

  lemma BeginKeeps(s: State, t: Timers, tx: nat, cseq: int)
    requires Inv(s)
    ensures Inv(Step(s, t, Begin(tx, cseq))) && Inv(Step(s, t, Unready(tx)))
  {
    hide Finals, NoSuccessAfterBye, ResendsFollow;
    if tx !in s.seen {
      SendCounts(s.trace, ToReInvite(tx, NO_TRANSACTION, false));
      SendOrder(s.trace, ToReInvite(tx, NO_TRANSACTION, false));
      SendCounts(s.trace, ToReInvite(tx, REQUEST_PENDING, false));
      SendOrder(s.trace, ToReInvite(tx, REQUEST_PENDING, false));
    }
  }

  lemma StepKeeps(s: State, t: Timers, e: Event)
    requires Inv(s)
    ensures Inv(Step(s, t, e))
  {
    hide Finals, NoSuccessAfterBye, ResendsFollow, RespondPeer, ReadBye, ResendPeer;
    match e
    case Unready(tx) => BeginKeeps(s, t, tx, 0);
    case Begin(tx, cseq) => BeginKeeps(s, t, tx, cseq);
    case Refuse(status, sent) =>
      if s.handler.Reading? && !IsSuccess(status) {
        RespondKeeps(s, t, status, sent);
      }
    case Answer(status, sent) =>
      if s.handler.Updating? {
        RespondKeeps(s, t, status, sent);
      }
    case Retransmit(sent) => ResendKeeps(s, t, sent);
    case Bye(outcome) => ByeKeeps(s, outcome);
    case _ =>
  }

  lemma {:induction false} RunKeeps(t: Timers, events: seq<Event>)
    ensures Inv(Run(t, events))
    decreases |events|
  {
    if events == [] {
    } else {
      RunKeeps(t, events[..|events| - 1]);
      StepKeeps(Run(t, events[..|events| - 1]), t, events[|events| - 1]);
    }
  }

  // ---------- the protocol's promises, for every interleaving ----------

  /**
   * A re-INVITE is given at most one final response, and exactly one by the time its handler
   * has returned, retransmissions of a 2xx apart.
   */
  lemma OneFinalResponse(t: Timers, events: seq<Event>, tx: nat)
    ensures var s := Run(t, events);
            && Finals(s.trace, tx) <= 1
            && (tx in s.seen && (s.handler == Idle || s.handler.tx != tx) ==> Finals(s.trace, tx) == 1)
            && (tx !in s.seen ==> Finals(s.trace, tx) == 0)
  {
    hide Run, Finals;
    RunKeeps(t, events);
  }

  /**
   * Once a BYE of the peer's has ended the dialog, its 200 sent or not, no 2xx to a re-INVITE is sent,
   * first or again. A BYE whose 200 failed with the dialog left live promises nothing.
   */
  lemma NoSuccessBehindBye(t: Timers, events: seq<Event>, i: int, j: int)
    requires var trace := Run(t, events).trace; 0 <= i < j < |trace| && trace[i] == ToBye(OK, true)
    ensures var m := Run(t, events).trace[j]; !(m.ToReInvite? && IsSuccess(m.status))
  {
    RunKeeps(t, events);
  }

  /** After a BYE whose 200 failed with the dialog left live, the re-INVITE still gets its 2xx. */
  lemma LiveByeAllowsSuccess(t: Timers)
    ensures Run(t, [Begin(1, 7), TakeUpdate, Bye(FailedLive), Answer(OK, true)]).trace ==
            [ToBye(OK, false), ToReInvite(1, OK, false)]
  {
    var begin, take, bye, answer := Begin(1, 7), TakeUpdate, Bye(FailedLive), Answer(OK, true);
    var s1 := Step(Initial(), t, begin);
    var s2 := Step(s1, t, take);
    var s3 := Step(s2, t, bye);
    assert [begin, take, bye, answer][..3] == [begin, take, bye] && [begin, take, bye][..2] == [begin, take];
    assert [begin, take][..1] == [begin] && [begin][..0] == [];
    assert Run(t, [begin]) == s1 && Run(t, [begin, take]) == s2 && Run(t, [begin, take, bye]) == s3;
  }

  /** A BYE answered 200 leaves no re-INVITE without its final response. */
  lemma ByeLeavesNothingPending(t: Timers, events: seq<Event>, tx: nat)
    requires tx in Run(t, events).seen
    ensures Finals(Step(Run(t, events), t, Bye(Accepted(true))).trace, tx) == 1
  {
    hide Run, Finals;
    RunKeeps(t, events);
    ByeAnswersPending(Run(t, events), tx);
  }

  lemma ByeAnswersPending(s: State, tx: nat)
    requires Inv(s) && tx in s.seen
    ensures Finals(ReadBye(s, Accepted(true)).trace, tx) == 1
  {
    hide Finals, Handled, Sequenced;
    ByeKeeps(s, Accepted(true));
    assert Counted(ReadBye(s, Accepted(true)));
  }

  /** Our own re-INVITE never runs while a 2xx of ours to the peer's still awaits its ACK. */
  lemma OwnUpdateWaits(t: Timers, events: seq<Event>)
    ensures var s := Run(t, events);
            s.update == Ours ==> !(s.pending.Some? && s.pending.value.resend.Running?)
  {
    RunKeeps(t, events);
  }

  lemma RunTakes(t: Timers, events: seq<Event>, e: Event)
    ensures Run(t, events + [e]) == Step(Run(t, events), t, e)
  {
    assert (events + [e])[..|events|] == events;
  }

  // ---------- the handler's way ----------

  lemma IdleIsFree(t: Timers, events: seq<Event>)
    requires Run(t, events).handler == Idle
    ensures Run(t, events).pending == None
  {
    RunKeeps(t, events);
    hide Run, Finals, NoSuccessAfterBye, ResendsFollow;
  }

  function Taken(s: State, tx: nat, p: Pending, sent: Sent): State {
    s.(seen := s.seen + {tx}, update := Peers, handler := Answered(tx), pending := Some(p), trace := s.trace + [sent])
  }

  lemma UndisturbedAnswer(s: State, t: Timers, tx: nat, cseq: int, status: int)
    requires s.handler == Idle && !s.ended && s.update == NoUpdate && tx !in s.seen
    ensures var begun := Step(s, t, Begin(tx, cseq));
            var success := 200 <= status < 300;
            var p := Pending(tx, cseq, true, if success then status else 0, success, false, if success then Running(t.t1) else NotStarted);
            && Step(begun, t, Ack(cseq)) == begun
            && Step(Step(begun, t, TakeUpdate), t, Answer(status, true)) == Taken(s, tx, p, ToReInvite(tx, status, false))
  {
  }

  lemma UndisturbedEnd(s: State, t: Timers, tx: nat, p: Pending, sent: Sent)
    requires s.handler == Idle && !s.ended && s.update == NoUpdate && s.pending == None && p.tx == tx
    requires p.ackWaited == p.resend.Running?
    ensures var answered := Taken(s, tx, p, sent);
            var acked := Step(Step(answered, t, Ack(p.cseq)), t, StopRetransmit(false));
            && (p.ackWaited ==> Step(answered, t, EndReInvite) == answered)
            && Step(Step(acked, t, EndReInvite), t, EndUpdate) == s.(seen := s.seen + {tx}, trace := s.trace + [sent])
  {
  }

  /**
   * A re-INVITE of a live dialog that nothing crosses is answered as its handler answers, retransmitted
   * until its ACK if that is a 2xx, and leaves nothing behind it, in every run.
   */
  lemma UndisturbedReInvite(t: Timers, events: seq<Event>, tx: nat, cseq: int, status: int)
    requires var s := Run(t, events); s.handler == Idle && !s.ended && s.update == NoUpdate && tx !in s.seen
    ensures var s := Run(t, events);
            var begun := Step(s, t, Begin(tx, cseq));
            var answered := Step(Step(begun, t, TakeUpdate), t, Answer(status, true));
            var acked := Step(Step(answered, t, Ack(cseq)), t, StopRetransmit(false));
            && (200 <= status < 300 <==> answered.pending.Some? && answered.pending.value.resend == Running(t.t1))
            && Step(begun, t, Ack(cseq)) == begun
            && (200 <= status < 300 ==> Step(answered, t, EndReInvite) == answered)
            && Step(Step(acked, t, EndReInvite), t, EndUpdate) ==
                 s.(seen := s.seen + {tx}, trace := s.trace + [ToReInvite(tx, status, false)])
    ensures Run(t, []) == State(false, false, None, NoUpdate, Idle, {}, [])
  {
    assert Run(t, []) == Initial();
    hide Run, Step, Inv;
    IdleIsFree(t, events);
    var s := Run(t, events);
    UndisturbedAnswer(s, t, tx, cseq, status);
    var answered := Step(Step(Step(s, t, Begin(tx, cseq)), t, TakeUpdate), t, Answer(status, true));
    UndisturbedEnd(s, t, tx, answered.pending.value, ToReInvite(tx, status, false));
  }

  predicate Shut(s: State) {
    s.closed && s.update != Ours
  }

  lemma ShutStep(s: State, t: Timers, e: Event)
    ensures Shut(s) ==> Shut(Step(s, t, e))
    ensures s.closed || e == CloseMedia ==> Step(s, t, e).closed
    ensures !s.closed && s.update == NoUpdate ==> Step(s, t, OwnBegin).update == Ours
  {
  }

  /** An own update begins at once when it may; once the media are closed none ever does. */
  lemma {:induction false} ClosedMediaTakesNoUpdate(t: Timers, before: seq<Event>, after: seq<Event>)
    ensures var s := Run(t, before); !s.closed && s.update == NoUpdate ==> Run(t, before + [OwnBegin]).update == Ours
    ensures Run(t, before).update != Ours && CloseMedia in before ==>
              Run(t, before + after).update != Ours && Run(t, before + after).closed
    decreases |after|
  {
    hide Run, Step;
    ShutStep(Run(t, before), t, OwnBegin);
    RunTakes(t, before, OwnBegin);
    if after == [] {
      assert before + after == before;
      if CloseMedia in before {
        ClosedStays(t, before);
      }
    } else {
      var front, last := after[..|after| - 1], after[|after| - 1];
      assert before + after == (before + front) + [last];
      ClosedMediaTakesNoUpdate(t, before, front);
      RunTakes(t, before + front, last);
      ShutStep(Run(t, before + front), t, last);
    }
  }

  /** No update takes another's place: each lasts until its owner ends it, and then the next may begin. */
  lemma UpdateEndsByItsOwner(t: Timers, events: seq<Event>, e: Event)
    ensures var s, u := Run(t, events), Run(t, events + [e]);
            && (s.update == Ours ==> (u.update == Ours <==> e != OwnDone))
            && (s.update == Peers && e != EndUpdate ==> u.update == Peers)
            && (s.update != NoUpdate && u.update != s.update ==> u.update == NoUpdate)
            && (u.handler.Updating? ==> u.update == Peers)
  {
    RunTakes(t, events, e);
    RunKeeps(t, events + [e]);
    hide Run, Finals, NoSuccessAfterBye, ResendsFollow;
  }

  lemma {:induction false} ClosedStays(t: Timers, events: seq<Event>)
    requires CloseMedia in events
    ensures Run(t, events).closed
    decreases |events|
  {
    hide Run, Step;
    var front, last := events[..|events| - 1], events[|events| - 1];
    assert events == front + [last];
    RunTakes(t, front, last);
    ShutStep(Run(t, front), t, last);
    if last != CloseMedia {
      ClosedStays(t, front);
    }
  }

  /**
   * The answer of a live dialog's handler goes out as it is; a 2xx waits for its ACK and, once sent, is
   * retransmitted from T1 on, and any other response ends the matter. After a BYE 487 goes out instead,
   * and nothing when the BYE has answered the re-INVITE.
   */
  lemma AnswerGoesOut(t: Timers, events: seq<Event>, status: int, sent: bool)
    requires Run(t, events).handler.Updating? || (Run(t, events).handler.Reading? && !(200 <= status < 300))
    ensures var s := Run(t, events);
            var u := Step(s, t, if s.handler.Reading? then Refuse(status, sent) else Answer(status, sent));
            && s.pending.Some? && u.pending.Some? && u.handler == Answered(s.handler.tx) && u.update == s.update
            && var p, q := s.pending.value, u.pending.value;
            && q.answered && q.tx == p.tx && q.cseq == p.cseq
            && (p.answered ==> u.trace == s.trace && q == p)
            && (!p.answered && s.ended ==> u.trace == s.trace + [ToReInvite(p.tx, 487, false)] && q.resend == p.resend)
            && (!p.answered && !s.ended ==>
                  && u.trace == s.trace + [ToReInvite(p.tx, status, false)]
                  && (200 <= status < 300 ==> q.ackWaited && q.res == status && q.resend == (if sent then Running(t.t1) else NotStarted))
                  && (!(200 <= status < 300) ==> q.ackWaited == p.ackWaited && q.resend == p.resend))
  {
    RunKeeps(t, events);
    hide Run, Finals, NoSuccessAfterBye, ResendsFollow;
  }

  /** A 2xx being retransmitted goes out at every turn of its timer while the dialog lives, until a send fails. */
  lemma ResendGoesOut(t: Timers, events: seq<Event>, sent: bool)
    requires Run(t, events).pending.Some? && Run(t, events).pending.value.resend.Running?
    ensures var s, u := Run(t, events), Run(t, events + [Retransmit(sent)]);
            var p := s.pending.value;
            && u.trace == s.trace + (if s.ended then [] else [ToReInvite(p.tx, p.res, true)])
            && u.pending.Some? && (u.pending.value.resend.Running? <==> !s.ended && sent)
            && (!s.ended && !sent ==> u.pending.value.resend == Over(true))
  {
    RunTakes(t, events, Retransmit(sent));
    hide Run;
  }

  /** A re-INVITE before the call is ready is told to wait, once. */
  lemma UnreadyIsToldToWait(t: Timers, events: seq<Event>, tx: nat)
    ensures var s, u := Run(t, events), Run(t, events + [Unready(tx)]);
            u.trace == s.trace + (if tx in s.seen then [] else [ToReInvite(tx, 491, false)]) && u.pending == s.pending
  {
    RunTakes(t, events, Unready(tx));
    hide Run;
  }

  /** A BYE whose 200 could not be sent ends the dialog too, and leaves a pending re-INVITE to its handler. */
  lemma UnansweredByeLeavesPending(t: Timers, events: seq<Event>)
    ensures var s, u := Run(t, events), Run(t, events + [Bye(Accepted(false))]);
            u.trace == s.trace + [ToBye(200, true)] && u.pending == s.pending && u.ended
  {
    RunTakes(t, events, Bye(Accepted(false)));
    hide Run;
  }

  /** A response on a transaction no handler has recorded goes out as it is. */
  lemma UnrecordedGoesOut(s: State, t: Timers, tx: nat, status: int, sent: bool)
    requires s.pending.Some? ==> s.pending.value.tx != tx
    ensures RespondPeer(s, t, tx, status, sent) == s.(trace := s.trace + [ToReInvite(tx, status, false)])
  {
  }

  /** A handler that has answered forgets its re-INVITE once nothing is retransmitted, ends its update and makes way. */
  lemma HandlerLeaves(t: Timers, events: seq<Event>)
    requires Run(t, events).handler.Answered?
    requires Run(t, events).pending.Some? ==> !Run(t, events).pending.value.resend.Running?
    ensures var s := Run(t, events);
            var u := Step(Step(s, t, EndReInvite), t, EndUpdate);
            u.handler == Idle && u.pending == None && u.update == (if s.update == Peers then NoUpdate else s.update) && u.trace == s.trace
  {
    RunKeeps(t, events);
    hide Run, Finals, NoSuccessAfterBye, ResendsFollow;
  }

  // ---------- the ACK ----------

  /** The ACK to a 2xx being retransmitted ends the retransmission, and no missing ACK is reported. */
  lemma AckEndsRetransmission(t: Timers, events: seq<Event>)
    requires Run(t, events).pending.Some? && Run(t, events).pending.value.resend.Running?
    ensures var p := Run(t, events).pending.value;
            var s := Run(t, events + [Ack(p.cseq), StopRetransmit(false)]);
            s.pending == Some(p.(acked := true, resend := Over(false)))
  {
    RunKeeps(t, events);
    var c := Run(t, events).pending.value.cseq;
    RunTakes(t, events, Ack(c));
    RunTakes(t, events + [Ack(c)], StopRetransmit(false));
    assert events + [Ack(c)] + [StopRetransmit(false)] == events + [Ack(c), StopRetransmit(false)];
    hide Run, Finals, NoSuccessAfterBye, ResendsFollow;
  }

  /** Any other ACK, and one for which no 2xx was sent, changes nothing. */
  lemma OtherAcksChangeNothing(s: State, t: Timers, cseq: int)
    requires s.pending.Some? ==> s.pending.value.cseq != cseq || !s.pending.value.ackWaited
    ensures Step(s, t, Ack(cseq)) == s
  {
  }

  /** A re-INVITE counts as ACKed only once its own ACK was read, in every run. */
  lemma {:induction false} AckedWasRead(t: Timers, events: seq<Event>)
    ensures var s := Run(t, events);
            s.pending.Some? && s.pending.value.acked ==> Ack(s.pending.value.cseq) in events
    decreases |events|
  {
    hide Step;
    if events == [] {
    } else {
      AckedWasRead(t, events[..|events| - 1]);
      StepAcks(Run(t, events[..|events| - 1]), t, events[|events| - 1]);
    }
  }

  lemma StepAcks(s: State, t: Timers, e: Event)
    ensures var u := Step(s, t, e);
            u.pending.Some? && u.pending.value.acked ==>
              e == Ack(u.pending.value.cseq) ||
              (s.pending.Some? && s.pending.value.acked && s.pending.value.cseq == u.pending.value.cseq)
  {
  }

  /**
   * Without a timeout a retransmission ends only by its ACK or the end of the dialog; and until it ends
   * the handler waits, so what the handler reports is what ended it.
   */
  lemma RetransmissionEnds(s: State, t: Timers, e: Event)
    requires Inv(s) && s.pending.Some? && s.pending.value.resend.Running?
    ensures var u := Step(s, t, e);
            && u.pending.Some? && u.pending.value.tx == s.pending.value.tx
            && (u.pending.value.resend == Over(false) ==> s.ended || s.pending.value.acked)
            && (u.pending.value.resend == Over(true) ==> e == StopRetransmit(true) || e == Retransmit(false))
  {
  }

  // ---------- the retransmission schedule ----------

  function Resends(trace: seq<Sent>, tx: nat): nat {
    if trace == [] then 0
    else
      var m := trace[|trace| - 1];
      Resends(trace[..|trace| - 1], tx) + if m.ToReInvite? && m.tx == tx && m.again then 1 else 0
  }

  function Interval(t: Timers, k: nat): int {
    if k == 0 then t.t1 else Min(2 * Interval(t, k - 1), t.t2)
  }

  function Pow2(k: nat): (p: nat)
    ensures p >= 1
  {
    if k == 0 then 1 else 2 * Pow2(k - 1)
  }

  /** The wait before a retransmission is its position's; nothing is resent before a 2xx is sent. */
  ghost predicate Scheduled(s: State, t: Timers) {
    && (forall tx :: tx !in s.seen ==> Resends(s.trace, tx) == 0)
    && (s.pending.Some? ==>
          match s.pending.value.resend
          case NotStarted => Resends(s.trace, s.pending.value.tx) == 0
          case Running(interval) => interval == Interval(t, Resends(s.trace, s.pending.value.tx))
          case Over(_) => true)
  }

  lemma SendResends(trace: seq<Sent>, m: Sent)
    ensures forall tx :: Resends(trace + [m], tx) ==
                         Resends(trace, tx) + if m.ToReInvite? && m.tx == tx && m.again then 1 else 0
  {
    assert (trace + [m])[..|trace|] == trace;
  }

  lemma RespondScheduled(s: State, t: Timers, status: int, sent: bool)
    requires Inv(s) && Scheduled(s, t) && (s.handler.Reading? || s.handler.Updating?)
    ensures Scheduled(RespondPeer(s, t, s.handler.tx, status, sent), t)
  {
    hide Finals, Counted, Sequenced, Resends;
    SendResends(s.trace, ToReInvite(s.handler.tx, if s.ended then REQUEST_TERMINATED else status, false));
  }

  lemma ByeScheduled(s: State, t: Timers, outcome: ByeOutcome)
    requires Scheduled(s, t)
    ensures Scheduled(ReadBye(s, outcome), t)
  {
    hide Resends;
    var m := match outcome
      case OutOfOrder => ToBye(SERVER_ERROR, false)
      case FailedLive => ToBye(OK, s.ended)
      case Accepted(_) => ToBye(OK, true);
    SendResends(s.trace, m);
    if s.pending.Some? {
      SendResends(s.trace + [m], ToReInvite(s.pending.value.tx, REQUEST_TERMINATED, false));
    }
  }

  lemma ResendScheduled(s: State, t: Timers, sent: bool)
    requires Inv(s) && Scheduled(s, t)
    ensures Scheduled(ResendPeer(s, t, sent), t)
  {
    hide Finals, NoSuccessAfterBye, ResendsFollow, Resends;
    if s.pending.Some? {
      SendResends(s.trace, ToReInvite(s.pending.value.tx, s.pending.value.res, true));
    }
  }

  lemma StepScheduled(s: State, t: Timers, e: Event)
    requires Inv(s) && Scheduled(s, t)
    ensures Scheduled(Step(s, t, e), t)
  {
    hide Finals, Counted, Sequenced, Resends, RespondPeer, ReadBye, ResendPeer;
    match e
    case Unready(tx) => SendResends(s.trace, ToReInvite(tx, REQUEST_PENDING, false));
    case Begin(tx, _) => SendResends(s.trace, ToReInvite(tx, NO_TRANSACTION, false));
    case Refuse(status, sent) =>
      if s.handler.Reading? {
        RespondScheduled(s, t, status, sent);
      }
    case Answer(status, sent) =>
      if s.handler.Updating? {
        RespondScheduled(s, t, status, sent);
      }
    case Retransmit(sent) => ResendScheduled(s, t, sent);
    case Bye(outcome) => ByeScheduled(s, t, outcome);
    case _ =>
  }

  lemma {:induction false} RunScheduled(t: Timers, events: seq<Event>)
    ensures Scheduled(Run(t, events), t)
    decreases |events|
  {
    if events == [] {
    } else {
      RunScheduled(t, events[..|events| - 1]);
      RunKeeps(t, events[..|events| - 1]);
      StepScheduled(Run(t, events[..|events| - 1]), t, events[|events| - 1]);
    }
  }

  lemma {:induction false} IntervalDoubles(t: Timers, k: nat)
    requires t.t1 > 0 && t.t2 > 0
    ensures k > 0 || t.t1 <= t.t2 ==> Interval(t, k) == Min(t.t1 * Pow2(k), t.t2)
    decreases k
  {
    if k == 0 {
    } else {
      IntervalDoubles(t, k - 1);
      if k == 1 {
        assert Pow2(1) == 2 && Interval(t, 0) == t.t1;
      } else {
        DoublePower(t.t1, k);
        assert t.t1 * Pow2(k - 1) > 0;
      }
    }
  }

  lemma DoublePower(x: int, k: nat)
    requires k > 0 && x > 0
    ensures x * Pow2(k) == 2 * (x * Pow2(k - 1)) && x * Pow2(k - 1) > 0
  {
  }

  /** After k retransmissions the next waits T1 doubled k times, and no longer than T2. */
  lemma RetransmissionSchedule(t: Timers, events: seq<Event>)
    requires t.t1 > 0 && t.t2 > 0
    ensures var s := Run(t, events);
            s.pending.Some? && s.pending.value.resend.Running? ==>
              var k := Resends(s.trace, s.pending.value.tx);
              s.pending.value.resend.interval == if k == 0 then t.t1 else Min(t.t1 * Pow2(k), t.t2)
  {
    RunScheduled(t, events);
    var s := Run(t, events);
    if s.pending.Some? {
      IntervalDoubles(t, Resends(s.trace, s.pending.value.tx));
    }
  }

  // ---------- the dialog's own fields ----------

  /** How the dialog takes a request: read, out of order, or refused for another reason. */
  datatype ReadOutcome = Readable | InvalidCSeq | Unreadable

  datatype OwnUpdate = Begun | InProgress | MediaClosed

  /**
   * The part of DialogMedia that answerMu and mu guard for re-INVITEs. `past` is every step taken so
   * far, by any goroutine, so whatever holds of every run holds of the object.
   */
  class DialogMedia {
    const timers: Timers
    var dialogEnded: bool
    var closed: bool
    var peerReInvite: Option<Pending>
    var mediaUpdate: Update

    /** Every response passed to a server transaction. */
    var responses: seq<Sent>

    ghost var model: State
    ghost var past: seq<Event>

    /** The model with what the fields hold now; the handler and what it has seen are not fields. */
    ghost function Current(): State
      reads this
    {
      model.(ended := dialogEnded, closed := closed, pending := peerReInvite, update := mediaUpdate, trace := responses)
    }

    ghost predicate Valid()
      reads this
    {
      Current() == model == Run(timers, past)
    }

    /** The steps taken so far, and then `e`. */
    twostate predicate Took(e: Event)
      reads this
    {
      past == old(past) + [e] && model == Step(old(model), timers, e)
    }

    constructor (timers: Timers)
      ensures Valid() && past == [] && this.timers == timers
    {
      this.timers := timers;
      dialogEnded, closed, peerReInvite, mediaUpdate, responses := false, false, None, NoUpdate, [];
      model, past := Initial(), [];
    }

    /** Every promise about runs is one about the object. */
    lemma Promises(tx: nat)
      requires Valid()
      ensures Inv(model) && Finals(responses, tx) <= 1 && NoSuccessAfterBye(responses)
      ensures tx in model.seen && (model.handler == Idle || model.handler.tx != tx) ==> Finals(responses, tx) == 1
    {
      hide Run, Finals, NoSuccessAfterBye;
      RunKeeps(timers, past);
      OneFinalResponse(timers, past, tx);
    }

    /** Passes a response to its transaction. */
    method Pass(m: Sent)
      modifies `responses
      ensures responses == old(responses) + [m]
    {
      responses := responses + [m];
    }

    /** The fields have taken the step `e`: so do the handler and the model. */
    ghost method Take(e: Event)
      requires model == Run(timers, past)
      requires var after := Step(model, timers, e); Current().(handler := after.handler, seen := after.seen) == after
      modifies `model, `past
      ensures Valid() && past == old(past) + [e] && model == Step(old(model), timers, e)
    {
      RunTakes(timers, past, e);
      past := past + [e];
      model := Step(model, timers, e);
    }

    /** A re-INVITE that comes before our own answer is complete. */
    method RefuseUnready(tx: nat)
      requires Valid() && tx !in model.seen
      modifies this
      ensures Valid() && Took(Unready(tx))
      ensures responses == old(responses) + [ToReInvite(tx, REQUEST_PENDING, false)]
    {
      hide Run;
      Pass(ToReInvite(tx, REQUEST_PENDING, false));
      Take(Unready(tx));
    }

    /** Called with requestMu held, on a transaction not seen before. */
    method BeginPeerReInvite(tx: nat, cseq: int) returns (answered: bool)
      requires Valid() && model.handler == Idle && tx !in model.seen
      modifies `peerReInvite, `responses, `model, `past
      ensures Valid() && Took(Begin(tx, cseq)) && answered == dialogEnded
      ensures answered ==> responses == old(responses) + [ToReInvite(tx, NO_TRANSACTION, false)] &&
                           model.handler == Idle && Finals(responses, tx) == 1
      ensures !answered ==> responses == old(responses) && model.handler == Reading(tx) &&
                            peerReInvite.Some? && !peerReInvite.value.answered
    {
      hide Run, Finals;
      answered := dialogEnded;
      if dialogEnded {
        Pass(ToReInvite(tx, NO_TRANSACTION, false));
      } else {
        peerReInvite := Some(Pending(tx, cseq, false, 0, false, false, NotStarted));
      }
      Take(Begin(tx, cseq));
      Promises(tx);
    }

    /** respondPeerReInvite, for any transaction; `sent` is how the transaction took the response. */
    method RespondLocked(tx: nat, status: int, sent: bool) returns (passed: bool)
      modifies `peerReInvite, `responses
      ensures Current() == RespondPeer(old(Current()), timers, tx, status, sent)
      ensures passed <==> responses == old(responses) + [ToReInvite(tx, status, false)] &&
                          !(dialogEnded && old(peerReInvite).Some? && old(peerReInvite).value.tx == tx)
    {
      if peerReInvite == None || peerReInvite.value.tx != tx {
        Pass(ToReInvite(tx, status, false));
        return true;
      }
      var p := peerReInvite.value;
      if p.answered {
        return false;
      }
      p := p.(answered := true);
      if dialogEnded {
        peerReInvite := Some(p);
          Pass(ToReInvite(tx, REQUEST_TERMINATED, false));
        return false;
      }
      if IsSuccess(status) {
        p := p.(res := status, ackWaited := true, resend := if sent then Running(timers.t1) else NotStarted);
      }
      peerReInvite := Some(p);
      Pass(ToReInvite(tx, status, false));
      return true;
    }

    /** The handler's final response: a refusal before its update begins, anything once it has. */
    method RespondPeerReInvite(tx: nat, status: int, sent: bool) returns (passed: bool)
      requires Valid() && (model.handler == Updating(tx) || (model.handler == Reading(tx) && !IsSuccess(status)))
      modifies `peerReInvite, `responses, `model, `past
      ensures Valid()
      ensures Took(if old(model.handler).Reading? then Refuse(status, sent) else Answer(status, sent))
      ensures Finals(responses, tx) == 1 && model.handler == Answered(tx)
      ensures passed <==> !dialogEnded && old(peerReInvite).Some? && !old(peerReInvite).value.answered
      ensures passed ==> responses == old(responses) + [ToReInvite(tx, status, false)]
    {
      hide Run, Finals;
      RunKeeps(timers, past);
      passed := RespondLocked(tx, status, sent);
      Take(if model.handler.Reading? then Refuse(status, sent) else Answer(status, sent));
      AnsweredOnce(tx);
    }

    lemma AnsweredOnce(tx: nat)
      requires Valid() && model.handler == Answered(tx)
      ensures Finals(responses, tx) == 1
    {
      hide Run, Finals;
      RunKeeps(timers, past);
    }

    method AckPeerReInvite(cseq: int)
      requires Valid()
      modifies this
      ensures Valid() && Took(Ack(cseq))
      ensures old(peerReInvite).Some? && old(peerReInvite).value.ackWaited && old(peerReInvite).value.cseq == cseq ==>
                peerReInvite == Some(old(peerReInvite).value.(acked := true))
      ensures !(old(peerReInvite).Some? && old(peerReInvite).value.ackWaited && old(peerReInvite).value.cseq == cseq) ==>
                peerReInvite == old(peerReInvite)
    {
      hide Run;
      if peerReInvite.Some? && peerReInvite.value.ackWaited && peerReInvite.value.cseq == cseq {
        peerReInvite := Some(peerReInvite.value.(acked := true));
      }
      Take(Ack(cseq));
    }

    /** A timer turn of the retransmission. */
    method RetransmitTurn(sent: bool)
      requires Valid() && peerReInvite.Some? && peerReInvite.value.resend.Running?
      modifies this
      ensures Valid() && Took(Retransmit(sent))
      ensures dialogEnded ==> responses == old(responses)
    {
      hide Run;
      var p := peerReInvite.value;
      if dialogEnded {
        peerReInvite := Some(p.(resend := Over(false)));
      } else {
        var next := if sent then Running(Min(2 * p.resend.interval, timers.t2)) else Over(true);
        peerReInvite := Some(p.(resend := next));
        Pass(ToReInvite(p.tx, p.res, true));
      }
      Take(Retransmit(sent));
    }

    /** The retransmission ends, with the ACK, the end of the dialog or its own timeout. */
    method StopRetransmitting(timedOut: bool)
      requires Valid() && peerReInvite.Some? && peerReInvite.value.resend.Running?
      requires timedOut || peerReInvite.value.acked || dialogEnded
      modifies this
      ensures Valid() && Took(StopRetransmit(timedOut)) && !peerReInvite.value.resend.Running?
    {
      hide Run;
      peerReInvite := Some(peerReInvite.value.(resend := Over(timedOut)));
      Take(StopRetransmit(timedOut));
    }

    method TerminatePeerReInvite()
      modifies `peerReInvite, `responses
      ensures Current() == TerminatePeer(old(Current()))
    {
      if peerReInvite == None || peerReInvite.value.answered {
        return;
      }
      var p := peerReInvite.value;
      peerReInvite := Some(p.(answered := true));
      Pass(ToReInvite(p.tx, REQUEST_TERMINATED, false));
    }

    /** ReadBye of the dialog session, answerMu held throughout. */
    method HandleBye(outcome: ByeOutcome)
      requires Valid()
      modifies this
      ensures Valid() && Took(Bye(outcome))
      ensures outcome == Accepted(true) ==> forall tx :: tx in model.seen ==> Finals(responses, tx) == 1
    {
      hide Run, Finals;
      RunKeeps(timers, past);
      match outcome {
        case OutOfOrder => Pass(ToBye(SERVER_ERROR, false));
        case FailedLive => Pass(ToBye(OK, dialogEnded));
        case Accepted(answerSent) =>
          dialogEnded := true;
          Pass(ToBye(OK, true));
          if answerSent {
            TerminatePeerReInvite();
          }
      }
      Take(Bye(outcome));
      forall tx | outcome == Accepted(true) && tx in old(model).seen
        ensures Finals(responses, tx) == 1
      {
        ByeAnswersPending(old(model), tx);
      }
    }

    /** Once any retransmission is over; reports whether the ACK to a 2xx of ours never came. */
    method EndPeerReInvite(tx: nat) returns (ackTimedOut: bool)
      requires Valid() && model.handler == Answered(tx) && !(peerReInvite.Some? && peerReInvite.value.resend.Running?)
      modifies this
      ensures Valid() && Took(EndReInvite) && peerReInvite == None
      ensures ackTimedOut <==> old(peerReInvite).Some? && old(peerReInvite).value.resend == Over(true)
    {
      hide Run;
      RunKeeps(timers, past);
      ackTimedOut := peerReInvite.Some? && peerReInvite.value.resend == Over(true);
      if peerReInvite.Some? && peerReInvite.value.tx == tx {
        peerReInvite := None;
      }
      Take(EndReInvite);
    }

    /** The handler returns: an update of the peer's it began is over. */
    method EndPeerMediaUpdate()
      requires Valid() && model.handler.Leaving?
      modifies this
      ensures Valid() && Took(EndUpdate) && mediaUpdate != Peers && model.handler == Idle
    {
      hide Run;
      if mediaUpdate == Peers {
        mediaUpdate := NoUpdate;
      }
      Take(EndUpdate);
    }

    /** False means one of ours is in progress and the peer's gets 491. */
    method BeginPeerMediaUpdate() returns (ok: bool)
      requires Valid() && model.handler.Reading?
      modifies `mediaUpdate, `model, `past
      ensures Valid() && Took(TakeUpdate) && ok == (old(mediaUpdate) == NoUpdate)
      ensures ok ==> mediaUpdate == Peers && model.handler == Updating(old(model.handler).tx)
      ensures !ok ==> mediaUpdate == Ours && model == old(model)
    {
      hide Run;
      RunKeeps(timers, past);
      ok := mediaUpdate == NoUpdate;
      if ok {
        mediaUpdate := Peers;
      }
      Take(TakeUpdate);
    }

    method CloseMedia()
      requires Valid()
      modifies this
      ensures Valid() && Took(Event.CloseMedia)
    {
      hide Run;
      closed := true;
      Take(Event.CloseMedia);
    }

    /** One turn of beginOwnMediaUpdate; it waits and goes round again while an update is in progress. */
    method BeginOwnMediaUpdate() returns (r: OwnUpdate)
      requires Valid()
      modifies this
      ensures Valid() && Took(OwnBegin)
      ensures r == MediaClosed <==> closed
      ensures r == Begun <==> !closed && old(mediaUpdate) == NoUpdate && mediaUpdate == Ours
    {
      hide Run;
      if closed {
        r := MediaClosed;
      } else if mediaUpdate != NoUpdate {
        r := InProgress;
      } else {
        mediaUpdate := Ours;
        r := Begun;
      }
      Take(OwnBegin);
    }

    method EndOwnMediaUpdate()
      requires Valid() && mediaUpdate == Ours
      modifies this
      ensures Valid() && Took(OwnDone) && mediaUpdate == NoUpdate
    {
      hide Run;
      mediaUpdate := NoUpdate;
      Take(OwnDone);
    }

    /** Our own BYE, or the end of the dialog's context. */
    method EndDialog()
      requires Valid()
      modifies this
      ensures Valid() && Took(OwnEnd)
    {
      hide Run;
      dialogEnded := true;
      Take(OwnEnd);
    }

    /**
     * handleReInvite as far as its wait for the ACK, with no other goroutine in between; `answer` is
     * what the media update comes to. However it goes, the re-INVITE then has its final response.
     */
    method HandleReInvite(tx: nat, cseq: int, read: ReadOutcome, answer: int, sent: bool)
      requires Valid() && model.handler == Idle && tx !in model.seen
      modifies this
      ensures Valid() && old(past) < past && (model.handler == Idle || model.handler == Answered(tx))
      ensures Finals(responses, tx) == 1 && |responses| == |old(responses)| + 1
      ensures var last := responses[|responses| - 1];
              last == ToReInvite(tx,
                                 if old(dialogEnded) then NO_TRANSACTION
                                 else if read == InvalidCSeq then SERVER_ERROR
                                 else if read == Unreadable then BAD_REQUEST
                                 else if old(mediaUpdate) != NoUpdate then REQUEST_PENDING
                                 else answer, false)
    {
      hide Run, Finals, Step;
      var answered := BeginPeerReInvite(tx, cseq);
      if answered {
        return;
      }
      if read != Readable {
        var _ := RespondPeerReInvite(tx, if read == InvalidCSeq then SERVER_ERROR else BAD_REQUEST, sent);
        return;
      }
      var ok := BeginPeerMediaUpdate();
      var _ := RespondPeerReInvite(tx, if ok then answer else REQUEST_PENDING, sent);
    }
  }
}
