/**
 * The REFER attempts of a dialog (dialog_media.go, dialog_session.go; sections 4.1.2.4 and 4.2.2
 * of RFC 6665). Each event is one hold of referMu at a time of a clock that never goes back.
 */
module Refer {
  import opened Basics

  const MAX_NOTIFIES := 32
  const SECOND := 1_000_000_000
  const MAX_BOUND := 3600 * SECOND

  /** A parsed refer NOTIFY; `expires` is what its Subscription-State gives, in seconds. */
  datatype Notify = Notify(status: int, hasState: bool, terminated: bool, expires: Option<nat>, id: Option<nat>) {
    predicate IsFinal() {
      status >= 200
    }

    predicate EndsSubscription() {
      IsFinal() || (hasState && terminated)
    }
  }

  datatype End = NotEnded | FinalNotify | Refused | Cancelled | SubscriptionEnded | SubscriptionExpired | NoNotify

  /**
   * referAttempt. `sent` is the CSeq the dialog gives its REFER, known to us once recorded, and
   * None for a REFER that is never built; `log`, `accepted`, `deadlines` and `closes` are what
   * happened to it: every NOTIFY recorded, the time of the 2xx, the deadline of each timer
   * armed, and how often `done` was closed.
   */
  datatype Attempt = Attempt(
    cseq: nat, cseqKnown: bool, registered: bool, end: End, notifies: seq<Notify>, dropped: nat, notified: bool,
    deadline: Option<int>, armed: nat,
    sent: Option<nat>, log: seq<Notify>, accepted: Option<int>, deadlines: seq<int>, closes: nat)

  /**
   * Every attempt begun, oldest first; the last is referLatest, the registered ones referAttempts.
   * `others` are the CSeqs of the REFERs sent without an attempt, which no decision reads.
   */
  datatype State = State(attempts: seq<Attempt>, highest: nat, clock: int, others: set<nat>)

  datatype Event =
    | Begin(sent: Option<nat>)
    | Unobserved(cseq: nat)
    | SetCSeq(a: nat)
    | Start(a: nat, now: int)
    | Record(n: Notify, now: int)
    | RetireEnded(a: nat)
    | TimerFires(a: nat, armed: nat, now: int)
    | Finish(a: nat, end: End)
    | Drop(a: nat)

  function Initial(): State {
    State([], 0, 0, {})
  }

  /** 64*T1 */
  function TimerN(t1: nat): nat {
    64 * t1
  }

  /** referSubscriptionBound */
  function SubscriptionBound(t1: nat, n: Notify): nat {
    if n.hasState && n.expires.Some? then Min(n.expires.value * SECOND, MAX_BOUND) else TimerN(t1)
  }

  function Longest(t1: nat): nat {
    Max(MAX_BOUND, TimerN(t1))
  }

  // ---------- one attempt ----------

  function Arm(a: Attempt, deadline: int): Attempt {
    a.(deadline := Some(deadline), armed := a.armed + 1, deadlines := a.deadlines + [deadline])
  }

  /** retireReferAttemptLocked */
  function Retire(a: Attempt): Attempt {
    if a.registered then a.(registered := false, closes := a.closes + 1) else a
  }

  function Expire(a: Attempt): Attempt {
    Retire(a.(end := if a.notified then SubscriptionExpired else NoNotify))
  }

  /** recordLocked */
  function Note(a: Attempt, n: Notify): Attempt {
    var kept :=
      if |a.notifies| < MAX_NOTIFIES then a.notifies + [n]
      else if n.EndsSubscription() then a.notifies[..|a.notifies| - 1] + [n]
      else a.notifies;
    a.(notifies := kept, dropped := if |a.notifies| < MAX_NOTIFIES then a.dropped else a.dropped + 1,
       notified := true, log := a.log + [n],
       end := if n.IsFinal() then FinalNotify else if n.EndsSubscription() then SubscriptionEnded else a.end)
  }

  /** The deadline a NOTIFY leaves: its own, but never later than one an earlier NOTIFY set. */
  function NewDeadline(t1: nat, a: Attempt, n: Notify, now: int): int {
    var d := now + SubscriptionBound(t1, n);
    if a.notified && a.deadline.Some? && a.deadline.value < d then a.deadline.value else d
  }

  predicate Past(a: Attempt, now: int) {
    a.deadline.Some? && now >= a.deadline.value
  }

  function RecordOn(t1: nat, a: Attempt, n: Notify, now: int): Attempt {
    if Past(a, now) then Expire(a)
    else if n.EndsSubscription() then Note(a, n)
    else Arm(Note(a, n), NewDeadline(t1, a, n, now))
  }

  // ---------- routing ----------

  /** The first registered attempt from `k` on whose recorded CSeq is `id`. */
  function FirstKnown(attempts: seq<Attempt>, id: nat, k: nat): (r: Option<nat>)
    requires k <= |attempts|
    ensures r.Some? ==> k <= r.value < |attempts| && var a := attempts[r.value]; a.registered && a.cseqKnown && a.cseq == id
    ensures forall i :: k <= i < (if r.Some? then r.value else |attempts|) ==>
              !(attempts[i].registered && attempts[i].cseqKnown && attempts[i].cseq == id)
    decreases |attempts| - k
  {
    if k == |attempts| then None
    else if attempts[k].registered && attempts[k].cseqKnown && attempts[k].cseq == id then Some(k)
    else FirstKnown(attempts, id, k + 1)
  }

  /** How many registered attempts still await their CSeq. */
  function Awaiting(attempts: seq<Attempt>): nat {
    if attempts == [] then 0
    else Awaiting(attempts[..|attempts| - 1]) +
         if attempts[|attempts| - 1].registered && !attempts[|attempts| - 1].cseqKnown then 1 else 0
  }

  /** referNotifyTargetLocked */
  function Target(s: State, n: Notify): (r: Option<nat>)
    ensures r.Some? ==> r.value < |s.attempts| && s.attempts[r.value].registered
  {
    var last := |s.attempts| - 1;
    if n.id.Some? then
      var known := FirstKnown(s.attempts, n.id.value, 0);
      if known.Some? then known
      else if last >= 0 && s.attempts[last].registered && !s.attempts[last].cseqKnown &&
              Awaiting(s.attempts) == 1 && n.id.value > s.highest
      then Some(last)
      else None
    else if last >= 0 && s.attempts[last].registered then Some(last)
    else None
  }

  /** The attempt recordReferNotify records `n` on and returns, if any. */
  function RecordedOn(s: State, n: Notify, now: int): (r: Option<nat>)
    ensures r.Some? ==> r.value < |s.attempts| && r == Target(s, n)
  {
    var t := Target(s, n);
    if t.Some? && s.attempts[t.value].end == NotEnded && !Past(s.attempts[t.value], now) then t else None
  }

  function Put(s: State, i: nat, a: Attempt): State
    requires i < |s.attempts|
  {
    s.(attempts := s.attempts[i := a])
  }

  /** beginReferAttempt */
  function Registered(attempts: seq<Attempt>, sent: Option<nat>): seq<Attempt> {
    attempts + [Attempt(0, false, true, NotEnded, [], 0, false, None, 0, sent, [], None, [], 0)]
  }

  function Step(t1: nat, s: State, e: Event): State {
    match e
    case Begin(sent) =>
      s.(attempts := Registered(s.attempts, sent))
    case Unobserved(cseq) =>
      s.(others := s.others + {cseq})
    case SetCSeq(a) =>
      if a < |s.attempts| && s.attempts[a].sent.Some? then
        var c := s.attempts[a].sent.value;
        Put(s.(highest := if c > s.highest then c else s.highest), a, s.attempts[a].(cseq := c, cseqKnown := true))
      else s
    case Start(a, now) =>
      if a < |s.attempts| && now >= s.clock && s.attempts[a].accepted == None then
        var x := s.attempts[a].(accepted := Some(now));
        Put(s.(clock := now), a, if x.end == NotEnded && x.deadline == None then Arm(x, now + TimerN(t1)) else x)
      else s
    case Record(n, now) =>
      var t := Target(s, n);
      if now >= s.clock && t.Some? && s.attempts[t.value].end == NotEnded then
        Put(s.(clock := now), t.value, RecordOn(t1, s.attempts[t.value], n, now))
      else s
    case RetireEnded(a) =>
      if a < |s.attempts| && s.attempts[a].end != NotEnded then Put(s, a, Retire(s.attempts[a])) else s
    case TimerFires(a, armed, now) =>
      // a timer fires no earlier than the deadline it was armed with
      if a < |s.attempts| && now >= s.clock && 0 < armed <= |s.attempts[a].deadlines| &&
         now >= s.attempts[a].deadlines[armed - 1]
      then
        var x := s.attempts[a];
        if x.end == NotEnded && x.armed == armed then Put(s.(clock := now), a, Expire(x)) else s.(clock := now)
      else s
    case Finish(a, end) =>
      if a < |s.attempts| then
        var x := s.attempts[a];
        Put(s, a, Retire(if x.end == NotEnded || end == Refused then x.(end := end) else x))
      else s
    case Drop(a) =>
      if a < |s.attempts| then Put(s, a, Retire(s.attempts[a])) else s
  }

  function RunFrom(t1: nat, s: State, events: seq<Event>): State
    decreases |events|
  {
    if events == [] then s else RunFrom(t1, Step(t1, s, events[0]), events[1..])
  }

  function Run(t1: nat, events: seq<Event>): State {
    RunFrom(t1, Initial(), events)
  }

  // ---------- what every step keeps of an attempt ----------

  /** What is kept of a log: the first 32, the last of them making way for a terminal NOTIFY. */
  function Kept(log: seq<Notify>): seq<Notify> {
    if |log| <= MAX_NOTIFIES then log
    else if log[|log| - 1].EndsSubscription() then log[..MAX_NOTIFIES - 1] + [log[|log| - 1]]
    else log[..MAX_NOTIFIES]
  }

  predicate LogKept(a: Attempt) {
    && a.notifies == Kept(a.log)
    && a.dropped == |a.log| - |a.notifies|
    && a.notified == (a.log != [])
    && (forall i :: 0 <= i < |a.log| - 1 ==> !a.log[i].EndsSubscription())
    && (a.log != [] && a.log[|a.log| - 1].EndsSubscription() ==> a.end != NotEnded)
  }

  predicate Bounded(t1: nat, a: Attempt, clock: int) {
    && a.armed == |a.deadlines|
    && (a.deadline.Some? <==> a.armed > 0)
    && (a.deadline.Some? ==> a.deadlines[a.armed - 1] == a.deadline.value)
    && (a.deadline.Some? && a.accepted == None ==> a.deadline.value <= clock + Longest(t1))
    && (a.deadline.Some? && a.accepted.Some? ==> a.deadline.value <= a.accepted.value + TimerN(t1) + Longest(t1))
    && (a.deadline.Some? && !a.notified ==> a.accepted.Some? && a.deadline.value == a.accepted.value + TimerN(t1))
    && (a.notified && a.end == NotEnded ==> a.deadline.Some?)
    && (a.accepted.Some? && a.end == NotEnded ==> a.deadline.Some?)
    && (a.accepted.Some? ==> a.accepted.value <= clock)
  }

  predicate Good(t1: nat, a: Attempt, clock: int) {
    && LogKept(a) && Bounded(t1, a, clock)
    && a.closes == (if a.registered then 0 else 1)
    && (a.cseqKnown ==> a.sent == Some(a.cseq))
  }

  predicate Inv(t1: nat, s: State) {
    forall i :: 0 <= i < |s.attempts| ==> Good(t1, s.attempts[i], s.clock)
  }

  lemma NoteKeeps(a: Attempt, n: Notify)
    requires LogKept(a) && a.end == NotEnded
    ensures LogKept(Note(a, n))
  {
    var b := Note(a, n);
    assert b.log[..|a.log|] == a.log;
    if |a.log| >= MAX_NOTIFIES {
      assert Kept(a.log) == a.log[..MAX_NOTIFIES];
      assert b.log[..MAX_NOTIFIES - 1] == a.log[..MAX_NOTIFIES - 1] == a.notifies[..MAX_NOTIFIES - 1];
      assert b.log[..MAX_NOTIFIES] == a.log[..MAX_NOTIFIES];
    }
  }

  lemma ArmKeeps(t1: nat, a: Attempt, n: Notify, clock: int, now: int)
    requires Bounded(t1, a, clock) && a.end == NotEnded && clock <= now && !Past(a, now) && !n.EndsSubscription()
    ensures Bounded(t1, Arm(Note(a, n), NewDeadline(t1, a, n, now)), now)
  {
    assert SubscriptionBound(t1, n) <= Longest(t1);
  }

  lemma RecordKeeps(t1: nat, a: Attempt, n: Notify, clock: int, now: int)
    requires Good(t1, a, clock) && a.end == NotEnded && clock <= now
    ensures Good(t1, RecordOn(t1, a, n, now), now)
  {
    NoteKeeps(a, n);
    if !Past(a, now) && !n.EndsSubscription() {
      ArmKeeps(t1, a, n, clock, now);
    }
  }

  lemma GoodLater(t1: nat, a: Attempt, clock: int, now: int)
    requires Good(t1, a, clock) && clock <= now
    ensures Good(t1, a, now)
  {
  }

  lemma EndKeeps(t1: nat, a: Attempt, clock: int, end: End)
    requires Good(t1, a, clock)
    ensures Good(t1, Retire(a), clock)
    ensures end != NotEnded || a.end == NotEnded ==> Good(t1, Retire(a.(end := end)), clock)
  {
  }

  lemma StartKeeps(t1: nat, a: Attempt, clock: int, now: int)
    requires Good(t1, a, clock) && clock <= now && a.accepted == None
    ensures var x := a.(accepted := Some(now));
            Good(t1, if x.end == NotEnded && x.deadline == None then Arm(x, now + TimerN(t1)) else x, now)
  {
  }

  lemma PutKeeps(t1: nat, s: State, i: nat, a: Attempt, now: int)
    requires Inv(t1, s) && i < |s.attempts| && s.clock <= now && Good(t1, a, now)
    ensures Inv(t1, Put(s.(clock := now), i, a))
  {
    hide Good;
    forall j | 0 <= j < |s.attempts|
      ensures Good(t1, s.attempts[j], now)
    {
      GoodLater(t1, s.attempts[j], s.clock, now);
    }
  }

  lemma StepKeeps(t1: nat, s: State, e: Event)
    requires Inv(t1, s)
    ensures Inv(t1, Step(t1, s, e))
  {
    hide Good, Target, Retire, Arm, RecordOn;
    match e
    case Begin(sent) => BeginKeeps(t1, s, sent);
    case Unobserved(_) =>
    case SetCSeq(a) =>
      if a < |s.attempts| && s.attempts[a].sent.Some? {
        var c := s.attempts[a].sent.value;
        CSeqKeeps(t1, s.attempts[a], s.clock, c);
        var r := s.(highest := if c > s.highest then c else s.highest);
        PutKeeps(t1, r, a, s.attempts[a].(cseq := c, cseqKnown := true), s.clock);
      }
    case Start(a, now) =>
      if a < |s.attempts| && now >= s.clock && s.attempts[a].accepted == None {
        StartKeeps(t1, s.attempts[a], s.clock, now);
        var x := s.attempts[a].(accepted := Some(now));
        PutKeeps(t1, s, a, if x.end == NotEnded && x.deadline == None then Arm(x, now + TimerN(t1)) else x, now);
      }
    case Record(n, now) =>
      var t := Target(s, n);
      if now >= s.clock && t.Some? && s.attempts[t.value].end == NotEnded {
        RecordKeeps(t1, s.attempts[t.value], n, s.clock, now);
        PutKeeps(t1, s, t.value, RecordOn(t1, s.attempts[t.value], n, now), now);
      }
    case RetireEnded(a) =>
      if a < |s.attempts| {
        EndKeeps(t1, s.attempts[a], s.clock, Refused);
        PutKeeps(t1, s, a, Retire(s.attempts[a]), s.clock);
      }
    case TimerFires(a, armed, now) =>
      if a < |s.attempts| && now >= s.clock {
        var x := s.attempts[a];
        GoodLater(t1, x, s.clock, now);
        EndKeeps(t1, x, now, if x.notified then SubscriptionExpired else NoNotify);
        PutKeeps(t1, s, a, Expire(x), now);
        PutKeeps(t1, s, a, x, now);
        assert Put(s.(clock := now), a, x) == s.(clock := now);
      }
    case Finish(a, end) =>
      if a < |s.attempts| {
        EndKeeps(t1, s.attempts[a], s.clock, end);
        PutKeeps(t1, s, a, Retire(if s.attempts[a].end == NotEnded || end == Refused then s.attempts[a].(end := end) else s.attempts[a]), s.clock);
      }
    case Drop(a) =>
      if a < |s.attempts| {
        EndKeeps(t1, s.attempts[a], s.clock, Refused);
        PutKeeps(t1, s, a, Retire(s.attempts[a]), s.clock);
      }
  }

  lemma BeginKeeps(t1: nat, s: State, sent: Option<nat>)
    requires Inv(t1, s)
    ensures Inv(t1, Step(t1, s, Begin(sent)))
  {
  }

  lemma CSeqKeeps(t1: nat, a: Attempt, clock: int, c: nat)
    requires Good(t1, a, clock) && a.sent == Some(c)
    ensures Good(t1, a.(cseq := c, cseqKnown := true), clock)
  {
  }

  lemma {:induction false} RunFromKeeps(t1: nat, s: State, events: seq<Event>)
    requires Inv(t1, s)
    ensures Inv(t1, RunFrom(t1, s, events))
    decreases |events|
  {
    if events == [] {
    } else {
      StepKeeps(t1, s, events[0]);
      RunFromKeeps(t1, Step(t1, s, events[0]), events[1..]);
    }
  }

  lemma RunKeeps(t1: nat, events: seq<Event>)
    ensures Inv(t1, Run(t1, events))
  {
    RunFromKeeps(t1, Initial(), events);
  }

  // ---------- what an attempt observed ----------

  /** A NOTIFY goes into one log at most, that of the attempt it is routed to, before its deadline. */
  lemma RecordIsLogged(t1: nat, s: State, n: Notify, now: int, i: nat)
    requires i < |s.attempts| && now >= s.clock
    ensures var t := Step(t1, s, Record(n, now));
            && |t.attempts| == |s.attempts|
            && t.attempts[i].log == s.attempts[i].log + (if RecordedOn(s, n, now) == Some(i) then [n] else [])
            && (RecordedOn(s, n, now) == Some(i) ==>
                  s.attempts[i].registered && s.attempts[i].end == NotEnded &&
                  (s.attempts[i].deadline.Some? ==> now < s.attempts[i].deadline.value))
  {
  }

  /**
   * At most 32 NOTIFYs are kept, the first ones, and the rest counted; a terminal one is unique,
   * always last, and ends the attempt. `done` is closed once, exactly when it is unregistered.
   */
  lemma ObservationIsBounded(t1: nat, events: seq<Event>, i: nat)
    requires i < |Run(t1, events).attempts|
    ensures var a := Run(t1, events).attempts[i];
            && |a.notifies| <= MAX_NOTIFIES && |a.notifies| + a.dropped == |a.log|
            && (forall k :: 0 <= k < |a.notifies| - 1 ==> a.notifies[k] == a.log[k] && !a.notifies[k].EndsSubscription())
            && (a.log != [] && a.log[|a.log| - 1].EndsSubscription() ==>
                  |a.notifies| > 0 && a.notifies[|a.notifies| - 1] == a.log[|a.log| - 1] && a.end != NotEnded)
            && (forall n :: n in a.log && n.EndsSubscription() ==> n in a.notifies)
            && a.closes == if a.registered then 0 else 1
  {
    RunKeeps(t1, events);
  }

  /** What no later event can undo. */
  predicate Later(a: Attempt, b: Attempt) {
    && (a.notified && a.deadline.Some? ==> b.notified && b.deadline.Some? && b.deadline.value <= a.deadline.value)
    && (a.end != NotEnded ==> b.end == a.end || b.end == Refused)
    && (a.end != NotEnded || !a.registered ==> b.log == a.log)
    && (!a.registered ==> !b.registered)
    && a.log <= b.log && a.closes <= b.closes
    && (a.accepted.Some? ==> b.accepted == a.accepted)
    && b.sent == a.sent && (a.cseqKnown ==> b.cseqKnown && b.cseq == a.cseq)
  }

  lemma RecordLater(t1: nat, a: Attempt, n: Notify, clock: int, now: int)
    requires Good(t1, a, clock) && a.end == NotEnded && a.registered
    ensures Later(a, RecordOn(t1, a, n, now))
  {
    var b := RecordOn(t1, a, n, now);
    assert a.log <= b.log;
  }

  lemma SameLater(a: Attempt)
    ensures Later(a, a)
  {
  }

  lemma EndLater(a: Attempt, end: End)
    ensures Later(a, Retire(a))
    ensures a.end == NotEnded || end == Refused ==> Later(a, Retire(a.(end := end)))
  {
  }

  lemma StartLater(t1: nat, a: Attempt, clock: int, now: int)
    requires Good(t1, a, clock) && a.accepted == None
    ensures var x := a.(accepted := Some(now));
            Later(a, if x.end == NotEnded && x.deadline == None then Arm(x, now + TimerN(t1)) else x)
  {
  }

  lemma StepLater(t1: nat, s: State, e: Event, i: nat)
    requires Inv(t1, s) && i < |s.attempts|
    ensures i < |Step(t1, s, e).attempts| && Later(s.attempts[i], Step(t1, s, e).attempts[i])
  {
    hide RecordOn, Target, Retire, Arm, LogKept, Bounded;
    var a := s.attempts[i];
    assert Good(t1, a, s.clock);
    SameLater(a);
    match e
    case Begin(_) =>
    case Unobserved(_) =>
    case SetCSeq(_) =>
    case Start(_, now) =>
      if a.accepted == None {
        StartLater(t1, a, s.clock, now);
      }
    case Record(n, now) =>
      if Target(s, n) == Some(i) && a.end == NotEnded {
        RecordLater(t1, a, n, s.clock, now);
      }
    case TimerFires(_, _, _) => EndLater(a, if a.notified then SubscriptionExpired else NoNotify);
    case Finish(_, end) => EndLater(a, end);
    case _ => EndLater(a, Refused);
  }

  lemma {:induction false} RunLater(t1: nat, s: State, events: seq<Event>, i: nat)
    requires Inv(t1, s) && i < |s.attempts|
    ensures i < |RunFrom(t1, s, events).attempts| && Later(s.attempts[i], RunFrom(t1, s, events).attempts[i])
    decreases |events|
  {
    if events == [] {
    } else {
      StepLater(t1, s, events[0], i);
      StepKeeps(t1, s, events[0]);
      hide Inv, Step;
      RunLater(t1, Step(t1, s, events[0]), events[1..], i);
    }
  }

  lemma {:induction false} RunSplits(t1: nat, s: State, before: seq<Event>, after: seq<Event>)
    ensures RunFrom(t1, s, before + after) == RunFrom(t1, RunFrom(t1, s, before), after)
    decreases |before|
  {
    if before == [] {
      assert before + after == after;
    } else {
      assert (before + after)[1..] == before[1..] + after;
      RunSplits(t1, Step(t1, s, before[0]), before[1..], after);
    }
  }

  /**
   * Once a NOTIFY set the deadline it never moves later, an end stays unless the REFER's own
   * refusal replaces it, and nothing is recorded on an attempt that has ended or is retired.
   */
  lemma NothingIsUndone(t1: nat, before: seq<Event>, after: seq<Event>, i: nat)
    requires i < |Run(t1, before).attempts|
    ensures var s, t := Run(t1, before), Run(t1, before + after);
            && i < |t.attempts|
            && var a, b := s.attempts[i], t.attempts[i];
            && (a.notified && a.deadline.Some? ==> b.deadline.Some? && b.deadline.value <= a.deadline.value)
            && (a.end != NotEnded ==> b.end == a.end || b.end == Refused)
            && (a.end != NotEnded || !a.registered ==> b.log == a.log)
            && (!a.registered ==> !b.registered) && a.log <= b.log
  {
    RunKeeps(t1, before);
    RunSplits(t1, Initial(), before, after);
    RunLater(t1, Run(t1, before), after, i);
  }

  /** The deadline is at most the 2xx plus 64*T1 plus the longer of an hour and 64*T1. */
  lemma DeadlineIsBounded(t1: nat, events: seq<Event>, i: nat)
    requires i < |Run(t1, events).attempts|
    ensures var a := Run(t1, events).attempts[i];
            && (a.deadline.Some? && a.accepted.Some? ==>
                  a.deadline.value <= a.accepted.value + 64 * t1 + Max(3600 * SECOND, 64 * t1))
            && (a.accepted.Some? && a.end == NotEnded ==> a.deadline.Some?)
            && (a.notified && a.end == NotEnded ==> a.deadline.Some?)
  {
    RunKeeps(t1, events);
  }

  /** A timer ends an attempt only at its current deadline; one replaced since ends nothing. */
  lemma TimerEndsAtDeadline(t1: nat, events: seq<Event>, i: nat, k: nat, armed: nat, now: int)
    requires i < |Run(t1, events).attempts|
    ensures var s := Run(t1, events);
            var t := Step(t1, s, TimerFires(k, armed, now));
            && |t.attempts| == |s.attempts|
            && (t.attempts[i] != s.attempts[i] ==>
                  && i == k && s.attempts[i].end == NotEnded && t.attempts[i].end in {SubscriptionExpired, NoNotify}
                  && s.attempts[i].deadline.Some? && now >= s.attempts[i].deadline.value
                  && armed == |s.attempts[i].deadlines|)
            && (i == k && armed < |s.attempts[i].deadlines| ==> t.attempts[i] == s.attempts[i])
  {
    RunKeeps(t1, events);
  }

  // ---------- routing ----------

  /** Each REFER's CSeq is above every earlier one's and is recorded before the next begins. */
  predicate OneAtATime(s: State, sent: Option<nat>) {
    forall k :: 0 <= k < |s.attempts| && s.attempts[k].sent.Some? ==>
      s.attempts[k].cseqKnown && (sent.Some? ==> s.attempts[k].sent.value < sent.value)
  }

  predicate Orderly(t1: nat, s: State, events: seq<Event>)
    decreases |events|
  {
    events == [] ||
    ((events[0].Begin? ==> OneAtATime(s, events[0].sent)) && Orderly(t1, Step(t1, s, events[0]), events[1..]))
  }

  /** Recorded CSeqs are those sent, and at most the highest. */
  predicate Recorded(s: State) {
    forall k :: 0 <= k < |s.attempts| && s.attempts[k].cseqKnown ==>
      s.attempts[k].sent == Some(s.attempts[k].cseq) && s.attempts[k].cseq <= s.highest
  }

  /** Only the latest attempt may still await its CSeq, and CSeqs grow. */
  predicate Numbered(s: State) {
    && Recorded(s)
    && (forall k :: 0 <= k < |s.attempts| - 1 && s.attempts[k].sent.Some? ==> s.attempts[k].cseqKnown)
    && (forall j, k :: 0 <= j < k < |s.attempts| && s.attempts[j].sent.Some? && s.attempts[k].sent.Some? ==>
          s.attempts[j].sent.value < s.attempts[k].sent.value)
  }

  /** Past Begin, an attempt keeps its REFER, and its CSeq once recorded. */
  lemma StepNumbers(t1: nat, s: State, e: Event, k: nat)
    requires !e.Begin? && k < |s.attempts|
    ensures var t := Step(t1, s, e);
            && |t.attempts| == |s.attempts| && t.attempts[k].sent == s.attempts[k].sent && t.highest >= s.highest
            && (s.attempts[k].cseqKnown ==> t.attempts[k].cseqKnown)
            && (Recorded(s) && t.attempts[k].cseqKnown ==>
                  t.attempts[k].cseq <= t.highest && t.attempts[k].sent == Some(t.attempts[k].cseq))
  {
    hide RecordOn, Target;
    if e.Record? {
      RecordNumbers(t1, s.attempts[k], e.n, e.now);
    }
  }

  lemma StepRecorded(t1: nat, s: State, e: Event)
    requires Recorded(s)
    ensures Recorded(Step(t1, s, e))
  {
    if !e.Begin? {
      hide Step;
      forall k | 0 <= k < |s.attempts|
        ensures var t := Step(t1, s, e);
                |t.attempts| == |s.attempts| &&
                (t.attempts[k].cseqKnown ==> t.attempts[k].cseq <= t.highest && t.attempts[k].sent == Some(t.attempts[k].cseq))
      {
        StepNumbers(t1, s, e, k);
      }
      StepSize(t1, s, e);
    }
  }

  lemma StepSize(t1: nat, s: State, e: Event)
    ensures |Step(t1, s, e).attempts| == |s.attempts| + if e.Begin? then 1 else 0
  {
    hide RecordOn, Target;
  }

  lemma StepNumbered(t1: nat, s: State, e: Event)
    requires Numbered(s) && (e.Begin? ==> OneAtATime(s, e.sent))
    ensures Numbered(Step(t1, s, e))
  {
    StepRecorded(t1, s, e);
    if !e.Begin? {
      hide Step;
      forall k | 0 <= k < |s.attempts|
        ensures var t := Step(t1, s, e);
                && |t.attempts| == |s.attempts| && t.attempts[k].sent == s.attempts[k].sent
                && (s.attempts[k].cseqKnown ==> t.attempts[k].cseqKnown)
      {
        StepNumbers(t1, s, e, k);
      }
      StepSize(t1, s, e);
    }
  }

  lemma RecordNumbers(t1: nat, a: Attempt, n: Notify, now: int)
    ensures var b := RecordOn(t1, a, n, now);
            b.sent == a.sent && b.cseq == a.cseq && b.cseqKnown == a.cseqKnown
  {
  }

  lemma {:induction false} RunNumbered(t1: nat, s: State, events: seq<Event>)
    requires Numbered(s) && Orderly(t1, s, events)
    ensures Numbered(RunFrom(t1, s, events))
    decreases |events|
  {
    if events == [] {
    } else {
      StepNumbered(t1, s, events[0]);
      RunNumbered(t1, Step(t1, s, events[0]), events[1..]);
    }
  }

  /**
   * With the REFERs one at a time, a NOTIFY carrying the CSeq of a REFER that has an attempt is
   * never recorded on another's, even once its own is retired; without an id only the latest takes
   * it. For the id of a REFER without an attempt see UnobservedMisroutedExactlyWhen.
   */
  lemma RoutedToItsOwn(t1: nat, events: seq<Event>, n: Notify, now: int, own: nat)
    requires Orderly(t1, Initial(), events)
    requires var s := Run(t1, events);
             own < |s.attempts| && (n.id.Some? ==> s.attempts[own].sent == n.id)
    ensures var s := Run(t1, events);
            RecordedOn(s, n, now).Some? ==>
              RecordedOn(s, n, now).value == if n.id.Some? then own else |s.attempts| - 1
  {
    RunNumbered(t1, Initial(), events);
    RoutedWhenNumbered(Run(t1, events), n, now, own);
  }

  lemma RoutedWhenNumbered(s: State, n: Notify, now: int, own: nat)
    requires Numbered(s) && own < |s.attempts| && (n.id.Some? ==> s.attempts[own].sent == n.id)
    ensures RecordedOn(s, n, now).Some? ==>
              RecordedOn(s, n, now).value == if n.id.Some? then own else |s.attempts| - 1
  {
  }

  /**
   * A NOTIFY arrives: in every run, one with the id of an open attempt whose CSeq is recorded is
   * recorded on it, before its deadline.
   */
  lemma ReachesItsOwn(t1: nat, events: seq<Event>, n: Notify, now: int, own: nat)
    requires DistinctCSeqs(Run(t1, events)) && own < |Run(t1, events).attempts|
    requires var a := Run(t1, events).attempts[own];
             a.registered && a.end == NotEnded && !Past(a, now) && a.cseqKnown && n.id == Some(a.cseq)
    ensures RecordedOn(Run(t1, events), n, now) == Some(own)
  {
    RunRecorded(t1, Initial(), events);
    hide Run, RunFrom;
  }

  /** So is one without an id, or one that raced ahead of its REFER's response, on the latest attempt. */
  lemma ReachesTheLatest(t1: nat, events: seq<Event>, n: Notify, now: int)
    requires var s := Run(t1, events);
             && s.attempts != []
             && var a := s.attempts[|s.attempts| - 1];
             && a.registered && a.end == NotEnded && !Past(a, now)
             && (n.id.Some? ==> a.sent == n.id && LatestAwaitsAlone(s) && n.id.value > s.highest)
    ensures RecordedOn(Run(t1, events), n, now) == Some(|Run(t1, events).attempts| - 1)
  {
    RunRecorded(t1, Initial(), events);
    if n.id.Some? {
      TargetWhenRecorded(Run(t1, events), n);
    }
    hide Run, RunFrom, LatestAwaitsAlone;
  }

  /**
   * What a NOTIFY that leaves the subscription alive makes of its deadline: the first gives it its own
   * duration from now, and a later one may only bring it nearer. The duration is its expires, an hour
   * at most, and 64*T1 when it gives none.
   */
  lemma NotifySetsTheDeadline(t1: nat, events: seq<Event>, n: Notify, now: int, i: nat)
    requires now >= Run(t1, events).clock && RecordedOn(Run(t1, events), n, now) == Some(i)
    requires n.status < 200 && !(n.hasState && n.terminated)
    ensures var a := Run(t1, events).attempts[i];
            var t := Step(t1, Run(t1, events), Record(n, now));
            var own := now + if n.hasState && n.expires.Some?
                             then (if n.expires.value <= 3600 then n.expires.value * SECOND else 3600 * SECOND) else 64 * t1;
            && i < |t.attempts| && t.attempts[i].end == NotEnded && t.attempts[i].registered
            && t.attempts[i].deadline == Some(if a.notified && a.deadline.Some? && a.deadline.value <= own then a.deadline.value else own)
  {
    hide Run, Target;
  }

  /** A terminal NOTIFY ends the attempt, by its final status if it has one; until it is answered it stays registered. */
  lemma TerminalNotifyEnds(t1: nat, events: seq<Event>, n: Notify, now: int, i: nat)
    requires now >= Run(t1, events).clock && RecordedOn(Run(t1, events), n, now) == Some(i)
    requires n.status >= 200 || (n.hasState && n.terminated)
    ensures var t := Step(t1, Run(t1, events), Record(n, now));
            && i < |t.attempts| && t.attempts[i].registered
            && t.attempts[i].end == (if n.status >= 200 then FinalNotify else SubscriptionEnded)
            && t.attempts[i].deadline == Run(t1, events).attempts[i].deadline
  {
    hide Run, Target;
  }

  /** The 2xx gives an open attempt no NOTIFY has reached 64*T1 to be told something, and changes no other deadline. */
  lemma AcceptanceArms(t1: nat, events: seq<Event>, i: nat, now: int)
    requires var s := Run(t1, events); i < |s.attempts| && s.attempts[i].accepted == None && now >= s.clock
    ensures var a := Run(t1, events).attempts[i];
            var t := Step(t1, Run(t1, events), Start(i, now));
            && i < |t.attempts| && t.clock == now && t.attempts[i].accepted == Some(now)
            && t.attempts[i].deadline == (if a.end == NotEnded && a.log == [] then Some(now + 64 * t1) else a.deadline)
  {
    RunKeeps(t1, events);
    hide Run;
  }

  /** A NOTIFY at its attempt's deadline or later is not recorded, and ends the attempt as its timer would. */
  lemma LateNotifyExpires(t1: nat, events: seq<Event>, n: Notify, now: int, i: nat)
    requires var s := Run(t1, events);
             Target(s, n) == Some(i) && s.attempts[i].end == NotEnded && s.attempts[i].deadline.Some? &&
             now >= s.attempts[i].deadline.value && now >= s.clock
    ensures var a := Run(t1, events).attempts[i];
            Step(t1, Run(t1, events), Record(n, now)) == Step(t1, Run(t1, events), TimerFires(i, a.armed, now))
  {
    RunKeeps(t1, events);
    hide Run, Target;
  }

  /** Whatever its end, a finished attempt is retired; only a refusal replaces an end it has. */
  lemma FinishRetires(t1: nat, events: seq<Event>, i: nat, end: End)
    requires i < |Run(t1, events).attempts|
    ensures var a := Run(t1, events).attempts[i];
            var t := Step(t1, Run(t1, events), Finish(i, end));
            && i < |t.attempts| && !t.attempts[i].registered && t.attempts[i].notifies == a.notifies
            && t.attempts[i].end == match a.end { case NotEnded => end case _ => if end.Refused? then Refused else a.end }
  {
    RunKeeps(t1, events);
    hide Run;
  }

  /**
   * Once the CSeq of its REFER is recorded an open attempt has the NOTIFYs that carry it, and no id up to
   * it is given to an attempt that still awaits its own.
   */
  lemma RecordedCSeqRoutes(t1: nat, events: seq<Event>, n: Notify, now: int, own: nat)
    requires DistinctCSeqs(Run(t1, events)) && own < |Run(t1, events).attempts| && n.id.Some?
    requires var a := Run(t1, events).attempts[own];
             a.registered && a.end == NotEnded && !Past(a, now) && a.sent.Some? && n.id.value <= a.sent.value
    ensures var s := Step(t1, Run(t1, events), SetCSeq(own));
            && (n.id == s.attempts[own].sent ==> RecordedOn(s, n, now) == Some(own))
            && (RecordedOn(s, n, now).Some? ==> s.attempts[RecordedOn(s, n, now).value].sent == n.id)
  {
    RunRecorded(t1, Initial(), events);
    StepRecorded(t1, Run(t1, events), SetCSeq(own));
    hide Run, RunFrom, Awaiting;
  }

  /** The answer to a NOTIFY retires the attempt exactly if that ended it, and a dropped attempt is retired as it is. */
  lemma RetiresOnceEnded(t1: nat, events: seq<Event>, i: nat)
    requires i < |Run(t1, events).attempts|
    ensures var s := Run(t1, events);
            var t, u := Step(t1, s, RetireEnded(i)), Step(t1, s, Drop(i));
            && |t.attempts| == |u.attempts| == |s.attempts|
            && (t.attempts[i].registered <==> s.attempts[i].registered && s.attempts[i].end == NotEnded)
            && !u.attempts[i].registered && t.attempts[i].closes <= 1 && u.attempts[i].closes == 1
            && t.attempts[i].end == u.attempts[i].end == s.attempts[i].end
            && (forall k :: 0 <= k < |s.attempts| && k != i ==> t.attempts[k] == u.attempts[k] == s.attempts[k])
  {
    RunKeeps(t1, events);
    hide Run;
  }

  /** Until its deadline no timer of its own ends an attempt. */
  lemma NotCutShort(t1: nat, events: seq<Event>, i: nat, armed: nat, now: int)
    requires i < |Run(t1, events).attempts| && Run(t1, events).attempts[i].deadline.Some?
    requires now < Run(t1, events).attempts[i].deadline.value
    ensures var t := Step(t1, Run(t1, events), TimerFires(i, armed, now));
            i < |t.attempts| && t.attempts[i] == Run(t1, events).attempts[i]
  {
    TimerEndsAtDeadline(t1, events, i, i, armed, now);
    hide Run;
  }

  /** At its deadline the current timer ends an open attempt, as expired once a NOTIFY came. */
  lemma EndsAtTheDeadline(t1: nat, events: seq<Event>, i: nat, now: int)
    requires var s := Run(t1, events);
             i < |s.attempts| && s.attempts[i].end == NotEnded && s.attempts[i].deadline.Some? &&
             now >= s.attempts[i].deadline.value && now >= s.clock
    ensures var a := Run(t1, events).attempts[i];
            var t := Step(t1, Run(t1, events), TimerFires(i, a.armed, now));
            && i < |t.attempts| && !t.attempts[i].registered
            && t.attempts[i].end == (if a.log != [] then SubscriptionExpired else NoNotify)
  {
    RunKeeps(t1, events);
    hide Run;
  }

  /** A REFER not recorded yet, above every CSeq that is, whose attempt is already retired. */
  predicate RetiredUnrecorded(s: State, k: nat) {
    k < |s.attempts| && !s.attempts[k].registered && !s.attempts[k].cseqKnown &&
    s.attempts[k].sent.Some? && s.attempts[k].sent.value > s.highest
  }

  predicate LatestAwaitsAlone(s: State) {
    var last := |s.attempts| - 1;
    last >= 0 && s.attempts[last].registered && !s.attempts[last].cseqKnown && Awaiting(s.attempts) == 1
  }

  /** No two REFERs of a dialog have one CSeq. */
  predicate DistinctCSeqs(s: State) {
    && (forall j, k :: 0 <= j < k < |s.attempts| && s.attempts[j].sent.Some? && s.attempts[k].sent.Some? ==>
          s.attempts[j].sent != s.attempts[k].sent)
    && (forall k :: 0 <= k < |s.attempts| && s.attempts[k].sent.Some? ==> s.attempts[k].sent.value !in s.others)
  }

  lemma {:induction false} RunRecorded(t1: nat, s: State, events: seq<Event>)
    requires Recorded(s)
    ensures Recorded(RunFrom(t1, s, events))
    decreases |events|
  {
    if events == [] {
    } else {
      StepRecorded(t1, s, events[0]);
      RunRecorded(t1, Step(t1, s, events[0]), events[1..]);
    }
  }

  /** The latest attempt is open and alone awaits its CSeq, and no CSeq recorded reaches `id`. */
  predicate LatestTakes(s: State, id: nat, now: int) {
    LatestAwaitsAlone(s) && id > s.highest &&
    var latest := s.attempts[|s.attempts| - 1];
    latest.end == NotEnded && !Past(latest, now)
  }

  /**
   * In every run, whatever REFERs overlap or go unobserved, a NOTIFY with an id is recorded on an
   * attempt of another REFER exactly when LatestTakes it and the latest REFER has another CSeq.
   */
  lemma MisroutedExactlyWhen(t1: nat, events: seq<Event>, n: Notify, now: int)
    requires n.id.Some?
    ensures var s := Run(t1, events);
            var r := RecordedOn(s, n, now);
            (r.Some? && s.attempts[r.value].sent != n.id) <==>
            (LatestTakes(s, n.id.value, now) && s.attempts[|s.attempts| - 1].sent != n.id)
  {
    RunRecorded(t1, Initial(), events);
    TargetWhenRecorded(Run(t1, events), n);
    hide Target, LatestAwaitsAlone;
  }

  /** An id reaches an attempt recorded with it or, above every CSeq recorded, the latest alone awaiting one. */
  lemma TargetWhenRecorded(s: State, n: Notify)
    requires Recorded(s) && n.id.Some?
    ensures var t := Target(s, n);
            && (t.Some? && s.attempts[t.value].sent != n.id ==>
                  t == Some(|s.attempts| - 1) && LatestAwaitsAlone(s) && n.id.value > s.highest)
            && (LatestAwaitsAlone(s) && n.id.value > s.highest ==> t == Some(|s.attempts| - 1))
  {
    hide Awaiting;
  }

  /**
   * For an observed REFER, with REFERs overlapping in any way: exactly when its attempt retired
   * before its CSeq was recorded and LatestTakes its NOTIFY.
   */
  lemma ObservedMisroutedExactlyWhen(t1: nat, events: seq<Event>, n: Notify, now: int, own: nat)
    requires DistinctCSeqs(Run(t1, events))
    requires own < |Run(t1, events).attempts| && n.id.Some? && Run(t1, events).attempts[own].sent == n.id
    ensures var s := Run(t1, events);
            var r := RecordedOn(s, n, now);
            (r.Some? && r.value != own) <==> (RetiredUnrecorded(s, own) && LatestTakes(s, n.id.value, now))
  {
    RunRecorded(t1, Initial(), events);
    var s := Run(t1, events);
    MisroutedWhenRecorded(s, n, own);
    TargetWhenRecorded(s, n);
    hide Target, LatestAwaitsAlone, Run;
  }

  /**
   * For a REFER sent without an attempt, which has none to be recorded on: exactly when LatestTakes
   * its NOTIFY.
   */
  lemma UnobservedMisroutedExactlyWhen(t1: nat, events: seq<Event>, n: Notify, now: int)
    requires DistinctCSeqs(Run(t1, events)) && n.id.Some? && n.id.value in Run(t1, events).others
    ensures var s := Run(t1, events);
            RecordedOn(s, n, now).Some? <==> LatestTakes(s, n.id.value, now)
  {
    MisroutedExactlyWhen(t1, events, n, now);
    hide Run, Target, LatestAwaitsAlone;
  }

  /** A REFER that is not observed has its final NOTIFY end the REFER after it. */
  lemma UnobservedMisroutes(t1: nat)
    ensures var final := Notify(200, false, false, None, Some(5));
            var events := [Unobserved(5), Begin(Some(6))];
            var s := Run(t1, events);
            var t := Step(t1, s, Record(final, 0));
            && Orderly(t1, Initial(), events) && s.others == {5} && RecordedOn(s, final, 0) == Some(0)
            && |t.attempts| == 1 && t.attempts[0].sent == Some(6) && t.attempts[0].end == FinalNotify
  {
    var final := Notify(200, false, false, None, Some(5));
    var s1 := Step(t1, Initial(), Unobserved(5));
    var s2 := Step(t1, s1, Begin(Some(6)));
    assert RunFrom(t1, s1, [Begin(Some(6))]) == s2;
    assert Run(t1, [Unobserved(5), Begin(Some(6))]) == s2;
    assert Orderly(t1, s1, [Begin(Some(6))]);
    assert s2.attempts[..0] == [] && Awaiting([]) == 0;
    assert Awaiting(s2.attempts) == 1;
  }

  lemma MisroutedWhenRecorded(s: State, n: Notify, own: nat)
    requires Recorded(s) && DistinctCSeqs(s)
    requires own < |s.attempts| && n.id.Some? && s.attempts[own].sent == n.id
    ensures (Target(s, n).Some? && Target(s, n).value != own) <==>
            (LatestAwaitsAlone(s) && RetiredUnrecorded(s, own))
  {
    var last := |s.attempts| - 1;
    if LatestAwaitsAlone(s) && own != last && s.attempts[own].registered && !s.attempts[own].cseqKnown {
      TwoAwait(s.attempts, own);
    }
  }

  lemma {:induction false} AwaitingCounts(attempts: seq<Attempt>, i: nat)
    requires i < |attempts| && attempts[i].registered && !attempts[i].cseqKnown
    ensures Awaiting(attempts) >= 1
    decreases |attempts|
  {
    if i == |attempts| - 1 {
    } else {
      AwaitingCounts(attempts[..|attempts| - 1], i);
    }
  }

  lemma TwoAwait(attempts: seq<Attempt>, i: nat)
    requires i < |attempts| - 1
    requires attempts[i].registered && !attempts[i].cseqKnown
    requires attempts[|attempts| - 1].registered && !attempts[|attempts| - 1].cseqKnown
    ensures Awaiting(attempts) >= 2
  {
    AwaitingCounts(attempts[..|attempts| - 1], i);
  }

  /** Overlapping REFERs can be misrouted: the first one's NOTIFY lands on the second's attempt. */
  lemma OverlapMisroutes(t1: nat)
    ensures var final := Notify(200, false, false, None, None);
            var progress := Notify(100, false, false, None, Some(5));
            var events := [Begin(Some(5)), Record(final, 0), RetireEnded(0), Begin(Some(6))];
            var s := Run(t1, events);
            |s.attempts| == 2 && s.attempts[0].sent == progress.id && RecordedOn(s, progress, 0) == Some(1)
  {
    var final := Notify(200, false, false, None, None);
    var progress := Notify(100, false, false, None, Some(5));
    var s0 := Initial();
    var s1 := Step(t1, s0, Begin(Some(5)));
    var s2 := Step(t1, s1, Record(final, 0));
    var s3 := Step(t1, s2, RetireEnded(0));
    var s4 := Step(t1, s3, Begin(Some(6)));
    assert RunFrom(t1, s3, [Begin(Some(6))]) == s4;
    assert RunFrom(t1, s2, [RetireEnded(0), Begin(Some(6))]) == s4;
    assert RunFrom(t1, s1, [Record(final, 0), RetireEnded(0), Begin(Some(6))]) == s4;
    assert Run(t1, [Begin(Some(5)), Record(final, 0), RetireEnded(0), Begin(Some(6))]) == s4;
    assert s2.attempts[0].end == FinalNotify;
    assert s4.attempts[..1] == s3.attempts && s3.attempts[..0] == [];
    assert Awaiting(s3.attempts[..0]) == 0;
    assert Awaiting(s3.attempts) == 0;
    assert Awaiting(s4.attempts) == 1;
  }
}
