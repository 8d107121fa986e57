/**
 * The RFC 4028 session timer of a dialog (session_timers.go): negotiation, the state each 2xx
 * sets, and the goroutine that waits on it through a one-slot channel.
 */
module SessionTimer {
  import opened Basics

  const SECOND := 1_000_000_000
  const DEFAULT_SESSION_EXPIRES := 1800 * SECOND
  const DEFAULT_MIN_SE := 90 * SECOND
  const DEFAULT_GRACE := 5 * SECOND
  const MIN_REFRESH_INTERVAL := DEFAULT_MIN_SE / 2

  type Seconds = nat

  /** The refresher parameter; an unknown token is neither side. */
  datatype Refresher = Unnamed | Uas | Uac | Unknown(token: string)

  datatype Policy = Policy(defaultSE: int, minSE: int, preferUas: bool, grace: int)

  /** A refresh is due within the interval exactly when the interval is not below the clamp. */
  function RefreshCadence(expires: nat): (d: nat)
    ensures d >= MIN_REFRESH_INTERVAL
    ensures expires >= DEFAULT_MIN_SE ==> expires <= 2 * d + 1 <= expires + 1
    ensures d <= expires <==> expires >= MIN_REFRESH_INTERVAL
  {
    Max(expires / 2, MIN_REFRESH_INTERVAL)
  }

  function WatchdogGrace(p: Policy): int {
    if p.grace > 0 then p.grace else DEFAULT_GRACE
  }

  function SecondsOf(d: nat): Seconds {
    d / SECOND
  }

  // ---------- negotiation ----------

  datatype Decision = Decision(negotiated: int, interval: int, refresher: Refresher, belowFloor: bool, weRefresh: bool)

  function OurFloor(p: Policy): int {
    if p.minSE <= 0 then DEFAULT_MIN_SE else p.minSE
  }

  function DefaultInterval(p: Policy): int {
    if p.defaultSE <= 0 then DEFAULT_SESSION_EXPIRES else p.defaultSE
  }

  function Negotiate(offeredSE: Option<Seconds>, offeredMinSE: Option<Seconds>, offered: Refresher, p: Policy, ourRole: Refresher): Decision {
    var floor := if offeredMinSE.Some? then Max(OurFloor(p), offeredMinSE.value * SECOND) else OurFloor(p);
    var candidate :=
      if offeredSE.Some? then offeredSE.value * SECOND
      else DefaultInterval(p);
    var negotiated := Max(candidate, floor);
    var refresher := if offered == Unnamed && p.preferUas then Uas else offered;
    Decision(negotiated, RefreshCadence(negotiated), refresher, offeredSE.Some? && candidate < floor,
             refresher != Unnamed && refresher == ourRole)
  }

  /**
   * The interval is the least that meets the peer's offer, or our default without one, and both
   * sides' minima; an offer is refused exactly when it is below a minimum, and otherwise taken as
   * it is. The peer's choice of refresher is honoured.
   */
  lemma NegotiatesTheFloor(se: Option<Seconds>, minSE: Option<Seconds>, offered: Refresher, p: Policy, role: Refresher)
    ensures var d := Negotiate(se, minSE, offered, p, role);
            && OurFloor(p) == (if p.minSE > 0 then p.minSE else 90 * SECOND)
            && DefaultInterval(p) == (if p.defaultSE > 0 then p.defaultSE else 1800 * SECOND)
            && d.negotiated >= OurFloor(p) && (minSE.Some? ==> d.negotiated >= minSE.value * SECOND)
            && (d.belowFloor <==> se.Some? && (se.value * SECOND < OurFloor(p) || (minSE.Some? && se.value < minSE.value)))
            && (se.Some? && !d.belowFloor ==> d.negotiated == se.value * SECOND)
            && (d.belowFloor ==> d.negotiated == OurFloor(p) || minSE == Some(SecondsOf(d.negotiated)))
            && (se == None ==>
                  && d.negotiated >= DefaultInterval(p) && !d.belowFloor
                  && (d.negotiated == DefaultInterval(p) || d.negotiated == OurFloor(p) || minSE == Some(SecondsOf(d.negotiated))))
            && (offered != Unnamed ==> d.refresher == offered)
            && (offered == Unnamed ==> d.refresher == if p.preferUas then Uas else Unnamed)
            && (role in {Uas, Uac} ==> (d.weRefresh <==> d.refresher == role))
            && (d.interval <= d.negotiated <==> d.negotiated >= MIN_REFRESH_INTERVAL)
  {
  }

  // ---------- the state a 2xx sets ----------

  datatype TimerState = TimerState(active: bool, expires: nat, weRefresh: bool, minSE: nat)

  datatype SessionExpires = SessionExpires(seconds: Seconds, refresher: Refresher)

  /** The session-timer headers of a request; `minSE` is in seconds. */
  datatype Offer = Offer(se: Option<SessionExpires>, minSE: Option<Seconds>, supportsTimer: bool)

  /** The headers of a re-INVITE of ours, none while the timer is off. */
  function HeadersFor(st: TimerState): Option<Offer> {
    if !st.active then None
    else Some(Offer(Some(SessionExpires(SecondsOf(Max(st.minSE, st.expires)), if st.weRefresh then Uac else Uas)),
                    if st.minSE > 0 then Some(SecondsOf(st.minSE)) else None, true))
  }

  /** The state a 2xx to a re-INVITE of ours sets; `named` is whether we named ourselves the refresher. */
  function StateAnswered(st: TimerState, se: Option<SessionExpires>, named: bool): TimerState {
    if !st.active then st
    else if se == None then st.(active := false)
    else
      st.(expires := se.value.seconds * SECOND,
          weRefresh := if se.value.refresher == Uac then true else if se.value.refresher == Uas then false else named)
  }

  function PeerRefresher(st: TimerState, req: Offer): bool {
    var named := if req.se.Some? then req.se.value.refresher else Unnamed;
    if named == Uac then false
    else if named == Uas then true
    else !req.supportsTimer || st.weRefresh
  }

  /** The state our 2xx to the peer's re-INVITE sets. */
  function StateAnswering(st: TimerState, req: Offer): TimerState {
    if !st.active then st
    else
      TimerState(true,
                 if req.se.Some? then req.se.value.seconds * SECOND else st.expires,
                 PeerRefresher(st, req),
                 if req.minSE.Some? then Max(st.minSE, req.minSE.value * SECOND) else st.minSE)
  }

  /** The Session-Expires of that 2xx, which names the state it sets. */
  function Announced(st: TimerState): Option<SessionExpires> {
    if st.active then Some(SessionExpires(SecondsOf(st.expires), if st.weRefresh then Uas else Uac)) else None
  }

  function StateRaised(st: TimerState, minSE: nat): TimerState {
    st.(minSE := Max(st.minSE, minSE))
  }

  // ---------- two endpoints ----------

  /** The peer's timer as the most recent 2xx, whoever sent it, has it (section 9 of RFC 4028). */
  datatype Peer = Peer(active: bool, seconds: Seconds, refreshes: bool)

  /** While our timer runs the peer's does, on the same whole seconds, and exactly one side refreshes. */
  predicate InStep(us: TimerState, peer: Peer) {
    us.active ==> peer.active && SecondsOf(us.expires) == peer.seconds && us.weRefresh != peer.refreshes
  }

  /**
   * A refresh of ours the peer answers with any 2xx, a re-INVITE of the peer's with any headers, or
   * a 422 to us.
   */
  datatype Move = OurRefresh(answer: Option<SessionExpires>) | PeerRefresh(req: Offer) | TooSmall(minSE: Seconds)

  /** What the peer's own 2xx means to it; one that names no known refresher keeps the one we named. */
  function PeerAfterAnswer(us: TimerState, answer: Option<SessionExpires>): Peer {
    if answer == None then Peer(false, 0, false)
    else
      Peer(true, answer.value.seconds,
           if answer.value.refresher == Uac then false else if answer.value.refresher == Uas then true else !us.weRefresh)
  }

  /** What our 2xx means to the peer, who sent the request. */
  function PeerAfterOurs(announced: Option<SessionExpires>): Peer {
    if announced == None then Peer(false, 0, false)
    else Peer(true, announced.value.seconds, announced.value.refresher == Uac)
  }

  function Exchange(us: TimerState, peer: Peer, m: Move): (TimerState, Peer) {
    match m
    case OurRefresh(answer) =>
      (StateAnswered(us, answer, us.active && us.weRefresh), PeerAfterAnswer(us, answer))
    case PeerRefresh(req) =>
      var us' := StateAnswering(us, req);
      (us', PeerAfterOurs(Announced(us')))
    case TooSmall(minSE) =>
      (StateRaised(us, minSE * SECOND), peer)
  }

  function Exchanges(us: TimerState, peer: Peer, moves: seq<Move>): (TimerState, Peer) {
    if moves == [] then (us, peer)
    else
      var (u, p) := Exchanges(us, peer, moves[..|moves| - 1]);
      Exchange(u, p, moves[|moves| - 1])
  }

  lemma SecondsBack(n: Seconds)
    ensures SecondsOf(n * SECOND) == n
  {
  }

  /** However refreshes from either side and 422s follow each other, and whatever the peer asks or answers. */
  lemma {:induction false} StayInStep(us: TimerState, peer: Peer, moves: seq<Move>)
    requires InStep(us, peer)
    ensures InStep(Exchanges(us, peer, moves).0, Exchanges(us, peer, moves).1)
    decreases |moves|
  {
    if moves == [] {
    } else {
      StayInStep(us, peer, moves[..|moves| - 1]);
      var m := moves[|moves| - 1];
      if m.OurRefresh? && m.answer.Some? {
        SecondsBack(m.answer.value.seconds);
      }
    }
  }

  /** A refresh answered by a peer that runs this same code brings both to the interval asked for. */
  lemma RefreshInStep(a: TimerState, b: TimerState)
    requires a.active && b.active
    ensures var b' := StateAnswering(b, HeadersFor(a).value);
            var a' := StateAnswered(a, Announced(b'), a.weRefresh);
            && a'.active && b'.active && a'.weRefresh == a.weRefresh != b'.weRefresh
            && a'.expires == b'.expires == SecondsOf(Max(a.minSE, a.expires)) * SECOND
  {
    SecondsBack(SecondsOf(Max(a.minSE, a.expires)));
  }

  /** Two ends that both run this code. */
  datatype Ends = Ends(left: TimerState, right: TimerState)

  /**
   * A refresh from one side, after a 422 that asked for `tooSmall` if one came first, or a 422 whose
   * retry failed.
   */
  datatype Turn = RefreshFrom(left: bool, tooSmall: Option<Seconds>) | GivenUp(left: bool, minSE: Seconds)

  function Raised(st: TimerState, minSE: Option<Seconds>): TimerState {
    if minSE.Some? then StateRaised(st, minSE.value * SECOND) else st
  }

  function Refreshed(a: TimerState, b: TimerState): (TimerState, TimerState) {
    var req := HeadersFor(a);
    var b' := StateAnswering(b, if req.Some? then req.value else Offer(None, None, false));
    (StateAnswered(a, Announced(b'), a.active && a.weRefresh), b')
  }

  function TakeTurn(e: Ends, t: Turn): Ends {
    match t
    case RefreshFrom(left, tooSmall) =>
      if left then
        var (a, b) := Refreshed(Raised(e.left, tooSmall), e.right);
        Ends(a, b)
      else
        var (a, b) := Refreshed(Raised(e.right, tooSmall), e.left);
        Ends(b, a)
    case GivenUp(left, minSE) =>
      if left then e.(left := Raised(e.left, Some(minSE))) else e.(right := Raised(e.right, Some(minSE)))
  }

  function TakeTurns(e: Ends, turns: seq<Turn>): Ends {
    if turns == [] then e else TakeTurn(TakeTurns(e, turns[..|turns| - 1]), turns[|turns| - 1])
  }

  /** Both ends run the timer on one interval, and exactly one of them refreshes. */
  predicate Coupled(e: Ends) {
    && e.left.active && e.right.active
    && SecondsOf(e.left.expires) == SecondsOf(e.right.expires) && e.left.weRefresh != e.right.weRefresh
  }

  /** The interval meets every Min-SE either end has seen. */
  predicate MeetsMinSE(e: Ends) {
    SecondsOf(e.left.expires) >= SecondsOf(e.left.minSE) && SecondsOf(e.right.expires) >= SecondsOf(e.right.minSE)
  }

  lemma SecondsOfMax(a: nat, b: nat)
    ensures SecondsOf(Max(a, b)) == Max(SecondsOf(a), SecondsOf(b))
  {
    SecondsGrow(a, Max(a, b));
    SecondsGrow(b, Max(a, b));
  }

  /** One refresh of `a`'s couples both at the larger of its interval and its Min-SE, which `b` learns. */
  lemma RefreshedCouples(a: TimerState, b: TimerState)
    requires a.active && b.active
    ensures var (a', b') := Refreshed(a, b);
            && a'.active && b'.active && a'.weRefresh == a.weRefresh != b'.weRefresh && a'.minSE == a.minSE
            && SecondsOf(a'.expires) == SecondsOf(b'.expires) == Max(SecondsOf(a.minSE), SecondsOf(a.expires))
            && SecondsOf(b'.minSE) == Max(SecondsOf(b.minSE), SecondsOf(a.minSE))
  {
    RefreshInStep(a, b);
    SecondsBack(SecondsOf(Max(a.minSE, a.expires)));
    SecondsOfMax(a.minSE, a.expires);
    SecondsBack(SecondsOf(a.minSE));
    SecondsOfMax(b.minSE, SecondsOf(a.minSE) * SECOND);
  }

  lemma TurnCouples(e: Ends, t: Turn)
    requires Coupled(e)
    ensures var f := TakeTurn(e, t);
            && Coupled(f) && SecondsOf(f.left.expires) >= SecondsOf(e.left.expires)
            && f.left.weRefresh == e.left.weRefresh
            && (MeetsMinSE(e) && t.RefreshFrom? ==> MeetsMinSE(f))
  {
    hide SecondsOf, Refreshed;
    if t.RefreshFrom? {
      if t.left {
        RefreshedCouples(Raised(e.left, t.tooSmall), e.right);
      } else {
        RefreshedCouples(Raised(e.right, t.tooSmall), e.left);
      }
    }
  }

  /**
   * However the two ends refresh and answer each other 422, they stay on one interval, which never
   * falls, with the refresher they had; and while every 422 is followed by its retry the interval
   * meets every Min-SE either has seen.
   */
  lemma {:induction false} EndsStayCoupled(e: Ends, turns: seq<Turn>)
    requires Coupled(e)
    ensures var f := TakeTurns(e, turns);
            && Coupled(f) && SecondsOf(f.left.expires) >= SecondsOf(e.left.expires)
            && f.left.weRefresh == e.left.weRefresh
            && (MeetsMinSE(e) && (forall i :: 0 <= i < |turns| ==> turns[i].RefreshFrom?) ==> MeetsMinSE(f))
    decreases |turns|
  {
    hide SecondsOf, TakeTurn, Coupled, MeetsMinSE;
    if turns == [] {
    } else {
      EndsStayCoupled(e, turns[..|turns| - 1]);
      TurnCouples(TakeTurns(e, turns[..|turns| - 1]), turns[|turns| - 1]);
    }
  }

  lemma TurnsTake(e: Ends, turns: seq<Turn>, t: Turn)
    ensures TakeTurns(e, turns + [t]) == TakeTurn(TakeTurns(e, turns), t)
  {
    assert (turns + [t])[..|turns|] == turns;
  }

  /** A 422 is heeded: whether its retry follows at once or only a later refresh does, both ends then keep what it asked for. */
  lemma RefusedIntervalIsRaised(e: Ends, turns: seq<Turn>, left: bool, minSE: Seconds)
    requires Coupled(e)
    ensures var f := TakeTurns(e, turns + [RefreshFrom(left, Some(minSE))]);
            SecondsOf(f.left.expires) == SecondsOf(f.right.expires) >= minSE
    ensures var f := TakeTurns(e, turns + [GivenUp(left, minSE)] + [RefreshFrom(left, None)]);
            SecondsOf(f.left.expires) == SecondsOf(f.right.expires) >= minSE
  {
    hide SecondsOf, TakeTurns, Refreshed, StateRaised;
    TurnsTake(e, turns, RefreshFrom(left, Some(minSE)));
    TurnsTake(e, turns, GivenUp(left, minSE));
    TurnsTake(e, turns + [GivenUp(left, minSE)], RefreshFrom(left, None));
    EndsStayCoupled(e, turns);
    var g := TakeTurns(e, turns);
    RaisedMeets(g.left, minSE);
    RaisedMeets(g.right, minSE);
    if left {
      RefreshedCouples(Raised(g.left, Some(minSE)), g.right);
    } else {
      RefreshedCouples(Raised(g.right, Some(minSE)), g.left);
    }
  }

  lemma RaisedMeets(st: TimerState, minSE: Seconds)
    ensures var r := Raised(st, Some(minSE)); r.active == st.active && SecondsOf(r.minSE) >= minSE
  {
    SecondsBack(minSE);
    SecondsOfMax(st.minSE, minSE * SECOND);
  }

  // ---------- the goroutine and its one-slot channel ----------

  datatype Outcome = GoesOn | Stopped | Ended

  /** Where `run` is; a sleeping one holds the snapshot its due time was computed from. */
  datatype Runner =
    | Draining(refreshing: bool)
    | Snapping(refreshing: bool)
    | Sleeping(refreshing: bool, snapshot: TimerState)
    | Refreshing(refreshing: bool)
    | Returned

  /**
   * `token` is the channel's one slot, `minSeen` every Min-SE seen, `changed` whether the state
   * changed since the last refresh began, or had a change pending then. `clock` is the time, `sleptAt`
   * when the last wait began and `changedAt` when the state was last set.
   */
  datatype State = State(timer: TimerState, token: bool, runner: Runner, minSeen: set<nat>, changed: bool,
                         clock: int, sleptAt: int, changedAt: int)

  datatype Event =
    | Drain
    | Snap
    | WakeChanged
    | WakeDue
    | WakeDone
    | RefreshReturns(outcome: Outcome)
    | OwnAnswered(se: Option<SessionExpires>, named: bool)
    | PeerAnswered(req: Offer)
    | MinSERaised(minSE: nat)
    | Passes(time: nat)

  function Start(st: TimerState): State {
    State(st, false, Draining(true), {st.minSE}, false, 0, 0, 0)
  }

  /** The new state and the token, in one hold of mu. */
  function Signal(s: State, st: TimerState): State {
    s.(timer := st, token := true, changed := true, changedAt := s.clock)
  }

  /** What run waits for; None is the change or the end only. */
  function Due(p: Policy, st: TimerState, refreshing: bool): Option<int> {
    if !st.active || (st.weRefresh && !refreshing) then None
    else if st.weRefresh then Some(RefreshCadence(st.expires))
    else Some(st.expires + WatchdogGrace(p))
  }

  function Step(p: Policy, s: State, e: Event): State {
    match e
    case Drain =>
      if !s.runner.Draining? then s
      else s.(token := false, runner := Snapping(s.runner.refreshing || s.token))
    case Snap =>
      if !s.runner.Snapping? then s
      else s.(runner := Sleeping(s.runner.refreshing, s.timer), sleptAt := s.clock)
    case WakeChanged =>
      if !s.runner.Sleeping? || !s.token then s
      else s.(token := false, runner := Draining(true))
    case WakeDue =>
      // the timer fires no earlier than it was set to
      if !s.runner.Sleeping? || Due(p, s.runner.snapshot, s.runner.refreshing) == None ||
         s.clock < s.sleptAt + Due(p, s.runner.snapshot, s.runner.refreshing).value
      then s
      else if s.runner.snapshot.weRefresh then s.(runner := Refreshing(s.runner.refreshing), changed := s.token)
      else s.(runner := Returned)
    case WakeDone =>
      if !s.runner.Sleeping? then s else s.(runner := Returned)
    case RefreshReturns(outcome) =>
      if !s.runner.Refreshing? then s
      else if outcome == Ended then s.(runner := Returned)
      else s.(runner := Draining(outcome == GoesOn && s.runner.refreshing))
    case OwnAnswered(se, named) =>
      if !s.timer.active then s else Signal(s, StateAnswered(s.timer, se, named))
    case PeerAnswered(req) =>
      var seen := if req.minSE.Some? then s.minSeen + {req.minSE.value * SECOND} else s.minSeen;
      if !s.timer.active then s.(minSeen := seen) else Signal(s.(minSeen := seen), StateAnswering(s.timer, req))
    case MinSERaised(minSE) =>
      s.(timer := StateRaised(s.timer, minSE), minSeen := s.minSeen + {minSE})
    case Passes(time) => s.(clock := s.clock + time)
  }

  function Run(p: Policy, st: TimerState, events: seq<Event>): State {
    if events == [] then Start(st)
    else Step(p, Run(p, st, events[..|events| - 1]), events[|events| - 1])
  }

  predicate SameTiming(a: TimerState, b: TimerState) {
    a.active == b.active && a.expires == b.expires && a.weRefresh == b.weRefresh
  }

  predicate Inv(s: State) {
    && (s.runner.Sleeping? ==> SameTiming(s.runner.snapshot, s.timer) || s.token)
    && (!s.runner.Returned? && !s.runner.refreshing && s.changed ==> s.token)
    && (s.runner.Refreshing? && s.changed ==> s.token)
    && s.changedAt <= s.clock && s.sleptAt <= s.clock
    && (s.runner.Sleeping? ==> s.changedAt <= s.sleptAt || s.token)
    && s.timer.minSE in s.minSeen
    && (s.timer.active ==> forall m :: m in s.minSeen ==> m <= s.timer.minSE)
  }

  lemma StepKeeps(p: Policy, s: State, e: Event)
    requires Inv(s)
    ensures Inv(Step(p, s, e))
  {
  }

  lemma {:induction false} RunKeeps(p: Policy, st: TimerState, events: seq<Event>)
    ensures Inv(Run(p, st, events))
    decreases |events|
  {
    if events == [] {
    } else {
      RunKeeps(p, st, events[..|events| - 1]);
      StepKeeps(p, Run(p, st, events[..|events| - 1]), events[|events| - 1]);
    }
  }

  /**
   * Whenever run sleeps without a wake-up pending, it waits for what the current state asks for:
   * no change is lost, and refreshing has stayed stopped only while nothing changed since the
   * refresh that stopped it began, so a change made during that refresh resumes it too.
   */
  lemma NoWakeUpIsLost(p: Policy, st: TimerState, events: seq<Event>)
    ensures var s := Run(p, st, events);
            s.runner.Sleeping? && !s.token ==>
              && Due(p, s.runner.snapshot, s.runner.refreshing) == Due(p, s.timer, s.runner.refreshing)
              && (s.changed ==> s.runner.refreshing)
              && (Due(p, s.runner.snapshot, s.runner.refreshing) == None ==>
                    !s.timer.active || (s.timer.weRefresh && !s.runner.refreshing && !s.changed))
  {
    RunKeeps(p, st, events);
  }

  /**
   * What a wait is: for the change alone while the timer is off or refreshing is stopped; while the peer
   * refreshes, the whole interval and the grace after it; while we do, half the interval, but never
   * less than 45 seconds, so no longer than the interval exactly when that is at least as long.
   */
  lemma WaitMeans(p: Policy, st: TimerState, refreshing: bool)
    ensures var d := Due(p, st, refreshing);
            && (d == None <==> !st.active || (st.weRefresh && !refreshing))
            && (d.Some? && !st.weRefresh ==>
                  d.value > st.expires && d.value - st.expires == if p.grace > 0 then p.grace else 5 * SECOND)
            && (d.Some? && st.weRefresh ==>
                  && d.value >= 45 * SECOND && (d.value <= st.expires <==> st.expires >= 45 * SECOND)
                  && (st.expires >= 90 * SECOND ==> 2 * d.value <= st.expires <= 2 * d.value + 1)
                  && (st.expires < 90 * SECOND ==> d.value == 45 * SECOND))
  {
  }

  /**
   * The session is given up for expired only when the peer was to refresh it and more than the interval
   * passed since the state was last set, unless a change is being signalled at that very moment.
   */
  lemma ExpiresOnlyWhenSilent(p: Policy, st: TimerState, events: seq<Event>)
    requires Run(p, st, events).runner.Sleeping? && Step(p, Run(p, st, events), WakeDue).runner.Returned?
    ensures var s := Run(p, st, events);
            && s.clock > s.sleptAt + s.runner.snapshot.expires
            && (!s.token ==> s.timer.active && !s.timer.weRefresh && s.clock > s.changedAt + s.timer.expires)
  {
    RunKeeps(p, st, events);
    hide Run;
  }

  /** Silence is given up on: slept past the interval and the grace, the peer's session is expired. */
  lemma ExpiresOnceSilent(p: Policy, st: TimerState, events: seq<Event>)
    requires var s := Run(p, st, events);
             s.runner.Sleeping? && s.runner.snapshot.active && !s.runner.snapshot.weRefresh &&
             s.clock >= s.sleptAt + s.runner.snapshot.expires + WatchdogGrace(p)
    ensures Step(p, Run(p, st, events), WakeDue).runner.Returned?
  {
    hide Run;
  }

  /** While we refresh, the wait ends in a refresh and never in an expiry, not before half the interval. */
  lemma RefreshesWhenDue(p: Policy, st: TimerState, events: seq<Event>)
    requires var s := Run(p, st, events); s.runner.Sleeping? && s.runner.snapshot.weRefresh
    ensures var s := Run(p, st, events);
            var t := Step(p, s, WakeDue);
            && (t == s || (t.runner.Refreshing? && s.runner.snapshot.active && s.runner.refreshing))
            && (t != s ==> s.clock - s.sleptAt >= 45 * SECOND && 2 * (s.clock - s.sleptAt) + 1 >= s.runner.snapshot.expires)
  {
    hide Run;
  }

  /** A new timer waits at once for what its state asks for, refreshing if we are to, and ends with its context. */
  lemma FirstWait(p: Policy, st: TimerState)
    ensures var s := Run(p, st, [Drain, Snap]);
            && s.runner == Sleeping(true, st) && s.timer == st && !s.token && !s.changed && s.sleptAt == s.clock
            && Step(p, s, WakeChanged) == s && Step(p, s, WakeDone).runner.Returned?
  {
    assert [Drain, Snap][..1] == [Drain] && [Drain][..0] == [];
    assert Run(p, st, [Drain]) == Step(p, Start(st), Drain);
  }

  /**
   * In every run a 2xx that comes while the timer is on restarts the wait: the next one is for the state
   * it set, from then on, with refreshing resumed, whether it found run asleep or in a refresh that then
   * stopped. While the timer is off a 2xx does nothing.
   */
  lemma ChangeRestartsTheWait(p: Policy, st: TimerState, events: seq<Event>, e: Event)
    requires e.OwnAnswered? || e.PeerAnswered?
    ensures var s := Run(p, st, events);
            var c := Step(p, s, e);
            var now := if e.OwnAnswered? then StateAnswered(s.timer, e.se, e.named) else StateAnswering(s.timer, e.req);
            && (s.timer.active && s.runner.Sleeping? ==>
                  var r := Step(p, Step(p, Step(p, c, WakeChanged), Drain), Snap);
                  r.runner == Sleeping(true, now) && r.timer == now && !r.token && r.changed && r.sleptAt == r.changedAt == s.clock)
            && (s.timer.active && s.runner.Refreshing? ==>
                  var r := Step(p, Step(p, Step(p, c, RefreshReturns(Stopped)), Drain), Snap);
                  r.runner == Sleeping(true, now) && r.timer == now && !r.token && r.changed && r.sleptAt == r.changedAt == s.clock)
            && (!s.timer.active ==> c == s.(minSeen := c.minSeen))
  {
    hide Run, StateAnswered, StateAnswering;
  }

  /**
   * A refresh during which nothing changes: if it goes on the next wait is as before, if it stopped run
   * waits for a change alone while we are to refresh, and if the dialog is ending run returns.
   */
  lemma RefreshRound(p: Policy, st: TimerState, events: seq<Event>, outcome: Outcome)
    requires Run(p, st, events).runner.Refreshing? && !Run(p, st, events).token
    ensures var s := Run(p, st, events);
            var r := Step(p, Step(p, Step(p, s, RefreshReturns(outcome)), Drain), Snap);
            && r.timer == s.timer && !r.token && Step(p, s, WakeDone) == s
            && (outcome == Ended <==> r.runner.Returned?)
            && (outcome == GoesOn ==> r.runner == Sleeping(s.runner.refreshing, s.timer) && r.sleptAt == s.clock)
            && (outcome == Stopped ==>
                  r.runner == Sleeping(false, s.timer) && (s.timer.weRefresh ==> Due(p, s.timer, r.runner.refreshing) == None))
  {
    hide Run;
  }

  /** What a re-INVITE of ours asks for (sections 7.1 and 7.4): none while off, else the timer with who is to refresh. */
  lemma HeadersMean(st: TimerState)
    ensures HeadersFor(st).Some? <==> st.active
    ensures st.active ==>
              var h := HeadersFor(st).value;
              && h.supportsTimer && h.se.Some? && h.se.value.refresher == (if st.weRefresh then Uac else Uas)
              && h.minSE == if st.minSE > 0 then Some(SecondsOf(st.minSE)) else None
  {
  }

  /** Our 2xx to the peer's re-INVITE (section 9 of RFC 4028): what it asks for is what is set and announced. */
  lemma AnswersWhatIsAsked(st: TimerState, req: Offer)
    requires st.active
    ensures var t := StateAnswering(st, req);
            var named := if req.se.Some? then req.se.value.refresher else Unnamed;
            && t.active && SecondsOf(t.expires) == (if req.se.Some? then req.se.value.seconds else SecondsOf(st.expires))
            && (named == Uac ==> !t.weRefresh) && (named == Uas ==> t.weRefresh)
            && (named !in {Uac, Uas} ==> t.weRefresh == (if req.supportsTimer then st.weRefresh else true))
            && (req.minSE.Some? ==> t.minSE >= req.minSE.value * SECOND) && t.minSE >= st.minSE
            && Announced(t) == Some(SessionExpires(SecondsOf(t.expires), if t.weRefresh then Uas else Uac))
  {
    if req.se.Some? {
      SecondsBack(req.se.value.seconds);
    }
  }

  /** A 2xx to our re-INVITE (section 7.2): its interval and refresher, the one we named if it names none, or no timer. */
  lemma TakesTheAnswer(st: TimerState, se: Option<SessionExpires>, named: bool)
    requires st.active
    ensures var t := StateAnswered(st, se, named);
            && (t.active <==> se.Some?) && t.minSE == st.minSE
            && (se.Some? ==>
                  && SecondsOf(t.expires) == se.value.seconds
                  && (se.value.refresher == Uac ==> t.weRefresh) && (se.value.refresher == Uas ==> !t.weRefresh)
                  && (se.value.refresher !in {Uac, Uas} ==> t.weRefresh == named))
  {
    if se.Some? {
      SecondsBack(se.value.seconds);
    }
  }

  /** Once off, the timer stays off, asks for nothing and answers nothing. */
  lemma OffStaysOff(st: TimerState, req: Offer, se: Option<SessionExpires>, named: bool)
    requires !st.active
    ensures StateAnswering(st, req) == st && StateAnswered(st, se, named) == st && HeadersFor(st) == None && Announced(st) == None
  {
  }

  /**
   * Every Session-Expires a refresh of ours carries is the larger of the interval and the largest
   * Min-SE seen so far, in whole seconds.
   */
  lemma AsksForEveryMinSE(p: Policy, st: TimerState, events: seq<Event>)
    ensures var s := Run(p, st, events);
            var h := HeadersFor(s.timer);
            h.Some? ==>
              && (forall m :: m in s.minSeen ==> SecondsOf(m) <= h.value.se.value.seconds)
              && SecondsOf(s.timer.expires) <= h.value.se.value.seconds
              && (h.value.se.value.seconds == SecondsOf(s.timer.expires)
                  || exists m :: m in s.minSeen && h.value.se.value.seconds == SecondsOf(m))
  {
    RunKeeps(p, st, events);
    var s := Run(p, st, events);
    forall m | m in s.minSeen && s.timer.active
      ensures SecondsOf(m) <= SecondsOf(Max(s.timer.minSE, s.timer.expires))
    {
      SecondsGrow(m, Max(s.timer.minSE, s.timer.expires));
    }
  }

  /**
   * answerPeer takes the peer's interval without a floor, so a short one leaves our refresh due
   * only after the session has expired.
   */
  lemma RefreshCanBeLate(p: Policy)
    ensures var req := Offer(Some(SessionExpires(10, Uas)), None, true);
            var s := Run(p, TimerState(true, DEFAULT_SESSION_EXPIRES, false, 0), [PeerAnswered(req), Drain, Snap]);
            && s.runner.Sleeping? && !s.token && s.timer.weRefresh
            && Due(p, s.timer, s.runner.refreshing) == Some(MIN_REFRESH_INTERVAL)
            && s.timer.expires == 10 * SECOND < MIN_REFRESH_INTERVAL
  {
    var req := Offer(Some(SessionExpires(10, Uas)), None, true);
    var st := TimerState(true, DEFAULT_SESSION_EXPIRES, false, 0);
    var events := [PeerAnswered(req), Drain, Snap];
    assert events[..2] == [PeerAnswered(req), Drain] && events[..2][..1] == [PeerAnswered(req)];
    assert events[..2][..1][..0] == [];
    assert Run(p, st, events[..2][..1]) == Step(p, Start(st), PeerAnswered(req));
    assert Run(p, st, events[..2]) == Step(p, Run(p, st, events[..2][..1]), Drain);
  }

  lemma SecondsGrow(a: nat, b: nat)
    requires a <= b
    ensures SecondsOf(a) <= SecondsOf(b)
  {
  }

  /** Why a wait is over, and what follows. */
  datatype Wake = Done | Changed | IsDue
  datatype Next = Return | GoRound | Refresh | Expire

  /** sessionTimer, with where its goroutine is as a field. */
  class SessionTimerLoop {
    const policy: Policy
    var state: TimerState
    var signalled: bool
    var runner: Runner
    ghost var minSeen: set<nat>
    ghost var moved: bool
    ghost var clock: int
    ghost var sleptAt: int
    ghost var changedAt: int

    ghost function Model(): State
      reads this
    {
      State(state, signalled, runner, minSeen, moved, clock, sleptAt, changedAt)
    }

    constructor (policy: Policy, state: TimerState)
      ensures this.policy == policy && Model() == Start(state) && Inv(Model())
    {
      this.policy, this.state, signalled, runner := policy, state, false, Draining(true);
      minSeen, moved, clock, sleptAt, changedAt := {state.minSE}, false, 0, 0, 0;
    }

    /** Fills the channel's one slot, without blocking when it is full. */
    method SetLocked(st: TimerState)
      modifies this
      ensures Model() == Signal(old(Model()), st)
    {
      state := st;
      if !signalled {
        signalled := true;
      }
      moved, changedAt := true, clock;
    }

    method RequestHeaders() returns (hdrs: Option<Offer>, named: bool)
      ensures hdrs == HeadersFor(state)
      ensures named == (hdrs.Some? && hdrs.value.se.value.refresher == Uac)
    {
      var st := state;
      if !st.active {
        return None, false;
      }
      var refresher := Uas;
      if st.weRefresh {
        refresher := Uac;
      }
      var minSE := None;
      if st.minSE > 0 {
        minSE := Some(SecondsOf(st.minSE));
      }
      return Some(Offer(Some(SessionExpires(SecondsOf(Max(st.minSE, st.expires)), refresher)), minSE, true)), st.weRefresh;
    }

    method Answered(se: Option<SessionExpires>, named: bool)
      requires Inv(Model())
      modifies this
      ensures Model() == Step(policy, old(Model()), OwnAnswered(se, named)) && Inv(Model())
    {
      StepKeeps(policy, Model(), OwnAnswered(se, named));
      var st := state;
      if !st.active {
        return;
      }
      if se == None {
        SetLocked(st.(active := false));
        return;
      }
      st := st.(expires := se.value.seconds * SECOND);
      match se.value.refresher {
        case Uac => st := st.(weRefresh := true);
        case Uas => st := st.(weRefresh := false);
        case _ => st := st.(weRefresh := named);
      }
      SetLocked(st);
    }

    method RaiseMinSE(minSE: nat)
      requires Inv(Model())
      modifies this
      ensures Model() == Step(policy, old(Model()), MinSERaised(minSE)) && Inv(Model())
    {
      StepKeeps(policy, Model(), MinSERaised(minSE));
      state := state.(minSE := Max(state.minSE, minSE));
      minSeen := minSeen + {minSE};
    }

    method AnswerPeer(req: Offer) returns (se: Option<SessionExpires>, requireTimer: bool)
      requires Inv(Model())
      modifies this
      ensures Model() == Step(policy, old(Model()), PeerAnswered(req)) && Inv(Model())
      ensures se == Announced(state)
      ensures requireTimer <==> se.Some? && se.value.refresher == Uac
    {
      StepKeeps(policy, Model(), PeerAnswered(req));
      minSeen := if req.minSE.Some? then minSeen + {req.minSE.value * SECOND} else minSeen;
      var st := state;
      if !st.active {
        return None, false;
      }
      var named := Unnamed;
      if req.se.Some? {
        st := st.(expires := req.se.value.seconds * SECOND);
        named := req.se.value.refresher;
      }
      if req.minSE.Some? {
        st := st.(minSE := Max(st.minSE, req.minSE.value * SECOND));
      }
      if named == Uac {
        st := st.(weRefresh := false);
      } else if named == Uas || !req.supportsTimer {
        st := st.(weRefresh := true);
      }
      var refresher := Uas;
      if !st.weRefresh {
        refresher := Uac;
      }
      se, requireTimer := Some(SessionExpires(SecondsOf(st.expires), refresher)), refresher == Uac;
      SetLocked(st);
    }

    /** The non-blocking receive run starts each turn with. */
    method DrainChanged()
      requires Inv(Model()) && runner.Draining?
      modifies this
      ensures Model() == Step(policy, old(Model()), Drain) && Inv(Model())
    {
      StepKeeps(policy, Model(), Drain);
      var refreshing := runner.refreshing;
      if signalled {
        signalled, refreshing := false, true;
      }
      runner := Snapping(refreshing);
    }

    /** The snapshot and what run then waits for; zero waits for a change or the end only. */
    method BeginWait() returns (due: nat)
      requires Inv(Model()) && runner.Snapping?
      modifies this
      ensures Model() == Step(policy, old(Model()), Snap) && Inv(Model())
      ensures due == (var d := Due(policy, state, runner.refreshing); if d.Some? then d.value else 0)
      ensures due > 0 <==> state.active && (state.weRefresh ==> runner.refreshing)
      ensures due > 0 && !state.weRefresh ==> due > state.expires
      ensures due > 0 && state.weRefresh ==> (due <= state.expires <==> state.expires >= 45 * SECOND)
    {
      StepKeeps(policy, Model(), Snap);
      var st := state;
      due := 0;
      if !st.active || (st.weRefresh && !runner.refreshing) {
      } else if st.weRefresh {
        due := RefreshCadence(st.expires);
      } else {
        due := st.expires + WatchdogGrace(policy);
      }
      runner := Sleeping(runner.refreshing, st);
      sleptAt := clock;
    }

    /** What run does once its wait is over. */
    method Woken(wake: Wake) returns (next: Next)
      requires Inv(Model()) && runner.Sleeping?
      requires wake == Changed ==> signalled
      requires wake == IsDue ==> var d := Due(policy, runner.snapshot, runner.refreshing); d.Some? && clock >= sleptAt + d.value
      modifies this
      ensures Inv(Model())
      ensures Model() == Step(policy, old(Model()), match wake case Done => WakeDone case Changed => WakeChanged case IsDue => WakeDue)
      ensures next == match wake case Done => Return case Changed => GoRound
                                 case IsDue => if old(runner).snapshot.weRefresh then Refresh else Expire
      ensures next == Expire ==> clock > sleptAt + old(runner).snapshot.expires
    {
      match wake {
        case Done =>
          StepKeeps(policy, Model(), WakeDone);
          runner := Returned;
          return Return;
        case Changed =>
          StepKeeps(policy, Model(), WakeChanged);
          signalled, runner := false, Draining(true);
          return GoRound;
        case IsDue =>
          StepKeeps(policy, Model(), WakeDue);
          if !runner.snapshot.weRefresh {
            runner := Returned;
            return Expire;
          }
          runner, moved := Refreshing(runner.refreshing), signalled;
          return Refresh;
      }
    }

    /** What run does once a refresh has returned. */
    method RefreshDone(outcome: Outcome)
      requires Inv(Model()) && runner.Refreshing?
      modifies this
      ensures Inv(Model()) && Model() == Step(policy, old(Model()), RefreshReturns(outcome))
      ensures outcome == Ended <==> runner.Returned?
      ensures outcome == Stopped ==> !runner.refreshing
    {
      StepKeeps(policy, Model(), RefreshReturns(outcome));
      match outcome {
        case GoesOn => runner := Draining(runner.refreshing);
        case Stopped => runner := Draining(false);
        case Ended => runner := Returned;
      }
    }
  }
}
