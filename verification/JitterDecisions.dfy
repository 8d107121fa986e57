/** What each decision of the jitter buffer means to its reader and its sender. */
module JitterDecisions {
  import opened Basics
  import opened Wrap16
  import opened JitterSpec
  import opened JitterRuns

  // ---------- when playout starts ----------

  /** Playout is due: `delay` packets are queued, or the buffering time is over. */
  predicate PlayoutDue(s: State, now: int) {
    |s.queue| >= s.cfg.delay || (s.startAt.Some? && now >= s.startAt.value)
  }

  /** Until then a turn changes nothing: it waits for the end of the buffering time, or reports the upstream's end. */
  lemma BuffersUntilDue(s: State, now: int, room: nat, parses: bool)
    requires Inv(s) && !s.closed && !s.playout && !PlayoutDue(s, now)
    ensures var (t, o) := ReadTurn(s, now, room, parses);
            t == s && o == if s.ended.Some? && s.queue == map[] then UpstreamEnded(s.ended.value) else Wait(s.startAt)
  {
  }

  /** Once it is due it starts at `now`, with a decision at once on the first number that is queued or waited for. */
  lemma PlaysWhenDue(s: State, now: int, room: nat, parses: bool)
    requires Inv(s) && !s.closed && !s.playout && PlayoutDue(s, now)
    ensures var (t, o) := ReadTurn(s, now, room, parses);
            && t.playout && t.h.playStart == now && s.queue != map[]
            && (o.Released? || o.Unparsable? || o.ShortBuffer? || o.Lost?)
            && (s.resync ==> !o.Lost? || Collides(s, t.next - 1))
  {
    StartKeeps(s, now);
    hide Traced, Conserved, Paced;
    if s.resync {
      PlayFromBefore(s);
    }
  }

  /**
   * What a turn at `now` may make of a stream that is not playing: nothing before playout is due, and
   * then a decision that starts it.
   */
  predicate PlaysOnTime(s: State, now: int, t: State, o: Outcome) {
    !s.closed && !s.playout ==>
      if PlayoutDue(s, now) then t.playout && t.h.playStart == now && !o.Wait? && !o.UpstreamEnded?
      else t == s && ((o.Wait? && o.until == s.startAt) || o.UpstreamEnded?)
  }

  lemma PlayoutIsOnTime(s: State, now: int, room: nat, parses: bool)
    requires Inv(s)
    ensures var (t, o) := ReadTurn(s, now, room, parses); PlaysOnTime(s, now, t, o)
  {
    hide ReadTurn, Inv, PlayoutDue;
    if !s.closed && !s.playout {
      if PlayoutDue(s, now) {
        PlaysWhenDue(s, now, room, parses);
      } else {
        BuffersUntilDue(s, now, room, parses);
      }
    }
  }

  /** `p` is the one packet queued. */
  predicate Alone(queue: map<int, Packet>, i: int, p: Packet) {
    queue == map[i := p]
  }

  /**
   * A new source, and a stopped stream with a packet that is then alone in the queue, begin to buffer
   * at that arrival, for `delay` packet durations; no other arrival moves the end of the buffering.
   */
  lemma BufferingBegins(s: State, p: Packet, now: int)
    requires Inv(s)
    ensures var t, e := File(s, p, now), FiledAs(s, p, now);
            if e.epoch != s.h.epoch then t.startAt == Some(now + s.cfg.delay * s.duration) && !t.Started()
            else if s.resync && e.index !in s.queue && Alone(t.queue, e.index, p) then
              t.startAt == Some(now + s.cfg.delay * t.duration)
            else t.startAt == s.startAt
  {
    hide File, FiledAs, Inv, Alone;
    BufferingBeginsAt(s, p, now);
  }

  lemma ValidConfig(s: State)
    requires Inv(s)
    ensures s.cfg.Valid()
  {
  }

  lemma BufferingBeginsAt(s: State, p: Packet, now: int)
    requires Inv(s)
    ensures var t, e := File(s, p, now), FiledAs(s, p, now);
            if e.epoch != s.h.epoch then t.startAt == Some(now + BufferingTime(s.cfg.delay, s.duration)) && !t.Started()
            else if s.resync && e.index !in s.queue && Alone(t.queue, e.index, p) then
              t.startAt == Some(now + BufferingTime(s.cfg.delay, t.duration))
            else t.startAt == s.startAt
  {
    hide Admit, Place, Inv, Wrap, Distance, BufferingTime, Alone, SamePlay;
    assert s.cfg.Valid() by { ValidConfig(s); }
    var a := Admit(s, p, now);
    assert FiledAs(s, p, now) == Entry(a.h.epoch, a.Index(p), p) && File(s, p, now) == Place(a, p, a.Index(p), now);
    hide File, FiledAs;
    AdmitTimes(s, p, now);
    PlaceTimes(a, p, a.Index(p), now);
  }

  /** `a` is `s` with its buffering as it was, or a stream that begins to buffer at `now`. */
  predicate Rebuffers(s: State, a: State, now: int) {
    if a.h.epoch != s.h.epoch then
      a.startAt == Some(now + BufferingTime(s.cfg.delay, s.duration)) && !a.Started() && a.queue == map[]
    else a.startAt == s.startAt && a.queue == s.queue && a.resync == s.resync && a.playout == s.playout && a.next == s.next
  }

  lemma SourceTimes(s: State, p: Packet, now: int)
    ensures var c := Source(s, p, now); Rebuffers(s, c, now) && c.duration == s.duration && c.h.epoch >= s.h.epoch
  {
    hide BufferingTime;
  }

  lemma AdmitTimes(s: State, p: Packet, now: int)
    ensures Rebuffers(s, Admit(s, p, now), now)
  {
    hide Source, Wrap, Distance, Learn, Restarts, BufferingTime;
    SourceTimes(s, p, now);
  }

  /** `t` buffers from `now` on if the stopped stream `a` has just queued `p` alone, else as `a` did. */
  predicate Rebegins(a: State, t: State, index: int, p: Packet, now: int) {
    && t.h.epoch == a.h.epoch && t.resync == a.resync && t.playout == a.playout && t.duration == a.duration
    && t.startAt == (if a.resync && index !in a.queue && Alone(t.queue, index, p)
                     then Some(now + BufferingTime(a.cfg.delay, a.duration)) else a.startAt)
  }

  lemma InsertTimes(a: State, p: Packet, index: int, now: int)
    requires a.cfg.Valid()
    ensures Rebegins(a, Insert(a, p, index, now), index, p, now)
  {
    hide Wrap, Config.Position, BufferingTime;
    if index !in a.queue && a.queue != map[] {
      SomeKey(a.queue);
      var i :| i in a.queue;
      assert i != index && i in Insert(a, p, index, now).queue;
    }
  }

  lemma PlaceTimes(a: State, p: Packet, index: int, now: int)
    requires a.cfg.Valid()
    ensures Rebegins(a, Place(a, p, index, now), index, p, now)
  {
    hide Insert, CanMoveBack, BufferingTime;
    InsertTimes(a, p, index, now);
    if index < a.next {
      InsertTimes(a.(next := index), p, index, now);
    } else if index - a.next >= a.cfg.max {
      InsertTimes(DropBefore(a, index - (a.cfg.delay - 1)), p, index, now);
    }
  }

  /** The event reads before `x`, and an arrival that begins to buffer does so until `x` or later. */
  predicate KeepsDelay(s: State, e: Event, x: int)
    requires Queued(s)
  {
    && (e.Read? ==> e.now < x)
    && (e.Arrive? ==> e.now + s.cfg.delay * s.duration >= x && e.now + s.cfg.delay * Step(s, e).duration >= x)
  }

  predicate Buffering(s: State, x: int) {
    !s.playout && (s.startAt.Some? ==> s.startAt.value >= x)
  }

  lemma StepKeepsBuffering(s: State, e: Event, x: int)
    requires Inv(s) && Buffering(s, x) && KeepsDelay(s, e, x) && |s.queue| < s.cfg.delay
    ensures Buffering(Step(s, e), x) && Step(s, e).h.releases == s.h.releases
  {
    if e.Arrive? {
      BufferingBegins(s, e.packet, e.now);
      hide File, FiledAs, Inv;
    } else if e.Read? {
      if !s.closed {
        BuffersUntilDue(s, e.now, e.room, e.parses);
      }
      hide ReadTurn, Inv;
    }
  }

  /**
   * The playout delay is kept: whatever arrives, nothing is played before `x`, the arrival that began
   * to buffer plus `delay` durations, unless `delay` packets are queued first.
   */
  lemma {:induction false} DelayIsKept(s: State, events: seq<Event>, x: int)
    requires Inv(s) && Buffering(s, x)
    requires forall i :: 0 <= i < |events| ==>
               var t := Continue(s, events[..i]); KeepsDelay(t, events[i], x) && |t.queue| < t.cfg.delay
    ensures var t := Continue(s, events); Buffering(t, x) && t.h.releases == s.h.releases
    decreases |events|
  {
    hide Queued, Traced, Conserved, Paced, Phased, Step;
    if events == [] {
    } else {
      var front := events[..|events| - 1];
      assert forall i :: 0 <= i < |front| ==> front[..i] == events[..i] && front[i] == events[i];
      DelayIsKept(s, front, x);
      StepKeepsBuffering(Continue(s, front), events[|events| - 1], x);
    }
  }

  // ---------- a turn of playout ----------

  /**
   * While playing, a turn before the release clock changes nothing. On it, the packet next to play is
   * played if it is queued and fits; an empty queue stops playout where it is; and a gap is one number
   * lost.
   */
  lemma TickDecides(s: State, now: int, room: nat, parses: bool)
    requires Inv(s) && !s.closed && s.playout
    ensures var (t, o) := ReadTurn(s, now, room, parses);
            if now < s.releaseAt then
              t == s && o == if s.ended.Some? && s.queue == map[] then UpstreamEnded(s.ended.value) else Wait(Some(s.releaseAt))
            else if s.next in s.queue then
              var p := s.queue[s.next];
              if |p.raw| > room then t == s && o == ShortBuffer
              else
                && t.queue == s.queue - {s.next} && t.next == s.next + 1 && t.releaseAt == s.releaseAt + s.duration
                && t.playout && o == (if parses then Released(p) else Unparsable)
                && t.stats == if parses then s.stats.(released := s.stats.released + 1, last := p.number) else s.stats
            else if s.queue == map[] then
              && t.queue == map[] && t.next == s.next && !t.playout && t.resync
              && t.stats == s.stats.(underruns := s.stats.underruns + 1)
              && o == if s.ended.Some? then UpstreamEnded(s.ended.value) else Wait(None)
            else
              && t.queue == s.queue && t.next == s.next + 1 && t.releaseAt == s.releaseAt + s.duration
              && t.playout && o == Lost && t.stats == s.stats.(lost := s.stats.lost + 1)
  {
    hide Traced, Conserved, Paced, Windowed, Config.Position;
  }

  /**
   * A wait lasts exactly until the next decision: without arrivals nothing happens before it ends, and
   * something does when it ends; a wait for an arrival alone goes on for ever without one.
   */
  lemma WaitsForTheNextDecision(s: State, now: int, later: int, room: nat, parses: bool)
    requires Inv(s) && now <= later
    requires ReadTurn(s, now, room, parses).1.Wait?
    ensures var (t, o) := ReadTurn(s, now, room, parses);
            && Inv(t) && t.queue == s.queue && (o.until.Some? ==> o.until.value > now)
            && (o.until == None || later < o.until.value ==> ReadTurn(t, later, room, parses) == (t, o))
            && (o.until.Some? && later >= o.until.value ==>
                  var (u, r) := ReadTurn(t, later, room, parses); r != o && (u != t || r.ShortBuffer?))
  {
    ReadTurnKeeps(s, now, room, parses);
    hide Traced, Conserved, Paced, Windowed, Config.Position, Sum;
    if StartsPlayout(s, now) {
      StartKeeps(s, now);
    }
    var t := ReadTurn(s, now, room, parses).0;
    if StartsPlayout(t, later) {
      StartKeeps(t, later);
    }
  }

  // ---------- where an arrival goes ----------

  /** A packet of a new source, or one a window or more away from a stopped empty stream, starts a stream of its own. */
  predicate StartsStream(s: State, p: Packet) {
    var d := Distance(p.number, Wrap(s.next));
    !s.ssrcSet || s.ssrc != p.ssrc || (s.resync && s.queue == map[] && (d >= s.cfg.max || -d >= s.cfg.max))
  }

  /** Then it alone is queued, next to play, whatever was queued is gone, and the stream buffers. */
  lemma NewStream(s: State, p: Packet, now: int)
    requires Inv(s) && StartsStream(s, p)
    ensures var t := File(s, p, now);
            && t.queue == map[p.number as int := p] && t.next == p.number && !t.Started()
            && t.ssrcSet && t.ssrc == p.ssrc && t.h.epoch > s.h.epoch
            && t.stats == s.stats.(read := s.stats.read + 1, resets := t.stats.resets)
            && t.stats.resets == s.stats.resets + (if s.ssrcSet && s.ssrc != p.ssrc then 1 else 0)
            && t.h.cleared == s.h.cleared + |s.queue| && t.closed == s.closed && t.ended == s.ended
  {
    AdmitNew(s, p, now);
    hide Admit, Inv;
    var a := Admit(s, p, now);
    assert !Collides(a, a.next);
  }

  lemma AdmitNew(s: State, p: Packet, now: int)
    requires Inv(s) && StartsStream(s, p)
    ensures var a := Admit(s, p, now);
            && a.queue == map[] && a.next == p.number && a.Index(p) == p.number && !a.Started()
            && a.ssrcSet && a.ssrc == p.ssrc && a.h.epoch > s.h.epoch
            && a.stats == s.stats.(read := s.stats.read + 1, resets := a.stats.resets)
            && a.stats.resets == s.stats.resets + (if s.ssrcSet && s.ssrc != p.ssrc then 1 else 0)
            && a.h.cleared == s.h.cleared + |s.queue| && a.closed == s.closed && a.ended == s.ended
  {
    ResetAtPacket(p);
    hide Measure, Remember, Wrap, Distance, Windowed, Traced, Conserved, Paced, Config.Position;
  }

  /** The packet is queued under `i`, unless that number or another at its ring position is. */
  ghost predicate Queues(cfg: Config, before: map<int, Packet>, i: int, p: Packet, counts: Stats, after: map<int, Packet>, counted: Stats)
    requires cfg.Valid()
  {
    if i in before then after == before && counted == counts.(duplicate := counts.duplicate + 1)
    else if exists k :: k in before && cfg.Position(k) == cfg.Position(i) then
      after == before && counted == counts.(dropped := counts.dropped + 1)
    else after == before[i := p] && counted == counts
  }

  /**
   * What becomes of a packet with unwrapped number `i`: behind playout it is late; ahead of the window
   * it moves the window on to end at it with the playout delay, which drops what is then stale; before
   * playout it may move the window back; and in the window it is queued.
   */
  ghost predicate Joined(cfg: Config, queue: map<int, Packet>, next: int, started: bool, counts: Stats, i: int, p: Packet, t: State)
    requires cfg.Valid()
  {
    if i < next && started then
      t.queue == queue && t.next == next && t.stats == counts.(late := counts.late + 1)
    else if i < next && exists k :: k in queue && k - i >= cfg.Window() then
      t.queue == queue && t.next == next && t.stats == counts.(dropped := counts.dropped + 1)
    else if i < next then
      t.next == i && Queues(cfg, queue, i, p, counts, t.queue, t.stats)
    else if i >= next + cfg.max then
      var first := i - (cfg.delay - 1);
      var kept := map k | k in queue && k >= first :: queue[k];
      && t.next == first && |kept| <= |queue| && i !in kept
      && Queues(cfg, kept, i, p, counts.(dropped := counts.dropped + (|queue| - |kept|)), t.queue, t.stats)
    else
      t.next == next && Queues(cfg, queue, i, p, counts, t.queue, t.stats)
  }

  /** Any other packet joins the stream under the nearest unwrapped number, or is refused and counted. */
  lemma JoinsStream(s: State, p: Packet, now: int)
    requires Inv(s) && !StartsStream(s, p)
    ensures var t := File(s, p, now);
            && t.h.epoch == s.h.epoch && t.playout == s.playout && t.resync == s.resync && t.ssrc == s.ssrc
            && Joined(s.cfg, s.queue, s.next, s.Started(), s.stats.(read := s.stats.read + 1), s.Index(p), p, t)
  {
    AdmitJoins(s, p, now);
    var a := Admit(s, p, now);
    assert a.Index(p) == s.Index(p);
    assert s.Index(p) >= s.next + s.cfg.max ==> s.Index(p) !in s.queue;
    hide Admit, Inv, Wrap, Distance, Joined, Place;
    PlaceJoins(a, p, s.Index(p), now);
  }

  lemma AdmitJoins(s: State, p: Packet, now: int)
    requires Inv(s) && !StartsStream(s, p)
    ensures var a := Admit(s, p, now);
            && a.queue == s.queue && a.next == s.next && a.cfg == s.cfg && a.stats == s.stats.(read := s.stats.read + 1)
            && a.h.epoch == s.h.epoch && a.playout == s.playout && a.resync == s.resync && a.ssrc == s.ssrc
  {
    hide Measure, Remember, Config.Position, Windowed, Traced, Conserved, Paced;
  }

  lemma InsertQueues(a: State, p: Packet, index: int, now: int)
    requires a.cfg.Valid()
    ensures var t := Insert(a, p, index, now);
            && Queues(a.cfg, a.queue, index, p, a.stats, t.queue, t.stats) && t.next == a.next
            && t.h.epoch == a.h.epoch && t.playout == a.playout && t.resync == a.resync && t.ssrc == a.ssrc
  {
    hide Config.Position;
  }

  lemma DropJoins(a: State, first: int)
    requires a.next <= first
    ensures var kept := map k | k in a.queue && k >= first :: a.queue[k];
            var t := DropBefore(a, first);
            && |kept| <= |a.queue| && t.queue == kept && t.next == first && t.cfg == a.cfg
            && t.stats == a.stats.(dropped := a.stats.dropped + (|a.queue| - |kept|))
            && t.h.epoch == a.h.epoch && t.playout == a.playout && t.resync == a.resync && t.ssrc == a.ssrc
  {
    hide SamePlay;
    KeptSize(a.queue, first);
    var kept := map k | k in a.queue && k >= first :: a.queue[k];
    assert kept == Kept(a.queue, first);
  }

  lemma MoveJoins(a: State, p: Packet, i: int, now: int)
    requires a.cfg.Valid() && i >= a.next + a.cfg.max && i !in a.queue
    ensures var t := Insert(DropBefore(a, i - (a.cfg.delay - 1)), p, i, now);
            && t.h.epoch == a.h.epoch && t.playout == a.playout && t.resync == a.resync && t.ssrc == a.ssrc
            && Joined(a.cfg, a.queue, a.next, a.Started(), a.stats, i, p, t)
  {
    hide Insert, Queues, DropBefore, SamePlay;
    var first := i - (a.cfg.delay - 1);
    DropJoins(a, first);
    InsertQueues(DropBefore(a, first), p, i, now);
  }

  lemma PlaceJoins(a: State, p: Packet, i: int, now: int)
    requires a.cfg.Valid() && (i >= a.next + a.cfg.max ==> i !in a.queue)
    ensures var t := Place(a, p, i, now);
            && t.h.epoch == a.h.epoch && t.playout == a.playout && t.resync == a.resync && t.ssrc == a.ssrc
            && Joined(a.cfg, a.queue, a.next, a.Started(), a.stats, i, p, t)
  {
    hide Insert, Queues, Wrap, DropBefore;
    if i < a.next {
      InsertQueues(a.(next := i), p, i, now);
    } else if i >= a.next + a.cfg.max {
      MoveJoins(a, p, i, now);
    } else {
      InsertQueues(a, p, i, now);
    }
  }

  /** A new buffer waits for an arrival alone, and with its first packet for `delay` durations, unless one packet is enough. */
  lemma NewBufferWaits(cfg: Config, duration: int, clockRate: U32, p: Packet, now: int, room: nat, parses: bool)
    requires cfg.Valid()
    ensures var s := Initial(cfg, duration, clockRate);
            var t := File(s, p, now);
            && ReadTurn(s, now, room, parses) == (s, Wait(None)) && Inv(t)
            && (cfg.delay > 1 && duration > 0 ==> ReadTurn(t, now, room, parses) == (t, Wait(Some(now + cfg.delay * duration))))
  {
    hide Inv, File, FiledAs, ReadTurn, SamePlay;
    var s := Initial(cfg, duration, clockRate);
    InitialInv(cfg, duration, clockRate);
    BuffersUntilDue(s, now, room, parses);
    NewStream(s, p, now);
    FileKeeps(s, p, now);
    FiledEpoch(s, p, now);
    BufferingBegins(s, p, now);
    var t := File(s, p, now);
    if cfg.delay > 1 && duration > 0 {
      assert cfg.delay * duration > 0;
      assert !PlayoutDue(t, now);
      BuffersUntilDue(t, now, room, parses);
    }
  }

  lemma FiledEpoch(s: State, p: Packet, now: int)
    requires Inv(s) && StartsStream(s, p)
    ensures FiledAs(s, p, now).epoch > s.h.epoch
  {
    AdmitNew(s, p, now);
    hide Admit, Inv;
  }

  // ---------- the packet duration learned ----------

  /** `q` comes right after `p`, of the same kind, in the middle of a talkspurt, `step` timestamp units on. */
  predicate Follows(p: Packet, q: Packet, step: nat) {
    && q.number == Wrap(p.number + 1) && q.payloadType == p.payloadType && !q.marker
    && q.timestamp == (p.timestamp + step) % 0x1_0000_0000
  }

  /** `d` is what `step` units of a clock of `rate` last, in whole nanoseconds. */
  predicate Lasts(d: int, step: nat, rate: nat) {
    d * rate <= step * 1_000_000_000 < (d + 1) * rate
  }

  lemma StepLasts(step: U32, rate: U32)
    requires rate != 0
    ensures Lasts(StepDuration(step, rate), step, rate)
  {
    var n := step * SECOND;
    var q := n / rate;
    assert n == q * rate + n % rate;
    assert (q + 1) * rate == q * rate + rate;
  }

  lemma StepBack(from: U32, step: U32)
    ensures TimestampStep(from, (from + step) % 0x1_0000_0000) == step
  {
  }

  lemma NextIsAhead(p: Packet, q: Packet)
    requires q.number == Wrap(p.number + 1)
    ensures Distance(q.number, p.number) == 1
  {
    DistanceUnique(q.number, p.number, 1);
  }

  /** A step that two pairs of packets repeat becomes the packet duration, up to 200 ms. */
  lemma LearnsARepeatedStep(s: State, p: Packet, q: Packet, r: Packet, step: U32)
    requires s.clockRate != 0 && !s.learner.known && step > 0 && Follows(p, q, step) && Follows(q, r, step)
    ensures var t := Learn(Learn(Learn(s, p), q), r);
            var d := StepDuration(step, s.clockRate);
            && Lasts(d, step, s.clockRate) && t.duration == (if d <= 200_000_000 then d else s.duration)
  {
    hide Distance, StepDuration, TimestampStep, Wrap;
    NextIsAhead(p, q);
    NextIsAhead(q, r);
    StepBack(p.timestamp, step);
    StepBack(q.timestamp, step);
    StepLasts(step, s.clockRate);
  }

  /** A new stream is measured from its first packet on, whatever came before it. */
  lemma NewStreamIsMeasuredAnew(s: State, p: Packet, now: int)
    requires Inv(s) && StartsStream(s, p)
    ensures var t := File(s, p, now);
            && t.duration == s.duration && t.learner.pending == 0
            && (s.clockRate != 0 ==> t.learner == Learner(true, p.number, p.timestamp, p.payloadType, 0))
  {
    AdmitAnew(s, p, now);
    PlaceIsNotMeasured(Admit(s, p, now), p, now);
    hide Admit, Place;
  }

  lemma AdmitAnew(s: State, p: Packet, now: int)
    requires Inv(s) && StartsStream(s, p)
    ensures var a := Admit(s, p, now);
            && a.duration == s.duration && a.learner.pending == 0
            && (s.clockRate != 0 ==> a.learner == Learner(true, p.number, p.timestamp, p.payloadType, 0))
  {
    ResetAtPacket(p);
    hide Wrap, Distance, Windowed, Traced, Conserved, Paced, Config.Position;
  }

  lemma InsertIsNotMeasured(a: State, p: Packet, index: int, now: int)
    requires a.cfg.Valid()
    ensures var t := Insert(a, p, index, now); t.duration == a.duration && t.learner == a.learner
  {
    hide Collides, SamePlay, State.StartDeadline;
  }

  lemma PlaceIsNotMeasured(a: State, p: Packet, now: int)
    requires a.cfg.Valid()
    ensures var t := Place(a, p, a.Index(p), now); t.duration == a.duration && t.learner == a.learner
  {
    hide Insert, SamePlay, CanMoveBack, Kept, State.Index;
    var i := a.Index(p);
    if i < a.next {
      InsertIsNotMeasured(a.(next := i), p, i, now);
    } else if i - a.next >= a.cfg.max {
      InsertIsNotMeasured(DropBefore(a, i - (a.cfg.delay - 1)), p, i, now);
    } else {
      InsertIsNotMeasured(a, p, i, now);
    }
  }

  /** Nothing else is learned: a duration changes only to that of a step just repeated by the pair this packet ends. */
  lemma LearnsNothingElse(s: State, p: Packet)
    requires Learn(s, p).duration != s.duration
    ensures var l := s.learner;
            && s.clockRate != 0 && l.known && l.pending > 0 && p.timestamp == (l.timestamp + l.pending) % 0x1_0000_0000
            && p.number == Wrap(l.number + 1) && p.payloadType == l.payloadType && !p.marker
            && Lasts(Learn(s, p).duration, l.pending, s.clockRate) && Learn(s, p).duration <= 200_000_000
  {
    hide Distance, StepDuration, Lasts, Wrap;
    if s.clockRate != 0 {
      StepLasts(s.learner.pending, s.clockRate);
    }
  }

  /** The newest packet is the one the next is compared with: one that is behind it is passed over. */
  lemma RemembersTheNewest(s: State, p: Packet)
    requires s.clockRate != 0
    ensures var l, m := s.learner, Learn(s, p).learner;
            && m.known
            && (if !l.known || Distance(p.number, l.number) > 0
                then (m.number, m.timestamp, m.payloadType) == (p.number, p.timestamp, p.payloadType)
                else (m.number, m.timestamp, m.payloadType) == (l.number, l.timestamp, l.payloadType))
            && m.pending == if Consecutive(l, p) then TimestampStep(l.timestamp, p.timestamp) else l.pending
  {
    hide Distance, StepDuration, TimestampStep, Wrap, Consecutive;
  }

  /**
   * A new session keeps what is queued and the playout; it paces by its own packet duration when it has
   * one, and a buffer that learns durations learns them afresh, in its clock rate.
   */
  lemma UpdateCarriesOver(s: State, duration: int, rate: U32)
    requires Queued(s)
    ensures var t := Step(s, UpdateSession(duration, rate));
            && t == s.(duration := t.duration, clockRate := t.clockRate, learner := t.learner)
            && t.duration == (if duration > 0 then duration else s.duration)
            && (t.clockRate != 0 <==> s.clockRate != 0) && (s.clockRate != 0 && rate != 0 ==> t.clockRate == rate)
            && (rate == 0 ==> t.clockRate == s.clockRate) && !t.learner.known && t.learner.pending == 0
  {
  }

  /** A closed buffer gives nothing more, whatever is queued. */
  lemma ClosedGivesNothing(s: State, now: int, room: nat, parses: bool)
    requires Queued(s)
    ensures var c := Step(s, Close); c == s.(closed := true) && ReadTurn(c, now, room, parses) == (c, Closed)
  {
  }

  /** The upstream's error is reported exactly once nothing is queued any more, and not before. */
  lemma EndIsReported(s: State, error: int, now: int, room: nat, parses: bool)
    requires Inv(s)
    ensures var e := Step(s, UpstreamError(error));
            && e.queue == s.queue
            && (ReadTurn(e, now, room, parses).1 == UpstreamEnded(error) <==> !s.closed && s.queue == map[])
            && (ReadTurn(e, now, room, parses).1.UpstreamEnded? ==> s.queue == map[])
  {
    var e := Step(s, UpstreamError(error));
    StepKeeps(s, UpstreamError(error));
    hide Traced, Conserved, Paced, Config.Position;
    if !e.closed {
      if e.playout {
        TickDecides(e, now, room, parses);
      } else if PlayoutDue(e, now) {
        PlaysWhenDue(e, now, room, parses);
      } else {
        BuffersUntilDue(e, now, room, parses);
      }
    }
    hide ReadTurn;
  }
}
