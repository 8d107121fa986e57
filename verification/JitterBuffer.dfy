/**
 * RTPJitterBuffer over its slot ring. Every method is one hold of the buffer's lock and is
 * proved to take the step JitterSpec gives on the plain map.
 */
module JitterBuffer {
  import opened Basics
  import opened Wrap16
  import opened JitterSpec
  import opened JitterRuns
  import opened JitterRing
  import opened JitterDecisions

  const DEFAULT_DELAY := 20
  const DEFAULT_MAX := 40

  /** What the upstream read came back with. */
  datatype ReadResult = Failed(error: int) | Nothing | Got(packet: Packet)

  function Normalize(delay: int, max: int): (c: Config)
    ensures c.Valid()
    ensures delay > 0 ==> c.delay == delay
    ensures max > 0 && max >= c.delay ==> c.max == max
  {
    var d := if delay <= 0 then DEFAULT_DELAY else delay;
    var m := if max <= 0 then DEFAULT_MAX else max;
    Config(d, if m < d then d else m)
  }

  lemma ResetIsQueued(s: State, ssrc: U32, number: U16, now: int)
    requires Queued(s)
    ensures Queued(Reset(s, ssrc, number, now))
  {
  }

  lemma QueuedParts(s: State, index: int)
    requires Queued(s)
    ensures s.cfg.Valid() && Windowed(s.cfg, s.queue, s.next)
    ensures Collides(s, index) <==> !Vacant(s.queue, s.cfg, index)
    ensures index in s.queue ==> Collides(s, index)
  {
    hide Config.Position;
  }

  lemma DropIsQueued(s: State, first: int)
    requires Queued(s) && s.next <= first
    ensures Queued(DropBefore(s, first))
  {
    hide Config.Position;
  }

  class RtpJitterBuffer {
    const cfg: Config
    const ring: SlotRing
    var packetDuration: int
    var clockRate: U32
    var ssrc: U32
    var ssrcSet: bool
    var expectedSeq: U16
    var startAt: Option<int>
    var releaseAt: int
    var playout: bool
    var resync: bool
    var readErr: Option<int>
    var closed: bool
    var step: Learner
    var stats: Stats

    /** The buffer as the plain map machine sees it. */
    ghost var abs: State

    /** The fields hold what `abs` says. */
    ghost predicate Matches()
      reads this
    {
      && abs.cfg == cfg && abs.duration == packetDuration && abs.clockRate == clockRate
      && expectedSeq == Wrap(abs.next) && abs.ssrcSet == ssrcSet && abs.ssrc == ssrc
      && abs.startAt == startAt && abs.releaseAt == releaseAt && abs.playout == playout && abs.resync == resync
      && abs.ended == readErr && abs.closed == closed && abs.learner == step && abs.stats == stats
    }

    ghost predicate Valid()
      reads this, ring, ring.slots, ring.sequence
    {
      ring.Valid() && ring.cfg == cfg && ring.queue == abs.queue && Queued(abs) && Matches()
    }

    constructor (packetDuration: int, delay: int, max: int, clockRate: U32)
      requires packetDuration > 0
      ensures Valid() && Inv(abs) && ring.reading == None
      ensures abs == Initial(Normalize(delay, max), packetDuration, clockRate)
      ensures fresh(ring) && fresh(ring.slots) && fresh(ring.sequence)
    {
      var c := Normalize(delay, max);
      cfg := c;
      ring := new SlotRing(c);
      this.packetDuration := packetDuration;
      this.clockRate := clockRate;
      ssrc, ssrcSet, expectedSeq := 0, false, 0;
      startAt, releaseAt, playout, resync := None, 0, false, false;
      readErr, closed := None, false;
      step := Learner(false, 0, 0, 0, 0);
      stats := Stats(0, 0, 0, 0, 0, 0, 0, 0, 0);
      abs := Initial(c, packetDuration, clockRate);
      new;
      InitialInv(c, packetDuration, clockRate);
    }

    // ---------- arrivals ----------

    method ResetStream(ssrc: U32, number: U16, now: int)
      requires Valid()
      modifies this, ring, ring.sequence
      ensures Valid() && abs == Reset(old(abs), ssrc, number, now) && ring.reading == old(ring.reading)
    {
      hide SlotRing.Valid, Queued, BufferingTime;
      ResetIsQueued(abs, ssrc, number, now);
      ring.ClearSequence();
      this.ssrc := ssrc;
      ssrcSet := true;
      expectedSeq := number;
      playout := false;
      resync := false;
      step := step.(known := false, pending := 0);
      startAt := Some(now + BufferingTime(cfg.delay, packetDuration));
      abs := Reset(abs, ssrc, number, now);
      assert ring.Valid();
      assert ring.queue == abs.queue;
      assert expectedSeq == Wrap(abs.next);
      assert Matches();
    }

    method MeasureStep(p: Packet)
      requires Valid() && clockRate != 0
      modifies `packetDuration, `step, `abs
      ensures Valid() && abs == Measure(old(abs), p)
    {
      hide SlotRing.Valid, Queued, Wrap, TimestampStep, StepDuration, Consecutive;
      SameQueue(abs, Measure(abs, p));
      if Consecutive(step, p) {
        var delta := TimestampStep(step.timestamp, p.timestamp);
        if delta > 0 && delta == step.pending {
          var d := StepDuration(delta, clockRate);
          if d <= MAX_LEARNED_DURATION {
            packetDuration := d;
          }
        }
        step := step.(pending := delta);
      }
      abs := Measure(abs, p);
    }

    method RememberNewest(p: Packet)
      requires Valid()
      modifies `step, `abs
      ensures Valid() && abs == Remember(old(abs), p)
    {
      hide SlotRing.Valid, Queued, Wrap, Distance;
      SameQueue(abs, Remember(abs, p));
      if !step.known || Distance(p.number, step.number) > 0 {
        step := step.(number := p.number, timestamp := p.timestamp, payloadType := p.payloadType, known := true);
      }
      abs := Remember(abs, p);
    }

    method LearnPacketDuration(p: Packet)
      requires Valid()
      modifies `packetDuration, `step, `abs
      ensures Valid() && abs == Learn(old(abs), p)
    {
      hide SlotRing.Valid, Queued, Wrap, Measure, Remember;
      if clockRate == 0 {
        return;
      }
      MeasureStep(p);
      RememberNewest(p);
    }

    method CountPacket()
      requires Valid()
      modifies `stats, `abs
      ensures Valid() && abs == old(abs).(stats := old(stats).(read := old(stats).read + 1))
    {
      hide SlotRing.Valid, Queued, Wrap;
      stats := stats.(read := stats.read + 1);
      SameQueue(abs, abs.(stats := stats));
      abs := abs.(stats := stats);
    }

    method CountReset()
      requires Valid()
      modifies `stats, `abs
      ensures Valid() && abs == old(abs).(stats := old(stats).(resets := old(stats).resets + 1))
    {
      hide SlotRing.Valid, Queued, Wrap;
      stats := stats.(resets := stats.resets + 1);
      SameQueue(abs, abs.(stats := stats));
      abs := abs.(stats := stats);
    }

    method CheckSource(p: Packet, now: int)
      requires Valid()
      modifies this, ring, ring.sequence
      ensures Valid() && abs == Source(old(abs), p, now) && ring.reading == old(ring.reading)
    {
      hide SlotRing.Valid, Queued, Wrap, Reset;
      CountPacket();
      if !ssrcSet || ssrc != p.ssrc {
        if ssrcSet {
          CountReset();
        }
        ResetStream(p.ssrc, p.number, now);
      }
    }

    method CheckRestart(p: Packet, now: int)
      requires Valid()
      modifies this, ring, ring.sequence
      ensures Valid() && ring.reading == old(ring.reading)
      ensures abs == if Restarts(old(abs), p) then Reset(old(abs), p.ssrc, p.number, now) else old(abs)
    {
      hide Queued, Wrap, Distance, Reset;
      var distance := Distance(p.number, expectedSeq);
      if resync && ring.queued == 0 && (distance >= cfg.max || -distance >= cfg.max) {
        ResetStream(p.ssrc, p.number, now);
      }
    }

    /** The part of handleSlot that counts the packet, checks its source and learns from it. */
    method AdmitPacket(p: Packet, now: int)
      requires Valid()
      modifies this, ring, ring.sequence
      ensures Valid() && abs == Admit(old(abs), p, now) && ring.reading == old(ring.reading)
    {
      hide SlotRing.Valid, Queued, Wrap, Reset, Source, Learn, Restarts, Distance;
      CheckSource(p, now);
      CheckRestart(p, now);
      LearnPacketDuration(p);
      ghost var a := abs.(h := abs.h.(arrivals := abs.h.arrivals + {Entry(abs.h.epoch, abs.Index(p), p)}));
      SameQueue(abs, a);
      abs := a;
    }

    /** The packet is refused: one counter moves and its slot is free again. */
    method Refuse(slotIndex: int, counted: Stats, ghost h: History)
      requires Valid() && ring.reading == Some(slotIndex)
      modifies `stats, `abs, ring
      ensures Valid() && abs == old(abs).(stats := counted, h := h) && ring.reading == None
    {
      hide SlotRing.Valid, Queued, Wrap;
      stats := counted;
      SameQueue(abs, abs.(stats := counted, h := h));
      abs := abs.(stats := counted, h := h);
      ring.FreeSlot(slotIndex);
    }

    /** dropBefore: moves the window on so that `number` is the first to play. */
    method MoveWindow(number: U16, ghost first: int)
      requires Valid() && number == Wrap(first) && abs.next <= first < abs.next + 32768
      modifies this, ring, ring.sequence
      ensures Valid() && abs == DropBefore(old(abs), first) && ring.reading == old(ring.reading)
      ensures abs.next == first
    {
      hide SlotRing.Valid, Wrap, Kept, Config.Position, Queued, Windowed, Distance;
      DistanceAhead(first, abs.next);
      DropIsQueued(abs, first);
      QueuedParts(abs, abs.next);
      var passed := Distance(number, expectedSeq);
      var dropped := ring.DropRange(expectedSeq, passed, abs.next);
      stats := stats.(dropped := stats.dropped + dropped);
      expectedSeq := number;
      abs := DropBefore(abs, first);
    }

    /** Moves the window back to a packet that arrived behind it before playout started. */
    method MoveBack(number: U16, ghost index: int)
      requires Valid() && number == Wrap(index) && index < abs.next && CanMoveBack(abs, index)
      modifies `expectedSeq, `abs
      ensures Valid() && abs == old(abs).(next := index)
    {
      hide SlotRing.Valid, Wrap, Config.Position;
      MoveBackQueued(abs, index);
      expectedSeq := number;
      abs := abs.(next := index);
    }

    method QueueSlot(slotIndex: int, position: int, ghost index: int, now: int)
      requires Valid() && ring.reading == Some(slotIndex) && 0 <= slotIndex < ring.slots.Length
      requires abs.next <= index < abs.next + cfg.Window() && ring.slots[slotIndex].number == Wrap(index)
      requires position == cfg.Position(index) && ring.sequence[position] == -1
      requires index !in abs.queue && !Collides(abs, index)
      modifies `startAt, `abs, ring, ring.sequence
      ensures Valid() && ring.reading == None
      ensures abs == Insert(old(abs), ring.slots[slotIndex], index, now)
    {
      hide RingAgrees, Partitioned, Wrap, BufferingTime, Queued, Config.Window, Config.Position, Collides;
      InsertQueued(abs, ring.slots[slotIndex], index, now);
      ghost var inserted := Insert(abs, ring.slots[slotIndex], index, now);
      ring.EnqueueSlot(slotIndex, position, index);
      assert ring.queued == 1 <==> abs.queue == map[];
      if resync && ring.queued == 1 {
        startAt := Some(now + BufferingTime(cfg.delay, packetDuration));
      }
      abs := inserted;
    }

    /** Files the packet in its slot at its ring position, unless that is taken. */
    method InsertSlot(slotIndex: int, p: Packet, ghost index: int, now: int)
      requires Valid() && ring.reading == Some(slotIndex) && 0 <= slotIndex < ring.slots.Length && ring.slots[slotIndex] == p
      requires abs.next <= index < abs.next + cfg.Window() && p.number == Wrap(index)
      modifies this, ring, ring.sequence
      ensures Valid() && abs == Insert(old(abs), p, index, now) && ring.reading == None
    {
      hide SlotRing.Valid, Wrap, Queued, Config.Window, Config.Position, Collides;
      QueuedParts(abs, index);
      var position := ring.RingPosition(p.number, index);
      var existing := ring.Existing(position, p.number, abs.next, index);
      if existing == Duplicate {
        Refuse(slotIndex, stats.(duplicate := stats.duplicate + 1), abs.h);
      } else if existing == Taken {
        Refuse(slotIndex, stats.(dropped := stats.dropped + 1), abs.h.(collisions := abs.h.collisions + 1));
      } else {
        QueueSlot(slotIndex, position, index, now);
      }
    }

    /** The part of handleSlot that decides where an admitted packet goes. */
    method PlaceSlot(slotIndex: int, p: Packet, now: int)
      requires Valid() && ring.reading == Some(slotIndex) && 0 <= slotIndex < ring.slots.Length && ring.slots[slotIndex] == p
      modifies this, ring, ring.sequence
      ensures Valid() && abs == Place(old(abs), p, old(abs).Index(p), now) && ring.reading == None
    {
      hide SlotRing.Valid, Wrap, Queued, Config.Position, Distance, Insert, DropBefore;
      ghost var index := abs.Index(p);
      IndexNumber(abs, p);
      QueuedParts(abs, index);
      var distance := Distance(p.number, expectedSeq);
      if distance < 0 {
        if playout || resync {
          Refuse(slotIndex, stats.(late := stats.late + 1), abs.h);
          return;
        }
        var ok := ring.CanMoveExpectedBack(p.number, abs.next, index);
        if !ok {
          Refuse(slotIndex, stats.(dropped := stats.dropped + 1), abs.h);
          return;
        }
        MoveBack(p.number, index);
        InsertSlot(slotIndex, p, index, now);
      } else if distance >= cfg.max {
        ghost var first := index - (cfg.delay - 1);
        var number := Behind(p.number, index);
        MoveWindow(number, first);
        InsertSlot(slotIndex, p, index, now);
      } else {
        InsertSlot(slotIndex, p, index, now);
      }
    }

    method Behind(number: U16, ghost index: int) returns (first: U16)
      requires number == Wrap(index)
      ensures first == Wrap(index - (cfg.delay - 1))
    {
      WrapShift(index, -(cfg.delay - 1));
      first := Wrap(number - (cfg.delay - 1));
    }

    /** The first hold of the lock in a turn of the read loop: it always finds a free slot. */
    method BeginRead() returns (slotIndex: int)
      requires Valid() && Inv(abs) && ring.reading == None
      modifies ring
      ensures Valid() && ring.reading == Some(slotIndex) && abs == old(abs)
      ensures old(|ring.freeSlots|) > 0
    {
      hide SlotRing.Valid, Traced, Conserved, Paced, Phased;
      slotIndex := ring.TakeSlot(abs.next);
    }

    /**
     * The second hold of the lock in a turn of the read loop: what the read into the slot
     * came back with is filed.
     */
    method FinishRead(slotIndex: int, result: ReadResult, now: int)
      requires Valid() && Inv(abs) && ring.reading == Some(slotIndex)
      modifies this, ring, ring.slots, ring.sequence
      ensures Valid() && Inv(abs) && ring.reading == None
      ensures match result
              case Failed(error) => abs == Step(old(abs), UpstreamError(error))
              case Nothing => abs == old(abs)
              case Got(p) => abs == Step(old(abs), Arrive(p, now))
    {
      hide RingAgrees, Partitioned, Queued, Traced, Conserved, Paced, Phased, Wrap, Admit, Place;
      match result {
        case Failed(error) =>
          StepKeeps(abs, UpstreamError(error));
          SameQueue(abs, Step(abs, UpstreamError(error)));
          ring.FreeSlot(slotIndex);
          readErr := Some(error);
          abs := Step(abs, UpstreamError(error));
        case Nothing =>
          ring.FreeSlot(slotIndex);
        case Got(p) =>
          StepKeeps(abs, Arrive(p, now));
          ring.StoreRead(slotIndex, p);
          AdmitPacket(p, now);
          PlaceSlot(slotIndex, p, now);
      }
    }

    // ---------- playout ----------

    /** The skip loop of startPlayout; it ends at the first number whose ring position is taken. */
    method SkipGaps()
      requires Valid()
      modifies `expectedSeq, `stats, `abs
      ensures Valid()
      ensures abs == old(abs).(next := PlayFrom(old(abs)),
                stats := old(stats).(lost := old(stats).lost + (PlayFrom(old(abs)) - old(abs).next)))
    {
      hide RingAgrees, Partitioned, Wrap, Queued, Config.Position, Vacant;
      if !resync || ring.queued == 0 {
        return;
      }
      QueuedParts(abs, abs.next);
      ghost var from, n := abs.next, abs.next;
      ghost var stop := PlayFrom(abs);
      PlayFromBefore(abs);
      hide SlotRing.Valid, PlayFrom, FirstOccupied;
      var free := ring.VacantAt(expectedSeq, n);
      while free
        invariant Valid() && from <= n <= stop
        invariant abs == old(abs).(next := n, stats := old(stats).(lost := old(stats).lost + (n - from)))
        invariant free <==> Vacant(abs.queue, cfg, n)
        decreases stop - n
      {
        SkipOne(stop);
        n := n + 1;
        free := ring.VacantAt(expectedSeq, n);
      }
    }

    method SkipOne(ghost stop: int)
      requires Valid() && abs.next < stop && forall i :: i in abs.queue ==> stop <= i
      modifies `expectedSeq, `stats, `abs
      ensures Valid()
      ensures abs == old(abs).(next := old(abs).next + 1, stats := old(stats).(lost := old(stats).lost + 1))
    {
      hide SlotRing.Valid, Config.Position, Wrap;
      var number := Following(expectedSeq, abs.next);
      stats := stats.(lost := stats.lost + 1);
      expectedSeq := number;
      abs := abs.(next := abs.next + 1, stats := stats);
    }

    method Following(number: U16, ghost index: int) returns (next: U16)
      requires number == Wrap(index)
      ensures next == Wrap(index + 1)
    {
      next := Wrap(number + 1);
    }

    method StartPlaying(now: int)
      requires Valid()
      modifies this
      ensures Valid() && abs == StartPlayout(old(abs), now)
    {
      hide SlotRing.Valid, Wrap, Config.Position, Queued, PlayFrom;
      ghost var after := StartPlayout(abs, now);
      SkipGaps();
      SameQueue(abs, after);
      startAt := None;
      resync := false;
      playout := true;
      releaseAt := now;
      abs := after;
    }

    method StopPlaying()
      requires Valid()
      modifies this
      ensures Valid() && abs == StopPlayout(old(abs))
    {
      hide SlotRing.Valid, Wrap, Queued;
      SameQueue(abs, StopPlayout(abs));
      stats := stats.(underruns := stats.underruns + 1);
      playout := false;
      resync := true;
      abs := StopPlayout(abs);
    }

    method TakeOutNext(now: int)
      requires Valid() && abs.next in abs.queue
      modifies this, ring, ring.sequence
      ensures Valid() && abs == TakeOut(old(abs), now) && ring.reading == old(ring.reading)
    {
      hide SlotRing.Valid, Wrap, Queued, Config.Position;
      QueuedParts(abs, abs.next);
      TakenOutQueued(abs, now);
      ghost var after := TakeOut(abs, now);
      var position := ring.RingPosition(expectedSeq, abs.next);
      ring.UnqueueSlot(position, abs.next);
      expectedSeq := Following(expectedSeq, abs.next);
      releaseAt := releaseAt + packetDuration;
      abs := after;
    }

    /** Plays the packet queued for expectedSeq; `parses` says whether its bytes parse again. */
    method ReleasePacket(now: int, parses: bool)
      requires Valid() && abs.next in abs.queue
      modifies this, ring, ring.sequence
      ensures Valid() && abs == Release(old(abs), now, parses) && ring.reading == old(ring.reading)
    {
      hide SlotRing.Valid, Wrap, Queued, TakeOut;
      NextNumber(abs);
      ghost var after := Release(abs, now, parses);
      var number := expectedSeq;
      TakeOutNext(now);
      SameQueue(abs, after);
      if parses {
        stats := stats.(released := stats.released + 1, last := number);
      }
      abs := after;
    }

    method LosePacket(now: int)
      requires Valid() && abs.next !in abs.queue
      modifies this
      ensures Valid() && abs == Lose(old(abs), now)
    {
      hide SlotRing.Valid, Wrap, Queued;
      LoseQueued(abs, now);
      stats := stats.(lost := stats.lost + 1);
      expectedSeq := Following(expectedSeq, abs.next);
      releaseAt := releaseAt + packetDuration;
      abs := Lose(abs, now);
    }

    /** One turn of ReadRTP's loop: one hold of the lock. */
    method Turn(now: int, room: nat, parses: bool) returns (o: Outcome)
      requires Valid() && Inv(abs)
      modifies this, ring, ring.sequence
      ensures Valid() && Inv(abs) && (abs, o) == ReadTurn(old(abs), now, room, parses)
      ensures ring.reading == old(ring.reading)
      ensures PlaysOnTime(old(abs), now, abs, o)
    {
      hide Traced, Conserved, Paced, Phased, Queued, StartPlayout, StopPlayout, Release, Lose, Wrap, PlaysOnTime;
      ReadTurnKeeps(abs, now, room, parses);
      PlayoutIsOnTime(abs, now, room, parses);
      if closed {
        return Closed;
      }
      QueuedParts(abs, abs.next);
      if !playout && ((startAt.Some? && now >= startAt.value) || ring.queued >= cfg.delay) {
        StartPlaying(now);
      }
      o := DecideNow(now, room, parses);
    }

    method DecideNow(now: int, room: nat, parses: bool) returns (o: Outcome)
      requires Valid()
      modifies this, ring, ring.sequence
      ensures Valid() && (abs, o) == Decide(old(abs), now, room, parses)
      ensures ring.reading == old(ring.reading)
    {
      hide RingAgrees, Partitioned, Queued, StopPlayout, Release, Lose, Wrap;
      QueuedParts(abs, abs.next);
      if playout && now >= releaseAt {
        var slotIndex := ring.Find(expectedSeq, abs.next, abs.next);
        if slotIndex >= 0 {
          var packet := ring.slots[slotIndex];
          if room < |packet.raw| {
            return ShortBuffer;
          }
          ReleasePacket(now, parses);
          return if parses then Released(packet) else Unparsable;
        }
        if ring.queued != 0 {
          LosePacket(now);
          return Lost;
        }
        StopPlaying();
      }
      if readErr.Some? && ring.queued == 0 {
        return UpstreamEnded(readErr.value);
      }
      o := Wait(if playout then Some(releaseAt) else startAt);
    }

    /**
     * ReadRTP until it returns or has to wait, at the times `clock` gives and with no arrival
     * in between: the map machine's turns one after another, all but the last giving a number up
     * as lost, which is fewer than MaxPackets times.
     */
    method ReadRTP(clock: nat -> int, room: nat, parses: bool) returns (o: Outcome, losses: nat)
      requires Valid() && Inv(abs)
      modifies this, ring, ring.sequence
      ensures Valid() && Inv(abs) && ring.reading == old(ring.reading)
      ensures Played(old(abs), clock, room, parses, losses, abs, o)
      ensures !o.Lost? && losses < cfg.max
      ensures o.Wait? && o.until == None ==> abs.queue == map[]
      ensures o.UpstreamEnded? ==> abs.queue == map[]
      ensures !old(abs).closed && !old(abs).playout && !PlayoutDue(old(abs), clock(0)) ==> abs == old(abs) && losses == 0
    {
      hide SlotRing.Valid, Queued, Phased, Traced, Conserved, Paced, ReadTurn, Played, Wrap, Config.Position, PlayoutDue;
      losses := 0;
      ghost var start := abs;
      QueuedParts(abs, abs.next);
      ghost var from, target := abs.next, abs.next + cfg.Window() - 1;
      PlayedFirst(abs, clock, room, parses);
      o := TurnOnce(clock(0), room, parses);
      if o.Lost? {
        SomeKey(abs.queue);
        target :| target in abs.queue;
      }
      while o.Lost?
        invariant Valid() && Inv(abs) && ring.reading == old(ring.reading)
        invariant Played(start, clock, room, parses, losses, abs, o)
        invariant o.Lost? ==> target in abs.queue && losses < abs.next - from
        invariant losses <= target - from && target - from < cfg.Window()
        invariant o.Wait? && o.until == None ==> abs.queue == map[]
        invariant o.UpstreamEnded? ==> abs.queue == map[]
        invariant !start.closed && !start.playout && !PlayoutDue(start, clock(0)) ==> !o.Lost? && abs == start && losses == 0
        decreases o.Lost?, target - abs.next
      {
        QueuedParts(abs, target);
        PlayedNext(start, clock, room, parses, losses, abs, o);
        losses := losses + 1;
        o := TurnOnce(clock(losses), room, parses);
      }
    }

    method TurnOnce(now: int, room: nat, parses: bool) returns (o: Outcome)
      requires Valid() && Inv(abs)
      modifies this, ring, ring.sequence
      ensures Valid() && Inv(abs) && ring.reading == old(ring.reading)
      ensures (abs, o) == ReadTurn(old(abs), now, room, parses)
      ensures o.Lost? ==> old(abs).queue != map[] && abs.queue == old(abs).queue && abs.next > old(abs).next
      ensures o.Wait? && o.until == None ==> abs.queue == map[]
      ensures o.UpstreamEnded? ==> abs.queue == map[]
      ensures PlaysOnTime(old(abs), now, abs, o)
    {
      hide SlotRing.Valid, Traced, Conserved, Paced, Queued, PlaysOnTime;
      o := Turn(now, room, parses);
      if o.Lost? {
        LossStep(old(abs), now, room, parses);
      }
      WaitsEmpty(old(abs), now, room, parses);
    }

    method UpdateRTPSession(duration: int, rate: U32)
      requires Valid() && Inv(abs)
      modifies this
      ensures Valid() && Inv(abs) && abs == Step(old(abs), UpdateSession(duration, rate))
    {
      hide SlotRing.Valid, Queued, Traced, Conserved, Paced, Phased, Wrap;
      ghost var after := Step(abs, UpdateSession(duration, rate));
      StepKeeps(abs, UpdateSession(duration, rate));
      SameQueue(abs, after);
      if duration > 0 {
        packetDuration := duration;
      }
      if clockRate != 0 && rate != 0 {
        clockRate := rate;
      }
      step := step.(known := false, pending := 0);
      abs := after;
    }

    method CloseBuffer()
      requires Valid() && Inv(abs)
      modifies this
      ensures Valid() && Inv(abs) && abs == Step(old(abs), Close)
    {
      hide SlotRing.Valid, Queued, Traced, Conserved, Paced, Phased, Wrap;
      StepKeeps(abs, Close);
      SameQueue(abs, Step(abs, Close));
      closed := true;
      abs := Step(abs, Close);
    }
  }

  lemma WaitsEmpty(s: State, now: int, room: nat, parses: bool)
    requires Inv(s)
    ensures var (t, o) := ReadTurn(s, now, room, parses);
            && (o.Wait? && o.until == None ==> t.queue == map[])
            && (o.UpstreamEnded? ==> t.queue == map[])
  {
    hide Queued, Traced, Conserved, Paced;
    if StartsPlayout(s, now) {
      StartKeeps(s, now);
    }
  }

  lemma TakenOutQueued(s: State, now: int)
    requires Queued(s) && s.next in s.queue
    ensures Queued(TakeOut(s, now))
  {
    hide Config.Position;
  }

  lemma NextNumber(s: State)
    requires Queued(s) && s.next in s.queue
    ensures s.queue[s.next].number == Wrap(s.next)
  {
  }

  lemma LoseQueued(s: State, now: int)
    requires Queued(s) && s.next !in s.queue
    ensures Queued(Lose(s, now))
  {
    hide Config.Position;
  }
}
