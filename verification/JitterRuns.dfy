/** What every step of the jitter buffer keeps, and what follows for whole runs. */
module JitterRuns {
  import opened Basics
  import opened Wrap16
  import opened JitterSpec

  // ---------- arrivals keep the invariant ----------

  /** A state holding a packet that is read and not placed yet. */
  predicate Admitted(s: State, p: Packet) {
    && Queued(s) && Traced(s) && Conserved(s, 1) && Paced(s)
    && s.ssrcSet
    && !(s.playout && s.resync)
    && (!s.Started() ==> s.startAt.Some? && (s.queue != map[] || s.Index(p) == s.next))
    && (s.resync ==> (s.startAt.Some? <==> s.queue != map[]))
    && (s.playout ==> s.startAt == None)
    && Entry(s.h.epoch, s.Index(p), p) in s.h.arrivals
  }

  /** Being queued depends on the window and its packets alone. */
  lemma SameQueue(s: State, t: State)
    requires Queued(s) && t.cfg == s.cfg && t.queue == s.queue && t.next == s.next
    ensures Queued(t)
  {
  }

  lemma IndexNumber(s: State, p: Packet)
    ensures Wrap(s.Index(p)) == p.number
    ensures -32768 <= s.Index(p) - s.next < 32768
  {
    WrapShift(s.next, Distance(p.number, Wrap(s.next)));
  }

  lemma ResetAtPacket(p: Packet)
    ensures Distance(p.number, Wrap(p.number)) == 0
  {
  }

  /** `s` has counted `p`, which belongs to its stream or starts it. */
  predicate Sourced(s: State, p: Packet) {
    && Queued(s) && Traced(s) && Conserved(s, 1) && Paced(s)
    && s.ssrcSet
    && !(s.playout && s.resync)
    && (!s.Started() ==> s.startAt.Some? && (s.queue != map[] || s.next == p.number))
    && (s.resync ==> (s.startAt.Some? <==> s.queue != map[]))
    && (s.playout ==> s.startAt == None)
  }

  lemma SourceKeeps(s: State, p: Packet, now: int)
    requires Inv(s)
    ensures Sourced(Source(s, p, now), p)
  {
  }

  lemma RestartKeeps(s: State, p: Packet, now: int)
    requires Sourced(s, p) && Restarts(s, p)
    ensures Sourced(Reset(s, p.ssrc, p.number, now), p)
  {
  }

  lemma LearnKeeps(s: State, p: Packet)
    requires Sourced(s, p)
    ensures var t := Learn(s, p);
            Sourced(t, p) && t.next == s.next && t.queue == s.queue && t.h == s.h && t.stats == s.stats
  {
    hide Learn, Config.Position;
  }

  lemma RecordTraced(s: State, e: Entry)
    requires Traced(s) && Wrap(e.index) == e.packet.number
    ensures Traced(s.(h := s.h.(arrivals := s.h.arrivals + {e})))
  {
    hide Wrap, Ordered;
  }

  /** Of the invariants only Traced reads the arrivals. */
  lemma RecordOthers(s: State, e: Entry)
    requires Queued(s) && Conserved(s, 1) && Paced(s)
    ensures var t := s.(h := s.h.(arrivals := s.h.arrivals + {e}));
            Queued(t) && Conserved(t, 1) && Paced(t)
  {
    hide Windowed, Config.Position, Sum;
  }

  lemma RecordKeeps(s: State, p: Packet)
    requires Sourced(s, p)
    ensures Admitted(s.(h := s.h.(arrivals := s.h.arrivals + {Entry(s.h.epoch, s.Index(p), p)})), p)
  {
    hide Queued, Traced, Conserved, Paced, Wrap, Distance;
    IndexNumber(s, p);
    RecordTraced(s, Entry(s.h.epoch, s.Index(p), p));
    RecordOthers(s, Entry(s.h.epoch, s.Index(p), p));
    ResetAtPacket(p);
  }

  lemma AdmitKeeps(s: State, p: Packet, now: int)
    requires Inv(s)
    ensures Admitted(Admit(s, p, now), p)
  {
    SourceKeeps(s, p, now);
    var c := Source(s, p, now);
    if Restarts(c, p) {
      RestartKeeps(c, p, now);
    }
    var r := if Restarts(c, p) then Reset(c, p.ssrc, p.number, now) else c;
    LearnKeeps(r, p);
    RecordKeeps(Learn(r, p), p);
  }

  lemma InsertQueued(s: State, p: Packet, index: int, now: int)
    requires Queued(s)
    requires s.next <= index < s.next + s.cfg.Window() && Wrap(index) == p.number
    ensures Queued(Insert(s, p, index, now))
  {
    hide Config.Position, Wrap;
  }

  /** A state that differs in what Traced does not read, or queues one packet that arrived more. */
  lemma TracedFrame(s: State, t: State)
    requires Traced(s) && t.next == s.next && t.Started() == s.Started()
    requires t.h.epoch == s.h.epoch && t.h.arrivals == s.h.arrivals && t.h.releases == s.h.releases
    requires forall i :: i in t.queue ==> (i in s.queue && t.queue[i] == s.queue[i]) || Entry(s.h.epoch, i, t.queue[i]) in s.h.arrivals
    ensures Traced(t)
  {
    hide Ordered, Wrap;
  }

  lemma InsertTraced(s: State, p: Packet, index: int, now: int)
    requires Queued(s) && Traced(s) && Entry(s.h.epoch, index, p) in s.h.arrivals
    ensures Traced(Insert(s, p, index, now))
  {
    hide Traced, Collides, Windowed, Config.Position;
    TracedFrame(s, Insert(s, p, index, now));
  }

  lemma InsertKeeps(s: State, p: Packet, index: int, now: int)
    requires Queued(s) && Traced(s) && Conserved(s, 1) && Paced(s) && s.ssrcSet
    requires !(s.playout && s.resync)
    requires !s.Started() ==> s.startAt.Some?
    requires s.resync && s.queue != map[] ==> s.startAt.Some?
    requires s.playout ==> s.startAt == None
    requires Entry(s.h.epoch, index, p) in s.h.arrivals
    requires s.next <= index < s.next + s.cfg.Window() && Wrap(index) == p.number
    ensures Inv(Insert(s, p, index, now))
  {
    InsertQueued(s, p, index, now);
    InsertTraced(s, p, index, now);
    hide Config.Position, Windowed, Traced, Sum, Wrap;
    if index in s.queue || Collides(s, index) {
      assert s.queue != map[];
    } else {
      assert |Insert(s, p, index, now).queue| == |s.queue| + 1;
    }
  }

  lemma DropKeeps(s: State, p: Packet, first: int)
    requires Admitted(s, p) && s.next <= first
    ensures var t := DropBefore(s, first);
            && Queued(t) && Traced(t) && Conserved(t, 1) && Paced(t)
            && t.h.arrivals == s.h.arrivals && t.h.epoch == s.h.epoch
            && (t.resync && t.queue != map[] ==> t.startAt.Some?)
  {
    KeptSize(s.queue, first);
    assert s.queue == map[] ==> Kept(s.queue, first) == map[];
  }

  lemma MoveBackKeeps(s: State, p: Packet, now: int)
    requires Admitted(s, p) && s.Index(p) < s.next && !s.Started() && CanMoveBack(s, s.Index(p))
    ensures Inv(Insert(s.(next := s.Index(p)), p, s.Index(p), now))
  {
    IndexNumber(s, p);
    var t := s.(next := s.Index(p));
    assert Queued(t) && Traced(t);
    InsertKeeps(t, p, s.Index(p), now);
  }

  /** Moving the window on to end at a packet beyond it, and queueing that packet. */
  lemma MoveOnKeeps(s: State, p: Packet, index: int, now: int)
    requires Admitted(s, p) && index == s.Index(p)
    requires s.cfg.max <= index - s.next < 32768 && Wrap(index) == p.number
    ensures Inv(Insert(DropBefore(s, index - (s.cfg.delay - 1)), p, index, now))
  {
    hide Traced, Conserved, Paced, Windowed, Wrap, Kept, Insert, Config.Position;
    var t := DropBefore(s, index - (s.cfg.delay - 1));
    DropKeeps(s, p, index - (s.cfg.delay - 1));
    assert Entry(t.h.epoch, index, p) in t.h.arrivals;
    assert t.next <= index < t.next + t.cfg.Window();
    assert t.ssrcSet && !(t.playout && t.resync) && (t.playout ==> t.startAt == None);
    assert !t.Started() ==> t.startAt.Some?;
    InsertKeeps(t, p, index, now);
  }

  lemma PlaceKeeps(s: State, p: Packet, now: int)
    requires Admitted(s, p)
    ensures Inv(Place(s, p, s.Index(p), now))
  {
    hide Queued, Traced, Conserved, Paced, Phased;
    var index := s.Index(p);
    if index < s.next {
      if !s.Started() && CanMoveBack(s, index) {
        MoveBackKeeps(s, p, now);
      } else {
        PassedOverKeeps(s, p);
      }
    } else if index - s.next >= s.cfg.max {
      IndexNumber(s, p);
      MoveOnKeeps(s, p, index, now);
    } else {
      IndexNumber(s, p);
      InsertKeeps(s, p, index, now);
    }
  }

  lemma PassedOverKeeps(s: State, p: Packet)
    requires Admitted(s, p) && s.Index(p) < s.next
    ensures Inv(s.(stats := s.stats.(late := s.stats.late + 1)))
    ensures Inv(s.(stats := s.stats.(dropped := s.stats.dropped + 1)))
  {
  }

  lemma FileKeeps(s: State, p: Packet, now: int)
    requires Inv(s)
    ensures Inv(File(s, p, now))
  {
    AdmitKeeps(s, p, now);
    PlaceKeeps(Admit(s, p, now), p, now);
  }

  // ---------- playout keeps the invariant ----------

  lemma PlayFromBefore(s: State)
    requires Queued(s)
    ensures forall i :: i in s.queue ==> PlayFrom(s) <= i
    ensures s.resync && s.queue != map[] ==>
              && PlayFrom(s) - s.next < s.cfg.Window()
              && !Vacant(s.queue, s.cfg, PlayFrom(s))
              && forall m :: s.next <= m < PlayFrom(s) ==> Vacant(s.queue, s.cfg, m)
  {
    if s.resync && s.queue != map[] {
      var n := PlayFrom(s);
      SomeKey(s.queue);
      forall i | i in s.queue
        ensures n <= i
      {
        assert !Vacant(s.queue, s.cfg, i);
      }
    }
  }

  lemma StartKeeps(s: State, now: int)
    requires Inv(s) && StartsPlayout(s, now)
    ensures Inv(StartPlayout(s, now)) && s.queue != map[]
  {
    PlayFromBefore(s);
  }

  lemma TickKeeps(s: State, now: int)
    requires Inv(s) && s.playout && now >= s.releaseAt
    ensures Paced(Tick(s, now))
  {
    hide Queued, Traced, Conserved;
    var t := Tick(s, now);
    assert t.h.pace[..|t.h.pace| - 1] == s.h.pace;
  }

  lemma ReleaseQueued(s: State, now: int, parses: bool)
    requires Queued(s) && s.next in s.queue
    ensures Queued(Release(s, now, parses))
    ensures |Release(s, now, parses).queue| == |s.queue| - 1
  {
    hide Config.Position;
    var t := Release(s, now, parses);
    assert t.queue.Keys == s.queue.Keys - {s.next};
    assert |t.queue.Keys| == |s.queue.Keys| - 1;
  }

  lemma ReleaseTraced(s: State, now: int, parses: bool)
    requires Queued(s) && Traced(s) && s.playout && s.next in s.queue
    ensures Traced(Release(s, now, parses))
  {
    hide Config.Position;
    var t := Release(s, now, parses);
    var r := t.h.releases;
    forall i, j | 0 <= i < j < |r|
      ensures Before(r[i], r[j])
    {
    }
  }

  lemma ReleaseKeeps(s: State, now: int, parses: bool)
    requires Inv(s) && s.playout && now >= s.releaseAt && s.next in s.queue
    ensures Inv(Release(s, now, parses))
  {
    hide Queued, Traced;
    TickKeeps(s, now);
    ReleaseQueued(s, now, parses);
    ReleaseTraced(s, now, parses);
  }

  lemma LoseKeeps(s: State, now: int)
    requires Inv(s) && s.playout && now >= s.releaseAt && s.next !in s.queue && s.queue != map[]
    ensures Inv(Lose(s, now))
  {
    hide Config.Position;
    TickKeeps(s, now);
  }

  lemma StopKeeps(s: State)
    requires Inv(s) && s.playout && s.queue == map[]
    ensures Inv(StopPlayout(s))
  {
    hide Config.Position;
  }

  lemma DecideKeeps(s: State, now: int, room: nat, parses: bool)
    requires Inv(s)
    ensures Inv(Decide(s, now, room, parses).0)
  {
    hide Queued, Traced, Conserved, Paced, Phased;
    if s.playout && now >= s.releaseAt {
      if s.next in s.queue {
        ReleaseKeeps(s, now, parses);
      } else if s.queue == map[] {
        StopKeeps(s);
      } else {
        LoseKeeps(s, now);
      }
    }
  }

  lemma ReadTurnKeeps(s: State, now: int, room: nat, parses: bool)
    requires Inv(s)
    ensures Inv(ReadTurn(s, now, room, parses).0)
  {
    if !s.closed {
      if StartsPlayout(s, now) {
        StartKeeps(s, now);
        DecideKeeps(StartPlayout(s, now), now, room, parses);
      } else {
        DecideKeeps(s, now, room, parses);
      }
    }
  }

  lemma OtherKeeps(s: State, e: Event)
    requires Inv(s) && !e.Arrive? && !e.Read?
    ensures Inv(Step(s, e))
  {
    hide Queued, Traced, Sum;
    SameQueue(s, Step(s, e));
    TracedFrame(s, Step(s, e));
  }

  lemma StepKeeps(s: State, e: Event)
    requires Inv(s)
    ensures Inv(Step(s, e))
  {
    hide Queued, Traced, Conserved, Paced, Phased, File, ReadTurn;
    match e
    case Arrive(p, now) => FileKeeps(s, p, now);
    case Read(now, room, parses) => ReadTurnKeeps(s, now, room, parses);
    case _ => OtherKeeps(s, e);
  }

  lemma InitialInv(cfg: Config, duration: int, clockRate: U32)
    requires cfg.Valid()
    ensures Inv(Initial(cfg, duration, clockRate)) && Initial(cfg, duration, clockRate).cfg == cfg
  {
  }

  /** The state after a run of events from a new buffer; every reachable state is one. */
  function Run(cfg: Config, duration: int, clockRate: U32, events: seq<Event>): (s: State)
    requires cfg.Valid()
    ensures Inv(s) && s.cfg == cfg
  {
    hide Queued, Traced, Conserved, Paced, Phased, Step, Initial;
    if events == [] then
      InitialInv(cfg, duration, clockRate);
      Initial(cfg, duration, clockRate)
    else
      var s := Run(cfg, duration, clockRate, events[..|events| - 1]);
      StepKeeps(s, events[|events| - 1]);
      Step(s, events[|events| - 1])
  }

  /** The state after a run of events from `s`. */
  function Continue(s: State, events: seq<Event>): (t: State)
    requires Inv(s)
    ensures Inv(t) && t.cfg == s.cfg
  {
    hide Queued, Traced, Conserved, Paced, Phased, Step;
    if events == [] then s
    else
      var t := Continue(s, events[..|events| - 1]);
      StepKeeps(t, events[|events| - 1]);
      Step(t, events[|events| - 1])
  }

  /** A run may be cut anywhere: what is proved of every run holds after every call. */
  lemma {:induction false} RunContinues(cfg: Config, duration: int, clockRate: U32, before: seq<Event>, after: seq<Event>)
    requires cfg.Valid()
    ensures Run(cfg, duration, clockRate, before + after) == Continue(Run(cfg, duration, clockRate, before), after)
    decreases |after|
  {
    hide Queued, Traced, Conserved, Paced, Phased, Step;
    if after == [] {
      assert before + after == before;
    } else {
      assert (before + after)[..|before + after| - 1] == before + after[..|after| - 1];
      RunContinues(cfg, duration, clockRate, before, after[..|after| - 1]);
    }
  }

  /** The first `n` turns of a ReadRTP at the times `clock` gives. */
  function Reads(clock: nat -> int, room: nat, parses: bool, n: nat): seq<Event> {
    seq(n, i requires 0 <= i < n => Read(clock(i), room, parses))
  }

  /** From `start`, `losses` turns gave a number up as lost and the one after them ended with `o` in `s`. */
  predicate Played(start: State, clock: nat -> int, room: nat, parses: bool, losses: nat, s: State, o: Outcome)
    requires Inv(start)
  {
    && (s, o) == ReadTurn(Continue(start, Reads(clock, room, parses, losses)), clock(losses), room, parses)
    && s == Continue(start, Reads(clock, room, parses, losses + 1))
    && forall i :: 0 <= i < losses ==>
         ReadTurn(Continue(start, Reads(clock, room, parses, i)), clock(i), room, parses).1 == Lost
  }

  lemma ContinueOne(s: State, events: seq<Event>, e: Event)
    requires Inv(s)
    ensures Queued(Continue(s, events)) && Continue(s, events + [e]) == Step(Continue(s, events), e)
  {
    hide Queued, Traced, Conserved, Paced, Phased, Step;
    assert (events + [e])[..|events|] == events;
  }

  lemma ContinueReads(s: State, clock: nat -> int, room: nat, parses: bool, n: nat)
    requires Inv(s)
    ensures Continue(s, Reads(clock, room, parses, n + 1)) ==
            ReadTurn(Continue(s, Reads(clock, room, parses, n)), clock(n), room, parses).0
  {
    hide Queued, Traced, Conserved, Paced, Phased, ReadTurn, Continue, Reads;
    ContinueOne(s, Reads(clock, room, parses, n), Read(clock(n), room, parses));
    ReadsOneMore(clock, room, parses, n);
  }

  lemma ReadsOneMore(clock: nat -> int, room: nat, parses: bool, n: nat)
    ensures Reads(clock, room, parses, n + 1) == Reads(clock, room, parses, n) + [Read(clock(n), room, parses)]
  {
  }

  lemma PlayedFirst(start: State, clock: nat -> int, room: nat, parses: bool)
    requires Inv(start)
    ensures var (s, o) := ReadTurn(start, clock(0), room, parses); Played(start, clock, room, parses, 0, s, o)
  {
    hide Queued, Traced, Conserved, Paced, Phased, ReadTurn;
    ContinueReads(start, clock, room, parses, 0);
    assert Reads(clock, room, parses, 0) == [];
  }

  lemma PlayedNext(start: State, clock: nat -> int, room: nat, parses: bool, losses: nat, s: State, o: Outcome)
    requires Inv(start) && Inv(s) && Played(start, clock, room, parses, losses, s, o) && o.Lost?
    ensures var (t, p) := ReadTurn(s, clock(losses + 1), room, parses);
            Played(start, clock, room, parses, losses + 1, t, p)
  {
    hide Queued, Traced, Conserved, Paced, Phased, ReadTurn, Continue, Reads;
    ContinueReads(start, clock, room, parses, losses + 1);
  }

  // ---------- order and contents of what is released ----------

  /** Event `n` of the run is an arrival, filed as `e`. */
  predicate ArrivedAs(cfg: Config, duration: int, clockRate: U32, events: seq<Event>, n: nat, e: Entry)
    requires cfg.Valid()
  {
    n < |events| && events[n].Arrive? &&
    FiledAs(Run(cfg, duration, clockRate, events[..n]), events[n].packet, events[n].now) == e
  }

  /** Release `k` of the run plays the packet that event `n` brought before it. */
  predicate ReleasedFrom(cfg: Config, duration: int, clockRate: U32, events: seq<Event>, n: nat, k: nat)
    requires cfg.Valid()
  {
    var r := Run(cfg, duration, clockRate, events).h.releases;
    k < |r| && ArrivedAs(cfg, duration, clockRate, events, n, r[k]) &&
    |Run(cfg, duration, clockRate, events[..n]).h.releases| <= k
  }

  ghost predicate HasArrival(cfg: Config, duration: int, clockRate: U32, events: seq<Event>, k: nat)
    requires cfg.Valid()
  {
    exists n: nat :: ReleasedFrom(cfg, duration, clockRate, events, n, k)
  }

  /**
   * Within an epoch packets are released in strictly increasing unwrapped order, so none twice.
   * Each release plays, under the epoch and number it was filed with, the packet of an arrival
   * that came before it.
   */
  lemma ReleasedInOrder(cfg: Config, duration: int, clockRate: U32, events: seq<Event>)
    requires cfg.Valid()
    ensures var r := Run(cfg, duration, clockRate, events).h.releases;
            && (forall i, j :: 0 <= i < j < |r| ==>
                  r[i].epoch < r[j].epoch || (r[i].epoch == r[j].epoch && r[i].index < r[j].index))
            && (forall k :: 0 <= k < |r| ==>
                  Wrap(r[k].index) == r[k].packet.number && HasArrival(cfg, duration, clockRate, events, k))
  {
    hide Run, HasArrival, Queued, Conserved, Paced, Phased, Wrap;
    var r := Run(cfg, duration, clockRate, events).h.releases;
    assert forall i, j :: 0 <= i < j < |r| ==> Before(r[i], r[j]);
    forall k | 0 <= k < |r|
      ensures HasArrival(cfg, duration, clockRate, events, k)
    {
      ReleaseArrived(cfg, duration, clockRate, events, k);
    }
  }

  /** No two releases play the same arrival. */
  lemma ReleasedOnce(cfg: Config, duration: int, clockRate: U32, events: seq<Event>, n: nat, i: nat, j: nat)
    requires cfg.Valid()
    requires ReleasedFrom(cfg, duration, clockRate, events, n, i) && ReleasedFrom(cfg, duration, clockRate, events, n, j)
    ensures i == j
  {
    ReleasedInOrder(cfg, duration, clockRate, events);
    hide Run, FiledAs;
  }

  lemma {:induction false} ReleaseArrived(cfg: Config, duration: int, clockRate: U32, events: seq<Event>, k: nat)
    requires cfg.Valid() && k < |Run(cfg, duration, clockRate, events).h.releases|
    ensures HasArrival(cfg, duration, clockRate, events, k)
    decreases |events|
  {
    hide Queued, Conserved, Paced, Phased, Step, FiledAs, Ordered;
    if events == [] {
    } else {
      var front := events[..|events| - 1];
      var s, t := Run(cfg, duration, clockRate, front), Run(cfg, duration, clockRate, events);
      StepReleases(s, events[|events| - 1]);
      if k < |s.h.releases| {
        ReleaseArrived(cfg, duration, clockRate, front, k);
        var n: nat :| ReleasedFrom(cfg, duration, clockRate, front, n, k);
        assert events[..n] == front[..n];
        assert ReleasedFrom(cfg, duration, clockRate, events, n, k);
      } else {
        assert t.h.releases[k] in s.h.arrivals;
        ArrivalsWereRead(cfg, duration, clockRate, front, t.h.releases[k]);
        var n: nat :| ArrivedAs(cfg, duration, clockRate, front, n, t.h.releases[k]);
        assert events[..n] == front[..n];
        ReleasesGrow(cfg, duration, clockRate, front, n);
        assert ReleasedFrom(cfg, duration, clockRate, events, n, k);
      }
    }
  }

  /** A step adds at most one release, and none when it is an arrival. */
  lemma StepReleases(s: State, e: Event)
    requires Inv(s)
    ensures var t := Step(s, e);
            && s.h.releases <= t.h.releases && |t.h.releases| <= |s.h.releases| + 1
            && (e.Arrive? ==> t.h.releases == s.h.releases)
  {
    hide File, ReadTurn, Queued, Traced, Conserved, Paced, Phased;
    if e.Read? {
      ReleaseIsLogged(s, e.now, e.room, e.parses);
    }
  }

  lemma {:induction false} ReleasesGrow(cfg: Config, duration: int, clockRate: U32, events: seq<Event>, n: nat)
    requires cfg.Valid() && n <= |events|
    ensures |Run(cfg, duration, clockRate, events[..n]).h.releases| <= |Run(cfg, duration, clockRate, events).h.releases|
    decreases |events|
  {
    hide Queued, Traced, Conserved, Paced, Phased, Step;
    if n == |events| {
      assert events[..n] == events;
    } else {
      var front := events[..|events| - 1];
      assert front[..n] == events[..n];
      ReleasesGrow(cfg, duration, clockRate, front, n);
      StepReleases(Run(cfg, duration, clockRate, front), events[|events| - 1]);
    }
  }

  lemma {:induction false} ArrivalsWereRead(cfg: Config, duration: int, clockRate: U32, events: seq<Event>, e: Entry)
    requires cfg.Valid()
    requires e in Run(cfg, duration, clockRate, events).h.arrivals
    ensures exists n: nat :: ArrivedAs(cfg, duration, clockRate, events, n, e)
    decreases |events|
  {
    hide Queued, Traced, Conserved, Paced, Phased, Step, FiledAs;
    if events == [] {
    } else {
      var front := events[..|events| - 1];
      var s := Run(cfg, duration, clockRate, front);
      if e in s.h.arrivals {
        ArrivalsWereRead(cfg, duration, clockRate, front, e);
        var n: nat :| ArrivedAs(cfg, duration, clockRate, front, n, e);
        assert events[..n] == front[..n];
        assert ArrivedAs(cfg, duration, clockRate, events, n, e);
      } else {
        assert ArrivedAs(cfg, duration, clockRate, events, |events| - 1, e);
      }
    }
  }

  /** A turn of ReadRTP returns a packet exactly when the log of releases grows by it. */
  lemma ReleaseIsLogged(s: State, now: int, room: nat, parses: bool)
    requires Inv(s)
    ensures var (t, o) := ReadTurn(s, now, room, parses);
            if o.Released? then
              |o.packet.raw| <= room && o.packet.number == Wrap(t.next - 1) &&
              t.h.releases == s.h.releases + [Entry(s.h.epoch, t.next - 1, o.packet)]
            else t.h.releases == s.h.releases
  {
    if StartsPlayout(s, now) {
      StartKeeps(s, now);
    }
  }

  // ---------- conservation ----------

  /** Every packet read is released, refused, queued or was cleared by a change of source. */
  lemma EveryPacketAccounted(cfg: Config, duration: int, clockRate: U32, events: seq<Event>)
    requires cfg.Valid()
    ensures var s := Run(cfg, duration, clockRate, events);
            && s.stats.read == s.stats.released + s.stats.late + s.stats.duplicate + s.stats.dropped +
                               |s.queue| + s.h.cleared + s.h.unparsed
            && (s.stats.resets == 0 ==> s.h.cleared == 0)
            && s.stats.released == |s.h.releases|
            && s.stats.read == ArrivalCount(events)
            && |s.queue| <= s.cfg.Window()
  {
    ReadCountsArrivals(cfg, duration, clockRate, events);
    var s := Run(cfg, duration, clockRate, events);
    IntervalSize(s.queue.Keys, s.next, s.next + s.cfg.Window());
  }

  function ArrivalCount(events: seq<Event>): nat {
    if events == [] then 0
    else ArrivalCount(events[..|events| - 1]) + if events[|events| - 1].Arrive? then 1 else 0
  }

  lemma {:induction false} ReadCountsArrivals(cfg: Config, duration: int, clockRate: U32, events: seq<Event>)
    requires cfg.Valid()
    ensures Run(cfg, duration, clockRate, events).stats.read == ArrivalCount(events)
    decreases |events|
  {
    if events == [] {
    } else {
      ReadCountsArrivals(cfg, duration, clockRate, events[..|events| - 1]);
    }
  }

  /** Since the first start in an epoch, the window advanced by what was played, lost or skipped. */
  lemma AdvanceAccounted(cfg: Config, duration: int, clockRate: U32, events: seq<Event>)
    requires cfg.Valid()
    ensures var s := Run(cfg, duration, clockRate, events);
            s.Started() ==>
              s.next - s.h.mark.next ==
              (s.stats.released - s.h.mark.released) + (s.h.unparsed - s.h.mark.unparsed) +
              (s.stats.lost - s.h.mark.lost) + (s.h.skipped - s.h.mark.skipped)
  {
  }

  // ---------- no stall ----------

  /**
   * With a packet queued, a turn never waits without a timer and never reports the end of the
   * stream: it plays, skips one number, or waits for a decision still to come.
   */
  lemma QueuedNeverStalls(s: State, now: int, room: nat, parses: bool)
    requires Inv(s) && !s.closed
    ensures var o := ReadTurn(s, now, room, parses).1;
            && (s.queue != map[] ==> o.Released? || o.Unparsable? || o.ShortBuffer? || o.Lost? ||
                                     (o.Wait? && o.until.Some? && o.until.value > now))
            && (o.Wait? && o.until == None ==> s.queue == map[] && s.ended == None)
            && (o.UpstreamEnded? ==> s.queue == map[] && s.ended == Some(o.error))
  {
    if StartsPlayout(s, now) {
      StartKeeps(s, now);
    }
  }

  /** Every turn, with no arrival between them, found its packet missing and skipped it. */
  predicate AllLost(s: State, turns: seq<Event>)
    requires Inv(s)
    decreases |turns|
  {
    turns == [] ||
    (turns[0].Read? &&
     var (t, o) := ReadTurn(s, turns[0].now, turns[0].room, turns[0].parses);
     ReadTurnKeeps(s, turns[0].now, turns[0].room, turns[0].parses);
     o.Lost? && AllLost(t, turns[1..]))
  }

  lemma {:induction false} LossBurst(s: State, turns: seq<Event>, i: int)
    requires Inv(s) && AllLost(s, turns) && i in s.queue
    ensures |turns| <= i - s.next
    decreases |turns|
  {
    if turns == [] {
    } else {
      var now, room, parses := turns[0].now, turns[0].room, turns[0].parses;
      ReadTurnKeeps(s, now, room, parses);
      LossStep(s, now, room, parses);
      hide ReadTurn, Traced, Conserved, Paced, Phased;
      LossBurst(ReadTurn(s, now, room, parses).0, turns[1..], i);
    }
  }

  lemma LossStep(s: State, now: int, room: nat, parses: bool)
    requires Inv(s) && ReadTurn(s, now, room, parses).1.Lost?
    ensures var t := ReadTurn(s, now, room, parses).0;
            s.queue != map[] && t.queue == s.queue && t.next > s.next
  {
  }

  /** Fewer than MaxPackets consecutive losses come before a packet is found. */
  lemma LossesAreBounded(s: State, turns: seq<Event>)
    requires Inv(s) && AllLost(s, turns) && turns != []
    ensures |turns| < s.cfg.Window() <= s.cfg.max
  {
    LossStep(s, turns[0].now, turns[0].room, turns[0].parses);
    SomeKey(s.queue);
    var i :| i in s.queue;
    LossBurst(s, turns, i);
  }

  /** The skip loop of a restart passes fewer than MaxPackets numbers, none of them queued. */
  lemma RestartSkips(s: State, now: int)
    requires Inv(s) && StartsPlayout(s, now)
    ensures var t := StartPlayout(s, now);
            && 0 <= t.next - s.next < s.cfg.max
            && t.stats.lost == s.stats.lost + (t.next - s.next)
            && t.queue == s.queue != map[]
            && (forall i :: i in s.queue ==> t.next <= i)
  {
    StartKeeps(s, now);
    PlayFromBefore(s);
  }

  // ---------- ring collisions ----------

  lemma SmallMultiple(m: nat, q: int)
    requires m > 0 && m * q > 0
    ensures m * q >= m
  {
  }

  lemma DistinctResidues(a: int, b: int, m: nat)
    requires m > 0 && 0 < b - a < m
    ensures a % m != b % m
  {
    assert a % m == b % m ==> b - a == m * (b / m - a / m);
    if m * (b / m - a / m) > 0 {
      SmallMultiple(m, b / m - a / m);
    }
  }

  lemma WrapDivides(x: int, m: nat)
    requires m > 0 && SPAN % m == 0
    ensures Wrap(x) % m == x % m
  {
    var k, q := SPAN / m, x / SPAN;
    assert SPAN == m * k;
    assert x == SPAN * q + Wrap(x);
    assert SPAN * q == m * (k * q);
    ModShift(Wrap(x), k * q, m);
  }

  lemma ModShift(r: int, q: int, m: nat)
    requires m > 0
    ensures (m * q + r) % m == r % m
  {
    assert m * q + r == m * (q + r / m) + r % m;
    UniqueRemainder(m * q + r, q + r / m, r % m, m);
  }

  lemma UniqueRemainder(x: int, q: int, r: int, m: nat)
    requires m > 0 && 0 <= r < m && x == m * q + r
    ensures x % m == r
  {
    var d := q - x / m;
    assert m * d == x % m - r;
    assert d > 0 ==> m * d >= m;
    assert d < 0 ==> m * d + m <= 0;
  }

  lemma NoWrapBetween(next: int, i: int, window: nat)
    requires next <= i < next + window && Wrap(next) + window <= SPAN
    ensures Wrap(i) == Wrap(next) + (i - next)
  {
  }

  /** The ring holds every window without two numbers at one position. */
  predicate RingFits(cfg: Config)
    requires cfg.Valid()
  {
    SPAN % cfg.max == 0 || cfg.max > SPAN
  }

  /** Two numbers of a window share a ring position only across the 65535-to-0 wrap. */
  lemma SharedPosition(cfg: Config, next: int, i: int, j: int)
    requires cfg.Valid() && i < j
    requires next <= i && j < next + cfg.Window()
    requires cfg.Position(i) == cfg.Position(j)
    ensures !RingFits(cfg)
    ensures Wrap(next) + cfg.Window() > SPAN
  {
    DistinctResidues(i, j, cfg.max);
    if SPAN % cfg.max == 0 {
      WrapDivides(i, cfg.max);
      WrapDivides(j, cfg.max);
    } else if cfg.max > SPAN {
      SmallResidue(Wrap(i), cfg.max);
      SmallResidue(Wrap(j), cfg.max);
      SameResidue(i, j);
    }
    if Wrap(next) + cfg.Window() <= SPAN {
      NoWrapBetween(next, i, cfg.Window());
      NoWrapBetween(next, j, cfg.Window());
      DistinctResidues(Wrap(i), Wrap(j), cfg.max);
    }
  }

  lemma SmallResidue(x: int, m: nat)
    requires 0 <= x < m
    ensures x % m == x
  {
  }

  /**
   * A packet in the window that is not a duplicate is refused for its ring position only when
   * the window straddles the wrap and MaxPackets does not divide 65536.
   */
  lemma CollisionNeedsWrap(s: State, index: int)
    requires Queued(s) && s.next <= index < s.next + s.cfg.Window()
    requires index !in s.queue && Collides(s, index)
    ensures !RingFits(s.cfg) && Wrap(s.next) + s.cfg.Window() > SPAN
  {
    var i :| i in s.queue && s.cfg.Position(i) == s.cfg.Position(index);
    if i < index {
      SharedPosition(s.cfg, s.next, i, index);
    } else {
      SharedPosition(s.cfg, s.next, index, i);
    }
  }

  /** When MaxPackets divides 65536, or exceeds it, no run ever meets a collision. */
  lemma {:induction false} NoCollisions(cfg: Config, duration: int, clockRate: U32, events: seq<Event>)
    requires cfg.Valid() && RingFits(cfg)
    ensures Run(cfg, duration, clockRate, events).h.collisions == 0
    decreases |events|
  {
    if events == [] {
    } else {
      var front, e := events[..|events| - 1], events[|events| - 1];
      hide Queued, Traced, Conserved, Paced, Phased, File;
      NoCollisions(cfg, duration, clockRate, front);
      var s := Run(cfg, duration, clockRate, front);
      if e.Arrive? {
        FileNoCollision(s, e.packet, e.now);
      }
    }
  }

  /** With any other MaxPackets, two packets around the wrap collide and the second is dropped. */
  lemma CollisionHappens(cfg: Config, duration: int, clockRate: U32, a: Packet, b: Packet, now: int)
    requires cfg.Valid() && !RingFits(cfg)
    requires a.number == 65535 && b.number == SPAN % cfg.max - 1 && a.ssrc == b.ssrc
    ensures Run(cfg, duration, clockRate, [Arrive(a, now), Arrive(b, now)]).h.collisions == 1
  {
    hide Queued, Traced, Conserved, Paced, Phased, File, Config.Position, Config.Window;
    var one, two := [Arrive(a, now)], [Arrive(a, now), Arrive(b, now)];
    var s0 := Run(cfg, duration, clockRate, []);
    var s1 := Run(cfg, duration, clockRate, one);
    assert one[..0] == [] && two[..1] == one;
    assert s1 == File(s0, a, now);
    FirstPacket(s0, a, now);
    StraddlingPositions(cfg);
    SecondCollides(s1, a, b, SPAN % cfg.max, now);
  }

  lemma FirstPacket(s: State, a: Packet, now: int)
    requires s.cfg.Valid() && s.queue == map[] && !s.ssrcSet && !s.resync && !s.playout && a.number == 65535
    ensures var t := File(s, a, now);
            && t.queue == map[65535 := a] && t.next == 65535 && t.ssrcSet && t.ssrc == a.ssrc
            && !t.resync && t.h.collisions == s.h.collisions
  {
    ResetAtPacket(a);
    var t := Admit(s, a, now);
    assert t.queue == map[] && t.next == 65535 && t.Index(a) == 65535;
    assert !Collides(t, 65535);
  }

  lemma SecondCollides(s: State, a: Packet, b: Packet, r: int, now: int)
    requires s.cfg.Valid() && s.queue == map[65535 := a] && s.next == 65535
    requires s.ssrcSet && s.ssrc == b.ssrc && !s.resync
    requires b.number == r - 1 && 0 < r < s.cfg.Window()
    requires s.cfg.Position(65535) == s.cfg.Position(65535 + r)
    ensures File(s, b, now).h.collisions == s.h.collisions + 1
  {
    hide Config.Position;
    var t := Admit(s, b, now);
    DistanceUnique(b.number, s.next, r);
    assert t.queue == s.queue && t.next == s.next && t.Index(b) == 65535 + r;
    assert 65535 + r !in t.queue && 65535 in t.queue;
    assert Collides(t, 65535 + r);
  }

  lemma StraddlingPositions(cfg: Config)
    requires cfg.Valid() && !RingFits(cfg)
    ensures 0 < SPAN % cfg.max < cfg.Window()
    ensures cfg.Position(65535) == cfg.Position(65535 + SPAN % cfg.max)
  {
    var r, q := SPAN % cfg.max, SPAN / cfg.max;
    assert SPAN == cfg.max * q + r;
    assert 65535 == cfg.max * q + (r - 1);
    UniqueRemainder(65535, q, r - 1, cfg.max);
    assert Wrap(65535 + r) == r - 1;
    SmallResidue(r - 1, cfg.max);
    if cfg.max > 32768 {
      assert q == 1;
    }
  }

  lemma InsertNoCollision(s: State, p: Packet, index: int, now: int)
    requires Queued(s) && s.next <= index < s.next + s.cfg.Window()
    requires RingFits(s.cfg)
    ensures Insert(s, p, index, now).h.collisions == s.h.collisions
  {
    if index !in s.queue && Collides(s, index) {
      CollisionNeedsWrap(s, index);
    }
  }

  lemma FileNoCollision(s: State, p: Packet, now: int)
    requires Inv(s) && RingFits(s.cfg)
    ensures File(s, p, now).h.collisions == s.h.collisions
  {
    hide Queued, Traced, Conserved, Paced, Phased, Admit;
    AdmitKeeps(s, p, now);
    PlaceNoCollision(Admit(s, p, now), p, Admit(s, p, now).Index(p), now);
  }

  lemma MoveBackQueued(s: State, index: int)
    requires Queued(s) && index < s.next && CanMoveBack(s, index)
    ensures Queued(s.(next := index))
  {
    hide Config.Position, Wrap;
  }

  lemma PlaceNoCollision(a: State, p: Packet, index: int, now: int)
    requires Admitted(a, p) && RingFits(a.cfg) && index == a.Index(p)
    ensures Place(a, p, index, now).h.collisions == a.h.collisions
  {
    IndexNumber(a, p);
    hide Traced, Conserved, Paced, Windowed, Wrap, Distance, Config.Position, Insert, DropBefore;
    if index < a.next {
      if !a.Started() && CanMoveBack(a, index) {
        MoveBackQueued(a, index);
        InsertNoCollision(a.(next := index), p, index, now);
      }
    } else if index - a.next >= a.cfg.max {
      MoveOnNoCollision(a, p, index, now);
    } else {
      InsertNoCollision(a, p, index, now);
    }
  }

  lemma MoveOnNoCollision(a: State, p: Packet, index: int, now: int)
    requires Admitted(a, p) && RingFits(a.cfg)
    requires a.cfg.max <= index - a.next < 32768
    ensures Insert(DropBefore(a, index - (a.cfg.delay - 1)), p, index, now).h.collisions == a.h.collisions
  {
    hide Traced, Conserved, Paced, Windowed, Wrap, Config.Position, Kept;
    var first := index - (a.cfg.delay - 1);
    DropKeeps(a, p, first);
    var t := DropBefore(a, first);
    assert t.next <= index < t.next + t.cfg.Window();
    InsertNoCollision(t, p, index, now);
  }

  // ---------- pacing ----------

  lemma {:induction false} ConstantSum(a: seq<int>, d: int)
    requires forall i :: 0 <= i < |a| ==> a[i] == d
    ensures Sum(a) == |a| * d
  {
    if a == [] {
    } else {
      ConstantSum(a[..|a| - 1], d);
    }
  }

  /**
   * Paced by a constant duration, the release clock stands at the start plus one duration per
   * decision however late they ran, and by `t` no more packets were played than it allows.
   */
  lemma PlayoutKeepsPace(cfg: Config, duration: int, clockRate: U32, events: seq<Event>, d: int, t: int)
    requires cfg.Valid() && d > 0
    requires var s := Run(cfg, duration, clockRate, events);
             s.playout && (forall i :: 0 <= i < |s.h.pace| ==> s.h.pace[i] == d) &&
             (s.h.pace != [] ==> s.h.decidedAt <= t) && s.h.playStart <= t
    ensures var s := Run(cfg, duration, clockRate, events);
            && s.releaseAt == s.h.playStart + |s.h.pace| * d
            && s.h.played <= |s.h.pace| <= (t - s.h.playStart) / d + 1
  {
    hide Queued, Traced, Conserved, Phased, Run;
    PaceBound(Run(cfg, duration, clockRate, events), d, t);
  }

  /** What a run keeps whose packet duration is and stays `d` and whose reads come no later than `t`. */
  predicate Steady(s: State, d: int, t: int) {
    && s.duration == d && s.clockRate == 0
    && (forall i :: 0 <= i < |s.h.pace| ==> s.h.pace[i] == d)
    && (s.playout ==> s.h.playStart <= t && (s.h.pace != [] ==> s.h.decidedAt <= t))
  }

  /** The event reads no later than `t` and negotiates no other packet duration than `d`. */
  predicate KeepsSteady(e: Event, d: int, t: int) {
    (e.Read? ==> e.now <= t) && (e.UpdateSession? && e.duration > 0 ==> e.duration == d)
  }

  lemma SteadyArrival(s: State, p: Packet, now: int, d: int, t: int)
    requires Steady(s, d, t) && s.cfg.Valid()
    ensures Steady(File(s, p, now), d, t)
  {
    hide File;
  }

  lemma SteadyTick(s: State, now: int, d: int, t: int)
    requires Steady(s, d, t) && s.playout && now <= t
    ensures Steady(Tick(s, now), d, t)
  {
  }

  lemma SteadyRelease(s: State, now: int, parses: bool, d: int, t: int)
    requires Steady(s, d, t) && s.playout && now <= t && s.next in s.queue
    ensures Steady(Release(s, now, parses), d, t)
  {
    hide Tick;
    SteadyTick(s, now, d, t);
  }

  lemma SteadyLose(s: State, now: int, d: int, t: int)
    requires Steady(s, d, t) && s.playout && now <= t
    ensures Steady(Lose(s, now), d, t)
  {
    hide Tick;
    SteadyTick(s, now, d, t);
  }

  lemma SteadyStop(s: State, d: int, t: int)
    requires Steady(s, d, t)
    ensures Steady(StopPlayout(s), d, t)
  {
  }

  lemma SteadyDecide(s: State, now: int, room: nat, parses: bool, d: int, t: int)
    requires Steady(s, d, t) && now <= t
    ensures Steady(Decide(s, now, room, parses).0, d, t)
  {
    hide Idle, Tick, Steady, Release, Lose, StopPlayout;
    SteadyStop(s, d, t);
    if s.playout {
      SteadyLose(s, now, d, t);
      if s.next in s.queue {
        SteadyRelease(s, now, parses, d, t);
      }
    }
  }

  lemma SteadyStart(s: State, now: int, d: int, t: int)
    requires Queued(s) && Steady(s, d, t) && now <= t
    ensures Steady(StartPlayout(s, now), d, t)
  {
    hide PlayFrom;
  }

  lemma SteadyStep(s: State, e: Event, d: int, t: int)
    requires Queued(s) && Steady(s, d, t) && KeepsSteady(e, d, t)
    ensures Steady(Step(s, e), d, t)
  {
    assert s.cfg.Valid();
    hide Queued, File, Decide, StartPlayout, StartsPlayout;
    if e.Arrive? {
      SteadyArrival(s, e.packet, e.now, d, t);
    } else if e.Read? {
      SteadyStart(s, e.now, d, t);
      SteadyDecide(s, e.now, e.room, e.parses, d, t);
      SteadyDecide(StartPlayout(s, e.now), e.now, e.room, e.parses, d, t);
    }
  }

  lemma {:induction false} StaysSteady(cfg: Config, d: int, events: seq<Event>, t: int)
    requires cfg.Valid() && forall i :: 0 <= i < |events| ==> KeepsSteady(events[i], d, t)
    ensures Steady(Run(cfg, d, 0, events), d, t)
    decreases |events|
  {
    hide Queued, Traced, Conserved, Paced, Phased, Step;
    if events == [] {
    } else {
      StaysSteady(cfg, d, events[..|events| - 1], t);
      SteadyStep(Run(cfg, d, 0, events[..|events| - 1]), events[|events| - 1], d, t);
    }
  }

  /**
   * A buffer set up with packet duration `d`, not learning durations and negotiated to no other,
   * plays at most one packet per `d` since playout started, and its clock never drifts.
   */
  lemma SteadyPlayout(cfg: Config, d: int, events: seq<Event>, t: int)
    requires cfg.Valid() && d > 0
    requires forall i :: 0 <= i < |events| ==> KeepsSteady(events[i], d, t)
    ensures var s := Run(cfg, d, 0, events);
            s.playout ==>
              && s.releaseAt == s.h.playStart + |s.h.pace| * d
              && s.h.played <= |s.h.pace| <= (t - s.h.playStart) / d + 1
  {
    hide Queued, Traced, Conserved, Phased, Run;
    StaysSteady(cfg, d, events, t);
    if Run(cfg, d, 0, events).playout {
      PaceBound(Run(cfg, d, 0, events), d, t);
    }
  }

  lemma PaceBound(s: State, d: int, t: int)
    requires Paced(s) && s.playout && d > 0
    requires forall i :: 0 <= i < |s.h.pace| ==> s.h.pace[i] == d
    requires s.h.playStart <= t && (s.h.pace != [] ==> s.h.decidedAt <= t)
    ensures s.releaseAt == s.h.playStart + |s.h.pace| * d
    ensures s.h.played <= |s.h.pace| <= (t - s.h.playStart) / d + 1
  {
    ConstantSum(s.h.pace, d);
    if s.h.pace != [] {
      var front := s.h.pace[..|s.h.pace| - 1];
      ConstantSum(front, d);
      QuotientBound(|front|, d, t - s.h.playStart);
    } else {
      QuotientBound(0, d, t - s.h.playStart);
    }
  }

  lemma QuotientBound(k: nat, d: int, x: int)
    requires d > 0 && k * d <= x
    ensures k <= x / d
  {
    var q := x / d;
    assert x < d * (q + 1);
    assert q < k ==> d * (q + 1) <= d * k;
  }
}
