/**
 * The RTP jitter buffer (media/rtp_jitter_buffer.go) as a machine over a plain map from
 * unwrapped sequence number to packet. JitterBuffer.RtpJitterBuffer, which holds the slots,
 * free list and ring of the source, is proved to take the same steps.
 */
module JitterSpec {
  import opened Basics
  import opened Wrap16

  const SECOND := 1_000_000_000
  const MAX_LEARNED_DURATION := 200_000_000

  type U32 = x: int | 0 <= x < 0x1_0000_0000

  datatype Packet = Packet(ssrc: U32, number: U16, timestamp: U32, payloadType: Byte, marker: bool, raw: seq<Byte>)

  /** Playout delay and window, both in packets. */
  datatype Config = Config(delay: nat, max: nat) {
    predicate Valid() {
      1 <= delay <= max
    }

    /** A packet is accepted at most this far ahead: signed 16-bit distances reach no further. */
    function Window(): nat {
      if max < 32768 then max else 32768
    }

    /** The ring position of an unwrapped sequence number. */
    function Position(index: int): (p: int)
      requires Valid()
      ensures 0 <= p < max
    {
      Wrap(index) % max
    }
  }

  /** How long a stream buffers before it plays what it has. */
  function BufferingTime(delay: nat, duration: int): int {
    delay * duration
  }

  datatype Stats = Stats(read: nat, released: nat, lost: nat, late: nat, duplicate: nat, dropped: nat,
                         resets: nat, underruns: nat, last: U16)

  /** What learnPacketDuration remembers of the newest packet. */
  datatype Learner = Learner(known: bool, number: U16, timestamp: U32, payloadType: Byte, pending: U32)

  /** One packet filed under an unwrapped number of a stream epoch, the time between two resets. */
  datatype Entry = Entry(epoch: nat, index: int, packet: Packet)

  /** Counters at the first start of playout in an epoch. */
  datatype Mark = Mark(next: int, released: nat, lost: nat, unparsed: nat, skipped: nat)

  /** What happened so far; no decision reads it. */
  datatype History = History(
    epoch: nat, arrivals: set<Entry>, releases: seq<Entry>,
    cleared: nat, unparsed: nat, skipped: nat, collisions: nat, mark: Mark,
    playStart: int, pace: seq<int>, played: nat, decidedAt: int)

  datatype State = State(
    cfg: Config, duration: int, clockRate: U32,
    queue: map<int, Packet>, next: int,
    ssrcSet: bool, ssrc: U32,
    startAt: Option<int>, releaseAt: int, playout: bool, resync: bool,
    ended: Option<int>, closed: bool, learner: Learner, stats: Stats, h: History)
  {
    predicate Started() {
      playout || resync
    }

    /** The sequence number of `packet` unwrapped to the nearest one to the next to play. */
    function Index(packet: Packet): int {
      next + Distance(packet.number, Wrap(next))
    }

    function StartDeadline(now: int): Option<int> {
      Some(now + BufferingTime(cfg.delay, duration))
    }
  }

  datatype Outcome =
    | Closed
    | Released(packet: Packet)
    | Unparsable
    | ShortBuffer
    | Lost
    | UpstreamEnded(error: int)
    | Wait(until: Option<int>)

  datatype Event =
    | Arrive(packet: Packet, now: int)
    | UpstreamError(error: int)
    | Read(now: int, room: nat, parses: bool)
    | UpdateSession(duration: int, clockRate: U32)
    | Close

  function Initial(cfg: Config, duration: int, clockRate: U32): State {
    State(cfg, duration, clockRate, map[], 0, false, 0, None, 0, false, false, None, false,
          Learner(false, 0, 0, 0, 0), Stats(0, 0, 0, 0, 0, 0, 0, 0, 0),
          History(0, {}, [], 0, 0, 0, 0, Mark(0, 0, 0, 0, 0), 0, [], 0, 0))
  }

  /** An arrival plays nothing, starts no playout and, unless durations are learned, changes no pace. */
  predicate SamePlay(s: State, t: State) {
    && t.h.releases == s.h.releases && t.h.pace == s.h.pace && t.h.played == s.h.played
    && t.h.playStart == s.h.playStart && t.h.decidedAt == s.h.decidedAt && (t.playout ==> s.playout)
    && t.clockRate == s.clockRate && (s.clockRate == 0 ==> t.duration == s.duration)
  }

  // ---------- arrivals ----------

  function Reset(s: State, ssrc: U32, number: U16, now: int): (t: State)
    ensures t.cfg == s.cfg && t.stats.read == s.stats.read && t.h.arrivals == s.h.arrivals
    ensures t.h.collisions == s.h.collisions
    ensures SamePlay(s, t)
  {
    s.(queue := map[], next := number, ssrc := ssrc, ssrcSet := true,
       startAt := s.StartDeadline(now), playout := false, resync := false,
       learner := s.learner.(known := false, pending := 0),
       h := s.h.(epoch := s.h.epoch + 1, cleared := s.h.cleared + |s.queue|))
  }

  function TimestampStep(from: U32, to: U32): U32 {
    (to - from) % 0x1_0000_0000
  }

  function StepDuration(step: U32, clockRate: U32): int
    requires clockRate != 0
  {
    step * SECOND / clockRate
  }

  /** Two packets in a row of the same kind, the second not starting a talkspurt. */
  predicate Consecutive(l: Learner, p: Packet) {
    l.known && p.number == Wrap(l.number + 1) && p.payloadType == l.payloadType && !p.marker
  }

  /** A timestamp step repeated by the next pair becomes the packet duration. */
  function Measure(s: State, p: Packet): (t: State)
    requires s.clockRate != 0
    ensures t == s.(duration := t.duration, learner := t.learner)
  {
    var step := TimestampStep(s.learner.timestamp, p.timestamp);
    if !Consecutive(s.learner, p) then s
    else if step > 0 && step == s.learner.pending && StepDuration(step, s.clockRate) <= MAX_LEARNED_DURATION then
      s.(duration := StepDuration(step, s.clockRate), learner := s.learner.(pending := step))
    else
      s.(learner := s.learner.(pending := step))
  }

  function Remember(s: State, p: Packet): (t: State)
    ensures t == s.(learner := t.learner)
  {
    var l := s.learner;
    if !l.known || Distance(p.number, l.number) > 0 then
      s.(learner := Learner(true, p.number, p.timestamp, p.payloadType, l.pending))
    else s
  }

  function Learn(s: State, p: Packet): (t: State)
    ensures t == s.(duration := t.duration, learner := t.learner)
    ensures s.clockRate == 0 ==> t == s
  {
    hide Consecutive, StepDuration, TimestampStep, Distance;
    if s.clockRate == 0 then s else Remember(Measure(s, p), p)
  }

  /** Counts the packet and starts the stream again for a new source. */
  function Source(s: State, p: Packet, now: int): (t: State)
    ensures t.cfg == s.cfg && t.stats.read == s.stats.read + 1 && t.h.arrivals == s.h.arrivals
    ensures t.h.collisions == s.h.collisions
    ensures SamePlay(s, t)
  {
    var c := s.(stats := s.stats.(read := s.stats.read + 1));
    if s.ssrcSet && s.ssrc == p.ssrc then c
    else if s.ssrcSet then Reset(c.(stats := c.stats.(resets := c.stats.resets + 1)), p.ssrc, p.number, now)
    else Reset(c, p.ssrc, p.number, now)
  }

  /** Stopped with nothing queued, a packet a window or more away restarts the stream. */
  predicate Restarts(s: State, p: Packet) {
    var d := Distance(p.number, Wrap(s.next));
    s.resync && s.queue == map[] && (d >= s.cfg.max || -d >= s.cfg.max)
  }

  function Admit(s: State, p: Packet, now: int): (t: State)
    ensures t.cfg == s.cfg && t.stats.read == s.stats.read + 1
    ensures t.h.collisions == s.h.collisions
    ensures t.h.arrivals == s.h.arrivals + {Entry(t.h.epoch, t.Index(p), p)}
    ensures SamePlay(s, t)
  {
    var c := Source(s, p, now);
    var r := if Restarts(c, p) then Reset(c, p.ssrc, p.number, now) else c;
    var l := Learn(r, p);
    l.(h := l.h.(arrivals := l.h.arrivals + {Entry(l.h.epoch, l.Index(p), p)}))
  }

  predicate CanMoveBack(s: State, index: int) {
    forall i :: i in s.queue ==> i - index < s.cfg.Window()
  }

  function Kept(queue: map<int, Packet>, first: int): map<int, Packet> {
    map i | i in queue && first <= i :: queue[i]
  }

  function DropBefore(s: State, first: int): (t: State)
    requires s.next <= first
    ensures t.cfg == s.cfg && t.stats.read == s.stats.read && t.h.arrivals == s.h.arrivals
    ensures t.h.collisions == s.h.collisions
    ensures SamePlay(s, t)
  {
    KeptSize(s.queue, first);
    s.(queue := Kept(s.queue, first), next := first,
       stats := s.stats.(dropped := s.stats.dropped + (|s.queue| - |Kept(s.queue, first)|)),
       h := s.h.(skipped := s.h.skipped + (first - s.next)))
  }

  lemma KeptSize(queue: map<int, Packet>, first: int)
    ensures |Kept(queue, first)| <= |queue|
  {
    SubsetSize(Kept(queue, first).Keys, queue.Keys);
  }

  /** Another queued packet holds the ring position of `index`. */
  predicate Collides(s: State, index: int)
    requires s.cfg.Valid()
  {
    exists i :: i in s.queue && s.cfg.Position(i) == s.cfg.Position(index)
  }

  function Insert(s: State, p: Packet, index: int, now: int): (t: State)
    requires s.cfg.Valid()
    ensures t.cfg == s.cfg && t.stats.read == s.stats.read && t.h.arrivals == s.h.arrivals
    ensures SamePlay(s, t)
  {
    if index in s.queue then
      s.(stats := s.stats.(duplicate := s.stats.duplicate + 1))
    else if Collides(s, index) then
      s.(stats := s.stats.(dropped := s.stats.dropped + 1),
         h := s.h.(collisions := s.h.collisions + 1))
    else
      s.(queue := s.queue[index := p],
         startAt := if s.resync && s.queue == map[] then s.StartDeadline(now) else s.startAt)
  }

  function Place(s: State, p: Packet, index: int, now: int): (t: State)
    requires s.cfg.Valid()
    ensures t.cfg == s.cfg && t.stats.read == s.stats.read && t.h.arrivals == s.h.arrivals
    ensures SamePlay(s, t)
  {
    if index < s.next then
      if s.Started() then
        s.(stats := s.stats.(late := s.stats.late + 1))
      else if !CanMoveBack(s, index) then
        s.(stats := s.stats.(dropped := s.stats.dropped + 1))
      else
        Insert(s.(next := index), p, index, now)
    else if index - s.next >= s.cfg.max then
      Insert(DropBefore(s, index - (s.cfg.delay - 1)), p, index, now)
    else
      Insert(s, p, index, now)
  }

  /** The epoch and unwrapped number an arrival is filed under. */
  function FiledAs(s: State, p: Packet, now: int): Entry {
    var a := Admit(s, p, now);
    Entry(a.h.epoch, a.Index(p), p)
  }

  function File(s: State, p: Packet, now: int): (t: State)
    requires s.cfg.Valid()
    ensures t.cfg == s.cfg && t.stats.read == s.stats.read + 1
    ensures t.h.arrivals == s.h.arrivals + {FiledAs(s, p, now)}
    ensures SamePlay(s, t)
  {
    var a := Admit(s, p, now);
    Place(a, p, a.Index(p), now)
  }

  // ---------- playout ----------

  predicate Vacant(queue: map<int, Packet>, cfg: Config, index: int)
    requires cfg.Valid()
  {
    forall i :: i in queue ==> cfg.Position(i) != cfg.Position(index)
  }

  /** Where the resync skip loop stops: the first number whose ring position is taken. */
  function FirstOccupied(queue: map<int, Packet>, cfg: Config, from: int, limit: int): (n: int)
    requires cfg.Valid()
    requires exists i :: i in queue && from <= i < limit
    ensures from <= n < limit && !Vacant(queue, cfg, n)
    ensures forall m :: from <= m < n ==> Vacant(queue, cfg, m)
    decreases limit - from
  {
    if Vacant(queue, cfg, from) then
      assert from !in queue;
      FirstOccupied(queue, cfg, from + 1, limit)
    else from
  }

  lemma SomeKey(queue: map<int, Packet>)
    requires queue != map[]
    ensures exists i :: i in queue
  {
    assert (forall i :: i !in queue) ==> queue == map[];
  }

  function PlayFrom(s: State): (n: int)
    requires Queued(s)
    ensures s.next <= n
  {
    if s.resync && s.queue != map[] then
      SomeKey(s.queue);
      FirstOccupied(s.queue, s.cfg, s.next, s.next + s.cfg.Window())
    else s.next
  }

  function StartPlayout(s: State, now: int): (t: State)
    requires Queued(s)
    ensures t.cfg == s.cfg && t.stats.read == s.stats.read && t.h.arrivals == s.h.arrivals
    ensures t.h.collisions == s.h.collisions
  {
    var n := PlayFrom(s);
    s.(next := n, startAt := None, resync := false, playout := true, releaseAt := now,
       stats := s.stats.(lost := s.stats.lost + (n - s.next)),
       h := s.h.(mark := if s.resync then s.h.mark
                         else Mark(s.next, s.stats.released, s.stats.lost, s.h.unparsed, s.h.skipped),
                 playStart := now, pace := [], played := 0))
  }

  function StopPlayout(s: State): (t: State)
    ensures t.cfg == s.cfg && t.stats.read == s.stats.read && t.h.arrivals == s.h.arrivals
    ensures t.h.collisions == s.h.collisions
  {
    s.(playout := false, resync := true, stats := s.stats.(underruns := s.stats.underruns + 1))
  }

  predicate StartsPlayout(s: State, now: int) {
    !s.playout && ((s.startAt.Some? && now >= s.startAt.value) || |s.queue| >= s.cfg.delay)
  }

  function Tick(s: State, now: int): State {
    s.(next := s.next + 1, releaseAt := s.releaseAt + s.duration,
       h := s.h.(pace := s.h.pace + [s.duration], decidedAt := now))
  }

  /** The packet at the head of the window leaves it on its tick. */
  function TakeOut(s: State, now: int): State {
    Tick(s, now).(queue := s.queue - {s.next})
  }

  function Release(s: State, now: int, parses: bool): State
    requires s.next in s.queue
  {
    var t := TakeOut(s, now);
    if parses then
      t.(stats := t.stats.(released := t.stats.released + 1, last := s.queue[s.next].number),
         h := t.h.(releases := t.h.releases + [Entry(s.h.epoch, s.next, s.queue[s.next])], played := t.h.played + 1))
    else
      t.(h := t.h.(unparsed := t.h.unparsed + 1))
  }

  function Lose(s: State, now: int): State {
    Tick(s, now).(stats := s.stats.(lost := s.stats.lost + 1))
  }

  function Idle(s: State): Outcome {
    if s.ended.Some? && s.queue == map[] then UpstreamEnded(s.ended.value)
    else if s.playout then Wait(Some(s.releaseAt))
    else Wait(s.startAt)
  }

  /** One turn of ReadRTP's loop, from a state in which playout has been started if it was due. */
  function Decide(s: State, now: int, room: nat, parses: bool): (t: (State, Outcome))
    ensures t.0.cfg == s.cfg && t.0.stats.read == s.stats.read && t.0.h.arrivals == s.h.arrivals && t.0.h.collisions == s.h.collisions
  {
    if s.playout && now >= s.releaseAt then
      if s.next in s.queue then
        if room < |s.queue[s.next].raw| then (s, ShortBuffer)
        else (Release(s, now, parses), if parses then Released(s.queue[s.next]) else Unparsable)
      else if s.queue == map[] then (StopPlayout(s), Idle(StopPlayout(s)))
      else (Lose(s, now), Lost)
    else (s, Idle(s))
  }

  function ReadTurn(s: State, now: int, room: nat, parses: bool): (t: (State, Outcome))
    requires Queued(s)
    ensures t.0.cfg == s.cfg && t.0.stats.read == s.stats.read && t.0.h.arrivals == s.h.arrivals && t.0.h.collisions == s.h.collisions
  {
    if s.closed then (s, Closed)
    else if StartsPlayout(s, now) then Decide(StartPlayout(s, now), now, room, parses)
    else Decide(s, now, room, parses)
  }

  function Step(s: State, e: Event): (t: State)
    requires Queued(s)
    ensures t.cfg == s.cfg && t.stats.read == s.stats.read + if e.Arrive? then 1 else 0
    ensures !e.Arrive? ==> t.h.collisions == s.h.collisions
    ensures t.h.arrivals == s.h.arrivals + if e.Arrive? then {FiledAs(s, e.packet, e.now)} else {}
  {
    match e
    case Arrive(p, now) => File(s, p, now)
    case UpstreamError(error) => s.(ended := Some(error))
    case Read(now, room, parses) => ReadTurn(s, now, room, parses).0
    case UpdateSession(duration, rate) =>
      s.(duration := if duration > 0 then duration else s.duration,
         clockRate := if s.clockRate != 0 && rate != 0 then rate else s.clockRate,
         learner := s.learner.(known := false, pending := 0))
    case Close => s.(closed := true)
  }

  // ---------- invariants ----------

  predicate Windowed(cfg: Config, queue: map<int, Packet>, next: int) {
    forall i :: i in queue ==> next <= i < next + cfg.Window() && Wrap(i) == queue[i].number
  }

  /** The queue is a window of the sequence numbers from the next to play, one packet a position. */
  predicate Queued(s: State) {
    && s.cfg.Valid()
    && Windowed(s.cfg, s.queue, s.next)
    && (forall i, j :: i in s.queue && j in s.queue && i != j ==> s.cfg.Position(i) != s.cfg.Position(j))
  }

  predicate Phased(s: State) {
    && !(s.playout && s.resync)
    && (!s.ssrcSet ==> s.queue == map[] && !s.Started() && s.startAt == None)
    && (s.ssrcSet && !s.Started() ==> s.startAt.Some? && s.queue != map[])
    && (s.resync ==> (s.startAt.Some? <==> s.queue != map[]))
    && (s.playout ==> s.startAt == None)
  }

  predicate Before(a: Entry, b: Entry) {
    a.epoch < b.epoch || (a.epoch == b.epoch && a.index < b.index)
  }

  predicate Ordered(releases: seq<Entry>) {
    forall i, j :: 0 <= i < j < |releases| ==> Before(releases[i], releases[j])
  }

  predicate Traced(s: State) {
    && (forall i :: i in s.queue ==> Entry(s.h.epoch, i, s.queue[i]) in s.h.arrivals)
    && (forall e :: e in s.h.arrivals ==> Wrap(e.index) == e.packet.number)
    && Ordered(s.h.releases)
    && (forall k :: 0 <= k < |s.h.releases| ==> s.h.releases[k] in s.h.arrivals)
    && (forall k :: 0 <= k < |s.h.releases| ==>
          s.h.releases[k].epoch < s.h.epoch ||
          (s.h.releases[k].epoch == s.h.epoch && s.Started() && s.h.releases[k].index < s.next))
  }

  /** Every packet read is accounted for, but for the `pending` one being filed. */
  predicate Conserved(s: State, pending: nat) {
    var t := s.stats;
    && t.read == pending + t.released + t.late + t.duplicate + t.dropped + |s.queue| + s.h.cleared + s.h.unparsed
    && t.released == |s.h.releases|
    && (t.resets == 0 ==> s.h.cleared == 0)
    && (s.Started() ==>
          s.next - s.h.mark.next ==
          (t.released - s.h.mark.released) + (s.h.unparsed - s.h.mark.unparsed) +
          (t.lost - s.h.mark.lost) + (s.h.skipped - s.h.mark.skipped))
  }

  function Sum(a: seq<int>): int {
    if a == [] then 0 else Sum(a[..|a| - 1]) + a[|a| - 1]
  }

  predicate Paced(s: State) {
    s.playout ==>
      && s.releaseAt == s.h.playStart + Sum(s.h.pace)
      && s.h.played <= |s.h.pace|
      && (s.h.pace != [] ==> s.h.playStart + Sum(s.h.pace[..|s.h.pace| - 1]) <= s.h.decidedAt)
  }

  predicate Inv(s: State) {
    Queued(s) && Phased(s) && Traced(s) && Conserved(s, 0) && Paced(s)
  }
}
