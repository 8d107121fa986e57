/** The slot pool, free list and ring of the jitter buffer, and what each change of them keeps. */
module JitterRing {
  import opened Basics
  import opened Wrap16
  import opened JitterSpec

  /** The three places a slot can be. */
  datatype Owner = Free(rank: nat) | Filed(index: int) | Reading

  /** What a packet finds at its ring position. */
  datatype Occupant = Nobody | Duplicate | Taken

  datatype Pool = Pool(cfg: Config, slots: seq<Packet>, ring: seq<int>, free: seq<int>, owner: seq<Owner>,
                       queue: map<int, Packet>, reading: Option<int>)

  predicate Sized(p: Pool) {
    p.cfg.Valid() && |p.slots| == p.cfg.max + 1 && |p.ring| == p.cfg.max && |p.owner| == p.cfg.max + 1
  }

  /** The ring and the queue describe the same packets. */
  predicate RingAgrees(p: Pool)
    requires Sized(p)
  {
    && (forall i :: i in p.queue ==>
          var k := p.ring[p.cfg.Position(i)];
          0 <= k <= p.cfg.max && p.slots[k] == p.queue[i] && p.owner[k] == Filed(i))
    && (forall n :: 0 <= n < p.cfg.max ==> VacantOrQueued(p, n))
    && (forall n :: 0 <= n < p.cfg.max ==> -1 <= p.ring[n] <= p.cfg.max)
  }

  predicate VacantOrQueued(p: Pool, position: int)
    requires Sized(p) && 0 <= position < p.cfg.max
  {
    var k := p.ring[position];
    k == -1 ||
    (0 <= k <= p.cfg.max && p.owner[k].Filed? && p.owner[k].index in p.queue &&
     p.cfg.Position(p.owner[k].index) == position)
  }

  /** Free slots, queued slots and the slot being read into partition the pool. */
  predicate Partitioned(p: Pool)
    requires Sized(p)
  {
    && (forall k :: 0 <= k <= p.cfg.max ==>
          match p.owner[k]
          case Free(n) => n < |p.free| && p.free[n] == k
          case Filed(i) => i in p.queue && p.ring[p.cfg.Position(i)] == k
          case Reading => p.reading == Some(k))
    && (forall n :: 0 <= n < |p.free| ==> 0 <= p.free[n] <= p.cfg.max && p.owner[p.free[n]] == Free(n))
    && (p.reading.Some? ==> 0 <= p.reading.value <= p.cfg.max && p.owner[p.reading.value] == Reading)
    && |p.free| + |p.queue| + (if p.reading.Some? then 1 else 0) == p.cfg.max + 1
  }

  predicate Good(p: Pool) {
    Sized(p) && RingAgrees(p) && Partitioned(p)
  }

  function NewPool(cfg: Config, slots: seq<Packet>): Pool
    requires cfg.Valid()
  {
    Pool(cfg, slots, seq(cfg.max, i => -1), seq(cfg.max + 1, i => i),
         seq(cfg.max + 1, i requires 0 <= i => Free(i)), map[], None)
  }

  /** Takes the packet at a ring position out and frees its slot. */
  function Unqueue(p: Pool, position: int): Pool
    requires Good(p) && 0 <= position < p.cfg.max && p.ring[position] >= 0
  {
    var k := p.ring[position];
    assert VacantOrQueued(p, position);
    p.(ring := p.ring[position := -1], queue := p.queue - {p.owner[k].index},
       owner := p.owner[k := Free(|p.free|)], free := p.free + [k])
  }

  /** Puts the slot being read into at a vacant ring position. */
  function Enqueue(p: Pool, index: int): Pool
    requires Good(p) && p.reading.Some?
  {
    var k := p.reading.value;
    p.(ring := p.ring[p.cfg.Position(index) := k], queue := p.queue[index := p.slots[k]],
       owner := p.owner[k := Filed(index)], reading := None)
  }

  function GiveBack(p: Pool): Pool
    requires Good(p) && p.reading.Some?
  {
    var k := p.reading.value;
    p.(owner := p.owner[k := Free(|p.free|)], free := p.free + [k], reading := None)
  }

  function Take(p: Pool): Pool
    requires Good(p) && p.reading == None && |p.free| > 0
  {
    var k := p.free[|p.free| - 1];
    p.(owner := p.owner[k := Reading], free := p.free[..|p.free| - 1], reading := Some(k))
  }

  function Store(p: Pool, packet: Packet): Pool
    requires Good(p) && p.reading.Some?
  {
    p.(slots := p.slots[p.reading.value := packet])
  }

  lemma NewIsGood(cfg: Config, slots: seq<Packet>)
    requires cfg.Valid() && |slots| == cfg.max + 1
    ensures Good(NewPool(cfg, slots))
  {
  }

  lemma UnqueueKeeps(p: Pool, position: int)
    requires Good(p) && 0 <= position < p.cfg.max && p.ring[position] >= 0
    ensures Good(Unqueue(p, position))
  {
    hide Config.Position;
    var k := p.ring[position];
    assert VacantOrQueued(p, position);
    var i := p.owner[k].index;
    var q := Unqueue(p, position);
    assert q.queue.Keys == p.queue.Keys - {i};
    assert |q.queue.Keys| == |p.queue.Keys| - 1;
    forall n | 0 <= n < q.cfg.max
      ensures VacantOrQueued(q, n)
    {
      assert VacantOrQueued(p, n);
    }
  }

  lemma UnqueuedSize(p: Pool, position: int)
    requires Good(p) && 0 <= position < p.cfg.max && p.ring[position] >= 0
    ensures var q := Unqueue(p, position);
            && |q.queue| == |p.queue| - 1
            && q.queue.Keys <= p.queue.Keys && (forall i :: i in q.queue ==> q.queue[i] == p.queue[i])
  {
    assert VacantOrQueued(p, position);
    assert Unqueue(p, position).queue.Keys == p.queue.Keys - {p.owner[p.ring[position]].index};
  }

  lemma EnqueueKeeps(p: Pool, index: int)
    requires Good(p) && p.reading.Some?
    requires p.ring[p.cfg.Position(index)] == -1
    ensures Good(Enqueue(p, index))
  {
    hide Config.Position;
    assert index !in p.queue;
    var q := Enqueue(p, index);
    assert q.queue.Keys == p.queue.Keys + {index};
    forall n | 0 <= n < q.cfg.max
      ensures VacantOrQueued(q, n)
    {
      assert VacantOrQueued(p, n);
    }
  }

  lemma GiveBackKeeps(p: Pool)
    requires Good(p) && p.reading.Some?
    ensures Good(GiveBack(p))
  {
    hide Config.Position;
    var q := GiveBack(p);
    forall n | 0 <= n < q.cfg.max
      ensures VacantOrQueued(q, n)
    {
      assert VacantOrQueued(p, n);
    }
  }

  lemma TakeKeeps(p: Pool)
    requires Good(p) && p.reading == None && |p.free| > 0
    ensures Good(Take(p))
  {
    hide Config.Position;
    var q := Take(p);
    forall n | 0 <= n < q.cfg.max
      ensures VacantOrQueued(q, n)
    {
      assert VacantOrQueued(p, n);
    }
  }

  lemma StoreKeeps(p: Pool, packet: Packet)
    requires Good(p) && p.reading.Some?
    ensures Good(Store(p, packet))
  {
    hide Config.Position;
    var q := Store(p, packet);
    forall n | 0 <= n < q.cfg.max
      ensures VacantOrQueued(q, n)
    {
      assert VacantOrQueued(p, n);
    }
  }

  /** Looking a number of the window up in the ring is looking it up in the queue. */
  lemma RingFinds(p: Pool, next: int, index: int)
    requires Good(p) && next <= index < next + p.cfg.Window()
    requires Windowed(p.cfg, p.queue, next)
    ensures var k := p.ring[p.cfg.Position(index)];
            k <= p.cfg.max && ((0 <= k && p.slots[k].number == Wrap(index)) <==> index in p.queue)
  {
    var n := p.cfg.Position(index);
    assert VacantOrQueued(p, n);
    var k := p.ring[n];
    if 0 <= k && p.slots[k].number == Wrap(index) {
      SameResidue(p.owner[k].index, index);
    }
  }

  lemma RingOwner(p: Pool, index: int)
    requires Good(p) && index in p.queue
    ensures var k := p.ring[p.cfg.Position(index)];
            0 <= k < |p.owner| && p.owner[k] == Filed(index)
  {
  }

  lemma RingOccupied(p: Pool, index: int)
    requires Good(p)
    ensures p.ring[p.cfg.Position(index)] < 0 <==> Vacant(p.queue, p.cfg, index)
  {
    hide Config.Position;
    assert VacantOrQueued(p, p.cfg.Position(index));
  }

  /** One slot more than the window means the read loop always finds a free one. */
  lemma FreeSlotExists(p: Pool, next: int)
    requires Good(p) && p.reading == None
    requires Windowed(p.cfg, p.queue, next)
    ensures |p.free| > 0
  {
    IntervalSize(p.queue.Keys, next, next + p.cfg.Window());
  }

  /** No slot is in two places at once, and none is lost. */
  lemma EverySlotOnce(p: Pool, k: int)
    requires Good(p) && 0 <= k <= p.cfg.max
    ensures k in p.free || p.reading == Some(k) || k in p.ring
    ensures !(k in p.free && p.reading == Some(k)) && !(k in p.free && k in p.ring) && !(p.reading == Some(k) && k in p.ring)
    ensures forall a, b :: 0 <= a < b < |p.free| ==> p.free[a] != p.free[b]
    ensures forall a, b :: 0 <= a < b < |p.ring| && p.ring[a] == k ==> p.ring[b] != k
  {
    forall n | 0 <= n < p.cfg.max && p.ring[n] == k
      ensures p.owner[k].Filed? && p.cfg.Position(p.owner[k].index) == n
    {
      assert VacantOrQueued(p, n);
    }
    assert p.owner[k].Filed? ==> p.ring[p.cfg.Position(p.owner[k].index)] == k;
  }

  lemma VacantRing(p: Pool)
    requires Good(p) && forall n :: 0 <= n < p.cfg.max ==> p.ring[n] < 0
    ensures p.queue == map[]
  {
    forall i
      ensures i !in p.queue
    {
      assert 0 <= p.cfg.Position(i) < p.cfg.max;
    }
    assert p.queue.Keys == {};
  }

  lemma DistanceAhead(a: int, b: int)
    requires 0 <= a - b < SPAN
    ensures Distance(Wrap(a), Wrap(b)) == if a - b < 32768 then a - b else a - b - SPAN
  {
    DistanceUnique(Wrap(a), b, if a - b < 32768 then a - b else a - b - SPAN);
  }

  lemma KeptStep(was: map<int, Packet>, n: int)
    ensures Kept(was, n) - {n} == Kept(was, n + 1)
    ensures |Kept(was, n + 1)| == |Kept(was, n)| - if n in Kept(was, n) then 1 else 0
  {
    var a, b := Kept(was, n), Kept(was, n + 1);
    assert forall i :: i in b <==> i in a && i != n;
    assert b == a - {n};
    if n in was {
      assert a.Keys == b.Keys + {n};
    } else {
      assert a.Keys == b.Keys;
    }
  }

  lemma KeptAll(cfg: Config, queue: map<int, Packet>, next: int, first: int)
    requires Windowed(cfg, queue, next)
    ensures first <= next ==> Kept(queue, first) == queue
    ensures first >= next + cfg.Window() ==> Kept(queue, first) == map[]
    ensures Windowed(cfg, Kept(queue, first), next)
  {
  }

  /** The slots, the free list and the ring of RTPJitterBuffer. */
  class SlotRing {
    const cfg: Config
    const slots: array<Packet>
    const sequence: array<int>
    var freeSlots: seq<int>
    var queued: int

    ghost var queue: map<int, Packet>
    ghost var reading: Option<int>
    ghost var owner: seq<Owner>

    ghost function Contents(): Pool
      reads this, slots, sequence
    {
      Pool(cfg, slots[..], sequence[..], freeSlots, owner, queue, reading)
    }

    ghost predicate Valid()
      reads this, slots, sequence
    {
      Good(Contents()) && queued == |queue|
    }

    constructor (cfg: Config)
      requires cfg.Valid()
      ensures Valid() && this.cfg == cfg && queue == map[] && reading == None
      ensures fresh(slots) && fresh(sequence)
    {
      this.cfg := cfg;
      slots := new Packet[cfg.max + 1](_ => Packet(0, 0, 0, 0, false, []));
      sequence := new int[cfg.max](_ => -1);
      freeSlots := seq(cfg.max + 1, i => i);
      queued, queue, reading := 0, map[], None;
      owner := seq(cfg.max + 1, i requires 0 <= i => Free(i));
      new;
      NewIsGood(cfg, slots[..]);
      assert Contents() == NewPool(cfg, slots[..]);
    }

    /** The read loop takes a slot to read the next packet into; there always is one. */
    method TakeSlot(ghost next: int) returns (slotIndex: int)
      requires Valid() && reading == None && Windowed(cfg, queue, next)
      modifies this
      ensures Valid() && reading == Some(slotIndex) && queue == old(queue)
      ensures old(|freeSlots|) > 0 && Contents() == Take(old(Contents()))
    {
      hide RingAgrees;
      FreeSlotExists(Contents(), next);
      TakeKeeps(Contents());
      slotIndex := freeSlots[|freeSlots| - 1];
      freeSlots := freeSlots[..|freeSlots| - 1];
      owner := owner[slotIndex := Reading];
      reading := Some(slotIndex);
    }

    method StoreRead(slotIndex: int, packet: Packet)
      requires Valid() && reading == Some(slotIndex)
      modifies slots
      ensures Valid() && 0 <= slotIndex < slots.Length && slots[slotIndex] == packet
      ensures Contents() == Store(old(Contents()), packet)
    {
      StoreKeeps(Contents(), packet);
      ghost var after := Store(Contents(), packet);
      slots[slotIndex] := packet;
      assert Contents() == after;
    }

    /** freeSlot on the slot being read into. */
    method FreeSlot(slotIndex: int)
      requires Valid() && reading == Some(slotIndex)
      modifies this
      ensures Valid() && reading == None && queue == old(queue)
      ensures Contents() == GiveBack(old(Contents()))
    {
      GiveBackKeeps(Contents());
      owner := owner[slotIndex := Free(|freeSlots|)];
      reading := None;
      freeSlots := freeSlots + [slotIndex];
    }

    /** Queues the slot being read into at the vacant ring position of its number. */
    method EnqueueSlot(slotIndex: int, position: int, ghost index: int)
      requires Valid() && reading == Some(slotIndex)
      requires position == cfg.Position(index) && sequence[position] == -1
      modifies this, sequence
      ensures Valid() && reading == None
      ensures index !in old(queue) && queue == old(queue)[index := slots[slotIndex]]
      ensures Contents() == Enqueue(old(Contents()), index)
    {
      hide Config.Position;
      EnqueueKeeps(Contents(), index);
      ghost var after := Enqueue(Contents(), index);
      RingOccupied(Contents(), index);
      assert Contents().ring[position] == -1;
      assert index !in queue;
      sequence[position] := slotIndex;
      queued := queued + 1;
      queue, owner, reading := after.queue, after.owner, None;
      assert sequence[..] == old(sequence[..])[position := slotIndex];
    }

    /** Takes the queued packet at a ring position out of the ring and frees its slot. */
    method UnqueueSlot(position: int, ghost index: int)
      requires Valid() && index in queue && position == cfg.Position(index)
      modifies this, sequence
      ensures Valid() && queue == old(queue) - {index} && reading == old(reading)
      ensures sequence[..] == old(sequence[..])[position := -1]
    {
      hide Config.Position, Partitioned;
      RingOwner(Contents(), index);
      ghost var before := Contents();
      assert before.ring[position] == sequence[position];
      UnqueueKeeps(before, position);
      UnqueuedSize(before, position);
      var slotIndex := sequence[position];
      sequence[position] := -1;
      queued := queued - 1;
      freeSlots := freeSlots + [slotIndex];
      queue := queue - {index};
      owner := owner[slotIndex := Free(|before.free|)];
      assert sequence[..] == old(sequence[..])[position := -1];
      assert Contents() == Unqueue(before, position);
    }

    method RingPosition(number: U16, ghost index: int) returns (position: int)
      requires cfg.Valid() && number == Wrap(index)
      ensures position == cfg.Position(index)
    {
      position := number % cfg.max;
    }

    /** The slot queued for `number`, the sequence number of `index`, or -1. */
    method Find(number: U16, ghost next: int, ghost index: int) returns (slotIndex: int)
      requires Valid() && Windowed(cfg, queue, next)
      requires next <= index < next + cfg.Window() && number == Wrap(index)
      ensures -1 <= slotIndex < slots.Length
      ensures slotIndex >= 0 <==> index in queue
      ensures slotIndex >= 0 ==> slots[slotIndex] == queue[index]
    {
      var position := RingPosition(number, index);
      slotIndex := sequence[position];
      RingFinds(Contents(), next, index);
      assert Contents().ring[cfg.Position(index)] == slotIndex;
      if slotIndex < 0 || slots[slotIndex].number != number {
        slotIndex := -1;
      } else {
        assert Contents().slots[slotIndex] == slots[slotIndex];
      }
    }

    method VacantAt(number: U16, ghost index: int) returns (free: bool)
      requires Valid() && number == Wrap(index)
      ensures free <==> Vacant(queue, cfg, index)
    {
      RingOccupied(Contents(), index);
      var position := RingPosition(number, index);
      assert Contents().ring[position] == sequence[position];
      free := sequence[position] < 0;
    }

    /** What is filed at the ring position of `number`. */
    method Existing(position: int, number: U16, ghost next: int, ghost index: int) returns (e: Occupant)
      requires Valid() && Windowed(cfg, queue, next)
      requires next <= index < next + cfg.Window() && number == Wrap(index) && position == cfg.Position(index)
      ensures e == Duplicate <==> index in queue
      ensures e == Nobody <==> Vacant(queue, cfg, index)
      ensures e == Nobody <==> sequence[position] == -1
    {
      RingFinds(Contents(), next, index);
      RingOccupied(Contents(), index);
      var existing := sequence[position];
      assert Contents().ring[position] == existing;
      if existing >= 0 {
        assert Contents().slots[existing] == slots[existing];
        e := if slots[existing].number == number then Duplicate else Taken;
      } else {
        e := Nobody;
      }
    }

    method ClearSequence()
      requires Valid()
      modifies this, sequence
      ensures Valid() && queue == map[] && reading == old(reading)
    {
      hide Partitioned, Config.Position;
      var i := 0;
      while i < cfg.max
        invariant 0 <= i <= cfg.max
        invariant Valid() && reading == old(reading)
        invariant forall n :: 0 <= n < i ==> sequence[n] < 0
      {
        if sequence[i] >= 0 {
          assert VacantOrQueued(Contents(), i);
          ghost var before := sequence[..];
          UnqueueSlot(i, owner[sequence[i]].index);
          assert forall n :: 0 <= n < i ==> sequence[n] == sequence[..][n] == before[n];
          assert sequence[i] == sequence[..][i];
        }
        i := i + 1;
      }
      VacantRing(Contents());
      queued := 0;
    }

    method CanMoveExpectedBack(number: U16, ghost next: int, ghost index: int) returns (ok: bool)
      requires Valid() && Windowed(cfg, queue, next)
      requires Wrap(index) == number && next - 32768 <= index < next
      ensures ok <==> forall i :: i in queue ==> i - index < cfg.Window()
    {
      var n := 0;
      while n < cfg.max
        invariant 0 <= n <= cfg.max
        invariant forall i :: i in queue && cfg.Position(i) < n ==> i - index < cfg.Window()
      {
        var slotIndex := sequence[n];
        if slotIndex >= 0 {
          assert VacantOrQueued(Contents(), n);
          DistanceAhead(owner[slotIndex].index, index);
          var distance := Distance(slots[slotIndex].number, number);
          if distance < 0 || distance >= cfg.max {
            return false;
          }
        }
        n := n + 1;
      }
      ok := true;
    }

    /** Drops what is queued in the `passed` numbers from `expectedSeq` on. */
    method DropRange(expectedSeq: U16, passed: int, ghost next: int) returns (dropped: nat)
      requires Valid() && Windowed(cfg, queue, next) && expectedSeq == Wrap(next)
      requires 0 <= passed < 32768
      modifies this, sequence
      ensures Valid() && queue == Kept(old(queue), next + passed) && reading == old(reading)
      ensures dropped == |old(queue)| - |queue|
    {
      hide Good, Config.Position, Kept, Windowed, Wrap;
      ghost var was := queue;
      KeptAll(cfg, was, next, next);
      dropped := 0;
      var i := 0;
      while i < passed && i < cfg.max
        invariant 0 <= i <= passed && i <= cfg.max
        invariant Valid() && reading == old(reading)
        invariant queue == Kept(was, next + i)
        invariant dropped == |was| - |queue|
      {
        var number := Offset(expectedSeq, i, next);
        var found := DropAt(number, next, next + i, was);
        if found {
          dropped := dropped + 1;
        }
        i := i + 1;
      }
      KeptAll(cfg, was, next, next + i);
      KeptAll(cfg, was, next, next + passed);
    }

    method Offset(expectedSeq: U16, i: int, ghost next: int) returns (number: U16)
      requires expectedSeq == Wrap(next)
      ensures number == Wrap(next + i)
    {
      WrapShift(next, i);
      number := Wrap(expectedSeq + i);
    }

    method DropAt(number: U16, ghost next: int, ghost index: int, ghost was: map<int, Packet>) returns (found: bool)
      requires Valid() && Windowed(cfg, was, next)
      requires next <= index < next + cfg.Window() && number == Wrap(index) && queue == Kept(was, index)
      modifies this, sequence
      ensures Valid() && queue == Kept(was, index + 1) && reading == old(reading)
      ensures |queue| == |old(queue)| - if found then 1 else 0
    {
      hide RingAgrees, Partitioned, Kept, Config.Position, Config.Window, Windowed, Wrap;
      KeptStep(was, index);
      KeptAll(cfg, was, next, index);
      var slotIndex := Find(number, next, index);
      found := slotIndex >= 0;
      if found {
        var position := RingPosition(number, index);
        UnqueueSlot(position, index);
      } else {
        assert queue - {index} == queue;
      }
    }
  }
}
