/**
 * The attempts as DialogMedia holds them: objects, the list of the registered ones, and the latest.
 * Every method is one hold of referMu and is proved to take the step Refer gives.
 */
module ReferDesk {
  import opened Basics
  import opened Refer

  // ---------- the list of registered attempts ----------

  /** Which attempts are registered, in the order they began. */
  function Open(attempts: seq<Attempt>): seq<nat> {
    if attempts == [] then []
    else
      var front := Open(attempts[..|attempts| - 1]);
      if attempts[|attempts| - 1].registered then front + [|attempts| - 1] else front
  }

  lemma OpenStep(attempts: seq<Attempt>)
    requires attempts != []
    ensures var last := |attempts| - 1;
            Open(attempts) == if attempts[last].registered then Open(attempts[..last]) + [last] else Open(attempts[..last])
  {
  }

  lemma {:induction false} OpenIsRegistered(attempts: seq<Attempt>)
    ensures forall i :: i in Open(attempts) <==> 0 <= i < |attempts| && attempts[i].registered
    ensures forall j, k :: 0 <= j < k < |Open(attempts)| ==> Open(attempts)[j] < Open(attempts)[k]
    decreases |attempts|
  {
    if attempts == [] {
    } else {
      var front := attempts[..|attempts| - 1];
      OpenIsRegistered(front);
      OpenStep(attempts);
      hide Open;
      assert forall j :: 0 <= j < |Open(front)| ==> Open(front)[j] in Open(front);
    }
  }

  function Without(open: seq<nat>, i: nat): seq<nat> {
    if open == [] then []
    else
      var front := Without(open[..|open| - 1], i);
      if open[|open| - 1] == i then front else front + [open[|open| - 1]]
  }

  lemma {:induction false} WithoutAbsent(open: seq<nat>, i: nat)
    requires i !in open
    ensures Without(open, i) == open
    decreases |open|
  {
    if open == [] {
    } else {
      WithoutAbsent(open[..|open| - 1], i);
    }
  }

  lemma WithoutLast(open: seq<nat>, x: nat, i: nat)
    ensures Without(open + [x], i) == if x == i then Without(open, i) else Without(open, i) + [x]
  {
    assert (open + [x])[..|open|] == open;
  }

  /** A change that keeps the registration keeps the list; retiring takes exactly that attempt out. */
  lemma {:induction false} OpenUpdated(attempts: seq<Attempt>, i: nat, a: Attempt)
    requires i < |attempts| && (a.registered ==> attempts[i].registered)
    ensures Open(attempts[i := a]) == if a.registered then Open(attempts) else Without(Open(attempts), i)
    decreases |attempts|
  {
    hide Without, Open;
    var front, last := attempts[..|attempts| - 1], |attempts| - 1;
    OpenStep(attempts);
    OpenStep(attempts[i := a]);
    WithoutLast(Open(front), last, i);
    if i == last {
      assert attempts[i := a][..last] == front;
      OpenIsRegistered(front);
      WithoutAbsent(Open(front), i);
    } else {
      OpenUpdated(front, i, a);
      assert attempts[i := a][..last] == front[i := a];
    }
  }

  lemma OpenKept(attempts: seq<Attempt>, i: nat, a: Attempt)
    requires i < |attempts| && a.registered == attempts[i].registered
    ensures Open(attempts[i := a]) == Open(attempts)
  {
    hide Without, Open;
    OpenUpdated(attempts, i, a);
    if !a.registered {
      OpenIsRegistered(attempts);
      WithoutAbsent(Open(attempts), i);
    }
  }

  lemma OpenGrown(attempts: seq<Attempt>, a: Attempt)
    ensures Open(attempts + [a]) == Open(attempts) + if a.registered then [|attempts|] else []
  {
    assert (attempts + [a])[..|attempts|] == attempts;
  }

  predicate Within(attempts: seq<Attempt>, open: seq<nat>) {
    forall j :: 0 <= j < |open| ==> open[j] < |attempts|
  }

  /** How many of the given attempts await their CSeq. */
  function Unknown(attempts: seq<Attempt>, open: seq<nat>): nat
    requires Within(attempts, open)
  {
    if open == [] then 0
    else Unknown(attempts, open[..|open| - 1]) + if attempts[open[|open| - 1]].cseqKnown then 0 else 1
  }

  lemma {:induction false} UnknownPrefix(attempts: seq<Attempt>, grown: seq<Attempt>, open: seq<nat>)
    requires Within(attempts, open) && attempts <= grown
    ensures Unknown(grown, open) == Unknown(attempts, open)
    decreases |open|
  {
    if open == [] {
    } else {
      UnknownPrefix(attempts, grown, open[..|open| - 1]);
    }
  }

  /** Counting over the list is counting over every attempt begun. */
  lemma {:induction false} UnknownIsAwaiting(attempts: seq<Attempt>)
    ensures Within(attempts, Open(attempts)) && Unknown(attempts, Open(attempts)) == Awaiting(attempts)
    decreases |attempts|
  {
    OpenIsRegistered(attempts);
    if attempts == [] {
    } else {
      var front := attempts[..|attempts| - 1];
      UnknownIsAwaiting(front);
      UnknownPrefix(front, attempts, Open(front));
      assert (Open(front) + [|front|])[..|Open(front)|] == Open(front);
    }
  }

  predicate Known(a: Attempt, id: nat) {
    a.cseqKnown && a.cseq == id
  }

  /** The first of the list recorded with the id is the first of all attempts that is. */
  lemma FirstOfList(attempts: seq<Attempt>, id: nat, j: nat)
    requires Within(attempts, Open(attempts)) && j < |Open(attempts)| && Known(attempts[Open(attempts)[j]], id)
    requires forall h :: 0 <= h < j ==> !Known(attempts[Open(attempts)[h]], id)
    ensures FirstKnown(attempts, id, 0) == Some(Open(attempts)[j])
  {
    hide Open;
    OpenIsRegistered(attempts);
    forall k | 0 <= k < Open(attempts)[j] && attempts[k].registered
      ensures !Known(attempts[k], id)
    {
      var h :| 0 <= h < |Open(attempts)| && Open(attempts)[h] == k;
      assert h < j;
    }
  }

  lemma NoneOfList(attempts: seq<Attempt>, id: nat)
    requires Within(attempts, Open(attempts))
    requires forall h :: 0 <= h < |Open(attempts)| ==> !Known(attempts[Open(attempts)[h]], id)
    ensures FirstKnown(attempts, id, 0) == None
  {
    hide Open;
    OpenIsRegistered(attempts);
    forall k | 0 <= k < |attempts| && attempts[k].registered
      ensures !Known(attempts[k], id)
    {
      assert k in Open(attempts);
    }
  }

  // ---------- the objects ----------

  /** The timer that ends an attempt, armed for a deadline. */
  datatype Bound = Bound(armed: nat, deadline: int, stopped: bool)

  /** What a finished attempt observed. */
  datatype Observation = Observation(end: End, cseq: nat, cseqKnown: bool, notifies: seq<Notify>, dropped: nat)

  /** An attempt at its REFER's 2xx, with `d` the deadline of the wait for a first NOTIFY. */
  function Accepted(a: Attempt, now: int, d: int): Attempt {
    var x := a.(accepted := Some(now));
    if x.end == NotEnded && x.deadline == None then Arm(x, d) else x
  }

  /** referAttempt; `done` is whether its channel is closed. */
  class ReferAttempt {
    var cseq: nat
    var cseqKnown: bool
    var registered: bool
    var end: End
    var notifies: seq<Notify>
    var dropped: nat
    var notified: bool
    var deadline: Option<int>
    var bound: Option<Bound>
    var boundArmed: nat
    var done: bool

    ghost var sent: Option<nat>
    ghost var log: seq<Notify>
    ghost var accepted: Option<int>
    ghost var deadlines: seq<int>

    /** The fields, with the history, are what the model says of the attempt. */
    ghost function View(): Attempt
      reads this
    {
      Attempt(cseq, cseqKnown, registered, end, notifies, dropped, notified, deadline, boundArmed,
              sent, log, accepted, deadlines, if done then 1 else 0)
    }

    /** The timer is the one armed last, for the current deadline. */
    ghost predicate Timed()
      reads this
    {
      && (bound.Some? <==> deadline.Some?)
      && (bound.Some? ==> bound.value.armed == boundArmed && bound.value.deadline == deadline.value)
    }

    constructor (ghost sent: Option<nat>)
      ensures [View()] == Registered([], sent) && Timed()
    {
      cseq, cseqKnown, registered, end := 0, false, true, NotEnded;
      notifies, dropped, notified := [], 0, false;
      deadline, bound, boundArmed, done := None, None, 0, false;
      this.sent, log, accepted, deadlines := sent, [], None, [];
    }

    method SetCSeq(number: nat)
      requires Timed()
      modifies this
      ensures Timed() && View() == old(View()).(cseq := number, cseqKnown := true)
    {
      cseq := number;
      cseqKnown := true;
    }

    /** Past 32 kept a NOTIFY is only counted, but a terminal one takes the last place. */
    method RecordLocked(n: Notify)
      requires Timed()
      modifies this
      ensures Timed() && View() == Note(old(View()), n)
    {
      if |notifies| < MAX_NOTIFIES {
        notifies := notifies + [n];
      } else if n.EndsSubscription() {
        notifies := notifies[|notifies| - 1 := n];
        dropped := dropped + 1;
      } else {
        dropped := dropped + 1;
      }
      notified := true;
      if n.IsFinal() {
        end := FinalNotify;
      } else if n.EndsSubscription() {
        end := SubscriptionEnded;
      }
      log := log + [n];
    }

    /** Replaces the timer by one for `d`. */
    method ArmReferBound(d: int)
      modifies this
      ensures Timed() && View() == Arm(old(View()), d) && bound == Some(Bound(boundArmed, d, false))
    {
      boundArmed := boundArmed + 1;
      deadline := Some(d);
      bound := Some(Bound(boundArmed, d, false));
      deadlines := deadlines + [d];
    }

    /** The 2xx arrived at `now`: `d` bounds the wait for a first NOTIFY, unless one came before. */
    method Accept(now: int, d: int)
      requires Timed()
      modifies this
      ensures Timed()
      ensures View() == Accepted(old(View()), now, d)
      ensures bound == if old(end) == NotEnded && old(bound) == None then Some(Bound(boundArmed, d, false)) else old(bound)
    {
      accepted := Some(now);
      if end == NotEnded && bound == None {
        ArmReferBound(d);
      }
    }

    /** Records `n` on an open attempt whose deadline has not passed, and sets its deadline. */
    method Observe(t1: nat, n: Notify, now: int)
      requires Timed() && end == NotEnded && !Past(View(), now) && (notified ==> deadline.Some?)
      modifies this
      ensures Timed() && View() == RecordOn(t1, old(View()), n, now)
    {
      var first := !notified;
      RecordLocked(n);
      if end == NotEnded {
        var d := now + SubscriptionBound(t1, n);
        if !first && deadline.value < d {
          d := deadline.value;
        }
        ArmReferBound(d);
      }
    }

    lemma Fields()
      ensures View().registered == registered && View().end == end && View().notified == notified
      ensures View().deadline == deadline && View().closes == (if done then 1 else 0)
      ensures View().cseqKnown == cseqKnown && View().cseq == cseq
    {
    }

    method StopBound()
      requires Timed()
      modifies `bound
      ensures Timed() && View() == old(View()) && (bound.Some? ==> bound.value.stopped)
    {
      if bound.Some? {
        bound := Some(bound.value.(stopped := true));
      }
    }

    method SetEnd(e: End)
      requires Timed()
      modifies `end
      ensures Timed() && View() == old(View()).(end := e)
    {
      end := e;
    }

    /** Closing a closed channel would panic. */
    method CloseDone()
      requires Timed() && registered && !done
      modifies `registered, `done
      ensures Timed() && View() == Retire(old(View()))
      ensures bound == old(bound)
    {
      registered := false;
      done := true;
    }
  }

  predicate Distinct(all: seq<ReferAttempt>) {
    forall i, j :: 0 <= i < j < |all| ==> all[i] != all[j]
  }

  /** The part of DialogMedia that referMu guards. */
  class ReferDesk {
    const t1: nat
    var referAttempts: seq<ReferAttempt>
    var referLatest: ReferAttempt?
    var referHighestCSeq: nat

    /** Every attempt begun, retired or not, and what the model says of them. */
    ghost var all: seq<ReferAttempt>
    ghost var model: State

    ghost predicate Shows()
      reads this, all
    {
      |all| == |model.attempts| && forall i :: 0 <= i < |all| ==> all[i].View() == model.attempts[i] && all[i].Timed()
    }

    ghost predicate Lists(open: seq<nat>)
      reads `referAttempts, `all
    {
      |referAttempts| == |open| && forall j :: 0 <= j < |open| ==> open[j] < |all| && referAttempts[j] == all[open[j]]
    }

    /** The list is the registered attempts in order, and the latest is the last begun. */
    ghost predicate Wired()
      reads this, all
    {
      && Distinct(all) && Shows() && Lists(Open(model.attempts)) && referHighestCSeq == model.highest
      && referLatest == if all == [] then null else all[|all| - 1]
    }

    ghost predicate Valid()
      reads this, all
    {
      Wired() && Inv(t1, model)
    }

    constructor (t1: nat)
      ensures Valid() && model == Initial() && this.t1 == t1
    {
      this.t1 := t1;
      referAttempts, referLatest, referHighestCSeq := [], null, 0;
      all, model := [], Initial();
    }

    method BeginReferAttempt(ghost sent: Option<nat>) returns (a: ReferAttempt)
      requires Valid()
      modifies this
      ensures Valid() && model == Step(t1, old(model), Begin(sent))
      ensures fresh(a) && all == old(all) + [a] && referAttempts == old(referAttempts) + [a] && referLatest == a
    {
      hide Inv, Open, ReferAttempt.View;
      StepKeeps(t1, model, Begin(sent));
      a := new ReferAttempt(sent);
      assert Registered([], sent)[0] == a.View();
      OpenGrown(model.attempts, a.View());
      referAttempts := referAttempts + [a];
      referLatest := a;
      all := all + [a];
      model := Step(t1, model, Begin(sent));
    }

    method SetReferAttemptCSeq(a: ReferAttempt, ghost i: nat, cseq: nat)
      requires Valid() && i < |all| && all[i] == a && a.sent == Some(cseq)
      modifies this, a
      ensures Valid() && model == Step(t1, old(model), SetCSeq(i)) && all == old(all)
    {
      hide Inv, Open, Lists;
      assert model.attempts[i].sent == Some(cseq);
      hide ReferAttempt.View;
      ghost var after := Step(t1, model, SetCSeq(i));
      StepKeeps(t1, model, SetCSeq(i));
      OpenKept(model.attempts, i, after.attempts[i]);
      if cseq > referHighestCSeq {
        referHighestCSeq := cseq;
      }
      a.SetCSeq(cseq);
      model := after;
    }

    /** Deletes `a` from the list. */
    method Unlist(a: ReferAttempt, ghost i: nat, ghost open: seq<nat>)
      requires Distinct(all) && i < |all| && all[i] == a && Lists(open)
      modifies `referAttempts
      ensures Lists(Without(open, i))
    {
      var kept := [];
      var j := 0;
      while j < |referAttempts|
        invariant 0 <= j <= |referAttempts| && referAttempts == old(referAttempts)
        invariant |kept| == |Without(open[..j], i)|
        invariant forall h :: 0 <= h < |kept| ==>
                    Without(open[..j], i)[h] < |all| && kept[h] == all[Without(open[..j], i)[h]]
      {
        assert open[..j + 1][..j] == open[..j];
        if referAttempts[j] != a {
          kept := kept + [referAttempts[j]];
        }
        j := j + 1;
      }
      assert open[..j] == open;
      referAttempts := kept;
    }

    /** Takes the attempt out of the list and closes its done. */
    method Unregister(a: ReferAttempt, ghost i: nat)
      requires Wired() && i < |all| && all[i] == a && a.registered && !a.done && model.attempts[i].registered
      modifies `referAttempts, `model, a
      ensures Wired() && model == Put(old(model), i, Retire(old(model).attempts[i])) && a.bound == old(a.bound)
    {
      hide Open, Lists, Without, ReferAttempt.View, ReferAttempt.Timed;
      ghost var before := model.attempts;
      assert !Retire(before[i]).registered;
      hide Retire;
      OpenUpdated(before, i, Retire(before[i]));
      Unlist(a, i, Open(before));
      a.CloseDone();
      model := Put(model, i, Retire(before[i]));
    }

    /** Stops the timer, and unregisters the attempt if it still is. */
    method RetireReferAttempt(a: ReferAttempt, ghost i: nat)
      requires Wired() && i < |all| && all[i] == a && (a.registered ==> !a.done)
      modifies `referAttempts, `model, a
      ensures Wired() && model == Put(old(model), i, Retire(old(model).attempts[i]))
      ensures a.bound.Some? ==> a.bound.value.stopped
    {
      hide Open, Lists, ReferAttempt.View, ReferAttempt.Timed;
      a.Fields();
      a.StopBound();
      a.Fields();
      if a.registered {
        Unregister(a, i);
      } else {
        assert Put(model, i, model.attempts[i]) == model;
      }
    }

    /** The 2xx starts Timer N unless a NOTIFY that raced ahead of it has begun the subscription. */
    method StartReferSubscription(a: ReferAttempt, ghost i: nat, now: int)
      requires Valid() && i < |all| && all[i] == a && now >= model.clock && a.accepted == None
      modifies `model, a
      ensures Valid() && model == Step(t1, old(model), Start(i, now)) && all == old(all)
      ensures old(a.end) == NotEnded && old(a.bound) == None ==> a.bound == Some(Bound(a.boundArmed, now + 64 * t1, false))
      ensures !(old(a.end) == NotEnded && old(a.bound) == None) ==> a.bound == old(a.bound)
    {
      hide Inv, Open, Lists, Step;
      assert model.attempts[i].accepted == None;
      hide ReferAttempt.View, ReferAttempt.Timed;
      StepKeeps(t1, model, Start(i, now));
      ghost var x := Accepted(model.attempts[i], now, now + TimerN(t1));
      StartIsAccepted(t1, model, i, now);
      OpenKept(model.attempts, i, x);
      hide Accepted;
      a.Accept(now, now + TimerN(t1));
      model := Put(model.(clock := now), i, x);
    }

    /** The first of the list recorded with the id, else how many of the list await their CSeq. */
    method SearchList(id: nat) returns (a: ReferAttempt?, ghost i: nat, awaitingCSeq: nat)
      requires Wired()
      ensures a != null ==> i < |all| && all[i] == a && FirstKnown(model.attempts, id, 0) == Some(i)
      ensures a == null ==> FirstKnown(model.attempts, id, 0) == None && awaitingCSeq == Awaiting(model.attempts)
      ensures a != null ==> a in referAttempts && a.cseqKnown && a.cseq == id
      ensures a == null ==> forall h :: 0 <= h < |referAttempts| ==> !(referAttempts[h].cseqKnown && referAttempts[h].cseq == id)
    {
      hide Open, Awaiting, FirstKnown, Distinct, ReferAttempt.View, ReferAttempt.Timed;
      a, i, awaitingCSeq := null, 0, 0;
      ghost var open := Open(model.attempts);
      UnknownIsAwaiting(model.attempts);
      var j := 0;
      while j < |referAttempts|
        invariant 0 <= j <= |referAttempts| && Within(model.attempts, open[..j])
        invariant awaitingCSeq == Unknown(model.attempts, open[..j])
        invariant forall h :: 0 <= h < j ==> !Known(model.attempts[open[h]], id)
        invariant forall h :: 0 <= h < j ==> !(referAttempts[h].cseqKnown && referAttempts[h].cseq == id)
      {
        assert open[..j + 1][..j] == open[..j] && referAttempts[j].View() == model.attempts[open[j]];
        referAttempts[j].Fields();
        if !referAttempts[j].cseqKnown {
          awaitingCSeq := awaitingCSeq + 1;
        } else if referAttempts[j].cseq == id {
          FirstOfList(model.attempts, id, j);
          a, i := referAttempts[j], open[j];
          return;
        }
        j := j + 1;
      }
      assert open[..j] == open;
      NoneOfList(model.attempts, id);
    }

    /** The loop over the list finds the attempt Target names among all begun. */
    method ReferNotifyTarget(n: Notify) returns (a: ReferAttempt?, ghost i: nat)
      requires Wired()
      ensures a == null <==> Target(model, n) == None
      ensures a != null ==> i < |all| && all[i] == a && Target(model, n) == Some(i)
      ensures forall x :: n.id.Some? && x in referAttempts && x.cseqKnown && x.cseq == n.id.value ==>
                a in referAttempts && a.cseqKnown && a.cseq == n.id.value
      ensures n.id == None && referLatest != null && referLatest.registered ==> a == referLatest
    {
      hide Open, Awaiting, FirstKnown, Lists, ReferAttempt.View, ReferAttempt.Timed;
      a, i := null, 0;
      if referLatest != null {
        referLatest.Fields();
      }
      if n.id.Some? {
        var awaitingCSeq;
        a, i, awaitingCSeq := SearchList(n.id.value);
        if a == null && referLatest != null && referLatest.registered && !referLatest.cseqKnown &&
           awaitingCSeq == 1 && n.id.value > referHighestCSeq
        {
          a, i := referLatest, |all| - 1;
        }
      } else if referLatest != null && referLatest.registered {
        a, i := referLatest, |all| - 1;
      }
    }

    /** Ends the open attempt `a`, whose deadline has passed. */
    method EndOnItsBoundLocked(a: ReferAttempt, ghost i: nat)
      requires Wired() && i < |all| && all[i] == a && (a.registered ==> !a.done)
      modifies `referAttempts, `model, a
      ensures Wired() && model == Put(old(model), i, Expire(old(model).attempts[i]))
      ensures a.bound.Some? ==> a.bound.value.stopped
    {
      EndAndRetire(a, i, if a.notified then SubscriptionExpired else NoNotify);
    }

    method EndAndRetire(a: ReferAttempt, ghost i: nat, e: End)
      requires Wired() && i < |all| && all[i] == a && (a.registered ==> !a.done)
      modifies `referAttempts, `model, a
      ensures Wired() && model == Put(old(model), i, Retire(old(model).attempts[i].(end := e)))
      ensures a.bound.Some? ==> a.bound.value.stopped
    {
      hide Open, Lists, ReferAttempt.View, ReferAttempt.Timed;
      a.Fields();
      ghost var ended := Put(model, i, model.attempts[i].(end := e));
      OpenKept(model.attempts, i, ended.attempts[i]);
      a.SetEnd(e);
      a.Fields();
      model := ended;
      RetireReferAttempt(a, i);
    }

    method EndReferAttemptOnItsBound(a: ReferAttempt, ghost i: nat, armed: nat, ghost now: int)
      requires Valid() && i < |all| && all[i] == a && now >= model.clock
      requires 0 < armed <= |a.deadlines| && now >= a.deadlines[armed - 1]
      modifies this, a
      ensures Valid() && model == Step(t1, old(model), TimerFires(i, armed, now)) && all == old(all)
      ensures old(a.end) != NotEnded || old(a.boundArmed) != armed ==> referAttempts == old(referAttempts) && a.View() == old(a.View())
    {
      hide Open, Lists;
      StepKeeps(t1, model, TimerFires(i, armed, now));
      assert Good(t1, model.attempts[i], model.clock);
      hide Inv;
      model := model.(clock := now);
      if a.end != NotEnded || a.boundArmed != armed {
        return;
      }
      EndOnItsBoundLocked(a, i);
    }

    /** Only an attempt that has ended is retired. */
    method RetireEndedReferAttempt(a: ReferAttempt, ghost i: nat)
      requires Valid() && i < |all| && all[i] == a
      modifies this, a
      ensures Valid() && model == Step(t1, old(model), RetireEnded(i)) && all == old(all)
      ensures old(a.end) != NotEnded ==> a !in referAttempts && (a.bound.Some? ==> a.bound.value.stopped)
      ensures old(a.end) == NotEnded ==> referAttempts == old(referAttempts) && a.View() == old(a.View())
    {
      hide Open, Lists;
      StepKeeps(t1, model, RetireEnded(i));
      assert Good(t1, model.attempts[i], model.clock);
      hide Inv;
      if a.end != NotEnded {
        RetireReferAttempt(a, i);
        NotListed(i);
      }
    }

    /** An attempt that is not registered is not in the list. */
    lemma NotListed(i: nat)
      requires Wired() && i < |all| && !all[i].registered
      ensures all[i] !in referAttempts
    {
      hide Open;
      OpenIsRegistered(model.attempts);
      assert forall j :: 0 <= j < |referAttempts| ==> Open(model.attempts)[j] in Open(model.attempts);
    }

    /** Retires the attempt, whose REFER could not be carried, as it is. */
    method DropReferAttempt(a: ReferAttempt, ghost i: nat)
      requires Valid() && i < |all| && all[i] == a
      modifies this, a
      ensures Valid() && model == Step(t1, old(model), Drop(i)) && all == old(all)
      ensures a !in referAttempts && a.done && (a.bound.Some? ==> a.bound.value.stopped)
    {
      hide Open, Lists;
      StepKeeps(t1, model, Drop(i));
      assert Good(t1, model.attempts[i], model.clock);
      hide Inv;
      RetireReferAttempt(a, i);
      NotListed(i);
    }

    method FinishReferAttempt(a: ReferAttempt, ghost i: nat, e: End) returns (seen: Observation)
      requires Valid() && i < |all| && all[i] == a
      modifies this, a
      ensures Valid() && model == Step(t1, old(model), Finish(i, e)) && all == old(all)
      ensures seen == Observation(a.end, a.cseq, a.cseqKnown, a.notifies, a.dropped)
      ensures a !in referAttempts && a.end == if old(a.end) == NotEnded || e == Refused then e else old(a.end)
    {
      hide Open, Lists;
      StepKeeps(t1, model, Finish(i, e));
      assert Good(t1, model.attempts[i], model.clock);
      hide Inv;
      if a.end == NotEnded || e == Refused {
        EndAndRetire(a, i, e);
      } else {
        RetireReferAttempt(a, i);
      }
      NotListed(i);
      seen := Observation(a.end, a.cseq, a.cseqKnown, a.notifies, a.dropped);
    }

    /** Records `n` on the attempt it was routed to. */
    method RecordOnTarget(a: ReferAttempt, ghost i: nat, n: Notify, now: int)
      requires Wired() && i < |all| && all[i] == a && a.end == NotEnded && !Past(a.View(), now)
      requires a.notified ==> a.deadline.Some?
      modifies `model, a
      ensures Wired() && model == Put(old(model), i, RecordOn(t1, old(model).attempts[i], n, now))
    {
      hide Open, Lists, RecordOn, ReferAttempt.View, ReferAttempt.Timed;
      ghost var after := RecordOn(t1, model.attempts[i], n, now);
      RecordKeepsRegistered(t1, model.attempts[i], n, now);
      OpenKept(model.attempts, i, after);
      a.Observe(t1, n, now);
      model := Put(model, i, after);
    }

    /** Records `n` where it belongs and returns that attempt, or null. */
    method RecordReferNotify(n: Notify, now: int) returns (r: ReferAttempt?)
      requires Valid() && now >= model.clock
      modifies this, all
      ensures Valid() && model == Step(t1, old(model), Record(n, now)) && all == old(all)
      ensures r != null <==> RecordedOn(old(model), n, now).Some?
      ensures r != null ==> r == all[RecordedOn(old(model), n, now).value]
    {
      hide Open, Lists, Good, Target, RecordOn, Expire, ReferAttempt.View, ReferAttempt.Timed;
      StepKeeps(t1, model, Record(n, now));
      ghost var i;
      r, i := ReferNotifyTarget(n);
      if r == null {
        return;
      }
      r.Fields();
      if r.end != NotEnded {
        return null;
      }
      assert Good(t1, model.attempts[i], model.clock);
      GoodFacts(t1, model.attempts[i], model.clock);
      hide Inv;
      RecordOnPast(t1, model.attempts[i], n, now);
      model := model.(clock := now);
      if r.deadline.Some? && now >= r.deadline.value {
        EndOnItsBoundLocked(r, i);
        return null;
      }
      RecordOnTarget(r, i, n, now);
    }
  }

  lemma GoodFacts(t1: nat, a: Attempt, clock: int)
    requires Good(t1, a, clock)
    ensures a.registered ==> a.closes == 0
    ensures a.notified && a.end == NotEnded ==> a.deadline.Some?
  {
  }

  lemma StartIsAccepted(t1: nat, s: State, i: nat, now: int)
    requires i < |s.attempts| && now >= s.clock && s.attempts[i].accepted == None
    ensures Step(t1, s, Start(i, now)) == Put(s.(clock := now), i, Accepted(s.attempts[i], now, now + TimerN(t1)))
  {
  }

  lemma RecordKeepsRegistered(t1: nat, a: Attempt, n: Notify, now: int)
    requires !Past(a, now)
    ensures RecordOn(t1, a, n, now).registered == a.registered
  {
  }

  lemma RecordOnPast(t1: nat, a: Attempt, n: Notify, now: int)
    ensures Past(a, now) ==> RecordOn(t1, a, n, now) == Expire(a)
  {
  }
}
