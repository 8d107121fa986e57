/**
 * Starting and stopping the mix of a bridge (bridge.go). A join, a leave and a media update each
 * stop the mix, wait for its goroutines with the lock released, and start it again. Every event
 * below is one hold of the bridge's lock, one return from a wait, or the end of a goroutine.
 */
module BridgeMix {
  import opened Basics

  type Id = string

  const NO_CODEC := Codec("", 0, 0, 0, 0)

  predicate SameAudio(a: Codec, b: Codec) {
    a.sampleRate == b.sampleRate && a.sampleDur == b.sampleDur
  }

  datatype MixState = Idle | Mixing | Stopping

  /** What the bridge's lock guards. */
  datatype Bridge = Bridge(mixState: MixState, dialogs: seq<Id>, unhooks: set<Id>,
                           streamCodecs: Option<map<Id, Codec>>, mixCodec: Codec)

  datatype Config = Config(waitDialogsNum: int, poll: bool)

  /**
   * What a mixStart reads of its dialogs: each one's codec to choose the mix's audio, then its codec
   * again as its stream is set up. A re-INVITE may come between, and a stream may fail to set up.
   */
  datatype Readings = Readings(chosenFrom: map<Id, Codec>, streams: map<Id, Codec>) {
    function First(d: Id): Codec {
      if d in chosenFrom then chosenFrom[d] else NO_CODEC
    }

    predicate Mixable(d: Id, mix: Codec) {
      d in streams && SameAudio(streams[d], mix)
    }
  }

  // ---------- mixStart ----------

  function Members(dialogs: seq<Id>): set<Id> {
    set d | d in dialogs
  }

  predicate Distinct(dialogs: seq<Id>) {
    forall i, j :: 0 <= i < j < |dialogs| ==> dialogs[i] != dialogs[j]
  }

  /** The last mix's audio while a dialog still has it, else the first dialog's: always one a dialog has. */
  function Audio(last: Codec, dialogs: seq<Id>, r: Readings): (mix: Codec)
    requires dialogs != []
    ensures exists d :: d in dialogs && SameAudio(r.First(d), mix)
  {
    assert dialogs[0] in dialogs;
    if exists d :: d in dialogs && SameAudio(r.First(d), last) then last else r.First(dialogs[0])
  }

  function Mixed(dialogs: seq<Id>, r: Readings, mix: Codec): (kept: seq<Id>)
    ensures |kept| <= |dialogs|
    ensures forall d :: d in kept <==> d in dialogs && r.Mixable(d, mix)
    ensures Distinct(dialogs) ==> Distinct(kept)
  {
    if dialogs == [] then []
    else
      var last := dialogs[|dialogs| - 1];
      var kept := Mixed(dialogs[..|dialogs| - 1], r, mix);
      if r.Mixable(last, mix) then kept + [last] else kept
  }

  /** Unless a re-INVITE comes between the readings or a stream fails to set up, someone is mixed. */
  lemma SomeoneIsMixed(last: Codec, dialogs: seq<Id>, r: Readings)
    requires dialogs != [] && forall d :: d in dialogs ==> d in r.streams && r.streams[d] == r.First(d)
    ensures Mixed(dialogs, r, Audio(last, dialogs, r)) != []
  {
    var mix := Audio(last, dialogs, r);
    var d :| d in dialogs && SameAudio(r.First(d), mix);
    assert d in Mixed(dialogs, r, mix);
  }

  function StreamCodecs(kept: seq<Id>, r: Readings, mix: Codec): map<Id, Codec>
    requires forall d :: d in kept ==> r.Mixable(d, mix)
  {
    map d | d in kept :: assert r.Mixable(d, mix); r.streams[d]
  }

  /** The bridge once the dialogs that can not be mixed are out, with the mix started or not. */
  function Started(c: Config, b: Bridge, kept: seq<Id>, r: Readings, mix: Codec): Bridge
    requires forall d :: d in kept ==> r.Mixable(d, mix)
  {
    var b1 := b.(dialogs := kept, unhooks := b.unhooks - (Members(b.dialogs) - Members(kept)), streamCodecs := None);
    if kept == [] then b1.(mixCodec := NO_CODEC)
    else if |kept| < c.waitDialogsNum then b1
    else b1.(mixState := Mixing, streamCodecs := Some(StreamCodecs(kept, r, mix)), mixCodec := mix)
  }

  function AfterStart(c: Config, b: Bridge, r: Readings): Bridge {
    if b.mixState == Stopping then b
    else if b.dialogs == [] then b.(streamCodecs := None, mixCodec := NO_CODEC)
    else if |b.dialogs| < c.waitDialogsNum then b.(streamCodecs := None)
    else
      var mix := Audio(b.mixCodec, b.dialogs, r);
      Started(c, b, Mixed(b.dialogs, r, mix), r, mix)
  }

  /** The dialogs a mixStart took out. */
  function TakenOut(c: Config, b: Bridge, r: Readings): set<Id> {
    Members(b.dialogs) - Members(AfterStart(c, b, r).dialogs)
  }

  /** Dialogs are distinct, each with its hook and no other hook kept. */
  predicate Hooked(b: Bridge) {
    Distinct(b.dialogs) && b.unhooks == Members(b.dialogs)
  }

  /** The codecs of a mix are of exactly the dialogs, all at the mix's audio. */
  predicate Covered(c: Config, b: Bridge) {
    && (b.streamCodecs.Some? <==> |b.dialogs| >= Max(1, c.waitDialogsNum))
    && (b.streamCodecs.Some? ==>
          && b.streamCodecs.value.Keys == Members(b.dialogs)
          && forall d :: d in b.streamCodecs.value ==> SameAudio(b.streamCodecs.value[d], b.mixCodec))
    && (b.mixState == Mixing ==> b.streamCodecs.Some?)
    && (b.dialogs == [] ==> b.mixCodec == NO_CODEC)
  }

  lemma MixStartKeeps(c: Config, b: Bridge, r: Readings)
    requires Hooked(b) && b.mixState == Idle
    ensures var b' := AfterStart(c, b, r);
            && Hooked(b') && Covered(c, b') && b'.mixState != Stopping
            && Members(b'.dialogs) <= Members(b.dialogs)
            && (b'.mixState == Mixing <==> |b'.dialogs| >= Max(1, c.waitDialogsNum))
  {
    if b.dialogs != [] && |b.dialogs| >= c.waitDialogsNum {
      var mix := Audio(b.mixCodec, b.dialogs, r);
      var kept := Mixed(b.dialogs, r, mix);
      assert AfterStart(c, b, r).unhooks == Members(kept);
      assert kept != [] ==> StreamCodecs(kept, r, mix).Keys == Members(kept);
    }
  }

  // ---------- the three callers ----------

  datatype Call = Join(d: Id) | Leave(d: Id) | Updated(d: Id)

  datatype Result = Done | Refused

  /** Where a call is; `channel` is the stop it waits for or is making. */
  datatype Thread =
    | Waiting(call: Call, channel: nat)
    | Draining(call: Call, channel: nat, failed: bool)
    | Drained(call: Call, channel: nat, failed: bool)

  /**
   * `made` channels exist, numbered from 0; `closings` logs each close. `readers`, `loops` and
   * `ended` count the goroutines of mixWG: readers, loops, and loops past mixEnded. `halted` are
   * the dialogs whose reads a stop holds. `starts` logs, at each mixStart, how many goroutines
   * were alive and in which state the bridge was.
   */
  datatype State = State(bridge: Bridge, mixStopped: nat, made: nat, closings: seq<nat>, threads: map<nat, Thread>,
                         readers: nat, loops: nat, ended: nat, halted: set<Id>, starts: seq<(nat, MixState)>) {
    function Alive(): nat {
      readers + loops + ended
    }
  }

  datatype Event =
    | Calls(t: nat, call: Call, confirmed: bool, hasMedia: bool, codec: Codec, failed: bool)
    | Wakes(t: nat, failed: bool)
    | WaitReturns(t: nat)
    | Relocks(t: nat, failed: bool, readings: Readings)
    | ReaderEnds
    | MixEnded
    | LoopDone

  function Initial(): State {
    State(Bridge(Idle, [], {}, None, NO_CODEC), 0, 0, [], map[], 0, 0, 0, {}, [])
  }

  /** Whether a call goes on to stop the mix. */
  predicate Proceeds(b: Bridge, call: Call, confirmed: bool, hasMedia: bool, codec: Codec) {
    match call
    case Join(_) => confirmed && hasMedia
    case Leave(d) => d in b.dialogs
    case Updated(d) => b.streamCodecs.Some? && d in b.streamCodecs.value && codec != b.streamCodecs.value[d]
  }

  /** mixStopWait up to its first wait: another's stop is waited for, else this call makes one. */
  function Enter(s: State, t: nat, call: Call, failed: bool): State {
    if s.bridge.mixState == Stopping then s.(threads := s.threads[t := Waiting(call, s.mixStopped)])
    else
      s.(bridge := s.bridge.(mixState := Stopping), mixStopped := s.made, made := s.made + 1,
         threads := s.threads[t := Draining(call, s.made, failed)], halted := Members(s.bridge.dialogs))
  }

  /** The bridge a call leaves to mixStart, once its stop is over. */
  function Applied(b: Bridge, call: Call, failed: bool): Bridge {
    match call
    case Join(d) =>
      if failed || d in b.dialogs then b else b.(dialogs := b.dialogs + [d], unhooks := b.unhooks + {d})
    case Leave(d) =>
      if d in b.dialogs then b.(dialogs := Without(b.dialogs, d), unhooks := b.unhooks - {d}) else b
    case Updated(_) => b
  }

  function Without(dialogs: seq<Id>, d: Id): (rest: seq<Id>)
    ensures Distinct(dialogs) ==> Distinct(rest) && Members(rest) == Members(dialogs) - {d}
    ensures Members(rest) <= Members(dialogs)
  {
    if dialogs == [] then []
    else if dialogs[0] == d then
      assert Distinct(dialogs) ==> Members(dialogs[1..]) == Members(dialogs) - {d};
      dialogs[1..]
    else
      var rest := Without(dialogs[1..], d);
      assert Members(dialogs) == Members(dialogs[1..]) + {dialogs[0]};
      assert Members([dialogs[0]] + rest) == Members(rest) + {dialogs[0]};
      [dialogs[0]] + rest
  }

  /** What a join returns; a leave and a media update are never refused. */
  function Outcome(c: Config, b: Bridge, call: Call, failed: bool, r: Readings): Result {
    if call.Join? && (failed || call.d in b.dialogs || call.d in TakenOut(c, Applied(b, call, failed), r))
    then Refused
    else Done
  }

  /** Starting the mix adds its goroutines to mixWG. */
  function WithMix(c: Config, s: State, r: Readings): State {
    var b := AfterStart(c, s.bridge, r);
    var started := s.bridge.mixState != Mixing && b.mixState == Mixing;
    s.(bridge := b, starts := s.starts + [(s.Alive(), s.bridge.mixState)],
       loops := if started then s.loops + 1 else s.loops,
       readers := if started && c.poll then s.readers + |b.dialogs| else s.readers)
  }

  /** The rest of mixStopWait and of its caller, in one hold of the lock. */
  function Finish(c: Config, s: State, t: nat, failed: bool, r: Readings): State
    requires t in s.threads && s.threads[t].Drained?
  {
    var th := s.threads[t];
    var s1 := s.(bridge := Applied(s.bridge.(mixState := Idle), th.call, th.failed || failed),
                 closings := s.closings + [s.mixStopped], halted := s.halted - Members(s.bridge.dialogs),
                 threads := s.threads - {t});
    WithMix(c, s1, r)
  }

  function Step(c: Config, s: State, e: Event): State {
    match e {
      case Calls(t, call, confirmed, hasMedia, codec, failed) =>
        if t in s.threads || !Proceeds(s.bridge, call, confirmed, hasMedia, codec) then s
        else Enter(s, t, call, failed)
      case Wakes(t, failed) =>
        if t in s.threads && s.threads[t].Waiting? && s.threads[t].channel in s.closings
        then Enter(s, t, s.threads[t].call, failed)
        else s
      case WaitReturns(t) =>
        if t in s.threads && s.threads[t].Draining? && s.Alive() == 0
        then s.(threads := s.threads[t := Drained(s.threads[t].call, s.threads[t].channel, s.threads[t].failed)])
        else s
      case Relocks(t, failed, r) =>
        if t in s.threads && s.threads[t].Drained? then Finish(c, s, t, failed, r) else s
      case ReaderEnds =>
        if s.readers > 0 then s.(readers := s.readers - 1) else s
      case MixEnded =>
        if s.loops > 0
        then s.(loops := s.loops - 1, ended := s.ended + 1,
                bridge := if s.bridge.mixState == Mixing then s.bridge.(mixState := Idle) else s.bridge)
        else s
      case LoopDone =>
        if s.ended > 0 then s.(ended := s.ended - 1) else s
    }
  }

  function Run(c: Config, events: seq<Event>): State {
    if events == [] then Initial()
    else Step(c, Run(c, events[..|events| - 1]), events[|events| - 1])
  }

  // ---------- what every run keeps ----------

  predicate Stops(th: Thread) {
    th.Draining? || th.Drained?
  }

  /** While stopping, exactly one call is making the stop, on the current channel. */
  ghost predicate OneStopper(s: State) {
    && (forall t :: t in s.threads && Stops(s.threads[t]) ==>
          s.bridge.mixState == Stopping && s.threads[t].channel == s.mixStopped)
    && (forall t, u :: t in s.threads && u in s.threads && Stops(s.threads[t]) && Stops(s.threads[u]) ==> t == u)
    && (s.bridge.mixState == Stopping ==> exists t :: t in s.threads && Stops(s.threads[t]))
  }

  /** Every channel made is closed, once, but for the one of a stop in progress. */
  predicate Channels(s: State) {
    && (forall i, j :: 0 <= i < j < |s.closings| ==> s.closings[i] != s.closings[j])
    && (forall ch :: 0 <= ch < s.made ==> (ch in s.closings <==> !(s.bridge.mixState == Stopping && ch == s.mixStopped)))
    && (forall ch :: ch in s.closings ==> ch < s.made)
    && (s.bridge.mixState == Stopping ==> s.mixStopped < s.made)
    && (forall t :: t in s.threads ==> s.threads[t].channel < s.made)
  }

  /** A loop runs exactly while the bridge mixes or is being stopped, and a drained stop has none left. */
  predicate Counted(s: State) {
    && s.loops + s.ended <= 1
    && (s.bridge.mixState == Mixing ==> s.loops == 1)
    && (s.bridge.mixState == Idle ==> s.loops == 0)
    && (forall t :: t in s.threads && s.threads[t].Drained? ==> s.Alive() == 0)
    && (forall i :: 0 <= i < |s.starts| ==> s.starts[i] == (0, Idle))
  }

  /** Reads are held on exactly the dialogs of a stop in progress. */
  predicate ReadsHeld(s: State) {
    s.halted == if s.bridge.mixState == Stopping then Members(s.bridge.dialogs) else {}
  }

  ghost predicate Inv(c: Config, s: State) {
    Hooked(s.bridge) && Covered(c, s.bridge) && OneStopper(s) && Channels(s) && Counted(s) && ReadsHeld(s)
  }

  lemma AppliedKeeps(b: Bridge, call: Call, failed: bool)
    requires Hooked(b)
    ensures Hooked(Applied(b, call, failed)) && Applied(b, call, failed).mixState == b.mixState
  {
    if call.Join? && !failed && call.d !in b.dialogs {
      assert Members(b.dialogs + [call.d]) == Members(b.dialogs) + {call.d};
    }
  }

  lemma EnterKeeps(c: Config, s: State, t: nat, call: Call, failed: bool)
    requires Inv(c, s) && (t in s.threads ==> s.threads[t].Waiting?)
    ensures Inv(c, Enter(s, t, call, failed))
  {
    var s' := Enter(s, t, call, failed);
    assert t in s'.threads;
    if s.bridge.mixState == Stopping {
      var u :| u in s.threads && Stops(s.threads[u]);
      assert u in s'.threads && Stops(s'.threads[u]);
    }
  }

  lemma FinishKeepsBridge(c: Config, s: State, t: nat, failed: bool, r: Readings)
    requires Inv(c, s) && t in s.threads && s.threads[t].Drained?
    ensures var s' := Finish(c, s, t, failed, r);
            && Hooked(s'.bridge) && Covered(c, s'.bridge) && s'.bridge.mixState != Stopping
            && Counted(s') && ReadsHeld(s')
  {
    hide Mixed, Audio, Channels;
    var th := s.threads[t];
    var b := s.bridge.(mixState := Idle);
    assert Stops(th);
    AppliedKeeps(b, th.call, th.failed || failed);
    MixStartKeeps(c, Applied(b, th.call, th.failed || failed), r);
    hide AfterStart, Applied, Hooked, Covered;
    assert s.Alive() == 0;
  }

  lemma FinishKeepsStop(c: Config, s: State, t: nat, failed: bool, r: Readings)
    requires Inv(c, s) && t in s.threads && s.threads[t].Drained?
    requires Finish(c, s, t, failed, r).bridge.mixState != Stopping
    ensures var s' := Finish(c, s, t, failed, r); OneStopper(s') && Channels(s')
  {
    hide AfterStart, Applied, Hooked, Covered;
    var s' := Finish(c, s, t, failed, r);
    assert Stops(s.threads[t]) && s.mixStopped !in s.closings;
    assert s.mixStopped in s'.closings && forall ch :: ch in s.closings ==> ch in s'.closings;
  }

  lemma FinishKeeps(c: Config, s: State, t: nat, failed: bool, r: Readings)
    requires Inv(c, s) && t in s.threads && s.threads[t].Drained?
    ensures Inv(c, Finish(c, s, t, failed, r))
  {
    FinishKeepsBridge(c, s, t, failed, r);
    FinishKeepsStop(c, s, t, failed, r);
    hide Finish, Hooked, Covered, OneStopper, Channels, Counted, ReadsHeld;
  }

  lemma StepKeeps(c: Config, s: State, e: Event)
    requires Inv(c, s)
    ensures Inv(c, Step(c, s, e))
  {
    match e {
      case Calls(t, call, confirmed, hasMedia, codec, failed) =>
        if t !in s.threads {
          EnterKeeps(c, s, t, call, failed);
        }
      case Wakes(t, failed) =>
        if t in s.threads && s.threads[t].Waiting? {
          EnterKeeps(c, s, t, s.threads[t].call, failed);
        }
      case WaitReturns(t) =>
        var s' := Step(c, s, e);
        assert t in s.threads && Stops(s.threads[t]) ==> Stops(s'.threads[t]);
      case Relocks(t, failed, r) =>
        if t in s.threads && s.threads[t].Drained? {
          FinishKeeps(c, s, t, failed, r);
        }
      case _ =>
    }
  }

  lemma {:induction false} RunKeeps(c: Config, events: seq<Event>)
    ensures Inv(c, Run(c, events))
    decreases |events|
  {
    if events == [] {
    } else {
      RunKeeps(c, events[..|events| - 1]);
      StepKeeps(c, Run(c, events[..|events| - 1]), events[|events| - 1]);
    }
  }

  /**
   * Whenever a mix is started, no goroutine of an earlier one is alive and no stop is in progress,
   * so mixStart never takes its early return and never adds to mixWG under a waiting call.
   */
  lemma StartsAreClean(c: Config, events: seq<Event>)
    ensures forall i :: 0 <= i < |Run(c, events).starts| ==> Run(c, events).starts[i] == (0, Idle)
  {
    RunKeeps(c, events);
  }

  /** Each stop channel is closed exactly once, by the call that made it. */
  lemma StopsCloseOnce(c: Config, events: seq<Event>, ch: nat)
    requires ch < Run(c, events).made
    ensures var s := Run(c, events);
            && (forall i, j :: 0 <= i < |s.closings| && 0 <= j < |s.closings| && s.closings[i] == s.closings[j] == ch ==> i == j)
            && (ch !in s.closings <==> s.bridge.mixState == Stopping && s.mixStopped == ch)
            && (forall t :: t in s.threads && Stops(s.threads[t]) && s.threads[t].channel == ch ==>
                  ch !in s.closings && s.mixStopped == ch)
  {
    RunKeeps(c, events);
  }

  /** A call that waits for another's stop waits for one that is over or that a call is still making. */
  lemma NoCallWaitsForNothing(c: Config, events: seq<Event>, t: nat)
    requires t in Run(c, events).threads && Run(c, events).threads[t].Waiting?
    ensures var s := Run(c, events);
            var ch := s.threads[t].channel;
            ch in s.closings || exists u :: u in s.threads && Stops(s.threads[u]) && s.threads[u].channel == ch
  {
    RunKeeps(c, events);
  }

  /**
   * Dialogs stay distinct with hooks for exactly them; a running mix covers exactly them, all at its
   * sample rate and frame duration, and reads are held only while a stop is in progress.
   */
  lemma BridgeStaysWhole(c: Config, events: seq<Event>)
    ensures var s := Run(c, events);
            var b := s.bridge;
            && Distinct(b.dialogs) && b.unhooks == Members(b.dialogs)
            && (b.mixState == Mixing ==>
                  && b.streamCodecs.Some? && b.streamCodecs.value.Keys == Members(b.dialogs)
                  && forall d :: d in b.dialogs ==>
                       b.streamCodecs.value[d].sampleRate == b.mixCodec.sampleRate &&
                       b.streamCodecs.value[d].sampleDur == b.mixCodec.sampleDur)
            && (b.mixState != Stopping ==> s.halted == {})
  {
    RunKeeps(c, events);
    var b := Run(c, events).bridge;
    assert forall d :: d in b.dialogs ==> d in Members(b.dialogs);
  }

  /** streamCodecs is nil exactly while the dialogs are too few to mix, not whenever no mix runs. */
  lemma CodecsAreNilWhenTooFew(c: Config, events: seq<Event>)
    ensures Run(c, events).bridge.streamCodecs == None <==> |Run(c, events).bridge.dialogs| < Max(1, c.waitDialogsNum)
  {
    RunKeeps(c, events);
  }

  lemma MixedOne(d: Id, r: Readings, mix: Codec)
    requires r.Mixable(d, mix)
    ensures Mixed([d], r, mix) == [d] && StreamCodecs([d], r, mix) == map[d := r.streams[d]]
  {
    hide Distinct, SameAudio;
    assert [d][..0] == [];
    assert Mixed([], r, mix) == [];
  }

  /** Alone in an empty bridge, a dialog read the same twice is mixed with its codec. */
  lemma MixOfOne(d: Id, codec: Codec)
    ensures var b := AfterStart(Config(0, true), Bridge(Idle, [d], {d}, None, NO_CODEC), Readings(map[d := codec], map[d := codec]));
            b.streamCodecs == Some(map[d := codec]) && b.mixState == Mixing
  {
    hide Audio, Mixed, StreamCodecs;
    var r := Readings(map[d := codec], map[d := codec]);
    var mix := Audio(NO_CODEC, [d], r);
    var e :| e in [d] && SameAudio(r.First(e), mix);
    assert e == d && r.First(d) == codec;
    MixedOne(d, r, mix);
  }

  /** A loop that ends on its own leaves its streamCodecs behind. */
  lemma CodecsOutliveTheMix(d: Id, codec: Codec)
    ensures var r := Readings(map[d := codec], map[d := codec]);
            var events := [Calls(0, Join(d), true, true, codec, false), WaitReturns(0), Relocks(0, false, r), MixEnded];
            var b := Run(Config(0, true), events).bridge;
            b.mixState == Idle && b.streamCodecs == Some(map[d := codec])
  {
    hide AfterStart;
    var c := Config(0, true);
    var r := Readings(map[d := codec], map[d := codec]);
    var call, wait, relock := Calls(0, Join(d), true, true, codec, false), WaitReturns(0), Relocks(0, false, r);
    var events := [call, wait, relock, MixEnded];
    assert events[..3] == [call, wait, relock] && events[..3][..2] == [call, wait] && events[..3][..2][..1] == [call];
    assert Run(c, [call]) == Enter(Initial(), 0, Join(d), false);
    assert Run(c, [call, wait]).threads == map[0 := Drained(Join(d), 0, false)];
    MixOfOne(d, codec);
    assert [] + [d] == [d] && {} + {d} == {d};
    assert Run(c, [call, wait, relock]).bridge.mixState == Mixing;
  }

  /**
   * A join is accepted exactly when the dialog is in the bridge because of it, a leave always takes
   * its dialog out, and in every case the dialogs left are being mixed when they are enough.
   */
  lemma CallsEnd(c: Config, events: seq<Event>, t: nat, failed: bool, r: Readings)
    requires t in Run(c, events).threads && Run(c, events).threads[t].Drained?
    ensures var s := Run(c, events);
            var call := s.threads[t].call;
            var failing := s.threads[t].failed || failed;
            var b := Step(c, s, Relocks(t, failed, r)).bridge;
            && (call.Join? ==>
                  (Outcome(c, s.bridge.(mixState := Idle), call, failing, r) == Done <==>
                     !failing && call.d !in s.bridge.dialogs && call.d in b.dialogs))
            && (call.Join? && call.d in b.dialogs && call.d !in s.bridge.dialogs ==> !failing)
            && (call.Leave? ==> call.d !in b.dialogs)
            && Members(b.dialogs) <= Members(s.bridge.dialogs) + (if call.Join? then {call.d} else {})
            && (b.mixState == Mixing <==> |b.dialogs| >= Max(1, c.waitDialogsNum))
  {
    RunKeeps(c, events);
    var s := Run(c, events);
    var failing := s.threads[t].failed || failed;
    var b0 := s.bridge.(mixState := Idle);
    var b1 := Applied(b0, s.threads[t].call, failing);
    var b := Step(c, s, Relocks(t, failed, r)).bridge;
    AppliedKeeps(b0, s.threads[t].call, failing);
    MixStartKeeps(c, b1, r);
    assert b == AfterStart(c, b1, r);
    hide AfterStart, Run, Covered;
    assert forall d :: d in b.dialogs <==> d in Members(b.dialogs);
    assert forall d :: d in b1.dialogs <==> d in Members(b1.dialogs);
  }

  /**
   * Which calls stop the mix, in every run: a join of a confirmed dialog with media, a leave of a dialog
   * in the bridge, and an update of a mixed dialog whose codec is no longer the one it is mixed with. Such
   * a call makes the stop, or waits for one in progress; any other changes nothing.
   */
  lemma CallsThatStop(c: Config, events: seq<Event>, t: nat, call: Call, confirmed: bool, hasMedia: bool, codec: Codec, failed: bool)
    requires t !in Run(c, events).threads
    ensures var s := Run(c, events);
            var u := Step(c, s, Calls(t, call, confirmed, hasMedia, codec, failed));
            var stops := match call
              case Join(_) => confirmed && hasMedia
              case Leave(d) => d in s.bridge.dialogs
              case Updated(d) => s.bridge.streamCodecs.Some? && d in s.bridge.streamCodecs.value && s.bridge.streamCodecs.value[d] != codec;
            && (!stops ==> u == s)
            && (stops ==> u.bridge.mixState == Stopping && t in u.threads && u.threads[t].call == call)
            && (stops && s.bridge.mixState != Stopping ==>
                  u.threads[t] == Draining(call, u.mixStopped, failed) && u.mixStopped == s.made && u.halted == Members(s.bridge.dialogs))
            && (stops && s.bridge.mixState == Stopping ==> u.threads[t] == Waiting(call, s.mixStopped) && u.bridge == s.bridge)
  {
    RunKeeps(c, events);
    hide Run, OneStopper, Channels, Counted, ReadsHeld;
  }

  /** A restarted mix uses the codecs its streams were set up with, at the audio kept from the last mix while a dialog has it. */
  lemma RestartReadsAnew(c: Config, b: Bridge, r: Readings)
    requires Hooked(b) && b.mixState == Idle && AfterStart(c, b, r).mixState == Mixing
    ensures var b' := AfterStart(c, b, r);
            && b'.streamCodecs.Some? && b.dialogs != []
            && (forall d :: d in b'.dialogs ==> d in b'.streamCodecs.value && d in r.streams && b'.streamCodecs.value[d] == r.streams[d])
            && (forall d :: d in b'.dialogs <==>
                  (d in b.dialogs && d in r.streams &&
                   r.streams[d].sampleRate == b'.mixCodec.sampleRate && r.streams[d].sampleDur == b'.mixCodec.sampleDur))
            && ((exists d :: d in b.dialogs && SameAudio(r.First(d), b.mixCodec)) ==> b'.mixCodec == b.mixCodec)
            && ((forall d :: d in b.dialogs ==> !SameAudio(r.First(d), b.mixCodec)) ==> b'.mixCodec == r.First(b.dialogs[0]))
  {
    var mix := Audio(b.mixCodec, b.dialogs, r);
    var kept := Mixed(b.dialogs, r, mix);
    assert AfterStart(c, b, r) == Started(c, b, kept, r, mix);
    hide AfterStart, Mixed;
    assert forall d :: d in kept ==> r.Mixable(d, mix);
  }

  /**
   * Who is in the bridge once a call ends, in every run: a join adds its dialog and a leave takes out only
   * its own. Of those, once they are enough to mix, the ones whose stream was set up at the mix's audio stay.
   */
  lemma WhoStays(c: Config, events: seq<Event>, t: nat, failed: bool, r: Readings)
    requires t in Run(c, events).threads && Run(c, events).threads[t].Drained?
    ensures var s := Run(c, events);
            var call := s.threads[t].call;
            var failing := s.threads[t].failed || failed;
            var asked := Applied(s.bridge.(mixState := Idle), call, failing).dialogs;
            var b := Step(c, s, Relocks(t, failed, r)).bridge;
            && (forall d :: d in asked <==>
                  if call.Updated? || d != call.d then d in s.bridge.dialogs
                  else call.Join? && (d in s.bridge.dialogs || !failing))
            && (|asked| < Max(1, c.waitDialogsNum) ==> b.dialogs == asked)
            && (|asked| >= Max(1, c.waitDialogsNum) ==>
                  var mix := Audio(s.bridge.mixCodec, asked, r);
                  forall d :: d in b.dialogs <==>
                    (d in asked && d in r.streams && r.streams[d].sampleRate == mix.sampleRate && r.streams[d].sampleDur == mix.sampleDur))
  {
    hide Run, Applied, AfterStart, Mixed, Audio, Covered, Distinct;
    RunKeeps(c, events);
    var s := Run(c, events);
    var failing := s.threads[t].failed || failed;
    var b0 := s.bridge.(mixState := Idle);
    var b1 := Applied(b0, s.threads[t].call, failing);
    AppliedTakes(b0, s.threads[t].call, failing);
    AppliedKeeps(b0, s.threads[t].call, failing);
    StartStays(c, b1, r);
    assert Step(c, s, Relocks(t, failed, r)).bridge == AfterStart(c, b1, r);
  }

  lemma StartStays(c: Config, b: Bridge, r: Readings)
    requires b.mixState == Idle
    ensures var b' := AfterStart(c, b, r);
            && (|b.dialogs| < Max(1, c.waitDialogsNum) ==> b'.dialogs == b.dialogs)
            && (|b.dialogs| >= Max(1, c.waitDialogsNum) ==>
                  var mix := Audio(b.mixCodec, b.dialogs, r);
                  forall d :: d in b'.dialogs <==>
                    (d in b.dialogs && d in r.streams && r.streams[d].sampleRate == mix.sampleRate && r.streams[d].sampleDur == mix.sampleDur))
  {
    hide Mixed, Audio, Distinct;
  }

  lemma AppliedTakes(b: Bridge, call: Call, failed: bool)
    requires Hooked(b)
    ensures var asked := Applied(b, call, failed).dialogs;
            forall d :: d in asked <==>
              if call.Updated? || d != call.d then d in b.dialogs else call.Join? && (d in b.dialogs || !failed)
    ensures Applied(b, call, failed).mixCodec == b.mixCodec
  {
    var asked := Applied(b, call, failed).dialogs;
    assert forall d :: d in asked <==> d in Members(asked);
    assert forall d :: d in b.dialogs <==> d in Members(b.dialogs);
  }

  predicate IsEnding(e: Event) {
    e == ReaderEnds || e == MixEnded || e == LoopDone
  }

  lemma RunTakes(c: Config, events: seq<Event>, e: Event)
    ensures Run(c, events + [e]) == Step(c, Run(c, events), e)
  {
    assert (events + [e])[..|events|] == events;
  }

  /** A goroutine that is left, and the end of it. */
  function NextEnding(s: State): Event {
    if s.readers > 0 then ReaderEnds else if s.loops > 0 then MixEnded else LoopDone
  }

  function Remaining(s: State): nat {
    s.readers + 2 * s.loops + s.ended
  }

  lemma EndingStep(c: Config, s: State)
    requires s.bridge.mixState == Stopping && s.Alive() != 0
    ensures var u := Step(c, s, NextEnding(s));
            Remaining(u) < Remaining(s) && u.threads == s.threads && u.bridge == s.bridge && u.closings == s.closings
    ensures forall t :: t in s.threads && s.threads[t].Draining? ==> Step(c, s, WaitReturns(t)) == s
  {
  }

  lemma StopperStops(c: Config, events: seq<Event>, t: nat)
    requires t in Run(c, events).threads && Run(c, events).threads[t].Draining?
    ensures Run(c, events).bridge.mixState == Stopping
  {
    hide Run;
    RunKeeps(c, events);
    assert Stops(Run(c, events).threads[t]);
  }

  /** The goroutines of a mix being stopped end one by one until none is left; meanwhile the stop only waits. */
  lemma {:induction false} MixDrains(c: Config, events: seq<Event>, t: nat) returns (endings: seq<Event>)
    requires t in Run(c, events).threads && Run(c, events).threads[t].Draining?
    ensures forall e :: e in endings ==> IsEnding(e)
    ensures var s, u := Run(c, events), Run(c, events + endings);
            u.Alive() == 0 && u.threads == s.threads && u.bridge == s.bridge && u.closings == s.closings
    ensures var s := Run(c, events); s.Alive() != 0 ==> Step(c, s, WaitReturns(t)) == s
    decreases Remaining(Run(c, events))
  {
    hide Run, Step, Remaining;
    StopperStops(c, events, t);
    var s := Run(c, events);
    endings := [];
    if s.Alive() == 0 {
      assert events + endings == events;
    } else {
      EndingStep(c, s);
      var e := NextEnding(s);
      RunTakes(c, events, e);
      var rest := MixDrains(c, events + [e], t);
      endings := [e] + rest;
      assert events + endings == events + [e] + rest;
    }
  }

  /** So a stop can always be finished: its call ends, with its channel closed for those that wait for it. */
  lemma StopCanFinish(c: Config, events: seq<Event>, t: nat, r: Readings) returns (more: seq<Event>)
    requires t in Run(c, events).threads && Stops(Run(c, events).threads[t])
    ensures var s, u := Run(c, events), Run(c, events + more);
            && u.threads == s.threads - {t} && u.bridge.mixState != Stopping
            && u.closings == s.closings + [s.threads[t].channel]
  {
    RunKeeps(c, events);
    more := [];
    if Run(c, events).threads[t].Draining? {
      var endings := MixDrains(c, events, t);
      RunTakes(c, events + endings, WaitReturns(t));
      more := endings + [WaitReturns(t)];
      assert events + more == events + endings + [WaitReturns(t)];
    } else {
      assert events + more == events;
    }
    FinishEnds(c, events + more, t, r);
    RunTakes(c, events + more, Relocks(t, false, r));
    hide Run;
    assert events + more + [Relocks(t, false, r)] == events + (more + [Relocks(t, false, r)]);
    more := more + [Relocks(t, false, r)];
  }

  lemma FinishEnds(c: Config, events: seq<Event>, t: nat, r: Readings)
    requires t in Run(c, events).threads && Run(c, events).threads[t].Drained?
    ensures var s := Run(c, events);
            var u := Step(c, s, Relocks(t, false, r));
            && u.threads == s.threads - {t} && u.bridge.mixState != Stopping
            && u.closings == s.closings + [s.threads[t].channel]
  {
    RunKeeps(c, events);
    var s := Run(c, events);
    assert Stops(s.threads[t]);
    FinishKeepsBridge(c, s, t, false, r);
    hide Run, Hooked, Covered, Counted, ReadsHeld, AfterStart, Applied;
  }

  /** No call waits in vain: whatever stop it waits for, it can go on to make one of its own. */
  lemma WaiterCanGoOn(c: Config, events: seq<Event>, t: nat, r: Readings) returns (more: seq<Event>)
    requires t in Run(c, events).threads && Run(c, events).threads[t].Waiting?
    ensures var s, u := Run(c, events), Run(c, events + more);
            t in u.threads && u.threads[t].Draining? && u.threads[t].call == s.threads[t].call
  {
    RunKeeps(c, events);
    var s := Run(c, events);
    more := [];
    if s.bridge.mixState == Stopping {
      var u :| u in s.threads && Stops(s.threads[u]);
      more := StopCanFinish(c, events, u, r);
    } else {
      assert events + more == events;
    }
    RunTakes(c, events + more, Wakes(t, false));
    hide Run, Hooked, Covered, Counted, ReadsHeld;
    assert events + more + [Wakes(t, false)] == events + (more + [Wakes(t, false)]);
    more := more + [Wakes(t, false)];
  }

  /** A mix runs on one loop and, polling, one reader a dialog; each ends on its own. */
  lemma MixRunsOn(c: Config, s: State, r: Readings)
    requires s.bridge.mixState == Idle && s.Alive() == 0 && Hooked(s.bridge)
    ensures var t := WithMix(c, s, r);
            && (t.bridge.mixState == Mixing ==> t.loops == 1 && t.readers == if c.poll then |t.bridge.dialogs| else 0)
            && (t.bridge.mixState != Mixing ==> t.Alive() == 0)
  {
    MixStartKeeps(c, s.bridge, r);
    hide AfterStart;
  }

  // ---------- the bridge as an object ----------

  /** What starting or stopping reads on a dialog reports; a dialog that is not listed reports nothing. */
  datatype RtpOutcome = ConnectionClosed | Failed

  predicate Fails(d: Id, outcomes: map<Id, RtpOutcome>) {
    d in outcomes && outcomes[d] == Failed
  }

  predicate AnyFails(dialogs: seq<Id>, outcomes: map<Id, RtpOutcome>) {
    exists d :: d in dialogs && Fails(d, outcomes)
  }

  lemma GrowsByOne(dialogs: seq<Id>, i: nat, outcomes: map<Id, RtpOutcome>)
    requires i < |dialogs|
    ensures Members(dialogs[..i + 1]) == Members(dialogs[..i]) + {dialogs[i]}
    ensures AnyFails(dialogs[..i + 1], outcomes) == (AnyFails(dialogs[..i], outcomes) || Fails(dialogs[i], outcomes))
  {
    assert dialogs[..i + 1] == dialogs[..i] + [dialogs[i]];
    if Fails(dialogs[i], outcomes) {
      assert dialogs[i] in dialogs[..i + 1];
    }
  }

  class StopChannel {
    var closed: bool

    constructor ()
      ensures !closed
    {
      closed := false;
    }
  }

  /** BridgeMix; each method runs with the lock held. */
  class MixBridge {
    const config: Config
    var mixState: MixState
    var mixStopped: StopChannel?
    var dialogs: seq<Id>
    var unhooks: set<Id>
    var streamCodecs: Option<map<Id, Codec>>
    var mixCodec: Codec
    /** The dialogs whose reads are stopped. */
    var halted: set<Id>

    function View(): Bridge
      reads this
    {
      Bridge(mixState, dialogs, unhooks, streamCodecs, mixCodec)
    }

    constructor (config: Config)
      ensures this.config == config && View() == Initial().bridge && halted == {}
      ensures Hooked(View()) && Covered(config, View())
    {
      this.config, mixState, mixStopped := config, Idle, null;
      dialogs, unhooks, streamCodecs, mixCodec, halted := [], {}, None, NO_CODEC, {};
    }

    /** A loop that ended on its own leaves the bridge idle; one being stopped leaves it stopping. */
    method MixEnded()
      modifies `mixState
      ensures old(mixState) == Mixing ==> mixState == Idle
      ensures old(mixState) != Mixing ==> mixState == old(mixState)
    {
      if mixState == Mixing {
        mixState := Idle;
      }
    }

    /** Reads are stopped on every dialog, whatever one of them reports; a closed connection is no failure. */
    method MixStop(outcomes: map<Id, RtpOutcome>) returns (failed: bool)
      modifies `mixState, `mixStopped, `halted
      ensures View() == old(View()).(mixState := Stopping)
      ensures mixStopped != null && fresh(mixStopped) && !mixStopped.closed
      ensures halted == old(halted) + Members(dialogs)
      ensures failed <==> exists d :: d in dialogs && d in outcomes && outcomes[d] == Failed
    {
      mixState := Stopping;
      mixStopped := new StopChannel();
      failed := false;
      for i := 0 to |dialogs|
        invariant halted == old(halted) + Members(dialogs[..i]) && failed == AnyFails(dialogs[..i], outcomes)
        invariant View() == old(View()).(mixState := Stopping) && mixStopped != null && fresh(mixStopped) && !mixStopped.closed
      {
        GrowsByOne(dialogs, i, outcomes);
        halted := halted + {dialogs[i]};
        failed := failed || Fails(dialogs[i], outcomes);
      }
      assert dialogs[..|dialogs|] == dialogs;
    }

    /** The end of mixStopWait: reads start again on every dialog. Closing a closed channel would panic. */
    method StopOver(outcomes: map<Id, RtpOutcome>) returns (failed: bool)
      requires mixStopped != null && !mixStopped.closed
      modifies `mixState, `halted, mixStopped
      ensures View() == old(View()).(mixState := Idle)
      ensures mixStopped == old(mixStopped) && mixStopped.closed
      ensures halted == old(halted) - Members(dialogs)
      ensures failed <==> exists d :: d in dialogs && d in outcomes && outcomes[d] == Failed
    {
      mixState := Idle;
      mixStopped.closed := true;
      failed := false;
      for i := 0 to |dialogs|
        invariant halted == old(halted) - Members(dialogs[..i]) && failed == AnyFails(dialogs[..i], outcomes)
        invariant View() == old(View()).(mixState := Idle) && mixStopped == old(mixStopped) && mixStopped.closed
      {
        GrowsByOne(dialogs, i, outcomes);
        halted := halted - {dialogs[i]};
        failed := failed || Fails(dialogs[i], outcomes);
      }
      assert dialogs[..|dialogs|] == dialogs;
    }

    method UnhookUnsafe(d: Id)
      modifies `unhooks
      ensures unhooks == old(unhooks) - {d}
    {
      if d in unhooks {
        unhooks := unhooks - {d};
      }
    }

    /** Whether a dialog has the audio of the last mix. */
    method HasAudio(codecs: seq<Codec>, mix: Codec) returns (has: bool)
      ensures has <==> exists i :: 0 <= i < |codecs| && SameAudio(codecs[i], mix)
    {
      has := false;
      for i := 0 to |codecs|
        invariant !has ==> forall j :: 0 <= j < i ==> !SameAudio(codecs[j], mix)
      {
        if SameAudio(codecs[i], mix) {
          return true;
        }
      }
    }

    method ChooseAudio(r: Readings) returns (mix: Codec)
      requires dialogs != []
      ensures mix == Audio(mixCodec, dialogs, r)
    {
      var codecs := [];
      for i := 0 to |dialogs|
        invariant |codecs| == i && forall j :: 0 <= j < i ==> codecs[j] == r.First(dialogs[j])
      {
        codecs := codecs + [r.First(dialogs[i])];
      }
      mix := mixCodec;
      var has := HasAudio(codecs, mixCodec);
      if !has {
        mix := codecs[0];
      } else {
        var k :| 0 <= k < |codecs| && SameAudio(codecs[k], mixCodec);
        assert dialogs[k] in dialogs && SameAudio(r.First(dialogs[k]), mixCodec);
      }
    }

    /** Sets a stream up for each dialog that can be mixed. */
    method AddStreams(r: Readings, mix: Codec) returns (notMixed: set<Id>, codecs: map<Id, Codec>)
      ensures notMixed == Members(dialogs) - Members(Mixed(dialogs, r, mix))
      ensures forall d :: d in notMixed <==> d in dialogs && !r.Mixable(d, mix)
      ensures codecs == StreamCodecs(Mixed(dialogs, r, mix), r, mix)
    {
      notMixed, codecs := {}, map[];
      for i := 0 to |dialogs|
        invariant forall d :: d in notMixed <==> d in dialogs[..i] && !r.Mixable(d, mix)
        invariant forall d :: d in codecs <==> d in dialogs[..i] && r.Mixable(d, mix)
        invariant forall d :: d in codecs ==> codecs[d] == r.streams[d]
      {
        var d := dialogs[i];
        assert dialogs[..i + 1] == dialogs[..i] + [d];
        if r.Mixable(d, mix) {
          codecs := codecs[d := r.streams[d]];
        } else {
          notMixed := notMixed + {d};
        }
      }
      assert dialogs[..|dialogs|] == dialogs;
    }

    method UnhookAll(notMixed: set<Id>)
      modifies `unhooks
      ensures unhooks == old(unhooks) - notMixed
    {
      var ids := notMixed;
      while ids != {}
        invariant ids <= notMixed && unhooks == old(unhooks) - (notMixed - ids)
        decreases |ids|
      {
        var id :| id in ids;
        UnhookUnsafe(id);
        ids := ids - {id};
      }
    }

    /** The dialogs without those that can not be mixed. */
    method Remaining(notMixed: set<Id>, ghost r: Readings, ghost mix: Codec) returns (kept: seq<Id>)
      requires forall d :: d in dialogs ==> (d in notMixed <==> !r.Mixable(d, mix))
      ensures kept == Mixed(dialogs, r, mix)
    {
      hide Distinct;
      kept := [];
      for i := 0 to |dialogs|
        invariant kept == Mixed(dialogs[..i], r, mix)
      {
        assert dialogs[..i + 1][..i] == dialogs[..i] && dialogs[i] in dialogs;
        if dialogs[i] !in notMixed {
          kept := kept + [dialogs[i]];
        }
      }
      assert dialogs[..|dialogs|] == dialogs;
    }

    method MixStart(r: Readings) returns (notMixed: set<Id>)
      requires Hooked(View())
      modifies this
      ensures View() == AfterStart(config, old(View()), r) && mixStopped == old(mixStopped) && halted == old(halted)
      ensures notMixed == TakenOut(config, old(View()), r)
    {
      hide Mixed, Audio, StreamCodecs, Distinct, SameAudio;
      notMixed := {};
      if mixState == Stopping {
        return;
      }
      streamCodecs := None;
      if |dialogs| < 1 {
        mixCodec := NO_CODEC;
        return;
      }
      if |dialogs| < config.waitDialogsNum {
        return;
      }
      var mix := ChooseAudio(r);
      var codecs;
      notMixed, codecs := AddStreams(r, mix);
      UnhookAll(notMixed);
      dialogs := Remaining(notMixed, r, mix);
      if |dialogs| < 1 {
        mixCodec := NO_CODEC;
        return;
      }
      if |dialogs| < config.waitDialogsNum {
        return;
      }
      mixCodec, streamCodecs, mixState := mix, Some(codecs), Mixing;
    }

    /** AddDialogSession once the mix has stopped. */
    method JoinStopped(d: Id, failed: bool, r: Readings) returns (result: Result)
      requires Hooked(View()) && mixState == Idle
      modifies this
      ensures View() == AfterStart(config, Applied(old(View()), Join(d), failed), r)
      ensures result == Outcome(config, old(View()), Join(d), failed, r)
      ensures Hooked(View()) && Covered(config, View())
    {
      ghost var b := View();
      AppliedKeeps(b, Join(d), failed);
      MixStartKeeps(config, Applied(b, Join(d), failed), r);
      if failed || d in dialogs {
        var _ := MixStart(r);
        return Refused;
      }
      dialogs, unhooks := dialogs + [d], unhooks + {d};
      var notMixed := MixStart(r);
      return if d in notMixed then Refused else Done;
    }

    /** RemoveDialogSession once the mix has stopped, whether or not stopping failed. */
    method LeaveStopped(d: Id, r: Readings)
      requires Hooked(View()) && mixState == Idle
      modifies this
      ensures View() == AfterStart(config, Applied(old(View()), Leave(d), false), r)
      ensures Hooked(View()) && Covered(config, View()) && d !in dialogs
    {
      ghost var b := View();
      AppliedKeeps(b, Leave(d), false);
      MixStartKeeps(config, Applied(b, Leave(d), false), r);
      var i := 0;
      while i < |dialogs| && dialogs[i] != d
        invariant i <= |dialogs| && d !in dialogs[..i] && View() == b
      {
        i := i + 1;
      }
      if i < |dialogs| {
        WithoutIsCut(dialogs, d, i);
        dialogs := dialogs[..i] + dialogs[i + 1..];
        UnhookUnsafe(d);
      }
      assert View() == Applied(b, Leave(d), false);
      var _ := MixStart(r);
      assert d !in Members(dialogs);
    }

    /** mediaUpdated up to its stop: only a changed codec of a mixed dialog restarts the mix. */
    method RestartNeeded(d: Id, codec: Codec) returns (restart: bool)
      ensures restart == Proceeds(View(), Updated(d), true, true, codec)
    {
      if streamCodecs == None || d !in streamCodecs.value {
        return false;
      }
      return codec != streamCodecs.value[d];
    }
  }

  lemma {:induction false} WithoutIsCut(dialogs: seq<Id>, d: Id, i: nat)
    requires i < |dialogs| && dialogs[i] == d && d !in dialogs[..i]
    ensures Without(dialogs, d) == dialogs[..i] + dialogs[i + 1..]
    decreases i
  {
    if i == 0 {
    } else {
      assert dialogs[..i][0] == dialogs[0];
      assert dialogs[1..][..i - 1] == dialogs[..i][1..];
      WithoutIsCut(dialogs[1..], d, i - 1);
    }
  }
}
