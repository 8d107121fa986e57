/**
 * The DTLS association of a media session through offers and answers (media/media_session.go;
 * sections 3.1, 5.1, 5.3 and 5.5 of RFC 8842), without ICE and without role overrides. SDP is a
 * record, and a handshake that is run completes.
 */
module Dtls {
  import opened Basics

  type Address = nat
  type TlsId = nat

  /** No a=tls-id */
  const NO_ID: TlsId := 0

  datatype Setup = Absent | Active | Passive | ActPass

  /** dtlsAssociation: what a completed handshake was built with; `setup` is never actpass. */
  datatype Association = Association(setup: Setup, localPrints: set<nat>, remotePrints: set<nat>,
                                     remoteId: TlsId, localId: TlsId, laddr: Address, raddr: Address)

  datatype Sdp = Sdp(setup: Setup, prints: set<nat>, id: TlsId, address: Address)

  /** `armed` is the association the armed handshake completes. */
  datatype Session = Session(laddr: Address, raddr: Address, prints: set<nat>, localId: TlsId,
                             remoteSeen: bool, remoteIsAnswer: bool, remoteSetup: Setup, remoteId: TlsId,
                             assoc: Option<Association>, armed: Option<Association>)

  datatype Result<+T> = Ok(value: T) | Refused

  function NewSession(laddr: Address, prints: set<nat>): Session {
    Session(laddr, 0, prints, NO_ID, false, false, Absent, NO_ID, None, None)
  }

  predicate AnsweringOffer(s: Session) {
    s.remoteSeen && !s.remoteIsAnswer
  }

  /** localDTLSSetup */
  function LocalSetup(s: Session): Setup {
    match s.remoteSetup
    case Active => Passive
    case Passive => Active
    case ActPass => Active
    case Absent => if AnsweringOffer(s) then Active else ActPass
  }

  predicate ActsAsClient(s: Session) {
    LocalSetup(s) == Active
  }

  function Fork(s: Session): Session {
    s.(raddr := 0, remoteSeen := false, remoteSetup := Absent, remoteId := NO_ID, armed := None)
  }

  /** The role facing `setup`, none for actpass. */
  function RoleAgainst(setup: Setup): Setup {
    match setup
    case Active => Passive
    case Passive => Active
    case _ => Absent
  }

  /** changedBy */
  predicate ChangedBy(a: Association, s: Session, sdp: Sdp) {
    || (RoleAgainst(sdp.setup) != Absent && RoleAgainst(sdp.setup) != a.setup)
    || sdp.prints != a.remotePrints
    || s.prints != a.localPrints
    || (sdp.id != NO_ID && sdp.id != a.remoteId)
    || s.laddr != a.laddr
    || (sdp.id == NO_ID && s.raddr != a.raddr)
  }

  /** localChangedBy */
  predicate LocalChangedBy(a: Association, s: Session) {
    s.prints != a.localPrints || s.laddr != a.laddr
  }

  /** newAnswerTLSID */
  function NewAnswerId(s: Session, remoteId: TlsId, newId: TlsId): Session {
    if s.remoteIsAnswer then s
    else s.(localId := if remoteId != NO_ID then newId else NO_ID)
  }

  /** The session localSDPTLSID leaves; an offer carries its localId. */
  function OfferId(s: Session, newId: TlsId): Session {
    if s.assoc.Some? && !LocalChangedBy(s.assoc.value, s) then s.(localId := s.assoc.value.localId)
    else if (s.assoc.Some? && s.localId == s.assoc.value.localId) || (s.assoc == None && s.localId == NO_ID) then
      s.(localId := newId)
    else s
  }

  function LocalSdp(s: Session, newId: TlsId): (Session, Sdp) {
    if AnsweringOffer(s) then
      var setup := if s.assoc.Some? then s.assoc.value.setup else LocalSetup(s);
      (s, Sdp(setup, s.prints, if s.remoteId == NO_ID then NO_ID else s.localId, s.laddr))
    else
      var t := OfferId(s, newId);
      (t, Sdp(LocalSetup(s), s.prints, t.localId, s.laddr))
  }

  /** armDTLSHandshake */
  function Arm(s: Session, sdp: Sdp): Session {
    s.(armed := Some(Association(if ActsAsClient(s) then Active else Passive, s.prints, sdp.prints,
                                 sdp.id, s.localId, s.laddr, s.raddr)))
  }

  /** negotiateDTLSAssociation; `newAddress` is where createListeners binds. */
  function Negotiate(s: Session, sdp: Sdp, newId: TlsId, newAddress: Address): Result<Session> {
    if s.assoc == None then Ok(Arm(NewAnswerId(s, sdp.id, newId), sdp))
    else if !ChangedBy(s.assoc.value, s, sdp) then Ok(s)
    else if s.laddr == s.assoc.value.laddr && s.remoteIsAnswer then Refused
    else
      var moved := if s.laddr == s.assoc.value.laddr then s.(laddr := newAddress) else s;
      Ok(Arm(NewAnswerId(moved.(assoc := None), sdp.id, newId), sdp))
  }

  /** The DTLS part of RemoteSDP */
  function RemoteSdp(s: Session, sdp: Sdp, newId: TlsId, newAddress: Address): Result<Session> {
    if sdp.prints == {} || sdp.setup == Absent then Refused
    else
      Negotiate(s.(remoteSeen := true, raddr := sdp.address, remoteSetup := sdp.setup, remoteId := sdp.id),
                sdp, newId, newAddress)
  }

  /** Runs the handshake that is armed, if any. */
  function Finalize(s: Session): Session {
    if s.armed.Some? then s.(assoc := s.armed, armed := None) else s
  }

  /**
   * One offer and answer: where the offerer moves to, if it does, the certificates each presents
   * from now on, the tls-ids drawn and the address the answerer binds if it needs one.
   */
  datatype Round = Round(moveTo: Option<Address>, offererPrints: set<nat>, answererPrints: set<nat>,
                         offerId: TlsId, answerId: TlsId, answererAddress: Address)

  /** Both sessions once the handshakes have run, and which of them started a new association. */
  datatype Outcome = Outcome(offerer: Session, answerer: Session, offererReplaced: bool, answererReplaced: bool)

  function Exchange(offerer: Session, answerer: Session, r: Round): Result<Outcome> {
    var o := Fork(offerer).(prints := r.offererPrints, laddr := if r.moveTo.Some? then r.moveTo.value else offerer.laddr);
    var (o1, offer) := LocalSdp(o, r.offerId);
    var a := Fork(answerer).(remoteIsAnswer := false, prints := r.answererPrints);
    match RemoteSdp(a, offer, r.answerId, r.answererAddress)
    case Refused => Refused
    case Ok(a1) =>
      var (a2, answer) := LocalSdp(a1, r.answerId);
      match RemoteSdp(o1.(remoteIsAnswer := true), answer, r.offerId, r.answererAddress)
      case Refused => Refused
      case Ok(o2) => Ok(Outcome(Finalize(o2), Finalize(a2), o2.armed.Some?, a2.armed.Some?))
  }

  // ---------- two endpoints ----------

  /** One endpoint's record describes the association from its own side. */
  predicate OwnRecord(s: Session) {
    s.assoc.Some? &&
    s.assoc.value.localId == s.localId != NO_ID && s.assoc.value.localPrints == s.prints &&
    s.assoc.value.laddr == s.laddr
  }

  /** Two records describe one association, with complementary roles. */
  predicate Mirrored(a: Association, b: Association) {
    && a.setup in {Active, Passive} && b.setup == RoleAgainst(a.setup)
    && a.remoteId == b.localId && b.remoteId == a.localId
    && a.remotePrints == b.localPrints && b.remotePrints == a.localPrints
  }

  /** Neither has an association yet, or both hold the same one. */
  predicate Paired(x: Session, y: Session) {
    && x.prints != {} && y.prints != {} && x.armed == None && y.armed == None
    && (if x.assoc == None then y.assoc == None && x.localId == NO_ID && y.localId == NO_ID
        else OwnRecord(x) && OwnRecord(y) && Mirrored(x.assoc.value, y.assoc.value))
  }

  /** New tls-ids are new to both, and new sockets are not the ones still bound. */
  predicate Fresh(x: Session, y: Session, r: Round) {
    && r.offererPrints != {} && r.answererPrints != {}
    && r.offerId != NO_ID && r.offerId != x.localId && r.offerId != y.localId
    && r.answerId != NO_ID && r.answerId != x.localId && r.answerId != y.localId && r.answerId != r.offerId
    && (r.moveTo.Some? ==> r.moveTo.value != x.laddr)
    && r.answererAddress != y.laddr
  }

  predicate Continues(x: Session, y: Session, r: Round) {
    x.assoc.Some? && r.moveTo == None && r.offererPrints == x.prints && r.answererPrints == y.prints
  }

  /** An offer on the sockets of the current association cannot start a new one. */
  predicate Completes(x: Session, y: Session, r: Round) {
    x.assoc == None || r.moveTo.Some? || (r.offererPrints == x.prints && r.answererPrints == y.prints)
  }

  /**
   * An exchange completes exactly when it has no association to replace, the offerer moved, or no
   * certificate changed. Then both sides take the same decision, both records describe the same
   * association with complementary roles, a continued one keeps its roles and a new one has
   * the answerer as its client.
   */
  lemma BothAgree(x: Session, y: Session, r: Round)
    requires Paired(x, y) && Fresh(x, y, r)
    ensures var e := Exchange(x, y, r);
            && (e.Ok? <==> Completes(x, y, r))
            && (e.Ok? ==>
                  && e.value.offererReplaced == e.value.answererReplaced == !Continues(x, y, r)
                  && Paired(e.value.offerer, e.value.answerer)
                  && e.value.offerer.assoc.Some?
                  && e.value.offerer.prints == r.offererPrints && e.value.answerer.prints == r.answererPrints
                  && (Continues(x, y, r) ==> e.value.offerer.assoc == x.assoc && e.value.answerer.assoc == y.assoc)
                  && (!Continues(x, y, r) ==>
                        e.value.offerer.assoc.value.setup == Passive && e.value.answerer.assoc.value.setup == Active))
  {
  }

  datatype Pair = Pair(left: Session, right: Session)
  datatype Turn = Turn(fromLeft: bool, round: Round)

  function Offerer(p: Pair, t: Turn): Session {
    if t.fromLeft then p.left else p.right
  }

  function Answerer(p: Pair, t: Turn): Session {
    if t.fromLeft then p.right else p.left
  }

  function Step(p: Pair, t: Turn): Pair {
    match Exchange(Offerer(p, t), Answerer(p, t), t.round)
    case Refused => p
    case Ok(e) => if t.fromLeft then Pair(e.offerer, e.answerer) else Pair(e.answerer, e.offerer)
  }

  /** Whether the turn's answer is taken; one that is not ends the call. */
  predicate Taken(p: Pair, t: Turn) {
    Exchange(Offerer(p, t), Answerer(p, t), t.round).Ok?
  }

  predicate AllFresh(p: Pair, turns: seq<Turn>)
    decreases |turns|
  {
    turns == [] ||
    (Fresh(Offerer(p, turns[0]), Answerer(p, turns[0]), turns[0].round) &&
     (Taken(p, turns[0]) ==> AllFresh(Step(p, turns[0]), turns[1..])))
  }

  /** The pair after the turns, or as the first turn that is not taken finds it. */
  function Run(p: Pair, turns: seq<Turn>): Pair
    decreases |turns|
  {
    if turns == [] || !Taken(p, turns[0]) then p else Run(Step(p, turns[0]), turns[1..])
  }

  /** The two sides are alike: which one offers decides only who is the offerer. */
  lemma SidesAreAlike(p: Pair, t: Turn)
    ensures var q := Step(Pair(p.right, p.left), t.(fromLeft := !t.fromLeft)); Step(p, t) == Pair(q.right, q.left)
    ensures Run(p, [t]) == Step(p, t)
  {
    hide Exchange;
    assert Run(Step(p, t), []) == Step(p, t);
  }

  lemma MirrorBack(a: Association, b: Association)
    requires Mirrored(a, b)
    ensures Mirrored(b, a)
  {
  }

  lemma PairedBack(x: Session, y: Session)
    requires Paired(x, y)
    ensures Paired(y, x)
  {
    if x.assoc.Some? {
      MirrorBack(x.assoc.value, y.assoc.value);
    }
  }

  lemma StepPaired(p: Pair, t: Turn)
    requires Paired(p.left, p.right) && Fresh(Offerer(p, t), Answerer(p, t), t.round)
    ensures Paired(Step(p, t).left, Step(p, t).right) && Paired(Offerer(p, t), Answerer(p, t))
  {
    hide Exchange;
    PairedBack(p.left, p.right);
    BothAgree(Offerer(p, t), Answerer(p, t), t.round);
    var e := Exchange(Offerer(p, t), Answerer(p, t), t.round);
    if e.Ok? {
      PairedBack(e.value.offerer, e.value.answerer);
    }
  }

  /** What one turn of a run promises its two endpoints. */
  predicate TurnAgrees(p: Pair, t: Turn) {
    var x, y := Offerer(p, t), Answerer(p, t);
    var e := Exchange(x, y, t.round);
    && (e.Ok? <==> Completes(x, y, t.round))
    && (e.Ok? ==>
          && e.value.offererReplaced == e.value.answererReplaced == !Continues(x, y, t.round)
          && e.value.offerer.assoc.Some? && e.value.answerer.assoc.Some?
          && e.value.offerer.assoc.value.setup in {Active, Passive}
          && e.value.answerer.assoc.value.setup == RoleAgainst(e.value.offerer.assoc.value.setup)
          && (Continues(x, y, t.round) ==> e.value.offerer.assoc == x.assoc && e.value.answerer.assoc == y.assoc))
  }

  predicate EveryTurnAgrees(p: Pair, turns: seq<Turn>)
    decreases |turns|
  {
    turns == [] ||
    (TurnAgrees(p, turns[0]) && (Taken(p, turns[0]) ==> EveryTurnAgrees(Step(p, turns[0]), turns[1..])))
  }

  /**
   * However the two endpoints re-offer, on the same or on moved sockets and with whatever
   * certificates, they agree in every turn on whether the association continues or is replaced,
   * hold complementary roles, and a turn fails, ending the call, exactly when Completes says so.
   */
  lemma {:induction false} RunAgrees(p: Pair, turns: seq<Turn>)
    requires Paired(p.left, p.right) && AllFresh(p, turns)
    ensures EveryTurnAgrees(p, turns) && Paired(Run(p, turns).left, Run(p, turns).right)
    decreases |turns|
  {
    if turns == [] {
    } else {
      hide Exchange, Paired;
      StepPaired(p, turns[0]);
      BothAgreeTurn(p, turns[0]);
      if Taken(p, turns[0]) {
        RunAgrees(Step(p, turns[0]), turns[1..]);
      }
    }
  }

  lemma BothAgreeTurn(p: Pair, t: Turn)
    requires Paired(Offerer(p, t), Answerer(p, t)) && Fresh(Offerer(p, t), Answerer(p, t), t.round)
    ensures TurnAgrees(p, t)
  {
    hide Exchange;
    BothAgree(Offerer(p, t), Answerer(p, t), t.round);
  }

  /** Every turn presents the certificates its endpoint has. */
  predicate SteadyCertificates(p: Pair, turns: seq<Turn>)
    decreases |turns|
  {
    turns == [] ||
    (turns[0].round.offererPrints == Offerer(p, turns[0]).prints &&
     turns[0].round.answererPrints == Answerer(p, turns[0]).prints &&
     (Taken(p, turns[0]) ==> SteadyCertificates(Step(p, turns[0]), turns[1..])))
  }

  predicate EveryTurnCompletes(p: Pair, turns: seq<Turn>)
    decreases |turns|
  {
    turns == [] ||
    (Taken(p, turns[0]) &&
     EveryTurnCompletes(Step(p, turns[0]), turns[1..]))
  }

  /** Between two endpoints that keep their certificates no re-offer ever fails. */
  lemma {:induction false} SteadyRunCompletes(p: Pair, turns: seq<Turn>)
    requires Paired(p.left, p.right) && AllFresh(p, turns) && SteadyCertificates(p, turns)
    ensures EveryTurnCompletes(p, turns)
    decreases |turns|
  {
    if turns == [] {
    } else {
      hide Exchange, Paired;
      StepPaired(p, turns[0]);
      BothAgreeTurn(p, turns[0]);
      SteadyRunCompletes(Step(p, turns[0]), turns[1..]);
    }
  }

  /** Two new sessions are paired: the first exchange of a call is one of these turns too. */
  lemma NewSessionsPaired(a: Address, b: Address, prints: set<nat>, others: set<nat>)
    requires prints != {} && others != {}
    ensures Paired(NewSession(a, prints), NewSession(b, others))
  {
  }

  /** A certificate changed on the sockets of the association: the offerer refuses the answer. */
  lemma ChangedCertificateIsRefused()
    ensures var p := Pair(NewSession(1, {1}), NewSession(2, {2}));
            var q := Step(p, Turn(true, Round(None, {1}, {2}, 11, 12, 3)));
            && q.left.assoc.Some? && q.left.laddr == 1
            && Exchange(q.left, q.right, Round(None, {5}, {2}, 13, 14, 4)) == Refused
  {
    var x, y := NewSession(1, {1}), NewSession(2, {2});
    var first, second := Round(None, {1}, {2}, 11, 12, 3), Round(None, {5}, {2}, 13, 14, 4);
    BothAgree(x, y, first);
    var e := Exchange(x, y, first).value;
    assert 1 in x.prints && 1 !in second.offererPrints;
    BothAgree(e.offerer, e.answerer, second);
  }

  /** An offer made again, as after a 491, carries the tls-id it carried before. */
  lemma OfferedAgain(s: Session, first: TlsId, second: TlsId)
    requires !AnsweringOffer(s) && first != NO_ID
    requires s.assoc.Some? ==> first != s.assoc.value.localId
    ensures LocalSdp(LocalSdp(s, first).0, second) == LocalSdp(s, first)
  {
  }

  /** A fork keeps the association, its sockets, certificate and tls-id, and forgets what the peer last described. */
  lemma ForkForgetsThePeer(s: Session, laddr: Address, prints: set<nat>)
    ensures var f := Fork(s);
            && f.assoc == s.assoc && f.laddr == s.laddr && f.prints == s.prints && f.localId == s.localId
            && !f.remoteSeen && f.remoteSetup == Absent && f.remoteId == NO_ID && f.raddr == 0 && f.armed == None
    ensures Fork(NewSession(laddr, prints)) == NewSession(laddr, prints)
  {
  }

  // ---------- one endpoint, with any peer ----------

  /** A description is refused without a fingerprint to check the peer's certificate against, or without a role. */
  lemma NeedsFingerprintAndSetup(s: Session, sdp: Sdp, newId: TlsId, newAddress: Address)
    ensures RemoteSdp(s, sdp, newId, newAddress).Ok? ==> sdp.prints != {} && sdp.setup != Absent
    ensures sdp.prints == {} || sdp.setup == Absent ==> RemoteSdp(s, sdp, newId, newAddress) == Refused
  {
  }

  /** The association a description arms is checked against that very description, in the role facing it. */
  lemma ArmsWhatIsDescribed(s: Session, sdp: Sdp, newId: TlsId, newAddress: Address)
    requires s.armed == None
    ensures var r := RemoteSdp(s, sdp, newId, newAddress);
            r.Ok? && r.value.armed.Some? ==>
              var a := r.value.armed.value;
              && a.remotePrints == sdp.prints && a.remoteId == sdp.id && a.raddr == sdp.address
              && a.localPrints == s.prints && a.localId == r.value.localId && a.laddr == r.value.laddr
              && a.setup == (if sdp.setup == Active then Passive else Active)
              && a.localId == (if s.remoteIsAnswer then s.localId else if sdp.id == NO_ID then NO_ID else newId)
              && r.value.assoc == None && (s.assoc.Some? && newAddress != s.assoc.value.laddr ==> a.laddr != s.assoc.value.laddr)
  {
  }

  /**
   * With any peer a running association continues exactly when the role it has is not reversed, neither
   * certificate nor our address changed, and the peer's tls-id, or its address when it sends none, is
   * the association's. Otherwise a new one is armed, or the answer on the old sockets refused.
   */
  lemma ContinuesExactlyWhen(s: Session, sdp: Sdp, newId: TlsId, newAddress: Address)
    requires s.assoc.Some? && s.armed == None && sdp.prints != {} && sdp.setup != Absent
    requires s.assoc.value.setup in {Active, Passive}
    ensures var a, r := s.assoc.value, RemoteSdp(s, sdp, newId, newAddress);
            var same := && sdp.setup != a.setup && sdp.prints == a.remotePrints && s.prints == a.localPrints && s.laddr == a.laddr
                        && (if sdp.id != NO_ID then sdp.id == a.remoteId else sdp.address == a.raddr);
            && (same ==> r.Ok? && r.value.assoc == s.assoc && r.value.armed == None && r.value.laddr == s.laddr)
            && (!same ==> (r == Refused <==> s.laddr == a.laddr && s.remoteIsAnswer))
            && (!same && r.Ok? ==> r.value.assoc == None && r.value.armed.Some? &&
                                   r.value.laddr == if s.laddr == a.laddr then newAddress else s.laddr)
  {
  }

  /** An answer carries a tls-id exactly when the offer did. */
  lemma AnswerCarriesIdWhenAsked(s: Session, sdp: Sdp, newId: TlsId, newAddress: Address)
    requires !s.remoteIsAnswer && newId != NO_ID && s.armed == None && (s.assoc.Some? ==> s.localId != NO_ID)
    requires RemoteSdp(s, sdp, newId, newAddress).Ok?
    ensures var (t, answer) := LocalSdp(RemoteSdp(s, sdp, newId, newAddress).value, newId);
            && (answer.id == NO_ID <==> sdp.id == NO_ID)
            && answer.prints == s.prints && answer.address == t.laddr
            && (t.assoc == None ==> answer.setup == if sdp.setup == Active then Passive else Active)
            && (t.assoc.Some? ==> answer.setup == t.assoc.value.setup)
  {
  }

  /** An offer leaves the peer the role, and a moved or recertified session offers a new association. */
  lemma OfferAsksForTheRightAssociation(s: Session, newId: TlsId)
    requires !s.remoteSeen && s.remoteSetup == Absent && newId != NO_ID
    requires s.assoc.Some? ==> newId != s.assoc.value.localId
    ensures var (t, offer) := LocalSdp(s, newId);
            && offer.setup == ActPass && offer.prints == s.prints && offer.address == s.laddr && offer.id == t.localId
            && (s.assoc.Some? ==>
                  (offer.id == s.assoc.value.localId <==> s.prints == s.assoc.value.localPrints && s.laddr == s.assoc.value.laddr))
  {
  }

  /** What can happen to a session, with a peer that may describe anything. */
  datatype Happening =
    | Forked
    | Described(sdp: Sdp, isAnswer: bool, newId: TlsId, newAddress: Address)
    | Offered(newId: TlsId)
    | Moved(laddr: Address)
    | Recertified(prints: set<nat>)
    | HandshakeRun

  /** A session whose description is refused is discarded for the one before it. */
  function Happens(s: Session, h: Happening): Session {
    match h
    case Forked => Fork(s)
    case Described(sdp, isAnswer, newId, newAddress) =>
      (match RemoteSdp(s.(remoteIsAnswer := isAnswer), sdp, newId, newAddress)
       case Ok(t) => t
       case Refused => s)
    case Offered(newId) => LocalSdp(s, newId).0
    case Moved(laddr) => s.(laddr := laddr)
    case Recertified(prints) => s.(prints := prints)
    case HandshakeRun => Finalize(s)
  }

  function Life(s: Session, happenings: seq<Happening>): Session {
    if happenings == [] then s
    else Happens(Life(s, happenings[..|happenings| - 1]), happenings[|happenings| - 1])
  }

  predicate Checked(a: Option<Association>) {
    a.Some? ==> a.value.remotePrints != {} && a.value.setup in {Active, Passive}
  }

  lemma HappensChecked(s: Session, h: Happening)
    requires Checked(s.assoc) && Checked(s.armed)
    ensures Checked(Happens(s, h).assoc) && Checked(Happens(s, h).armed)
  {
  }

  /** Whatever a peer sends, no association ever run or armed lacks a fingerprint to check the peer by, or a role. */
  lemma {:induction false} NeverUnchecked(laddr: Address, prints: set<nat>, happenings: seq<Happening>)
    ensures var s := Life(NewSession(laddr, prints), happenings);
            && (s.assoc.Some? ==> s.assoc.value.remotePrints != {} && s.assoc.value.setup in {Active, Passive})
            && (s.armed.Some? ==> s.armed.value.remotePrints != {} && s.armed.value.setup in {Active, Passive})
    decreases |happenings|
  {
    hide Happens;
    if happenings == [] {
    } else {
      NeverUnchecked(laddr, prints, happenings[..|happenings| - 1]);
      HappensChecked(Life(NewSession(laddr, prints), happenings[..|happenings| - 1]), happenings[|happenings| - 1]);
    }
  }

  // ---------- the session's own fields ----------

  /** The DTLS part of MediaSession. */
  class MediaSession {
    var laddr: Address
    var raddr: Address
    var fingerprints: set<nat>
    var localTLSID: TlsId
    var remoteProtoSet: bool
    var remoteSDPIsAnswer: bool
    var dtlsRemoteSetup: Setup
    var dtlsRemoteTLSID: TlsId
    var dtlsAssoc: Option<Association>
    var onFinalize: Option<Association>

    function Model(): Session
      reads this
    {
      Session(laddr, raddr, fingerprints, localTLSID, remoteProtoSet, remoteSDPIsAnswer, dtlsRemoteSetup,
              dtlsRemoteTLSID, dtlsAssoc, onFinalize)
    }

    constructor (laddr: Address, fingerprints: set<nat>)
      ensures Model() == NewSession(laddr, fingerprints)
    {
      this.laddr, raddr, this.fingerprints := laddr, 0, fingerprints;
      localTLSID, remoteProtoSet, remoteSDPIsAnswer := NO_ID, false, false;
      dtlsRemoteSetup, dtlsRemoteTLSID, dtlsAssoc, onFinalize := Absent, NO_ID, None, None;
    }

    method ForkSession() returns (cp: MediaSession)
      ensures cp.Model() == Fork(Model()) && cp != this
    {
      cp := new MediaSession(laddr, fingerprints);
      cp.localTLSID := localTLSID;
      cp.remoteSDPIsAnswer := remoteSDPIsAnswer;
      cp.dtlsAssoc := dtlsAssoc;
    }

    method NewAnswerTLSID(remoteTLSID: TlsId, newId: TlsId)
      modifies this
      ensures Model() == NewAnswerId(old(Model()), remoteTLSID, newId)
    {
      if remoteSDPIsAnswer {
        return;
      }
      localTLSID := NO_ID;
      if remoteTLSID != NO_ID {
        localTLSID := newId;
      }
    }

    method LocalSDPTLSID(newId: TlsId) returns (id: TlsId)
      modifies this
      ensures Model() == LocalSdp(old(Model()), newId).0 && id == LocalSdp(old(Model()), newId).1.id
    {
      if remoteProtoSet && !remoteSDPIsAnswer {
        return if dtlsRemoteTLSID == NO_ID then NO_ID else localTLSID;
      }
      if dtlsAssoc.Some? && fingerprints == dtlsAssoc.value.localPrints && laddr == dtlsAssoc.value.laddr {
        localTLSID := dtlsAssoc.value.localId;
      } else if (dtlsAssoc.Some? && localTLSID == dtlsAssoc.value.localId) || (dtlsAssoc == None && localTLSID == NO_ID) {
        localTLSID := newId;
      }
      return localTLSID;
    }

    method ArmDTLSHandshake(sdp: Sdp)
      modifies this
      ensures Model() == Arm(old(Model()), sdp)
    {
      var setup := if ActsAsClient(Model()) then Active else Passive;
      onFinalize := Some(Association(setup, fingerprints, sdp.prints, sdp.id, localTLSID, laddr, raddr));
    }

    /** A session whose offer or answer is refused is not installed. */
    method NegotiateDTLSAssociation(sdp: Sdp, newId: TlsId, newAddress: Address) returns (ok: bool)
      modifies this
      ensures ok <==> Negotiate(old(Model()), sdp, newId, newAddress).Ok?
      ensures ok ==> Model() == Negotiate(old(Model()), sdp, newId, newAddress).value
    {
      if dtlsAssoc == None {
        NewAnswerTLSID(sdp.id, newId);
        ArmDTLSHandshake(sdp);
        return true;
      }
      var assoc := dtlsAssoc.value;
      if !ChangedBy(assoc, Model(), sdp) {
        return true;
      }
      if laddr == assoc.laddr {
        if remoteSDPIsAnswer {
          return false;
        }
        laddr := newAddress;
      }
      dtlsAssoc := None;
      NewAnswerTLSID(sdp.id, newId);
      ArmDTLSHandshake(sdp);
      return true;
    }

    method RemoteSDP(sdp: Sdp, newId: TlsId, newAddress: Address) returns (ok: bool)
      modifies this
      ensures ok <==> RemoteSdp(old(Model()), sdp, newId, newAddress).Ok?
      ensures ok ==> Model() == RemoteSdp(old(Model()), sdp, newId, newAddress).value
      ensures ok ==> sdp.prints != {} && sdp.setup != Absent
      ensures ok && onFinalize != old(onFinalize) ==> onFinalize.Some? && onFinalize.value.remotePrints == sdp.prints
    {
      remoteProtoSet := true;
      raddr := sdp.address;
      if sdp.prints == {} || sdp.setup == Absent {
        return false;
      }
      dtlsRemoteSetup := sdp.setup;
      dtlsRemoteTLSID := sdp.id;
      ok := NegotiateDTLSAssociation(sdp, newId, newAddress);
    }
  }
}
