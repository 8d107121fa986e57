/**
 * Codec negotiation between two sessions (media/media_session.go, dialog_media.go; section 6.1 of
 * RFC 3264), on codec lists rather than SDP text and with SDPCodecPreferLocalOrder unset.
 */
module Codecs {
  import opened Basics

  /** What identifies a format: encoding name, clock rate and channel count. */
  datatype Format = Format(name: string, sampleRate: nat, channels: nat)

  /** A format under the payload type it was negotiated with. */
  datatype Key = Key(format: Format, payloadType: Byte)

  function FoldChar(c: char): char {
    if 'A' <= c <= 'Z' then c - 'A' + 'a' else c
  }

  /** Encoding names are compared without case. */
  function Fold(name: string): string {
    seq(|name|, i requires 0 <= i < |name| => FoldChar(name[i]))
  }

  function FormatOf(c: Codec): Format {
    Format(Fold(c.name), c.sampleRate, c.channels)
  }

  function KeyOf(c: Codec): Key {
    Key(FormatOf(c), c.payloadType)
  }

  function Keys(codecs: seq<Codec>): (k: seq<Key>)
    ensures |k| == |codecs| && forall i :: 0 <= i < |k| ==> k[i] == KeyOf(codecs[i])
  {
    if codecs == [] then [] else [KeyOf(codecs[0])] + Keys(codecs[1..])
  }

  predicate CodecMatch(local: Codec, remote: Codec) {
    FormatOf(local) == FormatOf(remote)
  }

  predicate Supports(local: seq<Codec>, f: Format) {
    exists i :: 0 <= i < |local| && FormatOf(local[i]) == f
  }

  predicate FirstMatch(local: seq<Codec>, f: Format, i: nat) {
    i < |local| && FormatOf(local[i]) == f && forall j :: 0 <= j < i ==> FormatOf(local[j]) != f
  }

  /** The first local codec matching `remote`, under the peer's payload type. */
  function Match(local: seq<Codec>, remote: Codec): (r: Option<Codec>)
    ensures r.Some? <==> Supports(local, FormatOf(remote))
    ensures r.Some? ==> KeyOf(r.value) == KeyOf(remote)
  {
    if local == [] then None
    else if CodecMatch(local[0], remote) then
      Some(local[0].(payloadType := remote.payloadType))
    else
      MatchTail(local, FormatOf(remote));
      Match(local[1..], remote)
  }

  lemma MatchTail(local: seq<Codec>, f: Format)
    requires local != [] && FormatOf(local[0]) != f
    ensures Supports(local[1..], f) <==> Supports(local, f)
  {
    if Supports(local, f) {
      var i :| 0 <= i < |local| && FormatOf(local[i]) == f;
      assert local[i] == local[1..][i - 1];
    }
    if Supports(local[1..], f) {
      var i :| 0 <= i < |local[1..]| && FormatOf(local[1..][i]) == f;
      assert local[i + 1] == local[1..][i];
    }
  }

  /** The entry keeps the framing of the first local codec of that format. */
  lemma {:induction false} MatchIsFirst(local: seq<Codec>, remote: Codec) returns (i: nat)
    requires Match(local, remote).Some?
    ensures FirstMatch(local, FormatOf(remote), i)
    ensures Match(local, remote).value == local[i].(payloadType := remote.payloadType)
  {
    if CodecMatch(local[0], remote) {
      i := 0;
    } else {
      var k := MatchIsFirst(local[1..], remote);
      i := k + 1;
      forall j | 0 <= j < i
        ensures FormatOf(local[j]) != FormatOf(remote)
      {
        assert j > 0 ==> local[j] == local[1..][j - 1];
      }
    }
  }

  /** The common codecs, in the order the peer lists them. */
  function Negotiate(local: seq<Codec>, remote: seq<Codec>): seq<Codec> {
    if remote == [] then []
    else
      var front := Negotiate(local, remote[..|remote| - 1]);
      var m := Match(local, remote[|remote| - 1]);
      if m.Some? then front + [m.value] else front
  }

  function Common(local: seq<Codec>, offered: seq<Key>): seq<Key> {
    if offered == [] then []
    else
      var front := Common(local, offered[..|offered| - 1]);
      if Supports(local, offered[|offered| - 1].format) then front + [offered[|offered| - 1]] else front
  }

  /** The codec lists of a MediaSession: those it was set up with and those negotiated. */
  datatype Session = Session(codecs: seq<Codec>, negotiated: seq<Codec>)

  function ActiveCodecs(s: Session): seq<Codec> {
    if |s.negotiated| > 0 then s.negotiated else s.codecs
  }

  function Fork(s: Session): Session {
    s.(negotiated := [])
  }

  /** updateRemoteCodecs: the session and how many codecs are common */
  function UpdateRemote(s: Session, remote: seq<Codec>): (Session, nat) {
    if s.codecs == [] then (s.(codecs := remote), |remote|)
    else (s.(negotiated := Negotiate(s.codecs, remote)), |Negotiate(s.codecs, remote)|)
  }

  /** negotiatedOffer for a refresh, and the session's own list for any other offer */
  function Offer(fork: Session, cur: Session, refresh: bool): seq<Codec> {
    if refresh && |cur.negotiated| > 0 then ActiveCodecs(fork.(codecs := cur.negotiated)) else ActiveCodecs(fork)
  }

  /** One offer and answer over forks of both sessions; None when an offer or answer is refused. */
  function Exchange(offerer: Session, answerer: Session, refresh: bool): Option<(Session, Session)> {
    var (a, common) := UpdateRemote(Fork(answerer), Offer(Fork(offerer), offerer, refresh));
    if common == 0 then None
    else
      var (o, n) := UpdateRemote(Fork(offerer), ActiveCodecs(a));
      if n == 0 then None else Some((o, a))
  }

  datatype Pair = Pair(left: Session, right: Session)
  datatype Turn = Turn(fromLeft: bool, refresh: bool)

  /** What the turn's exchange comes to, offerer first. */
  function Outcome(p: Pair, t: Turn): Option<(Session, Session)> {
    if t.fromLeft then Exchange(p.left, p.right, t.refresh) else Exchange(p.right, p.left, t.refresh)
  }

  function Step(p: Pair, t: Turn): Pair {
    var r := Outcome(p, t);
    if r == None then p
    else if t.fromLeft then Pair(r.value.0, r.value.1)
    else Pair(r.value.1, r.value.0)
  }

  function Run(p: Pair, turns: seq<Turn>): Pair {
    if turns == [] then p else Step(Run(p, turns[..|turns| - 1]), turns[|turns| - 1])
  }

  /** Names match whatever their case; everything else of a format must be the same. */
  lemma MatchMeans(local: Codec, remote: Codec)
    ensures CodecMatch(local, remote) <==>
            Fold(local.name) == Fold(remote.name) && local.sampleRate == remote.sampleRate && local.channels == remote.channels
    ensures Fold("PCMA") == Fold("pcma") == "pcma" && Fold("AZ[@az-9") == "az[@az-9"
  {
  }

  /** A refresh offers what is negotiated, any other offer the session's own list, and so does one before any answer. */
  lemma OfferMeans(s: Session)
    ensures Offer(Fork(s), s, false) == s.codecs
    ensures Offer(Fork(s), s, true) == if s.negotiated != [] then s.negotiated else s.codecs
    ensures Fork(s).codecs == s.codecs && Fork(s).negotiated == []
  {
  }

  /** Holding the same keys is holding codecs of the same format under the same payload type, in the same order. */
  lemma SameKeysMean(a: seq<Codec>, b: seq<Codec>)
    ensures Keys(a) == Keys(b) <==>
            |a| == |b| && forall i :: 0 <= i < |a| ==> CodecMatch(a[i], b[i]) && a[i].payloadType == b[i].payloadType
  {
    hide Keys, FormatOf;
    if |a| == |b| && forall i :: 0 <= i < |a| ==> CodecMatch(a[i], b[i]) && a[i].payloadType == b[i].payloadType {
      assert forall i :: 0 <= i < |a| ==> Keys(a)[i] == Keys(b)[i];
    }
    if Keys(a) == Keys(b) {
      assert |a| == |b|;
      forall i | 0 <= i < |a|
        ensures CodecMatch(a[i], b[i]) && a[i].payloadType == b[i].payloadType
      {
        assert Keys(a)[i] == KeyOf(a[i]) && Keys(b)[i] == KeyOf(b[i]);
      }
    }
  }

  // ---------- what negotiation keeps ----------

  /** The answer is the offer's formats that are supported, in order, under the offer's numbers. */
  lemma {:induction false} NegotiatedKeys(local: seq<Codec>, remote: seq<Codec>)
    ensures Keys(Negotiate(local, remote)) == Common(local, Keys(remote))
    decreases |remote|
  {
    hide FormatOf, KeyOf, Keys, Match, Supports;
    if remote == [] {
      assert Keys([]) == [];
    } else {
      var front, last := remote[..|remote| - 1], remote[|remote| - 1];
      NegotiatedKeys(local, front);
      KeysAppend(front, last);
      assert remote == front + [last];
      assert Keys(remote)[..|remote| - 1] == Keys(front);
      var m := Match(local, last);
      if m.Some? {
        KeysAppend(Negotiate(local, front), m.value);
      }
      KeyFormat(last);
    }
  }

  lemma KeysAppend(codecs: seq<Codec>, c: Codec)
    ensures Keys(codecs + [c]) == Keys(codecs) + [KeyOf(c)]
  {
  }

  lemma KeyFormat(c: Codec)
    ensures KeyOf(c).format == FormatOf(c)
  {
  }

  predicate AllSupported(local: seq<Codec>, keys: seq<Key>) {
    forall i :: 0 <= i < |keys| ==> Supports(local, keys[i].format)
  }

  lemma {:induction false} CommonAll(local: seq<Codec>, keys: seq<Key>)
    requires AllSupported(local, keys)
    ensures Common(local, keys) == keys
    decreases |keys|
  {
    hide Supports;
    if keys == [] {
    } else {
      CommonAll(local, keys[..|keys| - 1]);
      assert Supports(local, keys[|keys| - 1].format);
      assert keys == keys[..|keys| - 1] + [keys[|keys| - 1]];
    }
  }

  lemma {:induction false} CommonSupported(local: seq<Codec>, keys: seq<Key>)
    ensures AllSupported(local, Common(local, keys))
    ensures forall k :: k in Common(local, keys) ==> k in keys
    decreases |keys|
  {
    hide Supports;
    if keys == [] {
    } else {
      CommonSupported(local, keys[..|keys| - 1]);
    }
  }

  lemma OwnSupported(local: seq<Codec>)
    ensures AllSupported(local, Keys(local))
  {
  }

  lemma SubSupported(local: seq<Codec>, keys: seq<Key>, sub: seq<Key>)
    requires AllSupported(local, keys) && forall k :: k in sub ==> k in keys
    ensures AllSupported(local, sub)
  {
    forall i | 0 <= i < |sub|
      ensures Supports(local, sub[i].format)
    {
      assert sub[i] in keys;
    }
  }

  /** Both sessions hold the same formats under the same numbers, which both support. */
  predicate Agreed(p: Pair) {
    && p.left.codecs != [] && p.right.codecs != []
    && Keys(p.left.negotiated) == Keys(p.right.negotiated)
    && AllSupported(p.left.codecs, Keys(p.left.negotiated))
    && AllSupported(p.right.codecs, Keys(p.right.negotiated))
  }

  /**
   * An exchange is refused only when the offer has no format the answerer supports. Otherwise
   * both hold those formats, in the offer's order, and each keeps its own codec list.
   */
  lemma ExchangeAgrees(offerer: Session, answerer: Session, refresh: bool)
    requires Agreed(Pair(offerer, answerer))
    ensures var offered := Keys(Offer(Fork(offerer), offerer, refresh));
            var r := Exchange(offerer, answerer, refresh);
            && (r == None <==> Common(answerer.codecs, offered) == [])
            && (r.Some? ==>
                  && Agreed(Pair(r.value.0, r.value.1))
                  && Keys(r.value.0.negotiated) == Common(answerer.codecs, offered)
                  && r.value.0.codecs == offerer.codecs && r.value.1.codecs == answerer.codecs)
  {
    var offer := Offer(Fork(offerer), offerer, refresh);
    var offered := Keys(offer);
    NegotiatedKeys(answerer.codecs, offer);
    CommonSupported(answerer.codecs, offered);
    var answer := Negotiate(answerer.codecs, offer);
    OwnSupported(offerer.codecs);
    assert AllSupported(offerer.codecs, offered);
    SubSupported(offerer.codecs, offered, Keys(answer));
    NegotiatedKeys(offerer.codecs, answer);
    CommonAll(offerer.codecs, Keys(answer));
  }

  lemma StepAgrees(p: Pair, t: Turn)
    requires Agreed(p)
    ensures Agreed(Step(p, t)) && Step(p, t).left.codecs == p.left.codecs && Step(p, t).right.codecs == p.right.codecs
  {
    if t.fromLeft {
      ExchangeAgrees(p.left, p.right, t.refresh);
    } else {
      ExchangeAgrees(p.right, p.left, t.refresh);
    }
  }

  /** Through any offers and refreshes from either side both hold the same formats and numbers. */
  lemma {:induction false} AlwaysAgree(left: seq<Codec>, right: seq<Codec>, turns: seq<Turn>)
    requires left != [] && right != []
    ensures var p := Run(Pair(Session(left, []), Session(right, [])), turns);
            && Keys(p.left.negotiated) == Keys(p.right.negotiated)
            && p.left.codecs == left && p.right.codecs == right && Agreed(p)
    decreases |turns|
  {
    if turns == [] {
    } else {
      AlwaysAgree(left, right, turns[..|turns| - 1]);
      StepAgrees(Run(Pair(Session(left, []), Session(right, [])), turns[..|turns| - 1]), turns[|turns| - 1]);
    }
  }

  /**
   * What a turn after any others settles: the formats of its offer that the answerer has, in the offer's
   * order, on both sides; and nothing changes when there is none.
   */
  lemma TurnSettles(left: seq<Codec>, right: seq<Codec>, turns: seq<Turn>, t: Turn)
    requires left != [] && right != []
    ensures var start := Pair(Session(left, []), Session(right, []));
            var p, q := Run(start, turns), Run(start, turns + [t]);
            var offerer := if t.fromLeft then p.left else p.right;
            var offered := Keys(Offer(Fork(offerer), offerer, t.refresh));
            var common := Common(if t.fromLeft then right else left, offered);
            if common == [] then q == p else Keys(q.left.negotiated) == Keys(q.right.negotiated) == common
  {
    var start := Pair(Session(left, []), Session(right, []));
    AlwaysAgree(left, right, turns);
    var p := Run(start, turns);
    assert (turns + [t])[..|turns|] == turns;
    if t.fromLeft {
      ExchangeAgrees(p.left, p.right, t.refresh);
    } else {
      ExchangeAgrees(p.right, p.left, t.refresh);
    }
    hide Exchange, Common, Offer;
  }

  /** A refresh from either side is taken and changes nothing either side negotiated. */
  lemma RefreshKeeps(p: Pair, fromLeft: bool)
    requires Agreed(p) && p.left.negotiated != []
    ensures Outcome(p, Turn(fromLeft, true)).Some?
    ensures var q := Step(p, Turn(fromLeft, true));
            && Agreed(q)
            && Keys(q.left.negotiated) == Keys(p.left.negotiated) && Keys(q.right.negotiated) == Keys(p.right.negotiated)
            && q.left.codecs == p.left.codecs && q.right.codecs == p.right.codecs
  {
    var keys := Keys(p.left.negotiated);
    assert |p.right.negotiated| == |p.left.negotiated|;
    if fromLeft {
      ExchangeAgrees(p.left, p.right, true);
      CommonAll(p.right.codecs, keys);
    } else {
      ExchangeAgrees(p.right, p.left, true);
      CommonAll(p.left.codecs, keys);
    }
  }

  /** Nor does any number of them. */
  lemma {:induction false} RefreshesKeep(p: Pair, turns: seq<Turn>)
    requires Agreed(p) && p.left.negotiated != []
    requires forall i :: 0 <= i < |turns| ==> turns[i].refresh
    ensures var q := Run(p, turns);
            && Agreed(q)
            && Keys(q.left.negotiated) == Keys(p.left.negotiated) && Keys(q.right.negotiated) == Keys(p.right.negotiated)
            && q.left.codecs == p.left.codecs && q.right.codecs == p.right.codecs
    decreases |turns|
  {
    if turns == [] {
    } else {
      RefreshesKeep(p, turns[..|turns| - 1]);
      var q := Run(p, turns[..|turns| - 1]);
      assert |Keys(q.left.negotiated)| == |q.left.negotiated|;
      RefreshKeeps(q, turns[|turns| - 1].fromLeft);
    }
  }

  /** Every one of them is taken. */
  lemma RefreshesAreTaken(p: Pair, turns: seq<Turn>, i: nat)
    requires Agreed(p) && p.left.negotiated != []
    requires (forall j :: 0 <= j < |turns| ==> turns[j].refresh) && i < |turns|
    ensures Outcome(Run(p, turns[..i]), turns[i]).Some?
  {
    hide Run, Outcome, Step;
    RefreshesKeep(p, turns[..i]);
    var q := Run(p, turns[..i]);
    assert |Keys(q.left.negotiated)| == |q.left.negotiated|;
    RefreshKeeps(q, turns[i].fromLeft);
    assert turns[i] == Turn(turns[i].fromLeft, true);
  }

  /** The inner loop of updateRemoteCodecs, over our codecs. */
  method FindMatch(local: seq<Codec>, remote: Codec) returns (m: Option<Codec>)
    ensures m == Match(local, remote)
  {
    hide FormatOf, Supports;
    var j := 0;
    while j < |local| && !CodecMatch(local[j], remote)
      invariant 0 <= j <= |local|
      invariant Match(local, remote) == Match(local[j..], remote)
    {
      assert local[j..][1..] == local[j + 1..];
      j := j + 1;
    }
    if j < |local| {
      return Some(local[j].(payloadType := remote.payloadType));
    }
    return None;
  }

  /** updateRemoteCodecs as the loops over the peer's list and ours. */
  method UpdateRemoteCodecs(s: Session, remote: seq<Codec>) returns (r: Session, n: nat)
    ensures (r, n) == UpdateRemote(s, remote)
  {
    hide Match;
    if |s.codecs| == 0 {
      return s.(codecs := remote), |remote|;
    }
    var filter: seq<Codec> := [];
    var i := 0;
    while i < |remote|
      invariant 0 <= i <= |remote| && filter == Negotiate(s.codecs, remote[..i])
    {
      assert remote[..i + 1][..i] == remote[..i];
      var m := FindMatch(s.codecs, remote[i]);
      if m.Some? {
        filter := filter + [m.value];
      }
      i := i + 1;
    }
    assert remote[..i] == remote;
    r, n := s.(negotiated := filter), |filter|;
  }
}
