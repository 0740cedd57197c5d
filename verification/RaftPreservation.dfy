/** Every event that cuts nothing acknowledged keeps the second invariant. */
module RaftPreservation {
  import opened RaftProtocol
  import opened RaftCluster
  import opened RaftHistory
  import opened RaftMerge
  import opened RaftInduction
  import opened RaftCompleteness
  import opened RaftSafety
  import opened RaftFollower
  import opened RaftLeader

  /** What the step of server `i` may rely on. */
  lemma SafeFacts(n: nat, c: Cluster, h: History, i: nat)
    requires Safe(n, c, h) && i < n
    ensures Inv(n, c, h) && |c.servers| == n && HistoryOk(n, h) && AckedOk(n, h) && BallotsKeep(h)
    ensures var s := c.servers[i];
            && s.me == i && |s.peers| == n && ServerOk(n, h, c.sent, s) && SafeServer(n, h, s)
            && VoterOk(h, s) && ReignsOk(h, s) && LeaderOk(h, s) && CandidateOk(h, s) && Derived(h.reigns, s.log)
            && (s.role.Leader? ==> 1 < n)
  {
  }

  /** What a delivery may rely on. */
  lemma SafeDelivery(n: nat, c: Cluster, h: History, k: nat)
    requires Safe(n, c, h) && k < |c.sent|
    ensures Inv(n, c, h) && |c.servers| == n
    ensures var p := c.sent[k]; p.src < n && p.dst < n && p.src != p.dst && PacketOk(n, h, p) && SafePacket(n, h, p)
  {
  }

  lemma BallotsUpToTerm(n: nat, c: Cluster, h: History, h': History, i: nat, t: nat)
    requires Inv(n, c, h) && i < n && c.servers[i].term <= t && h'.acked == h.acked
    ensures ActsAlone(h, h', i, t)
  {
  }

  /** A step that acknowledges nothing. */
  lemma SafeSimpleStep(n: nat, c: Cluster, h: History, i: nat, o: Outcome, h': History)
    requires Safe(n, c, h) && i < n && o.server.me == i && c.servers[i].term <= o.server.term
    requires Inv(n, React(c, i, o), h')
    requires AckStep(h, h', i, o.server.term) && AckedOk(n, h') && h'.acked == h.acked
    requires forall b :: b in h'.ballots && b !in h.ballots ==> BallotKeeps(h', b)
    requires SafeServer(n, h', o.server) && SafeOut(n, h', o.out)
    ensures Safe(n, React(c, i, o), h')
  {
    var c' := React(c, i, o);
    AcksStaySent(c.sent, h, o.out, h');
    SafeFacts(n, c, h, i);
    BallotsUpToTerm(n, c, h, h', i, o.server.term);
    hide *;
    SafeStep(n, c, h, i, o, c', h');
  }

  /** A step that changes no more than term, vote, role and peers. */
  lemma SafeDataStep(n: nat, c: Cluster, h: History, i: nat, o: Outcome, h': History)
    requires Safe(n, c, h) && i < n && Inv(n, React(c, i, o), h') && Grows(h, h')
    requires SameData(c.servers[i], o.server) && c.servers[i].term <= o.server.term
    requires (h' == h && o.server == c.servers[i]) || !o.server.role.Leader?
    requires h' == h || (VoteRecorded(h, h', o.server)
                         && (c.servers[i].term < o.server.term || c.servers[i].votedFor == NOBODY))
    requires SafeOut(n, h', o.out)
    ensures Safe(n, React(c, i, o), h')
  {
    hide Safe;
    hide Inv;
    hide HistoryOk;
    hide ServerOk;
    hide SafeServer;
    hide BallotKeeps;
    hide SafeOut;
    hide VoterOk;
    hide AckStep;
    hide AckedOk;
    hide ReignsOk;
    hide LeaderOk;
    hide CandidateOk;
    hide Derived;
    hide Grows;
    hide BallotsKeep;
    SafeFacts(n, c, h, i);
    var s := c.servers[i];
    VoteAckStep(h, h', i, o.server.term);
    if h' != h {
      NewVoteKeeps(n, h, h', s, o.server);
    }
    if o.server != s || h' != h {
      SafeQuiet(n, h, h', s, o.server);
    }
    AckedSame(n, h, h');
    SafeSimpleStep(n, c, h, i, o, h');
  }

  lemma AckedSame(n: nat, h: History, h': History)
    requires AckedOk(n, h) && h'.reigns == h.reigns && h'.acked == h.acked
    ensures AckedOk(n, h')
  {
  }

  // ---- Votes ----

  lemma RequestVoteData(s: Server, from: nat, rv: Message)
    requires rv.RequestVote?
    ensures var o := RecvRequestVote(s, from, rv);
            && (447 !in o.server.fired ==> SameData(s, o.server)) && s.term <= o.server.term
            && (o.server == s || !o.server.role.Leader? || 447 in o.server.fired)
            && |o.out| == 1 && o.out[0].msg.VoteResponse?
  {
  }

  lemma VoteReplySafe(n: nat, h: History, out: seq<Packet>)
    requires forall k :: 0 <= k < |out| ==> out[k].msg.VoteResponse? || out[k].msg.RequestVote?
    ensures SafeOut(n, h, out)
  {
  }

  lemma NotFired(n: nat, c: Cluster, h: History, i: nat, o: Outcome)
    requires |c.servers| == n && i < n && Inv(n, React(c, i, o), h)
    ensures o.server.me == i && 447 !in o.server.fired
  {
    assert React(c, i, o).servers[i] == o.server;
  }

  lemma SafeRequestVote(n: nat, c: Cluster, h: History, k: nat) returns (h': History)
    requires Safe(n, c, h) && k < |c.sent| && c.sent[k].msg.RequestVote?
    ensures c.sent[k].dst < |c.servers| && Grows(h, h')
    ensures Safe(n, React(c, c.sent[k].dst,
                          RecvRequestVote(c.servers[c.sent[k].dst], c.sent[k].src, c.sent[k].msg)), h')
  {
    hide Inv;
    hide Safe;
    hide Grows;
    hide SafeOut;
    hide PacketOk;
    hide HistoryOk;
    hide ServerOk;
    SafeDelivery(n, c, h, k);
    var p := c.sent[k];
    h' := RequestVoteStep(n, c, h, k);
    var o := RecvRequestVote(c.servers[p.dst], p.src, p.msg);
    NotFired(n, c, h', p.dst, o);
    RequestVoteData(c.servers[p.dst], p.src, p.msg);
    hide RecvRequestVote;
    VoteReplySafe(n, h', o.out);
    SafeDataStep(n, c, h, p.dst, o, h');
  }

  lemma VoteResponseData(s: Server, from: nat, r: Message)
    requires r.VoteResponse? && from < |s.peers| && s.me < |s.peers|
    ensures var o := RecvVoteResponse(s, from, r);
            && SameData(s, o.server) && s.term <= o.server.term
            && (o.server.role.Leader? && o.server != s ==>
                  && o.server.term == s.term
                  && (forall j :: 0 <= j < |o.server.peers| && j != s.me ==> o.server.peers[j].matchIdx == 0)
                  && o.out == AppendsFrom(o.server, 0, true))
            && (!o.server.role.Leader? || o.server == s ==> o.out == [])
  {
  }

  lemma SafeElection(n: nat, c: Cluster, h: History, i: nat, o: Outcome, h': History)
    requires Safe(n, c, h) && i < n && Inv(n, React(c, i, o), h') && Grows(h, h')
    requires SameData(c.servers[i], o.server) && c.servers[i].term == o.server.term
    requires ReignRecorded(h, h', o.server) && o.out == AppendsFrom(o.server, 0, true)
    requires forall j :: 0 <= j < |o.server.peers| && j != o.server.me ==> o.server.peers[j].matchIdx == 0
    ensures Safe(n, React(c, i, o), h')
  {
    hide Safe;
    hide Inv;
    hide HistoryOk;
    hide ServerOk;
    hide SafeOut;
    hide AckStep;
    hide AckedOk;
    hide Grows;
    hide AppendsFrom;
    hide VoterOk;
    SafeFacts(n, c, h, i);
    SafeCrown(n, h, h', c.servers[i], o.server);
    LeaderFactsAfter(n, c, h', i, o);
    SafeAppends(n, h', o.server, true);
    hide SafeServer;
    SafeSimpleStep(n, c, h, i, o, h');
  }

  lemma LeaderFactsAfter(n: nat, c: Cluster, h: History, i: nat, o: Outcome)
    requires |c.servers| == n && i < n && Inv(n, React(c, i, o), h)
    ensures o.server.me == i && LeaderOk(h, o.server)
  {
    assert React(c, i, o).servers[i] == o.server;
  }

  lemma SafeVoteResponse(n: nat, c: Cluster, h: History, k: nat) returns (h': History)
    requires Safe(n, c, h) && k < |c.sent| && c.sent[k].msg.VoteResponse?
    ensures c.sent[k].dst < |c.servers| && c.sent[k].src < |c.servers[c.sent[k].dst].peers| && Grows(h, h')
    ensures Safe(n, React(c, c.sent[k].dst,
                          RecvVoteResponse(c.servers[c.sent[k].dst], c.sent[k].src, c.sent[k].msg)), h')
  {
    hide Inv;
    hide Safe;
    hide Grows;
    hide SafeOut;
    hide PacketOk;
    hide HistoryOk;
    hide ServerOk;
    hide AppendsFrom;
    SafeDelivery(n, c, h, k);
    var p := c.sent[k];
    SafeFacts(n, c, h, p.dst);
    h' := VoteResponseStep(n, c, h, k);
    var o := RecvVoteResponse(c.servers[p.dst], p.src, p.msg);
    VoteResponseData(c.servers[p.dst], p.src, p.msg);
    hide RecvVoteResponse;
    if ReignRecorded(h, h', o.server) && o.server != c.servers[p.dst] {
      SafeElection(n, c, h, p.dst, o, h');
    } else {
      NothingToSend(n, h);
      SafeDataStep(n, c, h, p.dst, o, h');
    }
  }

  // ---- Appends ----

  /** The acknowledgements on record are exactly as far-reaching as those sent. */
  lemma AckedIffSent(n: nat, h: History, sent: seq<Packet>, p: Packet)
    requires AcksSent(sent, h) && (forall r :: 0 <= r < |sent| ==> SafePacket(n, h, sent[r]))
    requires p.msg.Append? && AppendOk(h, p)
    ensures p.msg.prevIdx < Acked(h, p.dst, p.msg.term) <==> exists r :: 0 <= r < |sent| && AcksBeyond(sent[r], p)
  {
    hide Announced;
    var v, t := p.dst, p.msg.term;
    if p.msg.prevIdx < Acked(h, v, t) {
      var r: nat :| AckSent(sent, v, t, h.acked[(v, t)], r);
      assert AcksBeyond(sent[r], p);
    }
    forall r | 0 <= r < |sent| && AcksBeyond(sent[r], p) ensures p.msg.prevIdx < Acked(h, v, t) {
      assert SafePacket(n, h, sent[r]);
    }
  }

  lemma SafeSent(n: nat, c: Cluster, h: History)
    requires Safe(n, c, h)
    ensures AcksSent(c.sent, h) && forall r :: 0 <= r < |c.sent| ==> SafePacket(n, h, c.sent[r])
  {
    hide Inv;
    hide SafePacket;
    hide SafeServer;
  }

  /** An append is harmless to its receiver exactly when it cuts nothing acknowledged. */
  lemma UncutIsHarmless(n: nat, c: Cluster, h: History, k: nat)
    requires Safe(n, c, h) && k < |c.sent| && c.sent[k].msg.Append? && Deliverable(c, k)
    ensures !CutsAcked(c, Deliver(k)) <==> Harmless(h, c.servers[c.sent[k].dst], c.sent[k].msg)
  {
    hide Inv;
    hide Safe;
    hide HistoryOk;
    hide ServerOk;
    hide SafeServer;
    hide PacketOk;
    hide SafePacket;
    hide AcksSent;
    hide AppendOk;
    hide Derived;
    SafeDelivery(n, c, h, k);
    AppendSent(n, h, c.sent[k]);
    SafeFacts(n, c, h, c.sent[k].dst);
    SafeSent(n, c, h);
    AckedIffSent(n, h, c.sent, c.sent[k]);
  }

  lemma InvIgnoresAcks(n: nat, c: Cluster, h: History, h': History)
    requires Inv(n, c, h) && h'.reigns == h.reigns && h'.ballots == h.ballots
    ensures Inv(n, c, h')
  {
    hide ServerOk;
    hide PacketOk;
    HistoryIgnoresAcks(n, h, h');
    forall i | 0 <= i < n ensures ServerOk(n, h', c.sent, c.servers[i]) {
      ServerIgnoresAcks(n, h, h', c.sent, c.servers[i]);
    }
    forall k | 0 <= k < |c.sent| ensures PacketOk(n, h', c.sent[k]) {
      PacketIgnoresAcks(n, h, h', c.sent[k]);
    }
  }

  lemma HistoryIgnoresAcks(n: nat, h: History, h': History)
    requires HistoryOk(n, h) && h'.reigns == h.reigns && h'.ballots == h.ballots
    ensures HistoryOk(n, h')
  {
    forall t | t in h'.reigns ensures ReignOk(n, h', t) {
      assert ReignOk(n, h, t);
    }
    hide ReignOk;
    forall b1, b2 | b1 in h'.ballots && b2 in h'.ballots ensures VotesAgree(h', b1, b2) {
      assert VotesAgree(h, b1, b2);
    }
  }

  lemma ServerIgnoresAcks(n: nat, h: History, h': History, sent: seq<Packet>, s: Server)
    requires ServerOk(n, h, sent, s) && h'.reigns == h.reigns && h'.ballots == h.ballots
    ensures ServerOk(n, h', sent, s)
  {
    forall j | s.role.Candidate? && 0 <= j < |s.peers| && j != s.me && s.peers[j].votedForMe
      ensures HasBallot(h', j, s.term, s.me)
    {
      assert HasBallot(h, j, s.term, s.me);
    }
  }

  lemma PacketIgnoresAcks(n: nat, h: History, h': History, p: Packet)
    requires PacketOk(n, h, p) && h'.reigns == h.reigns && h'.ballots == h.ballots
    ensures PacketOk(n, h', p)
  {
    if p.msg.VoteResponse? && p.msg.granted {
      assert HasBallot(h, p.src, p.msg.term, p.dst);
    }
  }

  /** The cluster after append `k` was handled with outcome `o`. */
  function AfterAppend(c: Cluster, k: nat, o: Outcome): Cluster
    requires k < |c.sent| && c.sent[k].dst < |c.servers|
  {
    var c1 := React(c, c.sent[k].dst, o);
    if Link(c.sent[k]) in c.seen ==> c.seen[Link(c.sent[k])] <= k then c1.(seen := c.seen[Link(c.sent[k]) := k]) else c1
  }

  /** What handling an append may record: nothing, or the acknowledgement it sends. */
  ghost predicate AckRecorded(h: History, h': History, v: nat, ae: Message, out: seq<Packet>)
    requires ae.Append?
  {
    && h'.reigns == h.reigns && h'.ballots == h.ballots
    && (|| h' == h
        || (h'.acked == h.acked[(v, ae.term) := AppendEnd(ae)] && AckSent(out, v, ae.term, AppendEnd(ae), 0)))
  }

  lemma AcksSentAfter(sent: seq<Packet>, h: History, v: nat, ae: Message, out: seq<Packet>, h': History)
    requires AcksSent(sent, h) && ae.Append? && AckRecorded(h, h', v, ae, out)
    ensures AcksSent(sent + out, h')
  {
    forall u, t | (u, t) in h'.acked ensures exists r: nat :: AckSent(sent + out, u, t, h'.acked[(u, t)], r) {
      if h' != h && u == v && t == ae.term {
        assert (sent + out)[|sent|] == out[0];
        assert AckSent(sent + out, u, t, h'.acked[(u, t)], |sent|);
      } else {
        var r: nat :| AckSent(sent, u, t, h.acked[(u, t)], r);
        assert AckSent(sent + out, u, t, h'.acked[(u, t)], r);
      }
    }
  }

  /** A step that handles an append. */
  lemma SafeAppendStep(n: nat, c: Cluster, h: History, k: nat, o: Outcome, h': History)
    requires Safe(n, c, h) && k < |c.sent| && c.sent[k].msg.Append? && c.sent[k].dst < |c.servers|
    requires Inv(n, React(c, c.sent[k].dst, o), h)
    requires o.server.me == c.sent[k].dst && c.servers[c.sent[k].dst].term <= o.server.term
    requires AckRecorded(h, h', c.sent[k].dst, c.sent[k].msg, o.out)
    requires AckStep(h, h', c.sent[k].dst, o.server.term) && AckedOk(n, h')
    requires SafeServer(n, h', o.server) && SafeOut(n, h', o.out)
    ensures Safe(n, AfterAppend(c, k, o), h')
  {
    var c', i := AfterAppend(c, k, o), c.sent[k].dst;
    SafeDelivery(n, c, h, k);
    SafeSent(n, c, h);
    SafeFacts(n, c, h, i);
    hide Inv;
    hide Safe;
    hide HistoryOk;
    hide ServerOk;
    hide SafeServer;
    hide PacketOk;
    hide SafePacket;
    hide SafeOut;
    hide AcksSent;
    hide AckedOk;
    AcksSentAfter(c.sent, h, i, c.sent[k].msg, o.out, h');
    InvIgnoresAcks(n, React(c, i, o), h, h');
    InvIgnoresSeen(n, React(c, i, o), h', c');
    VotesUpTo(h, c.servers[i], h', o.server.term);
    SafeStep(n, c, h, i, o, c', h');
  }

  lemma AppendSent(n: nat, h: History, p: Packet)
    requires p.msg.Append? && PacketOk(n, h, p)
    ensures AppendOk(h, p)
  {
  }

  lemma VotesUpTo(h: History, s: Server, h': History, t: nat)
    requires VoterOk(h, s) && s.term <= t
    requires forall v, u :: (v, u) in h'.acked && (v, u) !in h.acked ==> v == s.me
    ensures ActsAlone(h, h', s.me, t)
  {
  }

  lemma SettledData(s: Server, term: nat)
    ensures var s1 := Settled(s, term);
            SameData(s, s1) && s.term <= s1.term && (s1.role.Leader? ==> s1 == s)
  {
  }

  lemma StaleReplySafe(n: nat, h: History, s: Server, from: nat)
    ensures SafeOut(n, h, [Packet(s.me, from, AppendResponse(s.term, false, |s.log|, 0))])
  {
  }

  lemma SettledSafe(n: nat, h: History, s: Server, term: nat)
    requires AckedOk(n, h) && ReignsOk(h, s) && SafeServer(n, h, s)
    ensures SafeServer(n, h, Settled(s, term))
  {
    hide SafeServer;
    GrowsReflexive(h);
    SettledData(s, term);
    if Settled(s, term) != s {
      SafeQuiet(n, h, h, s, Settled(s, term));
    }
  }

  /** The follower's side of an append that is harmless to it. */
  lemma SafeRecvAppend(n: nat, h: History, sent: seq<Packet>, s: Server, p: Packet) returns (h': History)
    requires HistoryOk(n, h) && BallotsKeep(h) && AckedOk(n, h)
    requires ServerOk(n, h, sent, s) && ReignsOk(h, s) && Derived(h.reigns, s.log) && SafeServer(n, h, s)
    requires p.msg.Append? && PacketOk(n, h, p) && AppendOk(h, p) && SafePacket(n, h, p) && p.dst == s.me && s.me < n
    requires Harmless(h, s, p.msg)
    ensures var o := RecvAppend(s, p.src, p.msg);
            && AckRecorded(h, h', s.me, p.msg, o.out)
            && o.server.me == s.me && s.term <= o.server.term
            && AckStep(h, h', s.me, o.server.term) && AckedOk(n, h')
            && SafeServer(n, h', o.server) && SafeOut(n, h', o.out)
  {
    hide HistoryOk;
    hide BallotsKeep;
    hide AckedOk;
    hide ServerOk;
    hide ReignsOk;
    hide Derived;
    hide SafeServer;
    hide PacketOk;
    hide AppendOk;
    hide SafePacket;
    hide SafeOut;
    hide AckStep;
    hide AppendAtTerm;
    GrowsReflexive(h);
    h' := h;
    VoteAckStep(h, h, s.me, RecvAppend(s, p.src, p.msg).server.term);
    if p.msg.term < s.term {
      StaleReplySafe(n, h, s, p.src);
    } else {
      SettledOk(n, h, sent, s, p);
      SettledData(s, p.msg.term);
      SettledSafe(n, h, s, p.msg.term);
      var s1 := Settled(s, p.msg.term);
      AppendReign(n, h, p);
      HarmlessSettled(n, h, s, p.msg);
      if !PrevMatches(s1, p.msg) {
        SafeReject(n, h, s1, p);
      } else if Acked(h, s.me, p.msg.term) <= AppendEnd(p.msg) {
        h' := RecordAck(h, s.me, p.msg.term, AppendEnd(p.msg));
        SafeAccept(n, h, s1, p);
      } else {
        SafeLate(n, h, s1, p);
      }
    }
  }

  /** A server that enters the append's term has acknowledged nothing in it yet. */
  lemma HarmlessSettled(n: nat, h: History, s: Server, ae: Message)
    requires ae.Append? && Harmless(h, s, ae) && ReignsOk(h, s) && SafeServer(n, h, s) && s.term <= ae.term
    requires ae.term in h.reigns
    ensures Harmless(h, Settled(s, ae.term), ae)
  {
    if s.term < ae.term { NoLaterAcks(n, h, s); }
  }

  lemma SafeAppend(n: nat, c: Cluster, h: History, k: nat) returns (h': History)
    requires Safe(n, c, h) && k < |c.sent| && c.sent[k].msg.Append? && Deliverable(c, k) && !CutsAcked(c, Deliver(k))
    ensures Grows(h, h')
    ensures Safe(n, AfterAppend(c, k, RecvAppend(c.servers[c.sent[k].dst], c.sent[k].src, c.sent[k].msg)), h')
  {
    hide Inv;
    hide Safe;
    hide Grows;
    hide HistoryOk;
    hide ServerOk;
    hide SafeServer;
    hide PacketOk;
    hide SafePacket;
    hide SafeOut;
    hide AckedOk;
    hide BallotsKeep;
    hide Derived;
    hide RecvAppend;
    hide CutsAcked;
    SafeDelivery(n, c, h, k);
    var p := c.sent[k];
    var s := c.servers[p.dst];
    SafeFacts(n, c, h, p.dst);
    AppendSent(n, h, p);
    hide AppendOk;
    UncutIsHarmless(n, c, h, k);
    AppendStep(n, c, h, k);
    h' := SafeRecvAppend(n, h, c.sent, s, p);
    SafeAppendStep(n, c, h, k, RecvAppend(s, p.src, p.msg), h');
  }

  // ---- Responses ----

  lemma SafeRecvAppendResponse(n: nat, h: History, sent: seq<Packet>, s: Server, p: Packet)
    requires AckedOk(n, h) && ServerOk(n, h, sent, s) && ReignsOk(h, s) && LeaderOk(h, s) && SafeServer(n, h, s)
    requires p.msg.AppendResponse? && PacketOk(n, h, p) && SafePacket(n, h, p) && p.dst == s.me
    requires |s.peers| == n && s.me < n && p.src < n && p.src != s.me && (s.role.Leader? ==> 1 < n)
    ensures var o := RecvAppendResponse(s, p.src, p.msg);
            && SafeServer(n, h, o.server) && SafeOut(n, h, o.out)
            && o.server.me == s.me && s.term <= o.server.term
  {
    hide AckedOk;
    hide ServerOk;
    hide ReignsOk;
    hide LeaderOk;
    hide SafeServer;
    hide PacketOk;
    hide SafeOut;
    hide BackOff;
    hide Acknowledge;
    var r := p.msg;
    GrowsReflexive(h);
    NothingToSend(n, h);
    if s.role.Leader? && !(r.currentIdx != 0 && r.currentIdx <= s.peers[p.src].matchIdx) {
      if s.term < r.term {
        SafeQuiet(n, h, h, s, BecomeFollower(SetTerm(s, r.term)));
      } else if s.term == r.term && !r.success {
        SafeBackOff(n, h, s, p.src, r.currentIdx);
        BackOffKeeps(s, p.src, r.currentIdx);
      } else if s.term == r.term {
        ResponseInReign(n, h, sent, s, p);
        SafeAcknowledge(n, h, s, p.src, r.currentIdx);
        AcknowledgeShape(h, s, p.src, r.currentIdx);
      }
    }
  }

  lemma BackOffKeeps(s: Server, j: nat, k: nat)
    requires j < |s.peers|
    ensures BackOff(s, j, k).server.me == s.me && BackOff(s, j, k).server.term == s.term
  {
  }

  lemma SafeAppendResponse(n: nat, c: Cluster, h: History, k: nat)
    requires Safe(n, c, h) && k < |c.sent| && c.sent[k].msg.AppendResponse?
    ensures c.sent[k].dst < |c.servers| && c.sent[k].src < |c.servers[c.sent[k].dst].peers|
    ensures Safe(n, React(c, c.sent[k].dst,
                          RecvAppendResponse(c.servers[c.sent[k].dst], c.sent[k].src, c.sent[k].msg)), h)
  {
    hide Inv;
    hide Safe;
    hide HistoryOk;
    hide ServerOk;
    hide SafeServer;
    hide PacketOk;
    hide SafePacket;
    hide SafeOut;
    hide AckedOk;
    hide AckStep;
    hide LeaderOk;
    hide ReignsOk;
    hide RecvAppendResponse;
    SafeDelivery(n, c, h, k);
    var p := c.sent[k];
    var s := c.servers[p.dst];
    SafeFacts(n, c, h, p.dst);
    AppendResponseStep(n, c, h, k);
    SafeRecvAppendResponse(n, h, c.sent, s, p);
    var o := RecvAppendResponse(s, p.src, p.msg);
    GrowsReflexive(h);
    VoteAckStep(h, h, p.dst, o.server.term);
    SafeSimpleStep(n, c, h, p.dst, o, h);
  }

  // ---- Client entries, ticks, applying ----

  lemma EntryData(s: Server, id: nat, data: int)
    requires s.role.Leader? ==> 1 < |s.peers|
    ensures var o := RecvEntry(s, id, data);
            && o.server == s.(log := o.server.log)
            && (s.role.Leader? ==> o.out == AppendsFrom(o.server, 0, false))
            && (!s.role.Leader? ==> o.out == [])
  {
  }

  lemma SafeClientEntry(n: nat, c: Cluster, h: History, i: nat, id: nat, data: int) returns (h': History)
    requires Safe(n, c, h) && i < n
    ensures i < |c.servers| && Grows(h, h') && Safe(n, React(c, i, RecvEntry(c.servers[i], id, data)), h')
  {
    hide Inv;
    hide Safe;
    hide Grows;
    hide HistoryOk;
    hide ServerOk;
    hide SafeServer;
    hide SafeOut;
    hide AckedOk;
    hide AckStep;
    hide AppendsFrom;
    SafeFacts(n, c, h, i);
    var s := c.servers[i];
    h' := EntryStep(n, c, h, i, id, data);
    var o := RecvEntry(s, id, data);
    EntryData(s, id, data);
    hide RecvEntry;
    if EntryRecorded(h, h', o.server) && o.server.log != s.log {
      SafeEntry(n, h, h', s, o.server);
    } else {
      GrowsReflexive(h);
      VoteAckStep(h, h, i, s.term);
    }
    if s.role.Leader? {
      LeaderFactsAfter(n, c, h', i, o);
      ServerCommits(n, h', o.server);
      SafeAppends(n, h', o.server, false);
    } else {
      NothingToSend(n, h');
    }
    SafeSimpleStep(n, c, h, i, o, h');
  }

  lemma ServerCommits(n: nat, h: History, s: Server)
    requires SafeServer(n, h, s)
    ensures CommitSound(n, h, s) && s.commitIdx <= |s.log|
  {
  }

  lemma ApplySafe(n: nat, h: History, s: Server)
    requires SafeServer(n, h, s)
    ensures SafeServer(n, h, ApplyEntry(s)) && ApplyEntry(s).me == s.me && ApplyEntry(s).term == s.term
  {
    var s' := ApplyEntry(s);
    assert CommitSound(n, h, s');
    assert AppliedOk(s');
  }

  lemma SafeApply(n: nat, c: Cluster, h: History, i: nat)
    requires Safe(n, c, h) && i < n
    ensures i < |c.servers| && Safe(n, React(c, i, Outcome(ApplyEntry(c.servers[i]), [])), h)
  {
    hide Inv;
    hide Safe;
    hide HistoryOk;
    hide ServerOk;
    hide SafeServer;
    hide SafeOut;
    hide AckedOk;
    hide AckStep;
    SafeFacts(n, c, h, i);
    ApplyStep(n, c, h, i);
    ApplySafe(n, h, c.servers[i]);
    GrowsReflexive(h);
    VoteAckStep(h, h, i, c.servers[i].term);
    NothingToSend(n, h);
    SafeSimpleStep(n, c, h, i, Outcome(ApplyEntry(c.servers[i]), []), h);
  }

  lemma CandidacyData(s: Server)
    ensures var o := BecomeCandidate(s);
            && SameData(s, o.server) && o.server.term == s.term + 1 && o.server.role.Candidate?
            && forall k :: 0 <= k < |o.out| ==> o.out[k].msg.RequestVote?
  {
    VoteRequestsShape(BecomeCandidate(s).server, 0);
  }

  lemma SafeTimeOut(n: nat, c: Cluster, h: History, i: nat, timedOut: bool) returns (h': History)
    requires Safe(n, c, h) && i < n
    ensures i < |c.servers| && Grows(h, h') && Safe(n, React(c, i, TimeOut(c.servers[i], timedOut)), h')
  {
    hide Inv;
    hide Safe;
    hide Grows;
    hide HistoryOk;
    hide ServerOk;
    hide SafeServer;
    hide SafeOut;
    hide AppendsFrom;
    hide BecomeCandidate;
    SafeFacts(n, c, h, i);
    var s := c.servers[i];
    h' := TimeOutStep(n, c, h, i, timedOut);
    var o := TimeOut(s, timedOut);
    if !s.role.Leader? && timedOut && 1 < n {
      CandidacyData(s);
      VoteReplySafe(n, h', o.out);
    } else {
      if s.role.Leader? && timedOut {
        ServerCommits(n, h, s);
        SafeAppends(n, h, s, true);
      }
      NothingToSend(n, h);
      IdleTimeOut(s, timedOut);
    }
    SafeDataStep(n, c, h, i, o, h');
  }

  lemma IdleTimeOut(s: Server, timedOut: bool)
    requires s.role.Leader? || !timedOut || |s.peers| <= 1
    ensures SameData(s, TimeOut(s, timedOut).server) && TimeOut(s, timedOut).server == s
  {
  }

  lemma SafeTick(n: nat, c: Cluster, h: History, i: nat, timedOut: bool) returns (h': History)
    requires Safe(n, c, h) && i < n
    ensures i < |c.servers| && Grows(h, h') && Safe(n, React(c, i, Periodic(c.servers[i], timedOut)), h')
  {
    hide Safe;
    hide Inv;
    hide Grows;
    hide HistoryOk;
    hide ServerOk;
    SafeFacts(n, c, h, i);
    h' := SafeTimeOut(n, c, h, i, timedOut);
    var o := TimeOut(c.servers[i], timedOut);
    var c1 := React(c, i, o);
    SafeApply(n, c1, h', i);
    var c2 := React(c1, i, Outcome(ApplyEntry(o.server), []));
    var c' := React(c, i, Periodic(c.servers[i], timedOut));
    assert c2.sent == c1.sent;
    assert c' == c1 || c' == c2;
  }

  // ---- Every event, every run ----

  /** Every event that cuts nothing acknowledged keeps the invariant. */
  lemma SafeNext(n: nat, c: Cluster, h: History, ev: Event) returns (h': History)
    requires Safe(n, c, h) && !CutsAcked(c, ev)
    ensures Grows(h, h') && Safe(n, Next(c, ev), h')
  {
    hide Safe;
    hide Inv;
    hide Grows;
    hide RecvRequestVote;
    hide RecvVoteResponse;
    hide RecvAppend;
    hide RecvAppendResponse;
    hide Periodic;
    hide RecvEntry;
    hide ApplyEntry;
    ServerCount(n, c, h);
    GrowsReflexive(h);
    h' := h;
    match ev {
      case Deliver(k) =>
        if Deliverable(c, k) {
          match c.sent[k].msg {
            case RequestVote(_, _, _, _) => h' := SafeRequestVote(n, c, h, k);
            case VoteResponse(_, _) => h' := SafeVoteResponse(n, c, h, k);
            case Append(_, _, _, _, _) => h' := SafeAppend(n, c, h, k);
            case AppendResponse(_, _, _, _) => SafeAppendResponse(n, c, h, k);
          }
        }
      case ClientEntry(i, id, data) =>
        if i < n { h' := SafeClientEntry(n, c, h, i, id, data); }
      case Tick(i, timedOut) =>
        if i < n { h' := SafeTick(n, c, h, i, timedOut); }
      case ApplyNext(i) =>
        if i < n { SafeApply(n, c, h, i); }
    }
  }

  lemma ServerCount(n: nat, c: Cluster, h: History)
    requires Safe(n, c, h)
    ensures |c.servers| == n
  {
  }

  lemma SafeStart(n: nat)
    ensures Safe(n, Start(n), NEW_HISTORY)
  {
    InvStart(n);
  }

  /** Every run that cuts nothing acknowledged has a safe history. */
  lemma {:induction false} RunIsSafe(n: nat, events: seq<Event>) returns (h: History)
    requires NoAckCut(n, events)
    ensures Safe(n, Run(n, events), h)
  {
    hide Safe;
    if |events| == 0 {
      h := NEW_HISTORY;
      SafeStart(n);
    } else {
      var h0 := RunIsSafe(n, events[..|events| - 1]);
      h := SafeNext(n, Run(n, events[..|events| - 1]), h0, events[|events| - 1]);
    }
  }
}
