/** The second invariant: what is committed stays.  It holds as long as no delivered append
    cuts away entries that its receiver has acknowledged. */
module RaftSafety {
  import opened RaftProtocol
  import opened RaftCluster
  import opened RaftHistory
  import opened RaftMerge
  import opened RaftInduction
  import opened RaftCompleteness

  // ---- Servers ----

  /** The first `c` entries of `log` are committed: they are those of the leader of `t`, and
      `m >= c` was committed there. */
  ghost predicate CommitWitness(n: nat, h: History, me: nat, log: seq<Entry>, c: nat, term: nat, t: nat, m: nat) {
    && t <= term
    && Committed(n, h, t, m)
    && c <= m && c <= |log|
    && log[..c] == h.reigns[t].log[..c]
    && (t == term ==> c <= Acked(h, me, t))
  }

  ghost predicate CommitSound(n: nat, h: History, s: Server) {
    s.commitIdx == 0 || exists t: nat, m: nat :: CommitWitness(n, h, s.me, s.log, s.commitIdx, s.term, t, m)
  }

  ghost predicate AppliedOk(s: Server) {
    s.appliedIdx <= s.commitIdx <= |s.log| && s.applied == s.log[..s.appliedIdx]
  }

  ghost predicate MatchesAcked(h: History, s: Server) {
    s.role.Leader? ==> forall j :: 0 <= j < |s.peers| && j != s.me ==> s.peers[j].matchIdx <= Acked(h, j, s.term)
  }

  ghost predicate AckTermsOk(h: History, s: Server) {
    forall t :: (s.me, t) in h.acked ==> t <= s.term
  }

  ghost predicate SafeServer(n: nat, h: History, s: Server) {
    && s.fired == {}
    && AppliedOk(s)
    && CommitSound(n, h, s)
    && KeepsAcked(h, s.me, s.log, s.term)
    && AckTermsOk(h, s)
    && MatchesAcked(h, s)
  }

  // ---- Packets ----

  /** A leader of term `u` announces that its first `c` entries are committed. */
  ghost predicate AnnounceWitness(n: nat, h: History, u: nat, c: nat, t: nat, m: nat) {
    && t <= u && u in h.reigns
    && Committed(n, h, t, m)
    && c <= m && c <= |h.reigns[u].log|
    && h.reigns[t].log[..c] == h.reigns[u].log[..c]
  }

  ghost predicate Announced(n: nat, h: History, u: nat, c: nat) {
    c == 0 || exists t: nat, m: nat :: AnnounceWitness(n, h, u, c, t, m)
  }

  function AppendEnd(ae: Message): nat
    requires ae.Append?
  {
    ae.prevIdx + |ae.entries|
  }

  ghost predicate SafePacket(n: nat, h: History, p: Packet) {
    match p.msg
    case Append(u, _, _, c, _) => Announced(n, h, u, c) && c <= AppendEnd(p.msg)
    case AppendResponse(t, success, k, _) => success ==> k <= Acked(h, p.src, t)
    case _ => true
  }

  // ---- The order of appends ----

  predicate SameStream(p: Packet, q: Packet) {
    p.msg.Append? && q.msg.Append? && p.src == q.src && p.dst == q.dst && p.msg.term == q.msg.term
  }

  /** Within one term and link, later appends reach at least as far. */
  ghost predicate AppendsAdvance(sent: seq<Packet>) {
    forall k1, k2 :: 0 <= k1 <= k2 < |sent| && SameStream(sent[k1], sent[k2]) ==>
      AppendEnd(sent[k1].msg) <= AppendEnd(sent[k2].msg)
  }

  // ---- Acknowledgements ----

  ghost predicate AckSent(sent: seq<Packet>, v: nat, t: nat, k: nat, r: nat) {
    && r < |sent| && sent[r].src == v && sent[r].msg.AppendResponse? && sent[r].msg.success
    && sent[r].msg.term == t && sent[r].msg.currentIdx == k
  }

  /** Every acknowledgement on record was sent. */
  ghost predicate AcksSent(sent: seq<Packet>, h: History) {
    forall v, t :: (v, t) in h.acked ==> exists r: nat :: AckSent(sent, v, t, h.acked[(v, t)], r)
  }

  ghost predicate Safe(n: nat, c: Cluster, h: History) {
    && Inv(n, c, h)
    && AckedOk(n, h)
    && BallotsKeep(h)
    && (forall i :: 0 <= i < n ==> SafeServer(n, h, c.servers[i]))
    && (forall k :: 0 <= k < |c.sent| ==> SafePacket(n, h, c.sent[k]))
    && AppendsAdvance(c.sent)
    && AcksSent(c.sent, h)
  }

  // ---- Everything recorded stays recorded ----

  /** Nothing but what server `i` acknowledged in term `t0` is new. */
  ghost predicate AckStep(h: History, h': History, i: nat, t0: nat) {
    && Grows(h, h')
    && (forall v, t {:trigger Acked(h', v, t)} :: v != i || t != t0 ==> Acked(h', v, t) == Acked(h, v, t))
    && (forall v, t {:trigger Acked(h', v, t)} :: Acked(h, v, t) <= Acked(h', v, t))
  }

  lemma CommittedGrows(n: nat, h: History, h': History, i: nat, t0: nat, t: nat, m: nat)
    requires AckStep(h, h', i, t0) && Committed(n, h, t, m)
    ensures Committed(n, h', t, m) && h'.reigns[t].log[..m] == h.reigns[t].log[..m]
  {
    var a, a' := AckSet(n, h, t, m), AckSet(n, h', t, m);
    assert a <= a' by {
      forall v | v in a ensures v in a' {
        assert Acked(h, v, t) <= Acked(h', v, t);
      }
    }
    SubsetSize(a, a');
    assert h.reigns[t].log <= h'.reigns[t].log;
  }

  lemma SubsetSize(a: set<nat>, b: set<nat>)
    requires a <= b
    ensures |a| <= |b|
  {
    assert b == a + (b - a);
  }

  lemma KeepsGrows(h: History, h': History, log: seq<Entry>, t: nat, m: nat, u: int, u': int)
    requires Grows(h, h') && t in h.reigns && m <= |h.reigns[t].log| && u <= u'
    requires Keeps(h, log, t, m, u)
    ensures Keeps(h', log, t, m, u')
  {
    assert h'.reigns[t].log[..m] == h.reigns[t].log[..m];
    if Blocked(h, t, m, u) {
      var w :| t < w <= u && w in h.reigns && !(h.reigns[t].log[..m] <= h.reigns[w].base);
      assert w in h'.reigns && h'.reigns[w].base == h.reigns[w].base;
    }
  }

  /** A log keeps what its owner acknowledged when others move on, and when its own term rises. */
  lemma KeepsAckedGrows(n: nat, h: History, h': History, i: nat, t0: nat, v: nat, log: seq<Entry>, u: int, u': int)
    requires AckStep(h, h', i, t0) && AckedOk(n, h) && KeepsAcked(h, v, log, u) && u <= u'
    requires v != i || u' < t0
    requires forall t :: t in h.reigns && u < t <= u' ==> Acked(h, v, t) == 0
    ensures KeepsAcked(h', v, log, u')
  {
    forall t, m: nat | t in h'.reigns && t <= u' && m <= Acked(h', v, t) && m <= |h'.reigns[t].log|
      ensures Keeps(h', log, t, m, u')
    {
      assert Acked(h', v, t) == Acked(h, v, t);
      if m == 0 {
        assert h'.reigns[t].log[..0] == [];
      } else {
        assert t in h.reigns;
        assert Keeps(h, log, t, m, u);
        KeepsGrows(h, h', log, t, m, u, u');
      }
    }
  }

  lemma CommitWitnessGrows(n: nat, h: History, h': History, i: nat, t0: nat,
                           me: nat, log: seq<Entry>, c: nat, term: nat, term': nat, t: nat, m: nat)
    requires AckStep(h, h', i, t0) && CommitWitness(n, h, me, log, c, term, t, m) && term <= term'
    ensures CommitWitness(n, h', me, log, c, term', t, m)
  {
    CommittedGrows(n, h, h', i, t0, t, m);
    assert Acked(h, me, t) <= Acked(h', me, t);
    assert h'.reigns[t].log[..c] == h'.reigns[t].log[..m][..c] == h.reigns[t].log[..m][..c] == h.reigns[t].log[..c];
  }

  lemma CommitSoundGrows(n: nat, h: History, h': History, i: nat, t0: nat, s: Server, s': Server)
    requires AckStep(h, h', i, t0) && CommitSound(n, h, s)
    requires s'.me == s.me && s'.log == s.log && s'.commitIdx == s.commitIdx && s.term <= s'.term
    ensures CommitSound(n, h', s')
  {
    if s.commitIdx != 0 {
      var t: nat, m: nat :| CommitWitness(n, h, s.me, s.log, s.commitIdx, s.term, t, m);
      CommitWitnessGrows(n, h, h', i, t0, s.me, s.log, s.commitIdx, s.term, s'.term, t, m);
    }
  }

  /** Other servers' steps keep a server safe. */
  lemma SafeBystander(n: nat, h: History, h': History, i: nat, t0: nat, s: Server)
    requires AckStep(h, h', i, t0) && AckedOk(n, h) && SafeServer(n, h, s) && s.me != i
    requires forall v, t :: (v, t) in h'.acked && (v, t) !in h.acked ==> v == i
    ensures SafeServer(n, h', s)
  {
    CommitSoundGrows(n, h, h', i, t0, s, s);
    KeepsAckedGrows(n, h, h', i, t0, s.me, s.log, s.term, s.term);
    forall j | s.role.Leader? && 0 <= j < |s.peers| && j != s.me
      ensures s.peers[j].matchIdx <= Acked(h', j, s.term)
    {
      assert Acked(h, j, s.term) <= Acked(h', j, s.term);
    }
  }

  lemma AnnouncedGrows(n: nat, h: History, h': History, i: nat, t0: nat, u: nat, c: nat)
    requires AckStep(h, h', i, t0) && Announced(n, h, u, c)
    ensures Announced(n, h', u, c)
  {
    if c != 0 {
      var t: nat, m: nat :| AnnounceWitness(n, h, u, c, t, m);
      CommittedGrows(n, h, h', i, t0, t, m);
      assert h.reigns[u].log <= h'.reigns[u].log;
      assert h'.reigns[t].log[..c] == h'.reigns[t].log[..m][..c] == h.reigns[t].log[..m][..c] == h.reigns[t].log[..c];
      assert h'.reigns[u].log[..c] == h.reigns[u].log[..c];
      assert AnnounceWitness(n, h', u, c, t, m);
    }
  }

  lemma SafePacketGrows(n: nat, h: History, h': History, i: nat, t0: nat, p: Packet)
    requires AckStep(h, h', i, t0) && SafePacket(n, h, p)
    ensures SafePacket(n, h', p)
  {
    if p.msg.Append? {
      AnnouncedGrows(n, h, h', i, t0, p.msg.term, p.msg.leaderCommit);
    } else if p.msg.AppendResponse? && p.msg.success {
      assert Acked(h, p.src, p.msg.term) <= Acked(h', p.src, p.msg.term);
    }
  }

  /** Votes already cast keep what they kept: their voter has moved on to a later term. */
  lemma BallotKeepsGrows(n: nat, h: History, h': History, i: nat, t0: nat, b: Ballot)
    requires AckStep(h, h', i, t0) && AckedOk(n, h) && BallotKeeps(h, b)
    requires b.voter == i ==> b.term <= t0
    ensures BallotKeeps(h', b)
  {
    if Outvoted(h, b.voter, b.term) {
      assert Outvoted(h', b.voter, b.term);
    } else {
      KeepsAckedGrows(n, h, h', i, t0, b.voter, b.log, b.term - 1, b.term - 1);
    }
  }

  // ---- Putting a step back together ----

  /** Appends carry their sender's whole log from the peer's next index on. */
  ghost predicate OutAtEnd(h: History, out: seq<Packet>) {
    forall k :: 0 <= k < |out| && out[k].msg.Append? ==>
      out[k].msg.term in h.reigns && AppendEnd(out[k].msg) == |h.reigns[out[k].msg.term].log|
  }

  ghost predicate EndsInLog(h: History, sent: seq<Packet>) {
    forall k :: 0 <= k < |sent| && sent[k].msg.Append? ==>
      sent[k].msg.term in h.reigns && AppendEnd(sent[k].msg) <= |h.reigns[sent[k].msg.term].log|
  }

  lemma AppendsAdvanceFurther(h: History, sent: seq<Packet>, out: seq<Packet>)
    requires AppendsAdvance(sent) && OutAtEnd(h, out) && EndsInLog(h, sent)
    ensures AppendsAdvance(sent + out)
  {
    var all := sent + out;
    forall k1, k2 | 0 <= k1 <= k2 < |all| && SameStream(all[k1], all[k2])
      ensures AppendEnd(all[k1].msg) <= AppendEnd(all[k2].msg)
    {
      if k2 < |sent| {
        assert SameStream(sent[k1], sent[k2]);
      } else {
        assert all[k2] == out[k2 - |sent|];
        assert k1 < |sent| ==> all[k1] == sent[k1];
        assert k1 >= |sent| ==> all[k1] == out[k1 - |sent|];
      }
    }
  }

  lemma PacketsEndInLog(n: nat, c: Cluster, h: History)
    requires Inv(n, c, h)
    ensures EndsInLog(h, c.sent)
  {
  }

  ghost predicate SafeOut(n: nat, h: History, out: seq<Packet>) {
    OutAtEnd(h, out) && forall k :: 0 <= k < |out| ==> SafePacket(n, h, out[k])
  }

  /** Only server `i` acknowledges anything, and every vote it cast is of a term up to `t0`. */
  ghost predicate ActsAlone(h: History, h': History, i: nat, t0: nat) {
    && (forall v, t :: (v, t) in h'.acked && (v, t) !in h.acked ==> v == i)
    && (forall b :: b in h.ballots && b.voter == i ==> b.term <= t0)
  }

  lemma OldBallotsKeep(n: nat, h: History, h': History, i: nat, t0: nat)
    requires AckStep(h, h', i, t0) && ActsAlone(h, h', i, t0) && AckedOk(n, h) && BallotsKeep(h)
    ensures forall b :: b in h.ballots ==> BallotKeeps(h', b)
  {
    forall b | b in h.ballots ensures BallotKeeps(h', b) {
      BallotKeepsGrows(n, h, h', i, t0, b);
    }
  }

  /** A step of server `i` to `o`, over cluster `c'`, keeps the second invariant. */
  lemma SafeStep(n: nat, c: Cluster, h: History, i: nat, o: Outcome, c': Cluster, h': History)
    requires Safe(n, c, h) && i < n && o.server.me == i
    requires c' == React(c, i, o).(seen := c'.seen) && Inv(n, c', h')
    requires AckStep(h, h', i, o.server.term) && ActsAlone(h, h', i, o.server.term)
    requires AckedOk(n, h') && AcksSent(c'.sent, h')
    requires forall b :: b in h'.ballots && b !in h.ballots ==> BallotKeeps(h', b)
    requires SafeServer(n, h', o.server) && SafeOut(n, h', o.out)
    ensures Safe(n, c', h')
  {
    var t0 := o.server.term;
    OldBallotsKeep(n, h, h', i, t0);
    forall j | 0 <= j < n ensures SafeServer(n, h', c'.servers[j]) {
      if j != i {
        assert c.servers[j].me == j;
        SafeBystander(n, h, h', i, t0, c.servers[j]);
      }
    }
    forall k | 0 <= k < |c'.sent| ensures SafePacket(n, h', c'.sent[k]) {
      if k < |c.sent| {
        SafePacketGrows(n, h, h', i, t0, c.sent[k]);
      } else {
        assert c'.sent[k] == o.out[k - |c.sent|];
      }
    }
    OldEndsInLog(n, c, h, h');
    AppendsAdvanceFurther(h', c.sent, o.out);
  }

  lemma OldEndsInLog(n: nat, c: Cluster, h: History, h': History)
    requires Inv(n, c, h) && Grows(h, h')
    ensures EndsInLog(h', c.sent)
  {
    PacketsEndInLog(n, c, h);
  }

  /** Acknowledgements already sent stay sent. */
  lemma AcksStaySent(sent: seq<Packet>, h: History, out: seq<Packet>, h': History)
    requires AcksSent(sent, h) && h'.acked == h.acked
    ensures AcksSent(sent + out, h')
  {
    forall v, t | (v, t) in h'.acked ensures exists r: nat :: AckSent(sent + out, v, t, h'.acked[(v, t)], r) {
      var r: nat :| AckSent(sent, v, t, h.acked[(v, t)], r);
      assert AckSent(sent + out, v, t, h'.acked[(v, t)], r);
    }
  }
}
