/** When a leader raises its commit index, a majority holds what it commits. */
module RaftLeader {
  import opened RaftProtocol
  import opened RaftCluster
  import opened RaftHistory
  import opened RaftMerge
  import opened RaftInduction
  import opened RaftCompleteness
  import opened RaftSafety
  import opened RaftFollower

  // ---- The commit test (lines 234-254) ----

  /** The peers that line 248 counts for `point`. */
  function Counted(s: Server, point: nat): set<nat> {
    set j | 0 <= j < |s.peers| && CountsFor(s, point, j)
  }

  lemma {:induction false} AcksAreCounted(s: Server, point: nat, j: nat)
    requires j <= |s.peers|
    ensures AcksFrom(s, point, j) == |set k | j <= k < |s.peers| && CountsFor(s, point, k)|
    decreases |s.peers| - j
  {
    hide CountsFor;
    var from := set k | j <= k < |s.peers| && CountsFor(s, point, k);
    if j == |s.peers| {
      assert from == {};
    } else {
      AcksAreCounted(s, point, j + 1);
      var rest := set k | j + 1 <= k < |s.peers| && CountsFor(s, point, k);
      assert from == if CountsFor(s, point, j) then rest + {j} else rest;
    }
  }

  /** The servers that hold the leader's log up to `m`, by the leader's own records. */
  function Holders(s: Server, m: nat): set<nat> {
    (set j | 0 <= j < |s.peers| && j != s.me && m <= s.peers[j].matchIdx) + {s.me}
  }

  lemma {:induction false} LeastMatch(s: Server, a: set<nat>) returns (j: nat)
    requires a != {} && forall x :: x in a ==> x < |s.peers|
    ensures j in a && forall x :: x in a ==> s.peers[j].matchIdx <= s.peers[x].matchIdx
    decreases |a|
  {
    j :| j in a;
    if a != {j} {
      assert a == (a - {j}) + {j};
      var k := LeastMatch(s, a - {j});
      if s.peers[k].matchIdx < s.peers[j].matchIdx {
        j := k;
      }
    }
  }

  /** The commit test looks at the term at each peer's match index.  When it lets `point`
      pass, some index at or above `point` holds an entry of the current term and a majority
      has the log up to there. */
  lemma CommitTestIsSound(s: Server, point: nat) returns (m: nat)
    requires s.me < |s.peers| && 1 < |s.peers|
    requires |s.peers| / 2 < 1 + AcksFrom(s, point, 0)
    ensures point <= m && 1 <= m <= |s.log| && s.log[m - 1].term == s.term
    ensures |s.peers| / 2 < |Holders(s, m)|
  {
    AcksAreCounted(s, point, 0);
    var a := Counted(s, point);
    assert a == set k | 0 <= k < |s.peers| && CountsFor(s, point, k);
    assert a != {};
    var j := LeastMatch(s, a);
    m := s.peers[j].matchIdx;
    assert s.me !in a;
    assert a + {s.me} <= Holders(s, m);
    SubsetSize(a + {s.me}, Holders(s, m));
  }

  // ---- Sending appends ----

  lemma LeaderAnnounces(n: nat, h: History, s: Server)
    requires s.role.Leader? && LeaderOk(h, s) && CommitSound(n, h, s) && s.commitIdx <= |s.log|
    ensures Announced(n, h, s.term, s.commitIdx)
  {
    if s.commitIdx != 0 {
      var t: nat, m: nat :| CommitWitness(n, h, s.me, s.log, s.commitIdx, s.term, t, m);
      assert AnnounceWitness(n, h, s.term, s.commitIdx, t, m);
    }
  }

  lemma AppendForSafe(n: nat, h: History, s: Server, j: nat)
    requires s.role.Leader? && LeaderOk(h, s) && CommitSound(n, h, s) && s.commitIdx <= |s.log|
    requires j < |s.peers| && j != s.me
    ensures var p := AppendFor(s, j);
            p.msg.Append? && p.msg.term == s.term && SafePacket(n, h, p) && AppendEnd(p.msg) == |s.log|
  {
    hide CommitSound;
    hide Announced;
    LeaderAnnounces(n, h, s);
  }

  lemma SafeAppends(n: nat, h: History, s: Server, all: bool)
    requires s.role.Leader? && LeaderOk(h, s) && CommitSound(n, h, s) && s.commitIdx <= |s.log|
    ensures SafeOut(n, h, AppendsFrom(s, 0, all))
  {
    hide CommitSound;
    hide SafePacket;
    hide AppendFor;
    var out := AppendsFrom(s, 0, all);
    AppendsShape(s, 0, all);
    forall k | 0 <= k < |out|
      ensures SafePacket(n, h, out[k]) && out[k].msg.Append? && out[k].msg.term == s.term
      ensures AppendEnd(out[k].msg) == |s.log|
    {
      AppendForSafe(n, h, s, out[k].dst);
    }
  }

  lemma SafeSingle(n: nat, h: History, s: Server, j: nat)
    requires s.role.Leader? && LeaderOk(h, s) && CommitSound(n, h, s) && s.commitIdx <= |s.log|
    requires j < |s.peers| && j != s.me
    ensures SafeOut(n, h, [AppendFor(s, j)])
  {
    hide CommitSound;
    hide SafePacket;
    hide AppendFor;
    AppendForSafe(n, h, s, j);
  }

  // ---- Responses ----

  lemma SafeBackOff(n: nat, h: History, s: Server, j: nat, k: nat)
    requires s.role.Leader? && LeaderOk(h, s) && SafeServer(n, h, s) && j < |s.peers| && j != s.me
    ensures SafeServer(n, h, BackOff(s, j, k).server) && SafeOut(n, h, BackOff(s, j, k).out)
  {
    hide SafeOut;
    hide AppendFor;
    hide KeepsAcked;
    var s1 := BackOff(s, j, k).server;
    assert CommitSound(n, h, s1);
    hide CommitSound;
    SafeSingle(n, h, s1, j);
  }

  /** A majority that acknowledged an entry of the leader's own term commits it. */
  lemma MajorityCommits(n: nat, h: History, s: Server, m: nat)
    requires |s.peers| == n && s.me < n && s.role.Leader? && LeaderOk(h, s) && MatchesAcked(h, s)
    requires 1 <= m <= |s.log| && s.log[m - 1].term == s.term && n / 2 < |Holders(s, m)|
    ensures Committed(n, h, s.term, m)
  {
    var q := AckSet(n, h, s.term, m);
    assert Holders(s, m) <= q;
    SubsetSize(Holders(s, m), q);
  }

  lemma AcknowledgeCommits(n: nat, h: History, s: Server, c: nat)
    requires |s.peers| == n && s.me < n && 1 < n && s.role.Leader? && LeaderOk(h, s) && MatchesAcked(h, s)
    requires n / 2 < 1 + AcksFrom(s, c, 0)
    ensures exists m: nat :: CommitWitness(n, h, s.me, s.log, c, s.term, s.term, m)
  {
    var m := CommitTestIsSound(s, c);
    MajorityCommits(n, h, s, m);
    assert CommitWitness(n, h, s.me, s.log, c, s.term, s.term, m);
  }

  lemma SafeAcknowledge(n: nat, h: History, s: Server, j: nat, k: nat)
    requires |s.peers| == n && s.me < n && 1 < n && j < n && j != s.me
    requires s.role.Leader? && LeaderOk(h, s) && SafeServer(n, h, s)
    requires k <= |s.log| && k <= Acked(h, j, s.term)
    ensures SafeServer(n, h, Acknowledge(s, j, k).server) && SafeOut(n, h, Acknowledge(s, j, k).out)
  {
    hide KeepsAcked;
    hide Acknowledge;
    hide SafeOut;
    hide AppendFor;
    AcknowledgeShape(h, s, j, k);
    var s1 := s.(peers := s.peers[j := s.peers[j].(nextIdx := k + 1, matchIdx := k)]);
    var o := Acknowledge(s, j, k);
    assert LeaderOk(h, s1) && MatchesAcked(h, s1);
    if o.server.commitIdx != s.commitIdx {
      AcknowledgeCommits(n, h, s1, k);
      var m: nat :| CommitWitness(n, h, s1.me, s1.log, k, s1.term, s1.term, m);
    }
    assert CommitSound(n, h, o.server);
    hide CommitSound;
    SafeSingle(n, h, o.server, j);
    NothingToSend(n, h);
  }

  lemma NothingToSend(n: nat, h: History)
    ensures SafeOut(n, h, [])
  {
  }

  // ---- Client entries ----

  lemma ExtendAckStep(n: nat, h: History, h': History, s: Server)
    requires AckedOk(n, h) && EntryRecorded(h, h', s) && Grows(h, h')
    ensures AckStep(h, h', s.me, s.term) && AckedOk(n, h')
  {
  }

  /** A leader's own log keeps everything it acknowledged when it grows. */
  lemma ExtendKeeps(n: nat, h: History, h': History, s: Server, log: seq<Entry>)
    requires EntryRecorded(h, h', s) && AckStep(h, h', s.me, s.term) && log == h.reigns[s.term].log
    requires KeepsAcked(h, s.me, log, s.term)
    ensures KeepsAcked(h', s.me, s.log, s.term)
  {
    assert s.log == log + [s.log[|s.log| - 1]];
    assert h'.reigns[s.term].log == s.log;
    forall t, m: nat | t in h'.reigns && t <= s.term && m <= Acked(h', s.me, t) && m <= |h'.reigns[t].log|
      ensures Keeps(h', s.log, t, m, s.term)
    {
      if t != s.term {
        assert Acked(h', s.me, t) == Acked(h, s.me, t);
        assert Keeps(h, log, t, m, s.term);
        KeepsGrows(h, h', log, t, m, s.term, s.term);
      }
    }
  }

  lemma ExtendCommits(n: nat, h: History, h': History, s: Server, s': Server)
    requires AckStep(h, h', s.me, s.term) && CommitSound(n, h, s) && AppliedOk(s)
    requires s.log <= s'.log && s' == s.(log := s'.log)
    ensures CommitSound(n, h', s') && AppliedOk(s')
  {
    assert s'.log[..s.commitIdx] == s.log[..s.commitIdx];
    assert s'.log[..s.appliedIdx] == s.log[..s.appliedIdx];
    if s.commitIdx != 0 {
      var t: nat, m: nat :| CommitWitness(n, h, s.me, s.log, s.commitIdx, s.term, t, m);
      CommitWitnessGrows(n, h, h', s.me, s.term, s.me, s.log, s.commitIdx, s.term, s.term, t, m);
      assert CommitWitness(n, h', s'.me, s'.log, s'.commitIdx, s'.term, t, m);
    }
  }

  lemma MatchesGrow(h: History, h': History, s: Server, s': Server)
    requires AckStep(h, h', s.me, s.term) && MatchesAcked(h, s) && s' == s.(log := s'.log)
    ensures MatchesAcked(h', s')
  {
    forall j | s'.role.Leader? && 0 <= j < |s'.peers| && j != s'.me
      ensures s'.peers[j].matchIdx <= Acked(h', j, s'.term)
    {
      assert Acked(h, j, s.term) <= Acked(h', j, s.term);
    }
  }

  lemma SafeEntry(n: nat, h: History, h': History, s: Server, s': Server)
    requires AckedOk(n, h) && SafeServer(n, h, s) && s.role.Leader? && LeaderOk(h, s)
    requires EntryRecorded(h, h', s') && Grows(h, h') && s' == s.(log := s'.log)
    ensures AckStep(h, h', s.me, s.term) && AckedOk(n, h') && SafeServer(n, h', s')
  {
    hide KeepsAcked;
    hide CommitSound;
    hide AppliedOk;
    ExtendAckStep(n, h, h', s');
    ExtendKeeps(n, h, h', s', s.log);
    ExtendCommits(n, h, h', s, s');
    MatchesGrow(h, h', s, s');
  }

  // ---- Elections ----

  lemma CrownAckStep(n: nat, h: History, h': History, s: Server)
    requires AckedOk(n, h) && ReignRecorded(h, h', s) && Grows(h, h')
    ensures AckStep(h, h', s.me, s.term) && AckedOk(n, h')
  {
  }

  lemma CrownKeeps(n: nat, h: History, h': History, s: Server)
    requires ReignRecorded(h, h', s) && AckStep(h, h', s.me, s.term) && KeepsAcked(h, s.me, s.log, s.term)
    ensures KeepsAcked(h', s.me, s.log, s.term)
  {
    forall t, m: nat | t in h'.reigns && t <= s.term && m <= Acked(h', s.me, t) && m <= |h'.reigns[t].log|
      ensures Keeps(h', s.log, t, m, s.term)
    {
      if t != s.term {
        assert Acked(h', s.me, t) == Acked(h, s.me, t);
        assert Keeps(h, s.log, t, m, s.term);
        KeepsGrows(h, h', s.log, t, m, s.term, s.term);
      }
    }
  }

  lemma SafeCrown(n: nat, h: History, h': History, s: Server, s': Server)
    requires AckedOk(n, h) && SafeServer(n, h, s) && ReignRecorded(h, h', s') && Grows(h, h')
    requires SameData(s, s') && s'.term == s.term
    requires forall j :: 0 <= j < |s'.peers| && j != s'.me ==> s'.peers[j].matchIdx == 0
    ensures AckStep(h, h', s.me, s.term) && AckedOk(n, h') && SafeServer(n, h', s')
  {
    hide KeepsAcked;
    hide CommitSound;
    CrownAckStep(n, h, h', s');
    CrownKeeps(n, h, h', s');
    CommitSoundGrows(n, h, h', s.me, s.term, s, s');
  }

  /** A term without a leader removes nothing. */
  lemma KeepsBelow(h: History, v: nat, log: seq<Entry>, u: nat, below: int)
    requires KeepsAcked(h, v, log, u) && u !in h.reigns && below == u - 1
    ensures KeepsAcked(h, v, log, below)
  {
    forall t, m: nat | t in h.reigns && t <= below && m <= Acked(h, v, t) && m <= |h.reigns[t].log|
      ensures Keeps(h, log, t, m, below)
    {
      assert Keeps(h, log, t, m, u);
      if Blocked(h, t, m, u) {
        var w :| t < w <= u && w in h.reigns && !(h.reigns[t].log[..m] <= h.reigns[w].base);
        assert w != u;
      }
    }
  }

  /** A server without a vote in a term that has a leader did not elect that leader. */
  lemma LateVoteIsOutvoted(n: nat, h: History, s: Server)
    requires HistoryOk(n, h) && VoterOk(h, s) && s.votedFor == NOBODY && s.term in h.reigns
    ensures Outvoted(h, s.me, s.term)
  {
    assert ReignOk(n, h, s.term);
  }

  /** A vote that can count is cast with everything acknowledged in earlier terms in the log. */
  lemma NewVoteKeeps(n: nat, h: History, h': History, s: Server, s': Server)
    requires HistoryOk(n, h) && AckedOk(n, h) && VoterOk(h, s) && ReignsOk(h, s) && SafeServer(n, h, s)
    requires VoteRecorded(h, h', s') && SameData(s, s') && Grows(h, h')
    requires s.term < s'.term || (s.term == s'.term && s.votedFor == NOBODY)
    ensures BallotKeeps(h', Ballot(s'.me, s'.term, s'.votedFor, s'.log))
  {
    hide HistoryOk;
    hide VoterOk;
    hide CommitSound;
    hide KeepsAcked;
    var below := s'.term - 1;
    VoteAckStep(h, h', s.me, s'.term);
    if s.term < s'.term {
      NoLaterAcks(n, h, s);
      KeepsAckedGrows(n, h, h', s.me, s'.term, s.me, s.log, s.term, below);
    } else if s.term in h.reigns {
      LateVoteIsOutvoted(n, h, s);
    } else {
      KeepsBelow(h, s.me, s.log, s.term, below);
      KeepsAckedGrows(n, h, h', s.me, s.term, s.me, s.log, below, below);
    }
  }
}
