/** Every event keeps the invariant of RaftHistory, whatever the network does. */
module RaftInduction {
  import opened RaftProtocol
  import opened RaftCluster
  import opened RaftHistory
  import opened RaftMerge

  // ---- What a step records ----

  function AddBallot(h: History, b: Ballot): History {
    h.(ballots := h.ballots + {b})
  }

  function Extend(h: History, t: nat, e: Entry): History
    requires t in h.reigns
  {
    h.(reigns := h.reigns[t := h.reigns[t].(log := h.reigns[t].log + [e])])
  }

  /** Server `s` has just cast a vote with its present log. */
  ghost predicate VoteRecorded(h: History, h': History, s: Server) {
    s.votedFor >= 0 && h' == AddBallot(h, Ballot(s.me, s.term, s.votedFor, s.log))
  }

  /** Server `s` has just been elected with its present log. */
  ghost predicate ReignRecorded(h: History, h': History, s: Server) {
    && s.role.Leader? && s.term !in h.reigns && s.term in h'.reigns
    && h'.reigns[s.term].leader == s.me
    && h'.reigns[s.term].base == h'.reigns[s.term].log == s.log
    && h' == h.(reigns := h.reigns[s.term := h'.reigns[s.term]])
  }

  /** Leader `s` has just appended the last entry of its log. */
  ghost predicate EntryRecorded(h: History, h': History, s: Server) {
    && s.role.Leader? && s.term in h.reigns && h.reigns[s.term].leader == s.me && 0 < |s.log|
    && s.log[..|s.log| - 1] == h.reigns[s.term].log
    && h' == Extend(h, s.term, s.log[|s.log| - 1])
  }

  // ---- Putting a step back together ----

  /** A step of server `i` that leaves everyone's invariant intact. */
  lemma Reassemble(n: nat, c: Cluster, h: History, i: nat, o: Outcome, h': History)
    requires Inv(n, c, h) && i < n && o.server.me == i
    requires Grows(h, h') && HistoryOk(n, h')
    requires ServerOk(n, h', c.sent + o.out, o.server)
    requires forall j :: 0 <= j < n && j != i ==> ServerOk(n, h', c.sent + o.out, c.servers[j])
    requires OutOk(n, h', i, o.out)
    ensures Inv(n, React(c, i, o), h')
  {
    var c' := React(c, i, o);
    forall k | 0 <= k < |c'.sent| ensures PacketOk(n, h', c'.sent[k]) {
      if k < |c.sent| {
        PacketGrows(n, h, h', c.sent[k]);
      }
    }
  }

  /** What server `s` needs to know about another server's step. */
  ghost predicate Foreign(h: History, h': History, out: seq<Packet>, s: Server) {
    && Grows(h, h')
    && (forall b :: b in h'.ballots && b !in h.ballots ==>
          && b.voter != s.me
          && (b.candidate == s.me ==>
                b.term <= s.term && (b.term == s.term && s.role.Candidate? ==> UpToDate(s.log, b.log))))
    && (forall t :: t in h'.reigns && h'.reigns[t].leader == s.me ==> t in h.reigns && h'.reigns[t] == h.reigns[t])
    && (forall k :: 0 <= k < |out| ==> out[k].src != s.me)
  }

  lemma BystanderOk(n: nat, h: History, h': History, sent: seq<Packet>, out: seq<Packet>, s: Server)
    requires ServerOk(n, h, sent, s) && Foreign(h, h', out, s)
    ensures ServerOk(n, h', sent + out, s)
  {
    DerivedGrows(h, h', s.log);
    BystanderBids(h, h', sent, out, s);
    assert CandidateOk(h', s) by {
      forall j | s.role.Candidate? && 0 <= j < |s.peers| && j != s.me && s.peers[j].votedForMe
        ensures HasBallot(h', j, s.term, s.me)
      {
        assert HasBallot(h, j, s.term, s.me);
      }
    }
  }

  lemma BystanderBids(h: History, h': History, sent: seq<Packet>, out: seq<Packet>, s: Server)
    requires BidsOk(h, sent, s) && Foreign(h, h', out, s)
    ensures BidsOk(h', sent + out, s)
  {
  }

  /** Packets that server `me` may send. */
  ghost predicate OutOk(n: nat, h: History, me: nat, out: seq<Packet>) {
    forall k :: 0 <= k < |out| ==> PacketOk(n, h, out[k]) && out[k].src == me
  }

  ghost predicate NoVoteRequest(out: seq<Packet>) {
    forall k :: 0 <= k < |out| ==> !out[k].msg.RequestVote?
  }

  /** A step of server `i`, given what it means for `i` and for the others. */
  lemma ServerStep(n: nat, c: Cluster, h: History, i: nat, o: Outcome, h': History)
    requires Inv(n, c, h) && i < n && o.server.me == i
    requires HistoryOk(n, h') && Grows(h, h')
    requires ServerOk(n, h', c.sent + o.out, o.server)
    requires forall j :: 0 <= j < n && j != i ==> Foreign(h, h', o.out, c.servers[j])
    requires OutOk(n, h', i, o.out)
    ensures Inv(n, React(c, i, o), h')
  {
    hide HistoryOk;
    forall j | 0 <= j < n && j != i ensures ServerOk(n, h', c.sent + o.out, c.servers[j]) {
      BystanderOk(n, h, h', c.sent, o.out, c.servers[j]);
    }
    hide ServerOk;
    Reassemble(n, c, h, i, o, h');
  }

  /** A step that records nothing new. */
  lemma QuietStep(n: nat, c: Cluster, h: History, i: nat, o: Outcome)
    requires Inv(n, c, h) && i < n && o.server.me == i
    requires ServerOk(n, h, c.sent, o.server) && OutOk(n, h, i, o.out) && NoVoteRequest(o.out)
    ensures Inv(n, React(c, i, o), h)
  {
    hide HistoryOk;
    hide ServerOk;
    hide PacketOk;
    SendOk(n, h, c.sent, o.out, o.server);
    ServerStep(n, c, h, i, o, h);
  }

  /** Sending anything but a vote request keeps the sender's own invariant. */
  lemma SendOk(n: nat, h: History, sent: seq<Packet>, out: seq<Packet>, s: Server)
    requires ServerOk(n, h, sent, s) && NoVoteRequest(out)
    ensures ServerOk(n, h, sent + out, s)
  {
    assert BidsOk(h, sent + out, s);
  }

  // ---- Terms and roles ----

  lemma NewTermOk(n: nat, h: History, sent: seq<Packet>, s: Server, t: nat)
    requires ServerOk(n, h, sent, s) && s.term < t
    ensures ServerOk(n, h, sent, BecomeFollower(SetTerm(s, t)))
  {
  }

  /** The log a voter had when it voted. */
  ghost function VotedWith(h: History, voter: nat, term: nat, candidate: nat): (log: seq<Entry>)
    requires HasBallot(h, voter, term, candidate)
    ensures Ballot(voter, term, candidate, log) in h.ballots
  {
    var b :| b in h.ballots && b.voter == voter && b.term == term && b.candidate == candidate;
    b.log
  }

  /** Whoever elected the leader of a term voted for nobody else in that term. */
  lemma VotersOfLeader(n: nat, h: History, t: nat, x: nat, candidate: nat)
    requires HistoryOk(n, h) && t in h.reigns && x in h.reigns[t].voters && HasBallot(h, x, t, candidate)
    ensures candidate == h.reigns[t].leader
  {
    assert ReignOk(n, h, t);
    var r := h.reigns[t];
    var mine := Ballot(x, t, candidate, VotedWith(h, x, t, candidate));
    var other := Ballot(x, t, r.leader, r.voters[x]);
    assert VotesAgree(h, mine, other);
  }

  /** A candidate in a term that has a leader was not among that leader's voters. */
  lemma CandidateOutvoted(n: nat, h: History, sent: seq<Packet>, s: Server)
    requires HistoryOk(n, h) && ServerOk(n, h, sent, s) && s.role.Candidate? && s.term in h.reigns
    ensures Outvoted(h, s.me, s.term)
  {
    hide HistoryOk;
    var mine := Ballot(s.me, s.term, s.me, s.log);
    assert HasBallot(h, s.me, s.term, s.me) by {
      assert mine in h.ballots;
    }
    if s.me in h.reigns[s.term].voters {
      VotersOfLeader(n, h, s.term, s.me, s.me);
    }
  }

  /** Stepping down in one's own term forgets the vote (lines 288-292); the term has a
      leader by then. */
  lemma StepDownOk(n: nat, h: History, sent: seq<Packet>, s: Server)
    requires HistoryOk(n, h) && ServerOk(n, h, sent, s) && s.role.Candidate? && s.term in h.reigns
    ensures ServerOk(n, h, sent, BecomeFollower(s.(votedFor := NOBODY)))
  {
    CandidateOutvoted(n, h, sent, s);
  }

  // ---- Votes ----

  lemma ReignOkWithBallot(n: nat, h: History, b: Ballot, t: nat)
    requires t in h.reigns && ReignOk(n, h, t)
    ensures ReignOk(n, AddBallot(h, b), t)
  {
  }

  /** A new vote is recorded by a server that has none in its term, or one that no longer counts. */
  lemma AddBallotHistory(n: nat, h: History, b: Ballot)
    requires HistoryOk(n, h)
    requires b.voter < n && b.candidate < n && Derived(h.reigns, b.log)
    requires forall b2 :: b2 in h.ballots ==> VotesAgree(h, b, b2)
    ensures HistoryOk(n, AddBallot(h, b)) && Grows(h, AddBallot(h, b))
  {
    var h' := AddBallot(h, b);
    forall t | t in h'.reigns ensures ReignOk(n, h', t) {
      ReignOkWithBallot(n, h, b, t);
    }
    hide ReignOk;
    forall b1, b2 | b1 in h'.ballots && b2 in h'.ballots ensures VotesAgree(h', b1, b2) {
      assert b1 != b && b2 != b ==> VotesAgree(h, b1, b2);
      assert VotesAgree(h, b, b1) && VotesAgree(h, b, b2);
    }
  }

  /** Granting a vote, at the voter. */
  lemma GrantOk(n: nat, h: History, sent: seq<Packet>, s: Server, candidate: nat)
    requires HistoryOk(n, h) && ServerOk(n, h, sent, s) && s.votedFor == NOBODY
    requires candidate < n && candidate != s.me
    ensures s.role.Follower?
    ensures var b := Ballot(s.me, s.term, candidate, s.log);
            && (forall b2 :: b2 in h.ballots ==> VotesAgree(h, b, b2))
            && ServerOk(n, AddBallot(h, b), sent, s.(votedFor := candidate, leader := NOBODY))
  {
  }

  /** Granting a vote, at every other server: a candidate hears about it only in the term
      of its request, and then its log is as up to date as the voter's. */
  lemma GrantForeign(n: nat, h: History, sent: seq<Packet>, s: Server, b: Ballot, k: nat, out: seq<Packet>)
    requires ServerOk(n, h, sent, s) && b.voter != s.me
    requires k < |sent| && sent[k].msg.RequestVote? && sent[k].src == b.candidate
    requires sent[k].msg.term == b.term
    requires |b.log| == 0 || LastTerm(b.log) < sent[k].msg.lastLogTerm
             || (LastTerm(b.log) == sent[k].msg.lastLogTerm && |b.log| <= sent[k].msg.lastLogIdx)
    requires forall j :: 0 <= j < |out| ==> out[j].src == b.voter
    ensures Foreign(h, AddBallot(h, b), out, s)
  {
  }

  lemma GrantStep(n: nat, c: Cluster, h: History, i: nat, s: Server, k: nat, o: Outcome) returns (h': History)
    requires Inv(n, c, h) && i < n && k < |c.sent| && c.sent[k].msg.RequestVote?
    requires i == c.sent[k].dst && s.me == i && ServerOk(n, h, c.sent, s)
    requires s.term == c.sent[k].msg.term && ShouldGrant(s, c.sent[k].msg)
    requires o == Outcome(s.(votedFor := c.sent[k].msg.candidate, leader := NOBODY),
                          [Packet(i, c.sent[k].src, VoteResponse(s.term, true))])
    ensures s.role.Follower?
    ensures Grows(h, h') && Inv(n, React(c, i, o), h') && VoteRecorded(h, h', o.server)
  {
    assert PacketOk(n, h, c.sent[k]);
    var rv := c.sent[k].msg;
    var b := Ballot(i, rv.term, rv.candidate, s.log);
    h' := AddBallot(h, b);
    GrantOk(n, h, c.sent, s, rv.candidate);
    forall j | 0 <= j < n && j != i ensures Foreign(h, h', o.out, c.servers[j]) {
      GrantForeign(n, h, c.sent, c.servers[j], b, k, o.out);
    }
    assert Derived(h.reigns, s.log);
    hide ServerOk;
    AddBallotHistory(n, h, b);
    hide HistoryOk;
    hide Foreign;
    SendOk(n, h', c.sent, o.out, o.server);
    assert b in h'.ballots;
    assert HasBallot(h', i, rv.term, c.sent[k].src);
    ServerStep(n, c, h, i, o, h');
  }

  lemma RequestVoteStep(n: nat, c: Cluster, h: History, k: nat) returns (h': History)
    requires Inv(n, c, h) && k < |c.sent| && c.sent[k].msg.RequestVote?
    ensures c.sent[k].dst < n
    ensures var o := RecvRequestVote(c.servers[c.sent[k].dst], c.sent[k].src, c.sent[k].msg);
            && Grows(h, h') && Inv(n, React(c, c.sent[k].dst, o), h')
            && (h' == h || (&& VoteRecorded(h, h', o.server) && o.server.role.Follower?
                            && (c.servers[c.sent[k].dst].term < o.server.term
                              || c.servers[c.sent[k].dst].votedFor == NOBODY)))
  {
    assert PacketOk(n, h, c.sent[k]);
    hide HistoryOk;
    hide ServerOk;
    hide PacketOk;
    var i, rv := c.sent[k].dst, c.sent[k].msg;
    var s := c.servers[i];
    var o := RecvRequestVote(s, c.sent[k].src, rv);
    var s1 := s;
    if s.term < rv.term {
      NewTermOk(n, h, c.sent, s, rv.term);
      s1 := BecomeFollower(SetTerm(s, rv.term));
    }
    if ShouldGrant(s1, rv) {
      h' := GrantStep(n, c, h, i, s1, k,
        Outcome(s1.(votedFor := rv.candidate, leader := NOBODY),
          [Packet(i, c.sent[k].src, VoteResponse(s1.term, true))]));
    } else {
      h' := h;
      DeclineOk(n, h, c.sent[k]);
      QuietStep(n, c, h, i, o);
    }
  }

  lemma DeclineOk(n: nat, h: History, p: Packet)
    requires PacketOk(n, h, p)
    ensures forall t :: PacketOk(n, h, Packet(p.dst, p.src, VoteResponse(t, false)))
    ensures forall t, i, f :: PacketOk(n, h, Packet(p.dst, p.src, AppendResponse(t, false, i, f)))
  {
  }

  // ---- Candidates ----

  lemma {:induction false} VoteRequestsShape(s: Server, j: nat)
    ensures forall k :: 0 <= k < |VoteRequestsFrom(s, j)| ==>
              var p := VoteRequestsFrom(s, j)[k];
              && p.src == s.me && p.dst < |s.peers| && p.dst != s.me
              && p.msg == RequestVote(s.term, s.me, |s.log|, LastTerm(s.log))
    decreases |s.peers| - j
  {
    if j < |s.peers| {
      VoteRequestsShape(s, j + 1);
    }
  }

  lemma CandidacyOk(n: nat, h: History, sent: seq<Packet>, s: Server)
    requires HistoryOk(n, h) && ServerOk(n, h, sent, s) && 1 < n
    ensures var o := BecomeCandidate(s);
            var b := Ballot(s.me, s.term + 1, s.me, s.log);
            && (forall b2 :: b2 in h.ballots ==> VotesAgree(h, b, b2))
            && ServerOk(n, AddBallot(h, b), sent + o.out, o.server)
            && OutOk(n, AddBallot(h, b), s.me, o.out)
  {
    hide HistoryOk;
    var o := BecomeCandidate(s);
    VoteRequestsShape(o.server, 0);
    var h' := AddBallot(h, Ballot(s.me, s.term + 1, s.me, s.log));
    assert BidsOk(h', sent + o.out, o.server);
  }

  lemma CandidateStep(n: nat, c: Cluster, h: History, i: nat) returns (h': History)
    requires Inv(n, c, h) && i < n && 1 < n
    ensures Grows(h, h') && Inv(n, React(c, i, BecomeCandidate(c.servers[i])), h')
    ensures VoteRecorded(h, h', BecomeCandidate(c.servers[i]).server)
  {
    var s := c.servers[i];
    var b := Ballot(i, s.term + 1, i, s.log);
    h' := AddBallot(h, b);
    assert Derived(h.reigns, s.log);
    CandidacyOk(n, h, c.sent, s);
    hide ServerOk;
    AddBallotHistory(n, h, b);
    hide HistoryOk;
    hide PacketOk;
    ServerStep(n, c, h, i, BecomeCandidate(s), h');
  }

  // ---- Counting votes ----

  /** The servers a candidate counts: the peers that granted it their vote, and itself. */
  function VoterSet(s: Server): set<nat> {
    (set j | 0 <= j < |s.peers| && j != s.me && s.peers[j].votedForMe) + {s.me}
  }

  lemma {:induction false} VotesAreCounted(s: Server, j: nat)
    requires j <= |s.peers|
    ensures var flagged := set k | j <= k < |s.peers| && k != s.me && s.peers[k].votedForMe;
            VotesFrom(s, j) == |flagged| + (if s.votedFor == s.me then 1 else 0)
    decreases |s.peers| - j
  {
    var flagged := set k | j <= k < |s.peers| && k != s.me && s.peers[k].votedForMe;
    if j == |s.peers| {
      assert flagged == {};
    } else {
      VotesAreCounted(s, j + 1);
      var rest := set k | j + 1 <= k < |s.peers| && k != s.me && s.peers[k].votedForMe;
      if j != s.me && s.peers[j].votedForMe {
        assert flagged == rest + {j};
      } else {
        assert flagged == rest;
      }
    }
  }

  lemma MajorityOfVoters(s: Server)
    requires s.votedFor == s.me && IsMajority(|s.peers|, VotesFrom(s, 0))
    ensures |s.peers| / 2 < |VoterSet(s)|
  {
    VotesAreCounted(s, 0);
    var flagged := set k | 0 <= k < |s.peers| && k != s.me && s.peers[k].votedForMe;
    assert VoterSet(s) == flagged + {s.me};
  }

  lemma {:induction false} BoundedSize(n: nat, a: set<nat>)
    requires forall x :: x in a ==> x < n
    ensures |a| <= n
  {
    if n == 0 {
      assert a == {};
    } else {
      BoundedSize(n - 1, a - {n - 1});
    }
  }

  /** Two majorities of `n` servers share a member. */
  lemma QuorumsMeet(n: nat, a: set<nat>, b: set<nat>) returns (x: nat)
    requires forall x :: x in a + b ==> x < n
    requires n / 2 < |a| && n / 2 < |b|
    ensures x in a && x in b
  {
    if a * b == {} {
      assert |a + b| == |a| + |b|;
      BoundedSize(n, a + b);
      assert false;
    }
    x :| x in a * b;
  }

  // ---- Leaders ----

  lemma VotersHaveBallots(n: nat, h: History, s: Server)
    requires |s.peers| == n && s.me < n && s.role.Candidate? && CandidateOk(h, s)
    ensures forall v :: v in VoterSet(s) ==> v < n && HasBallot(h, v, s.term, s.me)
  {
    var b := Ballot(s.me, s.term, s.me, s.log);
    assert b in h.ballots;
  }

  /** A candidate with a majority is alone: its term has no leader yet. */
  lemma FirstLeaderOfTerm(n: nat, h: History, sent: seq<Packet>, s: Server)
    requires HistoryOk(n, h) && ServerOk(n, h, sent, s) && s.role.Candidate?
    requires IsMajority(n, VotesFrom(s, 0))
    ensures s.term !in h.reigns
  {
    if s.term in h.reigns {
      assert ReignOk(n, h, s.term);
      hide HistoryOk;
      MajorityOfVoters(s);
      VotersHaveBallots(n, h, s);
      var x := QuorumsMeet(n, VoterSet(s), h.reigns[s.term].voters.Keys);
      VotersOfLeader(n, h, s.term, x, s.me);
      assert false;
    }
  }

  ghost function Crown(h: History, s: Server): History
    requires forall v :: v in VoterSet(s) ==> HasBallot(h, v, s.term, s.me)
  {
    var voters := map v | v in VoterSet(s) :: VotedWith(h, v, s.term, s.me);
    h.(reigns := h.reigns[s.term := Reign(s.me, voters, s.log, s.log)])
  }

  lemma CrownGrows(h: History, s: Server)
    requires forall v :: v in VoterSet(s) ==> HasBallot(h, v, s.term, s.me)
    requires s.term !in h.reigns
    ensures Grows(h, Crown(h, s))
  {
  }

  /** Facts every derived log inherits from the reigns. */
  lemma DerivedFacts(n: nat, h: History, log: seq<Entry>, i: nat)
    requires HistoryOk(n, h) && Derived(h.reigns, log) && i < |log|
    ensures log[i].term in h.reigns && 1 <= log[i].term && log[i].id != 0
    ensures forall k :: 0 <= k <= i ==> log[k].term <= log[i].term
  {
    assert Rooted(h.reigns, log, i);
    var w := log[i].term;
    assert ReignOk(n, h, w);
    var l := h.reigns[w].log;
    assert log[..i + 1][i] == l[..i + 1][i];
    forall k | 0 <= k <= i ensures log[k].term <= w {
      assert log[..i + 1][k] == l[..i + 1][k];
      assert k < |h.reigns[w].base| ==> h.reigns[w].base[k] == l[k];
    }
  }

  lemma NewReignOk(n: nat, h: History, sent: seq<Packet>, s: Server)
    requires HistoryOk(n, h) && ServerOk(n, h, sent, s) && s.role.Candidate?
    requires IsMajority(n, VotesFrom(s, 0)) && s.term !in h.reigns
    requires forall v :: v in VoterSet(s) ==> v < n && HasBallot(h, v, s.term, s.me)
    requires Derived(Crown(h, s).reigns, s.log)
    ensures ReignOk(n, Crown(h, s), s.term)
  {
    MajorityOfVoters(s);
    var h' := Crown(h, s);
    var r := h'.reigns[s.term];
    assert r.voters.Keys == VoterSet(s);
    assert |r.voters| == |r.voters.Keys|;
    forall i | 0 <= i < |s.log| ensures s.log[i].term < s.term && s.log[i].id != 0 {
      DerivedFacts(n, h, s.log, i);
    }
  }

  lemma ReignOkGrows(n: nat, h: History, h': History, t: nat)
    requires t in h.reigns && ReignOk(n, h, t) && Grows(h, h') && h'.reigns[t] == h.reigns[t]
    ensures ReignOk(n, h', t)
  {
    DerivedGrows(h, h', h.reigns[t].log);
  }

  /** Growing one reign, or adding one, keeps the history in order. */
  lemma HistoryGrows(n: nat, h: History, h': History, t0: nat)
    requires HistoryOk(n, h) && Grows(h, h') && h'.ballots == h.ballots
    requires t0 in h'.reigns && h'.reigns.Keys == h.reigns.Keys + {t0}
    requires forall t :: t in h.reigns && t != t0 ==> h'.reigns[t] == h.reigns[t]
    requires ReignOk(n, h', t0)
    ensures HistoryOk(n, h')
  {
    forall t | t in h'.reigns ensures ReignOk(n, h', t) {
      if t != t0 {
        assert t in h.reigns;
        ReignOkGrows(n, h, h', t);
      }
    }
    hide ReignOk;
    forall b | b in h'.ballots ensures Derived(h'.reigns, b.log) {
      DerivedGrows(h, h', b.log);
    }
    forall b1, b2 | b1 in h'.ballots && b2 in h'.ballots ensures VotesAgree(h', b1, b2) {
      assert VotesAgree(h, b1, b2);
    }
  }

  lemma CrownedOk(n: nat, h: History, sent: seq<Packet>, s: Server)
    requires ServerOk(n, h, sent, s) && s.role.Candidate? && s.term !in h.reigns
    requires forall v :: v in VoterSet(s) ==> HasBallot(h, v, s.term, s.me)
    ensures ServerOk(n, Crown(h, s), sent, BecomeLeader(s).server)
  {
    CrownGrows(h, s);
    DerivedGrows(h, Crown(h, s), s.log);
  }

  // ---- Appends on the wire ----

  lemma AppendForOk(n: nat, h: History, s: Server, j: nat)
    requires s.me < n && |s.peers| == n && s.role.Leader? && LeaderOk(h, s)
    requires ReignOk(n, h, s.term)
    requires j < n && j != s.me
    ensures PacketOk(n, h, AppendFor(s, j))
  {
    hide ReignOk;
    var next := s.peers[j].nextIdx;
    LeaderReign(n, h, s);
    assert next <= |s.log| ==> s.log[next - 1..] == s.log[next - 1..|s.log|];
    assert next == |s.log| + 1 ==> [] == s.log[next - 1..|s.log|];
  }

  lemma LeaderReign(n: nat, h: History, s: Server)
    requires s.role.Leader? && LeaderOk(h, s) && ReignOk(n, h, s.term)
    ensures h.reigns[s.term].leader == s.me && |h.reigns[s.term].base| <= |h.reigns[s.term].log|
  {
  }

  lemma {:induction false} AppendsShape(s: Server, j: nat, all: bool)
    ensures forall k :: 0 <= k < |AppendsFrom(s, j, all)| ==>
              var p := AppendsFrom(s, j, all)[k];
              p.dst < |s.peers| && p.dst != s.me && p == AppendFor(s, p.dst)
    decreases |s.peers| - j
  {
    if j < |s.peers| {
      AppendsShape(s, j + 1, all);
    }
  }

  lemma AppendsOk(n: nat, h: History, s: Server, all: bool)
    requires s.me < n && |s.peers| == n && s.role.Leader? && LeaderOk(h, s)
    requires ReignOk(n, h, s.term)
    ensures var out := AppendsFrom(s, 0, all);
            OutOk(n, h, s.me, out) && NoVoteRequest(out)
  {
    var out := AppendsFrom(s, 0, all);
    AppendsShape(s, 0, all);
    forall k | 0 <= k < |out| ensures PacketOk(n, h, out[k]) {
      AppendForOk(n, h, s, out[k].dst);
    }
  }

  /** Electing a leader, as the history sees it. */
  lemma CrownOk(n: nat, h: History, sent: seq<Packet>, s: Server) returns (h': History)
    requires HistoryOk(n, h)
    requires ServerOk(n, h, sent, s) && s.role.Candidate? && IsMajority(n, VotesFrom(s, 0))
    ensures Grows(h, h') && HistoryOk(n, h')
    ensures ServerOk(n, h', sent, BecomeLeader(s).server)
    ensures forall t :: t in h'.reigns && h'.reigns[t].leader != s.me ==> t in h.reigns && h'.reigns[t] == h.reigns[t]
    ensures ReignRecorded(h, h', BecomeLeader(s).server)
  {
    hide HistoryOk;
    hide ReignOk;
    assert Derived(h.reigns, s.log);
    VotersHaveBallots(n, h, s);
    hide ServerOk;
    FirstLeaderOfTerm(n, h, sent, s);
    h' := Crown(h, s);
    CrownGrows(h, s);
    DerivedGrows(h, h', s.log);
    CrownedOk(n, h, sent, s);
    NewReignOk(n, h, sent, s);
    HistoryGrows(n, h, h', s.term);
  }

  lemma LeaderFacts(n: nat, h: History, sent: seq<Packet>, s: Server)
    requires HistoryOk(n, h) && ServerOk(n, h, sent, s) && s.role.Leader?
    ensures s.me < n && |s.peers| == n && LeaderOk(h, s) && s.term in h.reigns && ReignOk(n, h, s.term)
  {
  }

  lemma LeaderSends(n: nat, h: History, sent: seq<Packet>, s: Server, all: bool)
    requires HistoryOk(n, h) && ServerOk(n, h, sent, s) && s.role.Leader?
    ensures OutOk(n, h, s.me, AppendsFrom(s, 0, all)) && NoVoteRequest(AppendsFrom(s, 0, all))
  {
    LeaderFacts(n, h, sent, s);
    hide HistoryOk;
    hide ServerOk;
    hide OutOk;
    hide NoVoteRequest;
    AppendsOk(n, h, s, all);
  }

  lemma LeaderStep(n: nat, c: Cluster, h: History, i: nat, s: Server) returns (h': History)
    requires Inv(n, c, h) && i < n && s.me == i
    requires ServerOk(n, h, c.sent, s) && s.role.Candidate? && IsMajority(n, VotesFrom(s, 0))
    ensures Grows(h, h') && Inv(n, React(c, i, BecomeLeader(s)), h')
    ensures ReignRecorded(h, h', BecomeLeader(s).server)
  {
    hide HistoryOk;
    hide ServerOk;
    hide PacketOk;
    h' := CrownOk(n, h, c.sent, s);
    var o := BecomeLeader(s);
    LeaderSends(n, h', c.sent, o.server, true);
    hide NoVoteRequest;
    SendOk(n, h', c.sent, o.out, o.server);
    ServerStep(n, c, h, i, o, h');
  }

  lemma CountVoteOk(n: nat, h: History, sent: seq<Packet>, s: Server, j: nat)
    requires ServerOk(n, h, sent, s) && s.role.Candidate? && j < n && HasBallot(h, j, s.term, s.me)
    ensures ServerOk(n, h, sent, s.(peers := s.peers[j := s.peers[j].(votedForMe := true)]))
  {
  }

  lemma VoteResponseStep(n: nat, c: Cluster, h: History, k: nat) returns (h': History)
    requires Inv(n, c, h) && k < |c.sent| && c.sent[k].msg.VoteResponse?
    ensures c.sent[k].dst < n && c.sent[k].src < |c.servers[c.sent[k].dst].peers|
    ensures var o := RecvVoteResponse(c.servers[c.sent[k].dst], c.sent[k].src, c.sent[k].msg);
            && Grows(h, h') && Inv(n, React(c, c.sent[k].dst, o), h')
            && (ReignRecorded(h, h', o.server) || (h' == h && !o.server.role.Leader?)
                || (h' == h && o == Outcome(c.servers[c.sent[k].dst], [])))
  {
    assert PacketOk(n, h, c.sent[k]);
    var i, from, r := c.sent[k].dst, c.sent[k].src, c.sent[k].msg;
    var s := c.servers[i];
    assert |s.peers| == n;
    hide HistoryOk;
    hide ServerOk;
    h' := h;
    if s.role.Candidate? && s.term < r.term {
      NewTermOk(n, h, c.sent, s, r.term);
    } else if s.role.Candidate? && s.term == r.term && r.granted {
      CountVoteOk(n, h, c.sent, s, from);
      var s1 := s.(peers := s.peers[from := s.peers[from].(votedForMe := true)]);
      if IsMajority(n, VotesFrom(s1, 0)) {
        h' := LeaderStep(n, c, h, i, s1);
        return;
      }
    }
    var o := RecvVoteResponse(s, from, r);
    QuietStep(n, c, h, i, o);
  }

  // ---- Receiving appends ----

  lemma FollowerLogOk(n: nat, h: History, sent: seq<Packet>, s: Server, s': Server)
    requires ServerOk(n, h, sent, s) && s.role.Follower? && SameButLog(s, s')
    requires Derived(h.reigns, s'.log) && forall i :: 0 <= i < |s'.log| ==> s'.log[i].term <= s.term
    ensures ServerOk(n, h, sent, s')
  {
  }

  lemma LeaderLogFacts(n: nat, h: History, t: nat)
    requires t in h.reigns && ReignOk(n, h, t)
    ensures Derived(h.reigns, h.reigns[t].log)
    ensures forall i :: 0 <= i < |h.reigns[t].log| ==> h.reigns[t].log[i].term <= t
  {
    var r := h.reigns[t];
    forall i | 0 <= i < |r.log| ensures r.log[i].term <= t {
      assert i < |r.base| ==> r.base[i] == r.log[i];
    }
  }

  /** The log after an accepted append comes from the leaders, like the log before it. */
  lemma MergedLogOk(n: nat, h: History, log: seq<Entry>, t: nat, prev: nat, m: nat)
    requires t in h.reigns && ReignOk(n, h, t) && Derived(h.reigns, log)
    requires forall i :: 0 <= i < |log| ==> log[i].term <= t
    requires prev <= |log| && prev + m <= |h.reigns[t].log|
    ensures var log' := MergedLog(log, prev, m, h.reigns[t].log);
            Derived(h.reigns, log') && forall i :: 0 <= i < |log'| ==> log'[i].term <= t
  {
    LeaderLogFacts(n, h, t);
    DerivedPrefix(h.reigns, h.reigns[t].log, prev + m);
    DerivedPrefix(h.reigns, log, prev);
  }

  /** An append of the server's own term, at a follower. */
  lemma AcceptOk(n: nat, h: History, sent: seq<Packet>, s: Server, p: Packet)
    requires p.msg.Append? && PacketOk(n, h, p) && p.dst == s.me && PrevMatches(s, p.msg)
    requires ReignOk(n, h, p.msg.term)
    requires ServerOk(n, h, sent, s) && s.role.Follower? && s.term == p.msg.term
    ensures var o := AppendAtTerm(s, p.src, p.msg);
            ServerOk(n, h, sent, o.server) && OutOk(n, h, s.me, o.out) && NoVoteRequest(o.out)
  {
    hide AppendAtTerm;
    hide MergeEntries;
    AcceptInstallsLeaderLog(n, h, s, p);
    AcceptShape(s, p.src, p.msg);
    MergedLogOk(n, h, s.log, s.term, p.msg.prevIdx, |p.msg.entries|);
    hide ReignOk;
    hide MergedLog;
    FollowerLogOk(n, h, sent, s, AppendAtTerm(s, p.src, p.msg).server);
  }

  lemma RejectOk(n: nat, h: History, sent: seq<Packet>, s: Server, p: Packet)
    requires p.msg.Append? && PacketOk(n, h, p) && p.dst == s.me && !PrevMatches(s, p.msg)
    requires ServerOk(n, h, sent, s) && s.role.Follower?
    ensures var o := AppendAtTerm(s, p.src, p.msg);
            ServerOk(n, h, sent, o.server) && OutOk(n, h, s.me, o.out) && NoVoteRequest(o.out)
  {
    hide AppendAtTerm;
    RejectShape(s, p.src, p.msg);
    if p.msg.prevIdx <= |s.log| {
      DerivedPrefix(h.reigns, s.log, p.msg.prevIdx - 1);
    }
    FollowerLogOk(n, h, sent, s, AppendAtTerm(s, p.src, p.msg).server);
  }

  /** The server that meets an append of its own term: a leader never does. */
  lemma NotTheLeader(n: nat, h: History, sent: seq<Packet>, s: Server, p: Packet)
    requires p.msg.Append? && PacketOk(n, h, p) && p.dst == s.me
    requires ServerOk(n, h, sent, s) && s.term == p.msg.term
    ensures !s.role.Leader?
  {
  }

  lemma KeepsIdentity(s: Server, from: nat, ae: Message)
    requires ae.Append?
    ensures AppendAtTerm(s, from, ae).server.me == s.me
  {
  }

  lemma AppendAtTermOk(n: nat, h: History, sent: seq<Packet>, s: Server, p: Packet)
    requires p.msg.Append? && PacketOk(n, h, p) && p.dst == s.me
    requires ReignOk(n, h, p.msg.term)
    requires ServerOk(n, h, sent, s) && s.role.Follower? && s.term == p.msg.term
    ensures var o := AppendAtTerm(s, p.src, p.msg);
            ServerOk(n, h, sent, o.server) && OutOk(n, h, s.me, o.out) && NoVoteRequest(o.out) && o.server.me == s.me
  {
    hide *;
    KeepsIdentity(s, p.src, p.msg);
    if PrevMatches(s, p.msg) {
      AcceptOk(n, h, sent, s, p);
    } else {
      RejectOk(n, h, sent, s, p);
    }
  }

  /** The server an append finds after terms and roles are settled (lines 288-297). */
  function Settled(s: Server, term: nat): Server {
    if s.role.Candidate? && s.term == term then BecomeFollower(s.(votedFor := NOBODY))
    else if s.term < term then BecomeFollower(SetTerm(s, term))
    else s
  }

  lemma SettledOk(n: nat, h: History, sent: seq<Packet>, s: Server, p: Packet)
    requires p.msg.Append? && PacketOk(n, h, p) && p.dst == s.me
    requires HistoryOk(n, h) && ServerOk(n, h, sent, s) && s.term <= p.msg.term
    ensures var s1 := Settled(s, p.msg.term);
            && ServerOk(n, h, sent, s1) && s1.role.Follower? && s1.term == p.msg.term && s1.me == s.me
            && RecvAppend(s, p.src, p.msg) == AppendAtTerm(s1, p.src, p.msg)
  {
    hide ServerOk;
    hide HistoryOk;
    hide AppendAtTerm;
    if s.term < p.msg.term {
      NewTermOk(n, h, sent, s, p.msg.term);
    } else {
      NotTheLeader(n, h, sent, s, p);
      if s.role.Candidate? {
        StepDownOk(n, h, sent, s);
      }
    }
  }

  lemma AppendReign(n: nat, h: History, p: Packet)
    requires p.msg.Append? && PacketOk(n, h, p) && HistoryOk(n, h)
    ensures p.msg.term in h.reigns && ReignOk(n, h, p.msg.term)
  {
  }

  lemma RecvAppendOk(n: nat, h: History, sent: seq<Packet>, s: Server, p: Packet)
    requires p.msg.Append? && PacketOk(n, h, p) && p.dst == s.me
    requires HistoryOk(n, h) && ServerOk(n, h, sent, s)
    ensures var o := RecvAppend(s, p.src, p.msg);
            ServerOk(n, h, sent, o.server) && OutOk(n, h, s.me, o.out) && NoVoteRequest(o.out) && o.server.me == s.me
  {
    hide HistoryOk;
    hide ServerOk;
    hide PacketOk;
    hide ReignOk;
    hide AppendAtTerm;
    if p.msg.term < s.term {
      DeclineOk(n, h, p);
    } else {
      AppendReign(n, h, p);
      SettledOk(n, h, sent, s, p);
      AppendAtTermOk(n, h, sent, Settled(s, p.msg.term), p);
    }
  }

  /** What a delivery may rely on. */
  lemma Delivery(n: nat, c: Cluster, h: History, k: nat)
    requires Inv(n, c, h) && k < |c.sent|
    ensures |c.servers| == n && HistoryOk(n, h) && PacketOk(n, h, c.sent[k])
    ensures var p := c.sent[k];
            && p.src < n && p.dst < n && c.servers[p.dst].me == p.dst
            && ServerOk(n, h, c.sent, c.servers[p.dst]) && |c.servers[p.dst].peers| == n
  {
  }

  lemma AppendStep(n: nat, c: Cluster, h: History, k: nat)
    requires Inv(n, c, h) && k < |c.sent| && c.sent[k].msg.Append?
    ensures c.sent[k].dst < |c.servers|
    ensures Inv(n, React(c, c.sent[k].dst, RecvAppend(c.servers[c.sent[k].dst], c.sent[k].src, c.sent[k].msg)), h)
  {
    hide *;
    Delivery(n, c, h, k);
    var p := c.sent[k];
    RecvAppendOk(n, h, c.sent, c.servers[p.dst], p);
    QuietStep(n, c, h, p.dst, RecvAppend(c.servers[p.dst], p.src, p.msg));
  }

  // ---- Responses to appends ----

  /** A leader may move a peer's indices anywhere inside its log. */
  lemma PeerUpdateOk(n: nat, h: History, sent: seq<Packet>, s: Server, j: nat, peer: Peer)
    requires ServerOk(n, h, sent, s) && s.role.Leader? && j < n
    requires peer.nextIdx <= |s.log| + 1 && peer.matchIdx <= |s.log|
    ensures ServerOk(n, h, sent, s.(peers := s.peers[j := peer]))
  {
  }

  lemma CommitOk(n: nat, h: History, sent: seq<Packet>, s: Server, s': Server)
    requires ServerOk(n, h, sent, s)
    requires s' == s.(commitIdx := s'.commitIdx, fired := s'.fired) && s'.fired <= s.fired + {98, 99}
    ensures ServerOk(n, h, sent, s')
  {
  }

  lemma AppendToPeerOk(n: nat, h: History, sent: seq<Packet>, s: Server, j: nat)
    requires HistoryOk(n, h) && ServerOk(n, h, sent, s) && s.role.Leader? && j < n && j != s.me
    ensures j < |s.peers|
    ensures OutOk(n, h, s.me, [AppendFor(s, j)]) && NoVoteRequest([AppendFor(s, j)])
  {
    hide *;
    LeaderFacts(n, h, sent, s);
    AppendForOk(n, h, s, j);
    SinglePacket(n, h, AppendFor(s, j));
    AppendForShape(s, j);
  }

  lemma AppendForShape(s: Server, j: nat)
    requires j < |s.peers|
    ensures AppendFor(s, j).src == s.me && AppendFor(s, j).dst == j && AppendFor(s, j).msg.Append?
  {
  }

  lemma SinglePacket(n: nat, h: History, p: Packet)
    requires PacketOk(n, h, p)
    ensures OutOk(n, h, p.src, [p])
    ensures !p.msg.RequestVote? ==> NoVoteRequest([p])
  {
  }

  lemma BackOffOk(n: nat, h: History, sent: seq<Packet>, s: Server, j: nat, currentIdx: nat)
    requires HistoryOk(n, h) && ServerOk(n, h, sent, s) && s.role.Leader? && j < n && j != s.me
    ensures j < |s.peers|
    ensures var o := BackOff(s, j, currentIdx);
            ServerOk(n, h, sent, o.server) && OutOk(n, h, s.me, o.out) && NoVoteRequest(o.out) && o.server.me == s.me
  {
    LeaderFacts(n, h, sent, s);
    hide HistoryOk;
    hide ServerOk;
    hide ReignOk;
    hide OutOk;
    hide AppendFor;
    var o := BackOff(s, j, currentIdx);
    PeerUpdateOk(n, h, sent, s, j, o.server.peers[j]);
    AppendToPeerOk(n, h, sent, o.server, j);
  }

  /** An acknowledgement never passes the leader's log, so asserts 218 and 248 hold. */
  lemma AcknowledgeShape(h: History, s: Server, j: nat, currentIdx: nat)
    requires j < |s.peers| && s.role.Leader? && LeaderOk(h, s) && currentIdx <= |s.log|
    ensures var s1 := s.(peers := s.peers[j := s.peers[j].(nextIdx := currentIdx + 1, matchIdx := currentIdx)]);
            var o := Acknowledge(s, j, currentIdx);
            && o.server == s1.(commitIdx := o.server.commitIdx, fired := o.server.fired)
            && o.server.fired <= s.fired + {98, 99}
            && (o.server.commitIdx != s.commitIdx ==>
                  && o.server.commitIdx == currentIdx && s.commitIdx < currentIdx
                  && |s.peers| / 2 < 1 + AcksFrom(s1, currentIdx, 0))
            && (o.server.fired != s.fired ==>
              o.server.commitIdx == currentIdx && !(s.commitIdx <= currentIdx <= |s.log|))
            && o.out == (if currentIdx + 1 <= |s.log| then [AppendFor(o.server, j)] else [])
  {
    var s1 := s.(peers := s.peers[j := s.peers[j].(nextIdx := currentIdx + 1, matchIdx := currentIdx)]);
    assert MatchesInLog(s1);
  }

  lemma AcknowledgeOk(n: nat, h: History, sent: seq<Packet>, s: Server, j: nat, currentIdx: nat)
    requires HistoryOk(n, h) && ServerOk(n, h, sent, s) && s.role.Leader? && j < n && j != s.me
    requires currentIdx <= |s.log|
    ensures j < |s.peers|
    ensures var o := Acknowledge(s, j, currentIdx);
            ServerOk(n, h, sent, o.server) && OutOk(n, h, s.me, o.out) && NoVoteRequest(o.out) && o.server.me == s.me
  {
    hide HistoryOk;
    hide ServerOk;
    hide ReignOk;
    hide LeaderOk;
    hide Acknowledge;
    hide AppendFor;
    LeaderFacts(n, h, sent, s);
    AcknowledgeShape(h, s, j, currentIdx);
    var o := Acknowledge(s, j, currentIdx);
    var s1 := s.(peers := s.peers[j := s.peers[j].(nextIdx := currentIdx + 1, matchIdx := currentIdx)]);
    PeerUpdateOk(n, h, sent, s, j, s1.peers[j]);
    CommitOk(n, h, sent, s1, o.server);
    AppendToPeerOk(n, h, sent, o.server, j);
  }

  lemma ResponseInReign(n: nat, h: History, sent: seq<Packet>, s: Server, p: Packet)
    requires p.msg.AppendResponse? && PacketOk(n, h, p) && p.dst == s.me && p.msg.success
    requires ServerOk(n, h, sent, s) && s.role.Leader? && s.term == p.msg.term
    ensures p.msg.currentIdx <= |s.log|
  {
  }

  lemma RecvAppendResponseOk(n: nat, h: History, sent: seq<Packet>, s: Server, p: Packet)
    requires p.msg.AppendResponse? && PacketOk(n, h, p) && p.dst == s.me
    requires HistoryOk(n, h) && ServerOk(n, h, sent, s) && |s.peers| == n
    ensures p.src < |s.peers|
    ensures var o := RecvAppendResponse(s, p.src, p.msg);
            ServerOk(n, h, sent, o.server) && OutOk(n, h, s.me, o.out) && NoVoteRequest(o.out) && o.server.me == s.me
  {
    assert p.src < n && p.src != s.me;
    hide HistoryOk;
    hide ServerOk;
    hide PacketOk;
    hide BackOff;
    hide Acknowledge;
    var r := p.msg;
    if s.role.Leader? && !(r.currentIdx != 0 && r.currentIdx <= s.peers[p.src].matchIdx) {
      if s.term < r.term {
        NewTermOk(n, h, sent, s, r.term);
      } else if s.term == r.term && !r.success {
        BackOffOk(n, h, sent, s, p.src, r.currentIdx);
      } else if s.term == r.term {
        ResponseInReign(n, h, sent, s, p);
        AcknowledgeOk(n, h, sent, s, p.src, r.currentIdx);
      }
    }
  }

  lemma AppendResponseStep(n: nat, c: Cluster, h: History, k: nat)
    requires Inv(n, c, h) && k < |c.sent| && c.sent[k].msg.AppendResponse?
    ensures c.sent[k].dst < |c.servers| && c.sent[k].src < |c.servers[c.sent[k].dst].peers|
    ensures Inv(n, React(c, c.sent[k].dst,
                         RecvAppendResponse(c.servers[c.sent[k].dst], c.sent[k].src, c.sent[k].msg)), h)
  {
    hide *;
    Delivery(n, c, h, k);
    var p := c.sent[k];
    RecvAppendResponseOk(n, h, c.sent, c.servers[p.dst], p);
    QuietStep(n, c, h, p.dst, RecvAppendResponse(c.servers[p.dst], p.src, p.msg));
  }

  // ---- Client entries ----

  lemma ExtendedReignOk(n: nat, h: History, t: nat, e: Entry)
    requires t in h.reigns && ReignOk(n, h, t) && e.term == t && e.id != 0
    ensures Grows(h, Extend(h, t, e)) && ReignOk(n, Extend(h, t, e), t)
    ensures Derived(Extend(h, t, e).reigns, h.reigns[t].log + [e])
  {
    var h' := Extend(h, t, e);
    var log, log' := h.reigns[t].log, h'.reigns[t].log;
    DerivedGrows(h, h', log);
    forall i | 0 <= i < |log'| ensures Rooted(h'.reigns, log', i) {
      if i < |log| {
        assert Rooted(h'.reigns, log, i);
        assert log[..i + 1] == log'[..i + 1];
      }
    }
  }

  lemma ExtendOk(n: nat, h: History, sent: seq<Packet>, s: Server, e: Entry)
    requires HistoryOk(n, h) && ServerOk(n, h, sent, s) && s.role.Leader?
    requires e.term == s.term && e.id != 0
    ensures s.term in h.reigns && h.reigns[s.term].leader == s.me && h.reigns[s.term].log == s.log
    ensures var h' := Extend(h, s.term, e);
            Grows(h, h') && HistoryOk(n, h') && ServerOk(n, h', sent, s.(log := s.log + [e]))
  {
    hide HistoryOk;
    hide ServerOk;
    hide ReignOk;
    LeaderFacts(n, h, sent, s);
    ExtendedReignOk(n, h, s.term, e);
    var h' := Extend(h, s.term, e);
    ExtendedServerOk(n, h, sent, s, e);
    HistoryGrows(n, h, h', s.term);
  }

  lemma ExtendedServerOk(n: nat, h: History, sent: seq<Packet>, s: Server, e: Entry)
    requires ServerOk(n, h, sent, s) && s.role.Leader? && s.term in h.reigns
    requires e.term == s.term && Derived(Extend(h, s.term, e).reigns, h.reigns[s.term].log + [e])
    ensures ServerOk(n, Extend(h, s.term, e), sent, s.(log := s.log + [e]))
  {
  }

  /** An entry of a leader: the reign grows, and the new entry goes out. */
  lemma EntryStep(n: nat, c: Cluster, h: History, i: nat, id: nat, data: int) returns (h': History)
    requires Inv(n, c, h) && i < n
    ensures var o := RecvEntry(c.servers[i], id, data);
            && Grows(h, h') && Inv(n, React(c, i, o), h')
            && (EntryRecorded(h, h', o.server) || (h' == h && o.server.log == c.servers[i].log))
  {
    hide HistoryOk;
    hide ServerOk;
    hide PacketOk;
    hide OutOk;
    hide NoVoteRequest;
    var s := c.servers[i];
    var o := RecvEntry(s, id, data);
    h' := h;
    if !s.role.Leader? {
      NothingSent(n, h, i);
      QuietStep(n, c, h, i, o);
      return;
    }
    SeveralServers(n, h, c.sent, s);
    if id == 0 {
      LeaderSends(n, h, c.sent, s, false);
      QuietStep(n, c, h, i, o);
    } else {
      var e := Entry(s.term, id, data);
      ExtendOk(n, h, c.sent, s, e);
      h' := Extend(h, s.term, e);
      LeaderSends(n, h', c.sent, o.server, false);
      SendOk(n, h', c.sent, o.out, o.server);
      forall j | 0 <= j < n && j != i ensures Foreign(h, h', o.out, c.servers[j]) {
        OutIsForeign(n, h', i, o.out, j);
      }
      ServerStep(n, c, h, i, o, h');
    }
  }

  lemma OutIsForeign(n: nat, h: History, i: nat, out: seq<Packet>, j: nat)
    requires OutOk(n, h, i, out) && i != j
    ensures forall k :: 0 <= k < |out| ==> out[k].src != j
  {
  }

  lemma NothingSent(n: nat, h: History, i: nat)
    ensures OutOk(n, h, i, []) && NoVoteRequest([])
  {
  }

  lemma SeveralServers(n: nat, h: History, sent: seq<Packet>, s: Server)
    requires ServerOk(n, h, sent, s) && !s.role.Follower?
    ensures 1 < |s.peers|
  {
  }

  // ---- Ticks and applying ----

  lemma ApplyOk(n: nat, h: History, sent: seq<Packet>, s: Server)
    requires ServerOk(n, h, sent, s)
    ensures ServerOk(n, h, sent, ApplyEntry(s)) && ApplyEntry(s).me == s.me
  {
  }

  lemma ApplyStep(n: nat, c: Cluster, h: History, i: nat)
    requires Inv(n, c, h) && i < n
    ensures Inv(n, React(c, i, Outcome(ApplyEntry(c.servers[i]), [])), h)
  {
    hide ServerOk;
    hide HistoryOk;
    hide PacketOk;
    ApplyOk(n, h, c.sent, c.servers[i]);
    QuietStep(n, c, h, i, Outcome(ApplyEntry(c.servers[i]), []));
  }

  /** The election or heartbeat half of raft_periodic. */
  function TimeOut(s: Server, timedOut: bool): Outcome {
    if s.role.Leader? then Outcome(s, if timedOut then AppendsFrom(s, 0, true) else [])
    else if timedOut && 1 < |s.peers| then BecomeCandidate(s)
    else Outcome(s, [])
  }

  lemma TimeOutStep(n: nat, c: Cluster, h: History, i: nat, timedOut: bool) returns (h': History)
    requires Inv(n, c, h) && i < n
    ensures Grows(h, h') && Inv(n, React(c, i, TimeOut(c.servers[i], timedOut)), h')
    ensures (VoteRecorded(h, h', TimeOut(c.servers[i], timedOut).server)
             && c.servers[i].term < TimeOut(c.servers[i], timedOut).server.term)
            || (h' == h && TimeOut(c.servers[i], timedOut).server == c.servers[i])
  {
    var s := c.servers[i];
    assert |s.peers| == n;
    hide HistoryOk;
    hide ServerOk;
    hide PacketOk;
    hide OutOk;
    hide NoVoteRequest;
    h' := h;
    if !s.role.Leader? && timedOut && 1 < n {
      h' := CandidateStep(n, c, h, i);
    } else {
      if s.role.Leader? && timedOut {
        LeaderSends(n, h, c.sent, s, true);
      } else {
        NothingSent(n, h, i);
      }
      QuietStep(n, c, h, i, TimeOut(s, timedOut));
    }
  }

  lemma TickStep(n: nat, c: Cluster, h: History, i: nat, timedOut: bool) returns (h': History)
    requires Inv(n, c, h) && i < n
    ensures Grows(h, h') && Inv(n, React(c, i, Periodic(c.servers[i], timedOut)), h')
  {
    h' := TimeOutStep(n, c, h, i, timedOut);
    hide HistoryOk;
    hide ServerOk;
    hide PacketOk;
    var o := TimeOut(c.servers[i], timedOut);
    var c1 := React(c, i, o);
    ApplyStep(n, c1, h', i);
    var c2 := React(c1, i, Outcome(ApplyEntry(o.server), []));
    var c' := React(c, i, Periodic(c.servers[i], timedOut));
    assert c2.sent == c1.sent;
    assert c' == c1 || c' == c2;
  }

  // ---- Every event, every run ----

  lemma DeliverStep(n: nat, c: Cluster, h: History, k: nat) returns (h': History)
    requires Inv(n, c, h) && k < |c.sent|
    ensures c.sent[k].dst < |c.servers| && c.sent[k].src < |c.servers[c.sent[k].dst].peers|
    ensures Grows(h, h') && Inv(n, React(c, c.sent[k].dst, Receive(c.servers[c.sent[k].dst], c.sent[k])), h')
  {
    Delivery(n, c, h, k);
    hide Inv;
    hide Grows;
    hide React;
    GrowsReflexive(h);
    h' := h;
    match c.sent[k].msg {
      case RequestVote(_, _, _, _) => h' := RequestVoteStep(n, c, h, k);
      case VoteResponse(_, _) => h' := VoteResponseStep(n, c, h, k);
      case Append(_, _, _, _, _) => AppendStep(n, c, h, k);
      case AppendResponse(_, _, _, _) => AppendResponseStep(n, c, h, k);
    }
  }

  lemma GrowsReflexive(h: History)
    ensures Grows(h, h)
  {
  }

  /** The invariant does not mention which appends were seen. */
  lemma InvIgnoresSeen(n: nat, c: Cluster, h: History, c': Cluster)
    requires Inv(n, c, h) && c' == c.(seen := c'.seen)
    ensures Inv(n, c', h)
  {
  }

  lemma InvNext(n: nat, c: Cluster, h: History, ev: Event) returns (h': History)
    requires Inv(n, c, h)
    ensures Grows(h, h') && Inv(n, Next(c, ev), h')
  {
    assert |c.servers| == n;
    hide Inv;
    hide Grows;
    hide Receive;
    hide Periodic;
    hide RecvEntry;
    hide ApplyEntry;
    GrowsReflexive(h);
    h' := h;
    match ev {
      case Deliver(k) =>
        if Deliverable(c, k) {
          h' := DeliverStep(n, c, h, k);
          InvIgnoresSeen(n, React(c, c.sent[k].dst, Receive(c.servers[c.sent[k].dst], c.sent[k])), h', Next(c, ev));
        }
      case ClientEntry(i, id, data) =>
        if i < n { h' := EntryStep(n, c, h, i, id, data); }
      case Tick(i, timedOut) =>
        if i < n { h' := TickStep(n, c, h, i, timedOut); }
      case ApplyNext(i) =>
        if i < n { ApplyStep(n, c, h, i); }
    }
  }

  ghost const NEW_HISTORY := History(map[], {}, map[])

  lemma InvStart(n: nat)
    ensures Inv(n, Start(n), NEW_HISTORY)
  {
  }

  /** Every run has a history. */
  lemma {:induction false} RunHasHistory(n: nat, events: seq<Event>) returns (h: History)
    ensures Inv(n, Run(n, events), h)
  {
    hide Inv;
    if |events| == 0 {
      h := NEW_HISTORY;
      InvStart(n);
    } else {
      var h0 := RunHasHistory(n, events[..|events| - 1]);
      h := InvNext(n, Run(n, events[..|events| - 1]), h0, events[|events| - 1]);
    }
  }
}
