/** What a run has established so far, and the invariant that ties it to the cluster.

    The history is never read by a handler.  For every term with a leader it keeps the
    leader, the logs its voters had when they voted, and the leader's log: at the election
    (`base`) and now (`log`).  It also keeps every vote ever cast, and for every server and
    term the highest index the server acknowledged to that term's leader.
 */
module RaftHistory {
  import opened RaftProtocol
  import opened RaftCluster

  datatype Reign = Reign(leader: nat, voters: map<nat, seq<Entry>>, base: seq<Entry>, log: seq<Entry>)

  datatype Ballot = Ballot(voter: nat, term: nat, candidate: nat, log: seq<Entry>)

  datatype History = History(reigns: map<nat, Reign>, ballots: set<Ballot>, acked: map<(nat, nat), nat>)

  // ---- Logs ----

  /** The candidate log `a` is at least as up to date as the voter log `b`. */
  predicate UpToDate(a: seq<Entry>, b: seq<Entry>) {
    || |b| == 0
    || LastTerm(b) < LastTerm(a)
    || (LastTerm(b) == LastTerm(a) && |b| <= |a|)
  }

  /** Entry `i` of `log` was created by the leader of its term, at this very position and
      after exactly these predecessors. */
  ghost predicate Rooted(reigns: map<nat, Reign>, log: seq<Entry>, i: nat)
    requires i < |log|
  {
    var w := log[i].term;
    && w in reigns
    && |reigns[w].base| <= i < |reigns[w].log|
    && log[..i + 1] == reigns[w].log[..i + 1]
  }

  ghost predicate Derived(reigns: map<nat, Reign>, log: seq<Entry>) {
    forall i {:trigger Rooted(reigns, log, i)} :: 0 <= i < |log| ==> Rooted(reigns, log, i)
  }

  // ---- History ----

  ghost predicate ReignOk(n: nat, h: History, t: nat)
    requires t in h.reigns
  {
    var r := h.reigns[t];
    && 1 <= t
    && r.leader < n
    && r.leader in r.voters
    && (forall v :: v in r.voters ==> v < n)
    && n / 2 < |r.voters|
    && (forall v :: v in r.voters ==>
          Ballot(v, t, r.leader, r.voters[v]) in h.ballots && UpToDate(r.base, r.voters[v]))
    && r.base <= r.log
    && (forall i :: 0 <= i < |r.base| ==> r.base[i].term < t)
    && (forall i :: |r.base| <= i < |r.log| ==> r.log[i].term == t)
    && (forall i :: 0 <= i < |r.log| ==> r.log[i].id != 0)
    && Derived(h.reigns, r.log)
  }

  /** Two votes of one server in one term go to the same candidate, unless the term has a
      leader that was elected without that server. */
  ghost predicate VotesAgree(h: History, b1: Ballot, b2: Ballot) {
    b1.voter == b2.voter && b1.term == b2.term ==>
      b1.candidate == b2.candidate || Outvoted(h, b1.voter, b1.term)
  }

  ghost predicate Outvoted(h: History, v: nat, t: nat) {
    t in h.reigns && v !in h.reigns[t].voters
  }

  ghost predicate HistoryOk(n: nat, h: History) {
    && (forall t :: t in h.reigns ==> ReignOk(n, h, t))
    && (forall b :: b in h.ballots ==> b.voter < n && b.candidate < n && Derived(h.reigns, b.log))
    && (forall b1, b2 :: b1 in h.ballots && b2 in h.ballots ==> VotesAgree(h, b1, b2))
  }

  ghost predicate HasBallot(h: History, voter: nat, term: nat, candidate: nat) {
    exists b :: b in h.ballots && b.voter == voter && b.term == term && b.candidate == candidate
  }

  // ---- Servers ----

  ghost predicate VoterOk(h: History, s: Server) {
    forall b :: b in h.ballots && b.voter == s.me ==>
      && b.term <= s.term
      && (b.term == s.term ==> s.votedFor == b.candidate || Outvoted(h, s.me, s.term))
  }

  ghost predicate BidsOk(h: History, sent: seq<Packet>, s: Server) {
    && (forall b :: b in h.ballots && b.candidate == s.me ==>
          && b.term <= s.term
          && (b.term == s.term && s.role.Candidate? ==> UpToDate(s.log, b.log)))
    && (forall k :: 0 <= k < |sent| && sent[k].src == s.me && sent[k].msg.RequestVote? ==>
          && sent[k].msg.term <= s.term
          && (sent[k].msg.term == s.term && s.role.Candidate? ==>
                sent[k].msg.lastLogIdx == |s.log| && sent[k].msg.lastLogTerm == LastTerm(s.log)))
  }

  ghost predicate ReignsOk(h: History, s: Server) {
    forall t :: t in h.reigns && h.reigns[t].leader == s.me ==> t <= s.term && (t == s.term ==> s.role.Leader?)
  }

  ghost predicate CandidateOk(h: History, s: Server) {
    s.role.Candidate? ==>
      && 1 <= s.term
      && s.votedFor == s.me
      && Ballot(s.me, s.term, s.me, s.log) in h.ballots
      && (forall j :: 0 <= j < |s.peers| && j != s.me && s.peers[j].votedForMe ==> HasBallot(h, j, s.term, s.me))
  }

  ghost predicate LeaderOk(h: History, s: Server) {
    s.role.Leader? ==>
      && s.term in h.reigns
      && h.reigns[s.term].leader == s.me
      && s.votedFor == s.me
      && s.log == h.reigns[s.term].log
      && (forall j :: 0 <= j < |s.peers| && j != s.me ==>
            s.peers[j].nextIdx <= |s.log| + 1 && s.peers[j].matchIdx <= |s.log|)
  }

  /** The asserts that never fire, whatever the network does. */
  const ALWAYS_SAFE: set<nat> := {218, 248, 447}

  ghost predicate ServerOk(n: nat, h: History, sent: seq<Packet>, s: Server) {
    && s.me < n
    && |s.peers| == n
    && (!s.role.Follower? ==> 1 < n)
    && Derived(h.reigns, s.log)
    && (forall i :: 0 <= i < |s.log| ==> s.log[i].term <= s.term)
    && VoterOk(h, s)
    && BidsOk(h, sent, s)
    && ReignsOk(h, s)
    && CandidateOk(h, s)
    && LeaderOk(h, s)
    && s.fired !! ALWAYS_SAFE
  }

  // ---- Packets ----

  ghost predicate AppendOk(h: History, p: Packet)
    requires p.msg.Append?
  {
    var ae := p.msg;
    && ae.term in h.reigns
    && p.src == h.reigns[ae.term].leader
    && p.dst != p.src
    && |h.reigns[ae.term].base| <= ae.prevIdx + |ae.entries| <= |h.reigns[ae.term].log|
    && ae.entries == h.reigns[ae.term].log[ae.prevIdx..ae.prevIdx + |ae.entries|]
    && (0 < ae.prevIdx ==> ae.prevTerm == h.reigns[ae.term].log[ae.prevIdx - 1].term)
  }

  ghost predicate PacketOk(n: nat, h: History, p: Packet) {
    && p.src < n
    && p.dst < n
    && p.src != p.dst
    && match p.msg {
         case RequestVote(_, candidate, _, _) => candidate == p.src
         case VoteResponse(term, granted) => granted ==> HasBallot(h, p.src, term, p.dst)
         case Append(_, _, _, _, _) => AppendOk(h, p)
         case AppendResponse(term, success, currentIdx, _) =>
           success ==> term in h.reigns && p.dst == h.reigns[term].leader && currentIdx <= |h.reigns[term].log|
       }
  }

  ghost predicate Inv(n: nat, c: Cluster, h: History) {
    && |c.servers| == n
    && HistoryOk(n, h)
    && (forall i :: 0 <= i < n ==> c.servers[i].me == i && ServerOk(n, h, c.sent, c.servers[i]))
    && (forall k :: 0 <= k < |c.sent| ==> PacketOk(n, h, c.sent[k]))
  }

  // ---- Histories only grow ----

  ghost predicate ReignGrows(r: Reign, r': Reign) {
    r'.leader == r.leader && r'.voters == r.voters && r'.base == r.base && r.log <= r'.log
  }

  ghost predicate Grows(h: History, h': History) {
    && (forall t :: t in h.reigns ==> t in h'.reigns && ReignGrows(h.reigns[t], h'.reigns[t]))
    && h.ballots <= h'.ballots
    && (forall a :: a in h.acked ==> a in h'.acked && h.acked[a] <= h'.acked[a])
  }

  lemma GrowsTransitive(h1: History, h2: History, h3: History)
    requires Grows(h1, h2) && Grows(h2, h3)
    ensures Grows(h1, h3)
  {
  }

  lemma DerivedGrows(h: History, h': History, log: seq<Entry>)
    requires Grows(h, h') && Derived(h.reigns, log)
    ensures Derived(h'.reigns, log)
  {
    forall i | 0 <= i < |log| ensures Rooted(h'.reigns, log, i) {
      assert Rooted(h.reigns, log, i);
      var w := log[i].term;
      assert h.reigns[w].log[..i + 1] == h'.reigns[w].log[..i + 1];
    }
  }

  lemma DerivedPrefix(reigns: map<nat, Reign>, log: seq<Entry>, k: nat)
    requires Derived(reigns, log) && k <= |log|
    ensures Derived(reigns, log[..k])
  {
    forall i | 0 <= i < k ensures Rooted(reigns, log[..k], i) {
      assert Rooted(reigns, log, i);
      assert log[..k][..i + 1] == log[..i + 1];
    }
  }

  lemma PacketGrows(n: nat, h: History, h': History, p: Packet)
    requires Grows(h, h') && PacketOk(n, h, p)
    ensures PacketOk(n, h', p)
  {
    if p.msg.Append? {
      var r, r' := h.reigns[p.msg.term], h'.reigns[p.msg.term];
      var a, b := p.msg.prevIdx, p.msg.prevIdx + |p.msg.entries|;
      assert r.log[a..b] == r'.log[a..b];
    } else if p.msg.VoteResponse? && p.msg.granted {
      assert HasBallot(h, p.src, p.msg.term, p.dst);
    }
  }
}
