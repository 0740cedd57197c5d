/** An election can be won: a server whose log no member of a majority is ahead of can become leader. */
module RaftElection {
  import opened RaftProtocol
  import opened RaftCluster
  import opened RaftHistory
  import opened RaftInduction
  import opened RaftSafety
  import opened RaftTheorems
  import opened RaftBackoff
  import opened RaftProgress

  /** Server j can vote for the log in term t. */
  predicate Voter(n: nat, f: Server, j: nat, t: nat, log: seq<Entry>) {
    f.me == j && |f.peers| == n && f.term < t && NotAhead(f.log, log)
  }

  function Request(i: nat, j: nat, t: nat, log: seq<Entry>): Packet {
    Packet(i, j, RequestVote(t, i, |log|, LastTerm(log)))
  }

  predicate Asked(c: Cluster, p: Packet) { exists k :: 0 <= k < |c.sent| && c.sent[k] == p }

  /** Server i stands in term t; the members of `voted` have granted it their vote, those of `waiting` can. */
  ghost predicate Campaign(n: nat, c: Cluster, i: nat, t: nat, log: seq<Entry>, waiting: set<nat>, voted: set<nat>) {
    && |c.servers| == n && i < n
    && Stands(n, c.servers[i], i, t, log, voted)
    && (forall j :: j in waiting ==>
          j < n && j != i && Voter(n, c.servers[j], j, t, log) && Asked(c, Request(i, j, t, log)))
    && forall j :: j in voted ==> j < n && c.servers[j].term == t
  }

  ghost predicate Stands(n: nat, s: Server, i: nat, t: nat, log: seq<Entry>, voted: set<nat>) {
    && s.me == i && |s.peers| == n && s.role.Candidate? && s.term == t && s.votedFor == i && s.log == log
    && (forall j :: j in voted ==> j < n && j != i && s.peers[j].votedForMe)
    && !IsMajority(n, VotesFrom(s, 0))
  }

  /** What a server just elected is: its peers' indices are reset. */
  predicate Elected(n: nat, s: Server, i: nat, t: nat, log: seq<Entry>) {
    && s.me == i && |s.peers| == n && s.role.Leader? && s.term == t && s.log == log && s.leader == i
    && forall j :: 0 <= j < n && j != i ==> s.peers[j].nextIdx == |log| + 1 && s.peers[j].matchIdx == 0
  }

  /** The appends a new leader sends are the last packets sent. */
  predicate Greeted(c: Cluster, i: nat)
    requires i < |c.servers|
  {
    var out := AppendsFrom(c.servers[i], 0, true);
    |out| <= |c.sent| && c.sent[|c.sent| - |out|..] == out
  }

  ghost predicate Won(n: nat, c: Cluster, i: nat, t: nat, log: seq<Entry>, members: set<nat>) {
    && |c.servers| == n && i < n && Elected(n, c.servers[i], i, t, log) && Greeted(c, i)
    && forall x :: x in members ==> x < n && c.servers[x].term <= t
  }

  // ---- Standing ----

  lemma {:induction false} RequestAmong(s: Server, from: nat, j: nat) returns (p: nat)
    requires from <= j < |s.peers| && j != s.me
    ensures p < |VoteRequestsFrom(s, from)| && VoteRequestsFrom(s, from)[p] == Request(s.me, j, s.term, s.log)
    decreases j - from
  {
    if from == j {
      p := 0;
    } else {
      p := RequestAmong(s, from + 1, j);
      if from != s.me { p := p + 1; }
    }
  }

  lemma {:induction false} NoVotesYet(s: Server, from: nat)
    requires s.votedFor == s.me && forall j :: 0 <= j < |s.peers| ==> !s.peers[j].votedForMe
    ensures VotesFrom(s, from) == 1
    decreases |s.peers| - from
  {
    if from < |s.peers| { NoVotesYet(s, from + 1); }
  }

  /** The election timeout of a server of a cluster of more than one. */
  lemma TimesOut(s: Server)
    requires 1 < |s.peers| && !s.role.Leader?
    ensures var o := Periodic(s, true);
            var b := BecomeCandidate(s);
            && o.out == b.out && o.server == b.server.(appliedIdx := o.server.appliedIdx, applied := o.server.applied)
            && b.out == VoteRequestsFrom(b.server, 0)
            && b.server.term == s.term + 1 && b.server.votedFor == s.me && b.server.me == s.me && b.server.log == s.log
            && b.server.role.Candidate? && b.server.leader == NOBODY && |b.server.peers| == |s.peers|
            && forall j :: 0 <= j < |s.peers| ==> !b.server.peers[j].votedForMe
  {
  }

  lemma StartsCampaign(n: nat, c: Cluster, i: nat, waiting: set<nat>)
    requires 1 < n == |c.servers| && i < n
    requires var s := c.servers[i]; s.me == i && |s.peers| == n && !s.role.Leader?
    requires var s := c.servers[i];
             forall j :: j in waiting ==> j < n && j != i && Voter(n, c.servers[j], j, s.term + 1, s.log)
    ensures Campaign(n, Next(c, Tick(i, true)), i, c.servers[i].term + 1, c.servers[i].log, waiting, {})
  {
    hide Periodic, BecomeCandidate, VoteRequestsFrom, VotesFrom, NotAhead;
    var s := c.servers[i];
    TimesOut(s);
    var o := Periodic(s, true);
    var c' := Next(c, Tick(i, true));
    assert c'.servers == c.servers[i := o.server] && c'.sent == c.sent + o.out;
    NoVotesYet(o.server, 0);
    var b := BecomeCandidate(s).server;
    forall j | j in waiting ensures Asked(c', Request(i, j, s.term + 1, s.log)) {
      var p := RequestAmong(b, 0, j);
      assert c'.sent[|c.sent| + p] == Request(i, j, s.term + 1, s.log);
    }
  }

  // ---- One vote ----

  lemma Grants(f: Server, n: nat, i: nat, j: nat, t: nat, log: seq<Entry>)
    requires Voter(n, f, j, t, log)
    ensures var o := RecvRequestVote(f, i, Request(i, j, t, log).msg);
            o.out == [Packet(j, i, VoteResponse(t, true))] && o.server.term == t
  {
    VotesExactly(f, i, Request(i, j, t, log).msg, log);
  }

  lemma {:induction false} FlaggedVotes(s: Server, voted: set<nat>)
    requires s.votedFor == s.me && s.me < |s.peers|
    requires forall j :: j in voted ==> j < |s.peers| && j != s.me && s.peers[j].votedForMe
    ensures 1 + |voted| <= VotesFrom(s, 0) <= |s.peers|
  {
    VotesAreCounted(s, 0);
    var flagged := set k | 0 <= k < |s.peers| && k != s.me && s.peers[k].votedForMe;
    assert voted <= flagged;
    SubsetSize(voted, flagged);
    assert flagged + {s.me} == VoterSet(s);
    BoundedSize(|s.peers|, flagged + {s.me});
  }

  /** A granted vote is noted, or it is the one that elects. */
  lemma TakesVote(n: nat, s: Server, i: nat, t: nat, log: seq<Entry>, voted: set<nat>, j: nat)
    requires Stands(n, s, i, t, log, voted) && i < n && j < n && j != i
    ensures var o := RecvVoteResponse(s, j, VoteResponse(t, true));
            || Stands(n, o.server, i, t, log, voted + {j})
            || (Elected(n, o.server, i, t, log) && o.out == AppendsFrom(o.server, 0, true))
  {
    hide VotesFrom, AppendsFrom;
  }

  lemma BallotCutsNothing(c: Cluster, k: nat)
    requires k < |c.sent| && !c.sent[k].msg.Append?
    ensures !CutsAcked(c, Deliver(k))
  {
  }

  /** One voter is asked and answers. */
  lemma Canvass(n: nat, c: Cluster, i: nat, t: nat, log: seq<Entry>, waiting: set<nat>, voted: set<nat>, j: nat)
      returns (k: nat)
    requires Campaign(n, c, i, t, log, waiting, voted) && j in waiting
    ensures var c1 := Next(c, Deliver(k));
            var c' := Next(c1, Deliver(|c.sent|));
            && !CutsAcked(c, Deliver(k)) && !CutsAcked(c1, Deliver(|c.sent|))
            && (|| Campaign(n, c', i, t, log, waiting - {j}, voted + {j})
                || Won(n, c', i, t, log, voted + waiting))
  {
    hide RecvRequestVote, RecvVoteResponse, Stands, NotAhead, AppendsFrom, Elected, CutsAcked;
    k :| 0 <= k < |c.sent| && c.sent[k] == Request(i, j, t, log);
    KnowsMembers(n, c.servers[i], i, t, log, voted);
    Grants(c.servers[j], n, i, j, t, log);
    var o := RecvRequestVote(c.servers[j], i, c.sent[k].msg);
    var c1 := Next(c, Deliver(k));
    assert c1.servers == c.servers[j := o.server] && c1.sent == c.sent + o.out;
    assert c1.sent[|c.sent|] == Packet(j, i, VoteResponse(t, true));
    TakesVote(n, c.servers[i], i, t, log, voted, j);
    var o2 := RecvVoteResponse(c.servers[i], j, VoteResponse(t, true));
    var c2 := Next(c1, Deliver(|c.sent|));
    assert c2.servers == c1.servers[i := o2.server] && c2.sent == c1.sent + o2.out;
    BallotCutsNothing(c, k);
    BallotCutsNothing(c1, |c.sent|);
    forall x | x in voted + waiting ensures x < n && (x != i ==> c2.servers[x].term <= t) {
      assert x != i ==> c2.servers[x] == c1.servers[x];
    }
    forall x | x in voted + {j} ensures x < n && (x != i ==> c2.servers[x].term == t) {
      assert x != i ==> c2.servers[x] == c1.servers[x];
    }
    if Stands(n, o2.server, i, t, log, voted + {j}) {
      forall x | x in waiting - {j} ensures Asked(c2, Request(i, x, t, log)) {
        var y :| 0 <= y < |c.sent| && c.sent[y] == Request(i, x, t, log);
        assert c2.sent[y] == c.sent[y];
      }
    } else {
      assert c2.sent[|c2.sent| - |o2.out|..] == o2.out;
      LeadsInTerm(n, o2.server, i, t, log);
    }
  }

  lemma LeadsInTerm(n: nat, s: Server, i: nat, t: nat, log: seq<Entry>)
    requires Elected(n, s, i, t, log)
    ensures s.term == t
  {
  }

  lemma KnowsMembers(n: nat, s: Server, i: nat, t: nat, log: seq<Entry>, voted: set<nat>)
    requires Stands(n, s, i, t, log, voted)
    ensures |s.peers| == n && s.me == i && s.term == t && i !in voted
  {
  }

  // ---- The whole election ----

  lemma UncutOneMore(n: nat, events: seq<Event>, ev: Event)
    ensures NoAckCut(n, events + [ev]) <==> NoAckCut(n, events) && !CutsAcked(Run(n, events), ev)
  {
    assert (events + [ev])[..|events|] == events;
  }

  /** A candidate with the votes of a majority is none any more. */
  lemma SomeoneWaits(n: nat, c: Cluster, i: nat, t: nat, log: seq<Entry>, waiting: set<nat>, voted: set<nat>)
    requires Campaign(n, c, i, t, log, waiting, voted) && n / 2 < 1 + |voted + waiting|
    ensures waiting != {}
  {
    hide VotesFrom;
    FlaggedVotes(c.servers[i], voted);
    assert voted + {} == voted;
  }

  lemma CanvassRun(n: nat, events: seq<Event>, i: nat, t: nat, log: seq<Entry>, waiting: set<nat>, voted: set<nat>,
                   j: nat) returns (two: seq<Event>)
    requires Campaign(n, Run(n, events), i, t, log, waiting, voted) && j in waiting
    ensures |two| == 2 && two[0].Deliver? && two[1].Deliver?
    ensures NoAckCut(n, events) ==> NoAckCut(n, events + two)
    ensures var c' := Run(n, events + two);
            Campaign(n, c', i, t, log, waiting - {j}, voted + {j}) || Won(n, c', i, t, log, voted + waiting)
  {
    hide Next, Run, Campaign, Won, CutsAcked, NoAckCut;
    var c := Run(n, events);
    var k := Canvass(n, c, i, t, log, waiting, voted, j);
    two := [Deliver(k), Deliver(|c.sent|)];
    RunOneMore(n, events, Deliver(k));
    RunOneMore(n, events + [Deliver(k)], Deliver(|c.sent|));
    UncutOneMore(n, events, Deliver(k));
    UncutOneMore(n, events + [Deliver(k)], Deliver(|c.sent|));
    assert events + [Deliver(k)] + [Deliver(|c.sent|)] == events + two;
  }

  /** Asking the voters that are left, one after the other, elects the candidate as soon as a majority
      has granted its vote. */
  lemma {:induction false} CampaignEnds(n: nat, events: seq<Event>, i: nat, t: nat, log: seq<Entry>,
                                        waiting: set<nat>, voted: set<nat>) returns (more: seq<Event>)
    requires Campaign(n, Run(n, events), i, t, log, waiting, voted)
    requires voted !! waiting && n / 2 < 1 + |voted + waiting|
    ensures (forall e :: e in more ==> e.Deliver?) && |more| <= 2 * |waiting|
    ensures Won(n, Run(n, events + more), i, t, log, voted + waiting)
    ensures NoAckCut(n, events) ==> NoAckCut(n, events + more)
    decreases |waiting|
  {
    hide Run, Campaign, Won, NoAckCut;
    SomeoneWaits(n, Run(n, events), i, t, log, waiting, voted);
    var j :| j in waiting;
    var two := CanvassRun(n, events, i, t, log, waiting, voted, j);
    more := two;
    assert voted + {j} + (waiting - {j}) == voted + waiting;
    if !Won(n, Run(n, events + two), i, t, log, voted + waiting) {
      var rest := CampaignEnds(n, events + two, i, t, log, waiting - {j}, voted + {j});
      more := two + rest;
      assert events + two + rest == events + more;
    }
  }

  /** An empty append after the last entry of the log. */
  function Hello(i: nat, j: nat, t: nat, log: seq<Entry>, commit: nat): Packet {
    Packet(i, j, Append(t, |log|, if log == [] then 0 else log[|log| - 1].term, commit, []))
  }

  lemma Greeting(n: nat, s: Server, i: nat, t: nat, log: seq<Entry>, j: nat)
    requires Elected(n, s, i, t, log) && j < n && j != i
    ensures AppendFor(s, j) == Hello(i, j, t, log, s.commitIdx)
  {
  }

  /** The majority q has server i in it, which does not lead, and none of its members is ahead of i: what
      winning an election needs. */
  predicate CanLead(n: nat, events: seq<Event>, i: nat, q: set<nat>) {
    && 1 < n && i in q && (forall j :: j in q ==> j < n) && n / 2 < |q|
    && var s := At(n, events, |events|, i);
       && !s.role.Leader?
       && forall j :: j in q && j != i ==>
            var f := At(n, events, |events|, j);
            var a, b := if f.log == [] then 0 else f.log[|f.log| - 1].term,
                        if s.log == [] then 0 else s.log[|s.log| - 1].term;
            f.term <= s.term && (a < b || (a == b && |f.log| <= |s.log|))
  }

  /** In any run of more than one server, let `q` be a majority with server i in it, which does not lead.
      If no member of q has a later term than i, or a log that ends in a later term, or in the same term
      and is longer, then a timeout of i and deliveries alone, at most two for each other member, can
      make i the leader of a new term, which greets every peer with an empty append. */
  lemma ElectionCanBeWon(n: nat, events: seq<Event>, i: nat, q: set<nat>) returns (more: seq<Event>)
    requires CanLead(n, events, i, q)
    ensures 0 < |more| < 2 * |q| && more[0] == Tick(i, true) && forall e :: e in more[1..] ==> e.Deliver?
    ensures var s := At(n, events, |events|, i);
            var c' := Run(n, events + more);
            && |c'.servers| == n
            && var s' := c'.servers[i];
               && s'.role.Leader? && s'.term == s.term + 1 && s'.log == s.log && s'.me == i
               && s'.leader == i
               && (forall j :: j in q ==> c'.servers[j].term <= s'.term)
               && forall j :: 0 <= j < n && j != i ==>
                    && |s'.peers| == n && s'.peers[j].nextIdx == |s.log| + 1 && s'.peers[j].matchIdx == 0
                    && Hello(i, j, s'.term, s.log, s'.commitIdx) in c'.sent
    ensures NoAckCut(n, events) ==> NoAckCut(n, events + more)
  {
    hide Run, Next, Campaign, NoAckCut, CutsAcked;
    assert events[..|events|] == events;
    ServersStay(n, events);
    var c := Run(n, events);
    var s := c.servers[i];
    var waiting := q - {i};
    assert q == waiting + {i};
    forall j | j in waiting ensures Voter(n, c.servers[j], j, s.term + 1, s.log) {
      MembersKnow(n, events, i, j);
      assert c.servers[j] == At(n, events, |events|, j);
    }
    MembersKnow(n, events, i, i);
    StartsCampaign(n, c, i, waiting);
    RunOneMore(n, events, Tick(i, true));
    UncutOneMore(n, events, Tick(i, true));
    TickCutsNothing(c, i, true);
    assert {} + waiting == waiting;
    var rest := CampaignEnds(n, events + [Tick(i, true)], i, s.term + 1, s.log, waiting, {});
    more := [Tick(i, true)] + rest;
    assert events + [Tick(i, true)] + rest == events + more;
    var c' := Run(n, events + more);
    var s' := c'.servers[i];
    forall j | 0 <= j < n && j != i ensures Hello(i, j, s'.term, s.log, s'.commitIdx) in c'.sent {
      HelloSent(n, c', i, s.term + 1, s.log, j);
    }
  }

  lemma TickCutsNothing(c: Cluster, i: nat, timedOut: bool)
    ensures !CutsAcked(c, Tick(i, timedOut))
  {
  }

  lemma HelloSent(n: nat, c: Cluster, i: nat, t: nat, log: seq<Entry>, j: nat)
    requires |c.servers| == n && i < n && j < n && j != i && Elected(n, c.servers[i], i, t, log) && Greeted(c, i)
    ensures Hello(i, j, t, log, c.servers[i].commitIdx) in c.sent
  {
    hide AppendsFrom, Hello, AppendFor;
    var s := c.servers[i];
    Greeting(n, s, i, t, log, j);
    var p := AppendAmong(s, 0, j);
    var out := AppendsFrom(s, 0, true);
    assert c.sent[|c.sent| - |out|..][p] == out[p];
  }

  /** The election timeout does nothing in a cluster of one: no run of it has a leader. */
  lemma LoneServerNeverLeads(events: seq<Event>)
    ensures At(1, events, |events|, 0).role.Follower?
  {
    assert events[..|events|] == events;
    ServersStay(1, events);
    var h := RunHasHistory(1, events);
    assert ServerOk(1, h, Run(1, events).sent, Run(1, events).servers[0]);
  }
}
