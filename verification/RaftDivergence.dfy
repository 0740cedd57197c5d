/** A run in which one append delivered late makes two servers apply different entries at one
    index, with no assert ever firing. */
module RaftDivergence {
  import opened RaftProtocol
  import opened RaftCluster
  import opened RaftTheorems

  const E1 := Entry(1, 1, 10)
  const E2 := Entry(1, 2, 20)
  const E3 := Entry(1, 3, 30)
  const F2 := Entry(2, 9, 90)

  const EVENTS := 23

  function Ev(k: nat): Event {
    if k == 0 then Tick(0, true)            // server 0 stands, and wins with server 1's vote
    else if k == 1 then Deliver(0)
    else if k == 2 then Deliver(2)
    else if k == 3 then ClientEntry(0, 1, 10)   // E1 reaches servers 1 and 2 and is committed
    else if k == 4 then Deliver(5)
    else if k == 5 then Deliver(7)
    else if k == 6 then Deliver(6)
    else if k == 7 then Tick(0, true)       // an empty append after E1 to server 1 is delayed
    else if k == 8 then ClientEntry(0, 2, 20)   // E2 and E3 reach server 1 and are committed
    else if k == 9 then ClientEntry(0, 3, 30)
    else if k == 10 then Tick(0, true)
    else if k == 11 then Deliver(12)
    else if k == 12 then Deliver(14)
    else if k == 13 then ApplyNext(0)       // server 0 applies E2
    else if k == 14 then Deliver(9)         // the delayed append arrives
    else if k == 15 then Tick(2, true)      // server 2 stands, and wins with server 1's vote
    else if k == 16 then Deliver(17)
    else if k == 17 then Deliver(18)
    else if k == 18 then ClientEntry(2, 9, 90)  // F2 reaches server 1 and is committed
    else if k == 19 then Deliver(22)
    else if k == 20 then Deliver(23)
    else ApplyNext(2)                       // server 2 applies E1 and F2
  }

  function Events(k: nat): seq<Event> { seq(k, i requires 0 <= i < k => Ev(i)) }

  // ---- What is sent ----

  function ToServer(to: nat, prev: nat, commit: nat, entries: seq<Entry>): Packet {
    Packet(0, to, Append(1, prev, if prev == 0 then 0 else 1, commit, entries))
  }

  function Accepted(term: nat, idx: nat, first: nat): Packet {
    Packet(1, if term == 1 then 0 else 2, AppendResponse(term, true, idx, first))
  }

  function P(k: nat): Packet {
    if k == 0 then Packet(0, 1, RequestVote(1, 0, 0, 0))
    else if k == 1 then Packet(0, 2, RequestVote(1, 0, 0, 0))
    else if k == 2 then Packet(1, 0, VoteResponse(1, true))
    else if k == 3 then ToServer(1, 0, 0, [])
    else if k == 4 then ToServer(2, 0, 0, [])
    else if k == 5 then ToServer(1, 0, 0, [E1])
    else if k == 6 then ToServer(2, 0, 0, [E1])
    else if k == 7 then Accepted(1, 1, 1)
    else if k == 8 then Packet(2, 0, AppendResponse(1, true, 1, 1))
    else if k == 9 then ToServer(1, 1, 1, [])
    else if k == 10 then ToServer(2, 0, 1, [E1])
    else if k == 11 then ToServer(1, 1, 1, [E2])
    else if k == 12 then ToServer(1, 1, 1, [E2, E3])
    else if k == 13 then ToServer(2, 0, 1, [E1, E2, E3])
    else if k == 14 then Accepted(1, 3, 2)
    else if k == 15 then Accepted(1, 1, 2)
    else if k == 16 then Packet(2, 0, RequestVote(2, 2, 1, 1))
    else if k == 17 then Packet(2, 1, RequestVote(2, 2, 1, 1))
    else if k == 18 then Packet(1, 2, VoteResponse(2, true))
    else if k == 19 then Packet(2, 0, Append(2, 1, 1, 0, []))
    else if k == 20 then Packet(2, 1, Append(2, 1, 1, 0, []))
    else if k == 21 then Packet(2, 0, Append(2, 1, 1, 0, [F2]))
    else if k == 22 then Packet(2, 1, Append(2, 1, 1, 0, [F2]))
    else Accepted(2, 2, 2)
  }

  function Sent(m: nat): seq<Packet> { seq(m, i requires 0 <= i < m => P(i)) }

  // ---- The servers ----

  const FRESH: seq<Peer> := [Peer(1, 0, false), Peer(1, 0, false), Peer(1, 0, false)]

  function Lead0(log: seq<Entry>, next: Index, match_: nat, commit: nat, applied: seq<Entry>): Server {
    Server(0, [Peer(1, 0, false), Peer(next, match_, true), Peer(1, 0, false)], 1, 0,
           log, commit, |applied|, applied, Leader, 0, {})
  }

  function Member1(term: nat, vote: int, log: seq<Entry>, commit: nat, leader: int): Server {
    Server(1, FRESH, term, vote, log, commit, 0, [], Follower, leader, {})
  }

  function Lead2(log: seq<Entry>, next: Index, match_: nat, commit: nat, applied: seq<Entry>): Server {
    Server(2, [Peer(2, 0, false), Peer(next, match_, true), Peer(1, 0, false)], 2, 2,
           log, commit, |applied|, applied, Leader, 2, {})
  }

  /** Server 0, 1 and 2 after k events. */
  function A(k: nat): Server {
    if k == 0 then Server(0, FRESH, 0, NOBODY, [], 0, 0, [], Follower, NOBODY, {})
    else if k < 3 then Server(0, FRESH, 1, 0, [], 0, 0, [], Candidate, NOBODY, {})
    else if k == 3 then Lead0([], 1, 0, 0, [])
    else if k < 6 then Lead0([E1], 1, 0, 0, [])
    else if k < 8 then Lead0([E1], 2, 1, 1, [])
    else if k == 8 then Lead0([E1], 2, 1, 1, [E1])
    else if k == 9 then Lead0([E1, E2], 2, 1, 1, [E1])
    else if k < 13 then Lead0([E1, E2, E3], 2, 1, 1, [E1])
    else if k == 13 then Lead0([E1, E2, E3], 4, 3, 3, [E1])
    else Lead0([E1, E2, E3], 4, 3, 3, [E1, E2])
  }

  function B(k: nat): Server {
    if k < 2 then Member1(0, NOBODY, [], 0, NOBODY)
    else if k < 5 then Member1(1, 0, [], 0, NOBODY)
    else if k < 12 then Member1(1, 0, [E1], 0, 0)
    else if k < 15 then Member1(1, 0, [E1, E2, E3], 1, 0)
    else if k < 17 then Member1(1, 0, [E1], 1, 0)
    else if k < 20 then Member1(2, 2, [E1], 1, NOBODY)
    else Member1(2, 2, [E1, F2], 1, 2)
  }

  function C(k: nat): Server {
    if k < 7 then Server(2, FRESH, 0, NOBODY, [], 0, 0, [], Follower, NOBODY, {})
    else if k < 16 then Server(2, FRESH, 1, NOBODY, [E1], 0, 0, [], Follower, 0, {})
    else if k < 18 then Server(2, FRESH, 2, 2, [E1], 0, 0, [], Candidate, NOBODY, {})
    else if k == 18 then Lead2([E1], 2, 0, 0, [])
    else if k < 21 then Lead2([E1, F2], 2, 0, 0, [])
    else if k == 21 then Lead2([E1, F2], 3, 2, 2, [])
    else if k == 22 then Lead2([E1, F2], 3, 2, 2, [E1])
    else Lead2([E1, F2], 3, 2, 2, [E1, F2])
  }

  /** How many packets k events send, and the latest append delivered over each link. */
  function Count(k: nat): nat {
    if k == 0 then 0 else if k == 1 then 2 else if k == 2 then 3 else if k == 3 then 5 else if k == 4 then 7
    else if k < 7 then 8 else if k == 7 then 9 else if k == 8 then 11 else if k < 11 then 12 else if k == 11 then 14
    else if k < 15 then 15 else if k == 15 then 16 else if k == 16 then 18 else if k == 17 then 19
    else if k == 18 then 21 else if k == 19 then 23 else 24
  }

  function Seen(k: nat): map<(nat, nat), nat> {
    if k < 5 then map[]
    else if k < 7 then map[(0, 1) := 5]
    else if k < 12 then map[(0, 1) := 5, (0, 2) := 6]
    else if k < 20 then map[(0, 1) := 12, (0, 2) := 6]
    else map[(0, 1) := 12, (0, 2) := 6, (2, 1) := 22]
  }

  function Stage(k: nat): Cluster { Cluster([A(k), B(k), C(k)], Sent(Count(k)), Seen(k)) }

  // ---- The loops over three nodes, unrolled ----

  function OneAppend(s: Server, j: nat, all: bool): seq<Packet>
    requires j < |s.peers|
  {
    if j != s.me && (all || s.peers[j].nextIdx == |s.log|) then [AppendFor(s, j)] else []
  }

  lemma ThreeAppends(s: Server, all: bool)
    requires |s.peers| == 3
    ensures AppendsFrom(s, 0, all) == OneAppend(s, 0, all) + (OneAppend(s, 1, all) + (OneAppend(s, 2, all) + []))
  {
    hide AppendFor;
    assert AppendsFrom(s, 3, all) == [];
    assert AppendsFrom(s, 2, all) == OneAppend(s, 2, all) + [];
    assert AppendsFrom(s, 1, all) == OneAppend(s, 1, all) + AppendsFrom(s, 2, all);
  }

  function OneRequest(s: Server, j: nat): seq<Packet> {
    if j != s.me then [Packet(s.me, j, RequestVote(s.term, s.me, |s.log|, LastTerm(s.log)))] else []
  }

  lemma ThreeRequests(s: Server)
    requires |s.peers| == 3
    ensures VoteRequestsFrom(s, 0) == OneRequest(s, 0) + (OneRequest(s, 1) + (OneRequest(s, 2) + []))
  {
    assert VoteRequestsFrom(s, 3) == [];
    assert VoteRequestsFrom(s, 2) == OneRequest(s, 2) + [];
    assert VoteRequestsFrom(s, 1) == OneRequest(s, 1) + VoteRequestsFrom(s, 2);
  }

  function OneVote(s: Server, j: nat): nat
    requires j < |s.peers|
  {
    if j != s.me && s.peers[j].votedForMe then 1 else 0
  }

  lemma ThreeVotes(s: Server)
    requires |s.peers| == 3
    ensures VotesFrom(s, 0) == OneVote(s, 0) + OneVote(s, 1) + OneVote(s, 2) + if s.votedFor == s.me then 1 else 0
  {
    assert VotesFrom(s, 3) == if s.votedFor == s.me then 1 else 0;
    assert VotesFrom(s, 2) == OneVote(s, 2) + VotesFrom(s, 3);
    assert VotesFrom(s, 1) == OneVote(s, 1) + VotesFrom(s, 2);
  }

  function OneAck(s: Server, point: nat, j: nat): nat
    requires j < |s.peers|
  {
    if CountsFor(s, point, j) then 1 else 0
  }

  lemma ThreeAcks(s: Server, point: nat)
    requires |s.peers| == 3
    ensures AcksFrom(s, point, 0) == OneAck(s, point, 0) + OneAck(s, point, 1) + OneAck(s, point, 2)
  {
    hide CountsFor;
    assert AcksFrom(s, point, 3) == 0;
    assert AcksFrom(s, point, 2) == OneAck(s, point, 2);
    assert AcksFrom(s, point, 1) == OneAck(s, point, 1) + AcksFrom(s, point, 2);
  }

  // ---- Each event ----

  lemma Stands()
    ensures Periodic(A(0), true) == Outcome(A(1), [P(0), P(1)])
  {
    hide VoteRequestsFrom;
    ThreeRequests(A(1));
    assert BecomeCandidate(A(0)).server.peers == FRESH;
  }

  lemma Votes()
    ensures RecvRequestVote(B(1), 0, P(0).msg) == Outcome(B(2), [P(2)])
  {
  }

  lemma Wins()
    ensures RecvVoteResponse(A(2), 1, P(2).msg) == Outcome(A(3), [P(3), P(4)])
  {
    hide AppendsFrom, VotesFrom;
    var s := A(2).(peers := FRESH[1 := Peer(1, 0, true)]);
    ThreeVotes(s);
    assert LeaderPeers(s) == A(3).peers;
    ThreeAppends(A(3), true);
  }

  lemma TakesE1()
    ensures RecvEntry(A(3), 1, 10) == Outcome(A(4), [P(5), P(6)])
  {
    hide AppendsFrom;
    ThreeAppends(A(4), false);
    assert [] + [E1] == [E1] && [E1][0..] == [E1];
  }

  /** Entries after the last one of the log, with ids other than 0, are all appended. */
  lemma AppendsAll(s: Server, entries: seq<Entry>)
    requires 0 < |entries| <= 2 && forall i :: 0 <= i < |entries| ==> entries[i].id != 0
    ensures MergeEntries(s, |s.log|, entries) == s.(log := s.log + entries)
  {
    assert MatchingEntries(s.log, |s.log|, entries) == 0 && entries[0..] == entries;
    assert AcceptableEntries(entries[1..]) == entries[1..];
    assert AcceptableEntries(entries) == entries;
  }

  lemma AcceptsE1()
    ensures RecvAppend(B(4), 0, P(5).msg) == Outcome(B(5), [P(7)])
  {
    hide MergeEntries;
    AppendsAll(B(4), [E1]);
    assert [] + [E1] == [E1];
  }

  lemma AcceptsE1Too()
    ensures RecvAppend(C(6), 0, P(6).msg) == Outcome(C(7), [P(8)])
  {
    hide MergeEntries;
    AppendsAll(SetTerm(C(6), 1), [E1]);
    assert [] + [E1] == [E1];
  }

  /** A leader of three commits its whole log once node 1 has acknowledged it. */
  lemma CommitsAll(s: Server, first: nat)
    requires |s.peers| == 3 && s.me != 1 && s.role.Leader? && s.fired == {} && MatchesInLog(s)
    requires s.commitIdx < |s.log| && s.peers[1].matchIdx < |s.log| && LastTerm(s.log) == s.term
    ensures RecvAppendResponse(s, 1, AppendResponse(s.term, true, |s.log|, first)) ==
            Outcome(s.(commitIdx := |s.log|,
                       peers := s.peers[1 := Peer(|s.log| + 1, |s.log|, s.peers[1].votedForMe)]), [])
  {
    hide AcksFrom, AppendFor;
    var s1 := s.(peers := s.peers[1 := Peer(|s.log| + 1, |s.log|, s.peers[1].votedForMe)]);
    ThreeAcks(s1, |s.log|);
    assert CountsFor(s1, |s.log|, 1);
  }

  lemma CommitsE1()
    ensures RecvAppendResponse(A(5), 1, P(7).msg) == Outcome(A(6), [])
  {
    hide RecvAppendResponse;
    CommitsAll(A(5), 1);
    assert A(5).peers[1 := Peer(2, 1, true)] == A(6).peers;
  }

  lemma HeartbeatsAfterE1()
    ensures Periodic(A(7), true) == Outcome(A(8), [P(9), P(10)])
  {
    hide AppendsFrom;
    ThreeAppends(A(7), true);
    assert [] + [E1] == [E1] && [E1][0..] == [E1];
  }

  lemma HeartbeatsAfterE3()
    ensures Periodic(A(10), true) == Outcome(A(11), [P(12), P(13)])
  {
    hide AppendsFrom;
    ThreeAppends(A(10), true);
    assert [E1, E2, E3][1..] == [E2, E3] && [E1, E2, E3][0..] == [E1, E2, E3];
  }

  lemma TakesE2()
    ensures RecvEntry(A(8), 2, 20) == Outcome(A(9), [P(11)])
  {
    hide AppendsFrom;
    ThreeAppends(A(9), false);
    assert [E1] + [E2] == [E1, E2] && [E1, E2][1..] == [E2];
  }

  lemma TakesE3()
    ensures RecvEntry(A(9), 3, 30) == Outcome(A(10), [])
  {
    hide AppendsFrom;
    ThreeAppends(A(10), false);
    assert [E1, E2] + [E3] == [E1, E2, E3];
  }

  lemma AcceptsE2E3()
    ensures RecvAppend(B(11), 0, P(12).msg) == Outcome(B(12), [P(14)])
  {
    hide MergeEntries;
    AppendsAll(B(11), [E2, E3]);
    assert [E1] + [E2, E3] == [E1, E2, E3];
  }

  lemma CommitsE3()
    ensures RecvAppendResponse(A(12), 1, P(14).msg) == Outcome(A(13), [])
  {
    hide RecvAppendResponse;
    CommitsAll(A(12), 2);
    assert A(12).peers[1 := Peer(4, 3, true)] == A(13).peers;
  }

  lemma AppliesE2()
    ensures ApplyEntry(A(13)) == A(14)
  {
    assert [E1] + [E2] == [E1, E2];
  }

  /** The delayed append: server 1 loses E2 and E3, and its commit index is still 1. */
  lemma LosesE2()
    ensures RecvAppend(B(14), 0, P(9).msg) == Outcome(B(15), [P(15)])
  {
    hide MergeEntries;
    CutsToE1();
  }

  lemma CutsToE1()
    ensures MergeEntries(B(14), 1, []) == B(15)
  {
    assert [E1, E2, E3][..1] == [E1];
    assert MatchingEntries([E1], 1, []) == 0;
  }

  lemma StandsAgain()
    ensures Periodic(C(15), true) == Outcome(C(16), [P(16), P(17)])
  {
    hide VoteRequestsFrom;
    ThreeRequests(C(16));
    assert BecomeCandidate(C(15)).server.peers == FRESH;
  }

  lemma VotesAgain()
    ensures RecvRequestVote(B(16), 2, P(17).msg) == Outcome(B(17), [P(18)])
  {
  }

  lemma WinsAgain()
    ensures RecvVoteResponse(C(17), 1, P(18).msg) == Outcome(C(18), [P(19), P(20)])
  {
    hide AppendsFrom, VotesFrom;
    var s := C(17).(peers := FRESH[1 := Peer(1, 0, true)]);
    ThreeVotes(s);
    assert LeaderPeers(s) == C(18).peers;
    ThreeAppends(C(18), true);
  }

  lemma TakesF2()
    ensures RecvEntry(C(18), 9, 90) == Outcome(C(19), [P(21), P(22)])
  {
    hide AppendsFrom;
    ThreeAppends(C(19), false);
    assert [E1] + [F2] == [E1, F2] && [E1, F2][1..] == [F2];
  }

  lemma AcceptsF2()
    ensures RecvAppend(B(19), 2, P(22).msg) == Outcome(B(20), [P(23)])
  {
    hide MergeEntries;
    AppendsAll(B(19), [F2]);
    assert [E1] + [F2] == [E1, F2];
  }

  lemma CommitsF2()
    ensures RecvAppendResponse(C(20), 1, P(23).msg) == Outcome(C(21), [])
  {
    hide RecvAppendResponse;
    CommitsAll(C(20), 2);
    assert C(20).peers[1 := Peer(3, 2, true)] == C(21).peers;
  }

  lemma AppliesF2()
    ensures ApplyEntry(C(21)) == C(22) && ApplyEntry(C(22)) == C(23)
  {
    assert [] + [E1] == [E1] && [E1] + [F2] == [E1, F2];
  }

  // ---- The run ----

  lemma SentMore(m: nat)
    ensures Sent(m) + [] == Sent(m) && Sent(m) + [P(m)] == Sent(m + 1) && Sent(m) + [P(m), P(m + 1)] == Sent(m + 2)
  {
  }

  predicate Reacts(k: nat, i: nat, o: Outcome) {
    && i < 3 && o.server == Stage(k + 1).servers[i]
    && Stage(k).servers[i := o.server] == Stage(k + 1).servers
    && Sent(Count(k)) + o.out == Sent(Count(k + 1))
  }

  /** An event at server i whose handler does what the tables above say. */
  lemma LocalStep(k: nat, i: nat, o: Outcome)
    requires Reacts(k, i, o) && Seen(k) == Seen(k + 1)
    requires match Ev(k)
             case Deliver(_) => false
             case ClientEntry(j, id, data) => j == i && o == RecvEntry(Stage(k).servers[i], id, data)
             case Tick(j, timedOut) => j == i && o == Periodic(Stage(k).servers[i], timedOut)
             case ApplyNext(j) => j == i && o == Outcome(ApplyEntry(Stage(k).servers[i]), [])
    ensures Next(Stage(k), Ev(k)) == Stage(k + 1)
  {
    hide Periodic, RecvEntry, ApplyEntry, A, B, C, Sent, Seen, Count, Ev;
  }

  lemma DeliverStep(k: nat, j: nat, o: Outcome)
    requires Ev(k) == Deliver(j) && j < Count(k) && P(j).src < 3 && P(j).dst < 3
    requires Reacts(k, P(j).dst, o)
    requires |Stage(k).servers[P(j).dst].peers| == 3 && Receive(Stage(k).servers[P(j).dst], P(j)) == o
    requires Seen(k + 1) == if P(j).msg.Append? && (Link(P(j)) in Seen(k) ==> Seen(k)[Link(P(j))] <= j)
                            then Seen(k)[Link(P(j)) := j] else Seen(k)
    ensures Next(Stage(k), Ev(k)) == Stage(k + 1)
  {
    hide Receive, A, B, C, Seen, Count, Ev, P;
    assert Stage(k).sent[j] == P(j);
  }

  lemma ElectsServer0(k: nat)
    requires k == 0 || k == 1 || k == 2
    ensures Next(Stage(k), Ev(k)) == Stage(k + 1)
  {
    hide Periodic, RecvEntry, ApplyEntry, Next, Sent, RecvVoteResponse, RecvRequestVote, RecvAppend, RecvAppendResponse;
    if k == 0 {
      Stands();
      SentMore(0);
      LocalStep(0, 0, Outcome(A(1), [P(0), P(1)]));
    } else if k == 1 {
      Votes();
      SentMore(2);
      DeliverStep(1, 0, Outcome(B(2), [P(2)]));
    } else {
      Wins();
      SentMore(3);
      DeliverStep(2, 2, Outcome(A(3), [P(3), P(4)]));
    }
  }

  lemma CommitsAtE1(k: nat)
    requires k == 3 || k == 4 || k == 5 || k == 6 || k == 7
    ensures Next(Stage(k), Ev(k)) == Stage(k + 1)
  {
    hide Periodic, RecvEntry, ApplyEntry, Next, Sent, RecvVoteResponse, RecvRequestVote, RecvAppend, RecvAppendResponse;
    if k == 3 {
      TakesE1();
      SentMore(5);
      LocalStep(3, 0, Outcome(A(4), [P(5), P(6)]));
    } else if k == 4 {
      AcceptsE1();
      SentMore(7);
      DeliverStep(4, 5, Outcome(B(5), [P(7)]));
    } else if k == 5 {
      CommitsE1();
      SentMore(8);
      DeliverStep(5, 7, Outcome(A(6), []));
    } else if k == 6 {
      AcceptsE1Too();
      SentMore(8);
      DeliverStep(6, 6, Outcome(C(7), [P(8)]));
    } else {
      HeartbeatsAfterE1();
      SentMore(9);
      LocalStep(7, 0, Outcome(A(8), [P(9), P(10)]));
    }
  }

  lemma CommitsAtE3(k: nat)
    requires k == 8 || k == 9 || k == 10 || k == 11 || k == 12 || k == 13
    ensures Next(Stage(k), Ev(k)) == Stage(k + 1)
  {
    hide Periodic, RecvEntry, ApplyEntry, Next, Sent, RecvVoteResponse, RecvRequestVote, RecvAppend, RecvAppendResponse;
    if k == 8 {
      TakesE2();
      SentMore(11);
      LocalStep(8, 0, Outcome(A(9), [P(11)]));
    } else if k == 9 {
      TakesE3();
      SentMore(12);
      LocalStep(9, 0, Outcome(A(10), []));
    } else if k == 10 {
      HeartbeatsAfterE3();
      SentMore(12);
      LocalStep(10, 0, Outcome(A(11), [P(12), P(13)]));
    } else if k == 11 {
      AcceptsE2E3();
      SentMore(14);
      DeliverStep(11, 12, Outcome(B(12), [P(14)]));
    } else if k == 12 {
      CommitsE3();
      SentMore(15);
      DeliverStep(12, 14, Outcome(A(13), []));
    } else {
      AppliesE2();
      SentMore(15);
      LocalStep(13, 0, Outcome(A(14), []));
    }
  }

  lemma ElectsServer2(k: nat)
    requires k == 14 || k == 15 || k == 16 || k == 17
    ensures Next(Stage(k), Ev(k)) == Stage(k + 1)
  {
    hide Periodic, RecvEntry, ApplyEntry, Next, Sent, RecvVoteResponse, RecvRequestVote, RecvAppend, RecvAppendResponse;
    if k == 14 {
      LosesE2();
      SentMore(15);
      DeliverStep(14, 9, Outcome(B(15), [P(15)]));
    } else if k == 15 {
      StandsAgain();
      SentMore(16);
      LocalStep(15, 2, Outcome(C(16), [P(16), P(17)]));
    } else if k == 16 {
      VotesAgain();
      SentMore(18);
      DeliverStep(16, 17, Outcome(B(17), [P(18)]));
    } else {
      WinsAgain();
      SentMore(19);
      DeliverStep(17, 18, Outcome(C(18), [P(19), P(20)]));
    }
  }

  lemma CommitsAtF2(k: nat)
    requires k == 18 || k == 19 || k == 20 || k == 21 || k == 22
    ensures Next(Stage(k), Ev(k)) == Stage(k + 1)
  {
    hide Periodic, RecvEntry, ApplyEntry, Next, Sent, RecvVoteResponse, RecvRequestVote, RecvAppend, RecvAppendResponse;
    if k == 18 {
      TakesF2();
      SentMore(21);
      LocalStep(18, 2, Outcome(C(19), [P(21), P(22)]));
    } else if k == 19 {
      AcceptsF2();
      SentMore(23);
      DeliverStep(19, 22, Outcome(B(20), [P(23)]));
    } else if k == 20 {
      CommitsF2();
      SentMore(24);
      DeliverStep(20, 23, Outcome(C(21), []));
    } else if k == 21 {
      AppliesF2();
      SentMore(24);
      LocalStep(21, 2, Outcome(C(22), []));
    } else {
      AppliesF2();
      SentMore(24);
      LocalStep(22, 2, Outcome(C(23), []));
    }
  }

  lemma Reaches(k: nat)
    requires k <= EVENTS
    ensures Run(3, Events(k)) == Stage(k)
  {
    hide Next, A, B, C, Sent, Seen, Count, Ev;
    if k == 0 {
      StartsAt();
    } else {
      Reaches(k - 1);
      StepsOn(k - 1);
      assert Events(k)[..k - 1] == Events(k - 1) && Events(k)[k - 1] == Ev(k - 1);
    }
  }

  lemma StartsAt()
    ensures Start(3) == Stage(0)
  {
    assert NewServer(0, 3).peers == FRESH && NewServer(1, 3).peers == FRESH && NewServer(2, 3).peers == FRESH;
    assert Start(3).servers == Stage(0).servers;
  }

  lemma StepsOn(k: nat)
    requires k < EVENTS
    ensures Next(Stage(k), Ev(k)) == Stage(k + 1)
  {
    hide Next, Stage, Ev;
    if k < 3 {
      ElectsServer0(k);
    } else if k < 8 {
      CommitsAtE1(k);
    } else if k < 14 {
      CommitsAtE3(k);
    } else if k < 18 {
      ElectsServer2(k);
    } else {
      CommitsAtF2(k);
    }
  }

  /** Every append but the delayed one is delivered in order. */
  lemma OrderedAt(k: nat)
    requires k < EVENTS && k != 14
    ensures KeepsOrder(Stage(k), Ev(k))
  {
    hide A, B, C;
    assert Ev(k).Deliver? && Ev(k).k < Count(k) ==> Stage(k).sent[Ev(k).k] == P(Ev(k).k);
  }

  lemma OrderBefore(k: nat)
    requires k <= 14
    ensures AppendsInOrder(3, Events(k))
  {
    hide Run, KeepsOrder;
    if k > 0 {
      OrderBefore(k - 1);
      Reaches(k - 1);
      assert Events(k)[..k - 1] == Events(k - 1) && Events(k)[k - 1] == Ev(k - 1);
      OrderedAt(k - 1);
    }
  }

  lemma CutsAtDelayed()
    ensures CutsAcked(Stage(14), Ev(14))
  {
    var c := Stage(14);
    assert c.sent[9] == P(9) && c.sent[14] == P(14);
    assert AcksBeyond(c.sent[14], c.sent[9]);
  }

  /** A run of three servers in which every append is delivered in order but one, which cuts an
      acknowledged entry: two servers then apply different entries at index 2, and no assert fires. */
  lemma ReorderingBreaksSafety()
    ensures AppendsInOrder(3, Events(14)) && CutsAcked(Run(3, Events(14)), Ev(14))
    ensures forall k {:trigger Ev(k)} :: 14 < k < EVENTS ==> KeepsOrder(Run(3, Events(k)), Ev(k))
    ensures var c := Run(3, Events(EVENTS));
            && |c.servers| == 3
            && c.servers[0].applied == [E1, E2] && c.servers[2].applied == [E1, F2]
            && !Comparable(c.servers[0].applied, c.servers[2].applied)
            && forall i :: 0 <= i < 3 ==> c.servers[i].fired == {}
  {
    hide Run, KeepsOrder, CutsAcked, AppendsInOrder;
    OrderBefore(14);
    Reaches(14);
    CutsAtDelayed();
    forall k {:trigger Ev(k)} | 14 < k < EVENTS
      ensures KeepsOrder(Run(3, Events(k)), Ev(k))
    {
      Reaches(k);
      OrderedAt(k);
    }
    Reaches(EVENTS);
    assert [E1, E2][1] != [E1, F2][1];
  }
}
