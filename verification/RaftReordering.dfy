/** What goes wrong when appends are delivered out of order, and exactly when. */
module RaftReordering {
  import opened RaftProtocol
  import opened RaftCluster
  import opened RaftHistory
  import opened RaftMerge
  import opened RaftInduction
  import opened RaftCompleteness
  import opened RaftSafety
  import opened RaftFollower
  import opened RaftPreservation
  import opened RaftTheorems

  predicate Conflicts(s: Server, prev: nat, entries: seq<Entry>) {
    var k := MatchingEntries(s.log, prev, entries);
    k < |entries| && prev + k < |s.log|
  }

  lemma MergeFired(s: Server, prev: nat, entries: seq<Entry>)
    requires prev <= |s.log|
    requires Conflicts(s, prev, entries) ==> s.commitIdx <= prev + MatchingEntries(s.log, prev, entries)
    ensures var m := MergeEntries(s, prev, entries);
            && m == s.(log := m.log, fired := m.fired)
            && m.fired == s.fired
               + (if |entries| == 0 && 0 < prev && prev + 1 < |s.log| && prev < s.commitIdx then {341} else {})
  {
  }

  /** The rest of the handler adds nothing when the announced commit index is in the append. */
  lemma AcceptFired(s: Server, from: nat, ae: Message)
    requires ae.Append? && PrevMatches(s, ae) && ae.leaderCommit <= AppendEnd(ae)
    requires AppendEnd(ae) <= |MergeEntries(s, ae.prevIdx, ae.entries).log|
    ensures AppendAtTerm(s, from, ae).server.fired == MergeEntries(s, ae.prevIdx, ae.entries).fired
  {
  }

  lemma NoConflictBelowCommit(reigns: map<nat, Reign>, s: Server, prev: nat, l: seq<Entry>, end: nat)
    requires Derived(reigns, s.log) && Derived(reigns, l)
    requires prev <= |s.log| && prev <= end <= |l| && s.log[..prev] == l[..prev]
    requires s.commitIdx <= |s.log| && s.commitIdx <= |l| && s.log[..s.commitIdx] == l[..s.commitIdx]
    ensures Conflicts(s, prev, l[prev..end]) ==> s.commitIdx <= prev + MatchingEntries(s.log, prev, l[prev..end])
  {
    hide Derived;
    MatchingIsEqual(reigns, s.log, prev, l, end);
    hide MatchingEntries;
    assert forall i :: 0 <= i < s.commitIdx ==> s.log[..s.commitIdx][i] == s.log[i] && l[..s.commitIdx][i] == l[i];
  }

  lemma AcceptFiresExactly(n: nat, h: History, s: Server, p: Packet)
    requires HistoryOk(n, h) && BallotsKeep(h) && Derived(h.reigns, s.log)
    requires s.fired == {} && CommitSound(n, h, s) && s.commitIdx <= |s.log|
    requires p.msg.Append? && AppendOk(h, p) && PrevMatches(s, p.msg) && s.term == p.msg.term
    requires p.msg.leaderCommit <= AppendEnd(p.msg)
    ensures AppendAtTerm(s, p.src, p.msg).server.fired
            == if Truncates(s, p.msg) && p.msg.prevIdx < s.commitIdx then {341} else {}
  {
    hide HistoryOk;
    hide BallotsKeep;
    hide Derived;
    hide CommitSound;
    hide MergeEntries;
    hide AppendAtTerm;
    hide ReignOk;
    CommittedInReign(n, h, s, s.term);
    ReignFacts(n, h, s.term);
    ReignIsOk(n, h, s.term);
    AcceptInstallsLeaderLog(n, h, s, p);
    NoConflictBelowCommit(h.reigns, s, p.msg.prevIdx, h.reigns[s.term].log, AppendEnd(p.msg));
    MergeFired(s, p.msg.prevIdx, p.msg.entries);
    AcceptFired(s, p.src, p.msg);
  }

  /** The whole handler, for an append delivered in or out of order to a safe server. */
  lemma RecvAppendFires(n: nat, h: History, sent: seq<Packet>, s: Server, p: Packet)
    requires HistoryOk(n, h) && BallotsKeep(h) && AckedOk(n, h)
    requires ServerOk(n, h, sent, s) && ReignsOk(h, s) && Derived(h.reigns, s.log) && SafeServer(n, h, s)
    requires p.msg.Append? && PacketOk(n, h, p) && AppendOk(h, p) && SafePacket(n, h, p) && p.dst == s.me && s.me < n
    ensures RecvAppend(s, p.src, p.msg).server.fired
            == if p.msg.term == s.term && PrevMatches(s, p.msg) && Truncates(s, p.msg) && p.msg.prevIdx < s.commitIdx
               then {341} else {}
  {
    hide HistoryOk;
    hide BallotsKeep;
    hide AckedOk;
    hide ServerOk;
    hide Derived;
    hide PacketOk;
    hide AppendAtTerm;
    hide KeepsAcked;
    hide CommitSound;
    if s.term <= p.msg.term {
      var s1 := Settled(s, p.msg.term);
      SettledOk(n, h, sent, s, p);
      SettledSafe(n, h, s, p.msg.term);
      SettledData(s, p.msg.term);
      if PrevMatches(s1, p.msg) {
        AcceptFiresExactly(n, h, s1, p);
        if s.term < p.msg.term {
          NoLaterAcks(n, h, s);
          CommittedInReign(n, h, s1, p.msg.term);
        }
      } else {
        SafeReject(n, h, s1, p);
      }
    }
  }

  /** After any run that cut nothing acknowledged, delivering any append, however late, fires an
      assert exactly when the append is empty, of the receiver's own term, matches the
      receiver's log at an index below its commit index, and is short of its log by two or
      more; the assert is the one at line 341. */
  lemma LateAppendFiresExactly(n: nat, events: seq<Event>, k: nat)
    requires NoAckCut(n, events)
    requires var c := Run(n, events); k < |c.sent| && c.sent[k].msg.Append? && c.sent[k].dst < n
    ensures var c := Run(n, events);
            var ae := c.sent[k].msg;
            var s := At(n, events, |events|, c.sent[k].dst);
            At(n, events + [Deliver(k)], |events| + 1, c.sent[k].dst).fired
            == if ae.term == s.term && PrevMatches(s, ae) && Truncates(s, ae) && ae.prevIdx < s.commitIdx
               then {341} else {}
  {
    hide Safe;
    hide Inv;
    hide HistoryOk;
    hide ServerOk;
    hide SafeServer;
    hide PacketOk;
    hide SafePacket;
    hide RecvAppend;
    var all := events + [Deliver(k)];
    assert all[..|all| - 1] == events && events[..|events|] == events && all[..|all|] == all;
    var c := Run(n, events);
    ServersStay(n, events);
    ServersStay(n, all);
    var h := RunIsSafe(n, events);
    SafeDelivery(n, c, h, k);
    SafeFacts(n, c, h, c.sent[k].dst);
    AppendSent(n, h, c.sent[k]);
    assert Run(n, all) == Next(c, Deliver(k));
    RecvAppendFires(n, h, c.sent, c.servers[c.sent[k].dst], c.sent[k]);
  }

  // ---- When an acknowledged entry is lost ----

  /** `q` acknowledged, in the term of append `p`, entries of `log` that are not all in `log'`. */
  predicate Betrays(q: Packet, p: Packet, log: seq<Entry>, log': seq<Entry>)
    requires p.msg.Append?
  {
    && q.src == p.dst && q.msg.AppendResponse? && q.msg.success && q.msg.term == p.msg.term
    && q.msg.currentIdx <= |log| && !(log[..q.msg.currentIdx] <= log')
  }

  predicate LosesAcked(sent: seq<Packet>, p: Packet, log: seq<Entry>, log': seq<Entry>)
    requires p.msg.Append?
  {
    exists r :: 0 <= r < |sent| && Betrays(sent[r], p, log, log')
  }

  /** What a harmless append leaves of what its receiver acknowledged in its term: everything. */
  lemma HarmlessKeeps(n: nat, h: History, sent: seq<Packet>, s: Server, p: Packet, a: nat)
    requires HistoryOk(n, h) && BallotsKeep(h) && AckedOk(n, h)
    requires ServerOk(n, h, sent, s) && ReignsOk(h, s) && Derived(h.reigns, s.log) && SafeServer(n, h, s)
    requires p.msg.Append? && PacketOk(n, h, p) && AppendOk(h, p) && SafePacket(n, h, p) && p.dst == s.me && s.me < n
    requires Harmless(h, s, p.msg) && a <= Acked(h, s.me, p.msg.term) && a <= |s.log|
    ensures s.log[..a] <= RecvAppend(s, p.src, p.msg).server.log
  {
    hide HistoryOk;
    hide BallotsKeep;
    hide ServerOk;
    hide Derived;
    hide PacketOk;
    hide AppendOk;
    hide SafePacket;
    hide CommitSound;
    hide KeepsAcked;
    hide AppendAtTerm;
    if s.term < p.msg.term {
      AppendReign(n, h, p);
      NoLaterAcks(n, h, s);
    } else if s.term == p.msg.term {
      AppendReign(n, h, p);
      var h' := SafeRecvAppend(n, h, sent, s, p);
      var s' := RecvAppend(s, p.src, p.msg).server;
      hide RecvAppend;
      SameTermAfter(s, p.src, p.msg);
      HasAcked(n, h, s);
      HasAcked(n, h', s');
      assert Acked(h, s.me, s.term) <= Acked(h', s.me, s.term);
      var l := h.reigns[s.term].log;
      assert s.log[..a] == l[..Acked(h, s.me, s.term)][..a] == l[..a];
      assert s'.log[..a] == l[..Acked(h', s.me, s.term)][..a] == l[..a];
    }
  }

  lemma SameTermAfter(s: Server, from: nat, ae: Message)
    requires ae.Append? && s.term == ae.term
    ensures RecvAppend(s, from, ae).server.term == s.term
  {
    hide AppendAtTerm;
    AppendShape(Settled(s, ae.term), from, ae);
  }

  /** What a harmful one leaves: nothing beyond its previous index. */
  lemma HarmCuts(s: Server, from: nat, ae: Message)
    requires ae.Append? && ae.term == s.term && PrevMatches(s, ae) && Truncates(s, ae)
    ensures RecvAppend(s, from, ae).server.log == s.log[..ae.prevIdx]
  {
  }

  /** After any run that cut nothing acknowledged, an append delivered at any time takes away
      entries that its receiver has acknowledged in that term if and only if it is empty, of
      the receiver's own term, matches its log, is short of it by two or more, and the
      receiver has acknowledged more than the append's previous index. */
  lemma LateAppendCutsExactly(n: nat, events: seq<Event>, k: nat)
    requires NoAckCut(n, events)
    requires var c := Run(n, events); k < |c.sent| && c.sent[k].msg.Append? && c.sent[k].dst < n
    ensures var c := Run(n, events);
            var v := c.sent[k].dst;
            LosesAcked(c.sent, c.sent[k], At(n, events, |events|, v).log,
                       At(n, events + [Deliver(k)], |events| + 1, v).log)
            <==> CutsAcked(c, Deliver(k))
  {
    hide Safe;
    hide Inv;
    hide HistoryOk;
    hide ServerOk;
    hide SafeServer;
    hide PacketOk;
    hide SafePacket;
    hide RecvAppend;
    hide LosesAcked;
    hide CutsAcked;
    var all := events + [Deliver(k)];
    assert all[..|all| - 1] == events && events[..|events|] == events && all[..|all|] == all;
    var c := Run(n, events);
    ServersStay(n, events);
    ServersStay(n, all);
    var h := RunIsSafe(n, events);
    SafeDelivery(n, c, h, k);
    SafeFacts(n, c, h, c.sent[k].dst);
    AppendSent(n, h, c.sent[k]);
    assert Run(n, all) == Next(c, Deliver(k));
    CutsExactlyAt(n, c, h, k);
  }

  lemma CutsExactlyAt(n: nat, c: Cluster, h: History, k: nat)
    requires Safe(n, c, h) && k < |c.sent| && c.sent[k].msg.Append? && Deliverable(c, k)
    ensures var p := c.sent[k]; var s := c.servers[p.dst];
            LosesAcked(c.sent, p, s.log, RecvAppend(s, p.src, p.msg).server.log) <==> CutsAcked(c, Deliver(k))
  {
    hide Safe;
    hide Inv;
    hide HistoryOk;
    hide ServerOk;
    hide SafeServer;
    hide PacketOk;
    hide RecvAppend;
    hide AppendOk;
    SafeDelivery(n, c, h, k);
    var p := c.sent[k];
    var s := c.servers[p.dst];
    SafeFacts(n, c, h, p.dst);
    AppendSent(n, h, p);
    SafeSent(n, c, h);
    UncutIsHarmless(n, c, h, k);
    var log' := RecvAppend(s, p.src, p.msg).server.log;
    if CutsAcked(c, Deliver(k)) {
      HarmCuts(s, p.src, p.msg);
      var r :| 0 <= r < |c.sent| && AcksBeyond(c.sent[r], p);
      AckedInLog(n, h, s, c.sent[r]);
      assert Betrays(c.sent[r], p, s.log, log');
    } else {
      forall r | 0 <= r < |c.sent| ensures !Betrays(c.sent[r], p, s.log, log') {
        if c.sent[r].src == p.dst && c.sent[r].msg.AppendResponse? && c.sent[r].msg.success
           && c.sent[r].msg.term == p.msg.term && c.sent[r].msg.currentIdx <= |s.log| {
          assert SafePacket(n, h, c.sent[r]);
          HarmlessKeeps(n, h, c.sent, s, p, c.sent[r].msg.currentIdx);
        }
      }
    }
  }

  lemma AckedInLog(n: nat, h: History, s: Server, q: Packet)
    requires AckedOk(n, h) && SafeServer(n, h, s) && SafePacket(n, h, q) && s.term in h.reigns
    requires q.src == s.me && q.msg.AppendResponse? && q.msg.success && q.msg.term == s.term
    ensures q.msg.currentIdx <= |s.log|
  {
    hide KeepsAcked;
    HasAcked(n, h, s);
  }

  // ---- A run that loses a committed entry ----

  const E1 := Entry(1, 1, 10)
  const E2 := Entry(1, 2, 20)
  const E3 := Entry(1, 3, 30)

  const REORDERED: seq<Event> :=
    [Tick(0, true), Deliver(0), Deliver(1),             // server 0 becomes leader of term 1
     ClientEntry(0, 1, 10), Deliver(3), Deliver(4),     // E1 is committed
     Tick(0, true),                                     // an empty append after E1, delayed
     ClientEntry(0, 2, 20), Deliver(6), Deliver(7),     // E2 is committed
     ClientEntry(0, 3, 30), Deliver(8),                 // E3 reaches server 1, with the commit of E2
     Deliver(5)]                                        // the delayed append arrives

  /** The leader, server 0, and the follower, server 1. */
  function LeaderWith(log: seq<Entry>, next: Index, match_: nat, commit: nat, applied: seq<Entry>): Server {
    Server(0, [Peer(1, 0, false), Peer(next, match_, true)], 1, 0, log, commit, |applied|, applied, Leader, 0, {})
  }

  function FollowerWith(log: seq<Entry>, commit: nat, leader: int): Server {
    Server(1, [Peer(1, 0, false), Peer(1, 0, false)], 1, 0, log, commit, 0, [], Follower, leader, {})
  }

  function ToFollower(prev: nat, prevTerm: nat, commit: nat, entries: seq<Entry>): Packet {
    Packet(0, 1, Append(1, prev, prevTerm, commit, entries))
  }

  function Accepted(idx: nat, first: nat): Packet {
    Packet(1, 0, AppendResponse(1, true, idx, first))
  }

  const SENT: seq<Packet> :=
    [Packet(0, 1, RequestVote(1, 0, 0, 0)), Packet(1, 0, VoteResponse(1, true)),
     ToFollower(0, 0, 0, []), ToFollower(0, 0, 0, [E1]), Accepted(1, 1),
     ToFollower(1, 1, 1, []), ToFollower(1, 1, 1, [E2]), Accepted(2, 2),
     ToFollower(2, 1, 2, [E3]), Accepted(3, 3)]

  function Pair(a: Server, b: Server, k: nat, seen: map<(nat, nat), nat>): Cluster
    requires k <= |SENT|
  {
    Cluster([a, b], SENT[..k], seen)
  }

  const CANDIDATE := Server(0, [Peer(1, 0, false), Peer(1, 0, false)], 1, 0, [], 0, 0, [], Candidate, NOBODY, {})

  lemma StandsForElection()
    ensures Periodic(NewServer(0, 2), true) == Outcome(CANDIDATE, [SENT[0]])
  {
    var o := BecomeCandidate(NewServer(0, 2));
    assert o.server.peers == CANDIDATE.peers;
    assert VoteRequestsFrom(CANDIDATE, 2) == [] && VoteRequestsFrom(CANDIDATE, 1) == [SENT[0]];
  }

  lemma GrantsVote()
    ensures RecvRequestVote(NewServer(1, 2), 0, SENT[0].msg) == Outcome(FollowerWith([], 0, NOBODY), [SENT[1]])
  {
    assert NewServer(1, 2).peers == FollowerWith([], 0, NOBODY).peers;
  }

  lemma WinsElection()
    ensures RecvVoteResponse(CANDIDATE, 1, SENT[1].msg) == Outcome(LeaderWith([], 1, 0, 0, []), [SENT[2]])
  {
    var won := CANDIDATE.(peers := [Peer(1, 0, false), Peer(1, 0, true)]);
    assert CANDIDATE.peers[1 := Peer(1, 0, true)] == won.peers;
    assert VotesFrom(won, 2) == 1 && VotesFrom(won, 1) == 2 && VotesFrom(won, 0) == 2;
    assert LeaderPeers(won) == won.peers;
    var s := LeaderWith([], 1, 0, 0, []);
    assert AppendsFrom(s, 2, true) == [] && AppendsFrom(s, 1, true) == [AppendFor(s, 1)] && AppendFor(s, 1) == SENT[2];
  }

  lemma ElectionOfServer0()
    ensures Next(Start(2), Tick(0, true)) == Pair(CANDIDATE, NewServer(1, 2), 1, map[])
    ensures Next(Pair(CANDIDATE, NewServer(1, 2), 1, map[]), Deliver(0))
         == Pair(CANDIDATE, FollowerWith([], 0, NOBODY), 2, map[])
    ensures Next(Pair(CANDIDATE, FollowerWith([], 0, NOBODY), 2, map[]), Deliver(1))
            == Pair(LeaderWith([], 1, 0, 0, []), FollowerWith([], 0, NOBODY), 3, map[])
  {
    hide Periodic;
    hide RecvRequestVote;
    hide RecvVoteResponse;
    StandsForElection();
    GrantsVote();
    WinsElection();
    assert Start(2).servers == [NewServer(0, 2), NewServer(1, 2)];
  }

  /** The leader takes an entry that is the next one for the follower. */
  lemma TakesEntry(log: seq<Entry>, id: nat, data: int, m: nat, commit: nat, applied: seq<Entry>)
    requires id != 0 && |log| == m
    ensures RecvEntry(LeaderWith(log, m + 1, m, commit, applied), id, data)
            == Outcome(LeaderWith(log + [Entry(1, id, data)], m + 1, m, commit, applied),
                       [ToFollower(m, if m == 0 then 0 else log[m - 1].term, commit, [Entry(1, id, data)])])
  {
    var s := LeaderWith(log + [Entry(1, id, data)], m + 1, m, commit, applied);
    assert s.log[m..] == [Entry(1, id, data)];
    assert AppendsFrom(s, 2, false) == [] && AppendsFrom(s, 1, false) == [AppendFor(s, 1)];
  }

  /** The follower accepts the next entry. */
  lemma TakesAppend(log: seq<Entry>, e: Entry, commit: nat, leader: int, announced: nat)
    requires commit <= announced <= |log| && e.id != 0 && (0 < |log| ==> log[|log| - 1].term == 1)
    ensures RecvAppend(FollowerWith(log, commit, leader), 0,
      ToFollower(|log|, if |log| == 0 then 0 else 1, announced, [e]).msg)
            == Outcome(FollowerWith(log + [e], announced, 0), [Accepted(|log| + 1, |log| + 1)])
  {
    var s := FollowerWith(log, commit, leader);
    assert MatchingEntries(s.log, |log|, [e]) == 0;
    assert [e][0..] == [e] && AcceptableEntries([e]) == [e] + AcceptableEntries([]);
    assert MergeEntries(s, |log|, [e]).log == log + [e];
  }

  /** The leader learns of it, and commits. */
  lemma TakesResponse(log: seq<Entry>, m: nat, commit: nat, applied: seq<Entry>)
    requires |log| == m + 1 && log[m].term == 1 && commit <= m
    ensures RecvAppendResponse(LeaderWith(log, m + 1, m, commit, applied), 1, Accepted(m + 1, m + 1).msg)
            == Outcome(LeaderWith(log, m + 2, m + 1, m + 1, applied), [])
  {
    var s := LeaderWith(log, m + 2, m + 1, commit, applied);
    assert LeaderWith(log, m + 1, m, commit, applied).peers[1 := Peer(m + 2, m + 1, true)] == s.peers;
    assert CountsFor(s, m + 1, 1) && AcksFrom(s, m + 1, 2) == 0 && AcksFrom(s, m + 1, 1) == 1
      && AcksFrom(s, m + 1, 0) == 1;
  }

  /** The leader's heartbeat right after E1 was committed. */
  lemma SendsHeartbeat()
    ensures Periodic(LeaderWith([E1], 2, 1, 1, []), true) == Outcome(LeaderWith([E1], 2, 1, 1, [E1]), [SENT[5]])
  {
    var s := LeaderWith([E1], 2, 1, 1, []);
    assert AppendsFrom(s, 2, true) == [] && AppendsFrom(s, 1, true) == [AppendFor(s, 1)];
  }

  lemma FirstEntry()
    ensures var f0, f1 := FollowerWith([], 0, NOBODY), FollowerWith([E1], 0, 0);
            var c3 := Pair(LeaderWith([], 1, 0, 0, []), f0, 3, map[]);
            var c4 := Pair(LeaderWith([E1], 1, 0, 0, []), f0, 4, map[]);
            var c5 := Pair(LeaderWith([E1], 1, 0, 0, []), f1, 5, map[(0, 1) := 3]);
            var c6 := Pair(LeaderWith([E1], 2, 1, 1, []), f1, 5, map[(0, 1) := 3]);
            && Next(c3, ClientEntry(0, 1, 10)) == c4 && Next(c4, Deliver(3)) == c5 && Next(c5, Deliver(4)) == c6
  {
    hide RecvEntry;
    hide RecvAppend;
    hide RecvAppendResponse;
    TakesEntry([], 1, 10, 0, 0, []);
    assert [] + [E1] == [E1];
    TakesAppend([], E1, 0, NOBODY, 0);
    TakesResponse([E1], 0, 0, []);
  }

  lemma FirstHeartbeat()
    ensures var f1 := FollowerWith([E1], 0, 0);
            var c6 := Pair(LeaderWith([E1], 2, 1, 1, []), f1, 5, map[(0, 1) := 3]);
            Next(c6, Tick(0, true)) == Pair(LeaderWith([E1], 2, 1, 1, [E1]), f1, 6, map[(0, 1) := 3])
  {
    hide Periodic;
    SendsHeartbeat();
  }

  lemma SecondEntry()
    ensures var f1, f2 := FollowerWith([E1], 0, 0), FollowerWith([E1, E2], 1, 0);
            var c7 := Pair(LeaderWith([E1], 2, 1, 1, [E1]), f1, 6, map[(0, 1) := 3]);
            var c8 := Pair(LeaderWith([E1, E2], 2, 1, 1, [E1]), f1, 7, map[(0, 1) := 3]);
            var c9 := Pair(LeaderWith([E1, E2], 2, 1, 1, [E1]), f2, 8, map[(0, 1) := 6]);
            && Next(c7, ClientEntry(0, 2, 20)) == c8 && Next(c8, Deliver(6)) == c9
            && Next(c9, Deliver(7)) == Pair(LeaderWith([E1, E2], 3, 2, 2, [E1]), f2, 8, map[(0, 1) := 6])
  {
    hide RecvEntry;
    hide RecvAppend;
    hide RecvAppendResponse;
    TakesEntry([E1], 2, 20, 1, 1, [E1]);
    assert [E1] + [E2] == [E1, E2];
    TakesAppend([E1], E2, 0, 0, 1);
    TakesResponse([E1, E2], 1, 1, [E1]);
  }

  lemma ThirdEntry()
    ensures var f2, f3 := FollowerWith([E1, E2], 1, 0), FollowerWith([E1, E2, E3], 2, 0);
            var c10 := Pair(LeaderWith([E1, E2], 3, 2, 2, [E1]), f2, 8, map[(0, 1) := 6]);
            var c11 := Pair(LeaderWith([E1, E2, E3], 3, 2, 2, [E1]), f2, 9, map[(0, 1) := 6]);
            && Next(c10, ClientEntry(0, 3, 30)) == c11
            && Next(c11, Deliver(8)) == Pair(LeaderWith([E1, E2, E3], 3, 2, 2, [E1]), f3, 10, map[(0, 1) := 8])
  {
    hide RecvEntry;
    hide RecvAppend;
    TakesEntry([E1, E2], 3, 30, 2, 2, [E1]);
    assert [E1, E2] + [E3] == [E1, E2, E3];
    TakesAppend([E1, E2], E3, 1, 0, 2);
  }

  lemma TakesLateHeartbeat()
    ensures RecvAppend(FollowerWith([E1, E2, E3], 2, 0), 0, SENT[5].msg).server
         == FollowerWith([E1], 2, 0).(fired := {341})
  {
    assert [E1, E2, E3][..1] == [E1];
  }

  lemma LateHeartbeat()
    ensures var leader := LeaderWith([E1, E2, E3], 3, 2, 2, [E1]);
            var c := Pair(leader, FollowerWith([E1, E2, E3], 2, 0), 10, map[(0, 1) := 8]);
            Next(c, Deliver(5)).servers == [leader, FollowerWith([E1], 2, 0).(fired := {341})]
  {
    hide RecvAppend;
    TakesLateHeartbeat();
  }

  /** The cluster after `k` events of the run, up to the delayed append. */
  function Stage(k: nat): Cluster {
    var f0, f1, f2, f3 := FollowerWith([], 0, NOBODY), FollowerWith([E1], 0, 0), FollowerWith([E1, E2], 1, 0),
                          FollowerWith([E1, E2, E3], 2, 0);
    if k == 0 then Start(2)
    else if k == 1 then Pair(CANDIDATE, NewServer(1, 2), 1, map[])
    else if k == 2 then Pair(CANDIDATE, f0, 2, map[])
    else if k == 3 then Pair(LeaderWith([], 1, 0, 0, []), f0, 3, map[])
    else if k == 4 then Pair(LeaderWith([E1], 1, 0, 0, []), f0, 4, map[])
    else if k == 5 then Pair(LeaderWith([E1], 1, 0, 0, []), f1, 5, map[(0, 1) := 3])
    else if k == 6 then Pair(LeaderWith([E1], 2, 1, 1, []), f1, 5, map[(0, 1) := 3])
    else if k == 7 then Pair(LeaderWith([E1], 2, 1, 1, [E1]), f1, 6, map[(0, 1) := 3])
    else if k == 8 then Pair(LeaderWith([E1, E2], 2, 1, 1, [E1]), f1, 7, map[(0, 1) := 3])
    else if k == 9 then Pair(LeaderWith([E1, E2], 2, 1, 1, [E1]), f2, 8, map[(0, 1) := 6])
    else if k == 10 then Pair(LeaderWith([E1, E2], 3, 2, 2, [E1]), f2, 8, map[(0, 1) := 6])
    else if k == 11 then Pair(LeaderWith([E1, E2, E3], 3, 2, 2, [E1]), f2, 9, map[(0, 1) := 6])
    else Pair(LeaderWith([E1, E2, E3], 3, 2, 2, [E1]), f3, 10, map[(0, 1) := 8])
  }

  lemma StageStep(k: nat)
    requires k < 12
    ensures Next(Stage(k), REORDERED[k]) == Stage(k + 1)
  {
    hide Next;
    ElectionOfServer0();
    FirstEntry();
    FirstHeartbeat();
    SecondEntry();
    ThirdEntry();
  }

  lemma StageInOrder(k: nat)
    requires k < 12
    ensures KeepsOrder(Stage(k), REORDERED[k])
  {
  }

  lemma {:induction false} RunReachesStage(k: nat)
    requires k <= 12
    ensures Run(2, REORDERED[..k]) == Stage(k) && AppendsInOrder(2, REORDERED[..k])
  {
    hide Next;
    hide Stage;
    hide KeepsOrder;
    if k == 0 {
      StageZero();
    } else {
      RunReachesStage(k - 1);
      StageStep(k - 1);
      StageInOrder(k - 1);
      assert REORDERED[..k][..k - 1] == REORDERED[..k - 1];
    }
  }

  lemma StageZero()
    ensures Stage(0) == Start(2)
  {
  }

  /** One append delivered out of order removes the committed entry E2 from server 1. */
  lemma ReorderingLosesCommittedEntry()
    ensures var c := Run(2, REORDERED);
            && |c.servers| == 2
            && c.servers[0].log == [E1, E2, E3] && c.servers[0].commitIdx == 2
            && c.servers[1].log == [E1] && c.servers[1].commitIdx == 2 && c.servers[1].fired == {341}
    ensures AppendsInOrder(2, REORDERED[..|REORDERED| - 1])
  {
    hide Next;
    RunReachesStage(12);
    LateHeartbeat();
    assert REORDERED[..|REORDERED| - 1] == REORDERED[..12];
    assert Run(2, REORDERED) == Next(Stage(12), Deliver(5));
  }
}
