/** A majority that can talk serves a client: from an election to the entry applied everywhere in it. */
module RaftService {
  import opened RaftProtocol
  import opened RaftCluster
  import opened RaftHistory
  import opened RaftMerge
  import opened RaftInduction
  import opened RaftSafety
  import opened RaftTheorems
  import opened RaftBackoff
  import opened RaftProgress
  import opened RaftElection

  // ---- A follower with the leader's newest entry has exactly its log ----

  lemma ExactCopy(n: nat, h: History, sent: seq<Packet>, s: Server, f: Server)
    requires HistoryOk(n, h) && ServerOk(n, h, sent, s) && ServerOk(n, h, sent, f)
    requires s.role.Leader? && s.log != [] && s.log[|s.log| - 1].term == s.term
    requires f.term == s.term && s.log <= f.log
    ensures f.log == s.log
  {
    hide HistoryOk, ServerOk;
    var m := |s.log|;
    LeaderReignLog(n, h, sent, s);
    if m < |f.log| {
      RootOf(n, h, sent, f, m);
      var w := f.log[m].term;
      var l := h.reigns[w].log;
      assert l[..m + 1][m - 1] == f.log[..m + 1][m - 1];
      NoLaterTerm(n, h, w, m - 1);
    }
  }

  lemma LeaderReignLog(n: nat, h: History, sent: seq<Packet>, s: Server)
    requires ServerOk(n, h, sent, s) && s.role.Leader?
    ensures s.term in h.reigns && h.reigns[s.term].log == s.log
  {
  }

  lemma RootOf(n: nat, h: History, sent: seq<Packet>, f: Server, m: nat)
    requires ServerOk(n, h, sent, f) && m < |f.log|
    ensures var w := f.log[m].term;
            w in h.reigns && w <= f.term && m < |h.reigns[w].log| && f.log[..m + 1] == h.reigns[w].log[..m + 1]
  {
    assert Rooted(h.reigns, f.log, m);
  }

  lemma NoLaterTerm(n: nat, h: History, w: nat, k: nat)
    requires HistoryOk(n, h) && w in h.reigns && k < |h.reigns[w].log|
    ensures h.reigns[w].log[k].term <= w
  {
    assert ReignOk(n, h, w);
  }

  /** The append that would be sent now carries the newest entry. */
  lemma CarriesNewest(n: nat, s: Server, j: nat)
    requires j < |s.peers| && s.log != [] && s.peers[j].nextIdx <= |s.log|
    ensures var ae := AppendFor(s, j).msg;
            ae.Append? && ae.entries != [] && ae.prevIdx + |ae.entries| == |s.log|
  {
  }

  lemma FullCutsNothing(c: Cluster, k: nat)
    requires k < |c.sent| && c.sent[k].msg.Append? && c.sent[k].msg.entries != []
    ensures !CutsAcked(c, Deliver(k))
  {
  }

  /** The leader's newest entry is its own, and peer j lacks it. */
  predicate Newest(s: Server, j: nat) {
    j < |s.peers| && s.log != [] && s.log[|s.log| - 1].term == s.term && s.peers[j].nextIdx <= |s.log|
  }

  lemma PeerAnswersFully(n: nat, events: seq<Event>, i: nat, j: nat, k: nat)
    requires Awaiting(n, Run(n, events), i, j, k) && Newest(Run(n, events).servers[i], j)
    ensures var c := Run(n, events);
            var c' := Next(c, Deliver(k));
            && !CutsAcked(c, Deliver(k))
            && |c'.servers| == n && c'.servers == c.servers[j := c'.servers[j]]
            && LeadsPeer(n, c'.servers[i], c'.servers[j], i, j)
            && |c'.sent| == |c.sent| + 1 && IsResponse(c'.servers[j], i, [c'.sent[|c.sent|]])
            && c'.servers[j].term == c.servers[i].term
            && (c'.sent[|c.sent|].msg.success ==>
                  c'.servers[j].log == c.servers[i].log && c'.sent[|c.sent|].msg.currentIdx == |c.servers[i].log|)
            && (c.servers[i].peers[j].nextIdx == 1 ==> c'.sent[|c.sent|].msg.success)
  {
    var c := Run(n, events);
    var s := c.servers[i];
    hide Run, RecvAppend, AppendFor, HistoryOk, ServerOk, PacketOk, AppendAtTerm;
    PeerAnswers(n, events, i, j, k);
    CarriesNewest(n, s, j);
    AppendForShape(s, j);
    FullCutsNothing(c, k);
    var o := RecvAppend(c.servers[j], i, c.sent[k].msg);
    AppendDelivered(c, k, o);
    var c' := Next(c, Deliver(k));
    hide Next;
    assert c'.sent[|c.sent|] == o.out[0];
    AnswersUpTo(c.servers[j], i, c.sent[k].msg);
    RunOneMore(n, events, Deliver(k));
    if o.out[0].msg.success { ExactCopyAt(n, events + [Deliver(k)], i, j); }
  }

  lemma ExactCopyAt(n: nat, events: seq<Event>, i: nat, j: nat)
    requires i < n && j < n && |Run(n, events).servers| == n
    requires var s, f := Run(n, events).servers[i], Run(n, events).servers[j];
             && s.role.Leader? && s.log != [] && s.log[|s.log| - 1].term == s.term && f.term == s.term && s.log <= f.log
    ensures Run(n, events).servers[j].log == Run(n, events).servers[i].log
  {
    hide Run, ServerOk, HistoryOk, PacketOk;
    var h := RunHasHistory(n, events);
    var c := Run(n, events);
    assert ServerOk(n, h, c.sent, c.servers[i]) && ServerOk(n, h, c.sent, c.servers[j]);
    ExactCopy(n, h, c.sent, c.servers[i], c.servers[j]);
  }

  lemma AnswersUpTo(f: Server, from: nat, ae: Message)
    requires ae.Append?
    ensures var o := RecvAppend(f, from, ae);
            |o.out| == 1 && o.out[0].msg.AppendResponse?
            && (o.out[0].msg.success ==> o.out[0].msg.currentIdx == ae.prevIdx + |ae.entries|)
  {
    hide AppendAtTerm;
    var s1 := if f.role.Candidate? && f.term == ae.term then BecomeFollower(f.(votedFor := NOBODY))
              else if f.term < ae.term then BecomeFollower(SetTerm(f, ae.term)) else f;
    AppendShape(s1, from, ae);
  }

  // ---- Replicating to one peer ----

  /** From c to c' only the leader's next index for peer j and peer j itself changed; j has the leader's
      log and its success is the last packet sent. */
  predicate Replicated(n: nat, c: Cluster, c': Cluster, i: nat, j: nat) {
    && i < n && j < n && i != j && |c.servers| == n == |c'.servers| && 0 < |c'.sent|
    && LeadsPeer(n, c'.servers[i], c'.servers[j], i, j) && |c.servers[i].peers| == n
    && c'.servers == c.servers[i := c'.servers[i]][j := c'.servers[j]]
    && c'.servers[i] == c.servers[i].(peers := c.servers[i].peers[j := c'.servers[i].peers[j]])
    && c'.servers[j].log == c.servers[i].log && c'.servers[j].term == c.servers[i].term
    && var p := c'.sent[|c'.sent| - 1];
       IsResponse(c'.servers[j], i, [p]) && p.msg.success && p.msg.currentIdx == |c.servers[i].log|
  }

  lemma {:induction false} Replicates(n: nat, events: seq<Event>, i: nat, j: nat, k: nat) returns (more: seq<Event>)
    requires Awaiting(n, Run(n, events), i, j, k) && Newest(Run(n, events).servers[i], j)
    ensures Replicated(n, Run(n, events), Run(n, events + more), i, j)
    ensures NoAckCut(n, events) ==> NoAckCut(n, events + more)
    decreases Run(n, events).servers[i].peers[j].nextIdx
  {
    hide Next, Run, AppendFor, CutsAcked, NoAckCut;
    var c := Run(n, events);
    PeerAnswersFully(n, events, i, j, k);
    RunOneMore(n, events, Deliver(k));
    UncutOneMore(n, events, Deliver(k));
    var asked := events + [Deliver(k)];
    var c1 := Run(n, asked);
    if c1.sent[|c.sent|].msg.success {
      more := [Deliver(k)];
      assert c.servers[i].peers[j := c1.servers[i].peers[j]] == c.servers[i].peers;
    } else {
      RetryChanges(n, c1, i, j, |c.sent|);
      RunOneMore(n, asked, Deliver(|c.sent|));
      BallotCutsNothing(c1, |c.sent|);
      UncutOneMore(n, asked, Deliver(|c.sent|));
      var retried := asked + [Deliver(|c.sent|)];
      var rest := Replicates(n, retried, i, j, |c1.sent|);
      more := [Deliver(k), Deliver(|c.sent|)] + rest;
      assert retried + rest == events + more;
      StillReplicated(n, c, c1, Run(n, retried), Run(n, events + more), i, j);
    }
  }

  lemma StillReplicated(n: nat, c: Cluster, c1: Cluster, c2: Cluster, c': Cluster, i: nat, j: nat)
    requires Replicated(n, c2, c', i, j) && |c.servers| == n == |c1.servers|
    requires c1.servers == c.servers[j := c1.servers[j]] && c2.servers == c1.servers[i := c2.servers[i]]
    requires |c.servers[i].peers| == n
    requires c2.servers[i] == c.servers[i].(peers := c.servers[i].peers[j := c2.servers[i].peers[j]])
    ensures Replicated(n, c, c', i, j)
  {
    hide LeadsPeer, IsResponse;
    assert c.servers[i].peers[j := c2.servers[i].peers[j]][j := c'.servers[i].peers[j]]
        == c.servers[i].peers[j := c'.servers[i].peers[j]];
    assert c'.servers == c.servers[i := c'.servers[i]][j := c'.servers[j]];
  }

  lemma RetryChanges(n: nat, c: Cluster, i: nat, j: nat, k: nat)
    requires i < n && j < n && i != j && |c.servers| == n && LeadsPeer(n, c.servers[i], c.servers[j], i, j)
    requires k < |c.sent| && IsResponse(c.servers[j], i, [c.sent[k]]) && !c.sent[k].msg.success
    requires c.servers[j].term == c.servers[i].term && c.servers[i].peers[j].nextIdx != 1
    ensures var c' := Next(c, Deliver(k));
            && Awaiting(n, c', i, j, |c.sent|) && c'.servers == c.servers[i := c'.servers[i]]
            && c'.servers[i] == c.servers[i].(peers := c.servers[i].peers[j := c'.servers[i].peers[j]])
            && c'.servers[i].peers[j].nextIdx < c.servers[i].peers[j].nextIdx
  {
    hide AppendFor;
    LeaderRetries(n, c, i, j, k);
    RejectionMovesBack(c.servers[i], j, c.sent[k].msg);
  }

  // ---- The acknowledgement ----

  /** The leader notes the acknowledgement of its whole log, and commits it once a majority has it. */
  lemma NotesWhole(n: nat, c: Cluster, c0: Cluster, i: nat, j: nat)
    requires Replicated(n, c0, c, i, j) && Newest(c0.servers[i], j)
    ensures var k := |c.sent| - 1;
            var c' := Next(c, Deliver(k));
            var s, s' := c.servers[i], c'.servers[i];
            && !CutsAcked(c, Deliver(k))
            && |c'.servers| == n && c'.servers == c.servers[i := s']
            && s'.peers == s.peers[j := s.peers[j].(matchIdx := |s.log|, nextIdx := |s.log| + 1)]
            && s' == s.(peers := s'.peers, commitIdx := s'.commitIdx, fired := s'.fired)
            && s'.commitIdx == if s.commitIdx < |s.log| && n / 2 < 1 + |Reached(s', |s.log|)| then |s.log|
                               else s.commitIdx
  {
    hide Reached, RecvAppendResponse;
    var k := |c.sent| - 1;
    CommitsExactly(c.servers[i], j, c.sent[k].msg);
    var o := RecvAppendResponse(c.servers[i], j, c.sent[k].msg);
    assert Next(c, Deliver(k)).servers == c.servers[i := o.server];
  }

  // ---- Replicating to all ----

  /** Server j has the leader's log, and the leader knows. */
  predicate Has(n: nat, s: Server, f: Server, j: nat) {
    && f.me == j && j < n && |f.peers| == n && |s.peers| == n && f.log == s.log && f.term == s.term
    && s.peers[j].matchIdx == |s.log| && s.peers[j].nextIdx == |s.log| + 1
  }

  /** Server i leads with a newest entry of its own; `having` have its log, `lacking` will get it. */
  predicate Spreading(n: nat, c: Cluster, i: nat, having: set<nat>, lacking: set<nat>) {
    && |c.servers| == n && i < n
    && (forall j :: j in having ==> j < n && j != i && Has(n, c.servers[i], c.servers[j], j))
    && (forall j :: j in lacking ==>
          j < n && j != i && LeadsPeer(n, c.servers[i], c.servers[j], i, j) && Newest(c.servers[i], j))
  }

  /** What the leader keeps while it spreads its log. */
  predicate SameReign(s: Server, s': Server) {
    s'.role == s.role && s'.term == s.term && s'.log == s.log && s'.me == s.me && s'.leader == s.leader
  }

  lemma SpreadOne(n: nat, events: seq<Event>, i: nat, having: set<nat>, lacking: set<nat>, j: nat)
      returns (more: seq<Event>)
    requires Spreading(n, Run(n, events), i, having, lacking) && j in lacking && having !! lacking
    ensures Spreading(n, Run(n, events + more), i, having + {j}, lacking - {j})
    ensures SameReign(Run(n, events).servers[i], Run(n, events + more).servers[i])
    ensures NoAckCut(n, events) ==> NoAckCut(n, events + more)
    ensures var s, s' := Run(n, events).servers[i], Run(n, events + more).servers[i];
            s'.commitIdx == if s.commitIdx < |s.log| && n / 2 < 1 + |Reached(s', |s.log|)| then |s.log| else s.commitIdx
  {
    hide Next, Run, NoAckCut, CutsAcked, Awaiting, AppendFor, Reached;
    var c := Run(n, events);
    var k := HeartbeatSends(n, c, i, j);
    RunOneMore(n, events, Tick(i, true));
    TickCutsNothing(c, i, true);
    UncutOneMore(n, events, Tick(i, true));
    var ticked := events + [Tick(i, true)];
    var c1 := Run(n, ticked);
    LeaderTick(c, i);
    var rest := Replicates(n, ticked, i, j, k);
    var c2 := Run(n, ticked + rest);
    NotesWhole(n, c2, c1, i, j);
    RunOneMore(n, ticked + rest, Deliver(|c2.sent| - 1));
    UncutOneMore(n, ticked + rest, Deliver(|c2.sent| - 1));
    more := [Tick(i, true)] + rest + [Deliver(|c2.sent| - 1)];
    assert ticked + rest + [Deliver(|c2.sent| - 1)] == events + more;
    Spread(n, c, c1, c2, Run(n, events + more), i, having, lacking, j);
  }

  lemma LeaderTick(c: Cluster, i: nat)
    requires i < |c.servers| && c.servers[i].role.Leader?
    ensures var c' := Next(c, Tick(i, true));
            var s, s' := c.servers[i], c'.servers[i];
            && c'.servers == c.servers[i := s']
            && s' == s.(appliedIdx := s'.appliedIdx, applied := s'.applied)
  {
    hide AppendsFrom;
  }

  lemma Spread(n: nat, c: Cluster, c1: Cluster, c2: Cluster, c3: Cluster, i: nat, having: set<nat>, lacking: set<nat>,
               j: nat)
    requires Spreading(n, c, i, having, lacking) && j in lacking && having !! lacking
    requires |c1.servers| == n && c1.servers == c.servers[i := c1.servers[i]]
    requires c1.servers[i] == c.servers[i].(appliedIdx := c1.servers[i].appliedIdx, applied := c1.servers[i].applied)
    requires Replicated(n, c1, c2, i, j)
    requires |c3.servers| == n && c3.servers == c2.servers[i := c3.servers[i]]
    requires var s, s' := c2.servers[i], c3.servers[i];
             && s'.peers == s.peers[j := s.peers[j].(matchIdx := |s.log|, nextIdx := |s.log| + 1)]
             && s' == s.(peers := s'.peers, commitIdx := s'.commitIdx, fired := s'.fired)
    ensures Spreading(n, c3, i, having + {j}, lacking - {j}) && SameReign(c.servers[i], c3.servers[i])
  {
    forall x | x in having + {j} ensures x < n && x != i && Has(n, c3.servers[i], c3.servers[x], x) {
      if x != j { assert c3.servers[x] == c.servers[x]; }
    }
    forall x | x in lacking - {j}
      ensures x < n && x != i && LeadsPeer(n, c3.servers[i], c3.servers[x], i, x) && Newest(c3.servers[i], x)
    {
      assert c3.servers[x] == c.servers[x];
    }
  }

  /** Once a majority has the leader's log, the leader has committed it. */
  lemma {:induction false} SpreadAll(n: nat, events: seq<Event>, i: nat, having: set<nat>, lacking: set<nat>)
      returns (more: seq<Event>)
    requires Spreading(n, Run(n, events), i, having, lacking) && lacking != {} && having !! lacking
    requires n / 2 < 1 + |having + lacking|
    ensures Spreading(n, Run(n, events + more), i, having + lacking, {})
    ensures SameReign(Run(n, events).servers[i], Run(n, events + more).servers[i])
    ensures NoAckCut(n, events) ==> NoAckCut(n, events + more)
    ensures var s' := Run(n, events + more).servers[i]; |s'.log| <= s'.commitIdx
    decreases |lacking|
  {
    hide Run, NoAckCut, Spreading, Reached;
    var j :| j in lacking;
    LeaderHasNewest(n, Run(n, events), i, having, lacking, j);
    more := SpreadOne(n, events, i, having, lacking, j);
    assert having + {j} + (lacking - {j}) == having + lacking;
    if lacking == {j} {
      assert lacking - {j} == {} && having + {j} == having + lacking;
      AllReached(n, Run(n, events + more), i, having + {j});
    } else {
      var x :| x in lacking && x != j;
      assert x in lacking - {j};
      var rest := SpreadAll(n, events + more, i, having + {j}, lacking - {j});
      assert events + more + rest == events + (more + rest);
      more := more + rest;
    }
  }

  lemma LeaderHasNewest(n: nat, c: Cluster, i: nat, having: set<nat>, lacking: set<nat>, j: nat)
    requires Spreading(n, c, i, having, lacking) && j in lacking
    ensures |c.servers| == n && i < n && c.servers[i].me == i && |c.servers[i].peers| == n && c.servers[i].role.Leader?
    ensures c.servers[i].log != [] && c.servers[i].log[|c.servers[i].log| - 1].term == c.servers[i].term
  {
  }

  lemma AllReached(n: nat, c: Cluster, i: nat, having: set<nat>)
    requires Spreading(n, c, i, having, {}) && having != {}
    requires c.servers[i].me == i && c.servers[i].log != []
             && c.servers[i].log[|c.servers[i].log| - 1].term == c.servers[i].term
    ensures |having| <= |Reached(c.servers[i], |c.servers[i].log|)|
  {
    var s := c.servers[i];
    var x :| x in having;
    assert having <= Reached(s, |s.log|);
    SubsetSize(having, Reached(s, |s.log|));
  }

  // ---- The followers learn what is committed, and apply it ----

  predicate Served(f: Server, log: seq<Entry>, leader: int) { f.log == log && f.applied == log && f.leader == leader }

  /** Server i leads and has committed its log; `having` have it too, `done` have applied it. */
  predicate Agreed(n: nat, c: Cluster, i: nat, having: set<nat>, done: set<nat>) {
    && |c.servers| == n && i < n && c.servers[i].me == i && |c.servers[i].peers| == n
    && c.servers[i].role.Leader? && c.servers[i].commitIdx == |c.servers[i].log| > 0
    && c.servers[i].log[|c.servers[i].log| - 1].term == c.servers[i].term
    && (forall j :: j in having ==> j < n && j != i && Has(n, c.servers[i], c.servers[j], j))
    && (forall j :: j in done ==> j < n && j != i && Served(c.servers[j], c.servers[i].log, i))
  }

  /** An up-to-date follower that gets a heartbeat commits what the leader announces. */
  lemma HeartbeatCommits(n: nat, s: Server, f: Server, j: nat)
    requires j < |s.peers| && Has(n, s, f, j) && s.log != [] && s.commitIdx == |s.log| && f.commitIdx <= |s.log|
    requires s.log[|s.log| - 1].term == s.term && j != s.me
    ensures var p := AppendFor(s, j);
            var f' := RecvAppend(f, s.me, p.msg).server;
            && p.msg.Append? && p.msg.entries == [] && p.msg.prevIdx + 1 == |f.log| + 1
            && f'.log == f.log && f'.commitIdx == |f.log| && f'.term == f.term && f'.me == f.me && f'.peers == f.peers
            && f'.appliedIdx == f.appliedIdx && f'.applied == f.applied && f'.leader == s.me
  {
  }

  lemma LearnsAndApplies(n: nat, events: seq<Event>, i: nat, having: set<nat>, done: set<nat>, j: nat)
      returns (more: seq<Event>)
    requires Agreed(n, Run(n, events), i, having, done) && j in having && NoAckCut(n, events)
    ensures Agreed(n, Run(n, events + more), i, having - {j}, done + {j}) && NoAckCut(n, events + more)
    ensures SameReign(Run(n, events).servers[i], Run(n, events + more).servers[i])
  {
    hide Next, Run, NoAckCut, CutsAcked, AppendFor, AppendsFrom, RecvAppend;
    var c := Run(n, events);
    var k := HeartbeatOut(c, i, j);
    LeaderTick(c, i);
    RunOneMore(n, events, Tick(i, true));
    TickCutsNothing(c, i, true);
    UncutOneMore(n, events, Tick(i, true));
    var ticked := events + [Tick(i, true)];
    var c1 := Run(n, ticked);
    FollowerBounds(n, ticked, j);
    HeartbeatCommits(n, c1.servers[i], c1.servers[j], j);
    AppendForShape(c1.servers[i], j);
    var o := RecvAppend(c1.servers[j], i, c1.sent[k].msg);
    AppendDelivered(c1, k, o);
    RunOneMore(n, ticked, Deliver(k));
    NothingToCut(c1, k);
    UncutOneMore(n, ticked, Deliver(k));
    var told := ticked + [Deliver(k)];
    var c2 := Run(n, told);
    ServersStay(n, told);
    var f := c2.servers[j];
    TicksApplyAll(n, told, j);
    assert told[..|told|] == told && f.log[..f.commitIdx] == f.log;
    var ticks := Ticks(j, f.commitIdx - f.appliedIdx);
    TicksCutNothing(n, told, j, f.commitIdx - f.appliedIdx);
    more := [Tick(i, true), Deliver(k)] + ticks;
    assert told + ticks == events + more;
    var c3 := Run(n, events + more);
    assert c3.servers == c2.servers[j := f.(appliedIdx := f.commitIdx, applied := f.log)];
    forall x | x in having - {j} ensures x < n && x != i && Has(n, c3.servers[i], c3.servers[x], x) {
      assert c3.servers[x] == c.servers[x];
    }
    forall x | x in done + {j} ensures x < n && x != i && Served(c3.servers[x], c3.servers[i].log, i) {
      assert x != j ==> c3.servers[x] == c.servers[x];
    }
  }

  lemma HeartbeatOut(c: Cluster, i: nat, j: nat) returns (k: nat)
    requires i < |c.servers| && c.servers[i].role.Leader? && c.servers[i].me == i && j < |c.servers[i].peers| && j != i
    ensures var c' := Next(c, Tick(i, true));
            && |c'.servers| == |c.servers| && j < |c'.servers[i].peers|
            && k < |c'.sent| && c'.sent[k] == AppendFor(c'.servers[i], j)
  {
    hide AppendFor, AppendsFrom;
    var s := c.servers[i];
    var p := AppendAmong(s, 0, j);
    k := |c.sent| + p;
    var o := Periodic(s, true);
    SameAppend(s, o.server, j);
    assert Next(c, Tick(i, true)).sent == c.sent + o.out;
  }

  lemma NothingToCut(c: Cluster, k: nat)
    requires k < |c.sent| && c.sent[k].msg.Append? && c.sent[k].dst < |c.servers|
    requires |c.servers[c.sent[k].dst].log| <= c.sent[k].msg.prevIdx + 1
    ensures !CutsAcked(c, Deliver(k))
  {
  }

  lemma FollowerBounds(n: nat, events: seq<Event>, j: nat)
    requires j < n && NoAckCut(n, events)
    ensures |Run(n, events).servers| == n
    ensures var f := Run(n, events).servers[j];
            f.commitIdx <= |f.log| && f.me == j && |f.peers| == n
  {
    ServersStay(n, events);
    NoAssertFires(n, events, j);
    MembersKnow(n, events, j, j);
    assert events[..|events|] == events;
  }

  lemma {:induction false} TicksCutNothing(n: nat, events: seq<Event>, j: nat, k: nat)
    requires NoAckCut(n, events)
    ensures NoAckCut(n, events + Ticks(j, k))
  {
    hide NoAckCut, Ticks, Run, CutsAcked;
    TicksMany(j, k);
    if k == 0 {
      assert events + Ticks(j, 0) == events;
    } else {
      TicksMany(j, k - 1);
      TicksCutNothing(n, events, j, k - 1);
      UncutOneMore(n, events + Ticks(j, k - 1), Tick(j, false));
      TickCutsNothing(Run(n, events + Ticks(j, k - 1)), j, false);
      assert events + Ticks(j, k) == events + Ticks(j, k - 1) + [Tick(j, false)];
    }
  }

  lemma {:induction false} AllApply(n: nat, events: seq<Event>, i: nat, having: set<nat>, done: set<nat>)
      returns (more: seq<Event>)
    requires Agreed(n, Run(n, events), i, having, done) && NoAckCut(n, events)
    ensures Agreed(n, Run(n, events + more), i, {}, having + done) && NoAckCut(n, events + more)
    ensures SameReign(Run(n, events).servers[i], Run(n, events + more).servers[i])
    decreases |having|
  {
    hide Run, NoAckCut, Agreed;
    if having == {} {
      more := [];
      assert events + more == events && having + done == done;
    } else {
      var j :| j in having;
      var first := LearnsAndApplies(n, events, i, having, done, j);
      var rest := AllApply(n, events + first, i, having - {j}, done + {j});
      more := first + rest;
      assert events + first + rest == events + more;
      assert having - {j} + (done + {j}) == having + done;
    }
  }

  // ---- From an election to the entry applied ----

  lemma TakesEntry(n: nat, c: Cluster, i: nat, id: nat, data: int, others: set<nat>)
    requires |c.servers| == n && i < n && 1 < n && id != 0
    requires var s := c.servers[i];
             && s.role.Leader? && s.me == i && |s.peers| == n
             && forall j :: j in others ==>
                  && j < n && j != i && s.peers[j].nextIdx == |s.log| + 1 && s.peers[j].matchIdx == 0
                  && c.servers[j].me == j && |c.servers[j].peers| == n && c.servers[j].term <= s.term
    ensures var c' := Next(c, ClientEntry(i, id, data));
            var s := c.servers[i];
            && Spreading(n, c', i, {}, others) && !CutsAcked(c, ClientEntry(i, id, data))
            && c'.servers[i] == s.(log := s.log + [Entry(s.term, id, data)])
  {
    hide AppendsFrom;
    var c' := Next(c, ClientEntry(i, id, data));
    forall j | j in others ensures LeadsPeer(n, c'.servers[i], c'.servers[j], i, j) && Newest(c'.servers[i], j) {
      assert c'.servers[j] == c.servers[j];
    }
  }

  /** What the leader's term and log become by being elected and taking one entry. */
  function LogWith(s: Server, id: nat, data: int): seq<Entry> { s.log + [Entry(s.term + 1, id, data)] }

  lemma ElectedTakes(n: nat, events: seq<Event>, i: nat, q: set<nat>, id: nat, data: int) returns (more: seq<Event>)
    requires CanLead(n, events, i, q) && id != 0 && NoAckCut(n, events)
    ensures NoAckCut(n, events + more) && Spreading(n, Run(n, events + more), i, {}, q - {i})
    ensures var s, s' := At(n, events, |events|, i), Run(n, events + more).servers[i];
            s'.role.Leader? && s'.term == s.term + 1 && s'.log == LogWith(s, id, data) && s'.leader == i
  {
    hide Run, Next, NoAckCut, CutsAcked;
    var won := ElectionCanBeWon(n, events, i, q);
    var c := Run(n, events + won);
    forall j | j in q - {i} ensures c.servers[j].me == j && |c.servers[j].peers| == n {
      MembersKnow(n, events + won, i, j);
    }
    MembersKnow(n, events + won, i, i);
    TakesEntry(n, c, i, id, data, q - {i});
    RunOneMore(n, events + won, ClientEntry(i, id, data));
    UncutOneMore(n, events + won, ClientEntry(i, id, data));
    more := won + [ClientEntry(i, id, data)];
    assert events + won + [ClientEntry(i, id, data)] == events + more;
  }

  lemma LeaderCommitted(n: nat, events: seq<Event>, i: nat, others: set<nat>)
    requires Spreading(n, Run(n, events), i, others, {}) && NoAckCut(n, events) && others != {}
    requires var s := Run(n, events).servers[i];
             && s.role.Leader? && s.log != [] && s.log[|s.log| - 1].term == s.term && |s.log| <= s.commitIdx
    ensures Agreed(n, Run(n, events), i, others, {})
  {
    hide Run;
    FollowerBounds(n, events, i);
  }

  lemma QuorumHas(n: nat, events: seq<Event>, i: nat, q: set<nat>)
    requires CanLead(n, events, i, q)
    ensures i in q && i < n && n / 2 < |q| && q - {i} != {}
  {
    assert q == (q - {i}) + {i};
  }

  lemma MembersServed(n: nat, events: seq<Event>, i: nat, q: set<nat>, id: nat, data: int) returns (more: seq<Event>)
    requires CanLead(n, events, i, q) && id != 0 && NoAckCut(n, events)
    ensures NoAckCut(n, events + more) && Agreed(n, Run(n, events + more), i, {}, q - {i})
    ensures var s, s' := At(n, events, |events|, i), Run(n, events + more).servers[i];
            s'.role.Leader? && s'.term == s.term + 1 && s'.log == LogWith(s, id, data) && s'.leader == i
  {
    hide Run, NoAckCut, Reached, Agreed, Spreading, CanLead;
    QuorumHas(n, events, i, q);
    var others := q - {i};
    assert q == others + {i};
    assert {} + others == others && others + {} == others;
    var taken := ElectedTakes(n, events, i, q, id, data);
    var spread := SpreadAll(n, events + taken, i, {}, others);
    var agreed := events + taken + spread;
    LeaderCommitted(n, agreed, i, others);
    var applied := AllApply(n, agreed, i, others, {});
    more := taken + spread + applied;
    assert agreed + applied == events + more;
  }

  lemma LeaderApplies(n: nat, events: seq<Event>, i: nat, others: set<nat>) returns (more: seq<Event>)
    requires Agreed(n, Run(n, events), i, {}, others) && NoAckCut(n, events)
    ensures NoAckCut(n, events + more)
    ensures var s, c' := Run(n, events).servers[i], Run(n, events + more);
            && |c'.servers| == n && SameReign(s, c'.servers[i]) && Served(c'.servers[i], s.log, s.leader)
            && forall j :: j in others ==> j < n && Served(c'.servers[j], s.log, i)
  {
    hide Run, NoAckCut;
    var c := Run(n, events);
    TicksApplyAll(n, events, i);
    assert events[..|events|] == events;
    var s := c.servers[i];
    more := Ticks(i, s.commitIdx - s.appliedIdx);
    TicksCutNothing(n, events, i, s.commitIdx - s.appliedIdx);
    assert s.log[..s.commitIdx] == s.log;
    var c' := Run(n, events + more);
    forall j | j in others ensures j < n && Served(c'.servers[j], s.log, i) {
      assert c'.servers[j] == c.servers[j];
    }
  }

  /** A majority that can talk serves a client. In any run that has cut nothing acknowledged, let q be a
      majority and i a member of it that can lead it. Then the run can go on until i leads a new term, has
      taken any given client entry, and every member of q has exactly the log of i, the new entry last,
      has applied all of it, and knows its leader. */
  lemma MajorityServesClient(n: nat, events: seq<Event>, i: nat, q: set<nat>, id: nat, data: int)
      returns (more: seq<Event>)
    requires CanLead(n, events, i, q) && id != 0 && NoAckCut(n, events)
    ensures NoAckCut(n, events + more)
    ensures var s := At(n, events, |events|, i);
            var c' := Run(n, events + more);
            var log := s.log + [Entry(s.term + 1, id, data)];
            && |c'.servers| == n
            && c'.servers[i].role.Leader? && c'.servers[i].term == s.term + 1
            && forall j :: j in q ==>
                 c'.servers[j].log == log && c'.servers[j].applied == log && c'.servers[j].leader == i
  {
    hide Run, NoAckCut, Agreed;
    var served := MembersServed(n, events, i, q, id, data);
    var last := LeaderApplies(n, events + served, i, q - {i});
    more := served + last;
    assert events + served + last == events + more;
    assert forall j :: j in q && j != i ==> j in q - {i};
  }
}
