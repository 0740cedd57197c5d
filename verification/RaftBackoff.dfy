/** A leader finds the point where a peer's log agrees with its own, and brings the peer up
    to date. */
module RaftBackoff {
  import opened RaftProtocol
  import opened RaftCluster
  import opened RaftHistory
  import opened RaftMerge
  import opened RaftInduction
  import opened RaftSafety
  import opened RaftPreservation
  import opened RaftTheorems

  /** A rejection in the leader's own term moves a peer that has acknowledged nothing strictly
      back, unless it is already at the first entry. */
  lemma RejectionMovesBack(s: Server, j: nat, r: Message)
    requires j < |s.peers| && r.AppendResponse? && !r.success
    requires s.role.Leader? && r.term == s.term && s.peers[j].matchIdx == 0
    ensures var s' := RecvAppendResponse(s, j, r).server;
            && s' == s.(peers := s.peers[j := s'.peers[j]])
            && s'.peers[j].matchIdx == 0
            && (s'.peers[j].nextIdx < s.peers[j].nextIdx || s'.peers[j].nextIdx == s.peers[j].nextIdx == 1)
  {
  }

  /** An append that starts at the beginning of the log is never rejected by a server of the
      same or an earlier term. */
  lemma FirstAppendAccepted(s: Server, from: nat, ae: Message)
    requires ae.Append? && s.term <= ae.term && ae.prevIdx == 0
    requires forall i :: 0 <= i < |ae.entries| ==> ae.entries[i].id != 0
    ensures var o := RecvAppend(s, from, ae); |o.out| == 1 && o.out[0].msg.AppendResponse? && o.out[0].msg.success
  {
    var s1 := Settled(s, ae.term);
    assert PrevMatches(s1, ae);
    MergeCovers(s1, ae.entries);
    AcceptShape(s1, from, ae);
    hide AppendAtTerm;
  }

  lemma MergeCovers(s: Server, entries: seq<Entry>)
    requires forall i :: 0 <= i < |entries| ==> entries[i].id != 0
    ensures |entries| <= |MergeEntries(s, 0, entries).log|
  {
    var k := MatchingEntries(s.log, 0, entries);
    MatchingEntriesFit(s.log, 0, entries);
    AllAcceptable(entries[k..]);
  }

  /** The peer's half of a round trip. */
  lemma ExchangeAtPeer(n: nat, h: History, sent: seq<Packet>, s: Server, f: Server)
    requires HistoryOk(n, h) && ServerOk(n, h, sent, s) && ServerOk(n, h, sent, f)
    requires s.role.Leader? && f.me != s.me && f.term <= s.term && f.me < |s.peers|
    ensures var o := RecvAppend(f, s.me, AppendFor(s, f.me).msg);
            && IsResponse(o.server, s.me, o.out) && o.server.term == s.term && o.server.me == f.me
            && ServerOk(n, h, sent, o.server)
            && (o.out[0].msg.success ==> s.log <= o.server.log)
  {
    hide HistoryOk;
    hide ServerOk;
    hide PacketOk;
    hide AppendAtTerm;
    var p := AppendFor(s, f.me);
    AppendToPeer(n, h, sent, s, f);
    hide AppendFor;
    SettledOk(n, h, sent, f, p);
    var f1 := Settled(f, s.term);
    RecvAppendOk(n, h, sent, f, p);
    if PrevMatches(f1, p.msg) {
      PeerAccepts(n, h, sent, f1, p);
    } else {
      RejectShape(f1, p.src, p.msg);
    }
  }

  lemma AppendToPeer(n: nat, h: History, sent: seq<Packet>, s: Server, f: Server)
    requires HistoryOk(n, h) && ServerOk(n, h, sent, s) && ServerOk(n, h, sent, f)
    requires s.role.Leader? && f.me != s.me
    ensures f.me < n && |s.peers| == n && |f.peers| == n && s.me < n
    ensures var p := AppendFor(s, f.me);
            && PacketOk(n, h, p) && p.msg.Append? && p.msg.term == s.term && p.dst == f.me && p.src == s.me
            && s.term in h.reigns && h.reigns[s.term].log == s.log && AppendEnd(p.msg) == |s.log|
  {
    assert f.me < n;
    hide HistoryOk;
    hide ServerOk;
    hide ReignOk;
    hide PacketOk;
    LeaderFacts(n, h, sent, s);
    PeerCount(n, h, sent, f);
    AppendForOk(n, h, s, f.me);
  }

  lemma PeerCount(n: nat, h: History, sent: seq<Packet>, f: Server)
    requires ServerOk(n, h, sent, f)
    ensures f.me < n && |f.peers| == n && Derived(h.reigns, f.log)
  {
  }

  lemma PeerAccepts(n: nat, h: History, sent: seq<Packet>, f: Server, p: Packet)
    requires HistoryOk(n, h) && ServerOk(n, h, sent, f)
    requires p.msg.Append? && PacketOk(n, h, p) && PrevMatches(f, p.msg)
    requires p.msg.term in h.reigns && AppendEnd(p.msg) == |h.reigns[p.msg.term].log|
    ensures var o := AppendAtTerm(f, p.src, p.msg);
            IsResponse(f, p.src, o.out) && o.server.term == f.term && h.reigns[p.msg.term].log <= o.server.log
  {
    hide HistoryOk;
    hide ServerOk;
    hide PacketOk;
    hide ReignOk;
    hide Derived;
    hide AppendAtTerm;
    hide MergeEntries;
    PeerCount(n, h, sent, f);
    AppendSent(n, h, p);
    AppendReign(n, h, p);
    AcceptInstallsLeaderLog(n, h, f, p);
    AcceptShape(f, p.src, p.msg);
    var l := h.reigns[p.msg.term].log;
    assert l[..|l|] == l;
  }

  lemma SuccessAtStart(n: nat, h: History, sent: seq<Packet>, s: Server, f: Server)
    requires HistoryOk(n, h) && ServerOk(n, h, sent, s) && ServerOk(n, h, sent, f)
    requires s.role.Leader? && f.me != s.me && f.term <= s.term && f.me < |s.peers|
    requires s.peers[f.me].nextIdx == 1
    ensures var o := RecvAppend(f, s.me, AppendFor(s, f.me).msg);
      |o.out| == 1 && o.out[0].msg.AppendResponse? && o.out[0].msg.success
  {
    assert forall i :: 0 <= i < |s.log| ==> s.log[i].id != 0 by {
      LeaderFacts(n, h, sent, s);
    }
    hide HistoryOk;
    hide ServerOk;
    hide RecvAppend;
    FirstAppendAccepted(f, s.me, AppendFor(s, f.me).msg);
  }

  // ---- As events of a run ----

  /** Packet k is the append that leader i would send now to peer j, which has acknowledged nothing. */
  predicate Awaiting(n: nat, c: Cluster, i: nat, j: nat, k: nat) {
    && i < n && j < n && i != j && |c.servers| == n && LeadsPeer(n, c.servers[i], c.servers[j], i, j)
    && k < |c.sent| && c.sent[k] == AppendFor(c.servers[i], j)
  }

  predicate LeadsPeer(n: nat, s: Server, f: Server, i: nat, j: nat) {
    && s.me == i && f.me == j && |s.peers| == n && |f.peers| == n && i < n && j < n
    && s.role.Leader? && s.peers[j].matchIdx == 0 && f.term <= s.term
  }

  /** The peer gets the append and answers. */
  lemma PeerAnswers(n: nat, events: seq<Event>, i: nat, j: nat, k: nat)
    requires Awaiting(n, Run(n, events), i, j, k)
    ensures var c := Run(n, events);
            var c' := Next(c, Deliver(k));
            && |c'.servers| == n && c'.servers[i] == c.servers[i] && LeadsPeer(n, c'.servers[i], c'.servers[j], i, j)
            && |c'.sent| == |c.sent| + 1 && IsResponse(c'.servers[j], i, [c'.sent[|c.sent|]])
            && c'.servers[j].term == c.servers[i].term
            && (c'.sent[|c.sent|].msg.success ==> c.servers[i].log <= c'.servers[j].log)
            && (c.servers[i].peers[j].nextIdx == 1 ==> c'.sent[|c.sent|].msg.success)
  {
    var h := RunHasHistory(n, events);
    var c := Run(n, events);
    var s, f := c.servers[i], c.servers[j];
    hide HistoryOk, ServerOk, PacketOk, RecvAppend, AppendFor, Run, Next;
    AppendForShape(s, j);
    ExchangeAtPeer(n, h, c.sent, s, f);
    var o := RecvAppend(f, i, AppendFor(s, j).msg);
    PeerCount(n, h, c.sent, o.server);
    if s.peers[j].nextIdx == 1 { SuccessAtStart(n, h, c.sent, s, f); }
    AppendDelivered(c, k, o);
  }

  lemma AppendDelivered(c: Cluster, k: nat, o: Outcome)
    requires Deliverable(c, k) && c.sent[k].msg.Append?
    requires o == RecvAppend(c.servers[c.sent[k].dst], c.sent[k].src, c.sent[k].msg)
    ensures Next(c, Deliver(k)).servers == c.servers[c.sent[k].dst := o.server]
    ensures Next(c, Deliver(k)).sent == c.sent + o.out
  {
    hide RecvAppend;
  }

  /** The leader gets the rejection and tries again from further back. */
  lemma LeaderRetries(n: nat, c: Cluster, i: nat, j: nat, k: nat)
    requires i < n && j < n && i != j && |c.servers| == n && LeadsPeer(n, c.servers[i], c.servers[j], i, j)
    requires k < |c.sent| && IsResponse(c.servers[j], i, [c.sent[k]]) && !c.sent[k].msg.success
    requires c.servers[j].term == c.servers[i].term && c.servers[i].peers[j].nextIdx != 1
    ensures var c' := Next(c, Deliver(k));
            && Awaiting(n, c', i, j, |c.sent|) && c'.servers[i].log == c.servers[i].log
            && c'.servers[i].peers[j].nextIdx < c.servers[i].peers[j].nextIdx
  {
    hide AppendFor;
    RejectionMovesBack(c.servers[i], j, c.sent[k].msg);
    var o := RecvAppendResponse(c.servers[i], j, c.sent[k].msg);
    assert o.out == [AppendFor(o.server, j)];
    assert Next(c, Deliver(k)).servers == c.servers[i := o.server];
    assert Next(c, Deliver(k)).sent == c.sent + o.out;
  }

  lemma RunOneMore(n: nat, events: seq<Event>, ev: Event)
    ensures Run(n, events + [ev]) == Next(Run(n, events), ev)
  {
    assert (events + [ev])[..|events|] == events;
  }

  /** Delivering the append, the answer, the next append and so on ends with the leader's log at the peer. */
  lemma {:induction false} RoundTripsConverge(n: nat, events: seq<Event>, i: nat, j: nat, k: nat)
    returns (more: seq<Event>)
    requires Awaiting(n, Run(n, events), i, j, k)
    ensures var c := Run(n, events);
            var c' := Run(n, events + more);
            && |more| < 2 * c.servers[i].peers[j].nextIdx && |c'.servers| == n && c.servers[i].log <= c'.servers[j].log
            && forall e :: e in more ==> e.Deliver?
    decreases Run(n, events).servers[i].peers[j].nextIdx
  {
    hide Next, Run, AppendFor;
    var c := Run(n, events);
    PeerAnswers(n, events, i, j, k);
    RunOneMore(n, events, Deliver(k));
    var asked := events + [Deliver(k)];
    var c1 := Run(n, asked);
    if c1.sent[|c.sent|].msg.success {
      more := [Deliver(k)];
    } else {
      LeaderRetries(n, c1, i, j, |c.sent|);
      RunOneMore(n, asked, Deliver(|c.sent|));
      var rest := RoundTripsConverge(n, asked + [Deliver(|c.sent|)], i, j, |c1.sent|);
      more := [Deliver(k), Deliver(|c.sent|)] + rest;
      assert asked + [Deliver(|c.sent|)] + rest == events + more;
    }
  }

  /** A heartbeat puts an append for peer j on the way. */
  lemma HeartbeatSends(n: nat, c: Cluster, i: nat, j: nat) returns (k: nat)
    requires i < n && j < n && i != j && |c.servers| == n && LeadsPeer(n, c.servers[i], c.servers[j], i, j)
    ensures var c' := Next(c, Tick(i, true));
            && Awaiting(n, c', i, j, k) && c'.servers[i].log == c.servers[i].log
            && c'.servers[i].peers == c.servers[i].peers
  {
    hide AppendFor, AppendsFrom;
    var s := c.servers[i];
    var p := AppendAmong(s, 0, j);
    k := |c.sent| + p;
    var o := Periodic(s, true);
    assert o.out == AppendsFrom(s, 0, true) && o.server.log == s.log;
    SameAppend(s, o.server, j);
    assert Next(c, Tick(i, true)).servers == c.servers[i := o.server];
    assert Next(c, Tick(i, true)).sent == c.sent + o.out;
  }

  lemma SameAppend(s: Server, s': Server, j: nat)
    requires j < |s.peers| && s'.peers == s.peers && s'.log == s.log && s'.commitIdx == s.commitIdx
    requires s'.term == s.term && s'.me == s.me
    ensures AppendFor(s', j) == AppendFor(s, j)
  {
  }

  lemma {:induction false} AppendAmong(s: Server, from: nat, j: nat) returns (p: nat)
    requires from <= j < |s.peers| && j != s.me
    ensures p < |AppendsFrom(s, from, true)| && AppendsFrom(s, from, true)[p] == AppendFor(s, j)
    decreases j - from
  {
    hide AppendFor;
    if from == j {
      p := 0;
    } else {
      p := AppendAmong(s, from + 1, j);
      if from != s.me { p := p + 1; }
    }
  }

  lemma MembersKnow(n: nat, events: seq<Event>, i: nat, j: nat)
    requires i < n && j < n
    ensures var c := Run(n, events);
      |c.servers| == n && c.servers[i].me == i && c.servers[j].me == j && |c.servers[j].peers| == n
  {
    hide Run, ServerOk, HistoryOk;
    var h := RunHasHistory(n, events);
    var c := Run(n, events);
    PeerCount(n, h, c.sent, c.servers[j]);
  }

  /** Any run in which i leads and peer j, of no later term, has acknowledged nothing can go on, with one
      heartbeat and then deliveries alone, fewer than twice the peer's next index of them, until j holds
      the whole log of i. */
  lemma BackOffTerminates(n: nat, events: seq<Event>, i: nat, j: nat) returns (more: seq<Event>)
    requires i < n && j < n && i != j
    requires var s := At(n, events, |events|, i);
             s.role.Leader? && |s.peers| == n && s.peers[j].matchIdx == 0 && At(n, events, |events|, j).term <= s.term
    ensures var s := At(n, events, |events|, i);
            && 0 < |more| <= 2 * s.peers[j].nextIdx && more[0] == Tick(i, true)
            && (forall e :: e in more[1..] ==> e.Deliver?)
            && s.log <= At(n, events + more, |events| + |more|, j).log
  {
    hide Next, Run, ServerOk, HistoryOk;
    var c := Run(n, events);
    assert events[..|events|] == events;
    MembersKnow(n, events, i, j);
    var k := HeartbeatSends(n, c, i, j);
    RunOneMore(n, events, Tick(i, true));
    var rest := RoundTripsConverge(n, events + [Tick(i, true)], i, j, k);
    more := [Tick(i, true)] + rest;
    assert events + [Tick(i, true)] + rest == events + more;
    assert (events + more)[..|events| + |more|] == events + more;
  }
}
