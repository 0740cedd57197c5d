/** Links that deliver appends in the order they were sent cut nothing acknowledged. */
module RaftLinks {
  import opened RaftProtocol
  import opened RaftCluster
  import opened RaftHistory
  import opened RaftMerge
  import opened RaftInduction
  import opened RaftCompleteness
  import opened RaftSafety
  import opened RaftFollower
  import opened RaftPreservation
  import opened RaftTheorems

  predicate Success(q: Packet) { q.msg.AppendResponse? && q.msg.success }

  /** The acknowledgement `q` answers append `k`, which was delivered. */
  predicate Answers(c: Cluster, q: Packet, k: nat) {
    && k < |c.sent| && c.sent[k].msg.Append?
    && c.sent[k].src == q.dst && c.sent[k].dst == q.src
    && Success(q) && q.msg.term == c.sent[k].msg.term && q.msg.currentIdx == AppendEnd(c.sent[k].msg)
    && Link(c.sent[k]) in c.seen && k <= c.seen[Link(c.sent[k])]
  }

  /** In any run every acknowledgement answers a delivered append. */
  ghost predicate AllAnswer(c: Cluster) {
    forall r :: 0 <= r < |c.sent| && Success(c.sent[r]) ==> exists k: nat :: Answers(c, c.sent[r], k)
  }

  predicate NoSuccess(out: seq<Packet>) { forall k :: 0 <= k < |out| ==> !Success(out[k]) }

  lemma AppendsNoSuccess(s: Server, all: bool)
    ensures NoSuccess(AppendsFrom(s, 0, all)) && NoSuccess(VoteRequestsFrom(s, 0))
  {
    AppendsShape(s, 0, all);
    VoteRequestsShape(s, 0);
  }

  /** Handlers other than that for appends acknowledge nothing. */
  lemma OthersNoSuccess(s: Server, p: Packet, id: nat, data: int, timedOut: bool)
    requires p.src < |s.peers|
    ensures !p.msg.Append? ==> NoSuccess(Receive(s, p).out)
    ensures NoSuccess(RecvEntry(s, id, data).out) && NoSuccess(Periodic(s, timedOut).out)
  {
    hide AppendsFrom, VoteRequestsFrom;
    ReceiveNoSuccess(s, p);
    var s1 := if id == 0 then s else s.(log := s.log + [Entry(s.term, id, data)]);
    AppendsNoSuccess(s1, false);
    AppendsNoSuccess(s, true);
    AppendsNoSuccess(BecomeCandidate(s).server, true);
  }

  lemma ReceiveNoSuccess(s: Server, p: Packet)
    requires p.src < |s.peers|
    ensures !p.msg.Append? ==> NoSuccess(Receive(s, p).out)
  {
    hide AppendsFrom, AcksFrom, VotesFrom;
    if p.msg.VoteResponse? {
      var s1 := s.(peers := s.peers[p.src := s.peers[p.src].(votedForMe := true)]);
      AppendsNoSuccess(BecomeLeader(s1).server, true);
    }
  }

  /** The handler for appends acknowledges at most the append it handles. */
  lemma AppendAnswer(s: Server, from: nat, ae: Message)
    requires ae.Append?
    ensures var out := RecvAppend(s, from, ae).out;
            |out| == 1 && out[0].src == s.me && out[0].dst == from
            && (Success(out[0]) ==> out[0].msg.term == ae.term && out[0].msg.currentIdx == AppendEnd(ae))
  {
    hide AppendAtTerm;
    AppendShape(Settled(s, ae.term), from, ae);
  }

  /** Old acknowledgements stay answered, and new ones are if they are those of a delivered append. */
  lemma AnswersGrow(c: Cluster, c': Cluster, out: seq<Packet>, k: nat)
    requires AllAnswer(c) && c'.sent == c.sent + out
    requires forall l :: l in c.seen ==> l in c'.seen && c.seen[l] <= c'.seen[l]
    requires NoSuccess(out) || (|out| == 1 && (Success(out[0]) ==> Answers(c', out[0], k)))
    ensures AllAnswer(c')
  {
    forall r | 0 <= r < |c'.sent| && Success(c'.sent[r]) ensures exists j: nat :: Answers(c', c'.sent[r], j) {
      if r < |c.sent| {
        var j: nat :| Answers(c, c.sent[r], j);
        assert Answers(c', c'.sent[r], j);
      } else {
        assert c'.sent[r] == out[r - |c.sent|];
      }
    }
  }

  lemma AnswersNext(n: nat, c: Cluster, h: History, ev: Event)
    requires Inv(n, c, h) && AllAnswer(c)
    ensures AllAnswer(Next(c, ev))
  {
    hide Inv, AllAnswer, RecvEntry, Periodic, ApplyEntry, RecvAppend, RecvRequestVote, RecvVoteResponse,
      RecvAppendResponse;
    Shape(n, c, h);
    match ev {
      case Deliver(k) =>
        if Deliverable(c, k) {
          DeliveryAnswers(n, c, k);
        }
      case ClientEntry(i, id, data) =>
        if i < n {
          OthersNoSuccess(c.servers[i], Packet(0, i, VoteResponse(0, false)), id, data, false);
          AnswersGrow(c, Next(c, ev), RecvEntry(c.servers[i], id, data).out, 0);
        }
      case Tick(i, timedOut) =>
        if i < n {
          OthersNoSuccess(c.servers[i], Packet(0, i, VoteResponse(0, false)), 0, 0, timedOut);
          AnswersGrow(c, Next(c, ev), Periodic(c.servers[i], timedOut).out, 0);
        }
      case ApplyNext(i) =>
        if i < n {
          AnswersGrow(c, Next(c, ev), [], 0);
        }
    }
  }

  lemma Shape(n: nat, c: Cluster, h: History)
    requires Inv(n, c, h)
    ensures |c.servers| == n && forall i :: 0 <= i < n ==> c.servers[i].me == i && |c.servers[i].peers| == n
  {
  }

  lemma DeliveryAnswers(n: nat, c: Cluster, k: nat)
    requires |c.servers| == n && (forall i :: 0 <= i < n ==> c.servers[i].me == i)
    requires AllAnswer(c) && Deliverable(c, k)
    ensures AllAnswer(Next(c, Deliver(k)))
  {
    hide AllAnswer, RecvAppend, RecvRequestVote, RecvVoteResponse, RecvAppendResponse;
    var p := c.sent[k];
    var s, c' := c.servers[p.dst], Next(c, Deliver(k));
    var out := Receive(s, p).out;
    if p.msg.Append? {
      AppendAnswer(s, p.src, p.msg);
      assert c'.sent[k] == p;
    } else {
      ReceiveNoSuccess(s, p);
    }
    AnswersGrow(c, c', out, k);
  }

  lemma {:induction false} RunAnswers(n: nat, events: seq<Event>)
    ensures AllAnswer(Run(n, events))
    decreases |events|
  {
    hide AllAnswer, Inv;
    if |events| == 0 {
      NothingToAnswer(n);
    } else {
      var before := events[..|events| - 1];
      RunAnswers(n, before);
      var h := RunHasHistory(n, before);
      AnswersNext(n, Run(n, before), h, events[|events| - 1]);
    }
  }

  lemma NothingToAnswer(n: nat)
    ensures AllAnswer(Start(n))
  {
  }

  /** An append delivered in order reaches everything its receiver acknowledged in its term. */
  lemma InOrderReaches(n: nat, c: Cluster, h: History, k: nat, r: nat)
    requires Safe(n, c, h) && AllAnswer(c) && KeepsOrder(c, Deliver(k))
    requires Deliverable(c, k) && c.sent[k].msg.Append? && r < |c.sent| && AcksBeyond(c.sent[r], c.sent[k])
    ensures c.sent[r].msg.currentIdx <= AppendEnd(c.sent[k].msg)
  {
    SafeDelivery(n, c, h, k);
    SafeDelivery(n, c, h, r);
    AppendSent(n, h, c.sent[k]);
    SafeAdvance(n, c, h);
    hide Safe, Inv, SafePacket;
    var j: nat :| Answers(c, c.sent[r], j);
    assert SameStream(c.sent[j], c.sent[k]);
  }

  lemma SafeAdvance(n: nat, c: Cluster, h: History)
    requires Safe(n, c, h)
    ensures AppendsAdvance(c.sent)
  {
  }

  lemma OrderedDeliveryCutsNothing(n: nat, c: Cluster, h: History, ev: Event)
    requires Safe(n, c, h) && AllAnswer(c) && KeepsOrder(c, ev)
    ensures !CutsAcked(c, ev)
  {
    hide Safe, AllAnswer, KeepsOrder;
    if CutsAcked(c, ev) {
      var r :| 0 <= r < |c.sent| && AcksBeyond(c.sent[r], c.sent[ev.k]);
      InOrderReaches(n, c, h, ev.k, r);
    }
  }

  /** Runs that deliver the appends of each link in the order they were sent, losing any of
      them, cut nothing acknowledged; all that is proved of the latter holds of them. */
  lemma {:induction false} OrderedRunsCutNothing(n: nat, events: seq<Event>)
    requires AppendsInOrder(n, events)
    ensures NoAckCut(n, events)
    decreases |events|
  {
    hide Safe, AllAnswer, KeepsOrder, CutsAcked;
    if |events| > 0 {
      var before := events[..|events| - 1];
      OrderedRunsCutNothing(n, before);
      var h := RunIsSafe(n, before);
      RunAnswers(n, before);
      OrderedDeliveryCutsNothing(n, Run(n, before), h, events[|events| - 1]);
    }
  }

  /** With appends in order a follower's commit index never passes the prefix just checked. */
  lemma AcceptedInOrder(n: nat, events: seq<Event>, k: nat)
    requires AppendsInOrder(n, events + [Deliver(k)])
    requires var c := Run(n, events); k < |c.sent| && c.sent[k].msg.Append? && c.sent[k].dst < n
    ensures var c := Run(n, events);
            var ae := c.sent[k].msg;
            var s := At(n, events, |events|, c.sent[k].dst);
            var s' := At(n, events + [Deliver(k)], |events| + 1, c.sent[k].dst);
            s.term <= ae.term && PrevMatches(s, ae) ==> s'.commitIdx <= AppendEnd(ae)
  {
    hide Safe, Inv, HistoryOk, ServerOk, SafeServer, PacketOk, SafePacket, RecvAppend, CutsAcked, Took, AllAnswer;
    var all := events + [Deliver(k)];
    assert all[..|all| - 1] == events && events[..|events|] == events && all[..|all|] == all;
    OrderedRunsCutNothing(n, all);
    var c := Run(n, events);
    var p := c.sent[k];
    ServersStay(n, events);
    ServersStay(n, all);
    var h := RunIsSafe(n, events);
    RunAnswers(n, events);
    SafeDelivery(n, c, h, k);
    SafeFacts(n, c, h, p.dst);
    UncutIsHarmless(n, c, h, k);
    AppendSent(n, h, p);
    OrderedAcks(n, c, h, k);
    assert Run(n, all) == Next(c, Deliver(k));
    AcceptedAppendAt(n, h, c.sent, c.servers[p.dst], p);
  }

  lemma OrderedAcks(n: nat, c: Cluster, h: History, k: nat)
    requires Safe(n, c, h) && AllAnswer(c) && KeepsOrder(c, Deliver(k)) && Deliverable(c, k) && c.sent[k].msg.Append?
    ensures Acked(h, c.sent[k].dst, c.sent[k].msg.term) <= AppendEnd(c.sent[k].msg)
  {
    SafeDelivery(n, c, h, k);
    var p := c.sent[k];
    AppendSent(n, h, p);
    SafeSent(n, c, h);
    hide Safe, Inv, SafePacket, PacketOk, AllAnswer, KeepsOrder;
    if p.msg.prevIdx < Acked(h, p.dst, p.msg.term) {
      var r: nat :| AckSent(c.sent, p.dst, p.msg.term, h.acked[(p.dst, p.msg.term)], r);
      InOrderReaches(n, c, h, k, r);
    }
  }
}
