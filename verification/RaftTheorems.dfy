/** What holds of every run, said without the history. */
module RaftTheorems {
  import opened RaftProtocol
  import opened RaftCluster
  import opened RaftHistory
  import opened RaftMerge
  import opened RaftInduction
  import opened RaftCompleteness
  import opened RaftSafety
  import opened RaftFollower
  import opened RaftPreservation

  /** Server `i` of an `n`-member cluster after the first `k` events. */
  function At(n: nat, events: seq<Event>, k: nat, i: nat): Server
    requires k <= |events| && i < n
  {
    ServersStay(n, events[..k]);
    Run(n, events[..k]).servers[i]
  }

  lemma {:induction false} ServersStay(n: nat, events: seq<Event>)
    ensures |Run(n, events).servers| == n
  {
    if |events| > 0 {
      ServersStay(n, events[..|events| - 1]);
    }
  }

  // ---- Histories along a run ----

  /** The history after `k` events, and the one at the end, which extends it. */
  lemma {:induction false} HistoriesAlong(n: nat, events: seq<Event>, k: nat) returns (early: History, late: History)
    requires k <= |events|
    ensures Inv(n, Run(n, events[..k]), early) && Inv(n, Run(n, events), late) && Grows(early, late)
    decreases |events|
  {
    hide Inv;
    hide Grows;
    if k == |events| {
      assert events[..k] == events;
      early := RunHasHistory(n, events);
      late := early;
      GrowsReflexive(early);
    } else {
      var before := events[..|events| - 1];
      assert before[..k] == events[..k];
      var mid;
      early, mid := HistoriesAlong(n, before, k);
      late := InvNext(n, Run(n, before), mid, events[|events| - 1]);
      GrowsTransitive(early, mid, late);
    }
  }

  lemma {:induction false} SafeHistoriesAlong(n: nat, events: seq<Event>, k: nat)
    returns (early: History, late: History)
    requires k <= |events| && NoAckCut(n, events)
    ensures Safe(n, Run(n, events[..k]), early) && Safe(n, Run(n, events), late) && Grows(early, late)
    decreases |events|
  {
    hide Safe;
    hide Grows;
    if k == |events| {
      assert events[..k] == events;
      early := RunIsSafe(n, events);
      late := early;
      GrowsReflexive(early);
    } else {
      var before := events[..|events| - 1];
      assert before[..k] == events[..k];
      var mid;
      early, mid := SafeHistoriesAlong(n, before, k);
      late := SafeNext(n, Run(n, before), mid, events[|events| - 1]);
      GrowsTransitive(early, mid, late);
    }
  }

  lemma {:induction false} UncutPrefix(n: nat, events: seq<Event>, k: nat)
    requires k <= |events| && NoAckCut(n, events)
    ensures NoAckCut(n, events[..k])
  {
    if k < |events| {
      var before := events[..|events| - 1];
      UncutPrefix(n, before, k);
      assert before[..k] == events[..k];
    } else {
      assert events[..k] == events;
    }
  }

  // ---- In every run, whatever the network does ----

  lemma LeaderInHistory(n: nat, c: Cluster, h: History, i: nat)
    requires Inv(n, c, h) && i < n && c.servers[i].role.Leader?
    ensures c.servers[i].term in h.reigns && h.reigns[c.servers[i].term].leader == i
    ensures h.reigns[c.servers[i].term].log == c.servers[i].log
  {
  }

  /** Election safety: two servers that are leaders of one term, at any two times, are the same. */
  lemma ElectionSafety(n: nat, events: seq<Event>, k1: nat, k2: nat, i: nat, j: nat)
    requires k1 <= |events| && k2 <= |events| && i < n && j < n
    requires At(n, events, k1, i).role.Leader? && At(n, events, k2, j).role.Leader?
    requires At(n, events, k1, i).term == At(n, events, k2, j).term
    ensures i == j
  {
    hide Inv;
    ServersStay(n, events[..k1]);
    ServersStay(n, events[..k2]);
    if k1 <= k2 {
      assert events[..k2][..k1] == events[..k1];
      var early, late := HistoriesAlong(n, events[..k2], k1);
      LeaderInHistory(n, Run(n, events[..k1]), early, i);
      LeaderInHistory(n, Run(n, events[..k2]), late, j);
    } else {
      assert events[..k1][..k2] == events[..k2];
      var early, late := HistoriesAlong(n, events[..k1], k2);
      LeaderInHistory(n, Run(n, events[..k2]), early, j);
      LeaderInHistory(n, Run(n, events[..k1]), late, i);
    }
  }

  /** A leader never removes or rewrites an entry of its log. */
  lemma LeaderAppendOnly(n: nat, events: seq<Event>, k1: nat, k2: nat, i: nat)
    requires k1 <= k2 <= |events| && i < n
    requires At(n, events, k1, i).role.Leader? && At(n, events, k2, i).role.Leader?
    requires At(n, events, k1, i).term == At(n, events, k2, i).term
    ensures At(n, events, k1, i).log <= At(n, events, k2, i).log
  {
    hide Inv;
    ServersStay(n, events[..k1]);
    ServersStay(n, events[..k2]);
    assert events[..k2][..k1] == events[..k1];
    var early, late := HistoriesAlong(n, events[..k2], k1);
    LeaderInHistory(n, Run(n, events[..k1]), early, i);
    LeaderInHistory(n, Run(n, events[..k2]), late, i);
  }

  lemma LogInHistory(n: nat, c: Cluster, h: History, i: nat)
    requires Inv(n, c, h) && i < n
    ensures Derived(h.reigns, c.servers[i].log)
  {
  }

  lemma LogMatchingForward(n: nat, events: seq<Event>, k1: nat, k2: nat, i: nat, j: nat, x: nat)
    requires k1 <= k2 <= |events| && i < n && j < n
    requires x < |At(n, events, k1, i).log| && x < |At(n, events, k2, j).log|
    requires At(n, events, k1, i).log[x].term == At(n, events, k2, j).log[x].term
    ensures At(n, events, k1, i).log[..x + 1] == At(n, events, k2, j).log[..x + 1]
  {
    hide Inv;
    hide Derived;
    hide Grows;
    ServersStay(n, events[..k1]);
    ServersStay(n, events[..k2]);
    assert events[..k2][..k1] == events[..k1];
    var early, late := HistoriesAlong(n, events[..k2], k1);
    var a, b := At(n, events, k1, i).log, At(n, events, k2, j).log;
    LogInHistory(n, Run(n, events[..k1]), early, i);
    LogInHistory(n, Run(n, events[..k2]), late, j);
    DerivedGrows(early, late, a);
    AgreeAtTerm(late.reigns, a, b, x);
  }

  /** Log matching: when two servers, at any two times, hold entries of one term at one
      index, their logs are equal up to that index. */
  lemma LogMatching(n: nat, events: seq<Event>, k1: nat, k2: nat, i: nat, j: nat, x: nat)
    requires k1 <= |events| && k2 <= |events| && i < n && j < n
    requires x < |At(n, events, k1, i).log| && x < |At(n, events, k2, j).log|
    requires At(n, events, k1, i).log[x].term == At(n, events, k2, j).log[x].term
    ensures At(n, events, k1, i).log[..x + 1] == At(n, events, k2, j).log[..x + 1]
  {
    if k1 <= k2 {
      LogMatchingForward(n, events, k1, k2, i, j, x);
    } else {
      LogMatchingForward(n, events, k2, k1, j, i, x);
    }
  }

  /** Candidates and leaders have their vote on themselves; the asserts at lines 218 and 447
      never fire, and line 248 never reads past the log. */
  lemma VotesAndAsserts(n: nat, events: seq<Event>, i: nat)
    requires i < n
    ensures var s := At(n, events, |events|, i);
            && (!s.role.Follower? ==> s.votedFor == i)
            && 218 !in s.fired && 248 !in s.fired && 447 !in s.fired
  {
    assert events[..|events|] == events;
    ServersStay(n, events);
    var h := RunHasHistory(n, events);
    ServerVotes(n, Run(n, events), h, i);
  }

  lemma ServerVotes(n: nat, c: Cluster, h: History, i: nat)
    requires Inv(n, c, h) && i < n
    ensures var s := c.servers[i];
            && (!s.role.Follower? ==> s.votedFor == i)
            && 218 !in s.fired && 248 !in s.fired && 447 !in s.fired
  {
    assert 218 in ALWAYS_SAFE && 248 in ALWAYS_SAFE && 447 in ALWAYS_SAFE;
  }

  // ---- In every run in which no delivery cuts what its receiver acknowledged ----

  lemma SafeFactsAt(n: nat, c: Cluster, h: History, i: nat)
    requires Safe(n, c, h) && i < n
    ensures var s := c.servers[i];
            s.me == i && s.fired == {} && AppliedOk(s) && CommitSound(n, h, s) && HistoryOk(n, h) && BallotsKeep(h)
              && AckedOk(n, h)
  {
  }

  /** None of the asserts that are recorded in `fired` ever fails, and what was applied is the
      log up to the last applied index, which never passes the commit index, which never passes
      the log. */
  lemma NoAssertFires(n: nat, events: seq<Event>, i: nat)
    requires i < n && NoAckCut(n, events)
    ensures var s := At(n, events, |events|, i);
            && s.fired == {}
            && s.appliedIdx <= s.commitIdx <= |s.log|
            && s.applied == s.log[..s.appliedIdx]
  {
    assert events[..|events|] == events;
    ServersStay(n, events);
    var h := RunIsSafe(n, events);
    SafeFactsAt(n, Run(n, events), h, i);
  }

  lemma CommittedLater(n: nat, h: History, h': History, t: nat, m: nat)
    requires Grows(h, h') && AckedOk(n, h) && Committed(n, h, t, m)
    ensures Committed(n, h', t, m) && h'.reigns[t].log[..m] == h.reigns[t].log[..m]
  {
    assert AckSet(n, h, t, m) <= AckSet(n, h', t, m);
    SubsetSize(AckSet(n, h, t, m), AckSet(n, h', t, m));
  }

  /** A committed prefix, as the leader of some term holds it. */
  lemma CommitTerm(n: nat, h: History, h': History, s: Server) returns (t: nat, m: nat)
    requires CommitSound(n, h, s) && Grows(h, h') && AckedOk(n, h) && 0 < s.commitIdx <= |s.log|
    ensures Committed(n, h', t, m) && t <= s.term && s.commitIdx <= m
    ensures s.log[..s.commitIdx] == h'.reigns[t].log[..s.commitIdx]
  {
    t, m :| CommitWitness(n, h, s.me, s.log, s.commitIdx, s.term, t, m);
    CommittedLater(n, h, h', t, m);
    PrefixEqual(h.reigns[t].log, h'.reigns[t].log, m, s.commitIdx);
  }

  predicate Comparable(a: seq<Entry>, b: seq<Entry>) { a <= b || b <= a }

  lemma CommittedComparable(n: nat, h: History, t: nat, m: nat, c: nat, u: nat, k: nat, d: nat)
    requires HistoryOk(n, h) && BallotsKeep(h) && Committed(n, h, t, m) && Committed(n, h, u, k)
    requires c <= m && d <= k && t <= u
    ensures Comparable(h.reigns[t].log[..c], h.reigns[u].log[..d])
  {
    hide HistoryOk;
    hide BallotsKeep;
    CommittedAgree(n, h, t, m, u, k);
    var a, b := h.reigns[t].log, h.reigns[u].log;
    assert a[..c] == a[..m][..c] == b[..m][..c] == b[..c];
    if c <= d {
      assert b[..c] <= b[..d];
    }
  }

  lemma CommittedTogether(n: nat, h1: History, h: History, s1: Server, s2: Server)
    requires HistoryOk(n, h) && BallotsKeep(h) && AckedOk(n, h) && AckedOk(n, h1) && Grows(h1, h)
    requires CommitSound(n, h1, s1) && CommitSound(n, h, s2) && s1.commitIdx <= |s1.log| && s2.commitIdx <= |s2.log|
    ensures Comparable(s1.log[..s1.commitIdx], s2.log[..s2.commitIdx])
  {
    hide HistoryOk;
    hide BallotsKeep;
    hide CommitSound;
    hide AckedOk;
    hide Committed;
    hide Grows;
    if s1.commitIdx != 0 && s2.commitIdx != 0 {
      GrowsReflexive(h);
      var t, m := CommitTerm(n, h1, h, s1);
      var u, k := CommitTerm(n, h, h, s2);
      CommittedInLog(n, h, t, m);
      CommittedInLog(n, h, u, k);
      if t <= u {
        CommittedComparable(n, h, t, m, s1.commitIdx, u, k, s2.commitIdx);
      } else {
        CommittedComparable(n, h, u, k, s2.commitIdx, t, m, s1.commitIdx);
      }
    }
  }

  lemma CommittedInLog(n: nat, h: History, t: nat, m: nat)
    requires Committed(n, h, t, m)
    ensures t in h.reigns && m <= |h.reigns[t].log|
  {
  }

  lemma CommittedComparableForward(n: nat, events: seq<Event>, k1: nat, k2: nat, i: nat, j: nat)
    requires k1 <= k2 <= |events| && i < n && j < n && NoAckCut(n, events)
    ensures var s1, s2 := At(n, events, k1, i), At(n, events, k2, j);
            && AppliedOk(s1) && AppliedOk(s2)
            && Comparable(s1.log[..s1.commitIdx], s2.log[..s2.commitIdx])
  {
    hide Safe;
    hide HistoryOk;
    hide BallotsKeep;
    hide CommitSound;
    hide AckedOk;
    hide Grows;
    ServersStay(n, events[..k1]);
    ServersStay(n, events[..k2]);
    UncutPrefix(n, events, k2);
    assert events[..k2][..k1] == events[..k1];
    var early, late := SafeHistoriesAlong(n, events[..k2], k1);
    SafeFactsAt(n, Run(n, events[..k1]), early, i);
    SafeFactsAt(n, Run(n, events[..k2]), late, j);
    CommittedTogether(n, early, late, At(n, events, k1, i), At(n, events, k2, j));
  }

  /** State-machine safety: whatever two servers have applied by any two times, one sequence
      is a prefix of the other, so no two servers ever apply different entries at one index. */
  lemma StateMachineSafety(n: nat, events: seq<Event>, k1: nat, k2: nat, i: nat, j: nat)
    requires k1 <= |events| && k2 <= |events| && i < n && j < n && NoAckCut(n, events)
    ensures Comparable(At(n, events, k1, i).applied, At(n, events, k2, j).applied)
  {
    var s1, s2 := At(n, events, k1, i), At(n, events, k2, j);
    if k1 <= k2 {
      CommittedComparableForward(n, events, k1, k2, i, j);
    } else {
      CommittedComparableForward(n, events, k2, k1, j, i);
    }
    PrefixesComparable(s1.log, s1.commitIdx, s1.appliedIdx, s2.log, s2.commitIdx, s2.appliedIdx);
  }

  lemma PrefixesComparable(a: seq<Entry>, c: nat, x: nat, b: seq<Entry>, d: nat, y: nat)
    requires x <= c <= |a| && y <= d <= |b| && Comparable(a[..c], b[..d])
    ensures Comparable(a[..x], b[..y])
  {
    assert forall k :: 0 <= k < c && k < d ==> a[..c][k] == b[..d][k];
    assert forall k :: 0 <= k < x && k < y ==> a[k] == b[k];
  }

  /** Leader completeness: what a server knows to be committed is in the log of every leader
      of its term or a later one, from then on. */
  lemma LeadersHaveCommitted(n: nat, events: seq<Event>, k1: nat, k2: nat, i: nat, j: nat)
    requires k1 <= k2 <= |events| && i < n && j < n && NoAckCut(n, events)
    requires At(n, events, k2, j).role.Leader? && At(n, events, k1, i).term <= At(n, events, k2, j).term
    ensures var s1, s2 := At(n, events, k1, i), At(n, events, k2, j);
            s1.commitIdx <= |s1.log| && s1.log[..s1.commitIdx] <= s2.log
  {
    hide Safe;
    hide HistoryOk;
    hide BallotsKeep;
    hide CommitSound;
    hide AckedOk;
    hide Grows;
    hide Inv;
    ServersStay(n, events[..k1]);
    ServersStay(n, events[..k2]);
    UncutPrefix(n, events, k2);
    assert events[..k2][..k1] == events[..k1];
    var early, late := SafeHistoriesAlong(n, events[..k2], k1);
    SafeFactsAt(n, Run(n, events[..k1]), early, i);
    SafeFactsAt(n, Run(n, events[..k2]), late, j);
    SafeIsInv(n, Run(n, events[..k2]), late);
    LeaderInHistory(n, Run(n, events[..k2]), late, j);
    CommittedInLaterReign(n, early, late, At(n, events, k1, i), At(n, events, k2, j).term);
  }

  lemma CommittedInLaterReign(n: nat, early: History, late: History, s: Server, u: nat)
    requires HistoryOk(n, late) && BallotsKeep(late) && AckedOk(n, early) && Grows(early, late)
    requires CommitSound(n, early, s) && s.commitIdx <= |s.log| && s.term <= u && u in late.reigns
    ensures s.log[..s.commitIdx] <= late.reigns[u].log
  {
    hide HistoryOk;
    hide BallotsKeep;
    hide CommitSound;
    hide AckedOk;
    hide Grows;
    hide Committed;
    if s.commitIdx != 0 {
      var t, m := CommitTerm(n, early, late, s);
      CommittedInLog(n, late, t, m);
      if t < u {
        LeaderCompleteness(n, late, t, m, u);
        ReignFacts(n, late, u);
        PrefixAt(late.reigns[t].log, m, late.reigns[u].base, late.reigns[u].log, s.commitIdx);
      }
    }
  }

  lemma SafeIsInv(n: nat, c: Cluster, h: History)
    requires Safe(n, c, h)
    ensures Inv(n, c, h)
  {
  }

  // ---- Commit and apply only move forward ----

  /** Unless the assert at line 98 of raft_server_properties.c fires, the commit index does
      not drop; what was applied stays applied. */
  predicate Forward(s: Server, s': Server) {
    (98 !in s'.fired ==> s.commitIdx <= s'.commitIdx) && s.applied <= s'.applied
  }

  lemma AppendForward(s: Server, from: nat, ae: Message)
    requires ae.Append?
    ensures Forward(s, AppendAtTerm(s, from, ae).server)
  {
  }

  lemma ReceiveForward(s: Server, p: Packet)
    requires p.src < |s.peers|
    ensures Forward(s, Receive(s, p).server)
  {
    if p.msg.Append? {
      hide AppendAtTerm;
      AppendForward(s, p.src, p.msg);
      AppendForward(Settled(s, p.msg.term), p.src, p.msg);
    }
  }

  lemma OwnStepsForward(s: Server, id: nat, data: int, timedOut: bool)
    requires s.role.Leader? ==> 1 < |s.peers|
    ensures Forward(s, RecvEntry(s, id, data).server)
    ensures Forward(s, Periodic(s, timedOut).server)
    ensures Forward(s, ApplyEntry(s))
  {
    hide AppendsFrom;
    hide VoteRequestsFrom;
  }

  lemma NextForward(n: nat, c: Cluster, h: History, ev: Event, i: nat)
    requires Safe(n, c, h) && i < n && |c.servers| == n && |Next(c, ev).servers| == n
    ensures Forward(c.servers[i], Next(c, ev).servers[i])
  {
    hide Safe;
    hide Inv;
    hide HistoryOk;
    hide ServerOk;
    hide SafeServer;
    hide Receive;
    hide RecvEntry;
    hide Periodic;
    hide ApplyEntry;
    SafeFacts(n, c, h, i);
    var s := c.servers[i];
    match ev {
      case Deliver(k) =>
        if Deliverable(c, k) && c.sent[k].dst == i {
          ReceiveForward(s, c.sent[k]);
        }
      case ClientEntry(_, id, data) => OwnStepsForward(s, id, data, false);
      case Tick(_, timedOut) => OwnStepsForward(s, 0, 0, timedOut);
      case ApplyNext(_) => OwnStepsForward(s, 0, 0, false);
    }
  }

  /** In these runs no commit index ever decreases, and the entries a server
      has applied stay a prefix of those it applies later. */
  lemma {:induction false} CommitNeverDrops(n: nat, events: seq<Event>, k1: nat, k2: nat, i: nat)
    requires k1 <= k2 <= |events| && i < n && NoAckCut(n, events)
    ensures At(n, events, k1, i).commitIdx <= At(n, events, k2, i).commitIdx
    ensures At(n, events, k1, i).applied <= At(n, events, k2, i).applied
    decreases k2
  {
    if k1 < k2 {
      CommitNeverDrops(n, events, k1, k2 - 1, i);
      OneEventForward(n, events, k2, i);
    }
  }

  lemma OneEventForward(n: nat, events: seq<Event>, k: nat, i: nat)
    requires 0 < k <= |events| && i < n && NoAckCut(n, events)
    ensures At(n, events, k - 1, i).commitIdx <= At(n, events, k, i).commitIdx
    ensures At(n, events, k - 1, i).applied <= At(n, events, k, i).applied
  {
    hide Safe;
    var before, now := events[..k - 1], events[..k];
    assert now[..k - 1] == before;
    ServersStay(n, before);
    ServersStay(n, now);
    UncutPrefix(n, events, k);
    var early, late := SafeHistoriesAlong(n, now, k - 1);
    assert Run(n, now) == Next(Run(n, before), now[k - 1]);
    NextForward(n, Run(n, before), early, now[k - 1], i);
    SafeFactsAt(n, Run(n, now), late, i);
  }

  // ---- What an accepted append means ----

  /** Follower commit: an append carries its sender's whole log from the previous index on
      and announces no commit index beyond that, so a follower that accepts it has exactly
      those entries, and its commit index does not pass the prefix just checked, unless the
      append came too late to change anything. */
  lemma AcceptedAppend(n: nat, events: seq<Event>, k: nat)
    requires NoAckCut(n, events + [Deliver(k)])
    requires var c := Run(n, events); k < |c.sent| && c.sent[k].msg.Append? && c.sent[k].dst < n
    ensures var c := Run(n, events);
            var ae := c.sent[k].msg;
            var s := At(n, events, |events|, c.sent[k].dst);
            var s' := At(n, events + [Deliver(k)], |events| + 1, c.sent[k].dst);
            && ae.leaderCommit <= AppendEnd(ae)
            && (ae.term < s.term ==> s' == s)
            && (s.term <= ae.term && PrevMatches(s, ae) ==> Took(s, s', ae))
  {
    hide Safe;
    hide Inv;
    hide HistoryOk;
    hide ServerOk;
    hide SafeServer;
    hide PacketOk;
    hide SafePacket;
    hide RecvAppend;
    hide CutsAcked;
    hide Took;
    var all := events + [Deliver(k)];
    assert all[..|all| - 1] == events && events[..|events|] == events && all[..|all|] == all;
    var c := Run(n, events);
    ServersStay(n, events);
    ServersStay(n, all);
    var h := RunIsSafe(n, events);
    SafeDelivery(n, c, h, k);
    SafeFacts(n, c, h, c.sent[k].dst);
    UncutIsHarmless(n, c, h, k);
    AppendSent(n, h, c.sent[k]);
    assert Run(n, all) == Next(c, Deliver(k));
    AcceptedAppendAt(n, h, c.sent, c.servers[c.sent[k].dst], c.sent[k]);
  }

  /** The effect of an accepted append. */
  predicate Took(s: Server, s': Server, ae: Message)
    requires ae.Append?
  {
    && AppendEnd(ae) <= |s'.log|
    && s'.log[ae.prevIdx..AppendEnd(ae)] == ae.entries
    && s'.commitIdx == Max(s.commitIdx, ae.leaderCommit)
    && (s'.commitIdx <= AppendEnd(ae) || (s'.log == s.log && s'.commitIdx == s.commitIdx))
  }

  lemma AcceptedAppendAt(n: nat, h: History, sent: seq<Packet>, s: Server, p: Packet)
    requires HistoryOk(n, h) && BallotsKeep(h) && AckedOk(n, h) && ServerOk(n, h, sent, s)
    requires ReignsOk(h, s) && Derived(h.reigns, s.log) && SafeServer(n, h, s)
    requires p.msg.Append? && PacketOk(n, h, p) && AppendOk(h, p) && SafePacket(n, h, p) && p.dst == s.me && s.me < n
    requires Harmless(h, s, p.msg)
    ensures var ae := p.msg;
            var s' := RecvAppend(s, p.src, ae).server;
            && ae.leaderCommit <= AppendEnd(ae)
            && (ae.term < s.term ==> s' == s)
            && (s.term <= ae.term && PrevMatches(s, ae) ==>
                  && Took(s, s', ae) && (Acked(h, s.me, ae.term) <= AppendEnd(ae) ==> s'.commitIdx <= AppendEnd(ae)))
  {
    hide HistoryOk;
    hide BallotsKeep;
    hide AckedOk;
    hide ServerOk;
    hide ReignsOk;
    hide Derived;
    hide PacketOk;
    hide MergeEntries;
    hide AppendAtTerm;
    hide KeepsAcked;
    hide CommitSound;
    var ae := p.msg;
    if s.term <= ae.term && PrevMatches(s, ae) {
      var s1 := Settled(s, ae.term);
      SettledOk(n, h, sent, s, p);
      SettledSafe(n, h, s, ae.term);
      SettledData(s, ae.term);
      HarmlessSettled(n, h, s, ae);
      var l := h.reigns[ae.term].log;
      if Acked(h, s.me, ae.term) <= AppendEnd(ae) {
        MergeIsQuiet(n, h, s1, p);
        AcceptQuiet(s1, p.src, ae);
        var m := MergeEntries(s1, ae.prevIdx, ae.entries).log;
        assert m[ae.prevIdx..AppendEnd(ae)] == l[..AppendEnd(ae)][ae.prevIdx..];
      } else {
        LateQuiet(n, h, s1, p);
        HasAcked(n, h, s1);
        var a := Acked(h, s.me, ae.term);
        assert s.log[ae.prevIdx..AppendEnd(ae)] == l[..a][ae.prevIdx..AppendEnd(ae)] == l[ae.prevIdx..AppendEnd(ae)];
      }
    }
  }
}
