/** An append that does not cut the log short of what its receiver acknowledged removes nothing
    that was acknowledged or committed. */
module RaftFollower {
  import opened RaftProtocol
  import opened RaftCluster
  import opened RaftHistory
  import opened RaftMerge
  import opened RaftInduction
  import opened RaftCompleteness
  import opened RaftSafety

  // ---- The asserts on the way (lines 98-99, 328, 341, 356) ----

  lemma MergeQuiet(s: Server, prev: nat, entries: seq<Entry>)
    requires prev <= |s.log|
    requires |entries| == 0 ==> s.commitIdx <= prev
    requires s.commitIdx <= prev + MatchingEntries(s.log, prev, entries) || |entries| == 0
    ensures var s' := MergeEntries(s, prev, entries); s' == s.(log := s'.log)
  {
  }

  /** A common prefix of both logs reaches no further than the first conflict. */
  lemma CommonPrefixMatches(reigns: map<nat, Reign>, log: seq<Entry>, prev: nat, l: seq<Entry>, end: nat, c: nat)
    requires Derived(reigns, log) && Derived(reigns, l)
    requires prev <= |log| && prev <= end <= |l| && log[..prev] == l[..prev]
    requires c <= end && c <= |log| && log[..c] == l[..c]
    ensures c <= prev + MatchingEntries(log, prev, l[prev..end])
  {
    hide Derived;
    MatchingIsEqual(reigns, log, prev, l, end);
    var k := MatchingEntries(log, prev, l[prev..end]);
    hide MatchingEntries;
    assert forall i :: 0 <= i < c ==> log[..c][i] == log[i] && l[..c][i] == l[i];
  }

  /** An accepted append whose announced commit index lies in what it carries. */
  lemma AcceptQuiet(s: Server, from: nat, ae: Message)
    requires ae.Append? && PrevMatches(s, ae)
    requires var m := MergeEntries(s, ae.prevIdx, ae.entries);
             m == s.(log := m.log) && AppendEnd(ae) <= |m.log|
    requires ae.leaderCommit <= AppendEnd(ae)
    ensures var o := AppendAtTerm(s, from, ae);
            && o.server == s.(log := MergeEntries(s, ae.prevIdx, ae.entries).log,
                              commitIdx := Max(s.commitIdx, ae.leaderCommit), leader := from)
            && o.out == [Packet(s.me, from, AppendResponse(s.term, true, AppendEnd(ae), ae.prevIdx + 1))]
  {
  }

  lemma RejectQuiet(s: Server, from: nat, ae: Message)
    requires ae.Append? && !PrevMatches(s, ae)
    requires ae.prevIdx <= |s.log| ==> s.commitIdx < ae.prevIdx
    ensures var o := AppendAtTerm(s, from, ae);
            && o.server == s.(log := if |s.log| < ae.prevIdx then s.log else s.log[..ae.prevIdx - 1])
            && IsResponse(s, from, o.out) && !o.out[0].msg.success
  {
  }

  // ---- What the follower committed agrees with the leader ----

  lemma CommittedInReign(n: nat, h: History, s: Server, t: nat)
    requires HistoryOk(n, h) && BallotsKeep(h) && CommitSound(n, h, s)
    requires s.term == t && t in h.reigns && s.commitIdx <= |s.log|
    ensures var r := h.reigns[t];
            && s.commitIdx <= |r.log| && s.log[..s.commitIdx] == r.log[..s.commitIdx]
            && (s.commitIdx <= |r.base| || s.commitIdx <= Acked(h, s.me, t))
  {
    if s.commitIdx != 0 {
      var t1: nat, m: nat :| CommitWitness(n, h, s.me, s.log, s.commitIdx, s.term, t1, m);
      hide HistoryOk;
      hide BallotsKeep;
      if t1 < t {
        LeaderCompleteness(n, h, t1, m, t);
        ReignFacts(n, h, t);
        PrefixAt(h.reigns[t1].log, m, h.reigns[t].base, h.reigns[t].log, s.commitIdx);
      }
    }
  }

  lemma PrefixAt(a: seq<Entry>, m: nat, b: seq<Entry>, l: seq<Entry>, c: nat)
    requires c <= m <= |a| && a[..m] <= b && b <= l
    ensures c <= |b| && a[..c] == l[..c]
  {
    assert a[..c] == a[..m][..c] == b[..m][..c] == b[..c] == l[..c];
  }

  // ---- Accepting ----

  function RecordAck(h: History, v: nat, t: nat, k: nat): History {
    h.(acked := h.acked[(v, t) := k])
  }

  lemma RecordAckStep(n: nat, h: History, v: nat, t: nat, k: nat)
    requires AckedOk(n, h) && v < n && t in h.reigns && v != h.reigns[t].leader && k <= |h.reigns[t].log|
    requires Acked(h, v, t) <= k
    ensures AckStep(h, RecordAck(h, v, t, k), v, t) && AckedOk(n, RecordAck(h, v, t, k))
    ensures Acked(RecordAck(h, v, t, k), v, t) == k
  {
  }

  /** After an accepted append the log keeps all that was ever acknowledged. */
  lemma AcceptKeeps(n: nat, h: History, h': History, v: nat, t0: nat, log: seq<Entry>, log': seq<Entry>, end: nat)
    requires t0 in h.reigns && end <= |h.reigns[t0].log| && |h.reigns[t0].base| <= end
    requires h.reigns[t0].base <= h.reigns[t0].log
    requires h' == RecordAck(h, v, t0, end) && AckStep(h, h', v, t0) && Acked(h', v, t0) == end
    requires KeepsAcked(h, v, log, t0)
    requires h.reigns[t0].log[..end] <= log'
    ensures KeepsAcked(h', v, log', t0)
  {
    forall t, m: nat | t in h'.reigns && t <= t0 && m <= Acked(h', v, t) && m <= |h'.reigns[t].log|
      ensures Keeps(h', log', t, m, t0)
    {
      var l := h.reigns[t0].log;
      if t == t0 {
        PrefixOfPrefix(l, m, l[..end]);
      } else {
        assert Acked(h', v, t) == Acked(h, v, t);
        assert Keeps(h, log, t, m, t0);
        KeepsGrows(h, h', log, t, m, t0, t0);
        if h.reigns[t].log[..m] <= h.reigns[t0].base {
          assert l[..end][..m] == l[..m];
        } else {
          assert Blocked(h', t, m, t0);
        }
      }
    }
  }

  /** After a rejected append the log keeps all that was ever acknowledged. */
  lemma RejectKeeps(n: nat, h: History, v: nat, t0: nat, log: seq<Entry>, log': seq<Entry>, d: nat)
    requires t0 in h.reigns && h.reigns[t0].base <= h.reigns[t0].log
    requires d < |log| && d < |h.reigns[t0].log| && log[d] != h.reigns[t0].log[d] && log' == log[..d]
    requires KeepsAcked(h, v, log, t0)
    ensures KeepsAcked(h, v, log', t0)
  {
    forall t, m: nat | t in h.reigns && t <= t0 && m <= Acked(h, v, t) && m <= |h.reigns[t].log|
      ensures Keeps(h, log', t, m, t0)
    {
      assert Keeps(h, log, t, m, t0);
      var x := h.reigns[t].log[..m];
      if !Blocked(h, t, m, t0) {
        assert x <= h.reigns[t0].log;
        BeforeConflict(x, log, h.reigns[t0].log, d);
      }
    }
  }

  lemma BeforeConflict(x: seq<Entry>, log: seq<Entry>, l: seq<Entry>, d: nat)
    requires x <= log && x <= l && d < |log| && d < |l| && log[d] != l[d]
    ensures x <= log[..d]
  {
    assert forall i :: 0 <= i < |x| ==> x[i] == log[i] && x[i] == l[i];
  }

  // ---- A server that only changes its term, vote or role ----

  predicate SameData(s: Server, s': Server) {
    && s'.me == s.me && s'.log == s.log && s'.commitIdx == s.commitIdx
    && s'.appliedIdx == s.appliedIdx && s'.applied == s.applied && s'.fired == s.fired
  }

  /** Voting records nothing that anyone acknowledged. */
  lemma VoteAckStep(h: History, h': History, i: nat, t0: nat)
    requires Grows(h, h') && h'.reigns == h.reigns && h'.acked == h.acked
    ensures AckStep(h, h', i, t0)
  {
  }

  lemma NoLaterAcks(n: nat, h: History, s: Server)
    requires ReignsOk(h, s) && AckTermsOk(h, s)
    ensures forall t :: t in h.reigns && s.term < t ==> Acked(h, s.me, t) == 0
  {
  }

  lemma SafeQuiet(n: nat, h: History, h': History, s: Server, s': Server)
    requires AckedOk(n, h) && ReignsOk(h, s) && SafeServer(n, h, s)
    requires Grows(h, h') && h'.reigns == h.reigns && h'.acked == h.acked
    requires SameData(s, s') && s.term <= s'.term && !s'.role.Leader?
    ensures SafeServer(n, h', s')
  {
    hide CommitSound;
    VoteAckStep(h, h', s.me, s'.term + 1);
    NoLaterAcks(n, h, s);
    KeepsAckedGrows(n, h, h', s.me, s'.term + 1, s.me, s.log, s.term, s'.term);
    CommitSoundGrows(n, h, h', s.me, s'.term + 1, s, s');
  }

  // ---- An append at a settled follower ----

  /** Line 339 truncates nothing that matters when the append reaches everything acknowledged. */
  lemma MergeIsQuiet(n: nat, h: History, s: Server, p: Packet)
    requires HistoryOk(n, h) && BallotsKeep(h) && Derived(h.reigns, s.log)
    requires CommitSound(n, h, s) && s.commitIdx <= |s.log|
    requires p.msg.Append? && AppendOk(h, p) && PrevMatches(s, p.msg) && s.term == p.msg.term
    requires Acked(h, s.me, s.term) <= AppendEnd(p.msg)
    ensures var m := MergeEntries(s, p.msg.prevIdx, p.msg.entries);
            && m == s.(log := m.log) && h.reigns[s.term].log[..AppendEnd(p.msg)] <= m.log
            && s.commitIdx <= AppendEnd(p.msg)
            && s.log[..s.commitIdx] == h.reigns[s.term].log[..s.commitIdx]
  {
    hide BallotsKeep;
    hide CommitSound;
    hide MergeEntries;
    hide HistoryOk;
    hide ReignOk;
    hide Derived;
    var prev, end, l := p.msg.prevIdx, AppendEnd(p.msg), h.reigns[s.term].log;
    CommittedInReign(n, h, s, s.term);
    ReignFacts(n, h, s.term);
    ReignIsOk(n, h, s.term);
    AcceptInstallsLeaderLog(n, h, s, p);
    CommonPrefixMatches(h.reigns, s.log, prev, l, end, s.commitIdx);
    MergeQuiet(s, prev, p.msg.entries);
    MergedHasPrefix(s.log, prev, |p.msg.entries|, l);
  }

  lemma ReignIsOk(n: nat, h: History, t: nat)
    requires HistoryOk(n, h) && t in h.reigns
    ensures ReignOk(n, h, t)
  {
  }

  lemma MergedHasPrefix(log: seq<Entry>, prev: nat, n: nat, l: seq<Entry>)
    requires prev <= |log| && prev + n <= |l| && log[..prev] == l[..prev]
    ensures l[..prev + n] <= MergedLog(log, prev, n, l)
  {
  }

  lemma AppliedKept(s: Server, log': seq<Entry>)
    requires AppliedOk(s) && s.commitIdx <= |log'| && log'[..s.commitIdx] == s.log[..s.commitIdx]
    ensures s.applied == log'[..s.appliedIdx]
  {
    assert log'[..s.appliedIdx] == log'[..s.commitIdx][..s.appliedIdx] == s.log[..s.commitIdx][..s.appliedIdx];
  }

  /** The commit index after an accepted append is backed by what it already was or by the announcement. */
  lemma AcceptCommits(n: nat, h: History, h': History, s: Server, s': Server, end: nat, lc: nat)
    requires AckStep(h, h', s.me, s.term) && CommitSound(n, h, s) && s.term in h.reigns
    requires end <= |h.reigns[s.term].log| && h.reigns[s.term].log[..end] <= s'.log
    requires s'.me == s.me && s'.term == s.term && s'.commitIdx == Max(s.commitIdx, lc)
    requires s.commitIdx <= end && s.commitIdx <= |s.log| && s.log[..s.commitIdx] == h.reigns[s.term].log[..s.commitIdx]
    requires Announced(n, h, s.term, lc) && lc <= end && end <= Acked(h', s.me, s.term)
    ensures CommitSound(n, h', s')
  {
    var l := h.reigns[s.term].log;
    var c := s'.commitIdx;
    assert s'.log[..c] == l[..end][..c] == l[..c];
    if s.commitIdx < lc {
      var t: nat, m: nat :| AnnounceWitness(n, h, s.term, lc, t, m);
      CommittedGrows(n, h, h', s.me, s.term, t, m);
      PrefixEqual(h.reigns[t].log, h'.reigns[t].log, m, c);
      assert CommitWitness(n, h', s'.me, s'.log, c, s'.term, t, m);
    } else if c != 0 {
      var t: nat, m: nat :| CommitWitness(n, h, s.me, s.log, s.commitIdx, s.term, t, m);
      CommittedGrows(n, h, h', s.me, s.term, t, m);
      PrefixEqual(h.reigns[t].log, h'.reigns[t].log, m, c);
      assert CommitWitness(n, h', s'.me, s'.log, c, s'.term, t, m);
    }
  }

  lemma PrefixEqual(a: seq<Entry>, b: seq<Entry>, m: nat, c: nat)
    requires c <= m <= |a| && m <= |b| && b[..m] == a[..m]
    ensures b[..c] == a[..c]
  {
    assert b[..c] == b[..m][..c] == a[..m][..c];
  }

  /** Accepting an append that reaches everything its receiver acknowledged in its term keeps
      every acknowledged prefix and the soundness of the commit index. */
  lemma SafeAccept(n: nat, h: History, s: Server, p: Packet)
    requires HistoryOk(n, h) && BallotsKeep(h) && AckedOk(n, h) && Derived(h.reigns, s.log)
    requires SafeServer(n, h, s) && s.role.Follower? && s.me == p.dst && s.me < n
    requires p.msg.Append? && AppendOk(h, p) && SafePacket(n, h, p) && PrevMatches(s, p.msg)
    requires s.term == p.msg.term && Acked(h, s.me, s.term) <= AppendEnd(p.msg)
    ensures var h' := RecordAck(h, s.me, s.term, AppendEnd(p.msg));
            var o := AppendAtTerm(s, p.src, p.msg);
            && AckStep(h, h', s.me, s.term) && AckedOk(n, h')
            && SafeServer(n, h', o.server) && SafeOut(n, h', o.out)
            && o.server.term == s.term && o.server.me == s.me
            && AckSent(o.out, s.me, s.term, AppendEnd(p.msg), 0)
  {
    hide HistoryOk;
    hide BallotsKeep;
    hide AckedOk;
    hide Derived;
    hide CommitSound;
    hide KeepsAcked;
    hide MergeEntries;
    hide AppendAtTerm;
    hide AckStep;
    hide Announced;
    var end := AppendEnd(p.msg);
    var h' := RecordAck(h, s.me, s.term, end);
    var o := AppendAtTerm(s, p.src, p.msg);
    ReignFacts(n, h, s.term);
    MergeIsQuiet(n, h, s, p);
    AcceptQuiet(s, p.src, p.msg);
    RecordAckStep(n, h, s.me, s.term, end);
    AcceptKeeps(n, h, h', s.me, s.term, s.log, o.server.log, end);
    AcceptCommits(n, h, h', s, o.server, end, p.msg.leaderCommit);
    CommittedPrefixKept(s.log, h.reigns[s.term].log, o.server.log, end, s.commitIdx);
    AppliedKept(s, o.server.log);
  }

  lemma CommittedPrefixKept(log: seq<Entry>, l: seq<Entry>, log': seq<Entry>, end: nat, c: nat)
    requires c <= end <= |l| && c <= |log| && log[..c] == l[..c] && l[..end] <= log'
    ensures c <= |log'| && log'[..c] == log[..c]
  {
    assert log'[..c] == l[..end][..c];
  }

  // ---- An append that comes late ----

  /** The log has everything acknowledged in its own term. */
  lemma HasAcked(n: nat, h: History, s: Server)
    requires AckedOk(n, h) && KeepsAcked(h, s.me, s.log, s.term) && s.term in h.reigns
    ensures Acked(h, s.me, s.term) <= |h.reigns[s.term].log|
    ensures h.reigns[s.term].log[..Acked(h, s.me, s.term)] <= s.log
  {
    assert Keeps(h, s.log, s.term, Acked(h, s.me, s.term), s.term);
  }

  /** An append that ends before what its receiver acknowledged and does not truncate changes nothing. */
  lemma LateMerge(log: seq<Entry>, prev: nat, k: nat, l: seq<Entry>, a: nat)
    requires prev + k <= a <= |l| && l[..a] <= log && prev <= |log|
    requires !(k == 0 && 0 < prev && prev + 1 < |log|)
    ensures MergedLog(log, prev, k, l) == log
  {
    PrefixOfPrefix(l, prev + k, l[..a]);
  }

  lemma LateCommits(n: nat, h: History, s: Server, s': Server, lc: nat)
    requires AckedOk(n, h) && KeepsAcked(h, s.me, s.log, s.term) && CommitSound(n, h, s) && s.term in h.reigns
    requires s' == s.(commitIdx := Max(s.commitIdx, lc), leader := s'.leader)
    requires Announced(n, h, s.term, lc) && lc <= Acked(h, s.me, s.term)
    ensures CommitSound(n, h, s')
  {
    hide KeepsAcked;
    if s.commitIdx < lc {
      HasAcked(n, h, s);
      var l := h.reigns[s.term].log;
      var t: nat, m: nat :| AnnounceWitness(n, h, s.term, lc, t, m);
      assert s.log[..lc] == l[..Acked(h, s.me, s.term)][..lc] == l[..lc];
      assert CommitWitness(n, h, s'.me, s'.log, lc, s'.term, t, m);
    } else if s.commitIdx != 0 {
      var t: nat, m: nat :| CommitWitness(n, h, s.me, s.log, s.commitIdx, s.term, t, m);
      assert CommitWitness(n, h, s'.me, s'.log, s'.commitIdx, s'.term, t, m);
    }
  }

  lemma LateQuiet(n: nat, h: History, s: Server, p: Packet)
    requires HistoryOk(n, h) && AckedOk(n, h) && Derived(h.reigns, s.log)
    requires KeepsAcked(h, s.me, s.log, s.term)
    requires p.msg.Append? && AppendOk(h, p) && PrevMatches(s, p.msg) && p.msg.leaderCommit <= AppendEnd(p.msg)
    requires s.term == p.msg.term && AppendEnd(p.msg) < Acked(h, s.me, s.term) && !Truncates(s, p.msg)
    ensures var o := AppendAtTerm(s, p.src, p.msg);
            && o.server == s.(commitIdx := Max(s.commitIdx, p.msg.leaderCommit), leader := p.src)
            && o.out == [Packet(s.me, p.src, AppendResponse(s.term, true, AppendEnd(p.msg), p.msg.prevIdx + 1))]
  {
    hide KeepsAcked;
    hide HistoryOk;
    hide ReignOk;
    hide Derived;
    HasAcked(n, h, s);
    ReignIsOk(n, h, s.term);
    AcceptInstallsLeaderLog(n, h, s, p);
    LateMerge(s.log, p.msg.prevIdx, |p.msg.entries|, h.reigns[s.term].log, Acked(h, s.me, s.term));
    SameLogSameServer(s, p.msg.prevIdx, p.msg.entries);
    AcceptQuiet(s, p.src, p.msg);
  }

  /** When the merge leaves the log as it was, no assert was at stake. */
  lemma SameLogSameServer(s: Server, prev: nat, entries: seq<Entry>)
    requires prev <= |s.log| && MergeEntries(s, prev, entries).log == s.log
    requires !(|entries| == 0 && 0 < prev && prev + 1 < |s.log|)
    ensures MergeEntries(s, prev, entries) == s
  {
    MatchingEntriesFit(s.log, prev, entries);
    var k := MatchingEntries(s.log, prev, entries);
    if k < |entries| && prev + k < |s.log| {
      ConflictShows(s, prev, entries);
    }
  }

  /** After a conflict the log is different. */
  lemma ConflictShows(s: Server, prev: nat, entries: seq<Entry>)
    requires prev <= |s.log| && 0 < |entries|
    requires var k := MatchingEntries(s.log, prev, entries); k < |entries| && prev + k < |s.log|
    ensures MergeEntries(s, prev, entries).log != s.log
  {
    MatchingStops(s.log, prev, entries);
    var k := MatchingEntries(s.log, prev, entries);
    hide MatchingEntries;
    var log := s.log[..prev + k] + AcceptableEntries(entries[k..]);
    assert MergeEntries(s, prev, entries).log == log;
    if entries[k].id != 0 {
      assert log[prev + k] == entries[k];
    } else {
      assert |log| == prev + k;
    }
  }

  lemma {:induction false} MatchingStops(log: seq<Entry>, prev: nat, entries: seq<Entry>)
    requires prev <= |log|
    ensures var k := MatchingEntries(log, prev, entries);
            k < |entries| && prev + k < |log| ==> log[prev + k].term != entries[k].term
    decreases |entries|
  {
    if 0 < |entries| && prev < |log| && log[prev].term == entries[0].term {
      MatchingStops(log, prev + 1, entries[1..]);
    }
  }

  /** So does a late one that reaches less, unless line 339 lets it truncate the log. */
  lemma SafeLate(n: nat, h: History, s: Server, p: Packet)
    requires HistoryOk(n, h) && AckedOk(n, h) && Derived(h.reigns, s.log)
    requires SafeServer(n, h, s) && s.role.Follower? && s.me == p.dst
    requires p.msg.Append? && AppendOk(h, p) && SafePacket(n, h, p) && PrevMatches(s, p.msg)
    requires s.term == p.msg.term && AppendEnd(p.msg) < Acked(h, s.me, s.term) && !Truncates(s, p.msg)
    ensures var o := AppendAtTerm(s, p.src, p.msg);
            && SafeServer(n, h, o.server) && SafeOut(n, h, o.out)
            && o.server.term == s.term && o.server.me == s.me
  {
    hide HistoryOk;
    hide AckedOk;
    hide Derived;
    hide CommitSound;
    hide KeepsAcked;
    hide AppendAtTerm;
    hide Announced;
    var o := AppendAtTerm(s, p.src, p.msg);
    LateQuiet(n, h, s, p);
    LateCommits(n, h, s, o.server, p.msg.leaderCommit);
    HasAcked(n, h, s);
  }

  /** No truncation of what was acknowledged: the append reaches that far, or changes nothing. */
  ghost predicate Harmless(h: History, s: Server, ae: Message)
    requires ae.Append?
  {
    ae.term == s.term && PrevMatches(s, ae) && Truncates(s, ae) ==> Acked(h, s.me, s.term) <= ae.prevIdx
  }

  // ---- Rejecting ----

  /** And so does a rejection, with the deletion of a conflicting entry. */
  lemma SafeReject(n: nat, h: History, s: Server, p: Packet)
    requires HistoryOk(n, h) && BallotsKeep(h) && AckedOk(n, h)
    requires SafeServer(n, h, s) && s.role.Follower?
    requires p.msg.Append? && AppendOk(h, p) && !PrevMatches(s, p.msg) && s.term == p.msg.term
    ensures var o := AppendAtTerm(s, p.src, p.msg);
            && SafeServer(n, h, o.server) && SafeOut(n, h, o.out)
            && o.server.term == s.term && o.server.me == s.me
  {
    hide HistoryOk;
    hide BallotsKeep;
    hide AppendAtTerm;
    hide KeepsAcked;
    hide CommitSound;
    var o := AppendAtTerm(s, p.src, p.msg);
    var prev, l := p.msg.prevIdx, h.reigns[s.term].log;
    if |s.log| < prev {
      RejectQuiet(s, p.src, p.msg);
    } else {
      CommittedInReign(n, h, s, s.term);
      ReignFacts(n, h, s.term);
      BeforeConflict(s.log[..s.commitIdx], s.log, l, prev - 1);
      RejectQuiet(s, p.src, p.msg);
      RejectKeeps(n, h, s.me, s.term, s.log, o.server.log, prev - 1);
      RejectCommits(n, h, s, o.server, prev - 1);
    }
  }

  /** Cutting the log behind the commit index changes nothing that is committed. */
  lemma RejectCommits(n: nat, h: History, s: Server, s': Server, d: nat)
    requires AppliedOk(s) && CommitSound(n, h, s) && s.commitIdx <= d <= |s.log|
    requires s' == s.(log := s.log[..d])
    ensures CommitSound(n, h, s') && AppliedOk(s')
  {
    assert s.log[..d][..s.commitIdx] == s.log[..s.commitIdx];
    assert s.log[..d][..s.appliedIdx] == s.log[..s.appliedIdx];
    if s.commitIdx != 0 {
      var t: nat, m: nat :| CommitWitness(n, h, s.me, s.log, s.commitIdx, s.term, t, m);
      assert CommitWitness(n, h, s'.me, s'.log, s'.commitIdx, s'.term, t, m);
    }
  }
}
