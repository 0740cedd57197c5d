/** What an append of a term's leader does to a follower's log. */
module RaftMerge {
  import opened RaftProtocol
  import opened RaftCluster
  import opened RaftHistory

  // ---- Log matching ----

  /** Two logs with equal terms at a position are equal up to that position. */
  lemma AgreeAtTerm(reigns: map<nat, Reign>, a: seq<Entry>, b: seq<Entry>, i: nat)
    requires Derived(reigns, a) && Derived(reigns, b)
    requires i < |a| && i < |b| && a[i].term == b[i].term
    ensures a[..i + 1] == b[..i + 1]
  {
    assert Rooted(reigns, a, i) && Rooted(reigns, b, i);
  }

  /** Entries that already match by term match outright. */
  lemma {:induction false} MatchingIsEqual(reigns: map<nat, Reign>, log: seq<Entry>, prev: nat, l: seq<Entry>, end: nat)
    requires Derived(reigns, log) && Derived(reigns, l)
    requires prev <= |log| && prev <= end <= |l|
    requires log[..prev] == l[..prev]
    ensures var k := MatchingEntries(log, prev, l[prev..end]);
            && prev + k <= |log| && prev + k <= end
            && log[..prev + k] == l[..prev + k]
            && (prev + k < end && prev + k < |log| ==> log[prev + k].term != l[prev + k].term)
    decreases end - prev
  {
    var entries := l[prev..end];
    if |entries| == 0 || |log| <= prev || log[prev].term != entries[0].term {
    } else {
      AgreeAtTerm(reigns, log, l, prev);
      assert entries[1..] == l[prev + 1..end];
      MatchingIsEqual(reigns, log, prev + 1, l, end);
    }
  }

  lemma {:induction false} AllAcceptable(entries: seq<Entry>)
    requires forall i :: 0 <= i < |entries| ==> entries[i].id != 0
    ensures AcceptableEntries(entries) == entries
  {
    if |entries| > 0 {
      AllAcceptable(entries[1..]);
    }
  }

  /** What raft_recv_appendentries makes of the log, given that the append carries the
      leader's log `l` up to `prev + |entries|` and the follower agrees up to `prev`. */
  function MergedLog(log: seq<Entry>, prev: nat, n: nat, l: seq<Entry>): seq<Entry>
    requires prev <= |log| && prev + n <= |l|
  {
    if n == 0 && 0 < prev && prev + 1 < |log| then log[..prev]
    else if l[..prev + n] <= log then log
    else l[..prev + n]
  }

  lemma MergeValue(s: Server, prev: nat, entries: seq<Entry>, k: nat)
    requires prev <= |s.log| && 0 < |entries| && k == MatchingEntries(s.log, prev, entries)
    requires prev + k <= |s.log|
    requires AcceptableEntries(entries[k..]) == entries[k..]
    ensures MergeEntries(s, prev, entries).log
            == if k == |entries| then s.log else s.log[..prev + k] + entries[k..]
  {
  }

  lemma MergeNothing(s: Server, prev: nat)
    requires prev <= |s.log|
    ensures MergeEntries(s, prev, []).log == if 0 < prev && prev + 1 < |s.log| then s.log[..prev] else s.log
  {
  }

  lemma ReplaceTail(log: seq<Entry>, l: seq<Entry>, prev: nat, end: nat, k: nat)
    requires prev + k <= |log| && prev + k < end <= |l|
    requires log[..prev + k] == l[..prev + k]
    requires prev + k < |log| ==> log[prev + k] != l[prev + k]
    ensures !(l[..end] <= log)
    ensures log[..prev + k] + l[prev..end][k..] == l[..end]
  {
    assert prev + k < |log| ==> log[prev + k] != l[..end][prev + k];
  }

  lemma MergeSomething(reigns: map<nat, Reign>, s: Server, prev: nat, l: seq<Entry>, end: nat)
    requires Derived(reigns, s.log) && Derived(reigns, l)
    requires prev <= |s.log| && prev < end <= |l|
    requires s.log[..prev] == l[..prev]
    requires forall i :: prev <= i < end ==> l[i].id != 0
    ensures MergeEntries(s, prev, l[prev..end]).log == if l[..end] <= s.log then s.log else l[..end]
  {
    hide MergeEntries;
    var entries := l[prev..end];
    var k := MatchingEntries(s.log, prev, entries);
    MatchingIsEqual(reigns, s.log, prev, l, end);
    AllAcceptable(entries[k..]);
    MergeValue(s, prev, entries, k);
    if k < |entries| {
      ReplaceTail(s.log, l, prev, end, k);
    } else {
      assert s.log[..end] == l[..end];
    }
  }

  lemma MergeInstallsLeaderLog(reigns: map<nat, Reign>, s: Server, prev: nat, l: seq<Entry>, end: nat)
    requires Derived(reigns, s.log) && Derived(reigns, l)
    requires prev <= |s.log| && prev <= end <= |l|
    requires s.log[..prev] == l[..prev]
    requires forall i :: 0 <= i < |l| ==> l[i].id != 0
    ensures MergeEntries(s, prev, l[prev..end]).log == MergedLog(s.log, prev, end - prev, l)
  {
    hide MergeEntries;
    if prev == end {
      assert l[prev..end] == [];
      MergeNothing(s, prev);
      assert l[..prev] <= s.log;
    } else {
      MergeSomething(reigns, s, prev, l, end);
    }
  }

  /** The parts of a server that a handler for appends can change besides the log. */
  predicate SameButLog(s: Server, s': Server) {
    s' == s.(log := s'.log, commitIdx := s'.commitIdx, leader := s'.leader, fired := s'.fired)
    && s'.fired <= s.fired + {98, 99, 328, 341, 356}
  }

  predicate IsResponse(s: Server, from: nat, out: seq<Packet>) {
    |out| == 1 && out[0].src == s.me && out[0].dst == from && out[0].msg.AppendResponse? && out[0].msg.term == s.term
  }

  /** The outcome of a rejected append: at most a conflicting suffix is gone. */
  lemma RejectShape(s: Server, from: nat, ae: Message)
    requires ae.Append? && !PrevMatches(s, ae)
    ensures var o := AppendAtTerm(s, from, ae);
            && SameButLog(s, o.server) && o.server.commitIdx == s.commitIdx
            && IsResponse(s, from, o.out) && !o.out[0].msg.success
            && o.server.log == (if |s.log| < ae.prevIdx then s.log else s.log[..ae.prevIdx - 1])
  {
  }

  /** The outcome of an accepted append, in terms of the merged log. */
  lemma AcceptShape(s: Server, from: nat, ae: Message)
    requires ae.Append? && PrevMatches(s, ae)
    requires ae.prevIdx + |ae.entries| <= |MergeEntries(s, ae.prevIdx, ae.entries).log|
    ensures var o := AppendAtTerm(s, from, ae);
            && SameButLog(s, o.server)
            && IsResponse(s, from, o.out) && o.out[0].msg.success
            && o.out[0].msg.currentIdx == ae.prevIdx + |ae.entries|
            && o.server.log == MergeEntries(s, ae.prevIdx, ae.entries).log
  {
  }

  lemma MergeKeeps(s: Server, prev: nat, entries: seq<Entry>)
    requires prev <= |s.log|
    ensures var m := MergeEntries(s, prev, entries); m.me == s.me && m.term == s.term
  {
  }

  /** In either case there is one answer, and the term stays. */
  lemma AppendShape(s: Server, from: nat, ae: Message)
    requires ae.Append?
    ensures var o := AppendAtTerm(s, from, ae);
            && o.server.term == s.term && IsResponse(s, from, o.out)
            && (o.out[0].msg.success ==> o.out[0].msg.currentIdx == ae.prevIdx + |ae.entries|)
  {
    hide MergeEntries;
    if ae.prevIdx <= |s.log| { MergeKeeps(s, ae.prevIdx, ae.entries); }
  }

  /** An append of a term's leader is accepted exactly when the previous entry matches, and
      then the follower's log is the merge of its own with the leader's. */
  lemma AcceptInstallsLeaderLog(n: nat, h: History, s: Server, p: Packet)
    requires p.msg.Append? && AppendOk(h, p) && PrevMatches(s, p.msg)
    requires ReignOk(n, h, p.msg.term) && Derived(h.reigns, s.log)
    ensures var l := h.reigns[p.msg.term].log;
            var end := p.msg.prevIdx + |p.msg.entries|;
            && s.log[..p.msg.prevIdx] == l[..p.msg.prevIdx]
            && MergeEntries(s, p.msg.prevIdx, p.msg.entries).log
               == MergedLog(s.log, p.msg.prevIdx, |p.msg.entries|, l)
            && end <= |MergeEntries(s, p.msg.prevIdx, p.msg.entries).log|
  {
    hide MergeEntries;
    var prev := p.msg.prevIdx;
    var l := h.reigns[p.msg.term].log;
    if 0 < prev {
      AgreeAtTerm(h.reigns, s.log, l, prev - 1);
    }
    MergeInstallsLeaderLog(h.reigns, s, prev, l, prev + |p.msg.entries|);
  }
}
