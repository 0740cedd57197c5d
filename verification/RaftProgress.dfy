/** What a server must do, and not only what it may do: commit, vote, step down, answer, send and
    apply.  Nothing here is said through the loops and tests of the handlers. */
module RaftProgress {
  import opened RaftProtocol
  import opened RaftCluster
  import opened RaftHistory
  import opened RaftMerge
  import opened RaftInduction
  import opened RaftSafety
  import opened RaftLeader
  import opened RaftPreservation
  import opened RaftTheorems
  import opened RaftBackoff

  // ---- Committing (lines 178-262) ----

  /** The peers whose match index reaches `point` and points at an entry of the current term. */
  ghost function Reached(s: Server, point: nat): set<nat> {
    set j | 0 <= j < |s.peers| && j != s.me && point <= s.peers[j].matchIdx <= |s.log|
            && 0 < s.peers[j].matchIdx && s.log[s.peers[j].matchIdx - 1].term == s.term
  }

  lemma AcksAreReached(s: Server, point: nat)
    ensures AcksFrom(s, point, 0) == |Reached(s, point)|
  {
    AcksAreCounted(s, point, 0);
    assert Reached(s, point) == set k | 0 <= k < |s.peers| && CountsFor(s, point, k);
  }

  /** A success of the leader's own term that is news moves the peer's indices to it; the commit index
      becomes the acknowledged index if and only if that is ahead and a majority has reached it with an
      entry of the current term; and all the peer still lacks is sent at once. */
  lemma CommitsExactly(s: Server, from: nat, r: Message)
    requires from < |s.peers| && s.role.Leader? && r.AppendResponse? && r.success && r.term == s.term
    requires s.peers[from].matchIdx < r.currentIdx
    ensures var o := RecvAppendResponse(s, from, r);
            var s' := o.server;
            && s'.peers == s.peers[from := s.peers[from].(matchIdx := r.currentIdx, nextIdx := r.currentIdx + 1)]
            && s' == s.(peers := s'.peers, commitIdx := s'.commitIdx, fired := s'.fired)
            && s'.commitIdx == (if s.commitIdx < r.currentIdx && |s.peers| / 2 < 1 + |Reached(s', r.currentIdx)|
                                then r.currentIdx else s.commitIdx)
            && o.out == if r.currentIdx < |s.log|
                        then [Packet(s.me, from,
                                     Append(s.term, r.currentIdx, s.log[r.currentIdx - 1].term, s'.commitIdx,
                                            s.log[r.currentIdx..]))]
                        else []
  {
    hide AdvanceCommit, AppendFor, Reached;
    var s1 := Check(s, r.currentIdx <= |s.log|, 218);
    var s2 := s1.(peers := s1.peers[from := s1.peers[from].(nextIdx := r.currentIdx + 1, matchIdx := r.currentIdx)]);
    AdvancesExactly(s2, r.currentIdx);
    var s3 := AdvanceCommit(s2, r.currentIdx);
    assert RecvAppendResponse(s, from, r) ==
           Outcome(s3, if r.currentIdx + 1 <= |s3.log| then [AppendFor(s3, from)] else []);
    ReachedAlike(s2, s3, r.currentIdx);
    if r.currentIdx < |s.log| { SendsRest(s3, from); }
  }

  lemma AdvancesExactly(s: Server, point: nat)
    ensures var s' := AdvanceCommit(s, point);
            && s' == s.(commitIdx := s'.commitIdx, fired := s'.fired)
            && s'.commitIdx == if s.commitIdx < point && |s.peers| / 2 < 1 + |Reached(s, point)| then point
                               else s.commitIdx
  {
    hide AcksFrom, Reached;
    AcksAreReached(s, point);
  }

  lemma ReachedAlike(s: Server, s': Server, point: nat)
    requires s'.peers == s.peers && s'.log == s.log && s'.me == s.me && s'.term == s.term
    ensures Reached(s', point) == Reached(s, point)
  {
  }

  lemma SendsRest(s: Server, j: nat)
    requires j < |s.peers| && 1 < s.peers[j].nextIdx <= |s.log|
    ensures var at := s.peers[j].nextIdx - 1;
            AppendFor(s, j) == Packet(s.me, j, Append(s.term, at, s.log[at - 1].term, s.commitIdx, s.log[at..]))
  {
  }

  /** Whatever set of peers, with the leader a majority, has reached the acknowledged index with an entry
      of the leader's term, it is committed. */
  lemma MajorityCommits(s: Server, from: nat, r: Message, a: set<nat>)
    requires from < |s.peers| && s.role.Leader? && r.AppendResponse? && r.success && r.term == s.term
    requires s.peers[from].matchIdx < r.currentIdx
    requires |s.peers| / 2 < 1 + |a|
    requires var s' := RecvAppendResponse(s, from, r).server;
             forall j :: j in a ==>
               && j < |s'.peers| && j != s.me && r.currentIdx <= s'.peers[j].matchIdx <= |s.log|
               && s.log[s'.peers[j].matchIdx - 1].term == s.term
    ensures r.currentIdx <= RecvAppendResponse(s, from, r).server.commitIdx
  {
    hide RecvAppendResponse;
    CommitsExactly(s, from, r);
    var s' := RecvAppendResponse(s, from, r).server;
    assert a <= Reached(s', r.currentIdx);
    SubsetSize(a, Reached(s', r.currentIdx));
  }

  // ---- Voting (lines 403-465) ----

  /** Term of the last entry and length of log `a` are no better than those of log `b`. */
  predicate NotAhead(a: seq<Entry>, b: seq<Entry>) {
    var x, y := if a == [] then 0 else a[|a| - 1].term, if b == [] then 0 else b[|b| - 1].term;
    x < y || (x == y && |a| <= |b|)
  }

  /** A request for the log `b` is granted if and only if its term is not old, the vote is free in that
      term, and the voter's log is not ahead of `b`. */
  lemma VotesExactly(s: Server, from: nat, rv: Message, b: seq<Entry>)
    requires rv.RequestVote? && rv.lastLogIdx == |b| && rv.lastLogTerm == if b == [] then 0 else b[|b| - 1].term
    ensures var granted := s.term <= rv.term && (s.term < rv.term || s.votedFor == NOBODY) && NotAhead(s.log, b);
            var o := RecvRequestVote(s, from, rv);
            && o.out == [Packet(s.me, from, VoteResponse(Max(s.term, rv.term), granted))]
            && o.server.votedFor == (if granted then rv.candidate else if s.term < rv.term then NOBODY else s.votedFor)
            && o.server.term == Max(s.term, rv.term) && o.server.log == s.log
            && (s.term < rv.term ==> o.server.role.Follower?) && (rv.term <= s.term ==> o.server.role == s.role)
            && o.server.leader == (if granted then NOBODY else s.leader)
            && o.server.peers == s.peers && o.server.commitIdx == s.commitIdx && o.server.applied == s.applied
  {
  }

  // ---- Stepping down ----

  /** A response of a later term makes a candidate or leader a follower of that term, with its vote free. */
  lemma LaterTermStepsDown(s: Server, from: nat, r: Message)
    requires from < |s.peers| && s.term < r.term
    requires (r.VoteResponse? && s.role.Candidate?)
             || (r.AppendResponse? && s.role.Leader? && (r.currentIdx == 0 || s.peers[from].matchIdx < r.currentIdx))
    ensures (if r.VoteResponse? then RecvVoteResponse(s, from, r) else RecvAppendResponse(s, from, r))
            == Outcome(s.(term := r.term, votedFor := NOBODY, role := Follower), [])
  {
  }

  // ---- Answering an append (lines 265-395) ----

  /** The one answer to an append without refused entries: success if and only if its term is not old and
      the entry before it is there; on success the index reached, otherwise where the logs can still
      agree. */
  lemma AnswersExactly(s: Server, from: nat, ae: Message)
    requires ae.Append? && forall k :: 0 <= k < |ae.entries| ==> ae.entries[k].id != 0
    ensures var ok := && s.term <= ae.term && ae.prevIdx <= |s.log|
                      && (0 < ae.prevIdx ==> s.log[ae.prevIdx - 1].term == ae.prevTerm);
            var idx := if ok then ae.prevIdx + |ae.entries|
                       else if ae.term < s.term || |s.log| < ae.prevIdx then |s.log| else ae.prevIdx - 1;
            var o := RecvAppend(s, from, ae);
            && o.out == [Packet(s.me, from,
                                AppendResponse(Max(s.term, ae.term), ok, idx, if ok then ae.prevIdx + 1 else 0))]
            && o.server.term == Max(s.term, ae.term)
            && o.server.role == (if ae.term < s.term || (ae.term == s.term && s.role.Leader?) then s.role else Follower)
            && o.server.votedFor == (if s.term < ae.term || (s.term == ae.term && s.role.Candidate?) then NOBODY
                                     else s.votedFor)
            && o.server.leader == (if ok then from else s.leader)
            && o.server.commitIdx == (if ok && s.commitIdx < ae.leaderCommit
                                      then Min(Max(|o.server.log|, 1), ae.leaderCommit) else s.commitIdx)
  {
    hide MergeEntries;
    var s1 := if s.role.Candidate? && s.term == ae.term then BecomeFollower(s.(votedFor := NOBODY))
              else if s.term < ae.term then BecomeFollower(SetTerm(s, ae.term)) else s;
    if PrevMatches(s1, ae) {
      MergeReaches(s1, ae.prevIdx, ae.entries);
    }
  }

  lemma MergeReaches(s: Server, prev: nat, entries: seq<Entry>)
    requires prev <= |s.log| && forall k :: 0 <= k < |entries| ==> entries[k].id != 0
    ensures var m := MergeEntries(s, prev, entries);
            && prev + |entries| <= |m.log|
            && m == s.(log := m.log, fired := m.fired)
  {
    var s1 := if |entries| == 0 && 0 < prev && prev + 1 < |s.log| then s.(log := s.log[..prev]) else s;
    var k := MatchingEntries(s1.log, prev, entries);
    MatchingEntriesFit(s1.log, prev, entries);
    AllAcceptable(entries[k..]);
  }

  /** How far a rejection moves a leader's next attempt: straight to the end of a log that is too short,
      one entry back otherwise, never below 1; and what is missing from there is sent at once. */
  lemma RetriesExactly(s: Server, from: nat, r: Message)
    requires from < |s.peers| && s.role.Leader? && r.AppendResponse? && !r.success && r.term == s.term
    requires r.currentIdx == 0 || s.peers[from].matchIdx < r.currentIdx
    ensures var next := s.peers[from].nextIdx;
            var to := if r.currentIdx + 1 < next then Min(r.currentIdx + 1, |s.log|) else next - 1;
            var o := RecvAppendResponse(s, from, r);
            && o.server == s.(peers := s.peers[from := s.peers[from].(nextIdx := if to < 1 then 1 else to)])
            && o.out == [AppendFor(o.server, from)]
  {
  }

  /** Responses that are no news, or of an old term, or for a server that does not lead, change nothing. */
  lemma IgnoresRest(s: Server, from: nat, r: Message)
    requires from < |s.peers| && r.AppendResponse?
    requires (0 < r.currentIdx <= s.peers[from].matchIdx) || !s.role.Leader? || r.term < s.term
    ensures RecvAppendResponse(s, from, r) == Outcome(s, [])
  {
  }

  // ---- Sending ----

  /** Entry `e` for peer `j`, that follows the last one of the log. */
  function LastFor(s: Server, j: nat, e: Entry): Packet {
    Packet(s.me, j, Append(s.term, |s.log|, if s.log == [] then 0 else s.log[|s.log| - 1].term, s.commitIdx, [e]))
  }

  predicate LacksOnlyNew(s: Server, j: nat) {
    j < |s.peers| && j != s.me && s.peers[j].nextIdx == |s.log| + 1
  }

  /** A client's entry is sent at once to exactly the peers that lack only it. */
  lemma SendsEntryExactly(s: Server, id: nat, data: int)
    requires s.role.Leader? && id != 0
    ensures var o := RecvEntry(s, id, data);
            var e := Entry(s.term, id, data);
            && o.server == s.(log := s.log + [e], commitIdx := if |s.peers| == 1 then |s.log| + 1 else s.commitIdx)
            && (forall p :: p in o.out ==> LacksOnlyNew(s, p.dst) && p == LastFor(s, p.dst, e))
            && (forall j :: LacksOnlyNew(s, j) ==> LastFor(s, j, e) in o.out)
  {
    hide AppendsFrom, AppendFor;
    var e := Entry(s.term, id, data);
    var s1 := s.(log := s.log + [e]);
    var out := AppendsFrom(s1, 0, false);
    assert RecvEntry(s, id, data).out == out;
    SendsOnly(s1, 0);
    forall p | p in out ensures LacksOnlyNew(s, p.dst) && p == LastFor(s, p.dst, e) {
      assert ToLacking(s1, p);
      LastOnly(s1, p.dst);
    }
    forall j | LacksOnlyNew(s, j) ensures LastFor(s, j, e) in out {
      SendsAlso(s1, 0, j);
      LastOnly(s1, j);
    }
  }

  /** An entry without an id is not stored, and a server that does not lead takes none. */
  lemma TakesNoEntry(s: Server, id: nat, data: int)
    requires !s.role.Leader? || id == 0
    ensures var o := RecvEntry(s, id, data);
            && o.server == s.(commitIdx := if s.role.Leader? && |s.peers| == 1 then |s.log| else s.commitIdx)
            && (!s.role.Leader? ==> o.out == [])
  {
  }

  lemma LastOnly(s: Server, j: nat)
    requires j < |s.peers| && s.peers[j].nextIdx == |s.log|
    ensures AppendFor(s, j) == LastFor(s.(log := s.log[..|s.log| - 1]), j, s.log[|s.log| - 1])
  {
    var at := |s.log| - 1;
    assert s.log[at..] == [s.log[at]];
    assert s.peers[j].nextIdx - 1 == at;
  }

  predicate ToLacking(s: Server, p: Packet) {
    p.dst != s.me && p.dst < |s.peers| && s.peers[p.dst].nextIdx == |s.log| && p == AppendFor(s, p.dst)
  }

  lemma {:induction false} SendsOnly(s: Server, from: nat)
    requires from <= |s.peers|
    ensures forall p :: p in AppendsFrom(s, from, false) ==> ToLacking(s, p)
    decreases |s.peers| - from
  {
    hide AppendFor;
    if from < |s.peers| {
      SendsOnly(s, from + 1);
      AppendForShape(s, from);
    }
  }

  lemma {:induction false} SendsAlso(s: Server, from: nat, j: nat)
    requires from <= j < |s.peers| && j != s.me && s.peers[j].nextIdx == |s.log|
    ensures AppendFor(s, j) in AppendsFrom(s, from, false)
    decreases j - from
  {
    hide AppendFor;
    if from < j { SendsAlso(s, from + 1, j); }
  }

  // ---- Applying (lines 135-157, 600-626) ----

  /** Every tick, of a server of any role, applies the next committed entry if there is one. */
  lemma TickApplies(s: Server, timedOut: bool)
    requires s.appliedIdx <= s.commitIdx <= |s.log|
    ensures var s' := Periodic(s, timedOut).server;
            && s'.log == s.log && s'.commitIdx == s.commitIdx
            && s'.appliedIdx == Min(s.appliedIdx + 1, s.commitIdx)
            && s'.applied == s.applied + s.log[s.appliedIdx..s'.appliedIdx]
  {
  }

  function Ticks(i: nat, k: nat): seq<Event> { seq(k, _ => Tick(i, false)) }

  lemma TicksMany(i: nat, k: nat)
    ensures |Ticks(i, k)| == k && Ticks(i, k + 1) == Ticks(i, k) + [Tick(i, false)]
  {
  }

  lemma OneTick(n: nat, events: seq<Event>, i: nat, k: nat)
    requires i < n && |Run(n, events + Ticks(i, k)).servers| == n
    requires var s := Run(n, events + Ticks(i, k)).servers[i]; s.appliedIdx < s.commitIdx <= |s.log|
    ensures var c := Run(n, events + Ticks(i, k));
            var s := c.servers[i];
            Run(n, events + Ticks(i, k + 1))
            == c.(servers := c.servers[i := s.(appliedIdx := s.appliedIdx + 1,
                                               applied := s.applied + [s.log[s.appliedIdx]])])
  {
    hide Run, Next, Ticks;
    TicksMany(i, k);
    assert events + Ticks(i, k + 1) == events + Ticks(i, k) + [Tick(i, false)];
    RunOneMore(n, events + Ticks(i, k), Tick(i, false));
    TickStep(Run(n, events + Ticks(i, k)), i);
  }

  lemma TickStep(c: Cluster, i: nat)
    requires i < |c.servers|
    requires var s := c.servers[i]; s.appliedIdx < s.commitIdx <= |s.log|
    ensures var s := c.servers[i];
            Next(c, Tick(i, false))
            == c.(servers := c.servers[i := s.(appliedIdx := s.appliedIdx + 1,
                                               applied := s.applied + [s.log[s.appliedIdx]])])
  {
    hide Periodic;
    QuietTick(c.servers[i]);
    assert c.sent + [] == c.sent;
  }

  lemma QuietTick(s: Server)
    requires s.appliedIdx < s.commitIdx <= |s.log|
    ensures Periodic(s, false)
         == Outcome(s.(appliedIdx := s.appliedIdx + 1, applied := s.applied + [s.log[s.appliedIdx]]), [])
  {
  }

  lemma {:induction false} TicksRun(n: nat, events: seq<Event>, i: nat, k: nat)
    requires i < n && |Run(n, events).servers| == n
    requires var s := Run(n, events).servers[i]; s.appliedIdx + k <= s.commitIdx <= |s.log|
    ensures var c, c' := Run(n, events), Run(n, events + Ticks(i, k));
            var s := c.servers[i];
            c' == c.(servers := c.servers[i := s.(appliedIdx := s.appliedIdx + k,
                                                  applied := s.applied + s.log[s.appliedIdx..s.appliedIdx + k])])
  {
    hide Run, Ticks;
    var c := Run(n, events);
    var s := c.servers[i];
    TicksMany(i, k);
    if k == 0 {
      assert events + Ticks(i, 0) == events && c.servers[i := s] == c.servers;
      assert s.applied + s.log[s.appliedIdx..s.appliedIdx + 0] == s.applied;
    } else {
      TicksRun(n, events, i, k - 1);
      OneTick(n, events, i, k - 1);
      assert s.log[s.appliedIdx..s.appliedIdx + k]
          == s.log[s.appliedIdx..s.appliedIdx + (k - 1)] + [s.log[s.appliedIdx + (k - 1)]];
      var s1 := Run(n, events + Ticks(i, k - 1)).servers[i];
      assert s1.applied + [s1.log[s1.appliedIdx]] == s.applied + s.log[s.appliedIdx..s.appliedIdx + k];
      assert c.servers[i := s1] == Run(n, events + Ticks(i, k - 1)).servers;
    }
  }

  /** As many ticks as committed entries wait to be applied, at a server of any role, apply them all, in
      log order, and do nothing else to the cluster. */
  lemma TicksApplyAll(n: nat, events: seq<Event>, i: nat)
    requires i < n && NoAckCut(n, events)
    ensures var c := Run(n, events);
            var s := At(n, events, |events|, i);
            && |c.servers| == n && s.appliedIdx <= s.commitIdx <= |s.log|
            && Run(n, events + Ticks(i, s.commitIdx - s.appliedIdx))
               == c.(servers := c.servers[i := s.(appliedIdx := s.commitIdx, applied := s.log[..s.commitIdx])])
  {
    hide Run;
    ServersStay(n, events);
    NoAssertFires(n, events, i);
    assert events[..|events|] == events;
    var s := Run(n, events).servers[i];
    TicksRun(n, events, i, s.commitIdx - s.appliedIdx);
    assert s.log[..s.appliedIdx] + s.log[s.appliedIdx..s.commitIdx] == s.log[..s.commitIdx];
  }
}
