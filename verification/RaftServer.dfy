/** The Raft server as module/raft/src/raft_server.c keeps it: one object whose handlers
    update it in place.  Every handler does to the object exactly what the function of the
    same name in RaftProtocol does to its view.
 */
module RaftServers {
  import opened RaftProtocol
  import opened RaftLogs
  import P = RaftProtocol

  lemma Reassociate(out: seq<Packet>, p: Packet, rest: seq<Packet>)
    ensures out + ([p] + rest) == (out + [p]) + rest
  {
  }

  /** The entries before position `i` are all acceptable. */
  ghost predicate AcceptedUpTo(entries: seq<Entry>, i: nat)
    requires i <= |entries|
  {
    AcceptableEntries(entries) == entries[..i] + AcceptableEntries(entries[i..])
  }

  lemma AcceptNone(entries: seq<Entry>)
    ensures AcceptedUpTo(entries, 0)
  {
    assert entries[0..] == entries;
  }

  lemma AcceptOneMore(entries: seq<Entry>, i: nat)
    requires i < |entries| && entries[i].id != 0 && AcceptedUpTo(entries, i)
    ensures AcceptedUpTo(entries, i + 1)
  {
    UnfoldAcceptable(entries, i);
    hide AcceptableEntries;
    MoveAcross(entries[..i], entries[i], AcceptableEntries(entries[i + 1..]), entries[..i + 1]);
  }

  lemma UnfoldAcceptable(entries: seq<Entry>, i: nat)
    requires i < |entries| && entries[i].id != 0
    ensures AcceptableEntries(entries[i..]) == [entries[i]] + AcceptableEntries(entries[i + 1..])
  {
    assert entries[i..][1..] == entries[i + 1..];
  }

  lemma MoveAcross(a: seq<Entry>, e: Entry, b: seq<Entry>, a': seq<Entry>)
    requires a' == a + [e]
    ensures a + ([e] + b) == a' + b
  {
  }

  lemma AcceptEnds(entries: seq<Entry>, i: nat)
    requires i <= |entries| && AcceptedUpTo(entries, i) && (i < |entries| ==> entries[i].id == 0)
    ensures AcceptableEntries(entries) == entries[..i]
  {
    assert AcceptableEntries(entries[i..]) == [];
  }

  class RaftServer {
    const me: nat
    var nodes: seq<Peer>
    var term: nat
    var votedFor: int
    const log: RaftLog
    var commitIdx: nat
    var appliedIdx: nat
    var applied: seq<Entry>
    var role: Role
    var leader: int
    var fired: set<nat>

    ghost predicate Valid()
      reads this, log, log.entries
    {
      log.Valid() && me < |nodes|
    }

    ghost function View(): (s: Server)
      requires Valid()
      reads this, log, log.entries
    {
      Server(me, nodes, term, votedFor, log.Contents(), commitIdx, appliedIdx, applied, role, leader, fired)
    }

    /** raft_new, then raft_add_node for each of `n` members. */
    constructor (me: nat, n: nat)
      requires me < n
      ensures Valid() && View() == NewServer(me, n) && fresh(log) && fresh(log.entries)
    {
      this.me := me;
      nodes := seq(n, i => Peer(1, 0, false));
      term, votedFor := 0, NOBODY;
      log := new RaftLog();
      commitIdx, appliedIdx, applied := 0, 0, [];
      role, leader, fired := Follower, NOBODY, {};
    }

    /** An assert of the source. */
    method Assert(ok: bool, line: nat)
      requires Valid()
      modifies this`fired
      ensures View() == Check(old(View()), ok, line)
    {
      if !ok {
        fired := fired + {line};
      }
    }

    method SetCurrentTerm(t: nat)
      requires Valid()
      modifies this`term, this`votedFor
      ensures View() == SetTerm(old(View()), t)
    {
      if term < t {
        term := t;
        votedFor := NOBODY;
      }
    }

    method SetCommitIdx(idx: nat)
      requires Valid()
      modifies this`commitIdx, this`fired
      ensures View() == SetCommit(old(View()), idx)
    {
      Assert(commitIdx <= idx, 98);
      Assert(idx <= log.count, 99);
      commitIdx := idx;
    }

    // ---- Sending ----

    /** raft_send_appendentries. */
    method SendAppendEntries(j: nat) returns (p: Packet)
      requires Valid() && j < |nodes|
      ensures p == AppendFor(View(), j)
    {
      var next: Index := nodes[j].nextIdx;
      var entries := log.GetFrom(next);
      var prevIdx, prevTerm := 0, 0;
      if 1 < next {
        var prev := log.GetAt(next - 1);
        prevIdx := next - 1;
        if prev.Some? {
          prevTerm := prev.value.term;
        }
      }
      p := Packet(me, j, Append(term, prevIdx, prevTerm, commitIdx, entries));
    }

    /** The loops of raft_become_leader, raft_recv_entry and raft_send_appendentries_all. */
    method SendToPeers(all: bool) returns (out: seq<Packet>)
      requires Valid()
      ensures out == AppendsFrom(View(), 0, all)
    {
      hide AppendFor;
      ghost var v := View();
      ghost var rest := AppendsFrom(v, 0, all);
      out := [];
      var i := 0;
      while i < |nodes|
        invariant i <= |nodes| && v == View()
        invariant rest == AppendsFrom(v, i, all)
        invariant AppendsFrom(v, 0, all) == out + rest
      {
        ghost var rest' := AppendsFrom(v, i + 1, all);
        if i != me && (all || nodes[i].nextIdx == log.count) {
          var p := SendAppendEntries(i);
          Reassociate(out, p, rest');
          out := out + [p];
        } else {
          assert [] + rest' == rest';
        }
        rest := rest';
        i := i + 1;
      }
    }

    method SendVoteRequests() returns (out: seq<Packet>)
      requires Valid()
      ensures out == VoteRequestsFrom(View(), 0)
    {
      ghost var v := View();
      ghost var rest := VoteRequestsFrom(v, 0);
      out := [];
      var i := 0;
      while i < |nodes|
        invariant i <= |nodes| && v == View()
        invariant rest == VoteRequestsFrom(v, i)
        invariant VoteRequestsFrom(v, 0) == out + rest
      {
        ghost var rest' := VoteRequestsFrom(v, i + 1);
        if i != me {
          var lastTerm := LastLogTerm();
          var p := Packet(me, i, RequestVote(term, me, log.count, lastTerm));
          Reassociate(out, p, rest');
          out := out + [p];
        } else {
          assert [] + rest' == rest';
        }
        rest := rest';
        i := i + 1;
      }
    }

    /** raft_get_last_log_term. */
    method LastLogTerm() returns (t: nat)
      requires Valid()
      ensures t == LastTerm(View().log)
    {
      t := 0;
      if 0 < log.count {
        var e := log.GetAt(log.count);
        t := e.value.term;
      }
    }

    // ---- Elections ----

    method BecomeCandidate() returns (out: seq<Packet>)
      requires Valid()
      modifies this
      ensures Valid() && Outcome(View(), out) == P.BecomeCandidate(old(View()))
    {
      SetCurrentTerm(term + 1);
      var i := 0;
      ghost var before := nodes;
      while i < |nodes|
        invariant i <= |nodes| == |before| && Valid()
        invariant View() == old(View()).(term := old(term) + 1, votedFor := NOBODY, peers := nodes)
        invariant forall k :: 0 <= k < i ==> nodes[k] == before[k].(votedForMe := false)
        invariant forall k :: i <= k < |nodes| ==> nodes[k] == before[k]
      {
        nodes := nodes[i := nodes[i].(votedForMe := false)];
        i := i + 1;
      }
      votedFor := me;
      leader := NOBODY;
      role := Candidate;
      assert nodes == P.BecomeCandidate(old(View())).server.peers;
      out := SendVoteRequests();
    }

    method BecomeLeader() returns (out: seq<Packet>)
      requires Valid()
      modifies this
      ensures Valid() && Outcome(View(), out) == P.BecomeLeader(old(View()))
    {
      role := Leader;
      leader := me;
      var i := 0;
      ghost var before := nodes;
      while i < |nodes|
        invariant i <= |nodes| == |before| && Valid()
        invariant View() == old(View()).(role := Leader, leader := me, peers := nodes)
        invariant forall k :: 0 <= k < i ==> nodes[k] == LeaderPeers(old(View()))[k]
        invariant forall k :: i <= k < |nodes| ==> nodes[k] == before[k]
      {
        if i != me {
          nodes := nodes[i := nodes[i].(nextIdx := log.count + 1, matchIdx := 0)];
        }
        i := i + 1;
      }
      assert nodes == LeaderPeers(old(View()));
      out := SendToPeers(true);
    }

    /** __should_grant_vote. */
    method ShouldGrantVote(rv: Message) returns (grant: bool)
      requires Valid() && rv.RequestVote?
      ensures grant == ShouldGrant(View(), rv)
    {
      if rv.term < term || votedFor != NOBODY {
        return false;
      }
      if log.count == 0 {
        return true;
      }
      var e := log.GetAt(log.count);
      if e.value.term < rv.lastLogTerm {
        return true;
      }
      return rv.lastLogTerm == e.value.term && log.count <= rv.lastLogIdx;
    }

    method RecvRequestVote(from: nat, rv: Message) returns (out: seq<Packet>)
      requires Valid() && rv.RequestVote?
      modifies this
      ensures Valid() && Outcome(View(), out) == P.RecvRequestVote(old(View()), from, rv)
    {
      if term < rv.term {
        SetCurrentTerm(rv.term);
        role := Follower;
      }
      var grant := ShouldGrantVote(rv);
      if grant {
        Assert(role.Follower?, 447);
        votedFor := rv.candidate;
        leader := NOBODY;
      }
      out := [Packet(me, from, VoteResponse(term, grant))];
    }

    /** raft_get_nvotes_for_me. */
    method VotesForMe() returns (votes: nat)
      requires Valid()
      ensures votes == VotesFrom(View(), 0)
    {
      votes := 0;
      var i := 0;
      while i < |nodes|
        invariant i <= |nodes| && votes + VotesFrom(View(), i) == VotesFrom(View(), 0)
      {
        if i != me && nodes[i].votedForMe {
          votes := votes + 1;
        }
        i := i + 1;
      }
      if votedFor == me {
        votes := votes + 1;
      }
    }

    method RecvVoteResponse(from: nat, r: Message) returns (out: seq<Packet>)
      requires Valid() && r.VoteResponse? && from < |nodes|
      modifies this
      ensures Valid() && Outcome(View(), out) == P.RecvVoteResponse(old(View()), from, r)
    {
      out := [];
      if !role.Candidate? {
        return;
      }
      if term < r.term {
        SetCurrentTerm(r.term);
        role := Follower;
        return;
      }
      if term != r.term {
        return;
      }
      if r.granted {
        nodes := nodes[from := nodes[from].(votedForMe := true)];
        var votes := VotesForMe();
        if IsMajority(|nodes|, votes) {
          out := BecomeLeader();
        }
      }
    }

    // ---- Log replication ----

    /** Lines 347-362: step over the entries that are already there; a conflicting one and
        everything after it are deleted. */
    method SkipMatching(prev: nat, entries: seq<Entry>) returns (i: nat)
      requires Valid() && prev <= log.count
      modifies this`fired, log
      ensures Valid() && log.entries == old(log.entries)
      ensures i == MatchingEntries(old(View()).log, prev, entries)
      ensures i <= |entries| && prev + i <= |old(View()).log|
      ensures View() == if i < |entries| && prev + i < |old(View()).log|
                        then Check(old(View()), old(commitIdx) < prev + i + 1, 356).(log := old(View()).log[..prev + i])
                        else old(View())
    {
      ghost var v := View();
      i := 0;
      while i < |entries|
        invariant i <= |entries| && Valid() && View() == v && prev + i <= log.count && log.entries == old(log.entries)
        invariant MatchingEntries(v.log, prev, entries) == i + MatchingEntries(v.log, prev + i, entries[i..])
      {
        var existing := log.GetAt(prev + 1 + i);
        if existing.None? {
          return;
        }
        if existing.value.term != entries[i].term {
          Assert(commitIdx < prev + 1 + i, 356);
          log.Delete(prev + 1 + i);
          return;
        }
        assert entries[i..][1..] == entries[i + 1..];
        i := i + 1;
      }
    }

    /** Lines 365-372: append the rest, up to an entry the log refuses. */
    method AppendRest(entries: seq<Entry>) returns (ok: bool)
      requires Valid()
      modifies log, log.entries
      ensures Valid() && (log.entries == old(log.entries) || fresh(log.entries))
      ensures View() == old(View()).(log := old(View()).log + AcceptableEntries(entries))
      ensures ok == (|AcceptableEntries(entries)| == |entries|)
    {
      hide AcceptedUpTo;
      ghost var v := View();
      var i := 0;
      AcceptNone(entries);
      while i < |entries|
        invariant i <= |entries| && Valid() && (log.entries == old(log.entries) || fresh(log.entries))
        invariant View() == v.(log := v.log + entries[..i])
        invariant AcceptedUpTo(entries, i)
      {
        var e := log.AppendEntry(entries[i]);
        if e == -1 {
          AcceptEnds(entries, i);
          return false;
        }
        AcceptOneMore(entries, i);
        assert v.log + entries[..i + 1] == v.log + entries[..i] + [entries[i]];
        i := i + 1;
      }
      AcceptEnds(entries, i);
      return true;
    }

    /** Lines 339-372. */
    method MergeEntries(prev: nat, entries: seq<Entry>) returns (ok: bool)
      requires Valid() && prev <= log.count
      modifies this`fired, log, log.entries
      ensures Valid() && (log.entries == old(log.entries) || fresh(log.entries))
      ensures View() == P.MergeEntries(old(View()), prev, entries)
      ensures ok == (prev + |entries| <= |View().log|)
    {
      if |entries| == 0 && 0 < prev && prev + 1 < log.count {
        Assert(commitIdx < prev + 1, 341);
        log.Delete(prev + 1);
      }
      var i := SkipMatching(prev, entries);
      ok := AppendRest(entries[i..]);
      assert i == |entries| ==> AcceptableEntries(entries[i..]) == [];
    }

    /** raft_recv_appendentries after the terms are settled. */
    method AppendAtTerm(from: nat, ae: Message) returns (out: seq<Packet>)
      requires Valid() && ae.Append?
      modifies this, log, log.entries
      ensures Valid() && (log.entries == old(log.entries) || fresh(log.entries))
      ensures Outcome(View(), out) == P.AppendAtTerm(old(View()), from, ae)
    {
      hide P.MergeEntries;
      hide P.AcceptAppend;
      if 0 < ae.prevIdx {
        var e := log.GetAt(ae.prevIdx);
        if e.None? {
          return [Packet(me, from, AppendResponse(term, false, log.count, 0))];
        }
        if e.value.term != ae.prevTerm {
          Assert(commitIdx < ae.prevIdx, 328);
          log.Delete(ae.prevIdx);
          return [Packet(me, from, AppendResponse(term, false, ae.prevIdx - 1, 0))];
        }
      }
      var ok := MergeEntries(ae.prevIdx, ae.entries);
      if !ok {
        return [Packet(me, from, AppendResponse(term, false, log.count, 0))];
      }
      out := AcceptAppend(from, ae);
    }

    /** Lines 374-387. */
    method AcceptAppend(from: nat, ae: Message) returns (out: seq<Packet>)
      requires Valid() && ae.Append?
      modifies this
      ensures Valid() && Outcome(View(), out) == P.AcceptAppend(old(View()), from, ae)
    {
      if commitIdx < ae.leaderCommit {
        SetCommitIdx(Min(Max(log.count, 1), ae.leaderCommit));
      }
      leader := from;
      out := [Packet(me, from, AppendResponse(term, true, ae.prevIdx + |ae.entries|, ae.prevIdx + 1))];
    }

    method RecvAppend(from: nat, ae: Message) returns (out: seq<Packet>)
      requires Valid() && ae.Append?
      modifies this, log, log.entries
      ensures Valid() && (log.entries == old(log.entries) || fresh(log.entries))
      ensures Outcome(View(), out) == P.RecvAppend(old(View()), from, ae)
    {
      hide P.AppendAtTerm;
      if role.Candidate? && term == ae.term {
        votedFor := NOBODY;
        role := Follower;
      } else if term < ae.term {
        SetCurrentTerm(ae.term);
        role := Follower;
      } else if ae.term < term {
        return [Packet(me, from, AppendResponse(term, false, log.count, 0))];
      }
      out := AppendAtTerm(from, ae);
    }

    /** Lines 235-251. */
    method CountAcks(point: nat) returns (votes: nat, inLog: bool)
      requires Valid()
      ensures votes == 1 + AcksFrom(View(), point, 0) && inLog == MatchesInLog(View())
    {
      votes, inLog := 1, true;
      var i := 0;
      while i < |nodes|
        invariant i <= |nodes| && votes + AcksFrom(View(), point, i) == 1 + AcksFrom(View(), point, 0)
        invariant inLog == forall j :: 0 <= j < i && j != me ==> nodes[j].matchIdx <= log.count
      {
        if i != me && 0 < nodes[i].matchIdx {
          var e := log.GetAt(nodes[i].matchIdx);
          if e.None? {
            inLog := false;
          } else if e.value.term == term && point <= nodes[i].matchIdx {
            votes := votes + 1;
          }
        }
        i := i + 1;
      }
    }

    method RecvAppendResponse(from: nat, r: Message) returns (out: seq<Packet>)
      requires Valid() && r.AppendResponse? && from < |nodes|
      modifies this
      ensures Valid() && Outcome(View(), out) == P.RecvAppendResponse(old(View()), from, r)
    {
      out := [];
      if r.currentIdx != 0 && r.currentIdx <= nodes[from].matchIdx {
        return;
      }
      if !role.Leader? {
        return;
      }
      if term < r.term {
        SetCurrentTerm(r.term);
        role := Follower;
        return;
      }
      if term != r.term {
        return;
      }
      if !r.success {
        out := BackOff(from, r.currentIdx);
      } else {
        out := Acknowledge(from, r.currentIdx);
      }
    }

    method BackOff(from: nat, currentIdx: nat) returns (out: seq<Packet>)
      requires Valid() && from < |nodes|
      modifies this
      ensures Valid() && Outcome(View(), out) == P.BackOff(old(View()), from, currentIdx)
    {
      var next: int := nodes[from].nextIdx;
      if currentIdx < next - 1 {
        nodes := nodes[from := nodes[from].(nextIdx := ClampIndex(Min(currentIdx + 1, log.count)))];
      } else {
        nodes := nodes[from := nodes[from].(nextIdx := ClampIndex(next - 1))];
      }
      var p := SendAppendEntries(from);
      out := [p];
    }

    /** Lines 234-254. */
    method AdvanceCommit(point: nat)
      requires Valid()
      modifies this`commitIdx, this`fired
      ensures Valid() && View() == P.AdvanceCommit(old(View()), point)
    {
      hide AcksFrom;
      var votes, inLog := CountAcks(point);
      Assert(inLog, 248);
      if |nodes| / 2 < votes && commitIdx < point {
        SetCommitIdx(point);
      }
    }

    method Acknowledge(from: nat, currentIdx: nat) returns (out: seq<Packet>)
      requires Valid() && from < |nodes|
      modifies this
      ensures Valid() && Outcome(View(), out) == P.Acknowledge(old(View()), from, currentIdx)
    {
      hide AppendFor;
      hide P.AdvanceCommit;
      Assert(currentIdx <= log.count, 218);
      nodes := nodes[from := nodes[from].(nextIdx := currentIdx + 1, matchIdx := currentIdx)];
      AdvanceCommit(currentIdx);
      out := [];
      var e := log.GetAt(nodes[from].nextIdx);
      if e.Some? {
        var p := SendAppendEntries(from);
        out := [p];
      }
    }

    method RecvEntry(id: nat, data: int) returns (out: seq<Packet>)
      requires Valid()
      modifies this, log, log.entries
      ensures Valid() && (log.entries == old(log.entries) || fresh(log.entries))
      ensures Outcome(View(), out) == P.RecvEntry(old(View()), id, data)
    {
      if !role.Leader? {
        return [];
      }
      var rc := log.AppendEntry(Entry(term, id, data));
      out := SendToPeers(false);
      if |nodes| == 1 {
        commitIdx := log.count;
      }
    }

    // ---- Applying ----

    method ApplyEntry() returns (rc: int)
      requires Valid()
      modifies this`appliedIdx, this`applied
      ensures Valid() && View() == P.ApplyEntry(old(View()))
      ensures rc == if View() == old(View()) then -1 else 0
    {
      if appliedIdx == commitIdx {
        return -1;
      }
      var e := log.GetAt(appliedIdx + 1);
      if e.None? {
        return -1;
      }
      appliedIdx := appliedIdx + 1;
      applied := applied + [e.value];
      rc := 0;
    }

    /** raft_apply_all.  The loop ends because the log reaches the commit index; every entry
        up to there is applied once, in order. */
    method ApplyAll()
      requires Valid() && commitIdx <= log.count
      modifies this`appliedIdx, this`applied
      ensures Valid()
      ensures View() == old(View()).(appliedIdx := Max(old(appliedIdx), commitIdx), applied := applied)
      ensures applied == old(applied)
                       + (if old(appliedIdx) < commitIdx then View().log[old(appliedIdx)..commitIdx] else [])
    {
      ghost var start := appliedIdx;
      while appliedIdx < commitIdx
        invariant Valid() && start <= appliedIdx <= Max(start, commitIdx)
        invariant View() == old(View()).(appliedIdx := appliedIdx, applied := applied)
        invariant applied == old(applied) + (if start < appliedIdx then View().log[start..appliedIdx] else [])
        decreases commitIdx - appliedIdx
      {
        var rc := ApplyEntry();
      }
    }

    method Periodic(timedOut: bool) returns (out: seq<Packet>)
      requires Valid()
      modifies this
      ensures Valid() && Outcome(View(), out) == P.Periodic(old(View()), timedOut)
    {
      out := [];
      if role.Leader? {
        if timedOut {
          out := SendToPeers(true);
        }
      } else if timedOut {
        if 1 < |nodes| {
          out := BecomeCandidate();
        }
      }
      if appliedIdx < commitIdx {
        var rc := ApplyEntry();
      }
    }
  }
}
