/** The Raft server as a state machine on values: one function per handler of
    module/raft/src/raft_server.c, over the server record of
    module/raft/include/raft_private.h.

    The voting membership is fixed and node ids are positions in the node list,
    so `peers[i]` is the server's record of node `i` (its own slot included).
    An `assert` of the source does not stop the model: when its condition is
    false the handler adds the assert's source line to `fired` and carries on,
    which is what a build without assertions does.  A later theorem says which
    lines can ever be in `fired`.  The asserts that an index is not negative
    (lines 204 and 207, raft_log.c lines 111 and 137) are met by the type
    `Index`, and those that a node exists and is not the server's own (lines
    576-577 and 638-639) by positions in the node list; they are not recorded.
 */
module RaftProtocol {

  /** Log positions start at 1, and raft_node_set_next_idx never stores less. */
  type Index = i: int | 1 <= i witness 1

  datatype Entry = Entry(term: nat, id: nat, data: int)

  datatype Role = Follower | Candidate | Leader

  datatype Peer = Peer(nextIdx: Index, matchIdx: nat, votedForMe: bool)

  const NOBODY := -1

  datatype Server = Server(
    me: nat,
    peers: seq<Peer>,
    term: nat,
    votedFor: int,
    log: seq<Entry>,
    commitIdx: nat,
    appliedIdx: nat,
    applied: seq<Entry>,   // what the applylog callback was given, in order
    role: Role,
    leader: int,
    fired: set<nat>)

  datatype Message =
    | RequestVote(term: nat, candidate: nat, lastLogIdx: nat, lastLogTerm: nat)
    | VoteResponse(term: nat, granted: bool)
    | Append(term: nat, prevIdx: nat, prevTerm: nat, leaderCommit: nat, entries: seq<Entry>)
    | AppendResponse(term: nat, success: bool, currentIdx: nat, firstIdx: nat)

  datatype Packet = Packet(src: nat, dst: nat, msg: Message)

  datatype Outcome = Outcome(server: Server, out: seq<Packet>)

  function Min(a: int, b: int): int { if a < b then a else b }

  function Max(a: int, b: int): int { if a < b then b else a }

  /** raft_new followed by one raft_add_node per member. */
  function NewServer(me: nat, n: nat): Server {
    Server(me, seq(n, i => Peer(1, 0, false)), 0, NOBODY, [], 0, 0, [], Follower, NOBODY, {})
  }

  // ---- Small steps shared by the handlers ----

  /** An `assert(ok)` of the source at line `line`. */
  function Check(s: Server, ok: bool, line: nat): Server {
    if ok then s else s.(fired := s.fired + {line})
  }

  function LastTerm(log: seq<Entry>): nat {
    if |log| == 0 then 0 else log[|log| - 1].term
  }

  function SetTerm(s: Server, term: nat): Server {
    if s.term < term then s.(term := term, votedFor := NOBODY) else s
  }

  function BecomeFollower(s: Server): Server {
    s.(role := Follower)
  }

  /** raft_set_commit_idx, with its two asserts. */
  function SetCommit(s: Server, idx: nat): Server {
    Check(Check(s, s.commitIdx <= idx, 98), idx <= |s.log|, 99).(commitIdx := idx)
  }

  /** raft_node_set_next_idx: indices below 1 become 1. */
  function ClampIndex(i: int): Index {
    if i < 1 then 1 else i
  }

  /** raft_send_appendentries: everything from the peer's next index on. */
  function AppendFor(s: Server, j: nat): Packet
    requires j < |s.peers|
  {
    var next := s.peers[j].nextIdx;
    var entries := if next <= |s.log| then s.log[next - 1..] else [];
    var prevTerm := if 1 < next && next - 1 <= |s.log| then s.log[next - 2].term else 0;
    Packet(s.me, j, Append(s.term, next - 1, prevTerm, s.commitIdx, entries))
  }

  /** The appends for peers `j`, `j+1`, ..., in node order: for all of them, or only for
      those whose next entry is the last one of the log (lines 543-555). */
  function AppendsFrom(s: Server, j: nat, all: bool): seq<Packet>
    decreases |s.peers| - j
  {
    if j >= |s.peers| then []
    else
      (if j != s.me && (all || s.peers[j].nextIdx == |s.log|) then [AppendFor(s, j)] else [])
      + AppendsFrom(s, j + 1, all)
  }

  /** The vote requests of a new candidate, in node order. */
  function VoteRequestsFrom(s: Server, j: nat): seq<Packet>
    decreases |s.peers| - j
  {
    if j >= |s.peers| then []
    else
      (if j != s.me
       then [Packet(s.me, j, RequestVote(s.term, s.me, |s.log|, LastTerm(s.log)))] else [])
      + VoteRequestsFrom(s, j + 1)
  }

  // ---- Elections ----

  function BecomeCandidate(s: Server): Outcome {
    var s1 := s.(term := s.term + 1,
                 votedFor := s.me,
                 peers := seq(|s.peers|, i requires 0 <= i < |s.peers| => s.peers[i].(votedForMe := false)),
                 leader := NOBODY,
                 role := Candidate);
    Outcome(s1, VoteRequestsFrom(s1, 0))
  }

  function LeaderPeers(s: Server): (peers: seq<Peer>)
    ensures |peers| == |s.peers|
  {
    seq(|s.peers|, i requires 0 <= i < |s.peers| =>
      if i == s.me then s.peers[i] else s.peers[i].(nextIdx := |s.log| + 1, matchIdx := 0))
  }

  function BecomeLeader(s: Server): Outcome {
    var s1 := s.(role := Leader, leader := s.me, peers := LeaderPeers(s));
    Outcome(s1, AppendsFrom(s1, 0, true))
  }

  predicate ShouldGrant(s: Server, rv: Message)
    requires rv.RequestVote?
  {
    && s.term <= rv.term
    && s.votedFor == NOBODY
    && (|| |s.log| == 0
        || LastTerm(s.log) < rv.lastLogTerm
        || (LastTerm(s.log) == rv.lastLogTerm && |s.log| <= rv.lastLogIdx))
  }

  function RecvRequestVote(s: Server, from: nat, rv: Message): Outcome
    requires rv.RequestVote?
  {
    var s1 := if s.term < rv.term then BecomeFollower(SetTerm(s, rv.term)) else s;
    if ShouldGrant(s1, rv) then
      var s2 := Check(s1, s1.role.Follower?, 447).(votedFor := rv.candidate, leader := NOBODY);
      Outcome(s2, [Packet(s.me, from, VoteResponse(s2.term, true))])
    else
      Outcome(s1, [Packet(s.me, from, VoteResponse(s1.term, false))])
  }

  /** raft_get_nvotes_for_me, counting peers from position `j` on. */
  function VotesFrom(s: Server, j: nat): nat
    decreases |s.peers| - j
  {
    if j >= |s.peers| then (if s.votedFor == s.me then 1 else 0)
    else (if j != s.me && s.peers[j].votedForMe then 1 else 0) + VotesFrom(s, j + 1)
  }

  /** raft_votes_is_majority. */
  predicate IsMajority(n: nat, votes: nat) {
    votes <= n && n / 2 + 1 <= votes
  }

  function RecvVoteResponse(s: Server, from: nat, r: Message): Outcome
    requires r.VoteResponse? && from < |s.peers|
  {
    if !s.role.Candidate? then Outcome(s, [])
    else if s.term < r.term then Outcome(BecomeFollower(SetTerm(s, r.term)), [])
    else if s.term != r.term || !r.granted then Outcome(s, [])
    else
      var s1 := s.(peers := s.peers[from := s.peers[from].(votedForMe := true)]);
      if IsMajority(|s1.peers|, VotesFrom(s1, 0)) then BecomeLeader(s1) else Outcome(s1, [])
  }

  // ---- Log replication ----

  /** How many of `entries` the log already holds, with equal terms, right after position `prev`. */
  function MatchingEntries(log: seq<Entry>, prev: nat, entries: seq<Entry>): (k: nat)
    ensures k <= |entries|
    decreases |entries|
  {
    if |entries| == 0 || |log| <= prev || log[prev].term != entries[0].term then 0
    else 1 + MatchingEntries(log, prev + 1, entries[1..])
  }

  /** log_append_entry refuses an entry whose id is 0: the entries before the first refused one. */
  function AcceptableEntries(entries: seq<Entry>): (ok: seq<Entry>)
    ensures |ok| <= |entries|
  {
    if |entries| == 0 || entries[0].id == 0 then [] else [entries[0]] + AcceptableEntries(entries[1..])
  }

  /** The two loops of raft_recv_appendentries (lines 347-372), after the empty-append
      truncation (lines 339-343). */
  function MergeEntries(s: Server, prev: nat, entries: seq<Entry>): Server
    requires prev <= |s.log|
  {
    var s1 := if |entries| == 0 && 0 < prev && prev + 1 < |s.log|
              then Check(s, s.commitIdx < prev + 1, 341).(log := s.log[..prev]) else s;
    var k := MatchingEntries(s1.log, prev, entries);
    MatchingEntriesFit(s1.log, prev, entries);
    if k == |entries| then s1
    else
      var s2 := if prev + k < |s1.log|
                then Check(s1, s1.commitIdx < prev + k + 1, 356).(log := s1.log[..prev + k]) else s1;
      s2.(log := s2.log + AcceptableEntries(entries[k..]))
  }

  lemma MatchingEntriesFit(log: seq<Entry>, prev: nat, entries: seq<Entry>)
    requires prev <= |log|
    ensures prev + MatchingEntries(log, prev, entries) <= |log|
    decreases |entries|
  {
  }

  /** The commit index follows the leader's, and the append is acknowledged (lines 374-387). */
  function AcceptAppend(s: Server, from: nat, ae: Message): Outcome
    requires ae.Append?
  {
    var s1 := if s.commitIdx < ae.leaderCommit
              then SetCommit(s, Min(Max(|s.log|, 1), ae.leaderCommit)) else s;
    Outcome(s1.(leader := from),
            [Packet(s.me, from, AppendResponse(s.term, true, ae.prevIdx + |ae.entries|, ae.prevIdx + 1))])
  }

  /** The entry before the append's first is there, with the right term (lines 309-334). */
  predicate PrevMatches(s: Server, ae: Message)
    requires ae.Append?
  {
    ae.prevIdx <= |s.log| && (0 < ae.prevIdx ==> s.log[ae.prevIdx - 1].term == ae.prevTerm)
  }

  /** An empty append that line 339 lets truncate the log. */
  predicate Truncates(s: Server, ae: Message)
    requires ae.Append?
  {
    |ae.entries| == 0 && 0 < ae.prevIdx && ae.prevIdx + 1 < |s.log|
  }

  /** raft_recv_appendentries once the terms are settled (lines 307-394). */
  function AppendAtTerm(s: Server, from: nat, ae: Message): Outcome
    requires ae.Append?
  {
    var prev := ae.prevIdx;
    if |s.log| < prev then
      Outcome(s, [Packet(s.me, from, AppendResponse(s.term, false, |s.log|, 0))])
    else if 0 < prev && s.log[prev - 1].term != ae.prevTerm then
      var s1 := Check(s, s.commitIdx < prev, 328).(log := s.log[..prev - 1]);
      Outcome(s1, [Packet(s.me, from, AppendResponse(s.term, false, prev - 1, 0))])
    else
      var s1 := MergeEntries(s, prev, ae.entries);
      if |s1.log| < prev + |ae.entries| then   // an entry with id 0 stopped the merge
        Outcome(s1, [Packet(s.me, from, AppendResponse(s.term, false, |s1.log|, 0))])
      else AcceptAppend(s1, from, ae)
  }

  function RecvAppend(s: Server, from: nat, ae: Message): Outcome
    requires ae.Append?
  {
    if s.role.Candidate? && s.term == ae.term then
      AppendAtTerm(BecomeFollower(s.(votedFor := NOBODY)), from, ae)
    else if s.term < ae.term then
      AppendAtTerm(BecomeFollower(SetTerm(s, ae.term)), from, ae)
    else if ae.term < s.term then
      Outcome(s, [Packet(s.me, from, AppendResponse(s.term, false, |s.log|, 0))])
    else
      AppendAtTerm(s, from, ae)
  }

  /** The peers from position `j` on that count for committing `point` (lines 238-251). */
  function AcksFrom(s: Server, point: nat, j: nat): nat
    decreases |s.peers| - j
  {
    if j >= |s.peers| then 0
    else (if CountsFor(s, point, j) then 1 else 0) + AcksFrom(s, point, j + 1)
  }

  predicate CountsFor(s: Server, point: nat, j: nat)
    requires j < |s.peers|
  {
    && j != s.me
    && 0 < s.peers[j].matchIdx <= |s.log|
    && s.log[s.peers[j].matchIdx - 1].term == s.term
    && point <= s.peers[j].matchIdx
  }

  /** Line 248 reads the entry at every positive match index; it must exist. */
  predicate MatchesInLog(s: Server) {
    forall j :: 0 <= j < |s.peers| && j != s.me ==> s.peers[j].matchIdx <= |s.log|
  }

  /** The commit test (lines 234-254). */
  function AdvanceCommit(s: Server, point: nat): Server {
    var s1 := Check(s, MatchesInLog(s), 248);
    if |s.peers| / 2 < 1 + AcksFrom(s, point, 0) && s.commitIdx < point then SetCommit(s1, point) else s1
  }

  function Acknowledge(s: Server, from: nat, currentIdx: nat): Outcome
    requires from < |s.peers|
  {
    var s1 := Check(s, currentIdx <= |s.log|, 218);
    var s2 := s1.(peers := s1.peers[from := s1.peers[from].(nextIdx := currentIdx + 1, matchIdx := currentIdx)]);
    var s3 := AdvanceCommit(s2, currentIdx);
    Outcome(s3, if currentIdx + 1 <= |s3.log| then [AppendFor(s3, from)] else [])
  }

  /** Lines 200-216: decrement or jump back, then retry. */
  function BackOff(s: Server, from: nat, currentIdx: nat): Outcome
    requires from < |s.peers|
  {
    var next := s.peers[from].nextIdx;
    var next' := if currentIdx < next - 1 then Min(currentIdx + 1, |s.log|) else next - 1;
    var s1 := s.(peers := s.peers[from := s.peers[from].(nextIdx := ClampIndex(next'))]);
    Outcome(s1, [AppendFor(s1, from)])
  }

  function RecvAppendResponse(s: Server, from: nat, r: Message): Outcome
    requires r.AppendResponse? && from < |s.peers|
  {
    if r.currentIdx != 0 && r.currentIdx <= s.peers[from].matchIdx then Outcome(s, [])
    else if !s.role.Leader? then Outcome(s, [])
    else if s.term < r.term then Outcome(BecomeFollower(SetTerm(s, r.term)), [])
    else if s.term != r.term then Outcome(s, [])
    else if !r.success then BackOff(s, from, r.currentIdx)
    else Acknowledge(s, from, r.currentIdx)
  }

  /** raft_recv_entry.  An entry with id 0 is not appended, but the rest of the handler runs. */
  function RecvEntry(s: Server, id: nat, data: int): Outcome {
    if !s.role.Leader? then Outcome(s, [])
    else
      var s1 := if id == 0 then s else s.(log := s.log + [Entry(s.term, id, data)]);
      var out := AppendsFrom(s1, 0, false);
      Outcome(if |s1.peers| == 1 then s1.(commitIdx := |s1.log|) else s1, out)
  }

  // ---- Applying and the periodic tick ----

  function ApplyEntry(s: Server): Server {
    if s.appliedIdx == s.commitIdx || |s.log| <= s.appliedIdx then s
    else s.(appliedIdx := s.appliedIdx + 1, applied := s.applied + [s.log[s.appliedIdx]])
  }

  /** raft_periodic; `timedOut` stands for the comparison of the elapsed time with the
      request or election timeout. */
  function Periodic(s: Server, timedOut: bool): Outcome {
    var o :=
      if s.role.Leader? then Outcome(s, if timedOut then AppendsFrom(s, 0, true) else [])
      else if timedOut && 1 < |s.peers| then BecomeCandidate(s)
      else Outcome(s, []);
    if o.server.appliedIdx < o.server.commitIdx then o.(server := ApplyEntry(o.server)) else o
  }

  /** What a server does with a delivered packet. */
  function Receive(s: Server, p: Packet): Outcome
    requires p.src < |s.peers|
  {
    match p.msg
    case RequestVote(_, _, _, _) => RecvRequestVote(s, p.src, p.msg)
    case VoteResponse(_, _) => RecvVoteResponse(s, p.src, p.msg)
    case Append(_, _, _, _, _) => RecvAppend(s, p.src, p.msg)
    case AppendResponse(_, _, _, _) => RecvAppendResponse(s, p.src, p.msg)
  }
}
