/** Acknowledgements, commitment, and why a later leader has every committed entry. */
module RaftCompleteness {
  import opened RaftProtocol
  import opened RaftHistory
  import opened RaftMerge
  import opened RaftInduction

  /** The highest index `v` has acknowledged in term `t`; the leader of `t` counts as having
      acknowledged its whole log. */
  ghost function Acked(h: History, v: nat, t: nat): nat {
    if t in h.reigns && h.reigns[t].leader == v then |h.reigns[t].log|
    else if (v, t) in h.acked then h.acked[(v, t)]
    else 0
  }

  ghost predicate AckedOk(n: nat, h: History) {
    forall v, t :: (v, t) in h.acked ==>
      && v < n && t in h.reigns && v != h.reigns[t].leader
      && h.acked[(v, t)] <= |h.reigns[t].log|
  }

  ghost function AckSet(n: nat, h: History, t: nat, m: nat): set<nat> {
    set v | 0 <= v < n && m <= Acked(h, v, t)
  }

  /** Index `m` of the leader of `t` holds an entry of term `t` that a majority has acknowledged. */
  ghost predicate Committed(n: nat, h: History, t: nat, m: nat) {
    && t in h.reigns
    && 1 <= m <= |h.reigns[t].log|
    && h.reigns[t].log[m - 1].term == t
    && n / 2 < |AckSet(n, h, t, m)|
  }

  /** Some leader between `t` and `u` was elected without the first `m` entries of `t`. */
  ghost predicate Blocked(h: History, t: nat, m: nat, u: int)
    requires t in h.reigns && m <= |h.reigns[t].log|
  {
    exists t' :: t < t' <= u && t' in h.reigns && !(h.reigns[t].log[..m] <= h.reigns[t'].base)
  }

  /** `log` still has the first `m` entries of the leader of `t`, or a leader up to `u` lacked them. */
  ghost predicate Keeps(h: History, log: seq<Entry>, t: nat, m: nat, u: int)
    requires t in h.reigns && m <= |h.reigns[t].log|
  {
    h.reigns[t].log[..m] <= log || Blocked(h, t, m, u)
  }

  ghost predicate KeepsAcked(h: History, v: nat, log: seq<Entry>, u: int) {
    forall t, m: nat {:trigger Keeps(h, log, t, m, u)} ::
      t in h.reigns && t <= u && m <= Acked(h, v, t) && m <= |h.reigns[t].log| ==> Keeps(h, log, t, m, u)
  }

  /** A vote that counted was cast with everything acknowledged in earlier terms in the log. */
  ghost predicate BallotKeeps(h: History, b: Ballot) {
    Outvoted(h, b.voter, b.term) || KeepsAcked(h, b.voter, b.log, b.term - 1)
  }

  ghost predicate BallotsKeep(h: History) {
    forall b :: b in h.ballots ==> BallotKeeps(h, b)
  }

  // ---- Leader completeness ----

  lemma LastTermBound(n: nat, h: History, b: seq<Entry>, t: nat, l: seq<Entry>, m: nat)
    requires HistoryOk(n, h) && Derived(h.reigns, b)
    requires 1 <= m <= |l| && l[..m] <= b && l[m - 1].term == t
    ensures m <= |b| && t <= LastTerm(b)
  {
    hide HistoryOk;
    hide Derived;
    DerivedFacts(n, h, b, |b| - 1);
    assert b[m - 1] == l[..m][m - 1];
  }

  lemma ReignFacts(n: nat, h: History, u: nat)
    requires HistoryOk(n, h) && u in h.reigns
    ensures 1 <= u && h.reigns[u].base <= h.reigns[u].log
    ensures Derived(h.reigns, h.reigns[u].log)
    ensures h.reigns[u].leader < n
  {
    assert ReignOk(n, h, u);
  }

  /** The candidate's log against the log of a voter that kept the committed prefix. */
  lemma UpToDateHasPrefix(n: nat, h: History, t: nat, m: nat, u: nat, b: seq<Entry>)
    requires HistoryOk(n, h) && t in h.reigns && u in h.reigns && t < u
    requires 1 <= m <= |h.reigns[t].log| && h.reigns[t].log[m - 1].term == t
    requires Derived(h.reigns, b) && h.reigns[t].log[..m] <= b
    requires UpToDate(h.reigns[u].base, b)
    requires forall w :: w in h.reigns && t < w < u ==> h.reigns[t].log[..m] <= h.reigns[w].base
    ensures h.reigns[t].log[..m] <= h.reigns[u].base
  {
    hide HistoryOk;
    hide Derived;
    var l, a := h.reigns[t].log, h.reigns[u].base;
    LastTermBound(n, h, b, t, l, m);
    ReignFacts(n, h, t);
    BaseRooted(n, h, u);
    var w := LastTerm(a);
    if w == t {
      PrefixOfPrefix(l, m, a);
    } else {
      ReignFacts(n, h, w);
      PrefixOfPrefix(h.reigns[w].log, m, a);
    }
  }

  lemma PrefixOfPrefix(l: seq<Entry>, m: nat, a: seq<Entry>)
    requires m <= |a| <= |l| && a == l[..|a|]
    ensures l[..m] <= a
  {
  }

  lemma ReignAt(n: nat, h: History, u: nat)
    requires HistoryOk(n, h) && u in h.reigns
    ensures ReignOk(n, h, u) && Derived(h.reigns, h.reigns[u].log)
  {
  }

  /** The log a leader was elected with ends in the reign of its last term. */
  lemma BaseRooted(n: nat, h: History, u: nat)
    requires HistoryOk(n, h) && u in h.reigns && 0 < |h.reigns[u].base|
    ensures var a := h.reigns[u].base; var w := LastTerm(a);
            w in h.reigns && w < u && |h.reigns[w].base| < |a| <= |h.reigns[w].log| && a == h.reigns[w].log[..|a|]
  {
    hide HistoryOk;
    var a, l := h.reigns[u].base, h.reigns[u].log;
    ReignAt(n, h, u);
    assert a == l[..|a|];
    assert Rooted(h.reigns, l, |a| - 1);
  }

  /** A voter of `u` that acknowledged the committed entry of `t`. */
  lemma VoterOfBoth(n: nat, h: History, t: nat, m: nat, u: nat) returns (x: nat)
    requires HistoryOk(n, h) && Committed(n, h, t, m) && u in h.reigns
    ensures x in h.reigns[u].voters && m <= Acked(h, x, t)
    ensures Ballot(x, u, h.reigns[u].leader, h.reigns[u].voters[x]) in h.ballots
    ensures Derived(h.reigns, h.reigns[u].voters[x]) && UpToDate(h.reigns[u].base, h.reigns[u].voters[x])
  {
    assert ReignOk(n, h, u);
    x := QuorumsMeet(n, AckSet(n, h, t, m), h.reigns[u].voters.Keys);
  }

  lemma VoterKept(n: nat, h: History, t: nat, m: nat, u: nat) returns (b: seq<Entry>)
    requires HistoryOk(n, h) && BallotsKeep(h)
    requires Committed(n, h, t, m) && u in h.reigns && t < u
    requires forall w :: w in h.reigns && t < w < u ==> h.reigns[t].log[..m] <= h.reigns[w].base
    ensures Derived(h.reigns, b) && UpToDate(h.reigns[u].base, b)
    ensures h.reigns[t].log[..m] <= b
  {
    hide HistoryOk;
    hide Derived;
    var x := VoterOfBoth(n, h, t, m, u);
    b := h.reigns[u].voters[x];
    assert BallotKeeps(h, Ballot(x, u, h.reigns[u].leader, b));
    assert Keeps(h, b, t, m, u - 1);
  }

  /** A committed entry, with everything before it, is in the log of every later leader from
      its election on. */
  lemma {:induction false} LeaderCompleteness(n: nat, h: History, t: nat, m: nat, u: nat)
    requires HistoryOk(n, h) && BallotsKeep(h)
    requires Committed(n, h, t, m) && u in h.reigns && t < u
    ensures h.reigns[t].log[..m] <= h.reigns[u].base
    decreases u
  {
    hide HistoryOk;
    hide BallotsKeep;
    hide Derived;
    hide UpToDate;
    forall w | w in h.reigns && t < w < u ensures h.reigns[t].log[..m] <= h.reigns[w].base {
      LeaderCompleteness(n, h, t, m, w);
    }
    var b := VoterKept(n, h, t, m, u);
    UpToDateHasPrefix(n, h, t, m, u, b);
  }

  /** Any two committed prefixes agree where both are defined. */
  lemma CommittedAgree(n: nat, h: History, t: nat, m: nat, u: nat, k: nat)
    requires HistoryOk(n, h) && BallotsKeep(h)
    requires Committed(n, h, t, m) && Committed(n, h, u, k) && t <= u
    ensures h.reigns[t].log[..m] <= h.reigns[u].log
  {
    hide HistoryOk;
    hide BallotsKeep;
    if t < u {
      LeaderCompleteness(n, h, t, m, u);
      ReignFacts(n, h, u);
    }
  }
}
