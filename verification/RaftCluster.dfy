/** A cluster of servers and everything they ever sent.

    A run is any sequence of events.  A packet, once sent, can be delivered at any later
    time, any number of times and in any order, or never, so the runs cover loss,
    duplication and reordering; timeouts strike at any time.  `seen` remembers, for every
    link, the latest append delivered over it, and serves only to say which runs deliver
    appends in the order in which they were sent.
 */
module RaftCluster {
  import opened RaftProtocol

  datatype Cluster = Cluster(servers: seq<Server>, sent: seq<Packet>, seen: map<(nat, nat), nat>)

  datatype Event =
    | Deliver(k: nat)
    | ClientEntry(i: nat, id: nat, data: int)
    | Tick(i: nat, timedOut: bool)
    | ApplyNext(i: nat)

  function Start(n: nat): Cluster {
    Cluster(seq(n, i requires 0 <= i < n => NewServer(i, n)), [], map[])
  }

  function React(c: Cluster, i: nat, o: Outcome): Cluster
    requires i < |c.servers|
  {
    c.(servers := c.servers[i := o.server], sent := c.sent + o.out)
  }

  /** The packet that event `Deliver(k)` hands over exists and joins two members. */
  predicate Deliverable(c: Cluster, k: nat) {
    k < |c.sent| && c.sent[k].src < |c.servers| && c.sent[k].dst < |c.servers|
    && |c.servers[c.sent[k].dst].peers| == |c.servers|
  }

  function Link(p: Packet): (nat, nat) { (p.src, p.dst) }

  function Next(c: Cluster, ev: Event): Cluster {
    match ev
    case Deliver(k) =>
      if !Deliverable(c, k) then c
      else
        var p := c.sent[k];
        var c1 := React(c, p.dst, Receive(c.servers[p.dst], p));
        if p.msg.Append? && (Link(p) in c.seen ==> c.seen[Link(p)] <= k)
        then c1.(seen := c.seen[Link(p) := k]) else c1
    case ClientEntry(i, id, data) =>
      if i < |c.servers| then React(c, i, RecvEntry(c.servers[i], id, data)) else c
    case Tick(i, timedOut) =>
      if i < |c.servers| then React(c, i, Periodic(c.servers[i], timedOut)) else c
    case ApplyNext(i) =>
      if i < |c.servers| then React(c, i, Outcome(ApplyEntry(c.servers[i]), [])) else c
  }

  /** The cluster of `n` members after `events`. */
  function Run(n: nat, events: seq<Event>): Cluster {
    if |events| == 0 then Start(n)
    else Next(Run(n, events[..|events| - 1]), events[|events| - 1])
  }

  // ---- Which runs keep what was acknowledged ----

  /** The receiver of append `p` has acknowledged, in the append's term, more than `p.msg.prevIdx` entries. */
  predicate AcksBeyond(q: Packet, p: Packet)
    requires p.msg.Append?
  {
    && q.src == p.dst && q.msg.AppendResponse? && q.msg.success
    && q.msg.term == p.msg.term && p.msg.prevIdx < q.msg.currentIdx
  }

  /** `ev` delivers an empty append of the receiver's own term that matches its log and that
      line 339 lets truncate it, although the receiver has acknowledged more. */
  predicate CutsAcked(c: Cluster, ev: Event) {
    && ev.Deliver? && Deliverable(c, ev.k) && c.sent[ev.k].msg.Append?
    && var p := c.sent[ev.k];
       var s := c.servers[p.dst];
       && p.msg.term == s.term && PrevMatches(s, p.msg) && Truncates(s, p.msg)
       && exists r :: 0 <= r < |c.sent| && AcksBeyond(c.sent[r], p)
  }

  /** No event of the run does that. */
  predicate NoAckCut(n: nat, events: seq<Event>) {
    |events| == 0
    || (&& NoAckCut(n, events[..|events| - 1])
        && !CutsAcked(Run(n, events[..|events| - 1]), events[|events| - 1]))
  }

  /** `ev` does not deliver an append after a later one on the same link. */
  predicate KeepsOrder(c: Cluster, ev: Event) {
    ev.Deliver? && Deliverable(c, ev.k) && c.sent[ev.k].msg.Append? && Link(c.sent[ev.k]) in c.seen
    ==> c.seen[Link(c.sent[ev.k])] <= ev.k
  }

  /** Appends on one link are delivered in the order they were sent; they may still be
      lost, and all other messages are delivered in any order. */
  predicate AppendsInOrder(n: nat, events: seq<Event>) {
    |events| == 0
    || (&& AppendsInOrder(n, events[..|events| - 1])
        && KeepsOrder(Run(n, events[..|events| - 1]), events[|events| - 1]))
  }
}
