# Verified core of the storage project

This project models, in Dafny, the parts of the repository whose correctness is least obvious from
their code, and proves what they are for.

* **Raft** (`Raft*.dfy`). `RaftProtocol` gives every message handler of `module/raft/src` as a function
  on a server; `RaftServers` and `RaftLogs` are the same handlers as methods that update a server and
  its growable log in place, each proved to do exactly what its function does. `RaftCluster` runs any
  number of servers: a packet, once sent, may be delivered at any later time, any number of times, in
  any order, or never, and timeouts strike at any time. When an assert at `raft_server.c` lines 218,
  328, 341, 356 or 447 or `raft_server_properties.c` lines 98-99 fails, or the log has no entry for the
  read at `raft_server.c` line 248, that line is added to the server's `fired` set. The other asserts are
  met by the types: indices are at least 1
  (`raft_server.c` lines 204 and 207, `raft_log.c` lines 111 and 137) and nodes are positions in the node
  list (`raft_server.c` lines 576-577 and 638-639). `RaftTheorems` states the results about whole runs,
  `RaftBackoff`, `RaftReordering`, `RaftLinks` and `RaftDivergence` more of them. `RaftProgress` says what a
  server must do and not only what it may do, `RaftElection` that an election can be won, and `RaftService`
  that a majority that can talk serves a client, from the election to the entry applied by every member;
  `RaftHistory`, `RaftMerge`,
  `RaftInduction`, `RaftCompleteness`, `RaftSafety`, `RaftFollower`, `RaftLeader` and `RaftPreservation`
  hold the invariants behind them.
* **Slab allocator** (`Slab*.dfy`). Page descriptors and their circular lists, page runs with splitting
  and two-sided joining, and chunks inside pages, whose flags `SlabWords` keeps in 64-bit words in the
  three layouts. The state promised to callers is a map from the address of each live block to its size.
* **Red-black tree** (`Rb*.dfy`). Linked nodes with parent links and a shared sentinel. `RbShapes` and
  `RbRemoval` reason about trees and positions in them as values; `RbTrees.RbTree` is the linked tree,
  whose methods are proved against them.
* **Radix tree** (`Radix*.dfy`). The linked trie against the prefix map it stands for.
* **Ring buffer** (`RingBuffer.dfy`), **task queue** (`TaskQueue.dfy`): the threads interleaved step by
  step, and the operations themselves on a byte array and on linked tasks.
* **MD5 and SHA-1** (`StreamHash.dfy` for streaming, `Compressions.dfy` for the compression functions,
  `HashBodies.dfy` for the loop bodies step by step, `HashVectors.dfy` for the published answers), **jump
  hash** (`JumpHash.dfy`), **base64** (`Base64.dfy`).

## What turned out not to hold

* State-machine safety does not survive reordered appends. `raft_server.c:339-343` lets an empty append
  truncate the log, so an old heartbeat delivered late can remove entries that its receiver has
  acknowledged and the leader has committed on the strength of that. `RaftDivergence.ReorderingBreaksSafety`
  is a run of three servers in which one such delivery makes two servers apply different entries at one
  index, and no assert ever fires; `RaftReordering.ReorderingLosesCommittedEntry` is one in which an
  assert does fire. `RaftReordering.LateAppendCutsExactly` says for every append, delivered at any time,
  exactly when it takes away what its receiver has acknowledged: when it is empty, of the receiver's
  term, matches its log, is short of it by two or more, and the receiver has acknowledged more than its
  previous index (`RaftCluster.CutsAcked`). All theorems about commitment hold for every run without such
  a delivery (`RaftCluster.NoAckCut`), whatever else is lost, repeated or reordered;
  `RaftLinks.OrderedRunsCutNothing` says that runs whose links deliver appends in the order they were
  sent are among these. `RaftReordering.LateAppendFiresExactly` is about the asserts alone.
* A cluster of one server never has a leader, since the election timeout does nothing there
  (`raft_server.c:146-150`): `RaftElection.LoneServerNeverLeads`. Elections can be won in every larger one.
* After deleting a root that has one child, the new root's parent link still points at the deleted
  node (`stl_rbtree.c:239-251`); `RbTrees.RbTree.Delete` states when. No operation follows that link.
* `stl_btree_search` also compares the sentinel's null key (`stl_rbtree.c:409-424`), so a search for a key
  that compares equal to it returns the sentinel: `RbTrees.RbTree.Search`.
* `stl_slab_free` accepts the address of a chunk that holds its page's own bitmap, clears that chunk's bit
  and zeroes the bits kept in it. `SlabAllocs.Slab.Free` covers these addresses: the allocator stays valid
  if and only if the address is not one of them, and if it is, exactly the live blocks whose bits were in
  the chunk are forgotten. `SlabAllocs.Slab.BitmapHandedOut` shows what follows: the next chunk taken from
  the page lies inside its bitmap.
* The base64 decoder asks nothing of what follows the first padding character;
  `Base64Codec.AcceptsExactly` says what it accepts.

## Model

| member | source | states |
|---|---|---|
| `RaftTheorems.ElectionSafety` | module/raft/src/raft_server.c:403-517 | Two servers that lead the same term, at any two moments of any run, are the same server, although a candidate that steps down in its own term forgets its vote |
| `RaftTheorems.LeaderAppendOnly` | module/raft/src/raft_server.c:519-569 | As long as a server leads a term its log only grows |
| `RaftTheorems.LogMatching` | module/raft/src/raft_server.c:309-372 | In any run, entries of the same term at the same index of any two logs at any two moments mean equal logs up to that index |
| `RaftTheorems.VotesAndAsserts` | module/raft/src/raft_server.c:430-465 | Candidates and leaders always have their vote on themselves; the asserts at lines 218 and 447 never fire and line 248 never reads past the log, on any network |
| `RaftTheorems.NoAssertFires` | module/raft/src/raft_server.c:165-395 | In every run in which no delivery cuts what its receiver acknowledged, no recorded assert fails, applied <= committed <= log, and what was applied is the log prefix, each entry once and in order |
| `RaftTheorems.StateMachineSafety` | module/raft/src/raft_server.c:600-626 | In every run in which no delivery cuts what its receiver acknowledged, of what any two servers have applied at any two moments one is a prefix of the other |
| `RaftTheorems.LeadersHaveCommitted` | module/raft/src/raft_server.c:165-263 | In every such run, what a server has committed is in the log of every leader of its term or a later one from then on |
| `RaftTheorems.CommitNeverDrops` | module/raft/src/raft_server_properties.c:95-101 | Commit index and applied entries only grow along such a run |
| `RaftTheorems.AcceptedAppend` | module/raft/src/raft_server.c:374-380 | A follower that accepts an append holds exactly the entries it carries, and its commit index becomes the larger of its own and the announced one, never past the prefix just checked unless the append changes nothing |
| `RaftReordering.LateAppendFiresExactly` | module/raft/src/raft_server.c:336-343 | After any run that cut nothing acknowledged, an append delivered at any time fires an assert, the one at line 341, if and only if it is empty, of the receiver's term, matches its log below its commit index and is short of its log by two or more |
| `RaftReordering.LateAppendCutsExactly` | module/raft/src/raft_server.c:336-343 | After any run that cut nothing acknowledged, an append delivered at any time takes away entries that its receiver has acknowledged in its term if and only if it is empty, of the receiver's term, matches its log, is short of it by two or more, and the receiver has sent a success response of that term beyond its previous index |
| `RaftDivergence.ReorderingBreaksSafety` | module/raft/src/raft_server.c:339-343 | A run of three servers in which every append but one is delivered in order and two servers apply different entries at index 2, with no assert fired |
| `RaftLinks.OrderedRunsCutNothing` | module/raft/src/raft_server.c:336-387 | Runs that deliver the appends of each link in the order they were sent, losing any of them, cut nothing acknowledged |
| `RaftLinks.AcceptedInOrder` | module/raft/src/raft_server.c:374-380 | With appends in order a follower's commit index never passes the prefix just checked |
| `RaftReordering.ReorderingLosesCommittedEntry` | module/raft/src/raft_server.c:339-343 | A run of thirteen events in which one late heartbeat takes a committed entry away from a server |
| `RaftBackoff.RejectionMovesBack` | module/raft/src/raft_server.c:200-216 | A rejection in the leader's term lowers the next index of a peer with nothing acknowledged, unless it is 1, and changes nothing else |
| `RaftBackoff.FirstAppendAccepted` | module/raft/src/raft_server.c:309-334 | An append from the start of the log is accepted by every server of the same or an earlier term |
| `RaftBackoff.BackOffTerminates` | module/raft/src/raft_server.c:200-216 | Every run in which a leader has a peer of no later term with nothing acknowledged can go on, by one heartbeat and fewer than twice the next index deliveries, until the peer holds the leader's whole log |
| `RaftProgress.CommitsExactly` | module/raft/src/raft_server.c:218-262 | After a success of the leader's own term that is news, the commit index becomes the acknowledged index if and only if that is ahead and, with the leader, more than half of the servers have reached it with an entry of the current term; all the peer still lacks is sent at once |
| `RaftProgress.MajorityCommits` | module/raft/src/raft_server.c:232-254 | Whatever set of peers makes a majority with the leader and has reached the acknowledged index with an entry of the leader's term, the index is committed |
| `RaftProgress.VotesExactly` | module/raft/src/raft_server.c:403-465 | A vote is granted if and only if the term is not old, the vote is free in it, and the voter's last entry does not have a later term, or the same term with a longer log; the new vote, term, role and reply follow |
| `RaftProgress.LaterTermStepsDown` | module/raft/src/raft_server.c:184-191 | A response of a later term makes a candidate or leader a follower of that term with its vote free |
| `RaftProgress.IgnoresRest` | module/raft/src/raft_server.c:178-193 | Responses that are no news, of an old term, or for a server that does not lead change nothing |
| `RaftProgress.AnswersExactly` | module/raft/src/raft_server.c:265-395 | An append is accepted if and only if its term is not old and the entry before it is there; index, term and first index of the answer, and the new term, role, vote, leader and commit index |
| `RaftProgress.RetriesExactly` | module/raft/src/raft_server.c:200-216 | A rejection moves the next attempt straight to the end of a log that is too short, one entry back otherwise, and what is missing is sent at once |
| `RaftProgress.SendsEntryExactly` | module/raft/src/raft_server.c:519-569 | A client's entry is sent at once to exactly the peers that lack only it |
| `RaftProgress.TakesNoEntry` | module/raft/src/raft_server.c:519-569 | An entry without an id is not stored, and a server that does not lead takes none |
| `RaftProgress.TickApplies` | module/raft/src/raft_server.c:135-157 | Every tick of a server of any role applies the next committed entry |
| `RaftProgress.TicksApplyAll` | module/raft/src/raft_server.c:135-157 | In every run that cut nothing acknowledged, as many ticks as committed entries wait at a server, whatever its role, apply them all in log order and do nothing else |
| `RaftElection.ElectionCanBeWon` | module/raft/src/raft_server.c:106-157 | In any run of more than one server, a server that no member of a majority is ahead of, by term and by last entry, can be made leader of the next term by its timeout and at most two deliveries for each other member; it then resets every peer's indices and greets every peer |
| `RaftElection.LoneServerNeverLeads` | module/raft/src/raft_server.c:146-150 | No run of a single server has a leader |
| `RaftService.MajorityServesClient` | module/raft/src/raft_server.c:135-675 | Every run that cut nothing acknowledged, with a majority that some member of it can lead, can go on until that member leads the next term, has taken any given client entry, and every member of the majority has exactly its log with the entry last, has applied all of it and knows the leader |
| `RaftLeader.CommitTestIsSound` | module/raft/src/raft_server.c:232-254 | When the commit test passes, some index at or above the point holds an entry of the current term and a majority has the log up to it, although the test reads the term at each peer's match index |
| `RaftCompleteness.LeaderCompleteness` | module/raft/src/raft_server.c:403-428 | A prefix that a majority acknowledged in a term is a prefix of the log of every later leader, by the up-to-date rule of voting |
| `RaftCompleteness.CommittedAgree` | module/raft/src/raft_server.c:218-254 | Prefixes committed in any two terms agree |
| `RaftMerge.MergeInstallsLeaderLog` | module/raft/src/raft_server.c:345-372 | Skipping matching entries, deleting from the first conflict and appending the rest leaves the leader's log up to the end of the append |
| `RaftMerge.AcceptInstallsLeaderLog` | module/raft/src/raft_server.c:309-380 | An accepted append leaves the sender's log up to its end in the follower |
| `RaftInduction.InvNext` | module/raft/src/raft_server.c:135-157 | Every event, whatever is delivered, keeps the invariant that ties each server and packet to one log and one set of votes per term |
| `RaftInduction.RunHasHistory` | module/raft/src/raft_server.c:40-56 | Every run from the initial servers satisfies that invariant |
| `RaftInduction.QuorumsMeet` | module/raft/src/raft_server.c:467-473 | Any two majorities share a member |
| `RaftInduction.MajorityOfVoters` | module/raft/src/raft_server.c:741-755 | The votes counted by a candidate are those of distinct servers, and a passed test means more than half of them |
| `RaftFollower.SafeAccept` | module/raft/src/raft_server.c:336-380 | Accepting an append that reaches all its receiver acknowledged in its term keeps every acknowledged prefix and the soundness of the commit index |
| `RaftFollower.SafeLate` | module/raft/src/raft_server.c:336-380 | So does one that reaches less, unless it is empty and truncates the log |
| `RaftFollower.SafeReject` | module/raft/src/raft_server.c:309-334 | So does deleting a conflicting suffix |
| `RaftLeader.SafeAcknowledge` | module/raft/src/raft_server.c:218-263 | A leader that raises its commit index has committed up to it |
| `RaftPreservation.SafeNext` | module/raft/src/raft_server.c:165-395 | Every event that cuts nothing acknowledged keeps the commit invariant |
| `RaftPreservation.RunIsSafe` | module/raft/src/raft_server.c:165-395 | Every run of such events satisfies the commit invariant |
| `RaftServers.RaftServer.BecomeCandidate` | module/raft/src/raft_server.c:106-127 | New term, vote for oneself, vote requests to every peer, exactly as the handler function says |
| `RaftServers.RaftServer.BecomeLeader` | module/raft/src/raft_server.c:86-104 | Next and match indices of every peer reset and appends sent, as the function says |
| `RaftServers.RaftServer.ShouldGrantVote` | module/raft/src/raft_server.c:403-428 | The grant decision is the function's |
| `RaftServers.RaftServer.RecvRequestVote` | module/raft/src/raft_server.c:430-465 | New state and reply are the function's |
| `RaftServers.RaftServer.VotesForMe` | module/raft/src/raft_server.c:741-755 | The loop counts the votes the function counts |
| `RaftServers.RaftServer.RecvVoteResponse` | module/raft/src/raft_server.c:475-517 | New state and appends sent are the function's |
| `RaftServers.RaftServer.SkipMatching` | module/raft/src/raft_server.c:345-360 | The loop stops at the first entry that is missing or conflicts |
| `RaftServers.RaftServer.MergeEntries` | module/raft/src/raft_server.c:345-372 | Log, fired asserts and success flag after both loops are the function's |
| `RaftServers.RaftServer.RecvAppend` | module/raft/src/raft_server.c:265-395 | New state and reply of every path are the function's |
| `RaftServers.RaftServer.CountAcks` | module/raft/src/raft_server.c:232-250 | The loop counts the peers the function counts |
| `RaftServers.RaftServer.RecvAppendResponse` | module/raft/src/raft_server.c:165-263 | New state and appends sent are the function's |
| `RaftServers.RaftServer.RecvEntry` | module/raft/src/raft_server.c:519-569 | New state and appends sent are the function's |
| `RaftServers.RaftServer.ApplyEntry` | module/raft/src/raft_server.c:600-626 | One entry applied, or none when all committed ones are |
| `RaftServers.RaftServer.ApplyAll` | module/raft/src/raft_server.c:784-788 | The loop ends with everything up to the commit index applied, in log order |
| `RaftServers.RaftServer.Periodic` | module/raft/src/raft_server.c:135-157 | Heartbeats or an election, as the function says |
| `RaftServers.RaftServer.SendAppendEntries` | module/raft/src/raft_server.c:634-675 | The append holds the whole log from the peer's next index, with the index and term before it |
| `RaftServers.RaftServer.SetCommitIdx` | module/raft/src/raft_server_properties.c:95-101 | The commit index is set and a failing assert recorded |
| `RaftServers.RaftServer.SetCurrentTerm` | module/raft/src/raft_server_properties.c:72-82 | A larger term clears the vote |
| `RaftServers.RaftServer.LastLogTerm` | module/raft/src/raft_server_properties.c:185-195 | The term of the last entry, 0 for an empty log |
| `RaftLogs.RaftLog.EnsureCapacity` | module/raft/src/raft_log.c:45-69 | Room for one more entry, contents unchanged |
| `RaftLogs.RaftLog.AppendEntry` | module/raft/src/raft_log.c:89-104 | The entry is added at the end, or refused when its id is 0 |
| `RaftLogs.RaftLog.GetAt` | module/raft/src/raft_log.c:132-148 | The entry at an index counted from 1, or nothing |
| `RaftLogs.RaftLog.GetFrom` | module/raft/src/raft_log.c:106-130 | The whole suffix from an index |
| `RaftLogs.RaftLog.Delete` | module/raft/src/raft_log.c:155-172 | Exactly the suffix from an index is dropped |
| `SlabPools.PagePool.constructor` | module/stl/src/stl_slab.c:182-203 | All pages form one free run |
| `SlabPools.PagePool.AllocPages` | module/stl/src/stl_slab.c:81-135 | A request for k pages fails if and only if no k consecutive pages are free; otherwise exactly one run of k formerly free pages is added to the allocated runs, and the descriptors, lists, tiling and free count stay right |
| `SlabPools.PagePool.Carve` | module/stl/src/stl_slab.c:89-130 | Splitting takes the front of a free run and leaves its tail in the same place of the free list |
| `SlabPools.PagePool.FreeRun` | module/stl/src/stl_slab.c:457-542 | Exactly the given run leaves the allocated runs, its pages join the free pages, free runs do not touch, and the free count is exact |
| `SlabPools.PagePool.JoinAfter` | module/stl/src/stl_slab.c:477-499 | The freed run takes in the run after it if and only if that is free |
| `SlabPools.PagePool.JoinBefore` | module/stl/src/stl_slab.c:501-529 | The freed run joins the run before it if and only if that is free, found through its last page |
| `SlabPools.PagePool.Relist` | module/stl/src/stl_slab.c:531-541 | The run's last page leads back to its first, which heads the free list |
| `SlabPools.PagePool.Delist` | module/stl/src/stl_slab.c:290-295 | A full page leaves its slot's list and nothing else changes |
| `SlabPools.PagePool.Enlist` | module/stl/src/stl_slab.c:583-592 | A page with a chunk free again heads its slot's list |
| `SlabPools.PagePool.EnlistFresh` | module/stl/src/stl_slab.c:400-404 | A new chunk page is alone in its slot's list |
| `SlabRuns.FitsIffLongRun` | module/stl/src/stl_slab.c:86-89 | Since free runs do not touch, k consecutive free pages exist if and only if some free run has k pages |
| `SlabRuns.Covered` | module/stl/src/stl_slab.c:182-203 | Every page lies in a run |
| `SlabRuns.WithinUnique` | module/stl/src/stl_slab.c:182-203 | No page lies in two runs |
| `SlabRuns.SplitFreePages` | module/stl/src/stl_slab.c:92-115 | Splitting takes exactly k pages from the free pages |
| `SlabRuns.FreedPages` | module/stl/src/stl_slab.c:457-461 | Freeing adds exactly the run's pages to the free pages and takes exactly that run from the allocated ones |
| `SlabRuns.JoinSame` | module/stl/src/stl_slab.c:485-497 | Joining free runs changes neither what is free nor what is allocated |
| `SlabRecords.UnlinkMatches` | module/stl/src/stl_slab.c:470-475 | Unlinking a page removes exactly that page from the lists |
| `SlabRecords.MergeStep` | module/stl/src/stl_slab.c:485-527 | Joining two neighbours, one listed and one not, keeps every other run on record |
| `SlabRecords.PageWord` | module/stl/src/stl_slab.c:714-733 | Only the first page of an allocated page run carries the start mark |
| `SlabLists.UnlinkRemoves` | module/stl/src/stl_slab.c:106-108 | The two link assignments take exactly one page out of a circular list |
| `SlabLists.MoveReplaces` | module/stl/src/stl_slab.c:96-102 | The tail of a split run takes over its place in the list |
| `SlabAllocs.ShiftFor` | module/stl/src/stl_slab.c:230-242 | The smallest power-of-two chunk size that holds the request |
| `SlabWords.TakeBit` | module/stl/src/stl_slab.c:252-364 | In each of the three layouts the bit set is that of the first free chunk, no other flag changes, and the fullness test is exact |
| `SlabWords.DropBit` | module/stl/src/stl_slab.c:594-619 | In each layout clearing the bit changes exactly that flag, and the emptiness test with the reserved bits masked off is exact |
| `SlabWords.FreshWords` | module/stl/src/stl_slab.c:372-434 | The words of a new page, in each layout, say that the bitmap's chunks and the first after them are taken |
| `SlabWords.ZeroChunk` | module/stl/src/stl_slab.c:747-747 | Zeroing a chunk clears exactly the flags kept in it |
| `SlabWords.SameBits` | module/stl/src/stl_slab.c:262-283 | Words that agree on every bit the loops look at are equal, so comparing words decides about flags |
| `SlabAllocs.Slab.Alloc` | module/stl/src/stl_slab.c:207-455 | A returned block is new, of exactly the chunk size or the pages that serve the request, apart from every live block and the only change to the live blocks; a page is taken only when none of the slot has a chunk free; NULL exactly when there is no room |
| `SlabAllocs.Slab.AllocRun` | module/stl/src/stl_slab.c:214-228 | A large request gets whole pages or fails exactly when too few consecutive pages are free |
| `SlabAllocs.Slab.TakeChunk` | module/stl/src/stl_slab.c:249-366 | The first chunk whose bit is clear in the slot's first page is taken; in a valid allocator it was free and becomes live, and a page that is now full leaves the list |
| `SlabAllocs.Slab.NewChunkPage` | module/stl/src/stl_slab.c:368-452 | A page is cut up and its first chunk after the bitmap becomes live |
| `SlabAllocs.Slab.Free` | module/stl/src/stl_slab.c:544-759 | A live block is given up, any other address that is not a bitmap chunk's changes nothing, and the allocator stays valid if and only if the address is not a bitmap chunk's; for such a one the new flags, lists and counters are stated |
| `SlabAllocs.Slab.DropChunk` | module/stl/src/stl_slab.c:579-626 | Exactly that chunk's flag goes, and its page goes back to the page allocator if and only if no chunk of it is left live |
| `SlabAllocs.Slab.ReleaseChunk` | module/stl/src/stl_slab.c:577-626 | Dropping a chunk and zeroing it gives up that block; if the chunk holds the bitmap, the flags kept in it go too |
| `SlabAllocs.Slab.BitmapHandedOut` | module/stl/src/stl_slab.c:544-626 | After a bitmap chunk is freed, the next chunk taken from its page begins inside the page's bitmap |
| `SlabAllocs.NoLeak` | module/stl/src/stl_slab.c:544-759 | When every block has been given up every page is free |
| `SlabAllocs.BlocksDisjoint` | module/stl/src/stl_slab.c:207-455 | No two live blocks of a valid allocator overlap |
| `SlabAllocs.BitmapsApart` | module/stl/src/stl_slab.c:372-408 | No live block of a valid allocator overlaps the bitmap of any SMALL page |
| `SlabAllocs.Slab.ReturnPage` | module/stl/src/stl_slab.c:621-625 | Returning an empty page loses no block |
| `SlabChunks.LiveDisjoint` | module/stl/src/stl_slab.c:207-455 | No two live blocks overlap |
| `SlabChunks.BitmapClear` | module/stl/src/stl_slab.c:372-408 | No live block overlaps its page's bitmap |
| `SlabChunks.BitmapFits` | module/stl/src/stl_slab.c:376-383 | The chunks set aside for the bitmap hold it, and one fewer would not |
| `SlabChunks.CountChunk` | module/stl/src/stl_slab.c:278-278 | One more live chunk is one more used |
| `SlabChunks.CountPageGone` | module/stl/src/stl_slab.c:621-623 | Total and used stay exact when a page is returned |
| `SlabChunks.HoleForgets` | module/stl/src/stl_slab.c:594-594 | Freeing a bitmap chunk forgets exactly the live blocks whose flags it keeps, and the page is no longer well formed |
| `RbTrees.RbTree.LeftRotate` | module/stl/src/stl_rbtree.c:17-47 | The linked tree becomes the left rotation of itself at the node, parent links and root included |
| `RbTrees.RbTree.RightRotate` | module/stl/src/stl_rbtree.c:49-80 | The same for the right rotation |
| `RbTrees.RbTree.InsertValue` | module/stl/src/stl_rbtree.c:108-130 | The node hangs as a red leaf where everything before it is not greater and everything after it is |
| `RbTrees.RbTree.FixUnderLeft` | module/stl/src/stl_rbtree.c:159-182 | One pass of the insertion loop keeps order and black heights and moves the only red-red edge up |
| `RbTrees.RbTree.FixUnderRight` | module/stl/src/stl_rbtree.c:183-206 | The mirror image |
| `RbTrees.RbTree.Rebalance` | module/stl/src/stl_rbtree.c:156-209 | The loop ends with a valid red-black tree of the same items |
| `RbTrees.RbTree.Insert` | module/stl/src/stl_rbtree.c:132-211 | The node is added after all keys not greater than its own and before all greater ones; order, colours, black heights, links and the sentinel stay right |
| `RbTrees.RbTree.Least` | module/stl/src/stl_rbtree.c:235-236 | Leftmost descent finds the successor |
| `RbTrees.RbTree.TakeOutSingle` | module/stl/src/stl_rbtree.c:253-267 | A node with at most one child is replaced by that child, the sentinel's parent link included |
| `RbTrees.RbTree.TakeOutDouble` | module/stl/src/stl_rbtree.c:253-311 | The successor takes the node's place, colour and links |
| `RbTrees.RbTree.FallLeft` | module/stl/src/stl_rbtree.c:329-362 | One pass of the deletion loop keeps order and moves the missing black up or repairs it |
| `RbTrees.RbTree.FallRight` | module/stl/src/stl_rbtree.c:363-396 | The mirror image |
| `RbTrees.RbTree.Settle` | module/stl/src/stl_rbtree.c:326-399 | The loop ends with a valid red-black tree of the same items |
| `RbTrees.RbTree.Delete` | module/stl/src/stl_rbtree.c:213-401 | Exactly that node leaves the in-order sequence; the tree stays valid; the root's parent link dangles exactly after a root with one child was deleted |
| `RbTrees.RbTree.Search` | module/stl/src/stl_rbtree.c:403-427 | A node with an equal key if there is one, otherwise the sentinel when its null key compares equal, otherwise NULL |
| `RbShapes.HeightIsLogarithmic` | module/stl/src/stl_rbtree.c:154-209 | Height at most twice the black height, and 2 to the black height at most the item count plus one |
| `RbShapes.PlugBalanced` | module/stl/src/stl_rbtree.c:154-209 | A tree is valid if and only if the subtree and the path around it are and no red edge joins them |
| `RbShapes.NodesAreItems` | module/stl/src/stl_rbtree.c:132-211 | The nodes of a tree are those of its in-order sequence |
| `RbShapes.LeftRotationKeepsOrder` | module/stl/src/stl_rbtree.c:17-47 | Rotating keeps the in-order sequence and is undone by the opposite rotation |
| `RbShapes.InsertedIsSorted` | module/stl/src/stl_rbtree.c:112-123 | Inserting at the place found keeps the sequence sorted |
| `RbRemoval.Removal` | module/stl/src/stl_rbtree.c:223-311 | Removal leaves the other items in order and a gap that lacks one black exactly when a black node went |
| `RbRemoval.FallEnds` | module/stl/src/stl_rbtree.c:399-399 | Blackening the place where the loop stops restores a valid tree |
| `RadixTrees.RadixTree.Insert` | module/stl/src/stl_radix_tree.c:109-171 | -3 and no change if the prefix has a value; otherwise 0, and the prefix map is updated at that prefix alone |
| `RadixTrees.RadixTree.Extend` | module/stl/src/stl_radix_tree.c:146-170 | Adding the missing nodes stores the value and changes no other prefix |
| `RadixTrees.RadixTree.Delete` | module/stl/src/stl_radix_tree.c:174-234 | -1 and no change if the prefix has no value; otherwise 0, and that prefix alone loses its value |
| `RadixTrees.RadixTree.Prune` | module/stl/src/stl_radix_tree.c:207-231 | Pruning ends with every leaf but the root valued and changes no other lookup |
| `RadixTrees.RadixTree.Find` | module/stl/src/stl_radix_tree.c:237-264 | The value of the longest stored prefix of the key, or no value if none is stored |
| `RadixTries.GetPlug` | module/stl/src/stl_radix_tree.c:121-135 | A change below a place in the trie is seen by exactly the prefixes that extend that place's bits |
| `RadixTries.PrunedPlug` | module/stl/src/stl_radix_tree.c:220-230 | When a trie with one place changed has only valued leaves |
| `RadixBits.MaskSelects` | module/stl/src/stl_radix_tree.c:116-133 | For every length up to 32 the mask of that many leading ones selects exactly that many turns of the loop |
| `RingBuffers.FirstInFirstOut` | module/stl/src/stl_ring_buffer.c:35-54 | Under every interleaving of one producer, copying byte by byte, and one consumer: the last pointer returned shows the item queued in the same position until the next dequeue, and at most capacity - 1 items wait |
| `RingBuffers.RefusedExactly` | module/stl/src/stl_ring_buffer.h:85-106 | Under every interleaving the full test refuses exactly when capacity - 1 items wait and the empty test exactly when none does |
| `RingBuffers.PushedGrows` | module/stl/src/stl_ring_buffer.c:35-54 | No step reorders, drops or repeats an item |
| `RingBuffers.TestsExact` | module/stl/src/stl_ring_buffer.h:85-106 | The offsets compared are equal exactly when the buffer is empty, or has capacity - 1 items |
| `RingBuffers.RingBuffer.Queue` | module/stl/src/stl_ring_buffer.c:35-44 | The item is appended, or refused with -1 exactly when capacity - 1 wait; the slot dequeued last is untouched |
| `RingBuffers.RingBuffer.Dequeue` | module/stl/src/stl_ring_buffer.c:45-54 | The returned offset shows the oldest item, which leaves the queue |
| `TaskQueues.RunInPushOrder` | module/stl/src/stl_thread_pool.c:181-203 | Under every interleaving tasks run exactly once, in push order |
| `TaskQueues.NoLostWakeup` | module/stl/src/stl_thread_pool.c:88-115 | With the mutex free, a non-empty queue has its semaphore set or its worker woken |
| `TaskQueues.WokenFindsWork` | module/stl/src/stl_thread_pool.c:278-306 | A woken worker never finds the queue empty |
| `TaskQueues.EveryTaskCanRun` | module/stl/src/stl_thread_pool.c:181-203 | From every reachable state the threads can go on, with no new push, until every pushed task has run |
| `TaskQueues.TaskQueue.Push` | module/stl/src/stl_thread_pool.c:253-276 | A pushed task goes to the end of the linked queue and the semaphore is set, as linking and posting do in the interleaving |
| `TaskQueues.TaskQueue.Pull` | module/stl/src/stl_thread_pool.c:278-306 | The oldest task leaves the queue, NULL exactly when it is empty, and the semaphore is set when tasks remain, as taking and posting again do in the interleaving |
| `StreamHashes.AnySplitHashesAlike` | module/stl/src/stl_md5.c:43-106 | Any split of a message into updates ends in the state of compressing the padded message block by block, for any compression function |
| `StreamHashes.UpdateAbsorbs` | module/stl/src/stl_md5.c:43-73 | An update keeps whole blocks compressed and the rest in the buffer |
| `StreamHashes.FinalIsPadded` | module/stl/src/stl_md5.c:75-106 | Finishing compresses exactly the padded message of sections 3.1 and 3.2 of RFC 1321 and section 5.1.1 of FIPS 180-4, one or two blocks as needed |
| `StreamHashes.Hasher.Body` | module/stl/src/stl_md5.c:186-301 | The block loop folds the compression function over the blocks |
| `StreamHashes.Hasher.Compute` | module/stl/src/stl_md5.c:43-73 | The context becomes what the update function says |
| `StreamHashes.Hasher.Checksum` | module/stl/src/stl_sha1.c:77-109 | The final state is what the finishing function says |
| `StreamHashes.LengthFieldWeighs` | module/stl/src/stl_md5.c:95-103 | The eight bytes of the length field, weighed by powers of 256 in either order, are the number of bits |
| `HashBodies.Md5Block` | module/stl/src/stl_md5.c:203-289 | The 64 steps in the source's register order, with its word, constant and rotation on each line, compute the compression function |
| `HashBodies.Sha1Block` | module/stl/src/stl_sha1.c:186-297 | The 80 steps on the message schedule compute the compression function |
| `HashVectors.Md5OfAbc` | module/stl/src/stl_md5.c:33-106 | The padded message "abc" compresses to the digest of section A.5 of RFC 1321 |
| `HashVectors.Sha1OfAbc` | module/stl/src/stl_sha1.c:13-109 | The padded message "abc" compresses to the digest published with FIPS 180-4 |
| `Compressions.Md5AnySplit` | module/stl/src/stl_md5.c:33-106 | The streaming law for MD5 |
| `Compressions.Sha1AnySplit` | module/stl/src/stl_sha1.c:13-109 | The streaming law for SHA-1, whatever the buffer held at the start |
| `Compressions.FastForms` | module/stl/src/stl_md5.c:140-141 | The shortened F and G are those of section 3.4 of RFC 1321 |
| `Compressions.ChAndMaj` | module/stl/src/stl_sha1.c:142-144 | F1 and F3 are Ch and Maj of section 4.1.1 of FIPS 180-4 |
| `Compressions.LoadWords` | module/stl/src/stl_sha1.c:195-205 | The two loops fill the 80-word message schedule |
| `JumpHashes.JumpConsistent` | module/stl/src/stl_hash.c:1156-1169 | For n >= 1 the loop ends with the bucket of the key among n, its last jump below n; without buckets the result is 1 |
| `JumpHashes.MovesOnlyToNew` | module/stl/src/stl_hash.c:1156-1169 | From n to m buckets a key stays or moves to one of the new buckets |
| `JumpHashes.OneMoreBucket` | module/stl/src/stl_hash.c:1156-1169 | From n to n + 1 buckets a key stays or moves to bucket n |
| `JumpHashes.LeapsForward` | module/stl/src/stl_hash.c:1164-1165 | Every jump goes strictly forward |
| `JumpHashes.LeapsInProportion` | module/stl/src/stl_hash.c:1165-1165 | Of the 2^31 values of the upper key bits, exactly floor((b + 1) * 2^31 / n) take a key from bucket b to n or beyond |
| `JumpHashes.LeapsByUpperBits` | module/stl/src/stl_hash.c:1165-1165 | Only the upper 31 bits of the key decide a leap |
| `JumpHashes.Bucket42Of57` | module/stl/src/stl_hash.c:1156-1169 | Key 42 is in bucket 43 of 57 |
| `JumpHashes.Bucket256Of1024` | module/stl/src/stl_hash.c:1156-1169 | Key 256 is in bucket 520 of 1024 |
| `JumpHashes.LastBelowUnique` | module/stl/src/stl_hash.c:1161-1166 | There is only one last jump below n |
| `Base64Codec.RoundTrip` | module/stl/src/stl_base64.c:25-145 | Decoding the encoding of any byte string gives it back |
| `Base64Codec.EncodedLength` | module/stl/src/stl_base64.c:25-63 | The encoding of n bytes has 4 * ceil(n / 3) characters |
| `Base64Codec.Encode` | module/stl/src/stl_base64.c:25-63 | The loop writes the encoding of section 4 of RFC 4648 |
| `Base64Codec.Decode` | module/stl/src/stl_base64.c:65-145 | The loop gives the decoding or -1, and never writes more than the decode length function allows, failing inputs included |
| `Base64Codec.EncLenBounds` | module/stl/src/stl_base64.c:147-150 | The encode length function is enough for every input |
| `Base64Codec.AcceptsExactly` | module/stl/src/stl_base64.c:75-142 | Accepted are exactly whole groups of alphabet and padding characters whose first padding character is third or fourth in its group |
| `Base64Codec.EncodingIsInjective` | module/stl/src/stl_base64.c:25-63 | No two byte strings share an encoding |
| `Base64Codec.SymbolInAlphabet` | module/stl/src/stl_base64.c:11-23 | The symbol of each 6-bit value is the character of the alphabet at that place, and the lookup leads back |
| `Base64Codec.OnlyTheAlphabet` | module/stl/src/stl_base64.c:14-23 | The lookup table knows nothing else |
| `Base64Codec.PublishedVectors` | module/stl/src/stl_base64.c:25-63 | The examples of section 10 of RFC 4648 |
| `Base64Codec.AcceptsSymbolAfterPadding` | module/stl/src/stl_base64.c:83-106 | An input with a symbol after the padding that is decoded all the same |

## Left out

- Raft membership changes, non-voting nodes and `voting_cfg_change_log_idx`: the set of voters is fixed, and a server's id is its position.
- Raft log polling and compaction: the log starts at its first entry.
- Raft persistence, crash and restart, callbacks that fail, clocks and random timeouts: a timeout is an event that may come at any time.
- Integer widths in Raft, base64 lengths and pool sizes: integers are unbounded, except the 64-bit byte counters of the hashes, the 64-bit jump hash keys and the page count, which stays below the start mark.
- SlabAllocs.Slab.Free: addresses between the last page and the end of the pool are not accepted, since the source reads past the page descriptors there; zeroing is modelled for what it does to the bitmaps, not for the callers' bytes.
- SlabAllocs.Slab.BitmapHandedOut: when the page is neither full nor first in its list, other pages serve requests until it is first.
- SlabAllocs.Slab.Alloc: the word of an EXACT or BIG page is kept beside its descriptor, whose slab field holds the shift alone, and the request and failure counters are not modelled.
- SlabPools.PagePool.constructor: how the pool's memory is divided between descriptors and pages is not modelled; the pool has at least one page.
- RbTrees.RbTree.constructor: `stl_rbtree_init` leaves the root NULL, which insertion does not accept; the model starts with root == sentinel, the test insertion makes. `stl_rbtree_min`, which the repository does not define, is leftmost descent.
- RadixTrees.RadixTree.Insert: masks have their ones first, as the prefix length gives them, and the word that marks "no value" is not stored; memory never runs out, allocation gives fresh nodes, and preallocation is not modelled.
- RadixTrees.RadixTree.Delete: masks have their ones first; the empty prefix of a tree that has no other node is not accepted, since the source follows the root's NULL parent there.
- RingBuffers.RingBuffer.constructor: capacity and item size are at least 1.
- TaskQueues.NoLostWakeup: start-up, shutdown, pausing and waiting for idle threads are not modelled.
- StreamHashes.Hasher.Checksum: writing the state out as digest bytes and zeroing the context afterwards are not modelled.
- The hex printing of MD5, the other hash and CRC functions, `stl_rand.c`.
- JumpHashes.JumpConsistent: the division is exact; floating-point rounding is not modelled.
- `stl_rwlock.c`, `stl_dict.c`, `stl_array.c`, `stl_ini.c`, `stl_string.c`, `stl_epoll.c`, `stl_socket.c`, `stl_log.c`, client, meta and mgmt: system plumbing and unfinished containers.
