# Verified models of Ceph components

A Dafny model of seven pieces of this repository that keep state over time, and proofs of what
holds after every run of them. `dafny verify dfyconfig.toml` checks the project.

| files | component | main results |
|---|---|---|
| `InodeGraph`, `InodeRuns`, `InodeCache` | inode and dentry cache of the FUSE tracer | no handler ever makes a cycle, a dangling pointer or a one-sided link; reference counts equal what the kernel holds; a path text leads back to its inode |
| `MonNumbers`, `MonPaxos`, `MonCluster`, `MonHandlers`, `MonDelivery`, `MonPace`, `MonAgreement`, `MonFailures` | the monitors' Paxos | in every run of every cluster all that is ever committed agrees, if and only if messages are neither repeated nor reordered on their link and no monitor restarts behind its promise; losses, crashes and rival leaders do no harm; then no commit is ever passed over |
| `Thrasher`, `WeightedChoice`, `PoolBook` | OSD thrasher | its lists stay partitions above their minimums at every loop boundary; which action a draw falls to; pool bookkeeping |
| `CommentStripper`, `StateDiagram` | front end of the state-diagram script | streaming filter equals the comment rule; the context stack is the stack of open blocks, exactly when tags are pushed where blocks open; from source lines to the stack in one contract |
| `Watchdog` | daemon watchdog | the online monitor agrees with the whole poll history |
| `MountHandle`, `CrushLocation` | libcephfs | each object is deleted exactly once, exactly when `init` is not repeated; packing and size query |
| `MonmapStore` | monitor map store | versions, epochs and recovery over any sequence of injections |

**How the models are built.** Where the source changes things in place, a class does too, and each
method is proved against a function on values (`View() == ...`); the theorems are about those
functions and about runs of them. System calls, replies of the cluster, random choices and network
delivery are inputs. The inode structures of the tracer live in an explicit memory, one map per
field from addresses to contents, because deletion and dangling pointers are the point there. Some
proofs use `hide` statements, which only keep definitions away from the solver.

**The monitors in layers.** `MonCluster` has the handlers as coded: the reply counter `num_last`, the
accept of the version before that `handle_accept` tolerates, the values shared with peers that lag, the
assertions, the filter on election epochs, what is on disk and what is not, and one queue of messages
per link. `MonHandlers` says what each event achieves. `MonPaxos` is the protocol they stand for, with
sets of senders, and safe in any network. `MonDelivery` and `MonPace` prove what queues that neither
repeat nor reorder guarantee (a counter is then a set of senders, no tolerance is ever used, and the
values in a message start within the log of its receiver), `MonAgreement` that the monitors then refine
the protocol and take over all that is committed, and `MonFailures` has the runs that go wrong
otherwise. The monitors' messenger is configured for ordered delivery without loss or repetition between
peers (`src/ceph_mon.cc:664-668`).

**Results that went against the code.** Each has a lemma at a failing input and the exact condition.
- A leader's own promise is in memory only: `collect` writes `last_pn` and not `accepted_pn`, and
  `init` loads `accepted_pn`. A restarted leader can vote under a lower number, which lowers the number
  its value is reported with, and two monitors can commit different values (`ForgottenPromise`). In
  that run every quorum is a majority led by its lowest rank, and the only messages lost are leftovers
  that are still queued when an election begins. Agreement holds if and only if restarts like that do not happen and
  messages are neither repeated (`RepeatedAccept`) nor reordered (`OvertakenCollect`): `AgreementIff`.
- A proposal number is unique among monitors if and only if their ranks differ modulo 100
  (`SameNumberIff`).
- A lookup that misses the name cache but finds a number that is cached (a second hard link)
  replaces the cached inode and leaves its structure behind; the cache is in order all along if and
  only if that never happens (`InOrderIff`, `LookupConservesIff`, `SecondHardLinkLosesReference`,
  `Lookup`).
- A rename onto its own slot, which the system call accepts and ignores, drops the entry from the
  cache (`RenameMovesOneLink`, `OwnSlotRenameLosesName`).
- A tag pushed by a chunk that does not open a block stays on the context stack for good
  (`StackIsOpenBlocksIff`, `StrayTagStays`).
- The comment filter drops a slash that ends the stream (`RemoveMultilineComments`,
  `SlashAtEndIsLost`).
- The thrasher takes a pool off its list even when the cluster refused the command (`TrackedIff`,
  `FixAll`, `RefusedFixIsLost`).
- A second `init` on a mount handle leaks the objects of the first (`NoLeakIff`, `SecondInitLeaks`).
- The size query of the CRUSH location is right if and only if the size fits an `int` (`QueryIff`,
  `HugeLocationFailsQuery`).

**Where code and documentation disagree**, the model follows the code: `test_map_discontinuity` is
documented to revive the OSD it killed and revives any dead one; `in_osd` revives a dead OSD instead
of marking it in, so `min_dead` is not kept.

## Model

| member | source | states |
|---|---|---|
| InodeGraph.MoveAcyclicIff | fusetrace/fusetrace_ll.cc:882-889 | moving an inode from one slot to another keeps the graph acyclic if and only if the destination directory is not inside the moved subtree |
| InodeGraph.LinkAcyclic | fusetrace/fusetrace_ll.cc:151-160 | a new link closes no cycle when its target does not reach its directory |
| InodeGraph.NoClosedWalk | fusetrace/fusetrace_ll.cc:94-109 | in an acyclic cache no nonempty walk returns to its start, so climbing parents ends |
| InodeGraph.FirstExists | fusetrace/fusetrace_ll.cc:96-100 | a nonempty `parents` map has a first key in the order of `std::map` |
| InodeGraph.FirstUnique | fusetrace/fusetrace_ll.cc:96-100 | the first key is unique |
| InodeGraph.LessIff | fusetrace/fusetrace_ll.cc:96-100 | names are ordered by their first difference, a prefix being smaller |
| InodeGraph.ChainWalk | fusetrace/fusetrace_ll.cc:94-107 | walking down the names passed while climbing first parents ends where the climb began |
| InodeGraph.ChainUnique | fusetrace/fusetrace_ll.cc:94-107 | the climb of an inode, its names and its top are determined by the inode |
| InodeGraph.DirectoryWalkUnique | fusetrace/fusetrace_ll.cc:94-107 | a directory with at most one parent slot has at most one path from the root |
| InodeGraph.SplitRender | fusetrace/fusetrace_ll.cc:94-107 | the names can be read back from the text of a path |
| InodeRuns.StepKeepsShape | fusetrace/fusetrace_ll.cc:137-215 | every handler keeps: links join cached inodes, only directories have entries, a directory has one parent, the root has none |
| InodeRuns.StepKeepsAcyclic | fusetrace/fusetrace_ll.cc:196-215 | no handler creates a parent cycle |
| InodeRuns.RepliesAreTrue | fusetrace/fusetrace_ll.cc:555-948 | after an entry reply the slot asked about leads to the inode in the reply; a removed name leads nowhere; every other slot is untouched unless its inode was reused or forgotten |
| InodeRuns.EntryIsCached | fusetrace/fusetrace_ll.cc:241-948 | a lookup, creation or link that succeeds is answered with the object; the slot asked about leads to it, it has the kind the system call told and one reference more than before |
| InodeRuns.FailureChangesNothing | fusetrace/fusetrace_ll.cc:241-948 | a request that fails leaves the cache as it was and hands out nothing |
| InodeRuns.LinksStay | fusetrace/fusetrace_ll.cc:241-948 | a lookup of a cached name changes no link, and a link leaves the other links of the inode alone |
| InodeRuns.OtherNodesStay | fusetrace/fusetrace_ll.cc:241-948 | kind and count of an inode that a request is not about stay |
| InodeRuns.ForgetTakesAway | fusetrace/fusetrace_ll.cc:310-335 | a forget takes its count off, and the inode goes with all its links exactly when nothing is left |
| InodeRuns.StepCounts | fusetrace/fusetrace_ll.cc:291-322 | a handler changes a count by what it hands out less what is given back; an inode is cached exactly while its count is positive |
| InodeRuns.RunInvariant | fusetrace/fusetrace_ll.cc:241-948 | after every run in which each event is one the kernel and the operating system allow, the kernel forgets no more than it was given, and no missed lookup finds a cached number, the cache is well shaped and acyclic, and every count is entry replies minus forgets |
| InodeRuns.InOrderIff | fusetrace/fusetrace_ll.cc:278-295 | with missed lookups of any number allowed, all that holds after every prefix of the run if and only if no missed lookup finds a cached number |
| InodeRuns.ForgetIsExact | fusetrace/fusetrace_ll.cc:310-327 | neither BAD branch is reachable; an inode leaves the cache exactly with its last forget |
| InodeRuns.PathRoundTrip | fusetrace/fusetrace_ll.cc:94-117 | in every reachable state a path, as names or as text, leads from the root to its inode, and a directory has no other path |
| InodeRuns.HasPathIff | fusetrace/fusetrace_ll.cc:94-124 | a directory has a path exactly when it is reachable from the root, any other inode exactly when the directory of its first name is |
| InodeRuns.LookupConservesIff | fusetrace/fusetrace_ll.cc:278-295 | a lookup that misses conserves references if and only if the number found is not cached |
| InodeRuns.SecondHardLinkLosesReference | fusetrace/fusetrace_ll.cc:278-295 | concrete run of two allowed lookups: two names of one file, two references held, one counted, and the first forget drops the inode |
| InodeRuns.OwnSlotRenameLosesName | fusetrace/fusetrace_ll.cc:882-893 | concrete legal run: a file renamed onto its own name is cached and has no name |
| InodeRuns.RenameMovesOneLink | fusetrace/fusetrace_ll.cc:882-893 | a rename moves exactly one link if and only if its slots differ; a displaced inode keeps its other links; all other slots are untouched |
| InodeRuns.UnlinkedLeavesNothing | fusetrace/fusetrace_ll.cc:162-194 | after unlinking nothing mentions the inode and links between others are as before |
| InodeCache.Tracer.constructor | fusetrace/fusetrace_ll.cc:1150-1155 | the initial cache holds the root with one reference |
| InodeCache.Tracer.TwoWay | fusetrace/fusetrace_ll.cc:77-80 | a dentry of p under n is c if and only if the parent entry of c under (n, number of p) is p |
| InodeCache.Tracer.NoDangling | fusetrace/fusetrace_ll.cc:185-194 | every pointer in the index, a dentry or a parent entry is to an allocated structure |
| InodeCache.Tracer.RemoveDentry | fusetrace/fusetrace_ll.cc:137-149 | removes one link from both maps, keeping agreement |
| InodeCache.Tracer.AddDentry | fusetrace/fusetrace_ll.cc:151-160 | adds one link to both maps, displacing what was under the name |
| InodeCache.Tracer.DropParents | fusetrace/fusetrace_ll.cc:166-171 | the first loop ends and leaves exactly the links to other inodes |
| InodeCache.Tracer.DropChildren | fusetrace/fusetrace_ll.cc:173-175 | the second loop ends and leaves exactly the links from other inodes |
| InodeCache.Tracer.UnlinkInode | fusetrace/fusetrace_ll.cc:162-183 | all links from and to the inode are gone, all others stay |
| InodeCache.Tracer.RemoveInode | fusetrace/fusetrace_ll.cc:185-194 | the structure leaves memory and index with all its links, nothing else changes |
| InodeCache.Tracer.AddInode | fusetrace/fusetrace_ll.cc:196-215 | a created object is cached under its name; a known number keeps its structure and count and loses its old links |
| InodeCache.Tracer.MakeInodePath | fusetrace/fusetrace_ll.cc:94-109 | climbs first parents to a parentless inode; true exactly when that is the root, and then the text spells the names passed; otherwise the buffer is untouched |
| InodeCache.Tracer.InodePath | fusetrace/fusetrace_ll.cc:94-117 | succeeds exactly when the inode has a path, and then the text begins with the base directory and, read as names, leads from the root to the inode |
| InodeCache.Tracer.HasPathTo | fusetrace/fusetrace_ll.cc:119-124 | true exactly when the climb from the inode ends at the root |
| InodeCache.Tracer.AddFound | fusetrace/fusetrace_ll.cc:278-285 | what a missed lookup does: the maps of memory agree afterwards if and only if the number was not indexed; otherwise the structure that was indexed is left behind, with all entries that lead to it |
| InodeCache.Tracer.Lookup | fusetrace/fusetrace_ll.cc:241-308 | does to memory what the step does to the cache, and replies accordingly, if and only if it does not miss and find an indexed number; otherwise a structure is orphaned |
| InodeCache.Tracer.Forget | fusetrace/fusetrace_ll.cc:310-335 | likewise; the complaint branches are not taken |
| InodeCache.Tracer.Create | fusetrace/fusetrace_ll.cc:555-740 | likewise, for mknod, mkdir, symlink and create |
| InodeCache.Tracer.Remove | fusetrace/fusetrace_ll.cc:771-847 | likewise, for unlink and rmdir |
| InodeCache.Tracer.Rename | fusetrace/fusetrace_ll.cc:850-897 | likewise |
| InodeCache.Tracer.Link | fusetrace/fusetrace_ll.cc:899-948 | likewise |
| MonPaxos.CollectOk | src/mon/Paxos.cc:140-206 | starting to collect keeps the invariant |
| MonPaxos.OnCollectOk | src/mon/Paxos.cc:209-310 | promising a number and reporting committed and uncommitted values keeps the invariant |
| MonPaxos.StoreStateOk | src/mon/Paxos.cc:363-445 | taking over committed values keeps the invariant |
| MonPaxos.SafeIfClear | src/mon/Paxos.cc:570-579 | if nobody in a majority has an older vote for a version, no other value can be chosen under a lower number |
| MonPaxos.SafeIfLearned | src/mon/Paxos.cc:533-568 | the same for the value with the highest number among the older votes of a majority |
| MonPaxos.BegunOk | src/mon/Paxos.cc:600-697 | beginning on a safe value keeps the invariant |
| MonPaxos.ProposeOk | src/mon/Paxos.cc:1498-1521 | an active leader may begin on any value |
| MonPaxos.OnBeginOk | src/mon/Paxos.cc:700-757 | voting for a value keeps the invariant |
| MonPaxos.ChosenUnique | src/mon/Paxos.cc:794-799 | at most one value is ever chosen for a version |
| MonNumbers.NewPnIsNew | src/mon/Paxos.cc:1236-1267 | a new proposal number is the rank above the next multiple of 100, for all ranks, so it is above both bounds and carries the rank modulo 100 |
| MonNumbers.SameNumberIff | src/mon/Paxos.cc:1233-1247 | two monitors can draw the same number if and only if their ranks are congruent modulo 100 |
| MonHandlers.FilterMeans | src/mon/Monitor.cc:3934-3942 | an older epoch means nothing to a monitor, a newer one makes it leave the quorum, and a peon does not survive a message of its epoch from anyone but its leader |
| MonHandlers.DeliverMeans | src/mon/Monitor.cc:3917-3945 | a delivered message leaves its queue unless it is repeated, and only its receiver and the queues from it change |
| MonHandlers.CollectMeans | src/mon/Paxos.cc:209-321 | a peon promises the higher of its number and the one asked for, on disk if it is new, and reports what it has committed beyond the leader and, unless it is behind, what it has accepted |
| MonHandlers.LearnMeans | src/mon/Paxos.cc:533-552 | the leader remembers the uncommitted value with the highest number, the later one of equals, unless its version is committed |
| MonHandlers.RefusalMeans | src/mon/Paxos.cc:517-526 | a leader whose number is refused asks its whole quorum again under a number above the one it was told |
| MonHandlers.PromiseMeans | src/mon/Paxos.cc:527-579 | a promise is counted; with the last one the leader begins on the value learned for its next version, or is active; before that nothing is sent |
| MonHandlers.BeginMeans | src/mon/Paxos.cc:700-757 | a peon votes, on disk, for a value under the number it promised and for its next version, and says so; ignores lower numbers; does not survive anything else |
| MonHandlers.AcceptMeans | src/mon/Paxos.cc:760-925 | an accept is counted; with the last one the value is in the log, nothing is pending, and every other member is sent it; before that nothing is committed |
| MonHandlers.OldAcceptMeans | src/mon/Paxos.cc:767-777 | an accept under another number or of an older round changes nothing |
| MonHandlers.StrayMeans | src/mon/Paxos.cc:209-948 | exactly which messages of the right epoch, other than replies, end the process that gets them; a peon ignores replies |
| MonHandlers.ProposeMeans | src/mon/Paxos.cc:1498-1521 | an active leader begins on the value proposed: it votes for it on disk and asks its quorum |
| MonHandlers.WinMeans | src/mon/Paxos.cc:1312-1334 | who wins an election recovers under a number above all it has drawn or promised, with its own pending value as the uncommitted one, and asks its quorum |
| MonHandlers.LoseMeans | src/mon/Paxos.cc:1336-1358 | who loses one follows the winner and keeps what is on disk |
| MonHandlers.BootstrapMeans | src/mon/Paxos.cc:1360-1385 | who leaves the quorum keeps what is on disk and its promise |
| MonHandlers.RestartMeans | src/mon/Paxos.cc:69-83 | who restarts keeps what is on disk, and its promise is the one the disk has |
| MonDelivery.PeerPromises | src/mon/Paxos.cc:209-310 | a peon answers the latest collect of a leader at most once, and nothing of the recovery is under way behind that answer |
| MonDelivery.PeerVotes | src/mon/Paxos.cc:700-757 | of each round at most one begin or accept is under way between a leader and a peon |
| MonDelivery.DispatchComesTo | src/mon/Monitor.cc:3934-3942 | a message at the head of a queue is ignored, makes its receiver leave the quorum, or was awaited by it |
| MonDelivery.StepOrderly | src/mon/Paxos.cc:140-948 | every step with ordered queues keeps all that, for all pairs of monitors |
| MonPace.StepPaced | src/mon/Paxos.cc:324-445 | with ordered queues the values in a message start within what its receiver has, and a leader never thinks a peer further than it is |
| MonAgreement.LastCounts | src/mon/Paxos.cc:527-579 | the reply counter decides what the set of senders would decide |
| MonAgreement.HandleLastRefines | src/mon/Paxos.cc:455-587 | handling a reply, in all its branches, is a step of the protocol |
| MonAgreement.HandleAcceptRefines | src/mon/Paxos.cc:760-800 | so is counting an accept, and committing with the last one |
| MonAgreement.StepRefines | src/mon/Paxos.cc:140-948 | every step with ordered queues and restarts that forget nothing is a step of the protocol, or nothing |
| MonAgreement.CountsAreSenders | src/mon/Paxos.cc:527-554 | in every such run `num_last` is the number of monitors heard, and reaches the size of the quorum exactly when all of it has been heard |
| MonAgreement.AcceptsAreNew | src/mon/Paxos.cc:767-788 | in every such run an accept of the leader's number finds it updating, is the sender's first and names the present version, so no assertion fails |
| MonAgreement.CommitIsTaken | src/mon/Paxos.cc:928-948 | in every such run a commit that a peon gets from its leader leaves it with the longer of the two logs, each a prefix of it, so no version is passed over however far behind the peon was |
| MonAgreement.ReplyIsTaken | src/mon/Paxos.cc:455-515 | the same for a reply that reaches its leader; and every peer known to be behind the result is queued the values it lacks, ahead of anything else |
| MonAgreement.ReplyTells | src/mon/Paxos.cc:487-515 | in any cluster at all, a reply that reaches its leader queues to every peer known to be behind what it lacks |
| MonAgreement.Agreement | src/mon/Paxos.cc:140-948 | in every such run, what one monitor has committed at any time and what another has committed at any later time agree version by version |
| MonFailures.Carried | src/mon/Paxos.cc:760-925 | three monitors that have begun on any value can vote and commit it |
| MonFailures.RepeatedAccept | src/mon/Paxos.cc:773-788 | a run whose only fault is that accepts are delivered twice, and two monitors commit different values |
| MonFailures.OvertakenCollect | src/mon/Paxos.cc:517-554 | the same with a collect delivered ahead of an older one |
| MonFailures.ForgottenPromise | src/mon/Paxos.cc:69-83 | the same with leaders restarted from disk |
| MonFailures.AgreementIff | src/mon/Paxos.cc:140-948 | all runs of all clusters agree if and only if nothing is repeated, nothing is reordered and no restart forgets a promise |
| WeightedChoice.OwnerUnique | qa/tasks/ceph_manager.py:843-849 | no two actions own the same draw, and an owner has positive weight |
| WeightedChoice.Choose | qa/tasks/ceph_manager.py:843-849 | returns the action whose prefix-sum interval contains the draw, and `None` exactly when the draw reaches the total |
| Thrasher.SplitMeans | qa/tasks/ceph_manager.py:106-110 | two lists that split the OSD set are duplicate-free, disjoint and complete |
| Thrasher.ChanceIs | qa/tasks/ceph_manager.py:783-788 | an integer chance of going down is a percentage, any other a fraction |
| Thrasher.ListedIsGuarded | qa/tasks/ceph_manager.py:797-841 | every listed action with positive weight satisfies its guard |
| Thrasher.KeptIsOpen | qa/tasks/ceph_manager.py:797-841 | every row whose guard holds is listed with its action and weight, in order, and starts where the rows before it end; nothing else is listed |
| Thrasher.MoversDrawn | qa/tasks/ceph_manager.py:797-849 | the interval of draws of each action that changes the lists, in numbers |
| Thrasher.TotalIs | qa/tasks/ceph_manager.py:797-841 | the total of all rows whose guard holds, in numbers |
| Thrasher.RowUnique | qa/tasks/ceph_manager.py:843-849 | a draw falls to one row only |
| Thrasher.ChooseAction | qa/tasks/ceph_manager.py:779-849 | the action taken is the one whose row the draw falls to and satisfies its guard; none is taken exactly when the draw reaches the sum of all rows whose guard holds |
| Thrasher.MovesOne | qa/tasks/ceph_manager.py:203-465 | each operation moves exactly the OSD asked for between the two lists it is about; marking in a dead OSD revives it instead |
| Thrasher.PerformedMoves | qa/tasks/ceph_manager.py:203-465 | an action moves exactly one OSD between its lists, or none |
| Thrasher.RoundActs | qa/tasks/ceph_manager.py:939-981 | a round without recovery takes the action its draw falls to and moves what that action moves |
| Thrasher.Thrasher.OutOsd | qa/tasks/ceph_manager.py:439-450 | moves one OSD from in to out, keeping the partition |
| Thrasher.Thrasher.KillOsd | qa/tasks/ceph_manager.py:203-219 | moves one OSD from live to dead, and out if asked and in |
| Thrasher.Thrasher.ReviveOsd | qa/tasks/ceph_manager.py:424-437 | moves one OSD from dead to live |
| Thrasher.Thrasher.InOsd | qa/tasks/ceph_manager.py:452-465 | marks one OSD in, or revives it if dead; dead plus out always falls by one |
| Thrasher.Thrasher.ReviveDownTo | qa/tasks/ceph_manager.py:955-956 | the loop ends with exactly the limit dead, or as many as there were |
| Thrasher.Thrasher.AllUp | qa/tasks/ceph_manager.py:599-608 | both loops end; no OSD is dead or out |
| Thrasher.Thrasher.Refill | qa/tasks/ceph_manager.py:754-755 | the refill loop ends with one more than the minimum in, or as many as there were; no OSD dies |
| Thrasher.Thrasher.TestMapDiscontinuity | qa/tasks/ceph_manager.py:744-777 | refills, kills and marks out one OSD, revives one; no more are dead than before; the minimums hold at the end |
| Thrasher.Thrasher.Perform | qa/tasks/ceph_manager.py:203-465 | an action whose guard holds does its one move and keeps partition and minimums |
| Thrasher.Thrasher.Recover | qa/tasks/ceph_manager.py:954-962 | what a round does before it chooses leaves at most the maximum dead and keeps partition and minimums |
| Thrasher.Thrasher.DoThrash | qa/tasks/ceph_manager.py:939-981 | over every sequence of rounds all loop boundaries are partitions above the minimums, each follows from the last by one round, and the loop ends with all OSDs up and in unless a draw reached the total |
| PoolBook.TrackedIff | qa/tasks/ceph_manager.py:629-652 | a step loses track of a pool that is behind if and only if it is a fix that the cluster refuses |
| PoolBook.ApplyMeans | qa/tasks/ceph_manager.py:629-652 | what each step does to the numbers of its pool, and that it touches no other pool |
| PoolBook.RunTracked | qa/tasks/ceph_manager.py:629-652 | over any interleaving of accepted steps every pool that is behind is on the list |
| PoolBook.RefusedFixIsLost | qa/tasks/ceph_manager.py:641-652 | concrete steps: created, grown, fix refused; the pool is behind and off the list |
| PoolBook.Pools.CreatePool | qa/tasks/ceph_manager.py:1519-1553 | a new pool has the size asked for in both tables, other pools are untouched, and pools that are behind stay on the list |
| PoolBook.Pools.RemovePool | qa/tasks/ceph_manager.py:1574-1586 | a removed pool is in neither table, other pools are untouched, and pools that are behind stay on the list |
| PoolBook.Pools.GrowPool | qa/tasks/ceph_manager.py:629-639 | the pool grows by the amount exactly when nothing is in the way, and is then on the list; other pools are untouched and pools that are behind stay on it |
| PoolBook.Pools.FixPgpNum | qa/tasks/ceph_manager.py:641-652 | an accepted fix makes the two numbers equal, other pools are untouched, and track of a pool is lost if and only if the fix of one that is behind is refused |
| PoolBook.Pools.FixAll | qa/tasks/ceph_manager.py:974-977 | after the closing loop a pool is behind exactly when it was behind and its fix was refused |
| CommentStripper.FindIsFirst | doc/scripts/gen_state_diagram.py:37-60 | the search used by the rule finds the first mark |
| CommentStripper.StripNone | doc/scripts/gen_state_diagram.py:37-60 | a text without an opening mark is left alone |
| CommentStripper.StripCuts | doc/scripts/gen_state_diagram.py:37-60 | from the first opening mark to the first closing mark behind it a text is cut, and the rule goes on behind it |
| CommentStripper.StripUnclosed | doc/scripts/gen_state_diagram.py:37-60 | a comment that is never closed runs to the end |
| CommentStripper.CodeChar | doc/scripts/gen_state_diagram.py:49-60 | a character of code that opens no comment is kept by the rule |
| CommentStripper.RemoveMultilineComments | doc/scripts/gen_state_diagram.py:37-60 | the streaming filter equals the rule on every stream, save for a slash held back at the end |
| CommentStripper.SlashAtEndIsLost | doc/scripts/gen_state_diagram.py:57-59 | concrete stream: of `a/` the filter keeps `a` |
| StateDiagram.ToChar | doc/scripts/gen_state_diagram.py:21-27 | all characters in order, line ends and nothing else as blanks |
| StateDiagram.JoinedAt | doc/scripts/gen_state_diagram.py:21-27 | each line stands in the text behind the lines before it |
| StateDiagram.LStripMeans | doc/scripts/gen_state_diagram.py:17 | exactly the line ends in front are taken away |
| StateDiagram.AccLines | doc/scripts/gen_state_diagram.py:10-18 | chunks are the text cut behind every `;`, `{` and `}`; each ends in its only one; brace depth is preserved |
| StateDiagram.DepthOfChunk | doc/scripts/gen_state_diagram.py:95-98 | a chunk contains a brace exactly when it ends in it |
| StateDiagram.DoFilter | doc/scripts/gen_state_diagram.py:6-18 | the chunks are the text with line ends blanked and comments cut out, cut behind every `;`, `{` and `}`; what is lost has none of these; brace depth is preserved |
| StateDiagram.Renderer.GetContext | doc/scripts/gen_state_diagram.py:90-100 | pushes, counts braces and pops all entries of the closed depth |
| StateDiagram.PoppedMeans | doc/scripts/gen_state_diagram.py:99-100 | what is popped is of the closed depth, and nothing of that depth is left on top |
| StateDiagram.Renderer.ReadInput | doc/scripts/gen_state_diagram.py:84-88 | reads all lines in order |
| StateDiagram.Renderer.ReadSource | doc/scripts/gen_state_diagram.py:6-100 | from source lines to the stack: the depth is the brace depth of the text without its comments, and the stack was right all along if and only if tags were pushed only where blocks open |
| StateDiagram.ReadDepth | doc/scripts/gen_state_diagram.py:95-98 | the depth counter is the brace depth of what was read, whatever is pushed |
| StateDiagram.LineAgrees | doc/scripts/gen_state_diagram.py:90-100 | one line keeps the stack equal to the open blocks if and only if it pushes only where it opens |
| StateDiagram.StackIsOpenBlocksIff | doc/scripts/gen_state_diagram.py:84-125 | the stack equals the open blocks after every prefix if and only if every tag is pushed by a chunk that opens a block |
| StateDiagram.TopIsInnermost | doc/scripts/gen_state_diagram.py:84-125 | depths never fall up the stack and stay below the brace depth; the top belongs to the innermost open block that pushed |
| StateDiagram.StrayTagStays | doc/scripts/gen_state_diagram.py:97-100 | concrete input where an entry is never popped |
| Watchdog.StreakIsMaximal | qa/tasks/mds_thrash.py:94-101 | the streak start is the start of the present unbroken failure |
| Watchdog.BarksIff | qa/tasks/mds_thrash.py:94-115 | it should bark exactly when a thrasher holds an error or some daemon has been failed, without a break, since a poll that is longer ago than the timeout |
| Watchdog.NoteFailures | qa/tasks/mds_thrash.py:97-104 | new failures get the present time, old ones keep theirs; bark exactly when one has lasted too long |
| Watchdog.DropRestored | qa/tasks/mds_thrash.py:107-110 | exactly the restored daemons are forgotten |
| Watchdog.Watch | qa/tasks/mds_thrash.py:77-121 | barks at exactly the first poll where a streak exceeds the timeout or a thrasher holds an error; the table is the history |
| MountHandle.MountInfo.Init | src/libcephfs.cc:73-109 | creates all objects, or leaves the blank state and returns the code of what failed |
| MountHandle.MountInfo.Mount | src/libcephfs.cc:111-133 | an unmounted handle is mounted exactly when it is or becomes initialised and the client mounts, and is blank otherwise; the code returned; a mounted handle is left alone |
| MountHandle.MountInfo.Unmount | src/libcephfs.cc:135-141 | leaves a mounted handle blank, and any other alone |
| MountHandle.MountInfo.Shutdown | src/libcephfs.cc:143-167 | leaves a blank handle that has deleted nothing twice and leaks exactly what had leaked before |
| MountHandle.MountInfo.Release | src/libcephfs.cc:347-353 | refused while mounted, otherwise shuts down |
| MountHandle.MountInfo.ShutdownAndDelete | src/libcephfs.cc:355-359 | shutting down twice is shutting down once |
| MountHandle.InitEffect | src/libcephfs.cc:73-109 | a failed init leaves the blank state, a successful one three new objects; init leaks exactly on an initialised handle |
| MountHandle.MountEffect | src/libcephfs.cc:111-133 | mounted afterwards if and only if initialised and the client mounts, blank otherwise, keeping the objects of an initialised handle; nothing leaks |
| MountHandle.CallEffect | src/libcephfs.cc:73-167 | what each call of the API comes to |
| MountHandle.NoLeakIff | src/libcephfs.cc:73-167 | over every call sequence mounted implies initialised implies three live objects, and nothing leaks if and only if init is never called on an initialised handle |
| MountHandle.SecondInitLeaks | src/libcephfs.cc:73-109 | concrete calls: two successful inits leak the three objects of the first |
| MountHandle.DeletedExactlyOnceIff | src/libcephfs.cc:54-71 | in the end every object made has been deleted exactly once under the same condition, and none twice in any case |
| CrushLocation.DecodeEncode | src/libcephfs.cc:1223-1235 | a packed location is read back exactly |
| CrushLocation.EncodedAt | src/libcephfs.cc:1223-1235 | each entry lies behind all entries before it: type, NUL, name, NUL |
| CrushLocation.FittingIsLongest | src/libcephfs.cc:1223-1235 | the entries written are the longest run of leading entries that fits |
| CrushLocation.ResultMeans | src/libcephfs.cc:1237-1243 | the size is returned if it fits, or if the length is 0, and fits an `int`; -ERANGE otherwise |
| CrushLocation.QueryIff | src/libcephfs.cc:1237-1243 | the size returned for length 0 is the least length that succeeds, if and only if it fits an `int` |
| CrushLocation.HugeLocationFailsQuery | src/libcephfs.cc:1237-1243 | a location of two to the power of 31 bytes makes the query return the smallest `int` |
| CrushLocation.StrCpy | src/libcephfs.cc:1228-1232 | writes the string up to its first NUL and one NUL, nothing else |
| CrushLocation.GetOsdCrushLocation | src/libcephfs.cc:1206-1244 | never writes at or behind the length; all error codes; the buffer holds the entries that fit, and on success reads back as the list if and only if no string has a NUL |
| MonmapStore.DecimalInjective | src/mon/MonitorDBStore.h:518-522 | versions written as text are distinct keys |
| MonmapStore.VersionKeysApart | src/mon/MonitorDBStore.h:554-558 | version keys differ from each other and from `latest` and `last_committed` |
| MonmapStore.MonStore.ObtainMonmap | src/ceph_mon.cc:59-103 | the committed map if there is one; else the backup of an aborted sync, whatever mkfs left; else the mkfs map; none exactly when none of the places that apply holds one |
| MonmapStore.MonStore.Inject | src/ceph_mon.cc:545-570 | stores the map under the next version with that epoch, where it is latest, in step and found next, and touches no other version |
| MonmapStore.InjectOne | src/ceph_mon.cc:545-570 | the injected map is stored with its epoch, is `latest`, and is found next; other versions are untouched |
| MonmapStore.InjectionHistory | src/ceph_mon.cc:545-570 | over any sequence of injections the version grows by one each time and every map stays under its own version |

## Left out

- Tracer: system calls, tracing output, permission bits, read, write, readdir, statfs, getattr and setattr; only success and the number and kind found are kept.
- Tracer: the descriptor sets of inodes and the third loop of `unlink_inode`, which closes stray descriptors.
- Tracer: `ref` is unbounded, and a lookup of an unknown number, which would insert a null entry into the index, is excluded by the runs considered. Handlers other than a lookup are not followed beyond an orphaned structure.
- InodeRuns.RunInvariant: the runs considered have no missed lookup that finds a cached number, because the property is false of them; `InOrderIff` says so.
- InodeCache.Tracer.UnlinkInode: takes parents and children in any order instead of map order; the result does not depend on it.
- MonCluster: leases, trimming (`first_committed`) and timeouts; synchronisation, which clears the store of a monitor; how elections are decided, so any monitor may win any majority in any higher epoch, and two may win in one epoch.
- MonCluster: commit is one step, without the states in which the transaction is being written; a message carries the sender's whole log as history, of which the receiver reads only what is above its base.
- MonCluster: the wrapping of the first version's value in a transaction that sets `first_committed`, repeated when that value is proposed again; values stand for their payload. The fallback for stores without a `pending_pn`. The assertion in `begin` that `num_last` exceeds half of the monitors. A quorum of one monitor, which skips collecting.
- MonFailures.AgreementIff: is about clusters whose ranks differ modulo 100, where numbers are unique.
- Thrasher: remote commands, objectstore-tool runs, reweighting and sleeps; `test_pool_min_size`, which kills everything on purpose and has weight 0 by default. The pause actions share the last key of their loop, which has no effect on the lists.
- PoolBook: `max_pgs` is a list in the source, so its comparison is an arbitrary outcome here; the closing loop runs without interleaved steps.
- StateDiagram: regular expressions, single-line comments, edges and output; a match is an input.
- Watchdog: daemons are their names; the assertion that a name keeps its object is not modelled, nor what barking does.
- MountHandle: allocation never fails; configuration calls and forwards to the client.
- CrushLocation: the caller's buffer is at least as long as the length given.
- MonmapStore: maps and values are structures instead of encoded bytes; versions do not wrap at 64 bits.
- The rest of the repository.
