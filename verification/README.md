# A verified model of Store Everything's state machines

Store Everything keeps a file tree on disk and an index of it in SQL tables. This project models the parts of it that
are transactional state machines and proves, in Dafny 4.11, what they keep. Each SQL statement or commit is one atomic
step; tables are maps held in fields of classes that methods update as the statements do, and each method is proved
against a function or relation on the rows about which the laws are proved.

`dafny verify dfyconfig.toml` checks everything.

**Folder tree, closure and rollup** (`Totals`, `FolderTree`, `Rollup`, `Slack`, `Steps`, `Moves`, `Effects`,
`Interleavings`, `Relinking`, `Expansion`, `Batching`, `Overtaking`, `Database`, `Paths`, `Lifetimes`, `Rotation`, `Starvation`). Folder totals
are a cache fed by a queue of deltas that are expanded over ancestors when drained, while moves rewrite the closure in
between. The law is one equation per folder: stored plus queued beneath equals live files beneath. The key step is that it holds
everywhere exactly when an equation between a folder and its children holds everywhere, which makes every transaction a
local change. On top of it: exactly when a rollup by batches goes through, and which folders the drift check comes to.

**External renames** (`Merging`, `Absorbing`, `Transferring`, `Renaming`, `Crossing`, `Identity`, `Tangling`). The
recursive merge of a directory's stand-in into the folder it really is, exactly when the totals come out right, the pass
that decides which folders were renamed, and exactly when that pass runs into a claim it cannot carry out.

**Scanning** (`ScanSafety`, `Classifying`, `Matching`, `Reconciling`, `Converging`, `Refusing`, `Tallying`, `Scanning`,
`Obstacles`, `Accounting`). A resumable crawl with a durable frontier, then a sweep. Safety is proved for arbitrary listings, crashes
and concurrent transactions, and so is what a finished run hands the identity pass; convergence, and what refuses it, for
a static, readable tree.

**The operation queue** (`Operations`, `Queueing`, `Fencing`, `Mirroring`, `Recording`, `Working`). Leases, attempts as fencing
tokens, retries and dead letters, over every interleaving; and the extraction runs that mirror it.

**Crash-safe storage** (`Disk`, `Durability`, `WriteSteps`, `Filestore`, `Retention`). Two crash models over the same
steps: a process kill keeps what the kernel holds, a power cut keeps of each directory entry any value it had since its
directory was synced, and arbitrary bytes of unsynced files. And blob collection with a grace window.

**Smaller machines** (`Tagging`, `Limiter`, `Segmenting`, `Identifiers`). Tag provenance, the sliding-window limiter,
the text splitter and the UUID generator.

Eight results are about where the code keeps less than its words say. Each is an exact condition (for scans, one from
either side, with what lies between named) and an input that shows the failure (`Instances`, `Starvation` and `Obstacles`
build five of them from an empty instance, statement by statement).
- A rollup drains the oldest deltas first, a thousand per statement, and the code says every batch is correct on its own
  (server/src/store_everything/aggregates.py:631-635) and a violated check a bug in the arithmetic
  (server/src/store_everything/tables.py:468-471). A folder move queues the youngest deltas, but carries older ones to
  its new parent at once. If more was taken from the moved folder than the new parent stores, and the move's own deltas
  fall into a later batch, the statement is refused, and so is every retry, which claims the same rows, while the drift
  check passes the folder over. `DatabaseModel.Database.RollUp` says exactly when a rollup is refused,
  `Overtaking.Overtaken` is a family of such states and `Instances.LostRollup` one of them.
- Scans are called convergent (specs/12-reliability.md:132). A directory that appears under the name of a file row beside
  it, a trashed one included, gets no folder, and nothing catches that refusal: the scan fails, and so does every later
  one while the row is there. `Scanning.Scanner.RunScan` converges whenever no row is in the way when it begins, and never
  when one is that cannot leave; `Obstacles.LostScan` is a file deleted and a directory of its name.
- Every folder is said to come around in the drift check (server/src/store_everything/aggregates.py:93-95), and a new one
  to be the next (server/src/store_everything/tables.py:464-466). New folders go first, and a folder is looked at exactly
  when fewer than the limit are ahead of it (`Rotation.ChosenExactly`). It comes around if fewer appear than the checks
  can take (`Rotation.ComesAround`); where as many do it may never be looked at again (`Starvation.Starved`).
- The identity pass checks that a source does not contain its destination, and takes the converse for impossible. It is
  at the start, but a transfer hangs what was under the vanished folder where the directory is now, possibly inside
  another directory that appeared. A claim on that one is then refused by the closure's primary key in the middle of the
  merge, and the whole pass is rolled back, on every retry. `Identity.Pass.Identities` says exactly which claims these
  are in terms of the tree the run left, and gives a condition on the run's own evidence that rules them out;
  `Tangling.NeverThrough` and `Instances.LostRename` show them.
- `Renaming.Transfer` keeps totals exact only when the parents agree or nothing alive is left below
  (`Instances.LostCount`). The sweep before it provides that exactly if nobody uploaded, moved or created anything in a
  folder the run does not account for (`Accounting.SweptLiveAccounted`, `Accounting.AccountedUpClosed`).
- `Filestore.FileSystem.StagedWrite` is durable exactly when the directories it found in place were, or are synced along
  with a level the staging directory lacks; `mkdir` without its sync survives a kill (`Filestore.LostWrite`).
- `Tagging.Tags.Merge` can put a machine's claim under a tag a person rejected (`Tagging.MergeOverrules`).
- A row may say the store holds its bytes after a mere look, which makes nothing young: `Retention.HoldExactly`, and
  `Retention.LostHold` for a blob that was there and is collected.

Two more comments disagree with their code. The drain's says a delta without a total row stays queued
(server/src/store_everything/aggregates.py:415-422), while the statement deletes it. `fail` says it returns the state
actually reached (server/src/store_everything/operations.py:414-418), which `Queueing.AnswerIsState` bounds and
`Recording.LateFailure` contradicts. The model follows the code.

## Model

| member | source | states |
|---|---|---|
| `Rollup.LocalIsGlobal` | server/src/store_everything/aggregates.py:452-498 | The rollup's promise over whole subtrees (stored total plus queued deltas at descendants equals live files beneath) holds at every folder if and only if a one-level equation between a folder's row, its own deltas and files, and its children's rows holds at every folder. |
| `Rollup.UnderSplit` | server/src/store_everything/aggregates.py:365-415 | What lies anywhere under a folder, queued or live, is what is filed at it plus what lies under each of its children: the ancestor expansion counts nothing twice. |
| `Interleavings.Reachable` | server/src/store_everything/aggregates.py:150-173 | Main theorem of the rollup: in every state reached from an empty instance by any interleaving of root and folder creation, registration, new versions, file moves, trashing, reactivation, folder moves within or across workspaces and drains of any batch size, every folder's stored files and bytes plus what is queued at its descendants equal the live files beneath it. |
| `Interleavings.NoDrift` | server/src/store_everything/aggregates.py:555-622 | In every reachable state a folder with nothing pending beneath it stores exactly the truth, so the drift check has nothing to correct. |
| `Interleavings.SettlesInOneDrain` | server/src/store_everything/aggregates.py:373-446 | In every reachable state a claimed batch goes through if and only if what it leaves queued beneath each folder is at most the live files there, and is undone otherwise; one that holds the workspace's whole queue goes through, empties it and leaves every total of the workspace exact. |
| `Lifetimes.Live` | server/src/store_everything/aggregates.py:150-173 | Any sequence of transactions from the empty instance, state by state: each leads to the next as `Lifetimes.Perform` says, and in every one of them each total plus what is queued beneath it is the live files beneath it, and looking up the path of any folder finds that folder. |
| `Lifetimes.Perform` | server/src/store_everything/aggregates.py:150-173 | What one transaction does to the rows: the step of the rollup model if the rows it names are there, a transfer with its merges under its exact condition, a drained batch, nothing for a check over exact totals or a refusal; and constraints, equation and keys hold afterwards. |
| `Lifetimes.Through` | server/src/store_everything/aggregates.py:150-173 | The same for any sequence of transactions from any such database. |
| `Lifetimes.TransferKeyed` | server/src/store_everything/reconcile.py:646-666 | A rename with its merges keeps every stored key the comparison key of the stored name, respellings included. |
| `Moves.ApplyKeeps` | server/src/store_everything/aggregates.py:373-432 | Whatever batch is claimed, each total gains exactly what its queue loses, because deltas are expanded over the ancestors they have when drained. |
| `Moves.BatchGoesThrough` | server/src/store_everything/aggregates.py:373-446 | Any batch whatever passes the non-negativity check if and only if, beneath no folder, more stays queued behind it than there are live files. |
| `Moves.FullDrainGoesThrough` | server/src/store_everything/aggregates.py:373-432 | Draining a workspace's whole queue never drives a total below zero. |
| `Moves.FullDrainExact` | server/src/store_everything/aggregates.py:435-446 | After a drain of the whole queue every total of that workspace equals ground truth. |
| `Moves.MoveFolderKeeps` | server/src/store_everything/folders.py:564-694 | A folder move, within or across workspaces, with deltas still queued beneath it keeps constraints and the rollup equation: the minus/plus pair moves the stored totals and the queued rows travel with the closure. |
| `Steps.RegisterKeeps` | server/src/store_everything/files.py:338-440 | Registering a file and queueing its delta keeps constraints and equation; a live name already taken changes nothing. |
| `Steps.AddVersionKeeps` | server/src/store_everything/files.py:516-623 | The step keeps constraints and equation; what it writes is `Effects.AddVersionRows`. |
| `Steps.MoveFileKeeps` | server/src/store_everything/files.py:640-731 | A file move queues minus at the old folder and plus at the new one only when the folder changed and the file is live, and keeps the equation. |
| `Steps.TrashKeeps` | server/src/store_everything/trash.py:86-154 | Trashing flips the state once and queues the loss once however often it is reported. |
| `Steps.ReactivateKeeps` | server/src/store_everything/trash.py:157-205 | Taking a file out of the trash queues its gain exactly when the guarded flip happened. |
| `Effects.TruthCounts` | server/src/store_everything/aggregates.py:452-498 | Ground truth is what it says: as many files as there are live rows at or below the folder. |
| `Effects.RegisterRows` | server/src/store_everything/files.py:338-440 | Column by column: unless a live row holds the name, one live row with the given folder, name, key and size under a new id, and exactly one amount queued, one file and its bytes owed to its folder. |
| `Effects.RegisterGains` | server/src/store_everything/files.py:338-440 | Ground truth gains one file and its bytes at the folder and all above it and nowhere else. |
| `Effects.AddVersionRows` | server/src/store_everything/files.py:516-623 | The row has the new size and every other row is as it was; a live file whose size changed owes its folder the difference, new minus old, and any other owes nothing. |
| `Effects.AddVersionGains` | server/src/store_everything/files.py:516-623 | Ground truth in bytes rises by the difference at the folders above a live file and nowhere else. |
| `Effects.MoveFileRows` | server/src/store_everything/files.py:640-731 | The row has the new folder, name and key unless it is live and a live one holds the name there; a live row that changed folder owes its bytes to the new folder and minus its bytes to the old one. |
| `Effects.MoveFileShifts` | server/src/store_everything/files.py:640-731 | Ground truth leaves every folder above the old place only and joins every folder above the new place only. |
| `Effects.TrashRows` | server/src/store_everything/trash.py:86-154 | A live row stops being live and its folder is owed the loss; a row not live is left alone with nothing queued. |
| `Effects.TrashLoses` | server/src/store_everything/trash.py:86-154 | Ground truth loses the file at all folders above it and nowhere else. |
| `Effects.ReactivateRows` | server/src/store_everything/trash.py:157-205 | A trashed row comes back and its folder is owed the gain, unless a live row holds its name by now. |
| `Effects.ReactivateGains` | server/src/store_everything/trash.py:157-205 | Ground truth gains the file at all folders above it and nowhere else. |
| `Effects.CreateRootRows` | server/src/store_everything/folders.py:203-253 | One root per workspace: a new row with depth zero and no parent, and a total of nothing, unless there is one. |
| `Effects.CreateChildRows` | server/src/store_everything/folders.py:360-421 | A new row under the parent, one level deeper, with the name and key given and a total of nothing, unless a folder or a file of any state holds the key. |
| `Effects.MoveFolderRows` | server/src/store_everything/folders.py:564-694 | The tree is the old one with the subtree hung elsewhere; files stay in their folders, and those in the subtree take the workspace of the new parent. |
| `Effects.MoveFolderOwes` | server/src/store_everything/folders.py:564-694 | Rows queued before stay queued, those of the subtree under the new parent's workspace; the stored total, unless it is zero, is owed to the new parent and minus it to the old one. |
| `Effects.MoveFolderShifts` | server/src/store_everything/folders.py:564-694 | Ground truth beneath the folder leaves the chain it hung under and joins the one it hangs under now. |
| `DatabaseModel.Database.CreateRoot` | server/src/store_everything/folders.py:203-253 | Statement-level creation of a workspace root: one root per workspace, self link, zero totals, convergent on a second call; the row is given column by column and the closure stays exact. |
| `DatabaseModel.Database.CreateChild` | server/src/store_everything/folders.py:360-421 | Inserts, converges on the folder of that key, or refuses a name any file holds; the closure rows inserted are the parent's ancestors one level deeper. |
| `DatabaseModel.Database.Relocate` | server/src/store_everything/folders.py:564-694 | Refuses exactly the root, a cycle, a taken name or a filesystem refusal, leaving every table as it was; otherwise detach, attach, depth shift, re-tagging and the two deltas leave exactly the moved state with an exact closure. |
| `DatabaseModel.Database.Record` | server/src/store_everything/aggregates.py:150-173 | Queues one delta row, or none for a zero amount. |
| `DatabaseModel.Database.Register` | server/src/store_everything/files.py:338-440 | The insert and its delta leave the state of the registering step; the new row is live with the folder, name, key and size given, and one file and its bytes are owed to its folder. |
| `DatabaseModel.Database.AddVersion` | server/src/store_everything/files.py:516-623 | The version switch and its delta leave the state of the versioning step: the file has the new size, all other rows are as they were, and a live file of another size owes its folder new minus old. |
| `DatabaseModel.Database.MoveFile` | server/src/store_everything/files.py:640-731 | The row update and its deltas leave the state of the file-moving step: new folder, name and key, and a live file that changed folder is owed to the one and minus to the other. |
| `DatabaseModel.Database.Trash` | server/src/store_everything/trash.py:86-154 | The guarded flip to trashed and its delta leave the state of the trashing step: only that row stops being live, and its loss is owed exactly when it was. |
| `DatabaseModel.Database.Reactivate` | server/src/store_everything/trash.py:157-205 | The guarded flip to live and its delta leave the state of the reactivating step: only that row becomes live, and its gain is owed exactly when it was trashed. |
| `DatabaseModel.Database.Claim` | server/src/store_everything/aggregates.py:385-398 | Claims the smallest delta ids of the workspace up to the limit: the ordered, limited delete of the drain statement. |
| `DatabaseModel.Database.Drain` | server/src/store_everything/aggregates.py:435-446 | The looping expansion of a claimed batch over the closure equals the simultaneous sum per ancestor; a violated check undoes the statement; the answer is the number of folders credited. |
| `DatabaseModel.Database.GroundTruth` | server/src/store_everything/aggregates.py:452-498 | Counting live files through the closure computes the sum over the parent-link subtree. |
| `DatabaseModel.Database.QueuedUnder` | server/src/store_everything/aggregates.py:250-271 | Summing deltas through the closure computes the sum over the parent-link subtree. |
| `DatabaseModel.Database.Verify` | server/src/store_everything/aggregates.py:583-614 | Folders with nothing pending end exact, others keep their row; exactly the rows that changed are reported, and over a consistent state none is. |
| `Rotation.Rota.Verify` | server/src/store_everything/aggregates.py:555-622 | Of the workspace's folders with nothing pending beneath them, takes those least recently verified, new ones first, up to the limit; leaves their totals exact, reports exactly the totals it changed, and sends the folders it took to the back. |
| `Rotation.ChosenExactly` | server/src/store_everything/aggregates.py:571-582 | A folder is looked at if and only if it has nothing pending and fewer than the limit of the others are ahead of it. |
| `Rotation.ComesAround` | server/src/store_everything/aggregates.py:93-95 | Over any series of checks with folders coming and going in between, a folder with nothing pending is looked at as soon as the checks could have taken more than were ahead of it and came to be ahead of it since. |
| `Rotation.Rotate` | server/src/store_everything/aggregates.py:555-622 | Checks with any transactions between them are such a series: it begins with the stamps and rows there are, each check is of the folders and stamps that the one before and the transactions since have left, and the last leaves what is there at the end. |
| `Starvation.StarvedForGood` | server/src/store_everything/aggregates.py:555-582 | In every series of checks that begins with a root alone and has, between two checks, as many folders created in the root as one looks at, only the first check looks at the root, however many there are; and the others could have taken exactly as many as came to be ahead of it: the bound of `Rotation.ComesAround` cannot be lowered. |
| `Starvation.Starved` | server/src/store_everything/aggregates.py:555-582 | Such a series from an empty instance, for any number of checks. |
| `DatabaseModel.Database.RollUp` | server/src/store_everything/aggregates.py:628-672 | Refused if and only if for some number k of batches below the cap what is queued beyond the first k + 1 exceeds the live files beneath some folder; until there it has applied exactly the oldest rows. A refused rollup leaves a state in which the next one is refused at once and changes nothing. Otherwise it settles exactly when the queue fits in one batch fewer than the cap, with every total of the workspace equal to its live files; a queue of at most one batch always settles. |
| `Batching.StuckMeans` | server/src/store_everything/aggregates.py:435-446 | Whatever rows a batch claims in id order, it is refused, and leaves every row as it was, if and only if what is queued beyond the oldest thousand exceeds the live files beneath some folder. |
| `Overtaking.RolledBrought` | server/src/store_everything/folders.py:609-694 | After a move inside a workspace an older batch does to the new parent what it did before and also what it did to the folder moved: the rows travel with the closure. |
| `Overtaking.Overtaken` | server/src/store_everything/aggregates.py:628-672 | If the oldest batch takes more from under a folder and its new parent together than the new parent stores, then after the move the rollup is stuck at that batch, the batch changes nothing, and the new parent has rows pending, so the drift check skips it. |
| `Instances.LostRollup` | server/src/store_everything/aggregates.py:628-672 | In a state reached from the empty instance (a file trashed, 999 uploaded elsewhere, the folder moved) the rollup is stuck: it is refused, and so is the next, with every row as it was, and the drift check passes the folder over. |
| `Lifetimes.RollUpMeanwhile` | server/src/store_everything/aggregates.py:628-672 | The states its batches meet begin with the database's own and each follows from the one before by one batch and then the transactions that commit in between. Each batch goes through if and only if the rollup is not stuck in the state it meets; it settles exactly when it meets an empty queue, and then every total of the workspace is exact. |
| `FolderTree.ExactIsWalks` | server/src/store_everything/tables.py:427-450 | An exact closure holds a row (a, d, n) if and only if a walk of n parent links leads from d up to a: the reflexive-transitive closure with exact lengths, without mentioning the depth column. |
| `FolderTree.HangAbove` | server/src/store_everything/folders.py:595-663 | Ancestry after a subtree is hung elsewhere: unchanged outside, inside the old inner links plus the new parent's chain. |
| `Relinking.RelinkExact` | server/src/store_everything/folders.py:953-980 | Detach then attach turns an exact closure into the exact closure of the moved tree. |
| `Relinking.AttachClashes` | server/src/store_everything/folders.py:953-980 | After the detach, the attach inserts a row whose key the closure still holds if and only if the new parent lies inside the moved subtree: the primary key refuses exactly the cycles. |
| `Relinking.LeafExact` | server/src/store_everything/folders.py:397-412 | The closure insert for a new folder keeps the closure exact. |
| `DatabaseModel.Database.Rehang` | server/src/store_everything/folders.py:609-678 | The in-place statements of a move (closure out, closure in, depth shift, parent and name) leave the hung tree with its exact closure. |
| `Paths.ResolveIsPath` | server/src/store_everything/folders.py:456-472 | Looking up segments from a folder finds a folder if and only if the segments spell its path below it up to the comparison key: sibling uniqueness leaves no second answer. |
| `Paths.PathResolves` | server/src/store_everything/folders.py:456-503 | resolve of the path of a folder returns that folder, for every folder of a well-formed tree with keys computed from names; `Lifetimes.Live` has it in every state an instance can come to. |
| `Paths.RelocationIsRename` | server/src/store_everything/folders.py:618-663 | After a folder move the path of every folder in the subtree is its old path with the old prefix replaced, and every other path is unchanged: the same map a rename of the directory makes on disk. |
| `Paths.DerivePath` | server/src/store_everything/folders.py:475-503 | Reading the chain out of the closure, longest link first and skipping the nameless root, yields the path along the parent links. |
| `Paths.SplitJoined` | server/src/store_everything/folders.py:475-503 | Splitting a joined path at its separators returns the names, for names without one. |
| `Absorbing.Absorb` | server/src/store_everything/folders.py:876-911 | Pouring one folder into another re-parents its children and re-files its files, and keeps the closure exact. It is refused if and only if a live name is held on both sides or the poured folder contains the other, which the closure refuses. |
| `Transferring.Discard` | server/src/store_everything/folders.py:914-920 | Deleting an emptied folder's row keeps constraints and an exact closure. |
| `Transferring.HandOver` | server/src/store_everything/reconcile.py:646-666 | What a merged pair hands over, in order: queue, applied totals, row, spelling. |
| `Transferring.MergeInto` | server/src/store_everything/reconcile.py:618-668 | The recursive namesake merge: discarded rows map one-to-one to survivors of the same key under a merged parent; every folder, file, delta and total follows that map; below the two folders the rollup equation still balances and between them it is conserved. Refused only when live files lie below both folders or the discarded folder contains the survivor, and in that case always, however many namesakes are merged first. |
| `Merging.RoundPaired` | server/src/store_everything/reconcile.py:644-668 | Only namesakes under a pair that is itself one directory are merged, at every depth. |
| `Renaming.Reposition` | server/src/store_everything/folders.py:780-843 | Putting a folder where its directory already is keeps the closure exact, whether or not the parent changes. |
| `Renaming.Transfer` | server/src/store_everything/reconcile.py:692-779 | An external rename: the stand-in's queue and totals are inherited, children merged, the row deleted, the survivor moved, differing parents compensated. The equation holds afterwards if and only if the parents were equal or no live file lay below the vanished folder. A stand-in that contains the vanished folder is always refused; a refusal restores every table. |
| `Renaming.TransferVerdict` | server/src/store_everything/reconcile.py:716-765 | Why: the compensation moves what was queued, so each differing parent is off by exactly the live files below the survivor. |
| `Identity.Majority` | server/src/store_everything/reconcile.py:506-524 | Answers the one destination that holds a strict majority of the files or of the folders with no different destination holding the other; no answer means none does. |
| `Identity.OneMajority` | server/src/store_everything/reconcile.py:458-524 | Because what is known includes what moved, two destinations can never both hold a strict majority. |
| `Identity.SameInAnyOrder` | server/src/store_everything/scans.py:410-424 | The verdict depends on the evidence and not on the order it is read in. |
| `Identity.Pass.Claim` | server/src/store_everything/reconcile.py:527-580 | A destination is claimed if and only if the source vanished, is no root and not new, and a new existing folder outside its subtree wins the majority, which `Identity.ClaimExactly` counts in rows. |
| `Identity.ClaimExactly` | server/src/store_everything/reconcile.py:450-580 | A claim by the rows, without naming any count of the pass: more than half of one kind of what belonged to the folder is in the destination (its files found there against the known rows still filed at the folder, live or trashed, plus those found elsewhere; child folders likewise) and no other destination holds most of either kind. |
| `Identity.TrashedStillCount` | server/src/store_everything/reconcile.py:450-503 | Trashing files, the ones this run's sweep took among them, changes no claim. |
| `Identity.Pass.Deepest` | server/src/store_everything/reconcile.py:822-840 | The undecided claim acted on is one no other undecided claim is deeper than, ties going to the larger id; none exactly when no undecided claim is left. |
| `Identity.InnerFirst` | server/src/store_everything/reconcile.py:789-893 | On the course of turns no folder with an undecided claim lies below the one considered, and of two equally deep ones the one with the larger id comes first. |
| `Identity.Pass.Contested` | server/src/store_everything/reconcile.py:808-818 | A destination is contested if and only if two different sources claim it from the start. |
| `Identity.Pass.Hand` | server/src/store_everything/reconcile.py:848-866 | One transfer with its relocation record keeps rows consistent, evidence well filed and everyone accounted for. |
| `Identity.EvidenceMoves` | server/src/store_everything/reconcile.py:848-866 | After a transfer the evidence of any two folders still there is what it was, but for the parents of source and destination: if they differ, one folder more was found from the one to the other. |
| `Identity.Pass.Identities` | server/src/store_everything/reconcile.py:789-893 | The whole pass terminates, each source and each destination is transferred at most once, and the rollup equation survives any number of transfers. It is a course of turns, each taking the deepest claim of a source not considered yet, leaving a destination already spoken for alone and carrying out any other, and the transfers asked for are exactly those; either it ends with every claim considered, or the last turn asked for a transfer into a directory that contains its source, and every table is as it was. Where everything under folders the run registered is accounted for, it is undone if and only if an attempt crosses an earlier transfer: its source went along with a folder whose directory lay inside the attempt's destination, both read off the tree the pass began with. With straight evidence (of two vanished folders one inside the other, the inner one cannot go outside the outer one's directory) it is never undone. |
| `Crossing.AboveTransferred` | server/src/store_everything/reconcile.py:692-765 | What a transfer does to ancestry: every folder left outside the moved subtree is above what it was above, except that it is above all of the moved subtree or nothing of it, as it was above the stand-in. |
| `Crossing.TrackedNext` | server/src/store_everything/reconcile.py:848-872 | Through any number of transfers an undecided folder lies under a directory that appeared if and only if the nearest transferred folder above it in the run-start tree went to a directory inside that one. |
| `Crossing.StraightNeverCrosses` | server/src/store_everything/reconcile.py:565-580 | If the evidence is straight no claim the pass comes to consider, evidence gained from transfers included, has its destination above its source. |
| `Tangling.NoClaimYet` | server/src/store_everything/reconcile.py:506-524 | Half here and half there is no majority: before the transfer above it the scattered folder has no claim. |
| `Tangling.Entangle` | server/src/store_everything/reconcile.py:848-872 | In every state where a vanished folder is scattered half into a new directory and half into one inside it, and a folder above it takes the inner one's place, the scattered folder then claims the outer directory, which contains it. |
| `Tangling.NeverThrough` | server/src/store_everything/reconcile.py:789-893 | Where that is all the evidence, no course of turns ends with every claim considered: the pass is refused whatever it does, and again on every retry. |
| `Tangling.SecondRefused` | server/src/store_everything/reconcile.py:848-872 | It is refused at its second turn, the claim of the scattered folder, after the folder above it was renamed. |
| `Instances.LostRename` | server/src/store_everything/reconcile.py:565-580 | In a state reached from the empty instance, five folders and three files: the pass carries out one rename, meets a claim on the directory that contains its source, is refused and leaves everything as it was. |
| `Instances.LostCount` | server/src/store_everything/reconcile.py:743-765 | A state reached from the empty instance, with differing parents and one live file left below: totals are exact, the transfer is carried out, and totals are wrong. |
| `Identity.NothingLiveBelow` | server/src/store_everything/reconcile.py:789-803 | If no live file lies in an unaccounted folder, as `Accounting.SweptLiveAccounted` derives from a finished scan, none lies anywhere below one. |
| `Accounting.AccountedUpClosed` | server/src/store_everything/folders.py:747-777 | After any traversal with crashes and concurrent transactions, whoever the run accounts for (outside its root, registered since, seen, or under a blocked directory) it accounts for the folder above, if and only if the folders others added meanwhile hang under accounted ones. |
| `Accounting.SweptLiveAccounted` | server/src/store_everything/reconcile.py:390-433 | Once the sweep finds nothing more, every live file lies in an accounted folder if and only if every live row that others put somewhere during the run, and that is still there, does. |
| `Accounting.YoungAreSettled` | server/src/store_everything/folders.py:754-757 | Everything at or under a folder registered during the run counts as accounted for. |
| `Accounting.EvidenceLands` | server/src/store_everything/reconcile.py:300-325 | A row a listing moved, which is what evidence of a rename records, is in a folder the run accounts for. |
| `Accounting.EvidenceStands` | server/src/store_everything/reconcile.py:314-322 | The evidence counted along a run, every row a listing moved and nothing else, names folders of one workspace that are there and lands in accounted ones. |
| `Accounting.ListingCounted` | server/src/store_everything/reconcile.py:325-339 | Every row a listing moved from one folder to another is counted in the evidence between the two. |
| `Accounting.SweepPrepares` | server/src/store_everything/scanning.py:531-571 | A finished traversal and sweep, with the evidence they counted, leave everything the identity pass begins with, and no tangled claim among it, if others kept to accounted folders. |
| `Identity.StillAccounted` | server/src/store_everything/folders.py:716-732 | A transfer and its stamps leave every seen folder's parent seen and every live file in a seen folder. |
| `Operations.ClaimableExactly` | server/src/store_everything/operations.py:231-251 | Unfinished work is claimable from its due time or its lease's end on, and finished work never is. |
| `Operations.ClaimUsesOne` | server/src/store_everything/operations.py:254-298 | Every claim lowers max attempts + 1 - attempt by one, and the claim that uses the last dead-letters the row. |
| `Operations.RefusedRequeueRecovers` | server/src/store_everything/operations.py:436-452 | A retry the one-queued-row-per-key index refuses leaves the row running, and it is claimable again once its lease ends. |
| `Operations.RequeuedSane` | server/src/store_everything/tables.py:218-300 | Requeueing keeps at most one queued row per key and leases only on running rows. |
| `Operations.ClaimLeases` | server/src/store_everything/operations.py:254-298 | A claim adds one to the attempt, keeps what was asked for, and leases the row to its worker until the given time, or ends it for good when attempts are spent. |
| `Operations.BeatExtends` | server/src/store_everything/operations.py:332-357 | A beat of the claim's own worker leaves the lease ending at the given time and the row claimable not before; any other beat changes nothing. |
| `Operations.FinishEnds` | server/src/store_everything/operations.py:360-401 | A report of the current claim leaves the row in that final state with no lease; a stale one changes nothing. |
| `Operations.DeadLetterEnds` | server/src/store_everything/operations.py:305-329 | Giving up ends the row of this attempt whatever its state, and no other. |
| `Operations.RequeueWaits` | server/src/store_everything/operations.py:436-452 | A requeued row has no lease and is claimable exactly from the given due time on. |
| `Operations.FailureLeaves` | server/src/store_everything/operations.py:404-452 | A current claim's failure leaves the row failed, given up when attempts are spent, or claimable exactly from the retry time on, unless a queued row holds its key. |
| `Operations.ReleaseWaits` | server/src/store_everything/operations.py:455-481 | A row given back is claimable at once with its attempt counted. |
| `Operations.CancelAsks` | server/src/store_everything/operations.py:484-514 | A queued row is cancelled on the spot, a running one flagged and left running, a finished one untouched. |
| `Queueing.Queue.Claim` | server/src/store_everything/operations.py:231-298 | Takes a best free row (priority, then due time) among those not locked by other claims, counts the attempt, leases it until the given time, and buries the row instead of handing it out when attempts are spent. |
| `Queueing.BestIsFirst` | server/src/store_everything/operations.py:231-251 | No other row that is queued and due, or running past its lease, has a lower priority number, or the same and an earlier due time. |
| `Queueing.Queue.Heartbeat` | server/src/store_everything/operations.py:332-357 | Extends exactly the current claim of its worker, reviving an expired lease nobody reclaimed: the lease then ends at the given time and nothing else differs; otherwise says stop and changes nothing. |
| `Queueing.Queue.Finish` | server/src/store_everything/operations.py:360-401 | The guarded terminal transition: exactly when the claim is current the row is in the final state with no lease, else nothing changes. |
| `Queueing.Queue.Fail` | server/src/store_everything/operations.py:404-452 | Answers the branch taken, and leaves the row failed, dead-lettered, or queued without a lease and claimable exactly from the retry time on. |
| `Queueing.AnswerIsState` | server/src/store_everything/operations.py:404-452 | The answered state is the row's state if and only if the claim could still write or the row stood there already: the documentation promises it always is. |
| `Queueing.Queue.Release` | server/src/store_everything/operations.py:455-481 | Hands a current claim back due now without touching the attempt. |
| `Queueing.Queue.RequestCancel` | server/src/store_everything/operations.py:484-514 | Cancels queued work, flags running work, and says whether there was any. |
| `Queueing.Queue.Enqueue` | server/src/store_everything/operations.py:131-228 | With other transactions committing between any two statements, it creates the row or converges on a pending one, and gives up if and only if the key changed hands in all three rounds. |
| `Queueing.VacantExactly` | server/src/store_everything/operations.py:131-228 | Nothing to converge on: no queued row of the key, and no running one where those count. |
| `Queueing.OneScheduled` | server/src/store_everything/operations.py:524-566 | A schedule's key names exactly one queued row. |
| `Queueing.Queue.Expedite` | server/src/store_everything/operations.py:569-603 | Moves a queued row's due time to the earlier of the two, never later, and leaves any other row alone. |
| `Fencing.EffectsOnce` | server/src/store_everything/runner.py:274-327 | Under any interleaving of enqueues, claims, expiries, revived heartbeats, zombie reports, retries, releases, cancellations and worker deaths with one report per claim, an operation's effects committed if and only if it is succeeded, then exactly once, and from the attempt the row shows. |
| `Fencing.FinishedForGood` | server/src/store_everything/operations.py:360-389 | No later step changes the state or attempt of a finished operation. |
| `Fencing.AttemptsBounded` | server/src/store_everything/operations.py:254-298 | The claims handed out for one operation carry strictly increasing attempts between 1 and its limit. |
| `Fencing.NeverStuck` | server/src/store_everything/operations.py:231-251 | In every reachable state an operation is claimable with time if and only if it is unfinished, and it has a claim left. |
| `Fencing.SecondReportOverwrites` | server/src/store_everything/operations.py:305-318 | Giving up is guarded on the attempt alone: a second report on a finished claim would overwrite the ending exactly when the attempt still matches. |
| `Working.Perform` | server/src/store_everything/runner.py:209-327 | Each step of the histories above is what the queue's own method does: the same rows, and what is out, handed out and committed follows from its answer. |
| `Working.Serve` | server/src/store_everything/runner.py:194-327 | A queue on which the steps of any history are called one after the other has the rows that history ends with. |
| `Mirroring.Extraction.ReconcileRuns` | server/src/store_everything/extraction.py:1028-1074 | Afterwards ended runs and ended jobs are the same in the same state and a running run has a live lease, if and only if no run claimed an end its job did not have; a run that agreed is left alone, the answer is the number of runs changed, and a second call finds nothing. |
| `Mirroring.Extraction.Abandon` | server/src/store_everything/extraction.py:989-1013 | Mirrors the queue's answer; the record stays truthful exactly when the claim was current or the answer happens to be the job's state. |
| `Mirroring.Extraction.Claim` | server/src/store_everything/extraction.py:784-838 | What the queue gives decides: with nothing to claim, record and queue agree afterwards; a job with a run is claimed and the run says running; a job without one is failed for good and the record is unchanged. |
| `Mirroring.Extraction.Finish` | server/src/store_everything/extraction.py:931-940 | Run and job succeed together or neither changes. |
| `Mirroring.Extraction.Release` | server/src/store_everything/extraction.py:1016-1025 | Run and job are queued together when the claim was current. |
| `Mirroring.Extraction.SupersedePending` | server/src/store_everything/extraction.py:671-690 | Asks exactly the unfinished runs among those named to stop, touches no other job, and counts the ones still pending. |
| `Recording.RecordHolds` | server/src/store_everything/extraction.py:1028-1074 | Over every interleaving of jobs, workers, reports, deaths and reconciling, with failures reported when the answer is what the job is left in: a run that says it ended says what its job says, reconciling at any point makes all agree, and a second time changes nothing. |
| `Working.Record` | server/src/store_everything/extraction.py:784-1074 | Each call on the extraction record is one event of these histories, or two: an idle claim also settles the record, and a job without a run is claimed and fails on the spot. |
| `Recording.ReportableExactly` | server/src/store_everything/extraction.py:989-1013 | In every such history a claim still out may report a failure truthfully if and only if it may be retried, the claim is current, or the job has failed already. |
| `Recording.LateFailure` | server/src/store_everything/operations.py:414-421 | Claimed, the lease over, claimed by another, and a permanent failure reported by the first: answered as failed while the job runs. |
| `ScanSafety.OnlyAbsenceDeletes` | server/src/store_everything/files.py:193-250 | Scan safety over whole runs with crashes, arbitrary listings and other transactions: a row is trashed only if it was registered before the run, nothing above it was blocked, and walking from the run's directory through listings that held the next step there is a processed directory whose listing, or confirmed absence, lacked the next step. |
| `ScanSafety.ProcessedOnce` | server/src/store_everything/scans.py:303-345 | However often a run is killed and resumed it processes no directory twice. |
| `ScanSafety.CommitKeeps` | server/src/store_everything/scanning.py:497-530 | Every commit (one directory, a sweep batch, somebody else's transaction) keeps: known paths were listed by their parent and are filed under its folder, listed directories are known, unreadable ones are blocked, unstamped rows are unmentioned. |
| `Classifying.Classify` | server/src/store_everything/scanning.py:223-305 | Every name is mentioned but the app's own directory; a name is registered if and only if it is the first valid non-link to claim its comparison key and of the right kind; registered names have distinct keys; conflicts and skipped entries are counted exactly. |
| `Classifying.SortedRules` | server/src/store_everything/scanning.py:223-305 | What becomes of each entry, in its own fields: mentioned unless it is the app's own directory; of the usable ones of each key (no link, not the app's own, a name that can be stored) the first is listed for what it is, with its stat and hash. |
| `Classifying.SortedOnly` | server/src/store_everything/scanning.py:223-305 | And nothing else is mentioned or listed. |
| `Matching.ChoiceKeepsNames` | server/src/store_everything/reconcile.py:162-211 | Some absent candidate whenever there is one, never one of another name or a younger one in place of the oldest that kept its name. |
| `Scanning.Scanner.MovedFrom` | server/src/store_everything/reconcile.py:162-211 | The row taken for a move is live, unseen by the run, of the same content and gone from its own path; every other such row is passed over for a reason: an older row is taken, one that kept the entry's name is, or 32 rows of this content come before it. |
| `Matching.MovedForReason` | server/src/store_everything/reconcile.py:162-211 | Every row this content may have moved from and that is not taken is passed over for one of the reasons above. |
| `Scanning.Scanner.Candidates` | server/src/store_everything/files.py:474-513 | The live, unseen rows with this content, oldest registration first, up to the limit. |
| `Scanning.Scanner.ReconcileEntry` | server/src/store_everything/reconcile.py:258-339 | The table of conclusions for one entry, first match wins: the newest trashed row is restored if it has the content, else the heuristic's choice is moved, else a row is registered; each writes one row and nothing else. |
| `Scanning.Scanner.Directory` | server/src/store_everything/reconcile.py:217-341 | Afterwards every accepted file has its live row, stamped and agreeing with the disk; mentioned rows are stamped; rows stamped elsewhere are untouched; files still at their own path stay; no row disappears, and none comes to a name but that of an accepted file; a directory that already agreed changes nothing but stamps. |
| `Scanning.Scanner.EnsureChild` | server/src/store_everything/folders.py:424-448 | The folder row for a listed directory, created if missing under the directory's own name, its key, the parent and one level deeper, and no other; refused if and only if it is missing and a file row, live or trashed, holds its name. |
| `Scanning.Scanner.ProcessDirectory` | server/src/store_everything/scanning.py:311-402 | One committed directory is a step of the safety model and makes the progress convergence needs; it is refused, and changes nothing, if and only if a file row holds the name of a listed directory that has no folder. |
| `Scanning.Scanner.Traverse` | server/src/store_everything/scanning.py:497-544 | The frontier loop terminates, is a trace of the safety model, keeps progress wherever it is killed, and empties the frontier when it is not, unless a listing is refused; and so far as it came it met no directory whose name was held for good when the run began. |
| `Scanning.Scanner.SweepBatch` | server/src/store_everything/reconcile.py:390-433 | Takes only rows the query returns, up to the limit; zero exactly when none is left. |
| `Scanning.Scanner.RunScan` | server/src/store_everything/scanning.py:442-565 | Convergence over a static readable tree, killed, refused and retried any number of times. The run is a trace of the safety model from the index it begins with. If no file row holds the name of a reachable directory without a folder when it begins, the index equals the disk at the end and exactly the reachable directories are processed. If one does that is trashed, or is at its own path, or has its content nowhere but in and below that directory, the run is refused, and leaves an index that refuses the next. Folders are added only for listed directories, under their names, so that each processed directory's folder is at its path if those on the way were; no row disappears or comes to a name that is not there; each counter is how many rows differ in its way between the first index and the last; a run over a converged index registers, versions, moves, restores and trashes nothing; a file still at its own path is never moved. |
| `Refusing.BarredWasHeld` | server/src/store_everything/folders.py:256-265 | Whatever refuses a listing during a run was in its way when the run began: rows come to a folder only under names of accepted files. |
| `Refusing.StillHeld` | server/src/store_everything/folders.py:360-371 | Until its directory is processed, a row in the way that cannot leave has not left, and no folder has appeared beside it. |
| `Refusing.OrderDecides` | server/src/store_everything/reconcile.py:284-324 | Of the other rows in the way, live with nothing at their path and their content elsewhere, the order of the directories decides: once one is taken for the file found elsewhere, its name bars nothing. |
| `Refusing.FiledAtPath` | server/src/store_everything/folders.py:374-384 | A folder filed for a directory spells the directory's path, if the folders there before on the way to it spelled theirs. |
| `Tallying.SweptTold` | server/src/store_everything/scanning.py:394-402 | After the sweep each counter of the run is a number of rows: new ones, ones of other content, ones at another folder or name, ones back from the trash, ones trashed. |
| `Tallying.TalliedOn` | server/src/store_everything/scans.py:265-300 | Counters of two stretches add up where no row is touched twice. |
| `Obstacles.LostScan` | server/src/store_everything/scanning.py:365-372 | From an empty workspace: a scan registers a file, the next trashes it; then there is a directory of its name, and every scan from then on, however many and however often retried, ends at the listing it refuses. |
| `Converging.ConvergedContent` | server/src/store_everything/reconcile.py:145-156 | Where a recorded stat implies the bytes, every accepted file of every reachable directory has exactly one live row at its place with its content hash. |
| `Converging.ReachableIsDone` | server/src/store_everything/scans.py:319-345 | With the frontier empty the processed paths are exactly those a walk from the run's directory reaches. |
| `Converging.FoldersDiffer` | server/src/store_everything/folders.py:345-357 | Different directories of a run are filed under different folders. |
| `Durability.SurvivesExactly` | server/src/store_everything/filestore.py:103-114 | A file survives every power cut if and only if every directory above it is synced and whatever its entry may be left as holds these bytes, synced. |
| `DiskModel.CutIsFirm` | server/src/store_everything/filestore.py:117-130 | After a power cut every directory that is left is durable, which is what the next write may assume. |
| `Filestore.FileSystem.EnsureDirectory` | server/src/store_everything/filestore.py:117-143 | Creates every missing level and makes each durable in its parent, changing nothing else, and fails exactly when a file is in the way. |
| `Filestore.FileSystem.CommitStaged` | server/src/store_everything/filestore.py:231-245 | Rename then directory sync: the destination can only be the new file afterwards, and at both points reading it shows the old file or the new. |
| `Filestore.FileSystem.StagedWrite` | server/src/store_everything/filestore.py:211-245 | After every system call a kill or a power cut shows exactly the old file or the whole new one; when it returns the new one survives every power cut if and only if each directory it found on the way was synced, or shares its parent with a level of the staging directory that had to be made. |
| `WriteSteps.KilledMkdirStaysLoose` | server/src/store_everything/filestore.py:131-143 | The already-there shortcut does not sync: a process killed between mkdir and fsync leaves a level that makes later writes below it, staged in place, not last. |
| `Filestore.FileSystem.WriteAfterKill` | server/src/store_everything/filestore.py:131-143 | A write killed right after its first mkdir, then retried: the retry returns as usual with the bytes in place, and a power cut may still take them. |
| `Filestore.LostWrite` | server/src/store_everything/filestore.py:131-143 | The smallest such write, on an empty disk. |
| `Filestore.FileSystem.JournaledMove` | server/src/store_everything/filestore.py:339-377 | After every system call the old bytes are at the source or the destination and the destination is never partial; it goes through exactly when nothing is in the way and the copy is whole, or the destination already agrees; after any kill with the source still there a retry can go through; with durable files no power cut loses both. |
| `WriteSteps.ShortcutLosesExactly` | server/src/store_everything/filestore.py:351-354 | Finishing a move because the destination already agrees survives every power cut if and only if that destination was durable. |
| `Retention.RetentionExactly` | server/src/store_everything/blobs.py:62-135 | No interleaving of puts, freshens, row commits, sweeps and rows that begin to hold bytes found by a look, while these are there and out of reach, ever collects a referenced blob if and only if commit delay, staging-to-rename delay and snapshot-to-cutoff delay together fit in the grace window. |
| `Retention.HoldExactly` | server/src/store_everything/reconcile.py:370-433 | A row made restorable because `contains` found its bytes, with no freshen: harmless in every future if and only if the blob is still there at the commit and every sweep under way has seen a row of it or cannot reach its age. |
| `Retention.LostHold` | server/src/store_everything/reconcile.py:370-433 | For any delays: a put gives up, its blob ages, a sweep takes its snapshot, a look finds the blob and a row begins to rely on it, and the sweep collects it. |
| `Retention.BlobStore.CollectBlobs` | server/src/store_everything/janitor.py:114-132 | Unlinks exactly the blobs neither referenced nor younger than the cutoff, and counts them. |
| `Retention.BlobStore.PutBytes` | server/src/store_everything/blobs.py:62-79 | A stored blob becomes young again, a missing one is written. |
| `Retention.PutStep` | server/src/store_everything/blobs.py:62-135 | A put is a freshen or a write of the histories, and its row may commit from then on. |
| `Retention.CollectSteps` | server/src/store_everything/janitor.py:114-160 | An undisturbed collection is a snapshot, a cutoff and one removal after the other, and leaves the blobs that history ends with. |
| `Tagging.CleanPairs` | server/src/store_everything/tagging.py:342-398 | The invariant read by file and tag: a rejected pair has no machine claim on any version. |
| `Tagging.Tags.ApplyToFile` | server/src/store_everything/tagging.py:240-290 | Curation becomes manual unless it is positive already; unknown and quarantined tags are refused. |
| `Tagging.Tags.ConfirmOnFile` | server/src/store_everything/tagging.py:293-339 | Agreement needs a claim on the current version, so where a person said no nothing can be confirmed. |
| `Tagging.Tags.RemoveFromFile` | server/src/store_everything/tagging.py:342-398 | Removing what a machine claims, or a confirmed tag, records a rejection and takes every version's claims; removing a purely manual tag only deletes its row. |
| `Tagging.Tags.ApplyClaim` | server/src/store_everything/tagging.py:436-456 | A label is written if and only if its word is not refused, the file did not reject it and the run did not say it before. |
| `Tagging.Tags.ApplyClaims` | server/src/store_everything/tagging.py:412-456 | Every label's word is named afterwards, and its tag is refused, rejected on the file, or claimed by this run; new claims are exactly the first label of each tag, with its confidence; old claims and all curation stay. |
| `Tagging.WrittenAreTags` | server/src/store_everything/tagging.py:412-456 | The number written is the number of distinct tags newly claimed. |
| `Tagging.Tags.Reuse` | server/src/store_everything/extraction.py:543-668 | Each claim of the donor that this file did not reject is copied with its tag and confidence and the given generation, and nothing else is added; the invariant is kept. |
| `Tagging.Tags.DropRejectedClaims` | server/src/store_everything/tagging.py:459-482 | Removes exactly this run's claims for tags their file rejected. |
| `Tagging.Tags.AddVersion` | server/src/store_everything/files.py:516-560 | A new current version keeps the invariant and every curation. |
| `Tagging.Tags.TagsOfFile` | server/src/store_everything/tagging.py:136-237 | Each tag once, and exactly those a person stands by or a current, newest-generation claim makes where nobody has ruled, with the surest claim behind it. |
| `Tagging.CountsExactly` | server/src/store_everything/tagging.py:111-133 | A claim counts exactly when it is on the file's current version and the same extractor made none of a later generation there. |
| `Tagging.BestIsSurest` | server/src/store_everything/tagging.py:136-237 | No claim that counts for the tag is surer than the one shown, a confidence beating none. |
| `Tagging.Tags.Merge` | server/src/store_everything/tags.py:726-815 | Folding one tag into another keeps the invariant if and only if no file rejected one word while only a machine claimed the other; otherwise a rejected tag ends up claimed again. |
| `Tagging.MergedSays` | server/src/store_everything/tags.py:785-789 | Of what people said on the two words a confirmation stands, else a manual tag, and a rejection only where nobody said yes; the row kept is one of the two. |
| `Tagging.MergeOverrules` | server/src/store_everything/tags.py:726-815 | One file, one rejection of one word, one claim of the other: after the merge the rejected tag is claimed. |
| `Tagging.MergedClaimed` | server/src/store_everything/tags.py:792-815 | A claim on either word is a claim on the merged one, and none is left on the other. |
| `Limiter.RequestLimiter.Allow` | server/src/store_everything/ratelimit.py:62-84 | Pruned and swept bookkeeping gives the answer a limiter that forgets nothing would give, for any ceiling per call. |
| `Limiter.RecentCounts` | server/src/store_everything/ratelimit.py:62-84 | The count decided on is the number of accepted hits not more than 60 seconds old. |
| `Limiter.RequestLimiter.Sweep` | server/src/store_everything/ratelimit.py:86-89 | Forgets exactly the keys whose last hit has left the window. |
| `Limiter.CeilingHolds` | server/src/store_everything/ratelimit.py:62-84 | Under one ceiling and a monotonic clock no closed 60-second window, wherever it starts, holds more accepted hits of a key than the ceiling. |
| `Limiter.Serve` | server/src/store_everything/ratelimit.py:62-84 | One limiter answering any requests of any clients in time order: what it accepted of each key is that recurrence, so no closed window holds more than the ceiling. |
| `Segmenting.Split` | extractors/src/se_extractor/text_plain.py:135-164 | Segments come in order without overlap, every line with text is in one, each starts on a line with text, equals its lines stripped, has all but its last line under the cap, and ends at a blank line, the cap or the end. |
| `Segmenting.StripIsCore` | extractors/src/se_extractor/text_plain.py:135-164 | A stripped text is a contiguous part of the text with only space around it, and neither begins nor ends with space. |
| `Segmenting.JoinHolds` | extractors/src/se_extractor/text_plain.py:135-164 | Joined lines are found one after the other at the places their sizes add up to, each but the last followed by a line break. |
| `Segmenting.OnlyOnce` | extractors/src/se_extractor/text_plain.py:135-164 | No line lies in two segments. |
| `Identifiers.LayoutReadsBack` | server/src/store_everything/ids.py:63-73 | For any random bits the 128-bit layout of section 5.7 of RFC 9562 reads back: timestamp, version 7, counter, variant. |
| `Identifiers.Generator.NextPosition` | server/src/store_everything/ids.py:44-60 | Positions rise strictly under any clock, and never lag the clock. |
| `Identifiers.Generator.NewId` | server/src/store_everything/ids.py:44-73 | Ids of one generator rise strictly as integers below 2^48 ms, and the timestamp runs ahead of the largest clock reading by at most ids/4096 ms. |

## Left out

- Locks and isolation: the workspace advisory lock and each transaction are modelled as one atomic step; only `Queueing.Queue.Enqueue` lets other transactions commit between its statements. A sweep batch's query and updates are one step.
- Names: Unicode normalisation and case folding are one abstract key function; SHA-256 is an injective digest, so equal hashes are equal contents; name validity is an abstract predicate.
- Identity.Pass.Identities: straight evidence is sufficient, not necessary: a pair that could cross may never win a majority, or win it before the folder above it moves, and that depends on counts the pass itself changes as it deletes and adds evidence. Attempt by attempt the condition is exact, and `Tangling.NeverThrough` is a family where it fails. "Seen, blocked or outside the run's root" is one set that only grows: a folder moved under a blocked directory would leave it too, which needs a listed directory inside one that could not be listed. Ambiguity events and the final count of splits are not modelled.
- Accounting.SweepPrepares: the rows of a scan carry no workspace, so that a listing looks for the rows it moves in its own workspace only is assumed, as is that a file's folder is there.
- Transferring.Discard: called only on emptied rows, so database cascades other than the closure, totals and relocation evidence are not modelled.
- DatabaseModel.Database.Verify: takes the folders to check as an argument; `Rotation.Rota.Verify` chooses them. The stamp of a deleted folder is not removed, which nothing can see as ids are not used again.
- DatabaseModel.Database.RollUp: nothing commits between its batches; `Lifetimes.RollUpMeanwhile` has that. Re-arming, scheduling and the time stamp of a settled workspace are left out.
- ScanSafety.OnlyAbsenceDeletes: assumes no in-app folder move during a run, because a move does not stamp the files it carries; deleting folders during a run is not modelled. The mount check, unreadable and unreachable directories are one verdict.
- Scanning.Scanner.RunScan: the tree is static and readable, so hashing never fails and no listing is unreadable; the marker checks between batches, the counters of folders and entries seen, and the identity pass after the sweep are not part of it. The frontier's path order is left open. So a row in the way that is live, with nothing at its own path and its content in a directory outside the one it bars, has no condition on the index alone: the run goes through if that directory comes first and this row is the one taken for the file there, and is refused otherwise (`Refusing.OrderDecides`).
- Converging.ConvergedContent: needs that equal size and timestamp mean equal bytes; without it a row agrees by content hash or by recorded stat.
- Fencing.EffectsOnce: each claim reports at most one outcome, which the worker's single await-and-branch provides; the asyncio tasks behind it, heartbeat timing and back-off are not modelled. A handler is one transaction.
- Queueing.Queue.Fail: the jittered delay is a parameter; error texts, results, payloads and audit events are left out throughout.
- Mirroring.Extraction.Claim: version stamps, routing of new jobs and results are left out.
- Filestore.FileSystem.StagedWrite: requires that staging and destination are different files (no hard links) and staging does not lie below the destination. Renames of whole directories, appending and truncating staging files are left out.
- DiskModel.CutIsFirm: a rename's two entries may be kept or lost independently after a power cut, which is weaker than journalling filesystems give.
- Retention.RetentionExactly: an unguarded look-then-commit is not a step of these histories; `Retention.HoldExactly` says which ones lose the blob. The age check and the unlink of one blob are one step, as the janitor's short window between them is not closed by the code.
- Tagging.Tags.TagsOfFile: sorting by name, tag spellings, folder tags, the tag hierarchy and vocabulary review are left out.
- Identifiers.LayoutReadsBack: masking and or-ing of disjoint bit fields are written as sums and remainders.
- Limiter.RequestLimiter.Allow: time is a real number; the audit record of refusals and the durable login lockout are left out.
- Segmenting.Split: takes the lines; splitting at line breaks and decoding bytes are left out.
- HTTP, authentication, settings, previews, media extractors, statistics, pagination and audit events: plumbing or foreign libraries.
