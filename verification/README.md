# cloudctl-operator: verified core

A Dafny 4.11 model of the operator's ownership ledger and of everything that
hangs on it: what ends a table, a key, an instance or a snapshot; how a key is
made; how names are derived; how a live instance is brought to its spec; how a
pod security group is given back; and what an IAM or key policy says.
`dafny verify dfyconfig.toml` checks the whole project.

How it is laid out:

- `Ledger` is `status.managedResources` and the time gates that read it.
  `Sweep` is the loop every `Cleanup` shares: one pass over a snapshot of the
  ledger, entry by entry. `History` holds the induction principles for runs.
- Each AWS service is a value (`TableCloud`, `KmsCloud`, `InstanceCloud`,
  `GroupCloud`). Every call draws one fault: it is answered, refused, or carried
  out with its reply lost. A statement about every list of faults is one about
  every pattern of failures; a pass cut off is one whose later calls are refused.
- Code that changes state step by step is a class or a method with the source's
  loops and early returns (`TableCleaner`, `KeyCleaner`, `InstanceCleaner`,
  `KeyMaker`, `Planner`, `Reconciler`, `Slice`), proved equal to a function.
  The laws are lemmas about those functions.
- The `*Duties` modules say what an Ensure without an error has achieved, and
  exactly when one succeeds if no call fails; the `*Endings` modules say where a
  Cleanup without an error leaves each entry and the resource behind it.
- The `*Reach` modules say how far a pass reaches into AWS. The `*Runs` modules
  put passes together. A run is a sequence of states and the
  moves between them: a pass whose status write gets through or is lost, or a
  move `Elsewhere`, which may do anything its `Allowed` predicate does not forbid
  (spec edits, deletions by hand, other sections, other CRs).

What the proofs found out about the code:

- A restore whose status write is lost does not count: a later pass deletes the
  table on the old mark (`TableLapses.LostRestoreStillDeletes`). The law of
  deletion therefore speaks of passes that were stored, and
  `TableRestores.MarkGoneIff` says exactly when the mark is gone.
- A table declared again after its trust window keeps its deny statement
  (`TableLapses.LateRestoreLeavesTheDeny`); `TableRestores.DenyStaysIff` has the
  exact condition. Once the mark is gone too, no later pass lifts the deny while
  the table stays declared (`TableLockouts.DenyIsNeverLifted`).
- A key found through its alias with the CR's own tags is recorded as verified in
  whatever state it is, disabled or scheduled for deletion; every other declared
  key is enabled after a pass without an error (`KeyDuties.PassServes`).
- The published outcome of a key is not what happens to it when data that stays
  uses it: the key is let go of then, whatever was published (`Promises.KeyPromise`).
- Two key entries with one ARN let a key in use be scheduled for deletion
  (`KeyCleanup.SharedARNLosesTheKey`); `KeyLosses.CanLoseIff` has the exact
  condition.
- A key whose CreateKey was answered is tracked exactly when the pass's last
  write got through, or its own checkpoint, or that of a key created later in
  the pass, which stores the whole ledger (`KeyLapses.TrackedIffWritten`). When
  none did, the next pass creates a second key exactly if the alias leads nowhere
  (`KeyLapses.SecondKeyIff`, `KeyLapses.CutOffBeforeCheckpoint`). A key whose
  CreateKey reply is lost is tracked by neither (`KeyLapses.UnansweredIsUntracked`).
- `reconcileIngress` takes a rule of another protocol on the engine's port for a
  grant. `Ingress.ExactlyTheWanted` gives the exact condition under which the
  wanted groups, and only they, are let in.
- The group ladder takes over an earlier incarnation's group with `adopt` alone
  (`Ownership.GroupLadderDiffers`).
- A final snapshot deleted by hand, where AWS reports that with a fault, makes
  every pass fail that comes to retire it, whether its instance is declared again
  or in a newer episode (`SnapshotLapses.MissingSnapshotBlocksRestore`).
- An instance that is tracked but no longer declared keeps its rule, and with it
  the consumer's group (`NetworkRound.UndeclaredInstanceBlocks`); by
  `NetworkRound.RoundReleases` nothing else of the operator's does, once every
  producer has passed without an error.
- A record of pending changes that is present but empty defers storage growth
  (`ModifyPlanner.EmptyPendingDefers`).

## Model

| member | source | states |
|---|---|---|
| Ledger.Slice.FindManagedResource | internal/status/managed_resources.go:39-46 | The loop returns the first entry of that type and name, or none. |
| Ledger.Slice.UpsertManagedResource | internal/status/managed_resources.go:61-78 | In place: the entry of that type and name is replaced, keeping the key ARN, outcome and holders the update leaves unset, or it is appended. |
| Ledger.Slice.RemoveManagedResource | internal/status/managed_resources.go:81-90 | Every entry of that type and name is gone, the others are kept in order. |
| Ledger.FindUpsert | internal/status/managed_resources.go:61-78 | After an update a lookup of any type and name finds the stored entry, or what it found before. |
| Ledger.FindRemove | internal/status/managed_resources.go:81-90 | After a removal a lookup finds nothing under that key and the same as before under every other. |
| Ledger.UniqueUpsert | internal/status/managed_resources.go:61-78 | An update never creates a second entry of one type and name. |
| Ledger.UpsertKeepsKey | internal/status/managed_resources.go:55-73 | An update that names no key never loses the key already recorded. |
| Ledger.UpsertCarries | internal/status/managed_resources.go:61-78 | An update replaces every field but the key ARN, the published outcome and the holders it leaves unset, which stay. |
| Ledger.EmptyCheckInterval | internal/status/managed_resources.go:170-179 | The doubling loop computes min(20h, 10min * 2^n), n the days beyond the first, rounded toward zero. |
| Ledger.BackoffMonotone | internal/status/managed_resources.go:170-179 | A longer wait never has a shorter interval. |
| Ledger.CapReached | internal/status/managed_resources.go:170-179 | The interval is at its cap exactly from the eighth day on. |
| Ledger.NeverAbandoned | internal/status/managed_resources.go:159-168 | Once 20 hours have passed since the last check, or there was none, the next check is due, whatever the age. |
| Ownership.KeyLadder | internal/resources/kms/kms.go:431-446 | The ladder written out in adoptKey decides as IsOwnedBy followed by CheckExistingOwnership. |
| Ownership.InstanceLadder | internal/resources/rds/rds.go:922-935 | The ladder written out in ensureInstanceOwnership decides the same. |
| Ownership.GroupLadderDiffers | internal/resources/rds/securitygroup.go:303-315 | The security group's ladder differs from the others exactly when adopt is set and the group carries another uid the CR was not told to take over from. |
| Ownership.LadderMeans | internal/aws/ownership.go:109-124 | A resource is the CR's own exactly by its two tags, and any other is taken over exactly if it was inherited from the uid named, or is unclaimed and to be adopted. |
| Ownership.OwnerTagInjective | internal/aws/ownership.go:36-46 | The owner tag determines namespace and name, since a namespace has no slash. |
| OwnershipRuns.NeverRetagged | internal/aws/ownership.go:44-123 | In any run of whole table, key and instance passes by any CRs, with any call failing, and of anything outside, a resource tagged to one CR that is later tagged to another was without an owner tag, or gone, in between. |
| OwnershipRuns.PassHonours | internal/aws/ownership.go:44-123 | A whole pass changes the owner tags only of what nobody holds, its CR holds, or an incarnation it was told to take over from holds. |
| OwnershipRuns.AnothersIsLeftAlone | internal/aws/ownership.go:104-123 | A whole pass leaves every table, key and instance tagged to another CR as it is: neither tagged, untagged nor deleted. |
| OwnershipRuns.TakeoverNamesTheUID | internal/aws/ownership.go:99-123 | A whole pass changes the uid tag of an owned resource only if the tag named its own CR and the very uid it was told to take over from, and then to its own uid. |
| TableReach.PassHonours | internal/resources/dynamodb/dynamodb.go:188-342 | Every table keeps its owner tags through a pass, Ensure and Cleanup, over any ledger and fault list, unless the CR may change them. |
| TableReach.EntryReaches | internal/resources/dynamodb/cleanup.go:70-112 | The step of one entry changes no table but the one at its ARN, and that one's owner tags only if nobody's or the CR's. |
| KeyReach.PassReaches | internal/resources/kms/kms.go:179-491 | The same of a key pass, Ensure and Cleanup, over any ledger and fault list, new keys having new ARNs. |
| InstanceReach.PassReaches | internal/resources/rds/rds.go:354-423 | The same of an instance pass, Ensure and Cleanup, over any ledger and fault list. |
| Naming.MapBytes | internal/aws/naming.go:220-228 | The byte buffer loop replaces exactly the bytes the style forbids with hyphens. |
| Naming.Clean | internal/aws/naming.go:185-206 | The rewrite loops terminate and compute the cleaned prefix. |
| Naming.SqueezeIsCollapse | internal/aws/naming.go:192-196 | Replacing double hyphens until none is left is the same as collapsing each run of hyphens once. |
| Naming.BuildName | internal/aws/naming.go:164-178 | The name is the cleaned, started, truncated and trimmed prefix, a hyphen and the hash. |
| Naming.RDSNameIsLegal | internal/aws/naming.go:164-218 | For every prefix that starts with a letter or digit and every maxLen from 14: at most maxLen bytes, starts with a letter, letters, digits and hyphens only, no double and no trailing hyphen. |
| Naming.S3NameIsLegal | internal/aws/naming.go:164-218 | At most maxLen bytes of [a-z0-9.-], no "..", ".-" or "-.", first byte that of the prefix, last byte a hex digit. |
| Naming.WordNameIsLegal | internal/aws/naming.go:164-218 | At most maxLen bytes of letters, digits, hyphens and underscores. |
| Naming.StyleKeepsAcceptedNames | internal/aws/naming.go:93-101 | Whenever the plain name satisfies the service's grammar the styled name is that very string, also when forbidden bytes lie past the cut. |
| Naming.ResourceNameIsDerived | internal/aws/naming.go:98-123 | A plain resource name is the derived name with one key part. |
| Naming.SameNameSameIdentity | internal/aws/naming.go:36-39 | Two equal names, of whatever styles and lengths, have equal identity tuples, unless their hashes collide. |
| Naming.QueueNameInjective | internal/aws/naming.go:129-139 | Two equal queue or topic names agree in FIFO, namespace, CR and key: FIFO and standard never meet. |
| Naming.DeadLetterQueueApart | internal/aws/naming.go:113-139 | A dead-letter queue never has the name of a queue of the user's. |
| Naming.SnapshotIDInjective | internal/resources/rds/cleanup.go:293-294 | Two episodes, or two instances, never share a final snapshot id. |
| Naming.DedicatedKeyInjective | internal/aws/naming.go:247-249 | A dedicated key's ledger name determines type and resource, and is never a declared key's name. |
| Naming.BaseNameOfDerived | internal/resources/kms/kms.go:117-120 | Cutting a derived ledger name at its separator gives back the resource's name. |
| Decisions.KeyHolders | internal/decisions/decisions.go:79-108 | The loops give each key the list of the entries that need it, in ledger order, and no key an empty list. |
| Decisions.HeldOnce | internal/decisions/decisions.go:79-108 | An entry is in at most one key's list, and once. |
| Decisions.HolderPins | internal/resources/kms/kms.go:113-122 | PinsAKey holds of an entry exactly when it holds a key or records a key ARN. |
| Decisions.DroppingUnpinned | internal/resources/dynamodb/cleanup.go:144-184 | Dropping an entry that pins no key leaves every key's holders unchanged. |
| Decisions.KeysInUse | internal/controller/section_kms.go:155-171 | A key is in use exactly when the spec needs it or an entry holds it, and for keeps exactly when some holder is there to stay. |
| Decisions.Stamp | internal/decisions/decisions.go:111-121 | In place, every entry gets the outcome of its policy and, if a key, its holders' names. |
| Decisions.StampAgreesWithGate | internal/decisions/decisions.go:111-137 | The published list of a key is empty exactly when the key is not in use, and lists all its holders up to the cap. |
| Promises.TablePromise | internal/decisions/decisions.go:55-66 | What a deletion pass without an error does to a table is what was published for it: let go of, deleted at once, or wound down until empty. |
| Promises.InstancePromise | internal/decisions/decisions.go:55-66 | No deletion pass deletes an instance: one published as Retain is let go of, one published as Manual keeps its tags and its mark. |
| Promises.KeyPromise | internal/decisions/decisions.go:55-66 | A key waits while data that goes uses it, is let go of with data that stays, and otherwise ends as published. |
| KeyCleanup.DeclaredKeyNames | internal/resources/kms/cleanup.go:260-274 | Exactly the keys of the spec and the keys in use, and none while the CR is being deleted. |
| KeyCleanup.KeyCleaner.RestoreDeclared | internal/resources/kms/cleanup.go:170-177 | The pending mark of a declared key is taken off. |
| KeyCleanup.KeyCleaner.RetainKey | internal/resources/kms/cleanup.go:181-199 | The retained key is let go, its entry relinquished, or dropped if the key is gone; failures leave the entry. |
| KeyCleanup.KeyCleaner.ScheduleDeletion | internal/resources/kms/cleanup.go:203-255 | The walk from first notice through the quiet window to ScheduleKeyDeletion. |
| KeyCleanup.KeyCleaner.Cleanup | internal/resources/kms/cleanup.go:116-160 | The loop over the ledger is the fold of its steps, with keys held while the CR is deleted treated first. |
| KeyCleanup.StepIsLocal | internal/resources/kms/cleanup.go:126-157 | A step acts on key entries only, changes no entry but its own, and keeps the ledger unique. |
| KeyCleanup.NeverSchedulesEncryptingKey | internal/resources/kms/cleanup.go:126-157 | Each deletion a pass sends is for an undeclared Delete-policy key past its quiet window that encrypts no entry of the ledger, recorded or derived, given distinct key ARNs. |
| KeyCleanup.SharedARNLosesTheKey | internal/decisions/decisions.go:80-85 | With two key entries under one ARN, a concrete pass schedules a key that a table is recorded as encrypted with. |
| KeyEndings.PassEnds | internal/resources/kms/cleanup.go:116-255 | After a pass without an error, over any ledger with distinct key ARNs: a needed key has no mark; a retained one is relinquished with its owner tags off; one to be deleted is marked, kept for ten minutes, then scheduled in AWS and forgotten. |
| KeyEndings.PassFailsIff | internal/resources/kms/cleanup.go:203-255 | With every call answered, a pass fails if and only if the ledger has a key to be deleted that AWS has, is not deleting, and does not show as the CR's. |
| KeyEndings.UnusedKeyIsScheduled | internal/resources/kms/cleanup.go:203-255 | The converse of the law of keys: one of Delete policy that neither the spec nor any entry uses, marked ten minutes ago or longer, is scheduled for deletion in AWS and forgotten after a section pass without an error. |
| KeyLosses.CanSendIff | internal/resources/kms/cleanup.go:203-255 | Some cloud makes a pass send a deletion for an ARN if and only if an unused, undeclared Delete-policy key entry past its quiet window has it. |
| KeyLosses.CanLoseIff | internal/decisions/decisions.go:79-108 | A pass can send a deletion for an ARN an entry is recorded as encrypted with if and only if an unused, undeclared Delete-policy key entry past its quiet window has that ARN and is not the last one under it. |
| KeySection.NeededKMSKeyNames | internal/controller/section_kms.go:77-100 | The loops compute the referenced keys without repetition, then the dedicated ones. |
| KeySection.NeededMembers | internal/controller/section_kms.go:92-100 | A key is needed exactly when some declared resource references it or has it as its dedicated key. |
| KeySection.RecordKMSKeyARNs | internal/controller/section_kms.go:121-144 | In place, the entry of every encrypted resource is stamped with its key's ARN. |
| KeySection.RecordedARN | internal/controller/section_kms.go:121-144 | The entry of an encrypted resource, its dead-letter queue included, ends up with the ARN of its key if the key has one, and is otherwise unchanged. |
| KeySection.RunNeverLosesAKey | internal/controller/section_kms.go:194-269 | In every run, a deletion is only ever sent for a key that no entry is encrypted with and no declared resource needs, after its quiet window. |
| KeySection.NotWhileRecorded | internal/resources/kms/cleanup.go:126-157 | No pass sends a deletion for a key while its ledger records an entry as encrypted with it. |
| KeySection.KeptWithItsData | internal/resources/kms/cleanup.go:281-290 | When the CR is deleted, a key of data that stays is relinquished with policy Retain; it leaves the ledger only if gone from AWS, and a failed call leaves entry and pass unfinished. |
| KeyCreation.KeyMaker.Create | internal/resources/kms/kms.go:217-272 | CreateKey, the record and the checkpoint before anything else, then policy, rotation, alias and the Verified record, with every early return. |
| KeyCreation.KeyMaker.Resume | internal/resources/kms/kms.go:282-336 | The trust window, takeover, revival, settings and alias of a tracked key, with every early return. |
| KeyCreation.KeyMaker.Adopt | internal/resources/kms/kms.go:415-491 | The key an alias leads to, recorded at once if owned, else revived, tagged and recorded as the ladder allows. |
| KeyCreation.KeyMaker.Alias | internal/resources/kms/kms.go:584-610 | The alias is made, or found to point at this very key; anything else fails. |
| KeyCreation.KeyMaker.Ensure | internal/resources/kms/kms.go:77-103 | The loop over the declared keys, where one error does not stop the next. |
| KeyCreation.EnsureKey | internal/resources/kms/kms.go:179-208 | A live entry keeps its ARN and creates nothing; a Verified record needs the alias seen at the key in this call or a trusted entry; a created key is first recorded without alias. |
| KeyDuties.CallServes | internal/resources/kms/kms.go:179-215 | Whatever the ledger, the cloud and the faults: after a call without an error the key is tracked under the spec's policy and verified in the last ten minutes; it is enabled, unless its alias led to an own key; and unless it was trusted, it carries the CR's tags and the alias leads to it. |
| KeyDuties.PassServes | internal/resources/kms/kms.go:77-103 | After a pass without an error every declared key is tracked and enabled, those made, resumed, taken over and adopted alike, except where an alias led to an own key; its entry is current. |
| KeyDuties.DeclaredKeysAreUsable | internal/resources/kms/kms.go:282-336 | For every spec list, ledger and fault list: after a pass without an error each declared name tracked before keeps its ARN, and the key there is enabled. |
| KeyDuties.CallSucceedsIff | internal/resources/kms/kms.go:179-480 | With every call answered, ensuring a key succeeds if and only if the tracked key is there, not disabled and trusted or takeable with its alias free for it, or the alias leads to one that may be recorded, or a new one can have the alias. |
| KeyRuns.OneKeyPerName | internal/resources/kms/kms.go:192-207 | In every run, whatever fails or is cut off, once a key's entry is stored no second CreateKey is sent for its name and its ARN stays, until something lets the entry go. |
| KeyRuns.VerifiedIsEarned | internal/resources/kms/kms.go:226-336 | In every reachable state a Verified key was verified, at the time it records, by a pass in which its alias was found or made to point at its ARN. |
| KeyLapses.CleanupIsAllowed | internal/resources/kms/cleanup.go:116-160 | A Cleanup pass creates no key, verifies no entry and gives no entry another ARN: it is a move those two laws allow. |
| KeyLapses.TrackedIffWritten | internal/resources/kms/kms.go:89-101 | For every spec list, ledger and fault list: a key whose CreateKey was answered at call k is in the stored ledger after the pass, under its own ARN, if and only if the pass's last write got through or the checkpoint of the creation at k or of a later one was not refused. |
| KeyLapses.SecondKeyIff | internal/resources/kms/kms.go:226-247 | A later pass over that stored ledger sends CreateKey for the same name if and only if none of those writes got through and the alias lookup finds nothing. |
| KeyLapses.UnansweredIsUntracked | internal/resources/kms/kms.go:226-236 | A key whose CreateKey was sent and not answered, and whose name does not come up again, is not in the stored ledger after the pass, whichever writes got through. |
| KeyLapses.CutOffBeforeCheckpoint | internal/resources/kms/kms.go:236-247 | A run cut off between CreateKey and the checkpoint ends with two keys. |
| TableCleanup.TableCleaner.RestoreDeclared | internal/resources/dynamodb/cleanup.go:124-139 | The deny is removed before the pending mark is. |
| TableCleanup.TableCleaner.RetainTable | internal/resources/dynamodb/cleanup.go:144-184 | Deny removed, tags taken off, and the entry relinquished if it pins a key, else dropped. |
| TableCleanup.TableCleaner.GateTable | internal/resources/dynamodb/cleanup.go:238-264 | Deny and mark first; then only a strongly consistent empty scan lets the delete proceed. |
| TableCleanup.TableCleaner.DeleteUndeclared | internal/resources/dynamodb/cleanup.go:188-217 | The waits, the ownership check, the gate unless forced, and the delete. |
| TableCleanup.TableCleaner.DeleteOwnTable | internal/resources/dynamodb/cleanup.go:269-311 | Protection off, then DeleteTable, then the entry; any failure keeps the entry. |
| TableCleanup.TableCleaner.Cleanup | internal/resources/dynamodb/cleanup.go:70-112 | The loop over the ledger is the fold of its steps. |
| TableRuns.Ensure | internal/resources/dynamodb/dynamodb.go:113-186 | The loop over the declared tables: a shared key that is not ready, or an own key that cannot be ensured, skips its table with an error, and no error stops the next table. |
| TableRuns.EnsureFrame | internal/resources/dynamodb/dynamodb.go:113-534 | Ensure marks no table pending, moves no table's mark to another ARN, and leaves alone undeclared tables and every other type but the tables' own keys. |
| TableRuns.CleanupCalls | internal/resources/dynamodb/cleanup.go:188-264 | Every delete a pass sends is for an undeclared Delete-policy entry of its ledger; an unforced one is past its quiet window and comes right after own tags and an empty scan. |
| TableRuns.CleanupMark | internal/resources/dynamodb/cleanup.go:124-264 | A pending mark a pass leaves was there before and not successfully restored, or is dated now with the deny in place in this pass. |
| TableRuns.PendingIsJustified | internal/resources/dynamodb/cleanup.go:238-264 | In every reachable state a pending mark goes back to a stored pass that put the deny in place, with no stored, successful sight of the declaration since. |
| TableRuns.DeleteIsJustified | internal/resources/dynamodb/cleanup.go:188-264 | In every run an unforced delete at T was prepared at some t0 by such a pass, T - t0 at least the quiet window; the table is undeclared, and own tags and an empty scan were read right before. |
| TableDuties.CallServes | internal/resources/dynamodb/dynamodb.go:188-290 | Whatever the ledger, the cloud and the faults: after a call without an error the table is there, its entry carries the spec's policy and force, it is new or verified in the last ten minutes, and it is the CR's own unless it was trusted. |
| TableDuties.DeclaredTablesAreServed | internal/resources/dynamodb/dynamodb.go:113-186 | The same of every declared table after a whole Ensure without an error, for every spec list, ledger and fault list. |
| TableDuties.CallSucceedsIff | internal/resources/dynamodb/dynamodb.go:188-344 | With every call answered and the key at hand, ensuring a table succeeds if and only if a missing one was not tracked, or one that is there is workable, of the spec's key schema where that is checked, and trusted, the CR's own or to be taken over. |
| TableDuties.DeclaringRetains | internal/resources/dynamodb/dynamodb.go:250-262 | A stored pass without an error that declares the table Retain leaves an entry, if any, that says so. |
| TableDuties.RetainedIsNeverDeleted | internal/resources/dynamodb/cleanup.go:93-115 | From such an entry on, in every run whose specs declare the table Retain or not at all, no pass sends a delete for it, forced or not, whatever fails. |
| TableEndings.PassEnds | internal/resources/dynamodb/cleanup.go:70-310 | After a pass without an error, over any unique ledger in which no other table has its ARN: a declared table has neither mark nor the deny that came with it; a retained one has no owner tag; one to be deleted is marked and denied, kept for ten minutes and between checks, and deleted when a check finds it empty, or at once by force. |
| TableEndings.PassFailsIff | internal/resources/dynamodb/cleanup.go:188-310 | With every call answered, a pass fails if and only if the ledger has a table to be deleted, no longer waited for, that is not the CR's or whose name cannot be read off its ARN. |
| TableLapses.LostRestoreStillDeletes | internal/resources/dynamodb/cleanup.go:124-139 | A concrete run in which a successful restore whose status write is lost is followed by a delete on the older mark, the deny already lifted. |
| TableLapses.LateRestoreLeavesTheDeny | internal/resources/dynamodb/dynamodb.go:517-534 | A concrete pass over a table redeclared after its trust window succeeds, clears the mark and leaves the deny. |
| TableRestores.DenyStaysIff | internal/resources/dynamodb/cleanup.go:124-139 | In a pass without an error over any unique ledger with distinct table ARNs, the deny of a pending table that is declared again stays if and only if its entry had to be verified again. |
| TableRestores.MarkGoneIff | internal/resources/dynamodb/cleanup.go:124-139 | After a pass without an error that saw a pending table declared, the stored status has no mark on it if and only if the outcome was stored, or a checkpoint after Ensure had verified it again. |
| TableLockouts.LockedOutIff | internal/resources/dynamodb/dynamodb.go:517-534 | A pass without an error over a pending table declared again leaves it unmarked and denied if and only if its entry had to be verified again and what was stored has the mark off. |
| TableLockouts.DenyIsNeverLifted | internal/resources/dynamodb/cleanup.go:124-139 | From such a state on, in every run in which each pass declares the table and nobody else lifts the deny, the table stays denied, whatever fails and whatever is stored. |
| InstanceCleanup.InstanceCleaner.RetireFinalSnapshot | internal/resources/rds/cleanup.go:372-429 | Look up, check tags and status, delete, forget, with every early return. |
| InstanceCleanup.InstanceCleaner.EnsureFinalSnapshot | internal/resources/rds/cleanup.go:282-364 | Retire a snapshot of another episode, else create once, else poll. |
| InstanceCleanup.InstanceCleaner.PendDeletion | internal/resources/rds/cleanup.go:159-193 | Ownership each pass, the mark, the quiet window, then the snapshot. |
| InstanceCleanup.InstanceCleaner.RetainInstance | internal/resources/rds/cleanup.go:198-222 | The retained instance is let go and rechecked daily; one that is gone is dropped. |
| InstanceCleanup.InstanceCleaner.CheckOrphanedSnapshots | internal/resources/rds/cleanup.go:227-255 | The loop over snapshots without an instance is the fold of its steps. |
| InstanceCleanup.InstanceCleaner.Cleanup | internal/resources/rds/cleanup.go:80-125 | Both loops, the second over the ledger the first leaves. |
| InstanceCleanup.StepIsLocal | internal/resources/rds/cleanup.go:99-118 | A step acts on instance entries only, changes only the instance's own entry and its snapshot's, and keeps the ledger unique: one tracked snapshot per instance. |
| InstanceEndings.PassEnds | internal/resources/rds/cleanup.go:80-430 | After a pass without an error, over any unique ledger in which no other instance has its ARN or its snapshot's id: where a declared, retained or dropped instance, its tags, its tracked snapshot and the snapshot itself end up, and what becomes of a snapshot whose instance is gone. |
| InstanceEndings.PassFailsIff | internal/resources/rds/cleanup.go:80-430 | With every call answered, a pass fails if and only if a declared instance's tracked snapshot is missing with a fault, or an undeclared one of Delete policy is not the CR's or cannot have its final snapshot retired, asked for or looked up. |
| InstanceEndings.FinalSnapshotIsTaken | internal/resources/rds/cleanup.go:282-331 | An undeclared own instance of Delete policy, marked ten minutes ago or longer, with no snapshot tracked, has after a pass without an error the episode's snapshot in AWS, asked for in this pass, and tracked as Creating with the instance's key. |
| InstanceEndings.FinalSnapshotIsVerified | internal/resources/rds/cleanup.go:333-365 | Once that snapshot is available, a pass without an error records it as Verified and leaves it in AWS. |
| InstanceEnsure.InstanceEnsurer.EnsureInstanceOwnership | internal/resources/rds/rds.go:915-958 | The tags are read, the ladder decides, and only what it allows is tagged. |
| InstanceEnsure.InstanceEnsurer.EnsureOne | internal/resources/rds/rds.go:354-473 | Create, claim or trust the instance, and record it, with every early return. |
| InstanceEnsure.InstanceEnsurer.Ensure | internal/resources/rds/rds.go:131-161 | The loop over the declared instances, where one error does not stop the next. |
| InstanceDuties.CallServes | internal/resources/rds/rds.go:340-427 | Whatever the ledger, the cloud and the faults: after a call without an error the instance is there, its entry carries the spec's policy, it is new or verified in the last ten minutes, and it is the CR's own unless it was trusted. |
| InstanceDuties.DeclaredInstancesAreServed | internal/resources/rds/rds.go:131-161 | The same of every declared instance after a whole Ensure without an error. |
| InstanceDuties.CallSucceedsIff | internal/resources/rds/rds.go:340-475 | With every call answered, ensuring an instance succeeds if and only if a missing one was not tracked, or one that is there is trusted, the CR's own or to be taken over. |
| InstanceRuns.DeletesAreJustified | internal/resources/rds/cleanup.go:136-193 | Every snapshot delete of a pass names the tracked id, right after a lookup that showed own tags and, unless verified before, an available snapshot; the instance is declared, or owned, undeclared and past the quiet window of another episode. |
| SnapshotRuns.PassTracks | internal/resources/rds/cleanup.go:227-364 | A tracked snapshot keeps its id through a pass, is new only if the pass asked for it, and is no longer tracked only if retirable or absent from AWS. |
| SnapshotRuns.TrackedWasAskedFor | internal/resources/rds/cleanup.go:293-331 | In every reachable state a tracked id was asked for by an earlier pass, for the undeclared instance's episode it names, and the instance's mark is that episode's or dates from after its quiet window. |
| SnapshotRuns.DeleteIsJustified | internal/resources/rds/cleanup.go:136-193 | In every run under a clock that does not run backwards, a snapshot delete is justified as above, and while the instance is undeclared its episode is newer: it began no sooner than the quiet window after the snapshot's. |
| SnapshotRuns.VanishedKeepsItsSnapshot | internal/resources/rds/cleanup.go:227-255 | While an instance is undeclared and untracked, the entry of its snapshot stays under the same id until a pass ends with no such snapshot in AWS. |
| SnapshotRuns.EnsureIsAllowed | internal/resources/rds/rds.go:131-161 | Ensure dates no mark and tracks and forgets no snapshot: it is a move those laws allow. |
| SnapshotLapses.MissingSnapshotBlocksRestore | internal/resources/rds/cleanup.go:386-393 | Over any unique ledger and fault list, a whole pass that comes to retire a tracked snapshot AWS lacks, of a declared instance or of one in a newer episode, fails and keeps the entry where AWS answers with a fault; where it answers with an empty list and no call fails, a declared instance's entry goes. |
| KeyFinalize.NothingLeftDraining | internal/resources/kms/cleanup.go:181-255 | A deletion pass that neither fails nor waits leaves only relinquished keys and keys AWS is deleting. |
| TableFinalize.NothingLeftDraining | internal/resources/dynamodb/cleanup.go:144-217 | A deletion pass that neither fails nor waits leaves only relinquished tables. |
| InstanceFinalize.NothingLeftDraining | internal/resources/rds/cleanup.go:159-222 | A deletion pass that neither fails nor waits leaves only relinquished instances. |
| Finalize.FinalizeOrder | internal/controller/desiredstate.go:214-225 | The loop gives the other sections, then the key sections. |
| Finalize.OrderKeepsSections | internal/controller/desiredstate.go:214-225 | The order loses and repeats no section, and puts every key section behind every other. |
| Finalize.OrderIsStable | internal/controller/desiredstate.go:214-225 | Sections of either kind keep their relative order. |
| Finalize.FinalizeDesiredState | internal/controller/desiredstate.go:299-332 | The loop runs every section whatever the others return, and is done only if all are. |
| Finalize.EverySectionRuns | internal/controller/desiredstate.go:299-332 | Each section is finalized in the world the one before it left, whatever that came to; the whole fails if and only if one does, is done if and only if all are, and waits for exactly what the unfinished ones wait for. |
| Finalize.SectionDoneIff | internal/controller/section_kms.go:238-267 | The key section, and the table section likewise, is done if and only if its Cleanup did not fail and reports nothing that waits. |
| Finalize.RDSDoneIff | internal/controller/section_rds.go:111-153 | The RDS section is done if and only if the pod network was released, no instance failed or waits, and the orphaned groups went. |
| Finalize.NothingAbandoned | internal/controller/desiredstate.go:299-332 | When finalizing reports done, nothing failed and every table, instance and key left in the ledger is relinquished or a key AWS is deleting, the pods' security group entry is gone, and an instance's group entry is left only with its instance's, whatever the other sections do to their own entries. |
| ModifyPlanner.WithSecurityGroup | internal/resources/rds/rds.go:739-755 | The groups not being removed, in order, with the instance's own appended exactly when missing. |
| ModifyPlanner.EffectiveAttributes | internal/resources/rds/rds.go:767-795 | Field by field, the pending value where there is one, else the live one; what that is good for is AcceptedShows. |
| ModifyPlanner.AcceptedShows | internal/resources/rds/rds.go:764-795 | However AWS splits an accepted request between live fields and the pending record, the effective attributes are the request laid over the effective attributes before, storage possibly rounded up. |
| ModifyPlanner.Planner.ReconcileSizing | internal/resources/rds/rds.go:608-618 | Sets class and Multi-AZ where they differ and reports whether any does. |
| ModifyPlanner.Planner.ReconcileBackupRetention | internal/resources/rds/rds.go:623-636 | Only ever raises the retention. |
| ModifyPlanner.Planner.ReconcileStorage | internal/resources/rds/rds.go:641-654 | Only ever grows the storage, with Iops for a provisioned volume. |
| ModifyPlanner.Planner.ReconcileEngineVersion | internal/resources/rds/rds.go:658-671 | Refuses an unknown version or a major upgrade that is not allowed; else asks for the version when an upgrade is needed. |
| ModifyPlanner.Planner.ReconcileSettings | internal/resources/rds/rds.go:695-734 | Deletion protection, tag copying and the storage ceiling, each only where it differs and is not an adopted instance's own. |
| ModifyPlanner.Planner.ReconcileInstanceAttributes | internal/resources/rds/rds.go:578-604 | The shared request is filled field by field into the planned one, or nothing is sent. |
| ModifyPlanner.SilentIffMet | internal/resources/rds/rds.go:578-604 | Nothing is sent if and only if the instance, with what AWS has accepted, meets the spec. |
| ModifyPlanner.AsksExactly | internal/resources/rds/rds.go:578-755 | A request names a field exactly where the instance differs, with the value the spec wants. |
| ModifyPlanner.Converges | internal/resources/rds/rds.go:578-795 | After AWS accepts the request, each field live or pending and storage rounded up, the next pass sends nothing. |
| ModifyPlanner.AtMostOneRequest | internal/resources/rds/rds.go:578-795 | In any run under one spec at most one request is sent, while pending changes land or wait and storage grows by itself. |
| ModifyPlanner.NeverTakesAway | internal/resources/rds/rds.go:620-654 | No request lowers storage or retention or drops an attached group. |
| ModifyPlanner.NeverLowers | internal/resources/rds/rds.go:620-755 | Over any run, under specs that change, storage and retention never fall and no attached group is lost. |
| ModifyPlanner.ImmediateIff | internal/resources/rds/rds.go:677-688 | Without applyImmediately a request is immediate exactly when it grows storage, changes no class, Multi-AZ, backup or version, and nothing is recorded as pending. |
| ModifyPlanner.EmptyPendingDefers | internal/resources/rds/rds.go:678 | An empty record of pending changes defers every request, though it changes no effective attribute. |
| Ingress.CollectHave | internal/resources/rds/securitygroup.go:361-371 | The nested loops gather the groups let in on the engine's port. |
| Ingress.Reconciler.ReadConsumers | internal/resources/rds/securitygroup.go:373-396 | The loop reads each consumer's offer and stops at the first failed read. |
| Ingress.Reconciler.RevokeStaleIngress | internal/resources/rds/securitygroup.go:420-440 | The stale groups are revoked in sorted order; a failure does not stop the next. |
| Ingress.Reconciler.ReconcileIngress | internal/resources/rds/securitygroup.go:350-415 | The whole call: read, grant, revoke. |
| Ingress.MissingIs | internal/resources/rds/securitygroup.go:373-396 | The grant request lists exactly the offered groups without a rule, each once. |
| Ingress.IDEndsARN | internal/resources/rds/securitygroup.go:243-249 | The id is what follows the last slash of the ARN. |
| Ingress.ReadsTheWanted | internal/resources/rds/securitygroup.go:373-396 | Unless a read fails, the groups read are exactly those of the CRs in sharedWith that are not being deleted, refer to the instance, and have a pod identity that is not being released. |
| Ingress.TouchesOnlyGrants | internal/resources/rds/securitygroup.go:398-440 | Whatever fails, only tcp rules on the engine's port of this one group change. |
| Ingress.FailedReadWritesNothing | internal/resources/rds/securitygroup.go:379-382 | A failed read of a consumer is an error and changes no rule. |
| Ingress.ReconciledGrants | internal/resources/rds/securitygroup.go:350-440 | Whatever fails, no unwanted group is granted and no wanted one revoked; without an error the grants are the wanted ones there before plus those wanted and not let in. |
| Ingress.ExactlyTheWanted | internal/resources/rds/securitygroup.go:350-440 | Without an error, exactly the wanted groups are on the port if and only if no other-protocol rule there names an unwanted group; all and only they have a tcp grant if and only if no wanted group is let in by such a rule alone. |
| Ingress.NarrowsToTheWanted | internal/resources/rds/securitygroup.go:88-101 | revokeOnly leaves the grants that are wanted, and have ∩ desired on the port under the same condition. |
| Ingress.AnsweredSucceeds | internal/resources/rds/securitygroup.go:350-440 | With every call answered the call succeeds on any group that is there. |
| Ingress.UdpRuleHidesTheConsumer | internal/resources/rds/securitygroup.go:361-371 | A concrete group with a udp rule for the consumer, which a successful pass leaves without its tcp grant. |
| NetworkRelease.PassShrinks | internal/resources/rds/securitygroup.go:350-465 | While nobody asks for a group, no producer's pass adds a rule that lets it in, and an error-free one leaves none on the groups and ports of that producer's declared instances. |
| NetworkRelease.PassRules | internal/resources/rds/securitygroup.go:178-440 | Of every rule that lets the group in: no pass makes one, a pass keeps each one that is neither its declared instances' grant nor in an own orphaned group, and an error-free pass leaves none of those that are. |
| NetworkRelease.CleanupPodNetworkIdentity | internal/resources/rds/podnetworkidentity.go:389-427 | Mark, drop policy and label, check ownership, delete, forget, with every early return. |
| NetworkRelease.ReleaseKeepsTheEntry | internal/resources/rds/podnetworkidentity.go:389-427 | The entry survives every failure, marked and under its ARN, and leaves exactly on success: the group deleted, absent or not the CR's. |
| NetworkRelease.ReleaseCompletesIff | internal/resources/rds/podnetworkidentity.go:413-423 | With every call answered, the release of an own group completes if and only if no other group's rule names it. |
| NetworkRelease.ReleasedIsSilent | internal/resources/rds/securitygroup.go:452-465 | A consumer that is being deleted, consumes nothing or has marked its entry is offered to no producer. |
| NetworkRuns.RulesRunOut | internal/resources/rds/securitygroup.go:350-465 | In every run, whatever specs are edited and producers deleted in between, the number of rules that let the released group in, plus the error-free passes of producers with such a rule on a declared instance or an orphaned group, never exceeds what it was. |
| NetworkRuns.HoldersRunOut | internal/resources/rds/securitygroup.go:350-465 | The same of the rules under declared instances alone: the clearing passes are at most as many as there were, and one for each rule a spec edit brought back under a declared instance. |
| NetworkRuns.OnlyEditsRedeclare | internal/resources/rds/securitygroup.go:350-465 | A move brings no rule under a declared instance again without changing what is declared, and then only a rule that was there before it. |
| NetworkRuns.EntrySurvives | internal/resources/rds/podnetworkidentity.go:389-427 | In every run, with specs edited and producers deleted, the consumer's entry stays under its ARN until a stored release found the group gone or not its own. |
| NetworkRound.RoundLeaves | internal/resources/rds/securitygroup.go:178-465 | After one error-free pass of every producer, a rule that lets a released group in is left if and only if it was there and is not the operator's to revoke, or its group is that of an instance undeclared and still tracked. |
| NetworkRound.RoundReleases | internal/resources/rds/podnetworkidentity.go:389-427 | After one error-free pass of every producer, a release with every call answered completes if and only if no such rule is in the way. |
| NetworkRound.UndeclaredInstanceBlocks | internal/resources/rds/securitygroup.go:198-204 | While an undeclared instance is tracked, its group's rule outlives every pass, failed or not, and a release of the group it lets in is refused. |
| InstanceGroups.InstanceOfGroupEntry | internal/resources/rds/securitygroup.go:142-169 | The ledger name an instance's group is recorded under leads back to that very instance, whatever it is called. |
| InstanceGroups.OrphanedMeans | internal/resources/rds/securitygroup.go:178-202 | A group entry counts as orphaned exactly if its name is an instance's with the suffix and that instance is neither declared nor in the ledger. |
| InstanceGroups.CleanupInstanceSecurityGroups | internal/resources/rds/securitygroup.go:178-223 | The loop over the ledger is the fold of its steps. |
| InstanceGroups.DeletesOnlyOrphans | internal/resources/rds/securitygroup.go:198-221 | A deleted group carried the CR's tags and belonged to an instance neither declared nor tracked; every other group is unchanged. |
| InstanceGroups.EntryLeavesWithItsGroup | internal/resources/rds/securitygroup.go:198-221 | A group's entry stays through every failure and leaves only with its instance gone and its group gone or not the CR's. |
| InstanceGroups.OrphanIsForgotten | internal/resources/rds/securitygroup.go:198-221 | A pass without an error forgets the entry of every group of an instance neither declared nor tracked. |
| InstanceGroups.OrphansGo | internal/resources/rds/securitygroup.go:198-221 | A pass without an error deletes every own group of an instance neither declared nor tracked. |
| InstanceGroups.UnnamedSucceeds | internal/resources/rds/securitygroup.go:198-221 | With every call answered, a pass over orphaned groups that no rule names does not fail. |
| PolicyMerge.CollapseIsCanonical | internal/awspolicy/awspolicy.go:115-135 | Collapsing is idempotent, and each JSON value is equivalent to exactly one value without one-element lists. |
| PolicyMerge.EquivalenceLaws | internal/awspolicy/awspolicy.go:107-113 | Equivalence is reflexive, symmetric and transitive and does not tell a list of one from its element. |
| PolicyMerge.EquivalentInside | internal/awspolicy/awspolicy.go:107-135 | Equivalence is kept by lists and by replacing a field of an object. |
| PolicyMerge.UpsertStatement | internal/awspolicy/awspolicy.go:61-78 | The loop replaces the first statement with the Sid unless it says the same, or appends. |
| PolicyMerge.RemoveStatement | internal/awspolicy/awspolicy.go:82-90 | The loop drops the statements with the Sid and reports whether there was one. |
| PolicyMerge.UpsertedFirst | internal/awspolicy/awspolicy.go:61-78 | After an update the first statement with the Sid says what is wanted, no other Sid's first changes, and nothing changes exactly when it already did. |
| PolicyMerge.MergeKeyPolicy | internal/resources/kms/servicegrants.go:92-148 | The statements of both Sids are brought in line in turn, each service with its own ARNs; the document is rewritten only on a change. |
| PolicyMerge.SyncAllSettles | internal/resources/kms/servicegrants.go:57-135 | Both Sids end up with the wanted statement first or none, and nothing changes exactly when they were so already. |
| PolicyMerge.MergedLetsServices | internal/resources/kms/servicegrants.go:57-148 | In literals, whatever the policy said before: under cloudctl-sns-delivery the first statement lets sns.amazonaws.com, and under cloudctl-cloudwatch-alarms cloudwatch.amazonaws.com, use the key for exactly the topics or alarms and this account; a service without any has no statement. |
| PolicyMerge.MergedLetsTheAccount | internal/resources/kms/servicegrants.go:92-118 | An empty policy becomes one of version 2012-10-17 whose first statement gives the account's root every kms action; a merge without grants leaves any other policy as it is. |
| PolicyMerge.MergeIsIdempotent | internal/resources/kms/servicegrants.go:92-148 | A second merge with the same grants reports no change. |
| PolicyMerge.MergeKeepsTheRest | internal/resources/kms/servicegrants.go:85-148 | Every statement without an operator Sid is kept unchanged and in order, and so is every other field; an empty policy gets the account root statement. |
| PolicyMerge.MergeDependsOnSets | internal/resources/kms/servicegrants.go:57-83 | The merge depends only on the sets of granted ARNs. |
| Grants.FindShare | internal/resources/iam/derive.go:351-356 | The loop finds the first sharedWith entry with the CR's namespace and name, and none exactly if no entry has both. |
| Grants.CollectGrants | internal/resources/iam/derive.go:164-198 | The nested loops gather owned resources, dedicated keys, consumed resources and declared keys in order, and stop at a failed read. |
| Grants.BuildPolicyDocument | internal/resources/iam/derive.go:495-534 | The loop emits the statements of each grant, numbered by its index. |
| GrantLaws.PolicyMeans | internal/resources/iam/derive.go:495-534 | A document allows an action on a resource if and only if some grant permits it at its access level. |
| GrantLaws.WithItsKeyOrNotAtAll | internal/resources/iam/derive.go:267-303 | A shared reference yields the resource and, except for DynamoDB, the key it is encrypted with, or nothing; nothing exactly when it is not shared and recorded or its key is not. |
| GrantLaws.WhySkipped | internal/resources/iam/derive.go:267-356 | A reference is reported as ProducerNotFound, NotDeclared, NotAuthorized or NotReconciled exactly if there is no such CR, no such resource, no share with the CR's namespace and name, or no ARN on record. |
| GrantLaws.PolicyIsExact | internal/resources/iam/derive.go:164-534 | Unless a read failed, the derived policy allows exactly the (action, resource) pairs the CR is entitled to: full access to what it owns and has on record, and what each owner's sharedWith level stands for. |
| GrantLaws.SubscribeNeedsOwnership | internal/resources/iam/derive.go:107-113 | Where the policy allows sns:Subscribe or sns:Unsubscribe, the CR owns the topic. |
| GrantLaws.FailedReadGrantsNothing | internal/resources/iam/derive.go:179-182 | A failed read of a producer ends the derivation with no grants. |
| GrantLaws.AnsweredReadsSucceed | internal/resources/iam/derive.go:164-198 | With every read answered the derivation ends with a policy. |
| GrantLaws.SidsAreDistinct | internal/resources/iam/derive.go:495-534 | No two statements of the document share a Sid. |

## Left out

- The sqs, sns, s3 and serviceaccount packages, alarms, ConfigMap and Secret delivery: they enter as sections or steps that leave the modelled entries alone, and would add easy members only.
- The CLI, events, condition messages, metrics, tracing, rate limits and AWS client plumbing: output and I/O.
- Kubernetes patch, apply and watch machinery: a status write is one step that gets through or does not.
- `engineVersionUpgrade`, `parseVersion` and `compareVersions`: the planner takes their answer as a function.
- JSON text, its parsing and URL decoding: policies are parsed values. The text `null` as a whole key policy, and Go's case-insensitive match of the `Sid` key, are not modelled.
- SHA-256: hashes are a function with twelve hex digits as its result, and two names are compared only under the assumption that their own two hashes do not collide.
- Clocks: times are integers that callers supply; rounding to seconds is modelled only in a snapshot's id.
- AWS eventual consistency: a read shows the state of its moment.
- Key policy, rotation, release tags, backups, auto scaling and other settings that the laws do not speak of: their calls can fail, their effect is not kept.
- The key states Creating, Updating, PendingImport and Unavailable: they end a pass as Disabled does.
- Region checks and the abandoning of resources in another region.
- `RecordKMSKeyARNs` and the IAM sections see a spec already split into its resources; defaulting and validation of specs are outside.
- TableRuns.DeleteIsJustified: a declared pass counts as a cancellation only when it was also stored, because the code forgets one whose write is lost; the tables' attribute changes during Ensure are not kept.
- KeySection.RunNeverLosesAKey: assumes that key entries have pairwise distinct ARNs in every state, since the code maps each ARN to one name.
- KeyRuns.OneKeyPerName: starts at a state whose stored ledger has the entry, since before that a second key is possible.
- ModifyPlanner.Converges: what AWS makes of an accepted request is an assumption, stated field by field on the live values and the pending record as `Accepted`.
- NetworkRuns.RulesRunOut: bounds the clearing passes; which rules no pass clears is `NetworkRound.RoundLeaves`. Between passes nobody adds a rule for the group or asks for it.
- NetworkRelease.PassRules: what a producer's Ensure does around the ingress call appears as one of three outcomes per instance, and as a ledger that keeps the entries of undeclared instances; the two Cleanups of the pass are computed.
- NetworkRound.RoundLeaves: assumes that a security group serves one instance, as the operator makes them.
- KeyEndings.PassEnds: assumes distinct key ARNs, as `KeySection.RunNeverLosesAKey` does; `TableEndings.PassEnds` and `InstanceEndings.PassEnds` likewise speak of resources with one entry.
- TableRuns.Ensure: what ensuring a table's own key does to the key's entry is given, since keys are modelled apart in `KeyCreation`.
- InstanceEnsure.InstanceEnsurer.EnsureOne: the checks of immutable settings and status and the modify request are one call that can fail; the request itself is `ModifyPlanner`.
- OwnershipRuns.NeverRetagged: speaks of tables, keys and instances; security groups go by the more permissive ladder of `Ownership.GroupLadderDiffers`.
- Finalize.NothingAbandoned: speaks of tables, instances, keys and security groups; the final snapshot entries of instances are left in the ledger by design.
- EnsurePodNetworkIdentity: creating and labelling a pod identity is not part of this model; its effect is the ledger entry that producers read.
