# MailSalonSync: models and proofs

MailSalonSync keeps mail, contacts and calendars on disk in step with remote servers.
This project models its decision procedures in Dafny and proves what they promise:

- **Collections** (`Collection*.dfy`): the three-way synchronization of contacts and calendars.
  `CollectionWorld` holds the maps, the preflight as an order-free predicate and the per-UID outcome of a
  complete run; `CollectionProofs`, `CollectionCourse`, `CollectionSteps` and `CollectionSafety` hold what
  each single effect keeps, `CollectionTidy` what keeps the UIDs of files and entries apart; `CollectionBackend`
  is the directory, where any effect may fail, and a compare-and-swap server that other clients change at any
  moment; `CollectionSync` is the run itself;
  `CollectionRecovery` runs it twice.
- **The collection lock** (`Lock*.dfy`): a state machine of interleaved file-system steps by processes on
  any number of hosts and by editors, with crashes; theorems over all its runs; and the acquiring and
  releasing code, whose effects are steps of that machine.
- **Contacts and calendars over JMAP** (`PimJmap.dfy`, `JsonPatch.dfy`): snapshots over many requests,
  conditional writes, patches with JSON pointers (RFC 6901; sections 5.1, 5.3 and 5.5 of RFC 8620).
- **The Maildir mirror** (`MailWorld.dfy`, `Jmap*.dfy`, `Imap*.dfy`): runs mapping by mapping over JMAP and IMAP;
  `JmapPages` lists a mailbox page by page while others change it.
- **Identity of vCard and iCalendar texts** (`Uid*.dfy`): the stack machine and the grammar it accepts.
- **Codecs** (`Utf8.dfy`, `Base64.dfy`, `MailboxNames.dfy`, `WireStrings.dfy`, `FolderNames.dfy`): modified UTF-7
  (section 5.1.3 of RFC 3501), quoted strings and literals, and the escape of folder names.
- **One-shot upload** (`Matching.dfy`, `Upload*.dfy`) and **folder overrides** (`FolderOverrides.dfy`, `FolderRequests.dfy`).

Code that changes state is modelled by classes and methods, each proved against functions and predicates on
values; the lemmas are about those. Failures of the disk, the network or the server are arbitrary choices of
the model, also after a request took effect, so every contract holds however effects fail. Where a class has a constant `quiet` or `alone`,
contracts that need the absence of other clients say so; the others hold in their presence.

Check it with `dafny verify dfyconfig.toml`.

## Findings

- Without delete propagation the preflight accepts a collection in which a tracked item was renamed locally.
  The run then restores the old name beside the new one, and the next run refuses the two files of one UID
  (`StrandedRenameIsAccepted`, `StrandedRename`). With entries of distinct UIDs, which every run preserves from
  a collection without such a rename, an undisturbed finished run leaves the collection synchronized if and only
  if no item is renamed in this way (`SyncCollection`); the condition can be checked before the run.
- Convergence needs nothing of the form in which a server stores objects. Recovery does. After an edit that was cut
  off before its answer was stored, the next run goes on exactly if the stored form has the hash of the edit or of
  the last common version (`CutUploadAccepted`); after a creation, exactly if it has the hash of the file
  (`CutCreationAccepted`). Over JMAP a created object gains an id, so unless the file has that id, too, the
  creation is refused as a conflict from then on (`PimJmap.Client.Create`).
- Without UIDPLUS and with the override, the removal of one IMAP message expunges every message of the mailbox that
  is marked as deleted, tracked ones with their files in place included; the mark may be another client's
  (`MarkedIsTakenAlong`) or left by a run that was cut off (`CutOffMarkIsTakenAlong`). Every other message is spared
  exactly when the server has UIDPLUS or no other is marked (`RemovalSparesIff`, `PassSparesIff`).
- An IMAP message that is moved by copy stays behind if another client takes its mark back before the EXPUNGE. It is
  then downloaded again under the marker of the moved file (`MarkTakenBackLosesIdentity`); identities are kept
  exactly if no original stays behind (`MoveKeepsIdentity`).
- A JMAP mailbox is listed by position, and nothing is compared between the pages. A message that stays is listed in
  every interleaving exactly if it is on the first page (`AlwaysListedIff`); a later one is skipped when messages
  before it are removed in between (`OneRemovalSkips`), and a one-shot upload then imports its local copy once more
  (`SkippedIsImported`).
- `RemoveFromMailbox` reads the memberships of a message and then destroys it if there is one. A membership
  added in between is lost (`DestroyRace`). Other memberships are safe from this exactly when more than one was
  read (`RemovalSparesIff`).
- Modified UTF-7 gives a name back exactly when it is valid UTF-8, and default folder paths decode to their
  name exactly when no component is empty or ill-formed (`RoundTripIffValid`, `SafeRoundTripIff`). A folder with
  an empty component and one with a component of a single zero byte share a default path (`SharedPathIff`).
- Over JMAP the destination collision error can occur: a message tracked in two mapped mailboxes whose first file was
  moved alone into the second Maildir (`BlockedMove`). A pass succeeds only if no entry blocks in this way, and
  reports the error only if one does (`Propagate`). A failed pass leaves the entry blocking, in memory and in the
  saved state (`SyncMailbox`), and so does the pass over another mapping unless it changes the file's places or the
  destination's entry, as when somebody takes the message out of that mailbox (`BlocksThroughPass`).
- The destination collision error of an IMAP run and the path conflict after a folder was changed on the
  server cannot occur (`Sync`, `Handle`).
- The guard of a host alone already keeps a reclaiming process from a live owner of that host; the safety
  theorems do not need the answer of the process probe.

## Model

| member | source | states |
|---|---|---|
| CollectionSync.Run.SyncCollection | internal/pim/store.go:153-453 | In every outcome no edit is lost, every removed file is backed up and every remote write or deletion was justified; refused exactly for a reason of the preflight and then without any change; an undisturbed finished run, whatever form the server stores, leaves the collection synchronized if and only if no rename was stranded; a synchronized collection is left alone; where none is, entries stay of distinct UIDs at every stop, disturbed or not; with a server that stores verbatim every stop has the same eventual outcome |
| CollectionSync.Run.Preflight | internal/pim/store.go:257-297 | Passes if and only if the order-free condition Accepts holds of what was read, so map order cannot matter |
| CollectionSync.Run.CheckEntry | internal/pim/store.go:258-282 | One tracked item passes exactly when its name is usable and unused, neither copy changed its UID and not both sides changed differently |
| CollectionSync.Run.CheckObject | internal/pim/store.go:283-297 | One untracked object passes exactly when a file of its UID can adopt it or its default name is free |
| CollectionSync.Run.ReadLocal | internal/pim/store.go:193-219 | Reads all files or refuses them because one does not parse or two share a UID; afterwards the UID index finds exactly them |
| CollectionSync.Run.ReadRemote | internal/pim/store.go:224-242 | Accepts a listing if and only if ids, revisions and UIDs are present and distinct, and then indexes exactly it |
| CollectionSync.Run.LoadState | internal/pim/store.go:173-184 | State of another configuration is refused; otherwise the entries in memory are those on disk |
| CollectionSync.Run.Prepare | internal/pim/store.go:173-297 | Everything before the first mutation: nothing is changed, and success means the collection is accepted |
| CollectionSync.Run.Store | internal/pim/store.go:311-331 | Writes the object's content, records file, hash and UID, and saves; every effect in between leaves a resumable state |
| CollectionSync.Run.Record | internal/pim/store.go:322-330 | File, entry and saved state in this order, each stop resumable |
| CollectionSync.Run.DropMissing | internal/pim/store.go:345-365 | An entry whose object is gone loses its file only after the backup and then goes itself |
| CollectionSync.Run.RemoveMissing | internal/pim/store.go:346-361 | Backup strictly before removal |
| CollectionSync.Run.DeleteObject | internal/pim/store.go:366-376 | A locally deleted item is deleted remotely only in the version that was read |
| CollectionSync.Run.RecordAgreement | internal/pim/store.go:382-387 | Equal contents only update the common hash |
| CollectionSync.Run.DownloadTracked | internal/pim/store.go:377-381 | A missing or locally unchanged file takes the remote content |
| CollectionSync.Run.UploadTracked | internal/pim/store.go:389-399 | A local edit is put over exactly the version that was read and the stored answer becomes the common version |
| CollectionSync.Run.PutEdit | internal/pim/store.go:393-396 | The conditional write, whether it took effect or not, leaves a resumable state |
| CollectionSync.Run.SyncItem | internal/pim/store.go:338-400 | One round of the loop over tracked ids keeps the loop's invariant with one id less to do |
| CollectionSync.Run.SyncTracked | internal/pim/store.go:332-401 | The whole loop over tracked ids, in any order of effects failing |
| CollectionSync.Run.SyncNew | internal/pim/store.go:402-419 | Every object without entry is adopted or downloaded; ids just deleted are skipped |
| CollectionSync.Run.UploadNew | internal/pim/store.go:438-450 | One untracked file is created remotely and recorded |
| CollectionSync.Run.SyncLocal | internal/pim/store.go:420-451 | Every file still untracked is uploaded once |
| CollectionSync.Run.Apply | internal/pim/store.go:332-452 | The apply phase stops only in resumable states and fails only for the disk, the connection, a refusal or cancellation, never for a conflict, and with nobody else about never because an object is another version than the one read |
| CollectionRecovery.CrashRecovery | internal/pim/store.go:311-452 | A run cut short anywhere and a second one end with the same files, entries and objects as one uninterrupted run |
| CollectionRecovery.SecondRun | internal/pim/store.go:257-452 | After a finished undisturbed run, whatever form the server stores, the next one changes no file, entry, backup or object and sends nothing |
| CollectionRecovery.StrandedRename | internal/pim/store.go:257-452 | From every collection with such a rename, that one included, a run either does not end or leaves two files of one UID, and then the next run fails |
| CollectionRecovery.CutUploadAccepted | internal/pim/store.go:275-281 | Recovery needs a server that keeps what it is given: after an upload cut off before its answer was stored, the next preflight passes exactly when the stored form has the hash of the edit or of the last common version |
| CollectionRecovery.CutCreationAccepted | internal/pim/store.go:283-297 | After a creation cut off before its answer was stored, the next preflight passes exactly when the stored form has the hash of the file |
| CollectionRecovery.SameEnd | internal/pim/store.go:332-452 | Synchronized states with equal outcomes for every UID are equal, which makes recovery exact |
| CollectionRecovery.StrandedRenameIsAccepted | internal/pim/store.go:283-297 | A concrete collection, within every hypothesis but one, that the preflight accepts although without delete propagation a renamed item would be duplicated; with it, it would not |
| CollectionSteps.StrandedRenameDuplicates | internal/pim/store.go:377-381 | Whenever such a rename is accepted and worked off, two files share a UID afterwards |
| CollectionTidy.TidyWrite | internal/pim/store.go:311-331 | Writing a tracked item's file, over its own content or where no file has its UID, keeps entries of distinct UIDs with their own files |
| CollectionTidy.TidyDone | internal/pim/store.go:332-401 | After the loop over tracked items every entry has its file and all UIDs differ, unless a rename was stranded |
| CollectionTidy.TargetUnused | internal/pim/store.go:283-297 | The file an untracked object is stored under belongs to no entry, and no other file has its UID |
| CollectionTidy.HeldStore | internal/pim/store.go:402-419 | Storing an untracked object keeps every entry with its own file and all UIDs distinct |
| CollectionTidy.HeldWrite | internal/pim/store.go:420-451 | So does recording an uploaded file, in whatever form it came back |
| CollectionBackend.Server.Put | internal/pim/store.go:28-32 | The backend contract: an update succeeds only on the revision it names, a creation yields an id that was free |
| CollectionBackend.Server.Update | internal/pim/dav.go:252-270 | Compare and swap on the revision; with nobody else about, an update of the version that is there is never refused |
| CollectionBackend.Server.Create | internal/pim/dav.go:245-256 | Creation never replaces |
| CollectionBackend.Server.Delete | internal/pim/dav.go:272-279 | Deletes only the revision named, and with nobody else about is not refused for the one that is there |
| CollectionBackend.Server.Snapshot | internal/pim/store.go:220-223 | A complete listing of one moment, or an error |
| CollectionBackend.ListingOfItems | internal/pim/store.go:226-242 | A complete listing is valid if and only if all UIDs parse and differ |
| CollectionBackend.Directory.WriteItem | internal/pim/store.go:132-151 | A file is replaced as a whole or not at all |
| CollectionProofs.RemoveLocalKeepsOutcome | internal/pim/store.go:357-360 | Crash recovery step by step: removing the file of a vanished object changes for no UID what a complete run would make of it |
| CollectionProofs.DropEntryKeepsOutcome | internal/pim/store.go:362-365 | Crash recovery step by step: forgetting an entry with neither copy left changes for no UID what a complete run would make of it |
| CollectionProofs.DeleteRemoteKeepsOutcome | internal/pim/store.go:370-376 | Crash recovery step by step: deleting the object of a deleted file changes for no UID what a complete run would make of it |
| CollectionProofs.DownloadTrackedKeepsOutcome | internal/pim/store.go:325-330 | Crash recovery step by step: overwriting an unchanged or missing file changes for no UID what a complete run would make of it |
| CollectionProofs.SaveTrackedKeepsOutcome | internal/pim/store.go:328-330 | Crash recovery step by step: recording a new common hash changes for no UID what a complete run would make of it |
| CollectionProofs.UploadEditKeepsOutcome | internal/pim/store.go:393-396 | Crash recovery step by step: replacing the remote version by an edit changes for no UID what a complete run would make of it |
| CollectionProofs.DownloadNewKeepsOutcome | internal/pim/store.go:410-415 | Crash recovery step by step: downloading an untracked object changes for no UID what a complete run would make of it |
| CollectionProofs.SaveNewKeepsOutcome | internal/pim/store.go:328-330 | Crash recovery step by step: recording a new entry changes for no UID what a complete run would make of it |
| CollectionProofs.CreateKeepsOutcome | internal/pim/store.go:444-447 | Crash recovery step by step: creating an object from an untracked file changes for no UID what a complete run would make of it |
| CollectionProofs.RemoveLocalKeepsGood | internal/pim/store.go:357-360 | After removing the file of a vanished object a new preflight would still accept |
| CollectionProofs.DownloadTrackedKeepsGood | internal/pim/store.go:325-330 | After overwriting a tracked file a new preflight would still accept |
| CollectionProofs.UploadEditKeepsGood | internal/pim/store.go:393-396 | After uploading an edit a new preflight would still accept |
| CollectionProofs.DownloadNewKeepsGood | internal/pim/store.go:410-415 | After downloading an untracked object a new preflight would still accept |
| CollectionProofs.CreateKeepsGood | internal/pim/store.go:444-447 | After creating an object a new preflight would still accept |
| CollectionProofs.SyncedUnique | internal/pim/store.go:332-452 | A synchronized state is determined by what it holds for each UID |
| CollectionProofs.SyncedOutcome | internal/pim/store.go:332-452 | A synchronized state is a fixpoint of the per-UID outcome |
| CollectionProofs.SyncedIsGood | internal/pim/store.go:257-297 | A synchronized state passes the preflight and every hypothesis |
| CollectionSafety.SafeAfterWrite | internal/pim/store.go:322-327 | Overwriting a file loses no edit when its content was the common one or was accepted by the server |
| CollectionSafety.SafeAfterRemove | internal/pim/store.go:346-360 | Removing a file loses nothing once its backup exists |
| CollectionSafety.SafeAfterEvent | internal/pim/store.go:366-397 | A remote write or deletion is safe when the version it replaces is the last common one |
| CollectionSteps.UploadStep | internal/pim/store.go:393-396 | An accepted edit keeps safety, recovery and the loop's bookkeeping |
| CollectionSteps.DeleteStep | internal/pim/store.go:366-376 | A remote deletion keeps safety, recovery and the loop's bookkeeping, whatever other clients did |
| CollectionSteps.NewStep | internal/pim/store.go:402-419 | A download keeps safety, recovery and the loop's bookkeeping |
| CollectionSteps.CreateStep | internal/pim/store.go:438-447 | A creation keeps safety, recovery and the loop's bookkeeping |
| LockSafety.MutualExclusion | internal/config/collection_lock.go:20-72 | In every state of every run, with any number of processes, hosts and editors and crashes anywhere, at most one live process or editor is inside |
| LockSafety.RemovesOnlyDead | internal/config/collection_lock.go:107-151 | A process step that takes the lock's name away takes its own or that of an owner of its own host under which nobody lives |
| LockSafety.ForeignLockStays | internal/config/collection_lock.go:117-131 | Legacy, unrecognizable and foreign-host locks survive every process step unchanged |
| LockSafety.PublishesOwnRecord | internal/config/collection_lock.go:74-105 | A lock that appears through a process carries its complete record, and the name was free |
| LockSafety.NeverPartial | internal/config/collection_lock.go:74-105 | No lock under the name is ever half-written |
| LockSafety.AloneGetsInIff | internal/config/collection_lock.go:107-151 | Left to itself a process can get in exactly when the name is free or the recorded owner is of its host and has exited |
| LockSafety.GetsIn | internal/config/collection_lock.go:50-61 | From any such left-over lock there is a sequence of steps that acquires it |
| LockSafety.StaysOut | internal/config/collection_lock.go:117-138 | From any other lock no sequence of own steps does, and the lock stays as it is |
| LockProtocol.RunInv | internal/config/collection_lock.go:20-151 | The protocol invariant holds in every state of every run |
| LockProtocol.ProcKeepsInv | internal/config/collection_lock.go:23-151 | Every process step keeps the invariant and reaches no further than its own file or a name of its host |
| LockProtocol.EditorKeepsInv | internal/config/collection_lock.go:12-14 | So does every step of an editor that knows only the exclusive-create file |
| LockProtocol.GuardExcludes | internal/config/collection_lock.go:28-40 | Two live processes of one host are never both past the guard |
| LockProtocol.ProcKeepsOwnKnowledge | internal/config/collection_lock.go:110-150 | What a reclaiming process has seen of the lock stays true until it removes it |
| LockCollection.Installation.Lock | internal/config/collection_lock.go:23-72 | Success means holding alone under an own complete record, failure that the guard is given up; the effects are a run of the protocol; undisturbed, the error names exactly what stood in the way |
| LockCollection.Installation.Reclaim | internal/config/collection_lock.go:109-151 | Undisturbed, clears the name exactly when nothing blocks it, and otherwise reports what does |
| LockCollection.Installation.Create | internal/config/collection_lock.go:76-105 | Publishes the finished record under the name, never over another lock |
| LockCollection.Installation.Release | internal/config/collection_lock.go:63-71 | The lock is always still the own one; the guard is given up whether or not the removal succeeds |
| Utf8.ValidIffReencodes | internal/imapclient/folders.go:174-179 | A string is valid UTF-8 exactly when reading it as runes and encoding them gives it back |
| Utf8.RunesOfEncoding | internal/imapclient/folders.go:217-217 | Encoded scalar values are read back as they were |
| Base64.RoundTrip | internal/imapclient/folders.go:204-211 | Decoding undoes encoding for every byte string; the letters are printable and contain neither ampersand nor dash |
| MailboxNames.UnitsRoundTrip | internal/imapclient/folders.go:204-204 | UTF-16 units of scalar values are well paired and decode to them |
| MailboxNames.EncodeUTF7 | internal/imapclient/folders.go:197-228 | The loop with its run buffer computes the encoding that the round-trip lemmas are about |
| MailboxNames.DecodeUTF7 | internal/imapclient/folders.go:229-272 | The consuming loop computes the decoding that the round-trip lemmas are about, error for error |
| MailboxNames.DecodeBetween | internal/imapclient/folders.go:244-265 | One section: base64, even length and paired surrogates, or the right error |
| MailboxNames.RoundTripIffValid | internal/imapclient/folders.go:197-272 | Decoding the encoding gives the name back exactly for valid UTF-8 |
| MailboxNames.DecodesToText | internal/imapclient/folders.go:197-272 | For any bytes at all it gives them back with ill-formed bytes replaced |
| MailboxNames.ReadNamesCanBeSent | internal/imapclient/folders.go:186-195 | Every name read from a server is valid and, sent back, is read as the same name |
| MailboxNames.EncodingPrintable | internal/imapclient/folders.go:196-228 | The encoding of any name is printable ASCII |
| MailboxNames.EncodingInjective | internal/imapclient/folders.go:196-228 | Different valid names never share an encoding |
| WireStrings.Connection.ListString | internal/imapclient/folders.go:102-155 | Quoted strings, atoms, NIL and literals; a literal consumes exactly its bytes and the rest of its line |
| WireStrings.Connection.ReadLine | internal/imapclient/client.go:291-297 | One line without its line end, or an error at the end of the connection |
| WireStrings.Quoted | internal/imapclient/folders.go:109-124 | The index loop reads exactly the escaped string up to its closing mark |
| WireStrings.QuoteRoundTrip | internal/imapclient/client.go:304-308 | A quoted string is read back as it was and exactly it is consumed |
| WireStrings.MailboxNameRoundTrip | internal/imapclient/folders.go:156-195 | For both server generations every name a command may carry stays on its line and is decoded to itself |
| WireStrings.ListingRoundTrip | internal/imapclient/folders.go:41-57 | Delimiter and name of a listing are read one after the other, and the name is decoded to itself |
| FolderNames.SafeLocal | internal/folders/folders.go:396-423 | The loop that rewrites components in place computes the escape the lemmas are about |
| FolderNames.EscapedPart | internal/folders/folders.go:398-420 | So does the loop over the runes of one component |
| FolderNames.SafeIsValid | internal/config/folders.go:142-158 | For every byte string the default path passes the validation of local paths |
| FolderNames.SafeRoundTripIff | internal/folders/folders.go:396-423 | Percent-decoding gives the name back exactly when every component is nonempty valid text |
| FolderNames.SafeRecovers | internal/folders/folders.go:396-423 | For any name the decoded components are the original ones, ill-formed bytes replaced and an empty one read as a zero byte |
| FolderNames.SharedPathIff | internal/folders/folders.go:297-300 | Two folders share a default path exactly when their components read the same |
| FolderNames.SafeInjective | internal/folders/folders.go:396-423 | Folders of valid names without a lone zero byte never share one |
| MailWorld.FindTrackedMove | internal/syncer/moves.go:10-35 | Nowhere, one place or ambiguous, exactly as no, one or several other mapped Maildirs have the file |
| MailWorld.PutEffect | internal/maildir/maildir.go:60-90 | Delivery adds a file under its marker only if there is none and touches nothing else |
| MailWorld.RemoveEffect | internal/maildir/maildir.go:92-100 | Removal touches only files with the marker |
| MailWorld.GenuineThen | internal/maildir/maildir.go:60-100 | Deliveries and removals in any sequence never put a wrong message under a marker |
| MailWorld.CarriedStep | internal/syncer/syncer.go:137-255 | Mapping by mapping, files whose marker was not tracked at the start stay with their content |
| MailWorld.NextStage | internal/syncer/syncer.go:280-427 | Until its turn comes, a mapping has the files and the entries it had when the run began |
| JmapSync.Run.Sync | internal/syncer/syncer.go:263-428 | Every change on the server was lawful with the entries and Maildirs its mapping's pass began with; a run that ends undisturbed covers every member; from a covered state it settles every mapping and changes nothing on the server; from a settled one it changes nothing; it ends only if no entry blocks and reports a collision only if one does; untracked files stay in every outcome and every file that appears holds the message its marker names |
| JmapSync.ThreeRuns | internal/syncer/syncer.go:280-427 | First run covers, second settles without server change, third changes nothing, and the later two fail only for the network or the disk |
| JmapSync.Run.SyncMailbox | internal/syncer/syncer.go:280-426 | One mapping is settled, others stay covered or settled; undisturbed, messages whose files were missing are no longer members; with all files in place no semantic error can occur; what blocked the pass still blocks it in the saved state |
| JmapSync.Run.Propagate | internal/syncer/syncer.go:293-352 | Missing files become moves or removals and their messages leave the mailbox; every change on the server is lawful with the entries and Maildirs at the start; a collision is reported only if an entry blocks, and success excludes one |
| JmapSync.Run.PropagateOne | internal/syncer/syncer.go:297-351 | One missing file: with several copies nothing is asked of the server; with one the entry follows it and the membership with it, with none both go; every change is lawful and for this entry; a collision is exactly another file tracked for the message in that mapping |
| JmapSync.Run.PropagateMove | internal/syncer/syncer.go:309-344 | The entry and the membership go to the mapping that has the file, unless that mapping tracks the message with another file |
| JmapSync.Run.PropagateRemoval | internal/syncer/syncer.go:346-351 | The membership goes, and the entry exactly if that succeeds |
| JmapSync.Run.QueryEmailIDs | internal/jmap/client.go:310-338 | The same pages in a mail run; undisturbed, exactly the members |
| JmapSync.Run.Receive | internal/syncer/syncer.go:354-426 | The second half of a pass: it asks nothing of the server but reading, and completes a settled mapping |
| JmapSync.BlocksAlike | internal/syncer/syncer.go:323-329 | Whether an entry blocks is decided by the entries and Maildirs the pass began with |
| JmapSync.BlockedMove | internal/syncer/syncer.go:323-329 | Concretely: a message tracked in two mapped mailboxes whose first file was moved into the second Maildir blocks |
| JmapSync.BlocksThroughPass | internal/syncer/syncer.go:323-329 | The pass over an earlier mapping leaves the entry blocking if the file stays where it is alone and that mapping still tracks the message with another file, and always if it is a third mapping whose Maildir the file does not come to |
| JmapSync.Run.DropVanished | internal/syncer/syncer.go:359-375 | Entries and one file each go exactly for non-members; members keep theirs |
| JmapSync.Run.Download | internal/syncer/syncer.go:377-421 | Afterwards every wanted message that exists has entry and file; nothing else changes |
| JmapSync.Run.MoveBetweenMailboxes | internal/jmap/move.go:9-58 | A membership that is there is carried over, and nothing else is changed; vanished or already moved messages are left |
| JmapSync.Run.RemoveFromMailbox | internal/jmap/client.go:392-430 | Only after this membership was read, the message is destroyed if it was the only one read, and else loses exactly this one; other changes are other clients' |
| JmapSync.HalvesSettle | internal/syncer/syncer.go:354-421 | Dropping and downloading against one query leave entries, members and files in bijection |
| JmapMail.MoveKeepsCovered | internal/syncer/syncer.go:309-344 | Carrying an entry over keeps every mapping but the left one covered |
| JmapMail.RemovalKeepsCovered | internal/syncer/syncer.go:346-351 | Removing a membership keeps every other mapping covered |
| JmapChanges.UnrelatedSurvive | internal/syncer/syncer.go:293-352 | Under any changes of other clients, a membership that they keep survives unless an own change takes out exactly it or a destruction was overtaken |
| JmapChanges.SparedSurvive | internal/syncer/moves.go:10-35 | Under any changes of other clients, a message whose file is in place or has two or more copies, or that is not tracked, stays in the mailbox if they keep it there |
| JmapChanges.SparedUntouched | internal/syncer/moves.go:10-35 | No change of the pass names such an entry |
| JmapChanges.ChangedWasMissing | internal/syncer/syncer.go:293-352 | Over a whole run, a change was made only for a file that was missing when the run began and has at most one copy |
| JmapChanges.InPlaceUntouched | internal/syncer/syncer.go:293-352 | Over a whole run, no change names an entry whose file was in place when the run began |
| JmapChanges.RemovalSparesIff | internal/jmap/client.go:392-430 | Whatever other clients do between reading and asking, every other membership is spared exactly when more than one was read |
| JmapChanges.DestroyRace | internal/jmap/client.go:392-411 | A lawful run in which another client files the message elsewhere between read and destroy, and that membership is lost |
| ImapSync.Run.Sync | internal/syncer/syncer.go:87-261 | However it ends, the collision error does not occur, every change on the server was lawful with the entries and Maildirs its mapping's pass began with, untracked files stay and files that appear hold the message their marker names; ended, even disturbed, no message is left whose tracked file was missing at the start, provided nobody takes a mark of deletion back; ended undisturbed, every mapping is settled, and a settled account is left alone |
| ImapSync.SyncSpares | internal/syncer/syncer.go:87-261 | However a run ends, a message whose file was in place and that other clients keep stays exactly if no EXPUNGE of all marked messages found it marked; so it stays with UIDPLUS, without the override, or if it is not marked and nobody else marks it |
| ImapSync.Run.History | internal/syncer/syncer.go:87-261 | Over any number of runs, broken off or not, with reloads, local changes and deliveries, no collision is reported, and the identity invariant holds if nobody takes a mark back |
| ImapSync.Run.SyncMailbox | internal/syncer/syncer.go:113-259 | One mapping is settled and the others stay settled; undisturbed, exactly the messages of missing files are gone from the mailbox, and without UIDPLUS, if there was one, the marked ones with them; every change was lawful |
| ImapSync.Run.PropagateOne | internal/syncer/syncer.go:137-196 | One missing file: with several copies, or without UIDPLUS unless the override allows it, nothing is asked of the server; with one copy the entry follows it to a fresh UID, with none both entry and message go; every change is lawful and for this entry, and the destination never collides |
| ImapSync.Run.MoveUID | internal/imapclient/move.go:12-51 | The message gets a UID no entry has and loses its old one, in one step or by copy and then removal; nothing else is changed |
| ImapSync.Run.DeleteUID | internal/imapclient/client.go:227-243 | Refused exactly without UIDPLUS and override; marks the message and expunges it alone, or without UIDPLUS all marked ones; every answer may be lost after its effect |
| ImapSync.Run.MarkAndExpunge | internal/imapclient/client.go:234-243 | Two requests with others in between: done, the message is gone if no mark was taken back, and undisturbed nothing else but what the EXPUNGE takes |
| ImapMail.RemovalSparesIff | internal/imapclient/client.go:227-243 | A removal spares every other message of the mailbox exactly when the server has UIDPLUS or no other is marked as deleted |
| ImapMail.PassSparesIff | internal/syncer/syncer.go:134-196 | An undisturbed pass spares every message whose file was not missing exactly when the server has UIDPLUS, no file was missing, or none of them was marked |
| ImapChanges.MarkedIsTakenAlong | internal/imapclient/client.go:242-243 | Concretely: without UIDPLUS the removal of one message takes along a tracked one whose file is in place but that another client had marked |
| ImapChanges.CutOffMarkIsTakenAlong | internal/imapclient/client.go:234-243 | Without other clients: a removal cut off after its mark, the file put back, and the next removal takes the message along |
| ImapSync.Run.DropVanished | internal/syncer/syncer.go:208-221 | Entries and files go exactly for messages no longer listed, and no other entry loses its file |
| ImapSync.Run.Download | internal/syncer/syncer.go:223-254 | Afterwards every listed message has entry and file |
| ImapMail.MoveKeepsIdentity | internal/syncer/syncer.go:167-187 | Following a file to a fresh UID, whose key was free, keeps files of entries distinct exactly if the message the file was downloaded for does not stay behind |
| ImapChanges.MarkTakenBackLosesIdentity | internal/imapclient/move.go:38-50 | Concretely: another client that takes the mark back between copy and EXPUNGE leaves the original, and two messages will share one marker |
| ImapMail.FetchKeepsIdentity | internal/syncer/syncer.go:227-252 | A message that is there is downloaded under a marker no other entry has |
| ImapMail.LaterKeepsIdentity | internal/state/state.go:87-92 | Deliveries and deletions by others keep identities, since UIDs never come back |
| ImapMail.CarryKeepsSettled | internal/syncer/syncer.go:157-187 | A move settles the message in its new mapping and unsettles no other |
| ImapChanges.UnrelatedSurvive | internal/syncer/syncer.go:137-196 | Under any changes of other clients, a message that they keep and no own change names survives exactly if no EXPUNGE of all marked messages found it marked |
| ImapChanges.SparedSurvive | internal/syncer/moves.go:10-35 | Under any changes of other clients that keep it, a message whose file is in place or has two or more copies, or that is not tracked, stays exactly if it is not expunged along with others; so it does if it is not marked and nobody else marks it |
| ImapChanges.ChangedWasMissing | internal/syncer/syncer.go:137-196 | Over a whole run, a change was made only for a file that was missing when the run began and has at most one copy |
| ImapChanges.InPlaceUntouched | internal/syncer/syncer.go:137-196 | Over a whole run, no change names an entry whose file was in place when the run began |
| ImapMail.GoneStep | internal/syncer/syncer.go:137-196 | Messages that were moved or removed locally stay gone through all later mappings |
| ImapMail.IsBrought | internal/syncer/syncer.go:198-254 | The three loops together settle the mapping |
| PimJmap.Client.Snapshot | internal/pim/jmap.go:76-165 | Under arbitrary concurrent mutations a success is exactly the collection's members, each once and with its content, at one server state that still holds |
| PimJmap.Client.ReadPage | internal/pim/jmap.go:127-155 | Objects of a page extend the listing read so far or the server has moved on for good |
| PimJmap.Client.ReadPages | internal/pim/jmap.go:96-155 | Page after page under one query state: the whole listing, or the server has moved on for good |
| PimJmap.Client.ReadOne | internal/pim/jmap.go:128-154 | An object counts only in the state of the snapshot |
| PimJmap.Client.Set | internal/pim/jmap.go:188-206 | Nothing is written unless the server is still in the state last seen; what took effect is logged even if the answer is lost |
| PimJmap.Client.Put | internal/pim/jmap.go:208-293 | A success replaced exactly the version the edit was made from, or created a free id in the collection; all other objects are untouched; in every outcome, a lost answer included, at most one write took effect and it was on the object that its revision names |
| PimJmap.Client.Edit | internal/pim/jmap.go:232-292 | The stored object has the edited value under every key a client may write and the server's under its own |
| PimJmap.Client.Create | internal/pim/jmap.go:217-231 | The new object has the given values, belongs to the collection and has a free id; it differs from a file without an id |
| PimJmap.Client.Delete | internal/pim/jmap.go:295-329 | The object leaves the mapped collection; it is destroyed exactly with its last membership; what took effect, answered or not, was on the version known |
| PimJmap.DeleteSparesOthers | internal/pim/jmap.go:300-318 | A removal costs no other membership, and one more than one is counted exactly when another exists |
| JsonPatch.PatchCorrect | internal/pim/jmap.go:241-257 | Applied in any order the patch gives the edited values, null standing for absence, and leaves untouched keys as they were |
| JsonPatch.PatchOrderFree | internal/pim/jmap.go:241-257 | The order in which the server takes the paths never matters |
| JsonPatch.BuildPatch | internal/pim/jmap.go:241-260 | Succeeds exactly when no server-set key, UID or membership differs, and then holds exactly the touched keys |
| JsonPatch.PointerLeadsToKey | internal/pim/jmap.go:167-167 | An escaped key, split and unescaped, is that one key |
| JsonPatch.PointerInjective | internal/pim/jmap.go:167-167 | Escaping never merges two keys |
| JsonPatch.PointerPairLeads | internal/pim/jmap.go:310-310 | The membership path leads to the collection inside the membership object |
| UidText.AcceptedIff | internal/pim/store.go:76-130 | A text is accepted with an identity exactly when its lines are one well-nested container of the right kind whose component UIDs all equal the first nonempty one |
| UidText.UID | internal/pim/store.go:64-130 | The loop with its stack computes the verdict that the grammar lemmas are about |
| UidText.Scan | internal/pim/store.go:89-129 | So does the loop over the lines alone, error for error |
| UidText.FramingLine | internal/pim/store.go:83-88 | A line that frames the container means opening or closing exactly it |
| UidGrammar.AcceptsIffContainer | internal/pim/store.go:86-129 | The stack machine accepts exactly the trees of the grammar |
| UidGrammar.ContainerAccepted | internal/pim/store.go:89-129 | Every well-nested container with one identity is accepted |
| UidGrammar.Follows | internal/pim/store.go:98-113 | Any accepted prefix stands inside a chain of open components or after the one closed container |
| UidGrammar.ReadsBody | internal/pim/store.go:98-124 | Reading a body leaves the stack as it was and the identity folded over its UIDs |
| UidGrammar.AfterIsOneUid | internal/pim/store.go:119-122 | The folded identity is one exactly when all UIDs from the first nonempty one on are equal |
| Matching.MatchRemote | internal/syncer/adopt.go:358-402 | The three passes compute the match that the lemmas are about |
| Matching.NoMatchIff | internal/syncer/adopt.go:358-402 | Nothing is found exactly when the message agrees with no unused one in content, Message-ID or headers |
| Matching.UniqueMatch | internal/syncer/adopt.go:358-402 | A unique match is the only one of its tier and no stronger tier has any |
| Matching.TierOnce | internal/syncer/adopt.go:361-368 | No message is found twice, so several matches are several messages |
| Matching.AdoptMatches | internal/syncer/adopt.go:298-351 | Every file is counted once, and adopted exactly when it had one match not yet assigned |
| Matching.AdoptedOnce | internal/syncer/adopt.go:345-346 | No message is adopted twice |
| UploadForecast.NewIsFresh | internal/syncer/upload_existing.go:244-294 | What is uploaded agrees in no way with anything indexed or uploaded before |
| UploadForecast.PredictCountsAll | internal/syncer/upload_existing.go:169-295 | Every file is counted once and the index grows exactly by the uploads |
| UploadForecast.JudgeBySlots | internal/syncer/upload_existing.go:174-174 | Matching depends on contents only, so planned and real ids cannot make a difference |
| UploadRun.Account.HandleFile | internal/syncer/upload_existing.go:169-295 | One file is counted once as the forecast says, or nothing is counted and the index is as before; imports never pass the limit |
| UploadRun.Account.Settle | internal/syncer/upload_existing.go:202-241 | A file matching in place is adopted exactly when its message has no file yet, and retired otherwise; recorded markers never change |
| UploadRun.Account.Upload | internal/syncer/upload_existing.go:244-294 | An upload takes a fresh id, keeps uploads pairwise unmatched and respects the limit; a dry run changes nothing |
| UploadRun.Account.UploadMailbox | internal/syncer/upload_existing.go:136-307 | On every exit, limit, quota, failures and interruption included, the counters and the index are the forecast for exactly the files handled so far, and retired files are the duplicates counted |
| UploadRun.Account.Run | internal/syncer/upload_existing.go:112-309 | On every exit the counters and the index are the forecast for exactly the first files, as many as were handled; a finished run handled all, and one stopped by the limit imported exactly what it counts as uploaded |
| UploadRun.DryRunFidelity | internal/syncer/upload_existing.go:169-295 | A dry run and a finished real run on the same input agree on uploads, elsewhere, ambiguous and adopted plus retired; a real run that stops early counts the forecast of the files it handled |
| UploadRun.UploadExisting | internal/syncer/upload_existing.go:57-110 | On every exit the totals are the forecasts of the accounts done in full and of the files handled of the next; a positive limit bounds every import, and unknown accounts are refused before anything else |
| UploadRun.UploadAccount | internal/syncer/upload_existing.go:89-107 | Each account gets what is left of the limit and adds the forecast of the files it handled |
| UploadRun.PredictPart | internal/syncer/upload_existing.go:136-307 | Counting file by file through a mapping continues the forecast of all files before it |
| UploadIndex.Mail.BuildIndex | internal/syncer/upload_existing.go:335-378 | Whatever other clients do between any two requests, the index has each message whose data came with some listing once with its content, and every message with exactly the mapped mailboxes whose pages listed it; undisturbed, it is exactly what the mailboxes hold |
| UploadIndex.StayingIsIndexed | internal/syncer/upload_existing.go:335-378 | A message that stays in a mapped mailbox is indexed there with its content if no other before it disappears while the mailbox is listed, whatever else other clients do; with one page always |
| JmapPages.AlwaysListedIff | internal/jmap/client.go:310-338 | A message that stays is listed in every interleaving with other clients exactly if it is on the first page |
| JmapPages.SteadyIsListed | internal/jmap/client.go:310-338 | A message that stays and never moves up between two requests is listed |
| JmapPages.OneRemovalSkips | internal/jmap/client.go:310-338 | Concretely: with 501 messages and one of the first 500 removed after the first page, the last is never listed |
| JmapPages.UnchangedIsListed | internal/jmap/client.go:310-338 | A mailbox that does not change is listed completely and each message once |
| UploadIndex.Mail.QueryEmailIDs | internal/jmap/client.go:310-338 | The pages from position to position until an empty one or the total, each answered in some state of the server since |
| UploadIndex.Mail.GetEmails | internal/jmap/client.go:340-375 | Chunks of 200; a message that is there all the time is among those found |
| UploadIndex.IndexedIffListed | internal/syncer/upload_existing.go:359-376 | A message is indexed exactly if some mailbox listed it |
| UploadIndex.SkippedIsImported | internal/syncer/upload_existing.go:244-294 | One that was skipped counts as new, so its local copy is imported again, if nothing indexed agrees with it |
| UploadIndex.QuietIsIndexed | internal/syncer/upload_existing.go:335-378 | Listings of an unchanging server give exactly its messages and their mapped mailboxes |
| FolderOverrides.ReapplyIsReload | internal/config/folders.go:64-80 | Laying newer overrides over the list in memory gives, in order, what a fresh start gives |
| FolderOverrides.AppliedIs | internal/config/folders.go:69-80 | The result is the configured mappings without override, then the enabled overrides in their order |
| FolderOverrides.AppliedOnce | internal/config/folders.go:69-80 | Every remote is mapped at most once |
| FolderOverrides.SavedOnce | internal/config/folders.go:103-112 | A saved record replaces the one for its remote in place or comes last, and no other changes |
| FolderRequests.Manager.Handle | internal/folders/folders.go:206-371 | After every success the list equals a fresh reload and all paths, disabled ones included, are apart; subscribing and unsubscribing change no recorded path; the path conflict after the server change cannot occur |
| FolderRequests.Manager.Choose | internal/folders/folders.go:292-332 | The chosen path is free of every other remote, and the default path is always valid |
| FolderRequests.Manager.Record | internal/folders/folders.go:351-366 | Saving, then applying, keeps memory and file in agreement |
| FolderRequests.Manager.Mapping | internal/folders/folders.go:215-227 | Finds a matching mapping exactly when one is on record, active ones first |
| FolderRequests.Manager.Taken | internal/folders/folders.go:312-322 | Reports a conflict exactly when another remote has the path |
| FolderRequests.Manager.Target | internal/folders/folders.go:245-291 | The first listed folder with the id, selectable if it is to be subscribed, or a new valid name under a parent that is listed and may have children, which no folder has; each error exactly when its check fails |
| FolderRequests.Manager.ApplyFolderOverrides | internal/config/folders.go:64-94 | The filter in place computes the overlay, and no conflict is reported when paths differ |
| FolderRequests.Manager.SaveFolderOverride | internal/config/folders.go:95-140 | The edit of the record list computes the saved list |
| FolderRequests.Manager.Reload | internal/config/folders.go:62-94 | A fresh start from the managed file is always accepted and gives the list in memory |
| FolderRequests.SaveKeepsApart | internal/folders/folders.go:312-322 | A mapping saved on a free path keeps the paths of all remotes apart after a reload |
| FolderRequests.SaveKeepsPaths | internal/folders/folders.go:305-310 | Saving a known mapping, or one of an unknown remote, changes no recorded path |

## Left out

- Network, TLS, XML, JSON and TOML decoding, IMAP command framing, discovery, sending mail, quotas, status output, configuration and secrets: plumbing without deep properties.
- Digests, stable markers and derived ids are functions assumed injective on what occurs; Message-IDs, header fingerprints and normalized contents are functions of the bytes.
- Revisions and JMAP states are numbers, zero standing for the empty one; identity strings joined with line feeds are modelled as tuples.
- Files written atomically, renames, links and removals are single steps; symbolic links, permissions and durability are not modelled.
- CollectionSync.Run.SyncCollection: convergence and recovery assume no outside edits of the directory during the run (the lock) and entries of distinct UIDs, which every run preserves where no rename is stranded; recovery also that no rename is stranded and that the server stores bodies verbatim and files under an id derived from a UID only objects of that UID; safety assumes only the lock.
- CollectionBackend.Directory.WriteItem: the directory holds item files only; hidden files and files of other kinds, which the run skips, are not in it.
- CollectionSync.Run.Verify: editors keep out while the lock is held, so only the reading itself can fail.
- CollectionSync.Run.SyncTracked: works through the ids in any order, where the program sorts them first.
- CollectionRecovery.CrashRecovery: a crash is a run that stops with a failure after any effect; the second run starts from what is on disk and on the server.
- LockSafety.MutualExclusion: file numbers are not reused while a file is known, the guard is kept per host by the operating system and dropped when a process exits, nobody removes a lock by hand; the weaker guard of platforms without advisory locks is not modelled.
- LockCollection.Installation.Lock: one call is one process of the model; temporary files left by a crash have no name in it.
- WireStrings.Connection.ListString: blanks around a string are ASCII white space only.
- UidText.UID: letters are folded and blanks trimmed in ASCII only; JSON objects, whose identity is a field, are handled in PimJmap.
- JmapSync.Run.Sync: mapped remotes resolve to different mailboxes and local paths differ, so the branch for one remote with two Maildirs is not modelled; the resolver's memo of full names is not either; no local program changes a Maildir during a run.
- JmapSync.Run.SyncMailbox: that removed messages are no longer members is stated for a mapping's own pass, since a later pass may carry the same message back from another mailbox.
- JmapSync.ThreeRuns: runs in which nobody else changes the server; flags of messages are not modelled.
- ImapSync.Run.Sync: one UIDVALIDITY epoch with UIDs never reused; of the flags only the mark of deletion; clearing a mailbox after a reset is not modelled, nor is recovery of the window between the move on the server and the saved state, which the code does not provide; UIDs are their decimal texts.
- MailWorld.FindTrackedMove: a file name carries one marker.
- PimJmap.Client.Snapshot: the server's listing is fixed while its state is, and a page is empty only at its end; nothing is assumed of the query state.
- PimJmap.Client.Put: the contract parallels CollectionBackend.Server.Put for an object that this client has not written since it read it, as within one run none is; the server stores what it is told, and its own keys stay as they are; numbers are integers.
- UploadRun.Account.Run: an import yields an id that is not indexed, and no message on the server has the name of a planned upload; backup names of retired files are not modelled.
- UploadRun.UploadExisting: the index, entries and untagged files of each account are given; the index is that of UploadIndex.Mail.BuildIndex, reading the rest is left out.
- UploadIndex.Mail.BuildIndex: remotes are already resolved to mailboxes, and the order in which a server lists a mailbox is a function of its state.
- JmapSync.Run.Download: the data of the missing messages is read in one request, where the program asks for 200 at a time.
- Matching.AdoptMatches: tagging files and saving entries are left to UploadRun; the reasons for skipping are not counted apart.
- FolderRequests.Manager.Handle: matching a recorded remote to a folder is a parameter of which only is assumed that an id matches its own folder; symbolic link parents and the response list are not modelled; blanks around a new name are ASCII.
