# memriver in Dafny

memriver keeps versioned memories for coding agents, installs itself into their settings, and maintains the
store offline. These modules model the parts of it that carry an argument, and prove what they promise. They
verify together with `dafny verify dfyconfig.toml`.

| part | modules | main results |
|---|---|---|
| rule translation, RE2 to Python | `RegexSyntax`, `RegexScan`, `RegexTranslation`, `RegexMeaning`, `RegexClasses`, `RegexCorrectness`, `RegexUnits`, `RegexConversion`, `RegexRefused` | `ConvertedMatchesAlike`, `TranslationKeepsMeaning`, `ReadAlikeIff`, `ScanIsTranslation` |
| settings editors | `JsonText`, `JsonScan`, `JsonSplice`, `JsonRemoval`, `JsonEditor`, `ConfigMerge`, `MarkerBlock`, `MarkerPlan`, `TextSearch` | `RemovalIsExact`, `HookMergeHolds`, `HookMergeKeeps`, `HookRemove`, `WriteTwice`, `RemoveAfterWrite`, `UninstallLeavesNoMarker` |
| install transaction | `Disk`, `Install`, `InstallRun` | `Apply`, `RollBack` |
| versioned store | `Graphs`, `Kernel`, `KernelInvariant`, `KernelContents`, `KernelUndo`, `KernelAgent`, `KernelRuns`, `KernelVersions`, `HardDelete`, `MemoryStore` | `EveryRun`, `ChangeIff`, `ChangeRecords`, `UndoIsInverse`, `PlanIsLeast`, `DeleteIsExact` |
| session summaries | `Packing`, `TokenCut`, `SummaryCourse`, `Summarize` | `CutIsLeast`, `PlanIsLeast`, `Summarizer.Run`, `FurtherOn` |
| session start | `Neutral`, `SessionStart` | `Compose`, `FittedTells`, `FramedUniquely` |
| session registry | `Sessions`, `SessionService` | `NothingTakenBack`, `NudgesSpaced`, `PromptsKept` |
| maintenance runs | `TracedProjects`, `Consolidate`, `DreamReport`, `ReportWriter`, `DreamRuns` | `Traced`, `GroupDoes`, `JudgeAll`, `RunAndClose`, `RunAll` |

`Basics` and `PyText` hold result types and the parts of Python's strings that several modules need.

Code that works step by step is a method or a class with the same fields and loops, tied to a function that
describes it; what the code promises is proved about that function. Failures are not assumed away: every
primitive of the disk, every append to a report and every row written may fail, and a process may die before
any of them. Where others can act between two steps of a call, what they do is a parameter of the model.

## What turned out differently

- A bracket expression in which a dash follows a POSIX class whose expansion ends in one character
  (`[[:word:]-z]`, `[[:space:]-z]`) changes its meaning: the dash makes a range with the last character of the
  expansion. `TranslationKeepsMeaning` gives the exact condition, `WordDashMisread` the concrete pattern.
- Some patterns that RE2 (Go's, which the rules are written for) takes are dropped, since Python refuses the translation or warns: a flag group at
  position 0 that turns a flag off, a flag turned on and off at once, a group name that starts with a digit or
  stands twice, a quantified anchor, a doubled sign in a bracket expression; or since the scanner's table lacks a
  named class. `TranslationKeepsMeaning` has all of them in its condition, `RegexRefused` a pattern for each of the
  last five.
- The two engines part over units that the translation copies: Python's `$` also matches in front of a final
  newline, its `\s`, `\d`, `\w`, `\b` and `\B` know characters that RE2's do not, and letters beyond ASCII fold
  differently. `ReadAlikeIff` gives the exact condition for each unit, `DollarMisread` the concrete pattern and
  text, and `ConvertedMatchesAlike` the result for whole patterns on the texts that meet it.
- A marker block appended to a file that ends in a lone carriage return does not come off byte for byte
  (`RemoveAfterWrite`, an equivalence). A block between the two parts of a marker leaves that marker when it is
  removed, and only such a block does (`RemovalLeavesNoMarker`, an equivalence; `StrayMarker`, a concrete file);
  a plan that would do so is refused (`UninstallLeavesNoMarker`).
- A hook group of memriver's with several handlers is placed once and then refused as shared (`HookMergeHolds`).
- A payload is wrong about the store if and only if the store is empty and its one line does not fit: it then
  reports one omitted entry (`FittedTells`, `Compose`; `EmptyMiscounts`, a concrete notice).
- A partial summary that is the placeholder for an empty checkpoint (`[nothing kept]`) is lost when the checkpoint
  is resumed, and nothing else is (`CheckpointResumes`, an equivalence).
- The merge rounds of a summary need not shrink; they end because every round spends a call (`MergeRounds`).
- A retention may list a skipped run that is still at work: its row is deleted, and a later append makes its
  file again. A report file without its row is always of such a run (`RunDream`, `RunAll`), and after an
  undisturbed retention an append makes one if and only if the run started before the cutoff
  (`AppendAfterRetention`; `OrphanedReport`, a concrete run).

## Model

| member | source | states |
|---|---|---|
| RegexScan.Translate | packages/memriver-core/src/memriver_core/content_policy/rules_loader.py:54-181 | the scanning loop, with its output list, frames and class flag: on every text, well-formed or not, its answer is what the turn-by-turn description gives |
| RegexScan.ReadOne | packages/memriver-core/src/memriver_core/content_policy/rules_loader.py:100-179 | one turn of that loop: which characters are taken, what is put out, how the frames and the class flag change, or which class name is refused |
| RegexSyntax.ParsePrinted | packages/memriver-core/src/memriver_core/content_policy/rules_loader.py:54-87 | a printed pattern is the text of exactly one pattern, so texts and patterns can be exchanged; holds for the input and the output of the translation |
| RegexTranslation.ScanIsTranslation | packages/memriver-core/src/memriver_core/content_policy/rules_loader.py:95-181 | on the text of every pattern the loop is refused for the first unknown POSIX class, and otherwise gives exactly the text of the translated tree: scopes closed before every alternative bar and reopened after it, closed at the end of the innermost group |
| RegexMeaning.PosixMembersHold | packages/memriver-core/src/memriver_core/content_policy/rules_loader.py:35-44 | each named class of RE2, or its complement, has exactly its characters; the eight that the table expands are among them |
| RegexClasses.ReadsAlike | packages/memriver-core/src/memriver_core/content_policy/rules_loader.py:108-128 | a bracket expression with its classes expanded has the same members in Python as in RE2 if and only if no hazard occurs in it (a dash right after an expansion that ends in a single character) |
| RegexClasses.DoubledAlike | packages/memriver-core/src/memriver_core/content_policy/rules_loader.py:196-202 | where no hazard occurs, the expanded bracket expression has a doubled sign, on which Python warns, exactly where the original one has it |
| RegexCorrectness.NamesKept | packages/memriver-core/src/memriver_core/content_policy/rules_loader.py:54-87 | the translation keeps the names of the groups, in their order |
| RegexConversion.TranslationKeepsMeaning | packages/memriver-core/src/memriver_core/content_policy/rules_loader.py:54-181 | for every pattern of the grammar that RE2 accepts: a named class the table does not have is refused, and otherwise the answer is the text of one pattern; the loader gets it past Python with the same units under the same effective flags if and only if the pattern is convertible; and then, with any one reading of the units, both match alike on every text, captures and order of outcomes included |
| RegexUnits.ReadAlikeIff | packages/memriver-core/src/memriver_core/content_policy/rules_loader.py:228-233 | how RE2 and Python each read every kind of unit (`$`, `\b`, `\s`, sets, letters up to case and the rest): for each unit, its flags and each text, both read it alike at every position if and only if the text is settled for it, a condition on the characters of the text |
| RegexConversion.ConvertedMatchesAlike | packages/memriver-core/src/memriver_core/content_policy/rules_loader.py:228-233 | each engine with its own reading: on every text settled for the units of a convertible pattern, Python answers the converted pattern exactly as RE2 answers the original one |
| RegexConversion.PlainTextSettles | packages/memriver-core/src/memriver_core/content_policy/rules_loader.py:228-233 | a text in ASCII without vertical tab or separator characters that does not end in a newline is settled for every pattern whose case-folded units are ASCII |
| RegexConversion.DollarMisread | packages/memriver-core/src/memriver_core/content_policy/rules_loader.py:54-87 | a convertible pattern that Python reads differently: `a$` comes through unchanged, and on a line with its newline RE2 finds nothing and Python a match |
| RegexRefused.NumberedDropped | packages/memriver-core/src/memriver_core/content_policy/rules_loader.py:228-237 | a pattern that RE2 takes and Python refuses: `(?P<1>x)`, a name that starts with a digit |
| RegexRefused.TwiceDropped | packages/memriver-core/src/memriver_core/content_policy/rules_loader.py:228-237 | another: `(?P<n>x)(?P<n>x)`, a name that stands twice |
| RegexRefused.StartRepeatedDropped | packages/memriver-core/src/memriver_core/content_policy/rules_loader.py:228-237 | another: `^*`, a quantified anchor |
| RegexRefused.DoubledDropped | packages/memriver-core/src/memriver_core/content_policy/rules_loader.py:196-202 | another: `[a&&b]`, on which Python warns |
| RegexRefused.BlankRefused | packages/memriver-core/src/memriver_core/content_policy/rules_loader.py:109-125 | a class that RE2 knows and the scanner refuses: `[[:blank:]]` |
| RegexConversion.WordDashMisread | packages/memriver-core/src/memriver_core/content_policy/rules_loader.py:35-44 | a pattern whose meaning changes: `[[:word:]-z]` loses the dash and gains the back-quote |
| JsonText.ParsePrinted | packages/memriver/src/memriver/install/editors.py:1116-1144 | every document tree, in any white space, escapes and number spellings of RFC 8259 sections 2 to 7, is read back from its text |
| JsonScan.Cursor.SkipString | packages/memriver/src/memriver/install/editors.py:515-524 | the cursor moves just past the closing quote, escapes skipped, or the scan fails |
| JsonScan.Cursor.SkipValue | packages/memriver/src/memriver/install/editors.py:526-538 | the cursor moves to the end of a value of any kind |
| JsonScan.Cursor.ReadContainer | packages/memriver/src/memriver/install/editors.py:459-499 | lists the items of an object or array with the positions of name, value and end, and leaves the cursor just past it |
| JsonScan.ValueScan | packages/memriver/src/memriver/install/editors.py:526-538 | on the text of any value the scan ends exactly where what follows the value begins |
| JsonScan.ItemsScan | packages/memriver/src/memriver/install/editors.py:459-499 | on the text of any list of members or elements the scan finds exactly their bytes, in order, and the position of the closing bracket |
| JsonScan.ContainerScan | packages/memriver/src/memriver/install/editors.py:459-499 | the same for a whole object or array, empty ones included |
| JsonRemoval.FindSpan | packages/memriver/src/memriver/install/editors.py:547-593 | the walk along the key path finds the span described by the container it ends in, or nothing |
| JsonRemoval.CutItems | packages/memriver/src/memriver/install/editors.py:617-655 | cutting the span of one item of several leaves the text of the list without it and with one separator fewer |
| JsonRemoval.CutContainer | packages/memriver/src/memriver/install/editors.py:617-655 | cutting one item leaves the text of the container without it; a sole item leaves an empty container |
| JsonRemoval.CutAlong | packages/memriver/src/memriver/install/editors.py:563-615 | for every present member path or array index, the located bytes cut out of the text give the text of the tree without the target, every other byte kept |
| JsonRemoval.RemovedDenotes | packages/memriver/src/memriver/install/editors.py:1042-1061 | the smaller tree denotes the parsed document without the member or element, and one exists exactly when the other does |
| JsonEditor.Remove | packages/memriver/src/memriver/install/editors.py:583-615 | the parsed document decides, the scanner locates, the rest is copied, and the result is parsed again: the answer is the one of the document model, and the guard against a mislocated span never fires |
| JsonEditor.ObjectParsed | packages/memriver/src/memriver/install/editors.py:1116-1144 | a text is read as the one document it spells, or refused for exactly one of three reasons; a blank text is the empty object |
| JsonEditor.JsonObjectRemove | packages/memriver/src/memriver/install/editors.py:274-294 | an empty key path is refused; otherwise the member at the path is removed |
| JsonEditor.RemovalIsExact | packages/memriver/src/memriver/install/editors.py:274-294 | for every text: an error exactly when it is not an object document with distinct names; the text unchanged when the target is absent; otherwise the text with one span cut out, which is a document again and denotes the parsed document without the target |
| ConfigMerge.SetAtHolds | packages/memriver/src/memriver/install/editors.py:247-271 | after a merge the key holds the expected value, a takeover is reported exactly when another value was there, and the same merge again changes nothing |
| ConfigMerge.SetAtKeeps | packages/memriver/src/memriver/install/editors.py:247-271 | a change is at the key only: every other member, along the path and beside it, keeps its value and its place, and every path apart from it what it held |
| ConfigMerge.SetAtRefused | packages/memriver/src/memriver/install/editors.py:247-271 | a merge is refused if and only if something on the way to the key is not an object, and names the first such place |
| ConfigMerge.RemoveAfterSet | packages/memriver/src/memriver/install/editors.py:247-294 | removal after a merge takes the key out and leaves every path apart from it as it was before both |
| ConfigMerge.RemovedIs | packages/memriver/src/memriver/install/editors.py:1042-1061 | a removal from a parsed document needs its target there, and differs from the document only in the container the target is taken out of |
| ConfigMerge.FindStanding | packages/memriver/src/memriver/install/editors.py:321-345 | the loops that look for memriver's group: an unreadable command first, then several entries, none, one shared with other handlers, or one of its own |
| ConfigMerge.HookMergeHolds | packages/memriver/src/memriver/install/editors.py:297-352 | after a merge there is exactly one group of memriver's, the expected one; the foreign groups are there in their order; and the same merge again changes nothing, unless the group it placed has several handlers, which is then refused as shared |
| ConfigMerge.HookMergeKeeps | packages/memriver/src/memriver/install/editors.py:297-352 | a hook merge that changes anything does so at the event's groups only: every other setting and every other event keeps its value and its place |
| ConfigMerge.HookMergeRefused | packages/memriver/src/memriver/install/editors.py:297-352 | when a hook merge is refused, and for which of six reasons; any other merge goes through |
| ConfigMerge.HookRemove | packages/memriver/src/memriver/install/editors.py:355-405 | a removal is refused exactly where a merge of the same groups is, changes nothing where there is no entry, and otherwise cuts one span so that the document's groups are exactly the foreign ones, in order, and nothing else of the document differs |
| MarkerBlock.Positions | packages/memriver/src/memriver/install/editors.py:952-960 | all occurrences of a marker, in order |
| MarkerBlock.FramedSpan | packages/memriver/src/memriver/install/editors.py:912-926 | a written block is the one block the editors find, whatever marker-free text stands around it |
| MarkerBlock.BlockTextIs | packages/memriver/src/memriver/install/editors.py:901-909 | a body asks for one text, what stands between its own markers or all of it, stripped; it is framed if and only if no marker is in it |
| MarkerBlock.BlockOfBlock | packages/memriver/src/memriver/install/editors.py:901-909 | a block given as a body is itself, so either form of a body may be written |
| MarkerBlock.WriteIs | packages/memriver/src/memriver/install/editors.py:843-864 | a write is refused exactly for a bad body or broken markers, and says which; otherwise the block stands between what was around the old block, or after the source and its line end, and a takeover is reported exactly when an old block changed |
| MarkerBlock.WriteTwice | packages/memriver/src/memriver/install/editors.py:843-864 | the last write wins, and the same write again changes nothing |
| MarkerBlock.RemoveAfterWrite | packages/memriver/src/memriver/install/editors.py:867-898 | removing an appended block gives the file back byte for byte if and only if the file does not end in a carriage return; after a replacement it is the removal from the original file |
| MarkerBlock.Reclaimed | packages/memriver/src/memriver/install/editors.py:809-823 | a newline goes on a side exactly when the lines stay apart without it: one at most, whole, and no two lines are joined |
| MarkerBlock.RemovalKeepsLines | packages/memriver/src/memriver/install/editors.py:867-898 | removal from any file with one block: when the block stood on lines of its own the remaining lines are exactly those before and after it and no block is left; inside a line nothing is reclaimed |
| MarkerBlock.RemovalLeavesNoMarker | packages/memriver/src/memriver/install/editors.py:867-898 | for every file with one block: the removal leaves a file without markers if and only if the block did not stand between the two parts of a marker; there it leaves a file whose markers are broken |
| MarkerBlock.StrayMarker | packages/memriver/src/memriver/install/editors.py:867-898 | a concrete file of the second kind |
| MarkerPlan.Rendered | packages/memriver/src/memriver/install/__init__.py:328-344 | the loop over the operations of a plan on the in-memory copies, and the reading of every changed file after it |
| MarkerPlan.UninstallLeavesNoMarker | packages/memriver/src/memriver/install/__init__.py:328-344 | an uninstall plan over any files is refused if and only if a file it names has broken markers or its block between the two parts of a marker; otherwise every file named is left without markers and no other changes |
| MarkerPlan.InstallLeaves | packages/memriver/src/memriver/install/__init__.py:328-344 | an install plan over any files is refused if and only if a body has a stray marker or a file it names has broken ones; otherwise every file named is as the last operation on it alone would leave it, and no other changes |
| MarkerPlan.InstallIsSound | packages/memriver/src/memriver/install/editors.py:855-864 | the reading at the end refuses no install plan, since a write has read its own result |
| Disk.Machine.ReplaceAtomically | packages/memriver/src/memriver/install/__init__.py:467-478 | a replacement either has the new bytes and mode at the target or changes nothing that was there, and leaves no temporary file when its own clean-up works |
| Install.RemoveCreatedDirs | packages/memriver/src/memriver/install/__init__.py:611-660 | only directories this run made, still the same and empty, are removed; all of them when nothing fails and nothing else stands in them |
| Install.MakeDirs | packages/memriver/src/memriver/install/__init__.py:561-608 | every claimed directory is new; a failure takes the claims back; and where nothing fails and the nearest existing ancestor is a directory it succeeds |
| Install.ClimbedStack | packages/memriver/src/memriver/install/__init__.py:561-660 | what was climbed can be taken back in reverse once nothing else stands in it |
| Install.ReadSnapshot | packages/memriver/src/memriver/install/__init__.py:292-325 | text and mode of the file, both absent for no file; with nothing failing, a refusal only of a path with a link in it or of something that is no file |
| Install.WriteBackup | packages/memriver/src/memriver/install/__init__.py:482-490 | a backup is never written over anything and holds the bytes of the target; with nothing failing it is written wherever its name is free |
| Install.WriteTarget | packages/memriver/src/memriver/install/__init__.py:493-558 | whichever primitive fails, the disk is in one of the named states: untouched, only a new backup, or landed with a ledger entry that leads from the state before to the state after; a target that moved since the snapshot is not written; and with nothing failing on a tree it lands if and only if the target is as read, no link is on its way, its directory can be made, and a backup it needs has a free name |
| Install.CurrentBytes | packages/memriver/src/memriver/install/__init__.py:667-680 | the bytes of a regular file, nothing, something else, or unread |
| Install.RollBackOne | packages/memriver/src/memriver/install/__init__.py:697-772 | on any disk, whoever else wrote to it: no path is changed or removed unless it holds what the entry left; with nothing in between the disk is again what the entry found; and what it reports as not put back is so |
| InstallRun.RollBack | packages/memriver/src/memriver/install/__init__.py:691-775 | newest first: every step is careful among any other actors; without them every backup survives, and if nothing fails the disk is as before the entries |
| InstallRun.Apply | packages/memriver/src/memriver/install/__init__.py:1045-1070 | with no other actor: a run that succeeds settles every target and touches nothing else; a run that fails at any primitive, when the rollback's own primitives work, leaves every path with its bytes, mode or absence, but for new backups of what was there; with other actors: every write that landed found what planning read and spared every other file, and after a failure the steps back start from there, each from what the others made of the last, and change only what this run left; and where no primitive fails the run succeeds if and only if every target was ready when it came to it, so that alone, with every target ready at the start, it succeeds |
| Graphs.AcyclicGrown | packages/memriver-core/src/memriver_core/repository/sqlite/memory_store.py:380-384 | looking for a walk back from the new edges only is enough to keep a graph without cycles |
| Graphs.Reached | packages/memriver-core/src/memriver_core/repository/sqlite/memory_store.py:134-139 | a work list finds exactly what can be reached |
| MemoryStore.ApplyEach | packages/memriver-core/src/memriver_core/repository/sqlite/memory_store.py:190-200 | the operations are applied one after the other, up to the first refusal |
| MemoryStore.RefuseCycles | packages/memriver-core/src/memriver_core/repository/sqlite/memory_store.py:380-384 | the first new version whose sources lead back to its memory is refused |
| KernelContents.ChangeIff | packages/memriver-core/src/memriver_core/repository/sqlite/memory_store.py:169-385 | a change is committed if and only if, on the store as it was, each operation may be carried out and what they ask to cite makes no cycle: its project or memory and version, the time since which nobody may have read it, its citations, the content policy, and that the state it asks for is not the one there |
| KernelContents.ChangeRecords | packages/memriver-core/src/memriver_core/repository/sqlite/memory_store.py:220-311 | what a committed change wrote, operation by operation: an update the given texts stripped and the others as they were, its citations as asked in order and trust and sync the greatest they allow; a soft delete the earlier state, deleted; a restore the recorded state; a creation its project, type, stripped texts, origin and citations |
| KernelContents.ChangeRefused | packages/memriver-core/src/memriver_core/repository/sqlite/memory_store.py:209-385 | each refusal names the operation, and what it says of it is true of the store before the change |
| MemoryStore.Store.Apply | packages/memriver-core/src/memriver_core/repository/sqlite/memory_store.py:169-207 | a batch commits whole, with its change, exactly where the store allows it, and then holds what each operation asks for; otherwise the tables are as they were and the refusal is true |
| MemoryStore.Store.UndoChange | packages/memriver-core/src/memriver_core/repository/sqlite/memory_store.py:547-569 | the three checks of an undo, each an equivalence on the tables, and its one batch of inverses; nothing is undone in part |
| MemoryStore.Store.AgentWrite | packages/memriver-core/src/memriver_core/repository/sqlite/memory_store.py:617-660 | one agent operation: carried out exactly where it may be, with the one version it asks for; a result equal to the current state writes nothing and answers the row; any refusal is true and listed |
| MemoryStore.FindPlan | packages/memriver-core/src/memriver_core/repository/sqlite/memory_store.py:477-514 | the frontier loop computes exactly the plan |
| MemoryStore.Store.HardDelete | packages/memriver-core/src/memriver_core/repository/sqlite/memory_store.py:601-615 | the plan is computed again and must be the confirmed one; the members go with their versions and steps |
| KernelInvariant.DerivedIsLowest | packages/memriver-core/src/memriver_core/repository/sqlite/memory_store.py:366-377 | derived trust and sync are the greatest that everything cited allows |
| KernelInvariant.NoLoopNoCycle | packages/memriver-core/src/memriver_core/repository/sqlite/memory_store.py:380-384 | checking the sources of the new versions checks the whole citation graph |
| KernelInvariant.ApplyKeeps | packages/memriver-core/src/memriver_core/repository/sqlite/memory_store.py:169-207 | a committed change keeps the invariant (versions 1 to n with the row equal to version n, citations stored and acyclic, trust and sync never above what is cited), forgets no version, and moves only the memories of its steps |
| KernelUndo.UndoIsInverse | packages/memriver-core/src/memriver_core/repository/protocol.py:62-69 | once the three checks pass only the content policy can refuse an undo; on success each touched memory has its full recorded state from before the change, deleted if the change created it |
| KernelUndo.UndoTwice | packages/memriver-core/src/memriver_core/repository/protocol.py:62-69 | undoing the undo is admitted and gives every memory its state after the change, or is refused by the content policy |
| KernelUndo.UndoDecides | packages/memriver-core/src/memriver_core/repository/sqlite/memory_store.py:547-569 | an undo is refused as unknown, as taken apart by a hard delete, or as followed by other changes, each if and only if it is so, and the memories named are exactly those that moved; it is done if and only if none of this holds and the caller and the content policy allow it |
| KernelAgent.AgentApplied | packages/memriver-core/src/memriver_core/repository/protocol.py:52-61 | an agent's operation is never turned down for its citations: the cycle check at the end cannot fail |
| KernelAgent.AgentWrite | packages/memriver-core/src/memriver_core/repository/protocol.py:52-61 | an agent's operation goes through if and only if it may be carried out or asks for the state there is; it then writes exactly the version it asks for, in its own project, or nothing, and returns the row; the errors it can get are listed and true |
| KernelAgent.HiddenIsAbsent | packages/memriver-core/src/memriver_core/repository/protocol.py:52-58 | a memory that is absent, deleted or unreadable is answered alike |
| HardDelete.PlanIsLeast | packages/memriver-core/src/memriver_core/repository/protocol.py:100-106 | the plan is the least set with the target that no outside version cites |
| HardDelete.NoSmallerPlan | packages/memriver-core/src/memriver_core/repository/protocol.py:100-106 | any set with the target that can go without a dangling citation holds the plan, and going without one is exactly being closed |
| HardDelete.DeleteIsExact | packages/memriver-core/src/memriver_core/repository/protocol.py:100-106 | a confirmed deletion takes exactly the members, leaves every other row and version as it was, keeps the invariant, and makes incomplete exactly the changes that touched a member |
| HardDelete.RefusedShown | packages/memriver-core/src/memriver_core/repository/sqlite/memory_store.py:601-615 | a refusal of a deletion is of a memory that is gone, or shows the plan: its target, its members and every citation of a member |
| KernelRuns.RunKeeps | packages/memriver-core/src/memriver_core/repository/protocol.py:33-69 | the invariant holds after every run of apply, undo, write, hard delete and reads |
| KernelRuns.CitingDescends | packages/memriver-core/src/memriver_core/repository/protocol.py:81-88 | along any walk of citations trust and sync never rise, no citation dangles, and no walk leads back to its memory |
| KernelRuns.EveryRun | packages/memriver-core/src/memriver_core/repository/protocol.py:33-69 | both together for every store any run of calls can leave |
| KernelVersions.ChangeLands | packages/memriver-core/src/memriver_core/repository/sqlite/memory_store.py:313-330 | a committed change found every memory it names at the expected version and moved it on by one; every other memory is as it was |
| KernelVersions.RunIsForward | packages/memriver-core/src/memriver_core/repository/sqlite/memory_store.py:434-463 | over any run a memory is gone or has not gone back, as long as its id is not drawn again |
| Packing.PackedLeast | packages/memriver-dream/src/memriver_dream/calls.py:24-36 | greedy packing in order uses no more groups than any other packing in order within the same limit |
| TokenCut.EstimateIs | packages/memriver-dream/src/memriver_dream/calls.py:18-21 | the estimate is the quarter tokens rounded up, so fitting a budget is a bound on the quarters |
| TokenCut.Cut | packages/memriver-dream/src/memriver_dream/calls.py:24-36 | the cutting loop, for every budget |
| TokenCut.CutIsLeast | packages/memriver-dream/src/memriver_dream/calls.py:24-36 | the pieces give the text back, each within the budget, and no other split into pieces within the budget has fewer |
| TokenCut.PlanChunks | packages/memriver-dream/src/memriver_dream/phases/summarize.py:94-112 | the chunking loop, for every room |
| TokenCut.PiecesGiveLine | packages/memriver-dream/src/memriver_dream/phases/summarize.py:94-112 | a line is sent whole, or as marked pieces that give it back without their marks |
| TokenCut.PlanIsLeast | packages/memriver-dream/src/memriver_dream/phases/summarize.py:94-112 | above the mark size every chunk estimates below the room, the chunks hold all pieces in order, and no packing of them in order under the same cost has fewer chunks |
| SummaryCourse.CoversInOrder | packages/memriver-dream/src/memriver_dream/phases/summarize.py:221-228 | in any sound sequence of steps the chunks from the resume point on are asked about once each, in order, and none else |
| SummaryCourse.UnmergedParts | packages/memriver-dream/src/memriver_dream/phases/summarize.py:221-228 | without a merge the parts at hand are the resumed ones and then every answer with something in it, in order |
| SummaryCourse.PartsKept | packages/memriver-dream/src/memriver_dream/phases/summarize.py:179-206 | whatever the merges made of them, the parts at hand are nonempty, can be stored, and pass the policy |
| SummaryCourse.FurtherOn | packages/memriver-dream/src/memriver_dream/phases/summarize.py:163-177 | an attempt out of calls that had one to start with has covered more chunks than it resumed from |
| SummaryCourse.NoneToStart | packages/memriver-dream/src/memriver_dream/phases/summarize.py:163-177 | an attempt ends out of calls with nothing covered only if none was left when it started |
| SummaryCourse.ValidEnds | packages/memriver-dream/src/memriver_dream/phases/summarize.py:179-261 | where every answer was valid an attempt can only end for want of calls or of room |
| SummaryCourse.FinalReads | packages/memriver-dream/src/memriver_dream/phases/summarize.py:236-262 | what a final answer comes to: the model's own stripped text of 1 to 1200 characters that can be stored and passes, or an empty answer that says so; or the first thing that is wrong with it, each if and only if it is |
| SummaryCourse.PartReads | packages/memriver-dream/src/memriver_dream/phases/summarize.py:179-203 | what a partial answer comes to: the model's own text, nothing only for a chunk with a blank answer, or the first thing that is wrong with it, each if and only if it is |
| Summarize.CheckpointResumes | packages/memriver-dream/src/memriver_dream/phases/summarize.py:170-220 | a checkpoint is resumed at its chunk with the very parts it was made of, if and only if none of them is the placeholder |
| Summarize.Summarizer.Send | packages/memriver-dream/src/memriver_dream/phases/summarize.py:163-192 | over the budget no call is made; without a call left the checkpoint is stored, if anything is covered; otherwise the model is asked exactly this, and its answer is recorded |
| Summarize.Summarizer.Summary | packages/memriver-dream/src/memriver_dream/phases/summarize.py:179-203 | a call that is due, and what its answer comes to: the model's own text, or the reason to stop |
| Summarize.Summarizer.Merge | packages/memriver-dream/src/memriver_dream/phases/summarize.py:205-206 | the parts become the one answer to the parts joined, or the attempt stops as a call does |
| Summarize.Summarizer.NextChunk | packages/memriver-dream/src/memriver_dream/phases/summarize.py:221-228 | one chunk is asked about, its answer is one part more if there is something in it, and then the parts are one or within half the room |
| Summarize.Summarizer.MergeRounds | packages/memriver-dream/src/memriver_dream/phases/summarize.py:232-233 | each round replaces the parts by the answers to the chunks they pack into, until they pack into one; the rounds end although they need not shrink, because each spends a call |
| Summarize.Summarizer.Final | packages/memriver-dream/src/memriver_dream/phases/summarize.py:236-262 | the final call, on the body that is due: what is published is the answer's own stripped text, or the empty answer where it says so, within the limits; or the reason to stop |
| Summarize.Summarizer.Attempt | packages/memriver-dream/src/memriver_dream/phases/summarize.py:208-234 | at one room every call was due when it was made, and the attempt ends with the final answer on the parts, with an empty one because no part was kept, or for a stated reason that its calls show |
| Summarize.Summarizer.Run | packages/memriver-dream/src/memriver_dream/phases/summarize.py:293-320 | over all room halvings at most the allowed calls, each within the budget; the stored checkpoint holds the parts of the chunks covered; an answer has asked about all chunks from the resume point on and is the text of its last call's reply; and where every answer was valid and no room too large, the run finishes or stores a checkpoint strictly further on |
| SessionStart.OmittedReadsBack | packages/memriver/src/memriver/hooks.py:421-431 | the printed number of omitted entries is read back, and the notice is one line that neutralizing leaves alone |
| SessionStart.SizeIs | packages/memriver/src/memriver/hooks.py:100-112 | what fits is counted by the harness's own measure: UTF-16 code units for Claude Code, bytes of UTF-8 for Codex |
| SessionStart.CutOffWeight | packages/memriver/src/memriver/hooks.py:448-466 | adding up the lines is measuring the payload, in bytes of UTF-8 and in UTF-16 units |
| SessionStart.Fit | packages/memriver/src/memriver/hooks.py:434-468 | the text as it is when it fits; otherwise the largest proper prefix of its lines whose payload with the notice is within the limit |
| SessionStart.Index | packages/memriver-core/src/memriver_core/application/memory.py:306-325 | the index loop: as many entries as the budget, in order, then the notice with the number of the others; its own line for an empty store |
| SessionStart.ShownAddsUp | packages/memriver/src/memriver/hooks.py:448-466 | whatever prefix is kept, the lines shown and the number printed add up to all entries of the store, through the printing and reading of the first notice |
| SessionStart.FramedUniquely | packages/memriver/src/memriver/hooks.py:471-487 | the payload holds the delimiter phrase exactly twice, both times in its own frame |
| SessionStart.KeptIsFree | packages/memriver/src/memriver/hooks.py:408-418 | no prefix of a neutralized text, with the notice, holds the phrase |
| SessionStart.Compose | packages/memriver/src/memriver/hooks.py:471-487 | for every index, header and notice: notice, opening words, delimiters, header and closing words in their order around a body without the phrase; the whole index where that fits the harness, or the most lines of it that do; and every entry shown or counted, save for an empty store without room |
| SessionStart.FittedTells | packages/memriver/src/memriver/hooks.py:434-468 | for every frame, measure and limit: what is left of an index is true of the store if and only if the store has entries or the one line of an empty store fits; otherwise it says that one entry was left out |
| SessionStart.EmptyMiscounts | packages/memriver/src/memriver/hooks.py:471-487 | a concrete payload of the second kind: an empty store behind a notice of ten thousand characters, whatever the wording, the header and the harness |
| Neutral.NeutralizedIsFree | packages/memriver/src/memriver/hooks.py:408-418 | replacing the phrase leaves no occurrence and makes none |
| Neutral.NeutralizedAt | packages/memriver/src/memriver/hooks.py:408-418 | exactly the space inside each occurrence of the phrase is replaced, and nothing else |
| Neutral.NeutralizedJoined | packages/memriver/src/memriver/hooks.py:408-418 | replacing works line by line |
| TracedProjects.Traced | packages/memriver-dream/src/memriver_dream/phases/extract.py:93-126 | on every finite citation graph, cyclic or not: exactly the ordinary projects that can be reached through global versions, or none exactly when a reachable reference is missing; the cache does not change the answer |
| Sessions.TransactionKeeps | packages/memriver-core/src/memriver_core/repository/sqlite/session_store.py:193-296 | every transaction leaves the rows sound, each a follower of what it was, and touches one row at most |
| Sessions.NothingUnreadable | packages/memriver-core/src/memriver_core/repository/sqlite/session_store.py:148-172 | no write of a row is refused because the read path would reject it |
| Sessions.NothingTakenBack | packages/memriver-core/src/memriver_core/repository/protocol.py:194-216 | over all interleavings: a registered session stays registered, a project is never changed once given, a candidate is the only project its session can get, counters, watermarks and times only grow, and no watermark passes the prompt count |
| Sessions.RegisteredOnce | packages/memriver-core/src/memriver_core/repository/sqlite/session_store.py:270-296 | a session goes from pending to registered at most once in a run |
| Sessions.NudgesSpaced | packages/memriver-core/src/memriver_core/repository/sqlite/session_store.py:246-263 | with minimum and interval at least n, n times the nudges given is at most the last nudge watermark, which is at most the prompts |
| Sessions.PromptsKept | packages/memriver-core/src/memriver_core/repository/sqlite/session_store.py:215-234 | the counter is the number of prompts counted, the first prompt is the first of them, and the recent prompts are the last ones in order |
| SessionService.GrantStands | packages/memriver-core/src/memriver_core/application/sessions.py:314-336 | a session once granted a project is granted it for the rest of every run |
| SessionService.Service.StartSession | packages/memriver-core/src/memriver_core/application/sessions.py:107-129 | whoever registered the session, the answer is what the stored row grants; a row it inserts is bound to its directory's project, or has it as candidate; a row seen again keeps all but its times and transcript; a call adds at most one transaction to what others do |
| SessionService.Service.ObservePrompt | packages/memriver-core/src/memriver_core/application/sessions.py:131-152 | exactly the prompt that inserted the row is told so; the prompt is counted, kept as the first or among the last ones, and of the rest of the row only the time of activity moves |
| SessionService.Service.StopDecision | packages/memriver-core/src/memriver_core/application/sessions.py:157-164 | a nudge is answered exactly when one is due, five prompts after the last save and five after the last nudge, and is then recorded |
| SessionService.Service.ConfirmSession | packages/memriver-core/src/memriver_core/application/sessions.py:195-209 | a pending session gets its candidate if and only if the candidate's root was seen intact and is still the project's root; each refusal is an equivalence and changes nothing |
| SessionService.Service.RegisterSession | packages/memriver-core/src/memriver_core/application/sessions.py:211-238 | a session with a project or a candidate is left alone; otherwise the project is the one its entry directory resolves to |
| SessionService.PublishAnswers | packages/memriver-core/src/memriver_core/repository/sqlite/session_store.py:369-387 | a summary is stored if and only if the session is granted a project and has not moved since |
| SessionService.SaveAnswers | packages/memriver-core/src/memriver_core/repository/sqlite/session_store.py:265-268 | a save sets the watermark to the prompts counted, and nothing else |
| DreamReport.SafeIsOneLine | packages/memriver-dream/src/memriver_dream/report.py:41-47 | whatever text is reported stays on one line without control characters; its words all stay, in order, behind the spaces it began with |
| DreamReport.WordsAre | packages/memriver-core/src/memriver_core/models/helpers.py:29-30 | the words of a text are exactly what stands between white space and line-unsafe characters |
| DreamReport.SpacedReadsBack | packages/memriver-core/src/memriver_core/models/helpers.py:29-30 | words put on a line are read back from it, and the line is a single line already |
| DreamReport.ApplyingOpens | packages/memriver-dream/src/memriver_dream/report.py:89-96 | the first part of a change line can be told from its outcome, and the ids read from it are those of the memories the change touches |
| DreamReport.OutcomeReadsBack | packages/memriver-dream/src/memriver_dream/report.py:98-102 | a change line is read as it was meant, whatever a reason holds |
| DreamReport.UnknownSays | packages/memriver-dream/src/memriver_dream/report.py:50-65 | a change line closed as unknown says where to look for every memory the change touches, and for one it may have made |
| ReportWriter.Growing | packages/memriver-dream/src/memriver_dream/report.py:121-127 | an append closes an open change line with its outcome and keeps the file a list of whole lines |
| ReportWriter.ClosedReportTells | packages/memriver-dream/src/memriver_dream/report.py:113-127 | a closed report, read line by line, has one outcome for each call to apply: a change only if it committed, a refusal only if nothing was written |
| ReportWriter.LastIsDangling | packages/memriver-dream/src/memriver_dream/report.py:143-146 | the last line of the file is exactly the change line still open |
| ReportWriter.Report.Write | packages/memriver-dream/src/memriver_dream/report.py:121-127 | whole lines, or the first part of a change line, after closing an open one as unknown; nothing when the append fails, everything when it lands |
| ReportWriter.Report.Complete | packages/memriver-dream/src/memriver_dream/report.py:113-119 | the outcome is written, or the append failed and the line stays open |
| ReportWriter.Report.ApplyGroup | packages/memriver-dream/src/memriver_dream/changes.py:29-74 | no call without its line, no outcome that did not happen, never more groups than the limit, and a failure or death in between leaves the line open; what it writes is exactly the change line with its outcome and the steps, and it ends as the call does when every append lands |
| ReportWriter.Report.MarkInterrupted | packages/memriver-dream/src/memriver_dream/report.py:130-152 | a process that has only the file closes its open line as unknown and says so, or changes nothing |
| ReportWriter.Report.Session | packages/memriver-dream/src/memriver_dream/run.py:139-192 | a completed footer only behind the header and all lines of the phases, the needs collected in it; when every append lands the report ends as the phases do: completed, failed, or cut off by a death |
| ReportWriter.RunAndClose | packages/memriver-dream/src/memriver_dream/run.py:139-192 | a whole run under any failures of appends and a death before any of them, then the next run's closing: if the report is closed, every change line has one true outcome and there is one line for each call; if every append lands it is closed, and a completed run's file is exactly the lines it had to say |
| DreamRuns.Dream.PruneReports | packages/memriver-dream/src/memriver_dream/run.py:195-210 | only runs that are not running and started before the cutoff go, and one that stays keeps its row; if nothing fails all of them go, and if nobody else acts their rows and files are exactly what goes |
| DreamRuns.Dream.AppendAfterRetention | packages/memriver-dream/src/memriver_dream/run.py:202-210 | a skipped run still at work writes to its report after an undisturbed retention: one more file is without its row if and only if that run started before the cutoff |
| DreamRuns.OrphanedReport | packages/memriver-dream/src/memriver_dream/run.py:202-210 | a concrete run of those steps that leaves a file without its row |
| DreamRuns.Dream.CloseInterrupted | packages/memriver-dream/src/memriver_dream/run.py:134-137 | every interrupted run is marked failed, however its report could be closed; if nothing fails all of them, each with its footer |
| DreamRuns.Dream.Recover | packages/memriver-dream/src/memriver_dream/run.py:167-191 | after an exception the row is failed with some footer written, or still running; failed, if nothing fails |
| DreamRuns.Dream.RunDream | packages/memriver-dream/src/memriver_dream/run.py:134-192 | wherever it dies and whatever skipped runs do meanwhile: one running row at most, a completed row only with its completed footer, no report file without its row except of a run that a retention listed while it was at work; a run that returns is completed and no other is running, and only rows the run may touch change; alone and with nothing failing, the rows and files afterwards are exactly: what a crash left closed, what is old gone, and the new run completed, or failed where its phases break |
| DreamRuns.Dream.RunAll | packages/memriver-dream/src/memriver_dream/run.py:224-238 | the same over any sequence of processes that take the lock, with any steps of skipped runs among theirs; where no skipped run started before a cutoff every report file has its row |
| Consolidate.RulingIsSafe | packages/memriver-dream/src/memriver_dream/phases/consolidate.py:111-203 | what is carried out names no flagged memory as target, source or evidence, changes only memories that were sent, at the version sent, and cites only those or what was cited |
| Consolidate.RulingIs | packages/memriver-dream/src/memriver_dream/phases/consolidate.py:111-259 | the verdict on each judgment, each if and only if: left alone, flagged, malformed, declined by a rule, reported, or to be carried out, in terms of what it names and says |
| Consolidate.GroupDoes | packages/memriver-dream/src/memriver_dream/phases/consolidate.py:111-169 | what a group that landed did to the store: supersede deleted the obsolete memory and left the later one alone; merge made one memory with the judgment's texts and type, citing every id at the version sent, and deleted every id; rewrite gave the memory the judgment's texts and cites the evidence and the sources the evidence does not name |
| Consolidate.CleanIff | packages/memriver-dream/src/memriver_dream/phases/consolidate.py:289-302 | a pass finishes exactly when every judgment was carried out, reported or refused by a rule, every no-change reason was fine, and nothing was flagged |
| Consolidate.LandedIsPast | packages/memriver-dream/src/memriver_dream/phases/consolidate.py:206-259 | a group that lands found all its memories at the versions sent and leaves them past those, so none of them can be in another group |
| Consolidate.StaysPast | packages/memriver-dream/src/memriver_dream/phases/consolidate.py:206-259 | what is past its version sent stays past it whatever others do |
| Consolidate.Pass.JudgeAll | packages/memriver-dream/src/memriver_dream/phases/consolidate.py:289-302 | for every order of judgments and any writes of others in between: every applied group did to the store what its judgment says, came from a judgment of the answer that names no flagged memory as item, evidence or newer one, found its memories at the versions sent and acts at those; one not carried out was over the limit or refused by the store; no memory is in two applied groups; and the pass finishes exactly when it is clean |
| Consolidate.Pass.RunScope | packages/memriver-dream/src/memriver_dream/phases/consolidate.py:262-302 | every outcome of a pass: nothing asked about an empty or unchanged scope or once a memory is gone; otherwise each judgment's verdict and what was done for it, nothing else done to the store, and a digest stored if and only if the pass over what was sent is clean |

## Left out

- RegexSyntax.ParsePrinted: comments, quoted stretches, named groups with an angle bracket, quantified flag groups, the flag `U`, an empty flag group, octal escapes and escapes longer than `\xhh`, a literal unescaped `{` (as RE2 reads it in `a{,2}` and `a{01}`, where Python counts) and a literal `[` inside a bracket expression (`[a[b]`) are outside the grammar; a range up to one (`[A-[:digit:]]`) is read as rejected by RE2.
- RegexConversion.ConvertedMatchesAlike: decimal digits, letters and case beyond ASCII are tables of each engine, given as parameters; a round of a loop that takes nothing is read alike by both; what either engine refuses for its size or depth is not modelled.
- JsonEditor.RemovalIsExact: the decoding of a member name is a parameter; lone surrogates, non-finite numbers and nesting beyond the interpreter's limit are not modelled.
- ConfigMerge.HookMergeHolds: merges are on parsed documents, since a merge renders the whole document again; equality of JSON values and the splitting of commands into words are parameters.
- MarkerPlan.Rendered: plans over files of the other kinds are not modelled; the name of the command in an error is not.
- InstallRun.Apply: each primitive is all or nothing; the moment between a landed replacement and its record, and an actor between a check and its use, are not modelled; temporary names are new; paths are not resolved through links.
- Install.WriteTarget: the umask on new files and text that cannot be encoded are not modelled.
- MemoryStore.Store.Apply: ids are numbers in the order of their text; limits of the read path on what a row may hold, damaged rows, a removed store and imported versions are not modelled, and two steps of one change on one memory are a storage failure.
- MemoryStore.Store.HardDelete: the digest of the confirmed pairs is a parameter; of the table of reads only the last read is modelled.
- KernelVersions.RunIsForward: ids are random; that none is drawn again is a premise.
- Summarize.Summarizer.Run: prompt texts, the model and the content policy are parameters; choosing sessions and publishing the summary are not modelled.
- SessionStart.Compose: the fixed texts are a parameter that does not hold the delimiter phrase; digits outside ASCII in the notice and lone surrogates are not modelled.
- SessionService.Service.StartSession: a transaction that fails is one that did not happen; resolving directories, branches and a store removed meanwhile are parameters or left out.
- Sessions.PromptsKept: what a prompt entry may hold (secrets, size) is not modelled; the entry is a parameter.
- ReportWriter.RunAndClose: one append is all or nothing; a text the file cannot take is not modelled; the kind of a change is a word and its items are ids, as every caller has it.
- DreamRuns.Dream.RunDream: the lock is held or not; runs without it are modelled by what they may do (`Act`); ids are random, so that one drawn again is refused.
- DreamRuns.Dream.PruneReports: the order in which runs are pruned is not modelled.
- Consolidate.Pass.RunScope: stored times are numbers, so that one that is no timestamp is not modelled; the model's answer, the digest and the content checks are parameters; report lines of judgments and the call's budget are not modelled.
- TOML editing and the text a JSON merge renders: the behaviour of libraries.
- SQLite, locks, git, HTTP, subprocesses, settings, command line and views: foreign systems and user interface.
- Search ranking, secret rules and their matching, widths of characters: given as data or left to their tables.
- The purge of the store directory: its claims are about descriptors and inodes.
