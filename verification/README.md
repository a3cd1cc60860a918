# Verified model of the pv daemon

This project models five parts of `prvious/pv`, a local desired-state daemon, and proves
what they are for.

* **Configuration.** A project's `env` entries live at three depths: root, resource and
  allocation. `placeholders.dfy` proves the three placeholder scanners against one token
  grammar, and `placeholder_forms.dfy` what they answer on every text, told by how the text
  begins. `project_env.dfy` and `project_env_laws.dfy` prove the layered renderer against the
  shape checker and against a simple lookup, and `project_env_values.dfy` where the value of a
  placeholder comes from, end to end. `env_format.dfy` is the escaping of values,
  `managed_block.dfy` the rewriting of the managed block of an env file, with its texts in
  `managed_block_texts.dfy`, `init_merge.dfy` the
  stages that merge generated defaults, with their open-ended prefix search, `parser.dfy` what
  the parser accepts of env mappings and allocations, and `read_back.dfy` that of a whole
  configuration. `init_config.dfy` is the merge from end to end and what it keeps of the
  rendered environment, `init_accept.dfy` when its result is accepted, and `init_results.dfy`
  what it writes, text by text, and what that renders to.
* **Scheduling.** `queue.dfy` is the reconciliation queue as a state machine over every
  interleaving of its callers, `queue_laws.dfy` its invariant and what follows over all runs,
  `queue_progress.dfy` a bound on how long a job waits, `queue_history.dfy` what each step does
  to the guarded fields and by which steps a request is served,
  and `queue_class.dfy` the code under the mutex with the handles and their drops, each
  method tied to one step. `debounce.dfy` and `watcher.dfy` do the same for the debouncer and
  the configuration watcher; `scope.dfy` is the text form of scopes. A notification is a
  generation counter: a waiter wakes once the generation exceeds the one it was created at.
* **Promotion.** `promotion.dfy` is the two-object transaction over the gateway's root file
  and fragment directory, on a store in which every step may fail; `gateway.dfy` is the flow
  that plans, writes, promotes, starts, commits and rolls back.
* **Packet filter.** `pf_conf.dfy`, `pf_edit.dfy` and `pf_laws.dfy` inspect, insert and remove
  the reference in pf.conf; `pf_install.dfy` is the installation with its rollbacks.
* **Job streaming.** `protocol.dfy` has the lines and the JSON objects they are written as,
  `streaming.dfy` the server's select loop over a buffered transport, `client.dfy` the client,
  and `jobs.dfy` routing and the two end-to-end theorems.

`text.dfy`, `ordered.dfy` and `config.dfy` hold what these share. Strings are sequences of
characters, ordered maps are maps read in the order of `Ordered.Sorted`, errors are
datatypes that keep their payload. A loop of the source is a loop here, proved against a
specification function; the theorems are about those functions. The faults of the
promotion and of the pf installation are functions given to the methods, which say of every
step whether and how it fails; the contracts are about all of them, and concrete ones give
concrete runs. Faults of a transport and races (a torn write, which select branch is ready
first) are arbitrary choices inside the methods, so the contracts hold under all of them.

Some expected properties do not hold of the code as it stands. For each, the exact condition
is proved, and a concrete input or run that fails it:

* Removing the pf.conf reference after appending it is not always the same as removing it:
  a last line that ends in a bare carriage return and is kept loses that character
  (`PfEdit.RemoveAfterAppend`; `PfEdit.BareReturnLost`). A blank file is replaced by the
  reference, so it comes back empty (`PfInstall.BlankFileAfterUninstall`).
* Repairing a stale pf.conf does not make it current while it holds a PV directive that is
  not one of the known lines (`PfLaws.RepairState`; `PfLaws.RepairLeavesStale`).
* When enabling pf fails as the last step of an installation, the new rules stay loaded
  although both files are restored (`PfInstall.RulesAfterFailure`; `PfInstall.RulesStayLoaded`),
  and a file stays too if its rollback fails (`PfInstall.FilesAfterFailure`;
  `PfInstall.ConfStaysToo`).
* The promoted fragment directory holds files that are not planned if the candidate directory
  had been left behind by an earlier process of the same id (`Gateway.ExactFragments`;
  `Gateway.LeftoverPromoted`).
* An error of the gateway does not mean that the old configuration is active
  (`Gateway.ErrorKeepsOld`). A commit, a database record or the stopping of stale workers that
  fails after the start-up leaves the new one active, and so does a rollback that can remove
  nothing (`Gateway.ErrorWithNewActive`; `Gateway.FaultAfterStart`, `Gateway.NothingUndone`);
  other failed rollbacks leave parts of either (`Gateway.MixedTree`).
* A failed rollback is not reported if recording it fails, which replaces the error by its own
  (`Gateway.ReconcileGateway`; `Gateway.HiddenRollback`).
* A removal of the pf redirects that failed half-way cannot always be completed by trying
  again (`PfInstall.RetryExact`; `PfInstall.RetryRefused`).
* A project that renders may not render after an init merge, because a new allocation needs its
  context (`InitConfig.MergeKeepsRendering`; `InitConfig.MergeStopsRendering`).
* The text outside the managed block loses the carriage returns at the ends of its lines, and
  an unended last line gains a newline (`ManagedBlock.UserTextExact`;
  `ManagedBlock.ReturnTrimmed`). Its lines survive.
* The watcher never asks for projects whose id is empty or holds a colon
  (`Watcher.PollRequestsChangedProjects`; `Watcher.ColonNeverRequested`).
* Server and client may disagree on success: a client that runs a coalesced reconciliation is
  accepted and then always ends in an error (`Jobs.AgreementExact`; `Jobs.CoalescedDisagrees`).

## Model

| member | source | states |
|---|---|---|
| `InitMerge.SuffixDetermined` | crates/config/src/init.rs:631-633 | A generated key determines the numeric suffix of its prefix: two different suffixes never yield the same key, whatever the two default keys are. |
| `InitMerge.SuffixSearchBounded` | crates/config/src/init.rs:582-606 | Pigeonhole: if every suffix from 2 up to a bound is unavailable, each is blocked by a different already-used key, so the bound is at most the number of used keys plus 2. The open-ended loop ends. |
| `InitMerge.ChoosePrefix` | crates/config/src/init.rs:559-616 | The chosen prefix is available, every candidate before it in the fixed order (none, allocation, resource and allocation, then suffixed) is not, and it is found within the number of used keys plus 3. |
| `InitMerge.MergeResourceEnvDefaults` | crates/config/src/init.rs:543-557 | User entries stay; a default is present afterwards unless root or some resource already binds its key; nothing else is added; the returned key set is exact. |
| `InitMerge.MergePrefixedEnvDefaults` | crates/config/src/init.rs:635-655 | User entries stay; every added entry is a default under the one prefix and unused elsewhere; with an available prefix every default is present, bare or prefixed. |
| `InitMerge.MergeAllocationEnvDefaults` | crates/config/src/init.rs:559-616 | Each listed allocation of a resource gets its defaults, and nothing else, under the first of its prefixes that is available for the keys in use at its turn; the others stay untouched, and keys added to different allocations never clash with each other, with existing allocation keys or with any shallower key. |
| `InitMerge.MergeGeneratedAllocationEnv` | crates/config/src/init.rs:475-541 | Over all selected resources, in their order: only allocation environments change, every addition is a fresh key, and each selected allocation ends up complete under the first prefix available at its turn; resources that are not selected, mailpit, and allocations that are not listed are as they were. |
| `InitMerge.MergeGeneratedResourceEnv` | crates/config/src/init.rs:445-473 | Only the mailpit resource gains entries, all of them its defaults, each key new at every depth, and each default is present unless root or some resource binds its key; unselected, nothing changes. |
| `InitMerge.MergeResourceStructure` | crates/config/src/init.rs:421-443 | The resource exists afterwards with the selected track, whatever track it had, and with every listed allocation, new ones empty; its environment and the allocations it had are kept. |
| `InitMerge.MergeStructures` | crates/config/src/init.rs:204-208 | Structure merging never changes an environment entry, gives every selected resource its track and exactly the listed allocations beside those it had, and leaves every other resource as it was. |
| `InitConfig.MergeSelection` | crates/config/src/init.rs:184-210 | The whole merge: user entries preserved; every addition is one the selection asks for, with the template of its default, and is fresh at its own and all shallower depths; meaning and shape validity kept; all selected parts complete, each allocation under the first prefix available at its turn; unselected resources and unlisted allocations as they were. |
| `InitConfig.MergeDetermined` | crates/config/src/init.rs:184-210 | These promises leave no choice: two configurations that both keep them for the same configuration and selection are equal. |
| `InitResults.AllocationExact` | crates/config/src/init.rs:475-633 | What becomes of any listed allocation, text by text: of each key wanted for its resource that it lacks, the form under the first prefix whose keys are all there or free at its turn, with the template for it unless that form was there too, and nothing else. Templates and forms are written out. |
| `InitResults.MysqlMerged` | crates/config/src/init.rs:500-507 | Where nothing else binds the keys, a MySQL allocation has exactly its six entries more, with their templates. |
| `InitResults.PostgresMerged` | crates/config/src/init.rs:508-515 | The same for Postgres. |
| `InitResults.RedisMerged` | crates/config/src/init.rs:516-520 | The same for Redis. |
| `InitResults.RustfsMerged` | crates/config/src/init.rs:521-526 | The same for RustFS. |
| `InitResults.MailpitMerged` | crates/config/src/init.rs:445-473 | The same for Mailpit, whose entries are those of the resource. |
| `InitResults.MailpitExact` | crates/config/src/init.rs:445-473 | Key by key, a mail entry is added if and only if no root or resource entry has its key, with its template. |
| `InitResults.RootMerged` | crates/config/src/init.rs:187-203 | The root entries afterwards: the address and the TLS paths if asked for, and over them all that was there. |
| `InitResults.MysqlRenders` | crates/config/src/env.rs:57-131 | End to end: where the merged configuration renders, connection, host, port, database, user name and password of the allocation's context are found under the keys for them. |
| `InitResults.PostgresRenders` | crates/config/src/env.rs:57-131 | The same for Postgres. |
| `InitResults.RedisRenders` | crates/config/src/env.rs:57-131 | The same for Redis: host, port and prefix. |
| `InitResults.RustfsRenders` | crates/config/src/env.rs:57-131 | The same for RustFS: endpoint, bucket, access key and secret key. |
| `InitResults.MailpitRenders` | crates/config/src/env.rs:57-131 | The same for Mailpit: mailer, host and port. |
| `InitResults.AppUrlRenders` | crates/config/src/env.rs:57-131 | The address entry of a project that serves renders to its address. |
| `InitResults.ViteTlsRenders` | crates/config/src/env.rs:57-131 | Its TLS entries render to the paths of certificate and key. |
| `InitResults.TwoDatabasesMerged` | crates/config/src/init.rs:475-541 | A concrete merge of two databases that want the same keys: MySQL, whose turn is first, gets the bare ones, Postgres those with the name of its allocation before them. |
| `InitAccept.RenderProjectInitConfig` | crates/config/src/init.rs:180-223 | Merge, read back and shape check: it succeeds, with the merged configuration, if and only if the former configuration was accepted and its shape valid, the selection fits it, and nothing is wrong with the other fields. |
| `InitAccept.MergeAccepted` | crates/config/src/init.rs:212-213 | The merged configuration is accepted when it is parsed again if and only if the former one was, and the listed names are legal and differ, even when normalised, from each other and from those already there (and mailpit is given none). |
| `ReadBack.ReadConfig` | crates/config/src/parser.rs:46-191 | Parsing the written entries again accepts exactly the configurations whose keys, values and allocation names are accepted one by one, and yields the configuration that was written. |
| `ReadBack.OffersExact` | crates/resources/src/registry.rs:84-200 | The placeholder names each scope offers, for every resource. |
| `InitMerge.FreshAdditionsKeepMeaning` | crates/config/src/init.rs:184-210 | Adding fresh keys keeps, for every key, the depth, owner and template that win it, and keeps the shape valid or invalid as it was. |
| `InitConfig.MergeKeepsRendering` | crates/config/src/env.rs:57-131 | A configuration that rendered still renders after a merge that only adds fresh keys if and only if the additions have their context and render in it; then every key that rendered before renders to the same value. |
| `InitConfig.MergeStopsRendering` | crates/config/src/env.rs:98-109 | A concrete merge after which a project no longer renders: its new allocation has no context. |
| `InitMerge.AdditionsCompose` | crates/config/src/init.rs:204-210 | Two such merge stages in a row are again one, as long as the second does not put a key below one the first added. |
| `InitMerge.DefaultsIndependent` | crates/config/src/init.rs:475-541 | No two default keys of a resource are equal or end one another, so bare and prefixed forms of different defaults never collide. |
| `InitConfig.GeneratedKeysLegal` | crates/config/src/init.rs:618-633 | Every key generated for an allocation with a legal name is a legal env key. |
| `Parser.ParseEnvMapping` | crates/config/src/parser.rs:284-312 | A mapping is accepted exactly when every key is legal and every value validates in its scope; the error is that of the first entry that is not accepted. |
| `Parser.CollectedExact` | crates/config/src/parser.rs:284-312 | The resulting map has every key of the mapping with its last value, and no other. |
| `Parser.CollectedAccepted` | crates/config/src/parser.rs:284-312 | Every entry of an accepted mapping has a legal key and a value the validator accepted. |
| `Parser.ParseAllocations` | crates/config/src/parser.rs:153-191 | Accepted exactly when all names are legal, no two normalise alike and every environment is accepted; otherwise the error of the first entry at fault: its name, its clash, or its environment. |
| `Parser.NormalizedExact` | crates/config/src/parser.rs:495-501 | Normalising replaces hyphens for the databases and underscores for the stores, and nothing else. |
| `Parser.SamePrefixSameNormal` | crates/config/src/init.rs:618-629 | Two legal allocation names lead to the same generated env prefix if and only if the parser normalises them alike. |
| `Parser.AcceptedPrefixesApart` | crates/config/src/parser.rs:172-187 | So the allocations an accepted configuration holds have pairwise different env prefixes. |
| `Placeholders.ValueUsesAnyPlaceholder` | crates/config/src/model.rs:158-195 | The index loop finds a placeholder of the given names exactly when the lenient reading of the token grammar contains one. |
| `Placeholders.RenderEnvValue` | crates/config/src/env.rs:343-396 | The renderer loop yields the concatenated rendering of the grammar tokens, or the error of the first offending token. |
| `Placeholders.ValidateEnvPlaceholders` | crates/config/src/parser.rs:503-554 | The validator loop yields the verdict of the first offending token of the same grammar. |
| `Placeholders.ValidatorAcceptsExactly` | crates/config/src/parser.rs:503-610 | Accepted values are exactly the well-formed ones whose every placeholder has a legal name that the scope offers. |
| `Placeholders.AcceptedValueRenders` | crates/config/src/env.rs:343-396 | An accepted value never renders as malformed: it renders if and only if all its placeholders are in context, else a missing one is reported. |
| `Placeholders.ServingTestExact` | crates/config/src/model.rs:154-195 | On well-formed values the serving test holds exactly when a serving placeholder occurs. |
| `Placeholders.KeptRootEntryRenders` | crates/config/src/env.rs:317-341 | A validated root entry that a non-serving project keeps renders in every context. |
| `Placeholders.EscapeRoundTrip` | crates/config/src/env.rs:343-396 | Any text with every dollar doubled validates in every scope, is never a serving value, and renders back to that text. |
| `PlaceholderForms.PlaceholderRenders` | crates/config/src/env.rs:343-396 | A placeholder between plain characters and any text renders to its context value between what the two render to; a missing value is the error, else the error of the text behind. |
| `PlaceholderForms.PlaceholderChecked` | crates/config/src/parser.rs:503-554 | The validator judges its name, by emptiness, shape and scope, and goes on behind it. |
| `PlaceholderForms.PlaceholderServes` | crates/config/src/model.rs:158-195 | A text with it is a serving value exactly if it is one of the four serving names or the text behind is one. |
| `PlaceholderForms.UnterminatedForm` | crates/config/src/env.rs:343-396 | A placeholder that is never closed is the error of renderer and validator, with all text from its dollar on; the serving test goes on behind its brace. |
| `PlaceholderForms.BareDollarForm` | crates/config/src/env.rs:343-396 | So is a dollar that neither another one nor a brace follows; the serving test passes over it. |
| `PlaceholderForms.EveryForm` | crates/config/src/env.rs:343-396 | Every text is plain characters followed by one of these or by nothing, so these laws tell what every text comes to. |
| `ProjectEnv.CheckOwner` | crates/config/src/env.rs:133-161 | The checker loop over one mapping: exactly its kept keys are recorded, the first clash reported. |
| `ProjectEnv.ValidateProjectEnvShape` | crates/config/src/env.rs:133-161 | The checker loops compute the verdict over resource and allocation depth in iteration order. |
| `ProjectEnv.RenderMapping` | crates/config/src/env.rs:317-341 | One mapping rendered in key order, entries a non-serving project skips left out, first error reported. |
| `ProjectEnv.InsertSameDepthEntries` | crates/config/src/env.rs:398-414 | Rendered entries join their depth, or the first duplicate is reported with both sources. |
| `ProjectEnv.RenderProjectEnv` | crates/config/src/env.rs:57-131 | The layered renderer loops compute the overlay of the three rendered depths or the first error in order. |
| `ProjectEnvLaws.RendererAndCheckerAgree` | crates/config/src/env.rs:57-161 | A successful render implies that the shape check passes, and any duplicate the renderer reports is the very one the checker reports: same key, same two sources. |
| `ProjectEnvLaws.ShapeExact` | crates/config/src/env.rs:133-161 | The shape check passes if and only if no key is bound by two owners of the same depth below root. |
| `ProjectEnvLaws.RenderRefinesLookup` | crates/config/src/env.rs:57-131 | A successful render maps exactly the unskipped keys, each to its allocation value, else its resource value, else its root value. |
| `ProjectEnvLaws.RenderSucceedsExactly` | crates/config/src/env.rs:57-131 | Rendering succeeds if and only if the project has its values, no key has two owners at one depth, every owner with entries has its context, and every kept entry renders in it. |
| `ProjectEnvValues.ContextOffers` | crates/config/src/env.rs:260-316 | The overlaid maps offer, under each name, the project's value, else the allocation's, else its generated name, else the resource's; each TLS path under its own name. |
| `ProjectEnvValues.ContextExact` | crates/config/src/env.rs:98-131 | What has to be there beforehand, and the error if it is not: an address if the project serves, the contexts of resource and allocation. |
| `ProjectEnvValues.PlaceholderEndToEnd` | crates/config/src/env.rs:57-131 | Where the deepest owner of a key puts a placeholder between plain characters, the rendered environment has the value offered to that owner between them. |
| `ProjectEnvValues.ServingLeftOut` | crates/config/src/env.rs:317-341 | The rendered keys are those of entries that name no serving value, or of all entries if the project serves. |
| `ProjectEnvValues.DuplicateTold` | crates/config/src/env.rs:133-161 | A failed shape check names a key that two owners of one depth give, and both of them in the order they are visited in. |
| `ProjectEnvValues.ErrorTold` | crates/config/src/env.rs:57-131 | Any other error of the renderer is that of the missing address, which comes first, of an owner whose context is missing, or of a kept entry that does not render. |
| `ProjectEnvValues.SourceTexts` | crates/config/src/env.rs:57-161 | How entries are named in errors. |
| `EnvFormat.FormatEnvValue` | crates/config/src/env.rs:178-197 | The escaping loop yields the bare value when it is safe and the quoted, escaped form otherwise. |
| `EnvFormat.DecodeFormatted` | crates/config/src/env.rs:178-197 | A decoder recovers every value from its written form; bare and quoted forms are never confused. |
| `EnvFormat.FormattedOneLine` | crates/config/src/env.rs:178-197 | A written value is not empty and holds no line break. |
| `EnvFormat.BareExact` | crates/config/src/env.rs:433-438 | A value is written as it is if and only if it is not empty and holds no white space, comment sign, quote, backslash or dollar; any other is quoted. |
| `EnvFormat.EscapeForms` | crates/config/src/env.rs:178-197 | What each character comes to within the quotes. |
| `EnvFormat.ParseFormatted` | crates/config/src/env.rs:163-176 | The whole environment is recovered from its written text for keys without newline or equals sign. |
| `EnvFormat.FormattedLines` | crates/config/src/env.rs:163-176 | The text is one line for each entry, by ascending key, and each line is ended. |
| `EnvFormat.LegalKeysArePlain` | crates/config/src/parser.rs:612-631 | Legal env keys are such keys. |
| `ManagedBlock.ManagedBlocks` | crates/config/src/env.rs:465-497 | The marker loop finds the blocks of the recursive reading, or its first error. |
| `ManagedBlock.BlocksAcceptAlternating` | crates/config/src/env.rs:465-497 | Blocks are accepted exactly when start and end markers alternate, beginning with a start and ending with an end. |
| `ManagedBlock.BlocksDelimit` | crates/config/src/env.rs:465-497 | Accepted blocks are ordered, disjoint, begin and end at markers, and cover every marker. |
| `ManagedBlock.FoldManagedBlocks` | crates/config/src/env.rs:532-551 | All lines outside blocks in order, followed by one block. |
| `ManagedBlock.DuplicateExistingKeyWarnings` | crates/config/src/env.rs:553-585 | The warnings are exactly the generated keys that lines outside blocks assign, once each, ascending. |
| `ManagedBlock.TransformManagedEnvBlock` | crates/config/src/env.rs:199-230 | The rewrite appends, replaces in place or folds according to the number of blocks, and reports change exactly when the text differs. |
| `ManagedBlock.SplitJoinEnvLines` | crates/config/src/env.rs:440-463 | Splitting joined physical lines gives the lines back. |
| `ManagedBlock.OneBlockFound` | crates/config/src/env.rs:465-510 | A framed block between marker-free lines is found as the only block, at its place. |
| `ManagedBlock.WrittenBlock` | crates/config/src/env.rs:199-230 | Read back, the result is one block holding the rendered map between the lines the user had. |
| `ManagedBlock.TransformKeepsUserText` | crates/config/src/env.rs:199-230 | Whenever there is anything to write or a block to replace, the result has exactly one block, and all lines outside blocks survive in order. |
| `ManagedBlock.UserTextExact` | crates/config/src/env.rs:199-230 | The text outside blocks survives byte for byte around the new block if and only if no line outside blocks ends in a carriage return and a last line outside blocks is ended. |
| `ManagedBlock.ReturnTrimmed` | crates/config/src/env.rs:440-463 | A concrete text whose line loses its carriage return. |
| `ManagedBlock.TransformIdempotent` | crates/config/src/env.rs:199-230 | Rewriting its own output with the same map returns the same text, unchanged. |
| `ManagedBlockTexts.RewrittenText` | crates/config/src/env.rs:199-230 | A rewritten file from its first character to its last: user lines, the start marker, the formatted environment, the end marker, user lines. |
| `ManagedBlockTexts.WarningsExact` | crates/config/src/env.rs:553-585 | The warnings are the keys of the block that some user line assigns, ascending; changed means that the text differs. |
| `ManagedBlockTexts.Assigns` | crates/config/src/env.rs:587-597 | A line assigns a key if it is, after white space, an export or nothing, the key with white space around it, and an equals sign. |
| `ManagedBlockTexts.AssignsOnly` | crates/config/src/env.rs:587-597 | And only then: every line that assigns a key is of that form. |
| `ManagedBlockTexts.ErrorTold` | crates/config/src/env.rs:465-497 | A refused file has a start after a start, an end without a start, or a start that stays open, and that is what is reported. |
| `Scope.NewProjectExact` | crates/daemon/src/reconciliation.rs:396-402 | A project scope can be made of exactly the nonempty ids without a colon. |
| `Scope.NewResourceExact` | crates/daemon/src/reconciliation.rs:404-415 | A resource scope can be made of exactly the nonempty names and tracks without a colon. |
| `Scope.ParsePrint` | crates/daemon/src/reconciliation.rs:455-509 | Parsing the printed form of a constructible scope gives it back. |
| `Scope.PrintParse` | crates/daemon/src/reconciliation.rs:465-509 | Whatever parses is constructible and prints as the parsed text. |
| `Scope.PrintInjective` | crates/daemon/src/reconciliation.rs:455-463 | Different constructible scopes print differently. |
| `Scope.WordForms` | crates/daemon/src/reconciliation.rs:465-509 | What becomes of a text by its first word: of a lone word, and of any text whose first word is no kind of scope. |
| `Scope.ProjectForms` | crates/daemon/src/reconciliation.rs:465-509 | What becomes of project texts without an id or with too many parts. |
| `Scope.ResourceForms` | crates/daemon/src/reconciliation.rs:465-509 | What becomes of resource texts with too few or too many parts or an empty one. |
| `QueueLaws.StepKeeps` | crates/daemon/src/reconciliation.rs:142-333 | Every enqueue, look, wake, finish, drop or callback keeps the whole invariant: handles match entries, distinct keys, lock matches work, no lost wake-up, start order, conservation, callbacks at most once, trailing edge. |
| `QueueLaws.QueueInvariant` | crates/daemon/src/reconciliation.rs:142-333 | The invariant holds after every run of steps from the empty queue, lock and job-creation failures included. |
| `QueueLaws.TrailingEdgeGuarantee` | crates/daemon/src/reconciliation.rs:142-169 | A request answered with a job is answered with one of its key that has not started; after any further run that job is still queued, was abandoned in the queue, or has been started since the request. |
| `QueueHistory.ServedBySteps` | crates/daemon/src/reconciliation.rs:142-285 | The same told by the steps alone: the job a request is answered with has its key and is queued, not active; unless it still is, one of the later steps starts it or gives it up. |
| `QueueHistory.EnqueueExact` | crates/daemon/src/reconciliation.rs:142-247 | What an enqueue does to the guarded fields: joining changes nothing, nor does a refused lock; a job that cannot be created leaves the lock only with other work; a new job goes last. |
| `QueueHistory.LookExact` | crates/daemon/src/reconciliation.rs:263-280 | A look moves the first job into the active place if it is the handle's own and the place is free, and changes nothing otherwise. |
| `QueueHistory.EndExact` | crates/daemon/src/reconciliation.rs:532-547 | The end of a running job, finished or dropped, frees the place, notifies the waiters, and gives up the lock if nothing is queued. |
| `QueueHistory.DropExact` | crates/daemon/src/reconciliation.rs:518-530 | A job given up in the queue leaves it, the others stay in order, the waiters are notified, and the lock is given up if there is no other work. |
| `QueueHistory.HistoryExact` | crates/daemon/src/reconciliation.rs:142-333 | The recorded history is that of the guarded fields and the steps: what joined, what started, what ended and how, whose callback ran. |
| `QueueHistory.WokenRun` | crates/daemon/src/reconciliation.rs:257-285 | A concrete run: a second job falls asleep behind the first, is woken by its end, and starts. |
| `QueueHistory.AbandonedRun` | crates/daemon/src/reconciliation.rs:318-333 | A concrete run: a job that is dropped while it runs; its callback runs and everything is free again. |
| `QueueHistory.CancelledRun` | crates/daemon/src/reconciliation.rs:292-305 | A concrete run: the same for a job dropped before it starts. |
| `QueueLaws.PositionNeverGrows` | crates/daemon/src/reconciliation.rs:257-304 | While a job waits, no step of any caller moves it backwards. |
| `QueueLaws.HeadCanStart` | crates/daemon/src/reconciliation.rs:257-285 | When nothing is active and a job is queued, the first handle can start it by at most three steps of its own, wherever it is: no wake-up is lost. |
| `QueueProgress.StepDelay` | crates/daemon/src/reconciliation.rs:142-333 | Every step of any caller: those at or before a queued job use up a measure of the work before it, and only requests and jobs abandoned in the queue add to it, at most three per job ahead. |
| `QueueProgress.StartsWithin` | crates/daemon/src/reconciliation.rs:257-285 | From any reachable state and under any interleaving, a job queued at position p and not abandoned has started once those ahead of it have taken more than (p + 1)(3p + 8) steps, and 3(p + 1) for each request or abandoned job meanwhile. |
| `QueueProgress.SomeoneAheadCanGo` | crates/daemon/src/reconciliation.rs:257-285 | While a job is queued, one of those ahead of it can take a step, and not only by giving up. |
| `QueueLaws.EndsOnce` | crates/daemon/src/reconciliation.rs:292-333 | A job is never twice, or in two ways, among queued, active, finished and abandoned, and no abandon callback runs for a finished job. |
| `QueueLaws.AtRest` | crates/daemon/src/reconciliation.rs:518-553 | Once all handles are gone the queue is idle and unlocked, every job is finished or abandoned, the callback ran for exactly the abandoned ones, and every request was served by a later start or by its job being dropped from the queue. |
| `QueueClass.ReconciliationQueue.EnqueueWithKey` | crates/daemon/src/reconciliation.rs:142-169 | The code under the mutex is the enqueue step of the state machine, answer included, without the update lock. |
| `QueueClass.ReconciliationQueue.EnqueueMutatingWithKey` | crates/daemon/src/reconciliation.rs:204-247 | The same with the update lock: coalescing takes no lock, a refused lock changes nothing, a lock acquired for a job that cannot be created is kept only by a busy queue. |
| `QueueClass.ReconciliationQueue.EnqueueScope` | crates/daemon/src/reconciliation.rs:121-140 | A request for a scope joins the queued job of that scope, which changes nothing, or a new job of that scope goes last; or it fails and leaves the queue as it was. The lock is not touched. |
| `QueueClass.ReconciliationQueue.EnqueueMutating` | crates/daemon/src/reconciliation.rs:171-184 | The same under the update lock: a new job takes it, a refused lock changes nothing, and without a new job it stays only with other work. |
| `QueueClass.ReconciliationQueue.EnqueueSystemUpdate` | crates/daemon/src/reconciliation.rs:186-202 | The same for the update of the system, which has a key of its own. |
| `QueueClass.ReconciliationQueue.TryStart` | crates/daemon/src/reconciliation.rs:263-280 | One look of a waiting handle starts its job exactly when nothing is active and its job is first. |
| `QueueClass.ReconciliationQueue.RemoveQueuedJob` | crates/daemon/src/reconciliation.rs:518-530 | Dropping a queued job is the drop step of the state machine and tells whether the job was there. |
| `QueueClass.ReconciliationQueue.ReleaseActiveJob` | crates/daemon/src/reconciliation.rs:532-547 | Finishing and dropping a running job are the two release steps; a stale handle changes nothing. |
| `QueueClass.QueuedReconciliation.TryTurn` | crates/daemon/src/reconciliation.rs:257-285 | A handle whose turn it is hands its job and its callback to a new running handle and counts as released; otherwise it keeps waiting with its callback. |
| `QueueClass.QueuedReconciliation.Drop` | crates/daemon/src/reconciliation.rs:293-303 | Dropping an unreleased waiting handle removes its job and runs the callback once; dropping a released one does nothing. |
| `QueueClass.RunningReconciliation.Finish` | crates/daemon/src/reconciliation.rs:315-318 | Finishing releases the job and never runs the callback. |
| `QueueClass.RunningReconciliation.Drop` | crates/daemon/src/reconciliation.rs:322-332 | Dropping an unfinished running handle releases the job and runs the callback once; dropping a finished one does nothing. |
| `Debounce.StepKeeps` | crates/daemon/src/reconciliation.rs:349-383 | Every request, spawn, flush and delivery keeps: pending scopes imply exactly one worker yet to wake, flushes hold exactly what was asked since the flush before, each delivers its scopes once and ascending. |
| `Debounce.RequestsDelivered` | crates/daemon/src/reconciliation.rs:349-383 | Told by the steps of a run alone: a flush hands over a scope only if some request step for it has exactly the flushes before that one in front of it, and once at rest every such request has that hand-over exactly once. |
| `Debounce.ServedByLaterFlush` | crates/daemon/src/reconciliation.rs:349-383 | Every request is handed over by a step that comes after it, by the first flush that had not happened when it was made. |
| `Debounce.PendingTold` | crates/daemon/src/reconciliation.rs:349-368 | What is pending after a run is exactly what its request steps asked for since its last flush. |
| `Debounce.AskedTold` | crates/daemon/src/reconciliation.rs:349-383 | The record of requests that the invariant speaks of is that of the request steps of the run, each with the number of flushes before it. |
| `Debounce.DeliveredTold` | crates/daemon/src/reconciliation.rs:370-383 | The record of deliveries is that of the hand-over steps of the run, in order. |
| `Debounce.KindsInOrder` | crates/daemon/src/reconciliation.rs:11-25 | Deliveries come in the order of the scopes: the system, projects by id, resources by name and track. |
| `Debounce.WorkerStepWorks` | crates/daemon/src/reconciliation.rs:370-383 | Each step of a worker takes exactly one off a measure of the work left. |
| `Debounce.CanWork` | crates/daemon/src/reconciliation.rs:370-383 | Whatever is not at rest has a worker that can go on. |
| `Debounce.ComesToRest` | crates/daemon/src/reconciliation.rs:370-383 | Left alone, in whatever order workers go, the debouncer is at rest after exactly as many steps as there is work, and not before. |
| `Watcher.ReconciliationDebouncer.Request` | crates/daemon/src/reconciliation.rs:349-368 | Exactly the requested scope joins what is pending and the running flag is up; the caller is told to spawn exactly when the flag was down. The code is the request step of the state machine. |
| `Watcher.ReconciliationDebouncer.FlushAfterDelay` | crates/daemon/src/reconciliation.rs:370-383 | A worker hands over exactly the scopes that were pending when it woke, once each and ascending, by one flush step and its delivery steps. |
| `Watcher.ProjectConfigWatcher.PollOnce` | crates/daemon/src/watcher.rs:48-71 | Requests are exactly the changed entries before the first unreadable snapshot, in order; a complete poll replaces what is known by what it saw, an error keeps what was read so far and is returned. |
| `Watcher.PollRequestsChangedProjects` | crates/daemon/src/watcher.rs:48-71 | After a complete poll, the next asks for exactly the projects both polls saw with different snapshots, as far as their id can be part of a scope. |
| `Watcher.ColonNeverRequested` | crates/daemon/src/watcher.rs:48-71 | A project whose id holds a colon is never asked for, whatever changed. |
| `Promotion.NamesApart` | crates/daemon/src/gateway_config.rs:361-375 | The active name, its candidate names and its backup names never clash. |
| `Promotion.SideNames` | crates/daemon/src/gateway_config.rs:361-375 | The names of candidates and backups: the active name, the kind, the process id and a counter. |
| `Promotion.ConfigStore.PromoteConfigFile` | crates/daemon/src/gateway_config.rs:383-409 | Success, exactly when no step it needs fails, makes the candidate active with the former file under the backup name; failure leaves the active file as it was, or none if restoring failed, and never loses it; no other name is touched. |
| `Promotion.ConfigStore.PromoteConfigDir` | crates/daemon/src/gateway_config.rs:411-435 | The same for the fragment directory. |
| `Promotion.ConfigStore.RollbackFile` | crates/daemon/src/gateway_config.rs:253-260 | A rollback puts the backup back or removes a file that was new, exactly when no step it needs fails; one that fails keeps the backup. |
| `Promotion.ConfigStore.RollbackDir` | crates/daemon/src/gateway_config.rs:279-286 | The same for the directory, whose deletion may fail half-way. |
| `Promotion.ConfigStore.CommitFile` | crates/daemon/src/gateway_config.rs:245-251 | Committing only deletes the backup. |
| `Promotion.ConfigStore.CommitDir` | crates/daemon/src/gateway_config.rs:271-277 | The same for the directory. |
| `Promotion.ConfigStore.PromoteTree` | crates/daemon/src/gateway_config.rs:169-211 | Success installs root and the validated fragments undoably; what any failure leaves active is told by the faults, and is exactly what was there unless a failed rollback is reported; none loses the former root or fragments; nothing but the active, candidate and backup names changes. |
| `Promotion.ConfigStore.PromotePair` | crates/daemon/src/gateway_config.rs:190-211 | What becomes of root and fragments for all combinations of faults: both promoted, both as they were, or, when the promotion is stuck, what is left of either; a stuck promotion is what is reported as a failed rollback. |
| `Promotion.ConfigStore.Commit` | crates/daemon/src/gateway_config.rs:220-223 | Committing, even when it fails, leaves the promoted root and fragments active; success leaves no backup. |
| `Promotion.ConfigStore.Rollback` | crates/daemon/src/gateway_config.rs:225-234 | A successful rollback restores the former root and fragments exactly; what a failed one leaves of either is told by the faults, and it does not lose them. |
| `Gateway.GatewayProjectConfigFragments` | crates/daemon/src/gateway.rs:1333-1360 | Planning succeeds exactly if every rendered route renders and every other one can be read, else the error is that of the first that does not; the fragments are exactly those of the routes that are rendered or have an active file, with the id, the file name, and what was rendered or was active. |
| `Gateway.WriteProjectConfigFragments` | crates/daemon/src/gateway.rs:1398-1415 | Success leaves the candidate directory with the planned fragments over what it held; no other directory is touched. |
| `Gateway.UnplannedKept` | crates/daemon/src/gateway.rs:1398-1415 | A name that is not planned keeps what a stale candidate directory held under it. |
| `Gateway.PlannedWritten` | crates/daemon/src/gateway.rs:1333-1414 | Every planned fragment is written byte for byte as rendered or as it was active; of routes with one id the last decides. |
| `Gateway.PlannedExact` | crates/daemon/src/gateway.rs:1333-1360 | A fragment is planned if and only if it is that of a route that is rendered or has an active file, with what was rendered or was active. |
| `Gateway.PlannedTree` | crates/daemon/src/gateway.rs:1333-1414 | Name by name: a rendered route has what it rendered, one that is not has the very text it had, and under any other name there is what the candidate directory held, the marker of an empty plan apart. |
| `Gateway.ExactFragments` | crates/daemon/src/gateway.rs:937-1005 | The promoted directory holds exactly the planned fragments if and only if the candidate directory held nothing under other names before. |
| `Gateway.LeftoverPromoted` | crates/daemon/src/gateway.rs:1398-1415 | A concrete file left behind in the candidate directory that becomes part of the new fragments without being planned. |
| `Gateway.ReconcileGatewayConfig` | crates/daemon/src/gateway.rs:937-1005 | Success, exactly when planning, writing, validation and promotion meet no fault, leaves under each route's file name what it rendered or, unrendered, the text it had, elsewhere what the candidate directory held, and a root that imports if any route has a fragment, all of which the validator accepted; it can be undone. What is active after any failure is told by the faults; a failed rollback is reported if and only if recording the error succeeds; nothing old is lost. |
| `Gateway.ReconcileGateway` | crates/daemon/src/gateway.rs:273-294 | Success, exactly when nothing on the way fails, leaves under each route's file name what it rendered or, unrendered, the text it had, and the root rendered for them, as the validator accepted them; what is active otherwise, for all combinations of faults; the error of a runtime that does not start, of the record and of the stopping of stale workers; a failed rollback is reported if and only if recording it succeeds, and nothing old is lost short of a commit. |
| `Gateway.SucceedsExactly` | crates/daemon/src/gateway.rs:937-1166 | A run succeeds if and only if all rendered routes render, the root renders in both its forms, the validator accepts it with the new fragments, the runtime starts, and none of the places on the way, listed one by one, fails. |
| `Gateway.PreservedRun` | crates/daemon/src/gateway.rs:819 | A concrete run of one route that is not rendered: its active file is in the new tree as it was. |
| `Gateway.AllOrNothing` | crates/daemon/src/gateway.rs:273-294 | Short of a failed rollback, the new tree is active if the promotion took place and the runtime started, even if something fails after that, and the old one otherwise. |
| `Gateway.ErrorKeepsOld` | crates/daemon/src/gateway.rs:273-294 | After an error the old tree is active if and only if the error did not come after the start-up and no rollback failed; a new tree of which the root, or what a failed deletion leaves of the fragments, is as before apart. |
| `Gateway.ErrorWithNewActive` | crates/daemon/src/gateway.rs:273-294 | After an error a tree of new root and new fragments is active if and only if the promotion went well and then either the runtime started and the commit, the record or the stopping of stale workers failed, or it did not start and the rollback could remove nothing; without a failed rollback only the first, whatever in the tree is new. |
| `Gateway.FaultAfterStart` | crates/daemon/src/gateway.rs:1150-1156 | A concrete run for each of those later faults: an error, with the new root and the new fragments active. |
| `Gateway.NothingUndone` | crates/daemon/src/gateway.rs:1160-1166 | A concrete run in which the rollback can remove nothing: the whole new tree stays. |
| `Gateway.MixedTree` | crates/daemon/src/gateway_config.rs:199-206 | A concrete run that leaves neither tree: the new root beside the old fragments. |
| `Gateway.HiddenRollback` | crates/daemon/src/gateway.rs:1160-1166 | A concrete failed rollback, reported when the record succeeds and replaced by the error of the record when it does not. |
| `PfConf.ParseEmbeddedReference` | crates/platform/src/pf.rs:751-782 | Found exactly when there is one redirect anchor, one load directive and no variant of either. |
| `PfConf.ParseBlock` | crates/platform/src/pf.rs:147-183 | Accepted exactly when those two directives are the only active lines. |
| `PfConf.FilterRuleWords` | crates/platform/src/pf.rs:866-875 | A line is a filter rule if and only if its first word is block, pass or dummynet-anchor, or is anchor or antispoof with another after it. |
| `PfConf.KnownLines` | crates/platform/src/pf.rs:877-898 | The five lines that removal knows. |
| `PfConf.DirectiveWords` | crates/platform/src/pf.rs:718-722 | The directives that count as PV's, by how they begin. |
| `PfEdit.FirstPfFilterRuleIndex` | crates/platform/src/pf.rs:852-864 | The offset of the start of the first filter rule line, or none if there is no filter rule. |
| `PfEdit.AppendPfReference` | crates/platform/src/pf.rs:822-846 | The text splice equals inserting the redirect lines before the first filter rule and the load lines at the end; a blank text becomes the reference. |
| `PfEdit.AppendedParts` | crates/platform/src/pf.rs:822-846 | The redirect part goes before the first filter rule and the load part after everything, the lines around as they were; a blank text becomes the reference. |
| `PfEdit.InsertedTexts` | crates/platform/src/pf.rs:831-833 | The two inserted texts, in full. |
| `PfEdit.RemovePfReferenceLines` | crates/platform/src/pf.rs:877-898 | All lines but the known reference lines, in order, each ended by a newline. |
| `PfEdit.RemovedForms` | crates/platform/src/pf.rs:877-898 | Removal line by line: a known line goes, any other stays with its newline. |
| `PfEdit.RemoveAfterAppend` | crates/platform/src/pf.rs:822-898 | For non-blank text, removal after appending equals removal alone if and only if the text does not end in a bare carriage return on a last line that removal keeps. |
| `PfEdit.BareReturnLost` | crates/platform/src/pf.rs:822-898 | A concrete text for which the round trip fails. |
| `PfLaws.AppendState` | crates/platform/src/pf.rs:193-234 | A non-blank text with the reference appended inspects as current exactly when it held no PV directive before, else as stale. |
| `PfLaws.ReferenceState` | crates/platform/src/pf.rs:193-234 | A valid reference alone inspects as current exactly when it carries the PV marker, else as a conflict. |
| `PfLaws.RenderIsReference` | crates/platform/src/pf.rs:142-145 | The reference that is rendered is a valid block with the marker. |
| `PfLaws.AppendingToMissingMakesCurrent` | crates/platform/src/pf.rs:822-846 | Appending the rendered reference to any text inspected as missing makes it current. |
| `PfLaws.AnchorBeforeFilters` | crates/platform/src/pf.rs:822-846 | For every text, blank ones included, the redirect anchor comes before every filter rule once a valid reference is appended; the load directive is the last line, for a blank text if the reference is the rendered one. |
| `PfLaws.RemovalState` | crates/platform/src/pf.rs:877-898 | After removal a text inspects as missing, or as a conflict if it holds a PV directive that is not one of the known lines. |
| `PfLaws.RepairState` | crates/platform/src/pf.rs:449-452 | Repair of a stale text makes it current if and only if no unknown PV directive is left, or, when nothing else was in it, if the reference carries the marker. |
| `PfLaws.RepairLeavesStale` | crates/platform/src/pf.rs:449-452 | A concrete stale text that is still stale after repair. |
| `PfInstall.PfSystem.InstallAnchorFile` | crates/platform/src/pf.rs:784-810 | The anchor is replaced exactly when all three commands succeed; which one fails is told by the faults. |
| `PfInstall.PfSystem.ActivateConf` | crates/platform/src/pf.rs:473-490 | Check, install, reload and enable: which of conf, loaded rules and enabled state a failing command leaves changed. |
| `PfInstall.PfSystem.RollbackConf` | crates/platform/src/pf.rs:555-583 | Puts the saved pf.conf back, or removes it if there was none, or fails without effect. |
| `PfInstall.PfSystem.RollbackAnchor` | crates/platform/src/pf.rs:525-553 | The same for the anchor file. |
| `PfInstall.PfSystem.Install` | crates/platform/src/pf.rs:421-523 | The machine and the result after every combination of faults, order of errors and reported rollbacks included; success runs all steps in order, each content checked before it is installed. |
| `PfInstall.PfSystem.InstallCandidate` | crates/platform/src/pf.rs:466-517 | The part from the backups on: what the first failing step leaves of the files, the rules and the enabled state, and which rollbacks are reported as failed. |
| `PfInstall.SucceedsExactly` | crates/platform/src/pf.rs:421-523 | An installation succeeds if and only if what is prepared is valid, pf.conf is no conflict, and no step fails. |
| `PfInstall.RefusedExactly` | crates/platform/src/pf.rs:421-452 | When an installation does not begin, why, and that nothing is touched then. |
| `PfInstall.FailureReported` | crates/platform/src/pf.rs:453-517 | What is reported for each place that may be the first to fail, and when with a failed rollback. |
| `PfInstall.RulesAfterFailure` | crates/platform/src/pf.rs:473-517 | After a failed installation pf runs with its rules if and only if every step up to the reload went well and enabling pf failed; otherwise it runs with the rules it had. |
| `PfInstall.FilesAfterFailure` | crates/platform/src/pf.rs:473-517 | A failed installation leaves a file other than it was if and only if the file had been replaced and its rollback fails, and reports a failed rollback if and only if one fails. |
| `PfInstall.RulesStayLoaded` | crates/platform/src/pf.rs:473-517 | A concrete run: only enabling fails, no file is left, and the new rules are loaded. |
| `PfInstall.ConfStaysToo` | crates/platform/src/pf.rs:473-517 | The same with the rollback of pf.conf failing: the new pf.conf stays as well and the failed rollback is reported. |
| `PfInstall.PfSystem.Uninstall` | crates/platform/src/pf.rs:598-646 | What is left of pf.conf, the anchor file and the loaded rules, and what is returned, for all combinations of faults; a changed pf.conf was checked before it was installed. |
| `PfInstall.UninstallKeepsOrder` | crates/platform/src/pf.rs:598-646 | Whatever fails, the anchor file is never gone while pf.conf still inspects as having the reference; a conflict changes nothing; success leaves pf.conf without it, or in conflict if it has unknown PV directives; failure leaves the loaded rules. |
| `PfInstall.RemovalExact` | crates/platform/src/pf.rs:598-646 | A removal by what fails: when it succeeds, what is left of each file and of the rules, and what is reported. |
| `PfInstall.RetryExact` | crates/platform/src/pf.rs:598-646 | A second removal without faults after a failed one comes to what a first one would have if and only if pf.conf had not been cleaned yet or holds no unknown PV directive. |
| `PfInstall.RetryRefused` | crates/platform/src/pf.rs:598-646 | A concrete text and fault for which the second removal is refused and the anchor file stays. |
| `PfInstall.InstalledState` | crates/platform/src/pf.rs:441-464 | A missing or current pf.conf is current after installation; a stale one if and only if removal knows all its PV directives or nothing else was in it. |
| `PfInstall.InstallThenUninstall` | crates/platform/src/pf.rs:421-646 | Installing into a file without the reference and removing it again is removal alone, with the same exact exception; of a blank or absent file it leaves what removal leaves of the reference. |
| `PfInstall.BlankFileAfterUninstall` | crates/platform/src/pf.rs:421-646 | With the rendered reference that is an empty file, which is what removal alone makes of the file exactly when it was empty or absent. |
| `Protocol.EventRoundTrip` | crates/protocol/src/event.rs:3-35 | Every written event is read by the client as what it is if it is for the awaited job, and as a wrong-job error otherwise. |
| `Protocol.ResponseRoundTrip` | crates/protocol/src/response.rs:8-90 | Every written response is read back unchanged. |
| `Protocol.EventExact` | crates/daemon/src/client.rs:385-480 | Of any line that may arrive: when it is read as completion, rejection, download report or something to read past, by the fields it holds. |
| `Protocol.ResponseExact` | crates/protocol/src/response.rs:8-90 | Of any line: when it is read as a response, field by field. |
| `Protocol.EventWritten` | crates/protocol/src/event.rs:3-35 | The fields every event is written with. |
| `Client.ReadJobCompletion` | crates/daemon/src/client.rs:325-344 | The reading loop computes the end of the job as the lines tell it and passes on the download reports before it, in order. |
| `Client.RunJob` | crates/daemon/src/client.rs:135-150 | The client run: response checks first, then completion with the accepted id; the download reports passed on are, however the run ends, exactly those read before its deciding line. |
| `Client.CompletionExact` | crates/daemon/src/client.rs:325-436 | A job counts as completed with a summary exactly when a completion line of that job with that summary arrives after nothing but progress lines of that job. |
| `Client.FailureExact` | crates/daemon/src/client.rs:325-436 | It fails exactly with what is wrong with the first line that is not a progress line of that job, or, if no other line arrives, with the way the stream ended. |
| `Client.RunExact` | crates/daemon/src/client.rs:135-150 | A run succeeds exactly when the first line is a response that accepts the job under that id in protocol version 3 and a completion with that summary follows. |
| `Client.FirstLineRefused` | crates/daemon/src/client.rs:346-383 | Why a run ends at the first line: nothing arrived, no response, another type or version, a rejection, or no job id. |
| `Client.LaterLinesIgnored` | crates/daemon/src/client.rs:325-344 | What arrives after the deciding line changes nothing. |
| `Streaming.Transport.WriteLine` | crates/protocol/src/transport.rs:22-34 | A write may deliver any part of what is due; after a failed one the transport must not be written again, which every caller is proved to respect. |
| `Streaming.Transport.InterruptWrite` | crates/daemon/src/jobs.rs:578-623 | A write given up for the completion leaves its line delivered, buffered or absent, never torn, and later lines follow it. |
| `Streaming.CompleteStreamedJob` | crates/daemon/src/jobs.rs:555-628 | Under any interleaving of completion, progress, heartbeats and write failures the job is awaited exactly once and its own result returned; what is written is exactly what the turns make due, in order, up to the completion, with the interrupted report or without it, or a first part of that when a write fails; nothing after a failed write. |
| `Streaming.LoopTurns` | crates/daemon/src/jobs.rs:555-628 | What one turn of the loop adds: a report whose write is over first is one more line, one the completion overtakes may be the last, and a closed channel reports nothing more. |
| `Streaming.StreamStartedJob` | crates/daemon/src/jobs.rs:419-519 | The job always runs to its end; a terminal line appears only last and says what the job returned; without a failed write the lines are the two opening ones, the loop reports and the closing ones, and all are delivered. |
| `Jobs.RunQueuedJob` | crates/daemon/src/jobs.rs:180-204 | The answer comes first and the job runs to its end whether or not it could be written. Without a failed write the server returns success, whatever the job came to; for an unwritten answer the error of the job, else the write error; for a failed line of the loop what the job came to; for a failed opening or closing line the write error, which hides an error of the job. |
| `Jobs.RunReconciliationJob` | crates/daemon/src/jobs.rs:162-215 | What the client is told and what the server returns for each answer of the queue: a coalesced request is accepted, told nothing more, and a success to the server. |
| `Jobs.RunUpdateJob` | crates/daemon/src/jobs.rs:235-281 | The same for updates: a coalesced update is rejected, and a success to the server. |
| `Jobs.RunInvalidScopeJob` | crates/daemon/src/jobs.rs:1319-1366 | An invalid scope is accepted as a job and failed with the parse error; the server returns a database error, or the write error of a line after the opening ones, else success. |
| `Jobs.RunStartedJob` | crates/daemon/src/jobs.rs:1368-1459 | A job that is not queued completes or fails by its kind and scope alone; the server returns a database error, or the write error of a line after the opening ones, else success. |
| `Jobs.RunJobRequest` | crates/daemon/src/jobs.rs:114-138 | By the texts of kind and scope alone: a reconcile request whose scope is the printed form of a legal one runs the reconciliation of that scope, any other reconcile request fails with the scope error, update of system runs the update, everything else is unsupported; each kind of work is awaited exactly in its case and when the queue accepted it; answer, opening lines, heartbeat and closing lines in full, and the result of the server. |
| `Jobs.RouteExact` | crates/daemon/src/jobs.rs:114-138 | The four routes, each if and only if: reconcile with the printed form of a legal scope, reconcile with any other text, update with system, anything else. |
| `Jobs.ServerSucceeds` | crates/daemon/src/jobs.rs:121-311 | When the server reports success, for every answer of the queue and every write that may fail, and its error otherwise. |
| `Jobs.StartedMessages` | crates/daemon/src/jobs.rs:1258-1267 | The opening log line by scope; php and frankenphp are the gateway's. |
| `Jobs.ClientNeverMisled` | crates/daemon/src/client.rs:135-150 | Soundness end to end: from any part of the stream, however it ends, the client reports success with an id and a summary only if that job was queued under that id and returned that summary. |
| `Jobs.FaultFreeAgreement` | crates/daemon/src/client.rs:135-150 | Completeness: on a stream without faults the client is told, by route and queue answer, what the job came to, down to its own error. |
| `Jobs.AgreementExact` | crates/daemon/src/client.rs:135-150 | On such a stream the results of server and client agree on success if and only if the job was queued and completed, or could not be queued, or is not queued and could not be recorded. |
| `Jobs.CoalescedDisagrees` | crates/daemon/src/client.rs:135-150 | A concrete coalesced request: a success to the server, an error to the client. |
| `Jobs.DownloadsRead` | crates/daemon/src/client.rs:385-436 | On a stream without faults the event handler is given exactly the downloads the server reported, in order. |
| `Jobs.RunDownloads` | crates/daemon/src/client.rs:135-150 | So for a whole run of the client; a request that is not accepted yields none. |
| `Jobs.PrefixArrives` | crates/daemon/src/client.rs:325-344 | Reading only a first part of what was delivered is covered by those two results. |

## Left out

- Command line, output, progress bars, shell code and release tooling: validation and file copying.
- Real input and output: sockets, DNS, TLS, certificates, launchd, process supervision. They appear as parameters or arbitrary choices.
- The database: job ids and project ids are taken as given, job ids as fresh; nothing is claimed about rows.
- YAML and JSON text: models start from configuration values and from JSON objects; a written configuration is taken to be read back entry by entry as written, in key order.
- InitAccept.RenderProjectInitConfig: what reading the fields outside env and allocations back (tracks, PHP, paths, host names) and validating against the project root come to is one parameter, and which of several errors is returned is not stated.
- Detection of the framework and of its resources (crates/config/src/init.rs:77-178): it only fills in the selection, which is a parameter.
- InitMerge.ChoosePrefix: the suffix is an unbounded number where the source saturates; the proved bound keeps it far below that.
- ManagedBlock.TransformManagedEnvBlock: reading and writing the file around it is not modelled.
- QueueLaws.QueueInvariant: mutex poisoning and panics inside a caller's job-id callback are not modelled; each critical section is one step.
- QueueClass.QueuedReconciliation.TryTurn: one turn of the waiting loop; the loop itself is the interleaving of arm, look and wake steps in the state machine, since other callers act between turns.
- QueueProgress.StartsWithin: the bound counts steps, not time; how long a running job takes is not modelled.
- Debounce.ComesToRest: how long a worker sleeps, and the end of the runtime while one sleeps, are not modelled.
- Watcher.ReconciliationDebouncer.FlushAfterDelay: one caller at a time; other callers between its deliveries are covered by the state machine.
- Promotion.ConfigStore.PromoteTree: a crash between the two renames is not modelled, only failing steps followed by the code's own control flow; files and directories have separate name spaces, and nobody else changes them meanwhile.
- Gateway.ReconcileGateway: the reconciliation of PHP workers before it (crates/daemon/src/gateway.rs:176-272) and what start-up itself does are not modelled, start-up being a parameter; rendering of the Caddy files is a parameter, project ids are taken as plain file names, and PHP worker configurations, which take the same path, are not modelled separately.
- PfEdit.FirstPfFilterRuleIndex: offsets count characters where the source counts bytes of UTF-8.
- PfInstall.PfSystem.Install: whether the prepared anchor is valid is a parameter; privileges, file modes and the rules of other anchors are not modelled, and a failed command is taken to have no effect.
- Protocol.ResponseRoundTrip: the update-check payload of other commands is not modelled, nor are lines beyond the 64 KiB limit of the codec, which a client sees as unreadable.
- Streaming.CompleteStreamedJob: time itself; a heartbeat, a timeout or a closed channel may happen at any turn.
- Jobs.RunJobRequest: what a reconciliation or an update does is not modelled; each is a job with an outcome, and asking the queue for it has an answer, all of them parameters.
- Routing classification, readiness planning, hostname normalisation and relative-path checks: truth tables.
