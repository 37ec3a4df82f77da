# StellarSwipe contracts in Dafny

StellarSwipe is a set of Soroban smart contracts for sharing trade ideas on
Stellar. This project models their logic and proves properties about it:

- **Oracle** (`OracleReputation`, `OracleContract`, `ExternalAdapter`). Oracles
  submit prices in rounds. The consensus price is the weighted median of the
  round's prices, each counted as often as its oracle's weight. After each
  round every oracle's accuracy record is updated. An oracle that deviates by
  more than 20% is slashed. Weights are recomputed from the 0-100 reputation
  score. Oracles that are consistently
  inaccurate or whose reputation is too low are evicted, but only when at
  least two oracles would remain. Signed prices from outside are averaged by
  weight, and a bad signature costs its oracle a slash.
- **Signal registry** (`RegistryTypes`, `Registry`, `Performance`, `Fees`,
  `CsvImport`, `Categories`, `Templates`, `Combos`, `Expiry`, `Query`,
  `Collaboration`, `Social`, `Admin`, `Stake`). Trade signals are created,
  validated, tagged, filtered, sorted and paged. They expire and are archived.
  Executions update per-signal and per-provider statistics and ROI. Fees are
  split between the platform treasury and the provider. Signals can be
  imported from CSV text or filled in from templates. Combo signals chain
  components under conditions. Co-authored signals need every author's
  approval. Users follow providers. Admins pause trading, manage multisig
  signers and set the fee and risk parameters. Providers stake before they
  post.
- **Auto-trade** (`TradeTypes`, `Sdex`, `AutoTrade`, `TradeAuth`,
  `TradeHistory`, `TradeRisk`, `Portfolio`). Users authorise the contract to
  trade up to an amount for a number of days. Orders fill against a simulated
  exchange. Risk limits cap position size, daily trade count and stop-loss.
  Trade history is paged newest first. The portfolio view shows value and P&L.
- **Basic contract** (`Swipe`). Providers publish buy or sell signals on an
  asset pair. Each signal gets the next id, starts Active and expires at most
  thirty days ahead.
- **Common** (`Assets`). Asset pairs and codes are parsed and validated.
- **Shared** (`Base`, `Sorting`). Helpers: Rust's truncating division,
  saturating arithmetic, and the in-place bubble sort all the contracts use.

Each source file is one Dafny module.
- Storage that a contract updates in place is a `class`, with one field per
  storage key, and its methods carry `modifies` clauses.
- Pure computations are functions.
- Loops in the source are `while` loops, proved against those functions.
- Soroban maps are Dafny `map`s. Where the source relies on iterating in key
  order, they are `seq`s in key order instead.
- The ledger clock is a `now` parameter.
- Authorisation that the host checks (`require_auth`) is taken as given.
- Ed25519 verification of external prices is the predicate parameter
  `signatureOk`.
- After an error, the model keeps any writes made before it. Soroban would
  roll back the whole failed invocation.

## Model

| member | source | states |
|---|---|---|
| Swipe.CreateCheck | stellar-swipe/contracts/stellar-swipe/src/lib.rs:108-118 | a pair without '/' fails first, then an expiry at or before now, then one beyond now + 30 days; it passes exactly when the pair has a '/' and `now < expiry ≤ now + 2592000` |
| Swipe.HasSlash | stellar-swipe/contracts/stellar-swipe/src/lib.rs:77-91 | the loop finds a '/' exactly when the pair's bytes contain one |
| Swipe.CreateCheckExample | stellar-swipe/contracts/stellar-swipe/src/lib.rs:112-118 | expiry exactly 30 days ahead passes, one second more is too far, an expiry of now is not in the future, and "XLMUSDC" is refused |
| Swipe.SignalRegistry.NextSignalId | stellar-swipe/contracts/stellar-swipe/src/lib.rs:35-49 | the counter (0 when unset) plus one is stored and returned; at the u64 maximum it fails with IdOverflow |
| Swipe.SignalRegistry.CreateSignal | stellar-swipe/contracts/stellar-swipe/src/lib.rs:97-147 | a failed check changes nothing; otherwise the id is the old counter plus one, was not in use, the signal is stored Active under it with timestamp now, and the provider's stats are set to default only when missing; every stored signal sits under its own id within 1..counter |
| Swipe.CreateTwo | stellar-swipe/contracts/stellar-swipe/src/lib.rs:35-49 | on fresh storage two signals get ids 1 and 2 |
| Swipe.SignalRegistry.GetSignal | stellar-swipe/contracts/stellar-swipe/src/lib.rs:149-152 | the signal stored under the id, if any |
| Swipe.SignalRegistry.GetProviderStats | stellar-swipe/contracts/stellar-swipe/src/lib.rs:154-157 | the provider's stats, if any |
| Swipe.SignalRegistry.constructor | stellar-swipe/contracts/stellar-swipe/src/lib.rs:35-75 | counter 0, no signals and no stats |
| Stake.GetStake | stellar-swipe/contracts/signal_registry/src/stake.rs:102-108 | an unknown provider reads as amount 0 and last signal time 0 |
| Stake.StakeInto | stellar-swipe/contracts/signal_registry/src/stake.rs:28-51 | a non-positive amount fails; otherwise the provider's amount grows by exactly the amount unless that leaves the i128 range |
| Stake.UnstakeFrom | stellar-swipe/contracts/signal_registry/src/stake.rs:54-80 | fails in order on a missing stake, a lock still running (`now < last + 7 days`) and an amount that is not positive; otherwise pays the whole positive amount and leaves 0 |
| Stake.VerifyStake | stellar-swipe/contracts/signal_registry/src/stake.rs:83-90 | passes exactly when the provider has a stake of at least the minimum; NoStakeFound or InsufficientStake otherwise |
| Stake.UpdateLastSignalTime | stellar-swipe/contracts/signal_registry/src/stake.rs:93-99 | a missing stake fails; otherwise only the provider's last signal time changes, to now |
| Stake.StakeThenUnstake | stellar-swipe/contracts/signal_registry/src/stake.rs:28-80 | staking then unstaking after the lock pays out the old amount plus the new one and leaves 0; other providers are untouched |
| Stake.UnstakeEmpties | stellar-swipe/contracts/signal_registry/src/stake.rs:54-99 | after a payout a second unstake gives NothingStaked and any positive minimum gives InsufficientStake; a new signal restarts the lock |
| Stake.StakeExample | stellar-swipe/contracts/signal_registry/src/stake.rs:113-138 | 100 XLM staked at time 0 is locked at time 0 and paid out in full at day 7 |
| Stake.StakeRegistry.StakeFunds | stellar-swipe/contracts/signal_registry/src/stake.rs:28-51 | the stored stakes become StakeInto of the old ones, or stay unchanged on an error |
| Stake.StakeRegistry.Unstake | stellar-swipe/contracts/signal_registry/src/stake.rs:54-80 | returns the amount UnstakeFrom pays and stores its new stakes, or leaves them on an error |
| Stake.StakeRegistry.RecordSignalTime | stellar-swipe/contracts/signal_registry/src/stake.rs:93-99 | the stored stakes become UpdateLastSignalTime of the old ones, or stay unchanged on an error |
| Stake.StakeRegistry.constructor | stellar-swipe/contracts/signal_registry/src/stake.rs:102-108 | no stakes |
| Collaboration.NewAuthors | stellar-swipe/contracts/signal_registry/src/collaboration.rs:27-63 | fails with InvalidParameter exactly when the percentages do not total 10000 or do not number one more than the co-authors; otherwise the primary author comes first, approved, then each co-author in order, unapproved, with their own percentage |
| Collaboration.CreatedMeaning | stellar-swipe/contracts/signal_registry/src/collaboration.rs:27-63 | a created collaboration's contributions total 10000 and exactly one author has approved, so it is Approved at once exactly when there are no co-authors |
| Collaboration.PctTotalOf | stellar-swipe/contracts/signal_registry/src/collaboration.rs:34-37 | authors carrying the given percentages contribute their total |
| Collaboration.PrimaryOnly | stellar-swipe/contracts/signal_registry/src/collaboration.rs:45-59 | when only the first author has approved, the approval count is one |
| Collaboration.CollaborationStore.CreateCollaborativeSignal | stellar-swipe/contracts/signal_registry/src/collaboration.rs:27-64 | returns NewAuthors and stores it under the signal id on success; a refused creation stores nothing |
| Collaboration.GetCollaborationStatus | stellar-swipe/contracts/signal_registry/src/collaboration.rs:99-106 | Approved exactly when every author has approved, otherwise PendingApproval; Rejected never occurs |
| Collaboration.ApprovedCount | stellar-swipe/contracts/signal_registry/src/collaboration.rs:92-94 | the number of approved authors never exceeds the number of authors |
| Collaboration.AllApprovedCount | stellar-swipe/contracts/signal_registry/src/collaboration.rs:92-94 | all authors have approved exactly when the approval count equals the author count |
| Collaboration.FindAuthor | stellar-swipe/contracts/signal_registry/src/collaboration.rs:74-85 | the position of the first author with the address, or None exactly when no author has it |
| Collaboration.Approve | stellar-swipe/contracts/signal_registry/src/collaboration.rs:74-89 | a successful approval keeps the number of authors |
| Collaboration.FlipCount | stellar-swipe/contracts/signal_registry/src/collaboration.rs:78-82 | approving one unapproved author raises the approval count by exactly one |
| Collaboration.ApproveMeaning | stellar-swipe/contracts/signal_registry/src/collaboration.rs:66-89 | Unauthorized exactly when the approver is no author; a repeat approval is refused; otherwise only the approver's first entry becomes approved and the count rises by one; a fully approved collaboration refuses every approval |
| Collaboration.ApproveInTurn | stellar-swipe/contracts/signal_registry/src/collaboration.rs:66-97 | a run of approvals that succeeds keeps the number of authors |
| Collaboration.ApprovalsInTurn | stellar-swipe/contracts/signal_registry/src/test_collaboration.rs:84-87 | with distinct authors the co-authors can approve in order; after the first i of them exactly the primary author and those i have approved, and all have approved exactly when the last co-author has |
| Collaboration.ApprovedAfter | stellar-swipe/contracts/signal_registry/src/collaboration.rs:66-89 | with distinct authors, approving the first i co-authors in order succeeds and leaves exactly the primary author and those i approved |
| Collaboration.CollaborationStore.ApproveCollaborativeSignal | stellar-swipe/contracts/signal_registry/src/collaboration.rs:66-97 | an unknown signal gives InvalidParameter; a refused approval changes nothing; otherwise the approved list is stored and the result says whether every author has now approved |
| Collaboration.CollaborationStore.IsCollaborative | stellar-swipe/contracts/signal_registry/src/collaboration.rs:146-148 | true exactly when a collaboration is stored for the signal |
| Collaboration.CollaborationStore.constructor | stellar-swipe/contracts/signal_registry/src/collaboration.rs:126-144 | no collaborations |
| Collaboration.ShareTotalBounds | stellar-swipe/contracts/signal_registry/src/collaboration.rs:108-124 | the rounded-down shares of a non-negative total are within what the contributions allow and lose less than one unit per author |
| Collaboration.SharesWithinTotal | stellar-swipe/contracts/signal_registry/src/collaboration.rs:108-124 | with contributions totalling 10000 the shares of a non-negative total add up to at most the total and to more than the total minus one per author |
| Collaboration.DistributeCollaborativeRewards | stellar-swipe/contracts/signal_registry/src/collaboration.rs:108-124 | one entry per author, in order: the address and the truncated share of the fees and of the return by contribution |
| Collaboration.SplitProviderFee | stellar-swipe/contracts/signal_registry/src/collaboration.rs:152-165 | one entry per author, in order: the position and the truncated share of the provider fee |
| Collaboration.CollaborationExamples | stellar-swipe/contracts/signal_registry/src/test_collaboration.rs:8-125 | the 60/40 creation, a total of 9000, a missing percentage, a first and a repeat approval, and 700/300 shares of 1000 |
| Admin.PauseWindow | stellar-swipe/contracts/signal_registry/src/admin.rs:269-288 | a pause started at some time holds exactly until 172800 seconds later, and the unpaused record holds at no time |
| Admin.MultisigCheck | stellar-swipe/contracts/signal_registry/src/admin.rs:376-409 | passes exactly when 1 ≤ threshold ≤ the number of signers and the signers are distinct; a bad threshold gives InvalidParameter before a duplicate gives DuplicateSigner |
| Admin.HasDuplicate | stellar-swipe/contracts/signal_registry/src/admin.rs:390-398 | the double loop finds a repeat exactly when the signer list has a duplicate |
| Admin.AddSigner | stellar-swipe/contracts/signal_registry/src/admin.rs:469-497 | refused with DuplicateSigner exactly when the signer is already listed; otherwise appended at the end |
| Admin.RemoveSigner | stellar-swipe/contracts/signal_registry/src/admin.rs:500-542 | too few signers left for the threshold gives InsufficientSignatures, checked before an unknown signer gives Unauthorized; otherwise the list without that signer |
| Admin.SignerSetMeaning | stellar-swipe/contracts/signal_registry/src/admin.rs:469-542 | adding or removing a signer keeps a valid set valid (distinct, at least the threshold); removing a freshly added signer restores the original list, and a removed signer is gone |
| Admin.WithoutAppend | stellar-swipe/contracts/signal_registry/src/admin.rs:520-530 | removing a new last entry that occurs nowhere else restores the original list |
| Admin.WithoutAbsent | stellar-swipe/contracts/signal_registry/src/admin.rs:520-530 | removing an address that is not listed changes nothing |
| Admin.AdminStore.constructor | stellar-swipe/contracts/signal_registry/src/admin.rs:160-266 | an uninitialised store whose getters read the defaults: stake 100000000, fee 10 bps, stop loss 15, position limit 20, not paused, multisig off |
| Admin.AdminStore.AdminCheck | stellar-swipe/contracts/signal_registry/src/admin.rs:99-115 | NotInitialized without an admin; with multisig on exactly the signers pass; otherwise exactly the admin passes |
| Admin.AdminStore.InitAdmin | stellar-swipe/contracts/signal_registry/src/admin.rs:49-83 | a second initialisation fails with AlreadyInitialized and changes nothing; the first sets the admin and every default and turns multisig and the pause off; the parameters stay in bounds |
| Admin.AdminStore.IsMultisigSigner | stellar-swipe/contracts/signal_registry/src/admin.rs:432-450 | true exactly when multisig is on and the address is a signer |
| Admin.AdminStore.RequireAdmin | stellar-swipe/contracts/signal_registry/src/admin.rs:99-115 | returns AdminCheck |
| Admin.AdminStore.TransferAdmin | stellar-swipe/contracts/signal_registry/src/admin.rs:118-129 | only an authorised caller replaces the admin; nothing else changes, and a refusal changes nothing |
| Admin.AdminStore.SetMinStake | stellar-swipe/contracts/signal_registry/src/admin.rs:132-157 | an authorised caller with a positive amount sets the minimum stake and nothing else; otherwise the admin error or InvalidParameter and no change |
| Admin.AdminStore.SetTradeFee | stellar-swipe/contracts/signal_registry/src/admin.rs:168-193 | an authorised caller with at most 100 bps sets the fee and nothing else; otherwise the admin error or InvalidFeeRate and no change |
| Admin.AdminStore.SetRiskDefaults | stellar-swipe/contracts/signal_registry/src/admin.rs:204-250 | an authorised caller with both percentages at most 100 sets both; otherwise the admin error or InvalidRiskParameter and no change |
| Admin.AdminStore.GetAdminConfig | stellar-swipe/contracts/signal_registry/src/admin.rs:364-371 | in a valid store the stake is positive and the fee and both percentages are within their maxima |
| Admin.AdminStore.PauseTrading | stellar-swipe/contracts/signal_registry/src/admin.rs:269-288 | an authorised caller pauses from now until now + 48 hours; a refusal changes nothing |
| Admin.AdminStore.UnpauseTrading | stellar-swipe/contracts/signal_registry/src/admin.rs:291-307 | an authorised caller restores the unpaused record; a refusal changes nothing |
| Admin.AdminStore.IsTradingPaused | stellar-swipe/contracts/signal_registry/src/admin.rs:310-341 | true exactly while the flag is set and the expiry is ahead; a lapsed pause is reset to the unpaused record and nothing else changes |
| Admin.AdminStore.RequireNotPaused | stellar-swipe/contracts/signal_registry/src/admin.rs:344-349 | TradingPaused exactly while a pause is active; the only possible change is the reset of a lapsed pause |
| Admin.AdminStore.EnableMultisig | stellar-swipe/contracts/signal_registry/src/admin.rs:376-409 | an authorised caller gets MultisigCheck's verdict, and on success the new signers and threshold are stored with multisig on; the signer set stays distinct and at least the threshold |
| Admin.AdminStore.DisableMultisig | stellar-swipe/contracts/signal_registry/src/admin.rs:412-421 | an authorised caller turns multisig off and keeps the signers and threshold |
| Admin.AdminStore.AddMultisigSigner | stellar-swipe/contracts/signal_registry/src/admin.rs:469-497 | the admin check's error first; with multisig off NotInitialized; a listed signer DuplicateSigner; otherwise Ok, the signer is appended and the set stays valid; a refusal changes nothing |
| Admin.AdminStore.RemoveMultisigSigner | stellar-swipe/contracts/signal_registry/src/admin.rs:500-542 | the admin check's error first; with multisig off NotInitialized; otherwise RemoveSigner's verdict: its error with no change, or Ok with its list stored and the set still valid |
| Admin.AdminStore.SignersWithout | stellar-swipe/contracts/signal_registry/src/admin.rs:520-530 | the loop returns the signer list without the removed signer, in order, and reports whether the signer was there |
| Registry.CreateCheck | stellar-swipe/contracts/signal_registry/src/lib.rs:284-301 | an active pause fails first with TradingPaused, then an invalid pair with InvalidAssetPair, then invalid tags with InvalidParameter, then the two expiry panics; it passes exactly when all checks pass and `now < expiry ≤ now + 2592000` |
| Registry.NewSignalMeaning | stellar-swipe/contracts/signal_registry/src/lib.rs:303-327 | a freshly created signal is live until its expiry, carries each of its tags exactly once, has average ROI 0, and stays Active under the status evaluation until its expiry and Failed after it |
| Registry.TradeMeaning | stellar-swipe/contracts/signal_registry/src/lib.rs:508-577 | a trade adds one execution, its volume and its ROI and changes nothing else but the status; provider statistics change only for the signal's provider and only on a change into Successful or Failed; a change from Active or Pending counts one more terminal signal and adds the volume |
| Registry.TopProviders | stellar-swipe/contracts/signal_registry/src/lib.rs:622-658 | the first n entries of a listing sorted by success rate are distinct providers with their own records, in non-increasing rate, and no provider left out has a higher rate |
| Registry.TagsAdded | stellar-swipe/contracts/signal_registry/src/lib.rs:813-848 | a non-owner gets Unauthorized, invalid tags InvalidParameter, and more than ten tags together InvalidParameter; otherwise only the tags change |
| Registry.TagsAddedMeaning | stellar-swipe/contracts/signal_registry/src/lib.rs:836-848 | the new tag list has no repeats, holds exactly the old and the new tags, has at most ten, and keeps a repeat-free old list in front in its order |
| Registry.OptionalPass | stellar-swipe/contracts/signal_registry/src/lib.rs:882-935 | an optional filter pass after a filter equals a single filter by the conjunction |
| Registry.FirstTwoPasses | stellar-swipe/contracts/signal_registry/src/lib.rs:873-895 | the live pass followed by the optional category pass is one filter by both tests |
| Registry.ThirdPass | stellar-swipe/contracts/signal_registry/src/lib.rs:897-920 | adding the optional tag pass is one filter by the three tests |
| Registry.FourthPass | stellar-swipe/contracts/signal_registry/src/lib.rs:922-935 | adding the optional risk pass is one filter by every test |
| Registry.FilteredMeaning | stellar-swipe/contracts/signal_registry/src/lib.rs:861-935 | the successive passes keep, in store order, exactly the signals that are Active, unexpired and pass every supplied filter at once |
| Registry.Window | stellar-swipe/contracts/signal_registry/src/lib.rs:937-947 | an offset at or past the end gives nothing; otherwise min(limit, remaining) entries starting at the offset |
| Registry.HasTag | stellar-swipe/contracts/signal_registry/src/lib.rs:900-915 | the nested loop finds a tag exactly when some filter tag is among the signal's tags |
| Registry.CollectLive | stellar-swipe/contracts/signal_registry/src/lib.rs:873-880 | the Active signals whose expiry is ahead, in store order |
| Registry.FilterByCategory | stellar-swipe/contracts/signal_registry/src/lib.rs:882-895 | exactly the signals whose category is listed, in order |
| Registry.FilterByTags | stellar-swipe/contracts/signal_registry/src/lib.rs:897-920 | exactly the signals carrying some filter tag, in order |
| Registry.FilterByRisk | stellar-swipe/contracts/signal_registry/src/lib.rs:922-935 | exactly the signals whose risk level is listed, in order |
| Registry.ApplyFilters | stellar-swipe/contracts/signal_registry/src/lib.rs:861-935 | the filtered list the passes specify |
| Registry.Paginate | stellar-swipe/contracts/signal_registry/src/lib.rs:937-947 | the window of the filtered list |
| Registry.GetSignalsFiltered | stellar-swipe/contracts/signal_registry/src/lib.rs:861-948 | the window of the filtered list at the offset and limit |
| Registry.FilteredExample | stellar-swipe/contracts/signal_registry/src/test_categories.rs:186-234 | three live signals filtered by a tag that the first and third carry come back as those two in id order, and an offset past the end gives nothing |
| Registry.TagFilterExample | stellar-swipe/contracts/signal_registry/src/test_categories.rs:186-234 | three live Active signals filtered by a tag the first and third carry give those two, in order |
| Registry.TagPassExample | stellar-swipe/contracts/signal_registry/src/lib.rs:897-920 | the tag pass over three signals keeps the first and third |
| Registry.SignalRegistry.constructor | stellar-swipe/contracts/signal_registry/src/lib.rs:219-241 | counter 0, no signals and no provider statistics |
| Registry.SignalRegistry.GetSignal | stellar-swipe/contracts/signal_registry/src/lib.rs:346-349 | None exactly when no stored signal has the id; otherwise the stored signal with it |
| Registry.SignalRegistry.NextSignalId | stellar-swipe/contracts/signal_registry/src/lib.rs:177-191 | the counter plus one, stored back; nothing else changes |
| Registry.SignalRegistry.ValidateCreation | stellar-swipe/contracts/signal_registry/src/lib.rs:284-301 | CreateCheck's verdict giving the de-duplicated tags; the only admin change is the reset of a lapsed pause |
| Registry.SignalRegistry.CreateSignalInternal | stellar-swipe/contracts/signal_registry/src/lib.rs:256-344 | a refused creation changes no signal, statistic or tag count; otherwise the id is the old counter plus one, the signal is appended Active with de-duplicated tags, default statistics are added only for a new provider, and each unique tag's popularity rises by one |
| Registry.SignalRegistry.AddSignal | stellar-swipe/contracts/signal_registry/src/lib.rs:303-341 | the signal is stored under the old counter plus one, which becomes the counter, and a new provider gets default statistics |
| Registry.SignalRegistry.RecordTradeExecution | stellar-swipe/contracts/signal_registry/src/lib.rs:483-580 | a bad price gives InvalidPrice, then a bad volume InvalidVolume, then an unknown id SignalNotFound, each with no change; otherwise the signal becomes Traded and the statistics StatsAfter |
| Registry.SignalRegistry.GetTopProviders | stellar-swipe/contracts/signal_registry/src/lib.rs:622-658 | min(limit, number of providers) distinct providers with their records, in non-increasing success rate, none left out ranking higher |
| Registry.SignalRegistry.AddTagsToSignal | stellar-swipe/contracts/signal_registry/src/lib.rs:813-858 | an unknown signal gives InvalidParameter, then TagsAdded's errors, each with no change; otherwise the signal gets TagsAdded's list and the given tags, repeats included, have their popularity counted |
| Registry.SignalRegistry.CreateCollaborativeSignal | stellar-swipe/contracts/signal_registry/src/lib.rs:1014-1060 | a refused creation stores nothing; a created signal is stored collaborative and Pending whatever follows; when NewAuthors accepts the authors the result is Ok with the new id (the old counter plus one) and they are stored under it, otherwise its error and no collaboration is stored |
| Registry.SignalRegistry.MarkCollaborative | stellar-swipe/contracts/signal_registry/src/lib.rs:1043-1048 | the newest signal is stored again collaborative and Pending; nothing else changes |
| Registry.SignalRegistry.ApproveCollaborativeSignal | stellar-swipe/contracts/signal_registry/src/lib.rs:1062-1082 | the collaboration's own approval verdict; once every author has approved the stored signal becomes Active, and otherwise no signal changes |
| Categories.ValidateTag | stellar-swipe/contracts/signal_registry/src/categories.rs:27-47 | accepts exactly the tags of 1 to 20 bytes made only of letters, digits, '-' and '_'; every refusal is InvalidParameter |
| Categories.ValidateTags | stellar-swipe/contracts/signal_registry/src/categories.rs:49-59 | accepts exactly the lists of at most ten valid tags; every refusal is InvalidParameter |
| Categories.Dedup | stellar-swipe/contracts/signal_registry/src/categories.rs:61-81 | keeps only tags of the input and never lengthens it |
| Categories.DeduplicateTags | stellar-swipe/contracts/signal_registry/src/categories.rs:61-81 | the nested loop gives Dedup of the input |
| Categories.DedupDistinct | stellar-swipe/contracts/signal_registry/src/categories.rs:61-81 | the kept tags have no repeats and are exactly the distinct tags of the input |
| Categories.DedupOrder | stellar-swipe/contracts/signal_registry/src/categories.rs:61-81 | the kept tags are in the order of their first occurrences in the input |
| Categories.IndexOfInit | stellar-swipe/contracts/signal_registry/src/categories.rs:61-81 | dropping the last entry does not move an earlier first occurrence |
| Categories.DedupKeepsDistinct | stellar-swipe/contracts/signal_registry/src/categories.rs:61-81 | a list without repeats is left unchanged |
| Categories.DedupPrefix | stellar-swipe/contracts/signal_registry/src/categories.rs:61-81 | de-duplicating a longer list keeps the de-duplication of its prefix in front |
| Categories.DedupIdempotent | stellar-swipe/contracts/signal_registry/src/categories.rs:61-81 | de-duplicating twice equals de-duplicating once |
| Categories.TagStore.IncrementTagPopularity | stellar-swipe/contracts/signal_registry/src/categories.rs:89-105 | the counters become Bump of the old ones by the given tags |
| Categories.BumpMeaning | stellar-swipe/contracts/signal_registry/src/categories.rs:89-105 | counting a list raises each tag's counter by its number of occurrences in the list and adds no other key |
| Categories.TagStore.GetPopularTags | stellar-swipe/contracts/signal_registry/src/categories.rs:107-145 | min(limit, number of tags) distinct tags with their counts, in non-increasing count, none left out counted higher |
| Categories.TopTags | stellar-swipe/contracts/signal_registry/src/categories.rs:114-145 | the first n entries of a listing sorted by count are distinct tags with their counts, non-increasing, none left out counted higher |
| Categories.TagStore.constructor | stellar-swipe/contracts/signal_registry/src/categories.rs:89-105 | no counters |
| Categories.Keywords | stellar-swipe/contracts/signal_registry/src/categories.rs:152-164 | the eleven keyword and tag pairs, in table order |
| Categories.AutoSuggestTags | stellar-swipe/contracts/signal_registry/src/categories.rs:147-177 | the tags of the keywords the rationale contains, in table order, cut at five |
| Categories.MatchesPrefix | stellar-swipe/contracts/signal_registry/src/categories.rs:166-174 | the matches of the first n keywords are a prefix of the matches of the first m |
| Categories.MatchesSound | stellar-swipe/contracts/signal_registry/src/categories.rs:166-174 | every matched tag belongs to a keyword the text contains |
| Categories.MatchesComplete | stellar-swipe/contracts/signal_registry/src/categories.rs:166-174 | every keyword the text contains contributes its tag to the matches |
| Categories.SuggestionsMeaning | stellar-swipe/contracts/signal_registry/src/categories.rs:147-177 | at most five suggestions, each from a keyword the rationale contains; fewer than five means every contained keyword's tag is suggested |
| Categories.BreakoutSuggestedTwice | stellar-swipe/contracts/signal_registry/src/categories.rs:152-174 | a rationale containing "breakout" and "resistance" but not "breaking" gets "breakout" suggested twice in a row |
| Categories.ContainsBytes | stellar-swipe/contracts/signal_registry/src/categories.rs:179-201 | true exactly when the needle occurs contiguously in the haystack; never for a longer needle |
| Categories.TagExamples | stellar-swipe/contracts/signal_registry/src/categories.rs:209-239 | "bullish" and "high-risk" are valid, a 30-byte tag is not, and [bullish, breakout, bullish] de-duplicates to [bullish, breakout] |
| Categories.DedupRepeat | stellar-swipe/contracts/signal_registry/src/categories.rs:209-239 | [x, y, x] with y other than x de-duplicates to [x, y] |
| Categories.PopularityExample | stellar-swipe/contracts/signal_registry/src/test_categories.rs:340-384 | two signals tagged [bullish, breakout] and [bullish, momentum] leave "bullish" with count 2 and no tag higher |
| Categories.SharedTagCounts | stellar-swipe/contracts/signal_registry/src/test_categories.rs:340-384 | counting [x, y] and then [x, z], with y and z other than x, gives x the count 2 and no tag more |
| TradeRisk.Lookup | stellar-swipe/contracts/auto_trade/src/risk.rs:206 | the position found has the asked-for asset and is one of the user's positions; when none is found no position has that asset |
| TradeRisk.Remove | stellar-swipe/contracts/auto_trade/src/risk.rs:82-83 | removing an asset keeps the key order, leaves nothing under that asset and changes no other asset's position |
| TradeRisk.Put | stellar-swipe/contracts/auto_trade/src/risk.rs:84-92 | setting a position keeps the key order, makes it the one looked up under its asset and changes no other asset's position |
| TradeRisk.UpdatedPositions | stellar-swipe/contracts/auto_trade/src/risk.rs:79-97 | amount 0 removes the asset's position; any other amount stores (asset, amount, price, now); other assets are untouched and the key order is kept |
| TradeRisk.RiskStore.UpdatePosition | stellar-swipe/contracts/auto_trade/src/risk.rs:79-97 | the user's positions become UpdatedPositions of the old ones; configs, histories and prices are unchanged; the key order invariant is kept |
| TradeRisk.RecentCount | stellar-swipe/contracts/auto_trade/src/risk.rs:153-160 | the count of recent records is at most the number of records |
| TradeRisk.RecentCountAll | stellar-swipe/contracts/auto_trade/src/risk.rs:151-160 | when every record is at or after the cut-off they all count |
| TradeRisk.RecentCountAppend | stellar-swipe/contracts/auto_trade/src/risk.rs:109-160 | a new record adds one to the count exactly when its timestamp is at or after the cut-off |
| TradeRisk.RiskStore.AddTradeRecord | stellar-swipe/contracts/auto_trade/src/risk.rs:109-123 | the user's history gains (now, signal id, amount) at its end; nothing else changes |
| TradeRisk.RiskStore.CheckDailyTradeLimit | stellar-swipe/contracts/auto_trade/src/risk.rs:144-167 | fails, with DailyTradeLimitExceeded, exactly when the records at or after `now - 86400` (saturating at 0) number at least the daily limit |
| TradeRisk.DailyLimitExample | stellar-swipe/contracts/auto_trade/src/risk.rs:327-363 | at time 1000 the window starts at 0; five recent trades pass the default limit of ten and ten do not |
| TradeRisk.PortfolioValueSplit | stellar-swipe/contracts/auto_trade/src/risk.rs:170-186 | the portfolio value of two runs of positions is the sum of their values, so it is the sum of the per-position values |
| TradeRisk.PortfolioValueUnpriced | stellar-swipe/contracts/auto_trade/src/risk.rs:178 | positions without a stored price contribute nothing: with no prices the value is 0 |
| TradeRisk.RiskStore.CalculatePortfolioValue | stellar-swipe/contracts/auto_trade/src/risk.rs:170-186 | the loop's total is the sum of `amount*price/100` (truncating) over the positions that have a stored price |
| TradeRisk.PortfolioValueExample | stellar-swipe/contracts/auto_trade/src/risk.rs:441-458 | 1000 units at 100 and 500 units at 200 are worth 2000 |
| TradeRisk.PositionLimit | stellar-swipe/contracts/auto_trade/src/risk.rs:189-223 | a portfolio worth 0 accepts; a new portfolio value of 0 is a division by zero; for a positive new portfolio the trade passes exactly when `new position value * 100 < (max_position_pct + 1) * new portfolio value`, i.e. the truncated percentage does not exceed the maximum |
| TradeRisk.RiskStore.CheckPositionLimit | stellar-swipe/contracts/auto_trade/src/risk.rs:189-223 | the method's answer is PositionLimit of the stored positions and prices |
| TradeRisk.PositionLimitExample | stellar-swipe/contracts/auto_trade/src/risk.rs:380-405 | with 1000 and 4000 units at 100, buying 2000 more of the first asset is refused with PositionLimitExceeded |
| TradeRisk.StopLossTriggered | stellar-swipe/contracts/auto_trade/src/risk.rs:226-244 | triggers only when a position exists, and then exactly when the current price is at most `entry*(100-pct)/100` |
| TradeRisk.StopLossMeaning | stellar-swipe/contracts/auto_trade/src/risk.rs:236-238 | for a non-negative entry and pct ≤ 100 the stop-loss fires exactly when `current*100 ≤ entry*(100-pct)`, a fall of at least pct percent |
| TradeRisk.StopLossExample | stellar-swipe/contracts/auto_trade/src/risk.rs:407-439 | entry 100 with the default 15%: 80 triggers, 90 does not |
| TradeRisk.Validation | stellar-swipe/contracts/auto_trade/src/risk.rs:247-273 | the daily limit is checked first and always; a buy then needs the position limit and reports false; a sell reports the stop-loss flag |
| TradeRisk.RiskStore.ValidateTrade | stellar-swipe/contracts/auto_trade/src/risk.rs:247-273 | the method's answer is Validation of the user's configuration, history, positions and the stored prices |
| TradeRisk.RiskStore.GetRiskConfig | stellar-swipe/contracts/auto_trade/src/risk.rs:18-61 | a user without a stored configuration gets 20% / 10 trades / 15% |
| TradeRisk.RiskStore.GetUserPositions | stellar-swipe/contracts/auto_trade/src/risk.rs:72-77 | a user's positions are in asset order |
| TradeRisk.RiskStore.GetAssetPrice | stellar-swipe/contracts/auto_trade/src/risk.rs:128-132 | a price is found exactly when one is stored for the asset |
| TradeRisk.RiskStore.SetRiskConfig | stellar-swipe/contracts/auto_trade/src/risk.rs:63-67 | stores the user's configuration and nothing else |
| TradeRisk.RiskStore.SetAssetPrice | stellar-swipe/contracts/auto_trade/src/risk.rs:134-138 | stores the asset's price and nothing else |
| TradeRisk.RiskStore.constructor | stellar-swipe/contracts/auto_trade/src/risk.rs:56-77 | empty storage satisfies the key order invariant |
| TradeHistory.ClampLimit | stellar-swipe/contracts/auto_trade/src/history.rs:101-107 | limit 0 becomes 20, a limit above 100 becomes 100, others are kept; the result is always within 1..100 |
| TradeHistory.Page | stellar-swipe/contracts/auto_trade/src/history.rs:114-126 | the page has `min(limit, n - min(offset, n))` entries and entry i is entry `offset + i` of the list |
| TradeHistory.HistoryStore.Newest | stellar-swipe/contracts/auto_trade/src/history.rs:114 | entry k of the newest-first list is the trade stored under index `count - 1 - k` |
| TradeHistory.HistoryStore.RecordTrade | stellar-swipe/contracts/auto_trade/src/history.rs:51-85 | the trade is stored under id = the old count, the count grows by 1, other users' counts are unchanged, and every index below the count holds a trade with that id |
| TradeHistory.HistoryStore.GetTradeHistory | stellar-swipe/contracts/auto_trade/src/history.rs:95-129 | a user with no trades gets an empty list; otherwise the result is the newest-first list after `offset` entries, at most the clamped limit long, with ids running down from `count - 1 - offset` |
| TradeHistory.HistoryExample | stellar-swipe/contracts/auto_trade/src/history.rs:51-129 | after three trades a page of two holds ids 2 and 1, and skipping two leaves id 0 |
| TradeHistory.HistoryStore.constructor | stellar-swipe/contracts/auto_trade/src/history.rs:43-48 | empty storage: no counts and no trades |
| TradeAuth.Granted | stellar-swipe/contracts/auto_trade/src/auth.rs:22-55 | max ≤ 0 fails with InvalidAmount; otherwise only the user's entry changes, to authorised with that maximum, `granted_at = now` and an expiry `days*86400` after now |
| TradeAuth.Revoked | stellar-swipe/contracts/auto_trade/src/auth.rs:58-72 | the user's grant is removed and nothing else |
| TradeAuth.GrantMeaning | stellar-swipe/contracts/auto_trade/src/auth.rs:30-88 | after a grant, an amount is authorised at a later time exactly when it is at most the maximum and the time is before `now + days*86400`; a 0-day grant never authorises |
| TradeAuth.RevokeMeaning | stellar-swipe/contracts/auto_trade/src/auth.rs:58-88 | after a revoke no amount is authorised at any time |
| TradeAuth.OthersUnaffected | stellar-swipe/contracts/auto_trade/src/auth.rs:22-88 | a grant or revoke for one user leaves every other user's authorisation unchanged |
| TradeAuth.AuthStore.GrantAuthorization | stellar-swipe/contracts/auto_trade/src/auth.rs:22-55 | the stored grants become Granted of the old ones, or stay unchanged on InvalidAmount |
| TradeAuth.AuthStore.RevokeAuthorization | stellar-swipe/contracts/auto_trade/src/auth.rs:58-72 | always Ok; the stored grants become Revoked of the old ones |
| TradeAuth.AuthStore.GetAuthConfig | stellar-swipe/contracts/auto_trade/src/auth.rs:91-95 | the stored configuration, if any |
| TradeAuth.AuthStore.constructor | stellar-swipe/contracts/auto_trade/src/auth.rs:91-95 | no grants |
| Sdex.HasSufficientBalance | stellar-swipe/contracts/auto_trade/src/sdex.rs:20-24 | true exactly when the stored balance (0 when none is stored) is at least the amount |
| Sdex.MarketOrder | stellar-swipe/contracts/auto_trade/src/sdex.rs:29-54 | `now ≥ expiry` gives SignalExpired; otherwise InsufficientLiquidity exactly when the liquidity (defaulting to the amount) is ≤ 0; a fill is at the signal price, at most the amount and the liquidity, and equal to one of them |
| Sdex.LimitOrder | stellar-swipe/contracts/auto_trade/src/sdex.rs:59-85 | SignalExpired exactly when `now ≥ expiry`; otherwise either nothing (0, 0) or the whole amount at the signal price, nothing exactly when the market price (defaulting to the signal price) is above the signal price |
| Sdex.OrderExamples | stellar-swipe/contracts/auto_trade/src/sdex.rs:117-189 | 400 of 500 available fills 400 at 100; 300 of 100 fills 100; a limit order under a market price of 150 fills nothing; an expired signal is refused |
| AutoTrade.StatusOf | stellar-swipe/contracts/auto_trade/src/lib.rs:136-142 | Failed exactly when nothing executed, PartiallyFilled exactly when less than requested executed, Filled otherwise |
| AutoTrade.Execution | stellar-swipe/contracts/auto_trade/src/lib.rs:74-172 | checks in order amount ≤ 0, missing signal, `now > expiry`, not authorised, insufficient balance; a trade records the signal, user, requested amount, now, an executed amount between 0 and the request, and the derived status |
| AutoTrade.ExecutionMeaning | stellar-swipe/contracts/auto_trade/src/lib.rs:124-142 | a market trade is at the signal price, never Failed, and partial exactly when liquidity is short; a limit trade is either Filled in full at the signal price or Failed with nothing executed |
| AutoTrade.ExpiryInstant | stellar-swipe/contracts/auto_trade/src/lib.rs:96 | at the expiry instant the contract's `now > expiry` check passes but both order kinds return SignalExpired |
| AutoTrade.AutoTradeContract.ExecuteTrade | stellar-swipe/contracts/auto_trade/src/lib.rs:74-172 | returns Execution of the stored state; a refused order stores nothing; a trade replaces the one stored under (user, signal id) |
| AutoTrade.AutoTradeContract.GetTrade | stellar-swipe/contracts/auto_trade/src/lib.rs:175-179 | the trade stored under (user, signal id), if any |
| AutoTrade.AutoTradeContract.SetSignal | stellar-swipe/contracts/auto_trade/src/storage.rs:25-27 | stores the signal under its id and nothing else |
| AutoTrade.AutoTradeContract.constructor | stellar-swipe/contracts/auto_trade/src/storage.rs:20-22 | no signals and no trades |
| Portfolio.HoldingOf | stellar-swipe/contracts/auto_trade/src/portfolio.rs:39-54 | a holding keeps the asset, amount and entry price, is worth `amount*price` with the stored price defaulting to the entry price, and its P&L is that value less `amount*entry`; an unpriced asset has P&L 0 |
| Portfolio.Holdings | stellar-swipe/contracts/auto_trade/src/portfolio.rs:35-54 | one holding per position, in the positions' order |
| Portfolio.PnlIsValueLessCost | stellar-swipe/contracts/auto_trade/src/portfolio.rs:41-45 | total P&L is total value less the positions' cost at entry |
| Portfolio.UnpricedNoPnl | stellar-swipe/contracts/auto_trade/src/portfolio.rs:39-42 | with no stored prices the total P&L is 0 |
| Portfolio.ScaleDiffersFromRisk | stellar-swipe/contracts/auto_trade/src/portfolio.rs:41 | the risk value of a priced position of non-negative value is the holding's value divided by 100: the portfolio does not scale |
| Portfolio.GetPortfolio | stellar-swipe/contracts/auto_trade/src/portfolio.rs:29-63 | the holdings are Holdings of the user's positions in asset order, and the totals are the sums of their values and P&Ls |
| Portfolio.ValueHolding | stellar-swipe/contracts/auto_trade/src/portfolio.rs:39-53 | a position is valued at the stored asset price, or at its entry price when none is stored |
| Social.FollowersIn | stellar-swipe/contracts/signal_registry/src/social.rs:40-45 | exactly the follow flags that name the provider |
| Social.FollowersChange | stellar-swipe/contracts/signal_registry/src/social.rs:48-124 | adding or removing one flag changes only its own provider's followers |
| Social.FollowCounts | stellar-swipe/contracts/signal_registry/src/social.rs:72-76 | a new flag raises its provider's count by one and keeps every count equal to its number of followers |
| Social.FollowLists | stellar-swipe/contracts/signal_registry/src/social.rs:59-64 | a new flag appends the provider to the user's list and keeps each list equal to the user's flags, without repeats |
| Social.FollowKeeps | stellar-swipe/contracts/signal_registry/src/social.rs:48-81 | a new follow keeps flags, lists and counts in agreement |
| Social.UnfollowCounts | stellar-swipe/contracts/signal_registry/src/social.rs:109-119 | a dropped flag lowers a positive count by one, and the key goes when it reaches 0 |
| Social.UnfollowLists | stellar-swipe/contracts/signal_registry/src/social.rs:91-102 | a dropped flag removes the provider from the user's list and keeps lists and flags in agreement |
| Social.UnfollowKeeps | stellar-swipe/contracts/signal_registry/src/social.rs:84-124 | an unfollow keeps flags, lists and counts in agreement |
| Social.Unfollowed | stellar-swipe/contracts/signal_registry/src/social.rs:91-119 | a followed pair is unfollowed: the flag is cleared, the provider removed from the user's list, its positive count lowered, and the stores stay in agreement |
| Social.RemoveProvider | stellar-swipe/contracts/signal_registry/src/social.rs:92-100 | the rebuilt list is the old list without the provider |
| Social.SocialGraph.constructor | stellar-swipe/contracts/signal_registry/src/social.rs:24-45 | no flags, lists or counts |
| Social.SocialGraph.IsFollowing | stellar-swipe/contracts/signal_registry/src/social.rs:24-29 | true exactly when the flag of the pair is set |
| Social.SocialGraph.StoresAgree | stellar-swipe/contracts/signal_registry/src/social.rs:32-45 | a user's list names exactly the providers the user follows, once each, and a provider's count is its number of followers |
| Social.SocialGraph.FollowProvider | stellar-swipe/contracts/signal_registry/src/social.rs:48-81 | following oneself fails with CannotFollowSelf; following again changes nothing; otherwise the flag is set, the provider appended to the user's list and the count raised by one |
| Social.SocialGraph.UnfollowProvider | stellar-swipe/contracts/signal_registry/src/social.rs:84-124 | always Ok; unfollowing a provider not followed changes nothing; otherwise the flag is cleared, the provider removed from the list, and the count lowered by one with the key removed at 0 |
| Expiry.CheckAndUpdateExpiry | stellar-swipe/contracts/signal_registry/src/expiry.rs:35-51 | only the status may change; a change happens exactly when the signal is neither Expired nor Executed and is strictly past its expiry, and then it becomes Expired |
| Expiry.CheckIdempotent | stellar-swipe/contracts/signal_registry/src/expiry.rs:35-51 | checking again at the same time changes nothing |
| Expiry.FindSignal | stellar-swipe/contracts/signal_registry/src/expiry.rs:54-73 | the position of the entry with the id, or None exactly when no entry has it |
| Expiry.GetSignalWithExpiryCheck | stellar-swipe/contracts/signal_registry/src/expiry.rs:54-73 | None, with the store unchanged, exactly when no entry has the id; otherwise the checked signal, never overdue, with that entry written back |
| Expiry.ActiveMeaning | stellar-swipe/contracts/signal_registry/src/expiry.rs:76-103 | the active list holds exactly the signals that are not closed and not yet at their expiry, in key order, and the check would change none of them |
| Expiry.GetActiveSignals | stellar-swipe/contracts/signal_registry/src/expiry.rs:76-103 | the loop gives ActiveOf of the store |
| Expiry.BatchSize | stellar-swipe/contracts/signal_registry/src/expiry.rs:112-116 | between 1 and 100, the limit itself when it is in that range |
| Expiry.Cleanup | stellar-swipe/contracts/signal_registry/src/expiry.rs:107-169 | the store keeps its number of entries |
| Expiry.CleanupMeaning | stellar-swipe/contracts/signal_registry/src/expiry.rs:107-169 | the processed count is min(batch, open signals); only overdue signals change, and only to Expired; the expired count is how many more Expired entries there are; an unfilled batch leaves nothing overdue |
| Expiry.CleanupCounts | stellar-swipe/contracts/signal_registry/src/expiry.rs:107-169 | the processed count is min(batch, open signals), no more expire than are processed, and with the batch unfilled the expired count is the number of overdue open signals |
| Expiry.CleanupExpiredCount | stellar-swipe/contracts/signal_registry/src/expiry.rs:107-169 | the number of Expired entries grows by exactly the expired count |
| Expiry.CleanupChanges | stellar-swipe/contracts/signal_registry/src/expiry.rs:107-169 | each entry keeps everything but its status, and an entry that changes was overdue and is now Expired |
| Expiry.CleanupLeavesNothingPending | stellar-swipe/contracts/signal_registry/src/expiry.rs:107-169 | with the batch unfilled no overdue open signal is left |
| Expiry.CleanupExpiredSignals | stellar-swipe/contracts/signal_registry/src/expiry.rs:107-169 | the loop gives Cleanup's store and counts at the clamped batch size |
| Expiry.CleanupPassesOver | stellar-swipe/contracts/signal_registry/src/expiry.rs:132-135 | after the batch is used up the remaining entries pass through unchanged |
| Expiry.ArchiveIds | stellar-swipe/contracts/signal_registry/src/expiry.rs:173-227 | at most one batch of ids is collected |
| Expiry.RemoveKey | stellar-swipe/contracts/signal_registry/src/expiry.rs:211-215 | exactly the entries whose key differs from the id remain |
| Expiry.Keep | stellar-swipe/contracts/signal_registry/src/expiry.rs:211-215 | exactly the entries whose key is not archived remain |
| Expiry.ArchiveIdsMeaning | stellar-swipe/contracts/signal_registry/src/expiry.rs:195-209 | every collected id is an archivable signal's, none twice with distinct keys; an unfilled batch collects every archivable signal |
| Expiry.ArchiveOldSignals | stellar-swipe/contracts/signal_registry/src/expiry.rs:173-227 | the archived count is the number of collected ids, at most the batch, and the store keeps exactly the other entries |
| Expiry.CollectArchiveIds | stellar-swipe/contracts/signal_registry/src/expiry.rs:195-211 | the collecting loop returns exactly the archivable ids in order until the batch is full |
| Expiry.RemoveKeys | stellar-swipe/contracts/signal_registry/src/expiry.rs:213-217 | the removing loop leaves exactly the entries whose ids were not collected |
| Expiry.ArchivePassesOver | stellar-swipe/contracts/signal_registry/src/expiry.rs:195-198 | after the batch is full no more ids are collected |
| Expiry.ArchiveMeaning | stellar-swipe/contracts/signal_registry/src/expiry.rs:173-227 | the archived store keeps only old entries; with an unfilled batch nothing archivable remains; with distinct keys exactly the archivable entries were removed |
| Expiry.CountExpiredSignals | stellar-swipe/contracts/signal_registry/src/expiry.rs:230-244 | the number of entries whose status is Expired |
| Expiry.CountSignalsPendingExpiry | stellar-swipe/contracts/signal_registry/src/expiry.rs:247-266 | the number of entries past expiry and not yet closed |
| Expiry.CountsDisjoint | stellar-swipe/contracts/signal_registry/src/expiry.rs:230-266 | the two counts never add up to more than the entries, and every pending signal is one the single check would expire |
| Expiry.ExpiryExamples | stellar-swipe/contracts/signal_registry/src/expiry.rs:295-393 | the boundary second is not expired, Expired and Executed signals are left alone, and 31 days past expiry is archivable while 29 is not |
| Query.SuccessRate | stellar-swipe/contracts/signal_registry/src/query.rs:110-114 | at most 10000 basis points while successful executions do not exceed executions |
| Query.RateBound | stellar-swipe/contracts/signal_registry/src/query.rs:110-114 | successful·10000 / executions lies in 0..10000 when successful ≤ executions |
| Query.Summarize | stellar-swipe/contracts/signal_registry/src/query.rs:116-125 | the summary carries the signal's id, provider and timestamp, its success rate and its execution count as copies |
| Query.CandidatesMeaning | stellar-swipe/contracts/signal_registry/src/query.rs:19-39 | the candidates are exactly the live signals, of the requested provider if one is given |
| Query.PageLimit | stellar-swipe/contracts/signal_registry/src/query.rs:48-54 | 20 for a limit of 0, the limit itself up to 50, and 50 above |
| Query.Summaries | stellar-swipe/contracts/signal_registry/src/query.rs:104-126 | one summary per signal, in order |
| Query.Page | stellar-swipe/contracts/signal_registry/src/query.rs:104-126 | an offset at or past the end gives nothing; otherwise min(page size, remaining) summaries of the sorted feed from the offset |
| Query.CollectCandidates | stellar-swipe/contracts/signal_registry/src/query.rs:19-39 | the loop gives the candidates in key order |
| Query.Paginate | stellar-swipe/contracts/signal_registry/src/query.rs:104-126 | the summaries of the sorted positions from the offset to the end |
| Query.GetActiveSignals | stellar-swipe/contracts/signal_registry/src/query.rs:8-129 | nothing when the offset is past the candidates; otherwise the page, at the offset, of the stable rearrangement of the candidates into the feed order, which FeedUnique shows is the only one |
| Query.PageMeaning | stellar-swipe/contracts/signal_registry/src/query.rs:56-102 | a sorted feed holds exactly the candidates; by recency a page is newest first, by performance highest success rate first with the newer of equal rates first, by volume highest total volume first with the newer of equal volumes first |
| Query.FeedUnique | stellar-swipe/contracts/signal_registry/src/query.rs:56-102 | two sorted feeds of the same candidates in the same order are equal, so every call cuts its page from the same list |
| Query.CandidatesIdOrder | stellar-swipe/contracts/signal_registry/src/query.rs:19-39 | the filter keeps a store listed in id order in id order |
| Query.TiesInIdOrder | stellar-swipe/contracts/signal_registry/src/query.rs:56-102 | signals the swap test ties (equal keys and timestamps) come out in id order when the store is listed in id order |
| Query.PageIsTopSlice | stellar-swipe/contracts/signal_registry/src/query.rs:56-126 | in a sorted feed each signal on the page ranks at least as high as any candidate after the page and no higher than any before it |
| Query.QueryExamples | stellar-swipe/contracts/signal_registry/src/query.rs:48-54 | with 60 candidates a limit of 0 gives 20, 80 is capped at 50, offset 50 gives the last 10, and offset 60 gives nothing |
| Assets.ValidateAssetCodeBytes | stellar-swipe/contracts/common/src/assets.rs:60-71 | true exactly when the range is 1 to 12 alphanumeric bytes |
| Assets.ValidateIssuerBytes | stellar-swipe/contracts/common/src/assets.rs:74-88 | true exactly when the range is 56 bytes, 'G' followed by 55 base32 characters |
| Assets.IsNativeXlmAt | stellar-swipe/contracts/common/src/assets.rs:91-98 | true exactly when the range is the bytes "XLM" |
| Assets.FindColon | stellar-swipe/contracts/common/src/assets.rs:106-112 | the first ':' in the range, or None exactly when there is none |
| Assets.ValidateAssetPart | stellar-swipe/contracts/common/src/assets.rs:101-132 | an empty range gives InvalidFormat; without a colon native XLM or a valid code passes and anything else gives InvalidAssetCode; with one, the code before the first colon and then the issuer after it are checked |
| Assets.NoColonPart | stellar-swipe/contracts/common/src/assets.rs:115-121 | a side without a colon is judged as a bare code |
| Assets.ColonPart | stellar-swipe/contracts/common/src/assets.rs:122-130 | a side with a colon is judged by the code before its first colon and the issuer after it |
| Assets.RangesEqual | stellar-swipe/contracts/common/src/assets.rs:135-147 | true exactly when the two ranges hold the same bytes |
| Assets.ValidateAssetPair | stellar-swipe/contracts/common/src/assets.rs:155-183 | the byte scan returns the specified verdict on the whole pair |
| Assets.NativeIsACode | stellar-swipe/contracts/common/src/assets.rs:91-98 | "XLM" is itself a valid code, so the native check accepts nothing more |
| Assets.PartAccepted | stellar-swipe/contracts/common/src/assets.rs:101-132 | a side passes exactly when it is a bare valid code, or a valid code, its first colon, and a valid issuer |
| Assets.PairAccepted | stellar-swipe/contracts/common/src/assets.rs:155-183 | a pair passes exactly when it has a single '/', neither first nor last, and two accepted sides that differ |
| Assets.SplitPair | stellar-swipe/contracts/common/src/assets.rs:155-183 | a pair of two non-empty slash-free sides gives the base side's error, then the quote side's, then SameAssets for equal sides, else passes |
| Assets.SplitPart | stellar-swipe/contracts/common/src/assets.rs:101-132 | a colon-free code followed by a colon and an issuer gives InvalidAssetCode for a bad code, then InvalidIssuer for a bad issuer, else passes |
| Assets.BaseErrorWins | stellar-swipe/contracts/common/src/assets.rs:175-181 | the base side's error comes first, then the quote side's, and SameAssets exactly when both pass and are equal |
| Assets.XlmUsdcAccepted | stellar-swipe/contracts/common/src/assets.rs:194-198 | "XLM/USDC" passes |
| Assets.SameAssetsRejected | stellar-swipe/contracts/common/src/assets.rs:231-237 | "XLM/XLM" gives SameAssets |
| Assets.NoSlashRejected | stellar-swipe/contracts/common/src/assets.rs:215-221 | "XLMUSDC" gives InvalidFormat |
| Assets.SpecialCharRejected | stellar-swipe/contracts/common/src/assets.rs:240-244 | "XLM/USD!" gives InvalidAssetCode |
| Assets.ShortIssuerRejected | stellar-swipe/contracts/common/src/assets.rs:247-254 | "XLM/USDC:INVALID" gives InvalidIssuer |
| Assets.IssuedQuoteAccepted | stellar-swipe/contracts/common/src/assets.rs:201-212 | "XLM/USDC:" followed by any valid issuer passes |
| Assets.TestIssuerValid | stellar-swipe/contracts/common/src/assets.rs:201-205 | the issuer used in the tests is a valid account id |
| Assets.EmptyBaseRejected | stellar-swipe/contracts/common/src/assets.rs:224-228 | "/USDC" gives InvalidFormat |
| Templates.Decimal | stellar-swipe/contracts/signal_registry/src/templates.rs:130 | the timestamp text is a non-empty digit string without leading zero whose decimal value is the timestamp |
| Templates.CloseFrom | stellar-swipe/contracts/signal_registry/src/templates.rs:110-113 | the scan for '}' stops at the first '}' after the '{', or at the end of the text when there is none |
| Templates.ClosingBrace | stellar-swipe/contracts/signal_registry/src/templates.rs:110-113 | any position with no '}' before it and a '}' (or the end) at it is the one the scan stops at |
| Templates.PlainText | stellar-swipe/contracts/signal_registry/src/templates.rs:138-140 | bytes that are not '{' are copied one for one in front of the rest of the expansion |
| Templates.NoPlaceholders | stellar-swipe/contracts/signal_registry/src/templates.rs:106-146 | a text without '{' renders to itself, cut to 500 bytes |
| Templates.NoClosingBrace | stellar-swipe/contracts/signal_registry/src/templates.rs:109-119 | a text without '}' is copied unchanged: each unclosed '{' is emitted literally |
| Templates.Placeholder | stellar-swipe/contracts/signal_registry/src/templates.rs:121-136 | `{}` is InvalidTemplate; a known key is replaced by its value, an unknown key "date" by the timestamp, any other unknown key is MissingVariable; scanning resumes after the '}' without rescanning the value |
| Templates.RenderMeaning | stellar-swipe/contracts/signal_registry/src/templates.rs:143-149 | rendering fails exactly when expansion does, with the same error; otherwise its result is the expansion's prefix of length min(expansion length, 500) |
| Templates.RenderExample | stellar-swipe/contracts/signal_registry/src/templates.rs:121-136 | `{key} {date}` with the key set and no `date` variable renders as the key's value, a space and the ledger time in decimal |
| Templates.ReplaceVariables | stellar-swipe/contracts/signal_registry/src/templates.rs:98-150 | the byte loop returns exactly the rendered (expanded then truncated) text or its error |
| Templates.FindClose | stellar-swipe/contracts/signal_registry/src/templates.rs:110-113 | the scan stops at the first closing brace after the opening one, or at the end of the text |
| Templates.PlainStep | stellar-swipe/contracts/signal_registry/src/templates.rs:138-140 | one byte that is not '{' is copied and the scan moves one byte on |
| Templates.BraceStep | stellar-swipe/contracts/signal_registry/src/templates.rs:109-136 | the four outcomes of a '{' whose '}'-scan stopped at j: literal '{' when unclosed, InvalidTemplate when empty, the value or the timestamp, or MissingVariable |
| Templates.GetVariable | stellar-swipe/contracts/signal_registry/src/templates.rs:152-163 | the key is found among the variables exactly when it is present, with its stored value |
| Templates.Lower | stellar-swipe/contracts/signal_registry/src/templates.rs:167 | ASCII lowercasing keeps the length and lowers each byte |
| Templates.ParseAction | stellar-swipe/contracts/signal_registry/src/templates.rs:165-173 | the action is Buy exactly for case-insensitive "buy", Sell for "sell", and InvalidAction otherwise |
| Templates.ActionIgnoresCase | stellar-swipe/contracts/signal_registry/src/templates.rs:165-173 | lowercasing the text first never changes the parsed action |
| Templates.ActionExamples | stellar-swipe/contracts/signal_registry/src/templates.rs:165-173 | "BUY" is Buy, "SeLl" is Sell and "hold" is InvalidAction |
| Templates.ParseI128 | stellar-swipe/contracts/signal_registry/src/templates.rs:177-179 | a parsed integer is within the i128 range |
| Templates.ParsePrice | stellar-swipe/contracts/signal_registry/src/templates.rs:175-184 | a parsed price is a positive i128; every failure is MissingVariable |
| Templates.PriceMeaning | stellar-swipe/contracts/signal_registry/src/templates.rs:175-184 | a positive i128 written in decimal (optionally with '+') parses back to itself; a leading '-' and zero are refused |
| Templates.TemplateStore.constructor | stellar-swipe/contracts/signal_registry/src/templates.rs:28-46 | the counter starts at 0 and there are no templates |
| Templates.TemplateStore.NextTemplateId | stellar-swipe/contracts/signal_registry/src/templates.rs:28-39 | the counter grows by one and the new value is the id returned; templates are unchanged |
| Templates.TemplateStore.StoreTemplate | stellar-swipe/contracts/signal_registry/src/templates.rs:48-54 | the template is stored under its id and nothing else changes |
| Templates.TemplateStore.GetTemplate | stellar-swipe/contracts/signal_registry/src/templates.rs:56-59 | the stored template for the id, or none exactly when none is stored |
| Templates.TemplateStore.IncrementTemplateUseCount | stellar-swipe/contracts/signal_registry/src/templates.rs:61-75 | TemplateNotFound for a missing id, InvalidTemplate when the u32 count is full, otherwise Ok and that template's use count grows by exactly one; a failure changes nothing |
| Templates.TemplateStore.SetTemplateVisibility | stellar-swipe/contracts/signal_registry/src/templates.rs:77-96 | TemplateNotFound for a missing id, Unauthorized for anyone but its provider, otherwise Ok and only that template's visibility becomes the requested one; a failure changes nothing |
| Combos.ChecksFail | stellar-swipe/contracts/signal_registry/src/combos.rs:199-218 | the first component that fails its check decides the error; later components are not looked at |
| Combos.ChecksMeaning | stellar-swipe/contracts/signal_registry/src/combos.rs:199-218 | the component checks pass exactly when every component is an existing Active signal of the provider and the u32 weight total does not overflow; the total is then the sum of the weights |
| Combos.CreateMeaning | stellar-swipe/contracts/signal_registry/src/combos.rs:184-246 | a combo is accepted exactly when it has 1 to 10 usable components whose weights total 10000 and, for a Conditional combo, every gate names one of its own signals; empty is NoComponents and more than 10 is TooManyComponents |
| Combos.ComboStore.constructor | stellar-swipe/contracts/signal_registry/src/combos.rs:121-156 | no combos, no executions and the id counter at 0 |
| Combos.ComboStore.CreateComboSignal | stellar-swipe/contracts/signal_registry/src/combos.rs:177-265 | fails with exactly the error of the checks above and then changes nothing; otherwise stores the combo as given, Active, at the next counter id, which it returns |
| Combos.ComboStore.ValidateComponents | stellar-swipe/contracts/signal_registry/src/combos.rs:199-218 | the component loop gives exactly the first missing, foreign or inactive signal's error or a weight overflow, otherwise the weight total |
| Combos.ComboStore.ConditionReferencesKnown | stellar-swipe/contracts/signal_registry/src/combos.rs:224-246 | true exactly when every condition depends on a signal that is one of the components |
| Combos.FirstExecution | stellar-swipe/contracts/signal_registry/src/combos.rs:487-493 | the index of the first earlier execution of the dependency, or none |
| Combos.EvaluateCondition | stellar-swipe/contracts/signal_registry/src/combos.rs:476-513 | an ungated component runs; a gated one runs exactly when the first earlier execution of its dependency exists, was not skipped and meets Success, Failure or RoiAbove |
| Combos.RunAll | stellar-swipe/contracts/signal_registry/src/combos.rs:309-367 | one execution record per component |
| Combos.RunAllPrefix | stellar-swipe/contracts/signal_registry/src/combos.rs:309-367 | records are appended in component order: the run of a prefix is the prefix of the run |
| Combos.RunAllAt | stellar-swipe/contracts/signal_registry/src/combos.rs:341-366 | each record is decided from the records before it |
| Combos.RunAllMeaning | stellar-swipe/contracts/signal_registry/src/combos.rs:309-367 | each record carries its component's signal; it is skipped exactly in a Conditional combo whose gate is unmet; an ungated component is never skipped; a skipped one has amount 0 and roi 0; a run one has amount total*weight/10000 and the signal's average roi |
| Combos.AmountsBounded | stellar-swipe/contracts/signal_registry/src/combos.rs:313-349 | the component amounts times 10000 never exceed the total times the sum of the weights |
| Combos.AmountsWithinTotal | stellar-swipe/contracts/signal_registry/src/combos.rs:184-222 | with weights totalling 10000 the component amounts add up to at most the total amount |
| Combos.UngatedNeverCompletes | stellar-swipe/contracts/signal_registry/src/combos.rs:386-403 | a Simultaneous or Sequential combo with components never has every component skipped, so execution never completes it |
| Combos.WeightedSum | stellar-swipe/contracts/signal_registry/src/combos.rs:545-551 | the saturating sum of roi*amount over executed components stays within i128 |
| Combos.ExecutedAmount | stellar-swipe/contracts/signal_registry/src/combos.rs:545-551 | the saturating sum of executed amounts stays within 0..i128 max |
| Combos.CalculateCombinedRoi | stellar-swipe/contracts/signal_registry/src/combos.rs:534-558 | the loop computes the combined ROI: 0 for a zero total or when nothing ran, else the saturating weighted sum divided (truncating) by the executed amount |
| Combos.ExactSums | stellar-swipe/contracts/signal_registry/src/combos.rs:545-551 | when nothing overflows the saturating sums equal the exact sums |
| Combos.ExactBounds | stellar-swipe/contracts/signal_registry/src/combos.rs:545-551 | the weighted sum lies between the smallest and largest roi times the executed amount |
| Combos.CombinedRoiMeaning | stellar-swipe/contracts/signal_registry/src/combos.rs:534-558 | without overflow the combined ROI is the amount-weighted mean roi of the executed components, truncated, lying between their smallest and largest roi, and 0 when none ran |
| Combos.ComboStore.ExecuteComboSignal | stellar-swipe/contracts/signal_registry/src/combos.rs:272-406 | ComboNotFound, ComboNotActive, InvalidAmount, then the first missing or expired component, each changing nothing; otherwise returns the run, appends one execution with its combined ROI to the combo's history, and marks the combo Completed exactly when every component was skipped |
| Combos.ComboStore.ComponentsLive | stellar-swipe/contracts/signal_registry/src/combos.rs:294-305 | the expiry loop gives exactly the first missing or expired component's error, otherwise passes |
| Combos.ComboStore.RunComponents | stellar-swipe/contracts/signal_registry/src/combos.rs:307-367 | the execution loops return exactly the specified per-component executions for the combo type |
| Combos.ComboStore.AllComponentsSkipped | stellar-swipe/contracts/signal_registry/src/combos.rs:386-396 | true exactly when every execution was skipped |
| Combos.ComboStore.CancelCombo | stellar-swipe/contracts/signal_registry/src/combos.rs:409-429 | ComboNotFound, NotSignalOwner for anyone but the provider, ComboNotActive when not Active; otherwise Ok and only the status becomes Cancelled; a refusal changes nothing |
| Combos.SumCombinedRoi | stellar-swipe/contracts/signal_registry/src/combos.rs:450-454 | the saturating sum of combined ROIs stays within i128 |
| Combos.SumTotalAmount | stellar-swipe/contracts/signal_registry/src/combos.rs:450-454 | the saturating sum of volumes stays within i128 |
| Combos.ComboStore.GetComboPerformance | stellar-swipe/contracts/signal_registry/src/combos.rs:432-464 | none exactly for an unknown combo; otherwise the execution count, the truncated mean of the combined ROIs and the saturating total volume, all zero for an empty history |
| Combos.PerformanceCounts | stellar-swipe/contracts/signal_registry/src/combos.rs:432-464 | each execution adds one to the count, an empty history sums to zeros, and non-negative ROIs give a non-negative mean |
| Combos.SumNonNegative | stellar-swipe/contracts/signal_registry/src/combos.rs:450-454 | non-negative combined ROIs sum to a non-negative total |
| Combos.ShareExample | stellar-swipe/contracts/signal_registry/src/test_combos.rs:297 | a 50/50 split of 1000000 gives each component 500000, and shares round down |
| CsvImport.ParseCsvLines | stellar-swipe/contracts/signal_registry/src/import.rs:77-108 | the byte loop with its field and line buffers returns exactly the records of the tokenizer specification |
| CsvImport.StepInv | stellar-swipe/contracts/signal_registry/src/import.rs:80-99 | one input byte keeps every non-separator byte, in order, in the scanner's buffers, and closes only non-empty records with separator-free fields |
| CsvImport.ScanInvariant | stellar-swipe/contracts/signal_registry/src/import.rs:80-99 | after any input the buffers hold exactly the input's non-separator bytes, in order, and every closed record is non-empty with separator-free fields |
| CsvImport.FinishInv | stellar-swipe/contracts/signal_registry/src/import.rs:100-107 | closing the input keeps that: no record is empty and no byte is lost or reordered |
| CsvImport.CsvLinesMeaning | stellar-swipe/contracts/signal_registry/src/import.rs:77-108 | no record is empty, no field contains ',' CR or LF, and the records' bytes are exactly the input's non-separator bytes in order |
| CsvImport.TokenizerExamples | stellar-swipe/contracts/signal_registry/src/import.rs:84-105 | a trailing empty field is kept before LF but dropped at end of input; CR and LF both end a record; blank lines give no record |
| CsvImport.TrailingCommaKept | stellar-swipe/contracts/signal_registry/src/import.rs:84-105 | "a," followed by LF is one record of "a" and an empty field |
| CsvImport.TrailingCommaDropped | stellar-swipe/contracts/signal_registry/src/import.rs:84-105 | "a," at the end of input is one record holding only "a" |
| CsvImport.CrLfSeparates | stellar-swipe/contracts/signal_registry/src/import.rs:84-105 | "a", CR, LF, "b" is two one-field records |
| CsvImport.BlankLinesVanish | stellar-swipe/contracts/signal_registry/src/import.rs:84-105 | LF then CR gives no record |
| CsvImport.TrimLeft | stellar-swipe/contracts/signal_registry/src/import.rs:219-221 | dropping leading blanks never lengthens the text |
| CsvImport.TrimRight | stellar-swipe/contracts/signal_registry/src/import.rs:223-225 | dropping trailing blanks never lengthens the text |
| CsvImport.TrimBytes | stellar-swipe/contracts/signal_registry/src/import.rs:215-228 | the index loops return exactly the trimmed bytes |
| CsvImport.SkipLeading | stellar-swipe/contracts/signal_registry/src/import.rs:219-221 | the forward index loop stops where the left-trimmed bytes begin |
| CsvImport.SkipTrailing | stellar-swipe/contracts/signal_registry/src/import.rs:223-225 | the backward index loop stops where the right-trimmed remainder ends |
| CsvImport.TrimLeftSuffix | stellar-swipe/contracts/signal_registry/src/import.rs:219-221 | the left trim is a suffix of the input, everything cut is a space or tab, and it does not start with one |
| CsvImport.TrimRightPrefix | stellar-swipe/contracts/signal_registry/src/import.rs:223-225 | the right trim is a prefix of the input, everything cut is a space or tab, and it does not end with one |
| CsvImport.TrimRightKeepsFront | stellar-swipe/contracts/signal_registry/src/import.rs:223-225 | trimming the right end keeps a non-blank first byte |
| CsvImport.TrimMeaning | stellar-swipe/contracts/signal_registry/src/import.rs:215-228 | the trimmed bytes are one contiguous slice of the input; every byte cut on either side is a space or tab and the result neither starts nor ends with one |
| CsvImport.Upper | stellar-swipe/contracts/signal_registry/src/import.rs:230-236 | upper-casing keeps the length and upper-cases each ASCII letter |
| CsvImport.ActionMeaning | stellar-swipe/contracts/signal_registry/src/import.rs:147-174 | the action is Buy exactly for trimmed "buy" in any mix of cases, Sell exactly for "sell", and otherwise InvalidAction |
| CsvImport.ParseI128FromBytes | stellar-swipe/contracts/signal_registry/src/import.rs:176-205 | the accumulator loop returns exactly the specified parse of the trimmed bytes |
| CsvImport.NumeralCons | stellar-swipe/contracts/signal_registry/src/import.rs:190-192 | a digit in front of a numeral adds its digit times the power of ten of the rest |
| CsvImport.ParseDigits | stellar-swipe/contracts/signal_registry/src/import.rs:190-192 | scanning digits shifts the accumulator one decimal place per digit |
| CsvImport.NumeralParses | stellar-swipe/contracts/signal_registry/src/import.rs:176-205 | a numeral parses to its decimal value, and with a leading '-' to its negation |
| CsvImport.DecimalIgnored | stellar-swipe/contracts/signal_registry/src/import.rs:193-194 | everything from the first '.' on is ignored |
| CsvImport.ParseErrors | stellar-swipe/contracts/signal_registry/src/import.rs:176-205 | every failure of the integer scan is InvalidPrice |
| CsvImport.ParseU32 | stellar-swipe/contracts/signal_registry/src/import.rs:207-213 | a parsed u32 lies in 0..u32::MAX |
| CsvImport.ParseU32Meaning | stellar-swipe/contracts/signal_registry/src/import.rs:207-213 | a failed integer parse keeps its InvalidPrice; a parsed value is accepted exactly within 0..u32::MAX, unchanged, and otherwise gives InvalidFormat |
| CsvImport.QuantityExample | stellar-swipe/contracts/signal_registry/src/test_import.rs:45 | "120000" parses to 120000 |
| CsvImport.NegativeExample | stellar-swipe/contracts/signal_registry/src/test_import.rs:70 | a negative price parses to its negative value |
| CsvImport.ExpiryExample | stellar-swipe/contracts/signal_registry/src/test_import.rs:45 | "24" parses to 24 |
| CsvImport.DecimalExample | stellar-swipe/contracts/signal_registry/src/import.rs:180-200 | " 12.5\t" is trimmed and parses to 12 |
| CsvImport.InteriorExamples | stellar-swipe/contracts/signal_registry/src/import.rs:186-198 | an interior space is skipped and a '-' after a digit is InvalidPrice |
| CsvImport.EmptyNumberExamples | stellar-swipe/contracts/signal_registry/src/import.rs:178-204 | only blanks, or only a decimal part, is InvalidPrice |
| CsvImport.LineMeaning | stellar-swipe/contracts/signal_registry/src/import.rs:110-141 | a line is accepted exactly when it has 5 fields, a '/' in the pair, a valid action, a positive price, a 1-500 byte rationale and an expiry of 1-720 hours; the short-line, pair and action errors come first in that order |
| CsvImport.RowExamples | stellar-swipe/contracts/signal_registry/src/test_import.rs:45 | the test's valid row is accepted |
| CsvImport.ShortRowRejected | stellar-swipe/contracts/signal_registry/src/test_import.rs:101-121 | a row of three fields is InvalidFormat |
| CsvImport.HoldRejected | stellar-swipe/contracts/signal_registry/src/test_import.rs:124-145 | the action HOLD is InvalidAction |
| CsvImport.PairWithoutSlashRejected | stellar-swipe/contracts/signal_registry/src/test_import.rs:147-168 | a pair without a slash is InvalidAssetPair |
| CsvImport.NegativePriceRejected | stellar-swipe/contracts/signal_registry/src/test_import.rs:70 | a row priced -45000 is InvalidPrice |
| CsvImport.NonPositivePrice | stellar-swipe/contracts/signal_registry/src/import.rs:110-127 | a row with a slashed pair and a valid action whose price parses to zero or less is InvalidPrice |
| CsvImport.SellAccepted | stellar-swipe/contracts/signal_registry/src/import.rs:147-172 | "SELL" is an accepted action |
| CsvImport.TallyMeaning | stellar-swipe/contracts/signal_registry/src/import.rs:26-47 | each examined row adds to exactly one counter; in validate-only mode accepted rows add to neither and the error count is the same |
| CsvImport.ImportSignalsCsv | stellar-swipe/contracts/signal_registry/src/import.rs:13-54 | the import loop returns exactly the specified counts |
| CsvImport.TallyRows | stellar-swipe/contracts/signal_registry/src/import.rs:34-48 | the row loop after the header returns exactly the specified success and error counts |
| CsvImport.ImportMeaning | stellar-swipe/contracts/signal_registry/src/import.rs:13-54 | empty input is one error, a header alone is nothing, at most the 100 rows after the header are examined, in order, and at most 100 are accepted |
| CsvImport.ImportIgnoresTail | stellar-swipe/contracts/signal_registry/src/import.rs:33-34 | rows beyond the first 100 data rows have no effect |
| CsvImport.TallyExample | stellar-swipe/contracts/signal_registry/src/test_import.rs:56-77 | a batch with one bad row between two good ones counts two accepted and one rejected, and in validate-only mode only the rejected one |
| Fees.CalculateFee | stellar-swipe/contracts/signal_registry/src/fees.rs:16-38 | the fee and the amount after the fee always add up to the trade amount |
| Fees.FeeMeaning | stellar-swipe/contracts/signal_registry/src/fees.rs:16-38 | an i128 amount is accepted exactly when it is at least 1000 and its fee product fits i128; below 1000 is TradeTooSmall; FeeRoundedToZero never happens; the fee is the amount's 0.1% rounded down, at least 1, and what is left is positive and smaller than the amount |
| Fees.CalculateFeeBreakdown | stellar-swipe/contracts/signal_registry/src/fees.rs:41-61 | the platform and provider shares add up to the total fee |
| Fees.BreakdownMeaning | stellar-swipe/contracts/signal_registry/src/fees.rs:41-61 | the breakdown fails exactly when the fee does, with the same error; otherwise it carries that fee and remainder, the platform share is 70% of the fee rounded down, and the provider share is positive |
| Fees.ValidateTradeAmount | stellar-swipe/contracts/signal_registry/src/fees.rs:161-166 | accepted exactly from 1000 up; otherwise TradeTooSmall |
| Fees.FeeExamples | stellar-swipe/contracts/signal_registry/src/fees.rs:174-226 | the fee tests' amounts (1000, 100 and 10 XLM and the 1000 XLM breakdown of 700000 and 300000); 999 is too small; 1000 and 9999 are accepted |
| Fees.Treasury.constructor | stellar-swipe/contracts/signal_registry/src/fees.rs:64-69 | no balances recorded |
| Fees.Treasury.Balance | stellar-swipe/contracts/signal_registry/src/fees.rs:98-101 | an asset never credited reads 0 |
| Fees.Treasury.AddToTreasury | stellar-swipe/contracts/signal_registry/src/fees.rs:79-95 | InvalidAmount for amount <= 0 and ArithmeticOverflow when the new balance leaves i128, both changing nothing; otherwise only that asset's balance grows by exactly the amount |
| Fees.Treasury.CollectAndDistributeFee | stellar-swipe/contracts/signal_registry/src/fees.rs:110-144 | InvalidProviderAddress when the provider is the treasury, then the breakdown's error, each changing nothing; otherwise the breakdown with exactly the total fee credited to the asset, or ArithmeticOverflow with no change when that credit leaves the i128 range |
| Performance.CalculateRoi | stellar-swipe/contracts/signal_registry/src/performance.rs:21-45 | the ROI is never below -10000 basis points; above the floor it is the favourable price move times 10000 over the entry price, truncated |
| Performance.SellMirrorsBuy | stellar-swipe/contracts/signal_registry/src/performance.rs:28-37 | a sell's ROI before the floor is exactly the negated ROI of a buy at the same prices |
| Performance.RoiSign | stellar-swipe/contracts/signal_registry/src/performance.rs:21-45 | with a positive entry price the ROI has the sign of the favourable move |
| Performance.BuyNeverFloored | stellar-swipe/contracts/signal_registry/src/performance.rs:40-44 | a buy whose exit price is not negative never reaches the -100% floor |
| Performance.RoiExamples | stellar-swipe/contracts/signal_registry/src/performance.rs:211-232 | 100 to 105 is +500, 100 to 98 is -200, a sell from 100 to 95 is +500, and a buy falling to 0 is floored at -10000 |
| Performance.TradesAccumulate | stellar-swipe/contracts/signal_registry/src/performance.rs:52-70 | applying trades adds one execution per trade and their volumes and ROIs, and changes no other field of the signal |
| Performance.AverageRoi | stellar-swipe/contracts/signal_registry/src/performance.rs:117-123 | the average ROI is 0 without executions |
| Performance.AverageRoiWithin | stellar-swipe/contracts/signal_registry/src/performance.rs:117-123 | the average lies within the same bounds as every trade's ROI |
| Performance.SumRoiFloor | stellar-swipe/contracts/signal_registry/src/performance.rs:40-44 | floored trade ROIs sum to at least -10000 per trade, so the average is never below -100% |
| Performance.EvaluateSignalStatus | stellar-swipe/contracts/signal_registry/src/performance.rs:85-108 | no executions and expired is Failed; no executions otherwise keeps the status; with executions the status is Successful exactly above an average of 200, Failed exactly below -500, and Active in between |
| Performance.RollingAverageWithin | stellar-swipe/contracts/signal_registry/src/performance.rs:183-190 | when nothing overflows, the new rolling average lies between the old average and the new ROI |
| Performance.ProviderUpdateEffect | stellar-swipe/contracts/signal_registry/src/performance.rs:133-197 | only a move from Active or Pending into Successful or Failed changes the provider's statistics; it adds one signal and exactly one success or failure, sets the success rate to successes*10000/total (at most 10000), adds the signal's volume and keeps the copy count |
| Performance.TerminalTransitionsAreUpdates | stellar-swipe/contracts/signal_registry/src/performance.rs:199-203 | every terminal transition is one the update predicate accepts, the two agree from Active or Pending, and Successful to Failed is accepted by the predicate but not a terminal transition |
| OracleReputation.Reputation | stellar-swipe/contracts/oracle/src/reputation.rs:40-63 | the reputation is at most 100, and 50 for an oracle without submissions |
| OracleReputation.UnknownOracleIsFresh | stellar-swipe/contracts/oracle/src/reputation.rs:10-25 | an oracle with no stored record reads as score 50, weight 1 and zero counters, and a record without submissions has reputation 50 and tier 1 |
| OracleReputation.ReputationParts | stellar-swipe/contracts/oracle/src/reputation.rs:47-62 | for a sane record the accuracy part is 0..60 and the deviation part 0..30, and the reputation is their sum plus the 10-point no-slash-this-week bonus, with no clamping needed |
| OracleReputation.TierMonotone | stellar-swipe/contracts/oracle/src/reputation.rs:68-74 | the weight tier never decreases as the reputation grows |
| OracleReputation.LowReputationIsZeroWeight | stellar-swipe/contracts/oracle/src/reputation.rs:68-74 | a reputation below 50 is exactly the one that gets weight 0 |
| OracleReputation.TrackBounds | stellar-swipe/contracts/oracle/src/reputation.rs:84-109 | tracking adds one submission and one accurate submission exactly when the deviation is at most 500 basis points; the new average deviation lies between 0 and the larger of the old average and the new deviation; the record stays sane and nothing else changes |
| OracleReputation.SlashEffect | stellar-swipe/contracts/oracle/src/reputation.rs:111-123 | a slash takes 20 points for a major deviation or 30 for a signature failure off the score, stopping at zero, records the slash time, and changes nothing else |
| OracleReputation.AdjustEffect | stellar-swipe/contracts/oracle/src/reputation.rs:65-82 | the stored score becomes the computed reputation and the weight its tier; everything else is kept |
| OracleReputation.SlashOnlyPersistsThroughLastSlash | stellar-swipe/contracts/oracle/src/reputation.rs:111-123 | the next weight adjustment overwrites a slash's deduction, so only the new slash time survives and the reputation right after a slash is at most 90 |
| OracleReputation.AdjustKeepsReputation | stellar-swipe/contracts/oracle/src/reputation.rs:65-139 | adjusting changes neither the reputation nor the removal verdict, and adjusting twice is the same as once |
| OracleContract.OracleContract.constructor | stellar-swipe/contracts/oracle/src/lib.rs:219-225 | no admin, no oracles, no stats, an empty buffer, no consensus and no pair prices |
| OracleContract.OracleContract.Initialize | stellar-swipe/contracts/oracle/src/lib.rs:220-225 | the first call stores the admin; a second call panics and keeps the first admin |
| OracleContract.OracleContract.RequireAdmin | stellar-swipe/contracts/oracle/src/lib.rs:401-412 | passes exactly when an admin is stored and equals the caller; otherwise Unauthorized |
| OracleContract.OracleContract.GetOracleReputation | stellar-swipe/contracts/oracle/src/lib.rs:374-376 | the stored record, or score 50 / weight 1 / zero counters for an unknown oracle; every stored record is sane |
| OracleContract.OracleContract.RegisterOracle | stellar-swipe/contracts/oracle/src/lib.rs:228-254 | Unauthorized for a non-admin and OracleAlreadyExists for a registered oracle, both changing nothing; otherwise the oracle is appended to the list with fresh stats, and the list stays duplicate-free |
| OracleContract.OracleContract.SubmitPrice | stellar-swipe/contracts/oracle/src/lib.rs:257-290 | InvalidPrice for price <= 0, OracleNotFound for an unregistered oracle and LowReputation for weight 0, all changing nothing; otherwise exactly one submission is appended and earlier ones by the same oracle are kept |
| OracleContract.Repeat | stellar-swipe/contracts/oracle/src/lib.rs:433-435 | n copies of the price |
| OracleContract.Expand | stellar-swipe/contracts/oracle/src/lib.rs:426-436 | the replicated list is at least as long as the submissions |
| OracleContract.OracleContract.ExpandPrices | stellar-swipe/contracts/oracle/src/lib.rs:426-436 | the replication loops build each price repeated max(weight, 1) times, in submission order |
| OracleContract.OracleContract.SortedMedian | stellar-swipe/contracts/oracle/src/lib.rs:438-457 | the bubble sort yields an ascending permutation of the replicated prices, and the result is its middle element or the truncated mean of its two middle elements |
| OracleContract.OracleContract.WeightedMedian | stellar-swipe/contracts/oracle/src/lib.rs:421-458 | 0 for no submissions; otherwise the median of an ascending arrangement of the prices replicated by weight |
| OracleContract.ExpandWithin | stellar-swipe/contracts/oracle/src/lib.rs:426-436 | replication keeps every price within the bounds of the submitted ones |
| OracleContract.MedianWithin | stellar-swipe/contracts/oracle/src/lib.rs:421-458 | the weighted median lies between any lower and upper bound of the round's prices, so between its minimum and maximum |
| OracleContract.OracleContract.TrackSubmissions | stellar-swipe/contracts/oracle/src/lib.rs:305-316 | the accuracy loop tracks every submission, in order, slashing each one whose deviation exceeds 2000 basis points |
| OracleContract.TrackRoundSane | stellar-swipe/contracts/oracle/src/lib.rs:305-316 | the accuracy pass keeps every record sane |
| OracleContract.TrackRoundCounts | stellar-swipe/contracts/oracle/src/lib.rs:305-316 | an oracle's submission count grows by exactly its number of submissions in the round, and its slash time becomes now exactly when one of them deviates by more than 2000 basis points |
| OracleContract.TrackRoundTotal | stellar-swipe/contracts/oracle/src/lib.rs:305-316 | an oracle's submission count grows by exactly its number of submissions in the round |
| OracleContract.TrackRoundSlash | stellar-swipe/contracts/oracle/src/lib.rs:305-316 | an oracle's slash time becomes now exactly when one of its submissions deviates by more than 2000 basis points, and is otherwise kept |
| OracleContract.OracleContract.AdjustWeights | stellar-swipe/contracts/oracle/src/lib.rs:318-341 | the weight loop adjusts every registered oracle in list order and collects the removal candidates |
| OracleContract.AdjustRoundEffect | stellar-swipe/contracts/oracle/src/lib.rs:318-341 | afterwards every registered oracle (not only the submitters) has as score its reputation and as weight that score's tier; unregistered records are untouched; the candidates are exactly the registered oracles that should be removed |
| OracleContract.AdjustRoundStats | stellar-swipe/contracts/oracle/src/lib.rs:318-341 | every registered oracle gets its reputation as score and that score's tier as weight; unregistered records are untouched |
| OracleContract.AdjustRoundCandidates | stellar-swipe/contracts/oracle/src/lib.rs:318-341 | the removal candidates are exactly the registered oracles that should be removed, and no more of them than oracles |
| OracleContract.Round | stellar-swipe/contracts/oracle/src/lib.rs:293-350 | the oracle list after a round is either unchanged or, when at least two would remain, the list without every candidate |
| OracleContract.RoundEffect | stellar-swipe/contracts/oracle/src/lib.rs:343-350 | a duplicate-free list keeps at least min(its size, 2) oracles, stays duplicate-free, gains no oracle, and every kept oracle's weight is its score's tier |
| OracleContract.AdjustRoundSane | stellar-swipe/contracts/oracle/src/lib.rs:318-341 | the weight pass keeps every record sane |
| OracleContract.OracleContract.RemoveOracleInternal | stellar-swipe/contracts/oracle/src/lib.rs:460-474 | the list is rebuilt without that oracle, in order, and stays duplicate-free |
| OracleContract.OracleContract.KeptOracles | stellar-swipe/contracts/oracle/src/lib.rs:460-469 | the rebuilding loop returns the list without the oracle, in order |
| OracleContract.OracleContract.RemoveOracle | stellar-swipe/contracts/oracle/src/lib.rs:392-397 | admin only (else Unauthorized, nothing changes); the oracle is removed with no quorum floor |
| OracleContract.OracleContract.EvictAll | stellar-swipe/contracts/oracle/src/lib.rs:343-350 | the eviction loop removes every candidate in turn |
| OracleContract.RemoveAllEffect | stellar-swipe/contracts/oracle/src/lib.rs:343-350 | evicting k candidates from a duplicate-free list keeps it duplicate-free and leaves exactly the listed oracles that are not candidates, at least the list length minus k of them |
| OracleContract.QuorumFloor | stellar-swipe/contracts/oracle/src/lib.rs:343-350 | the all-or-nothing eviction leaves at least the smaller of the list length and 2 oracles, all from the list |
| OracleContract.OracleContract.CalculateConsensus | stellar-swipe/contracts/oracle/src/lib.rs:293-371 | an empty buffer is InsufficientOracles and changes nothing; otherwise the result is a positive weighted median of the buffer, the stats and oracle list become those of Round at that median, the buffer is emptied and the consensus (price, now, submission count) stored |
| OracleContract.MajorDeviationMedian | stellar-swipe/contracts/oracle/src/test.rs:118-139 | three fresh oracles submitting 100, 101 and 150 give a weighted median of 101 |
| OracleContract.MajorDeviationTracking | stellar-swipe/contracts/oracle/src/test.rs:118-139 | tracking against it slashes only the third oracle, whose deviation is 4851 basis points |
| OracleContract.MajorDeviationAdjusting | stellar-swipe/contracts/oracle/src/test.rs:118-139 | the weight pass leaves the slashed oracle at reputation 26 and weight 0 as the only removal candidate, the other two at 90 or more |
| OracleContract.MajorDeviationRound | stellar-swipe/contracts/oracle/src/test.rs:118-139 | the whole round: median 101, third oracle slashed to weight 0 and evicted, leaving the first two |
| OracleContract.FreshPrices | stellar-swipe/contracts/oracle/src/lib.rs:489-494 | the live list holds exactly the pair's prices younger than 300 seconds |
| OracleContract.OracleContract.LivePrices | stellar-swipe/contracts/oracle/src/lib.rs:489-494 | the staleness loop keeps exactly the live prices, in order |
| OracleContract.OracleContract.SortByPrice | stellar-swipe/contracts/oracle/src/lib.rs:500-512 | the bubble sort yields a price-ascending permutation of the live prices that keeps equal prices in their live order |
| OracleContract.MinPrice | stellar-swipe/contracts/oracle/src/lib.rs:517 | the lowest live price is one of them and at most every one |
| OracleContract.MaxPrice | stellar-swipe/contracts/oracle/src/lib.rs:518 | the highest live price is one of them and at least every one |
| OracleContract.SortedEnds | stellar-swipe/contracts/oracle/src/lib.rs:514-518 | the ends of a price-ascending arrangement are the lowest and highest prices |
| OracleContract.SpreadCheck | stellar-swipe/contracts/oracle/src/lib.rs:516-522 | the spread check fails only by the division trap at a lowest price of 0 or by UnreliablePrice |
| OracleContract.OracleContract.GetPriceWithConfidence | stellar-swipe/contracts/oracle/src/lib.rs:482-525 | PriceNotFound for an unknown pair, StalePrice when no price is younger than 300 s, the spread check's error when the spread exceeds 10% of the lowest price; otherwise the price and confidence at the middle of the stable price-ascending arrangement of the live prices, which MedianEntryUnique shows is a single entry |
| OracleContract.OracleContract.ConfidentPrice | stellar-swipe/contracts/oracle/src/lib.rs:500-524 | for a non-empty list of live prices: the spread check's error when it fails, otherwise the middle entry of the stable price-ascending arrangement of the live prices |
| OracleContract.MedianEntryPrice | stellar-swipe/contracts/oracle/src/lib.rs:514-524 | the reported price lies between the lowest and highest live price |
| OracleContract.MedianPick | stellar-swipe/contracts/oracle/src/lib.rs:500-514 | the entry at index len/2 of a stable price-ascending arrangement is the median entry |
| OracleContract.AscendingOrdered | stellar-swipe/contracts/oracle/src/lib.rs:504-506 | a price-ascending list is ordered by the sort's swap test `price > next price` |
| OracleContract.MedianEntryUnique | stellar-swipe/contracts/oracle/src/lib.rs:500-514 | there is exactly one median entry, confidence included, even when several live prices are equal |
| OracleContract.EqualPricesMedian | stellar-swipe/contracts/oracle/src/lib.rs:500-514 | when all live prices are equal, the reported entry is the one at index len/2 of the live list, e.g. confidence 10 for confidences 90, 10, 50 |
| ExternalAdapter.Outcome | stellar-swipe/contracts/oracle/src/external_adapter.rs:7-51 | an empty batch is InsufficientOracles; the only failures are InsufficientOracles, Overflow and NoOracleData |
| ExternalAdapter.AbsorbMeaning | stellar-swipe/contracts/oracle/src/external_adapter.rs:15-44 | slashing never changes a weight; the loop stops on Overflow exactly when some contributing price times its weight leaves i128; otherwise its sums are the weighted sum and total weight of the observations with a valid signature, at most 300 s old and positive weight, and each oracle has taken one 30-point slash per failed signature |
| ExternalAdapter.AbsorbWeights | stellar-swipe/contracts/oracle/src/external_adapter.rs:15-44 | the lookup loop never changes an oracle's weight |
| ExternalAdapter.AbsorbOverflow | stellar-swipe/contracts/oracle/src/external_adapter.rs:15-44 | the loop reports Overflow exactly when some contributing price times its weight leaves i128 |
| ExternalAdapter.AbsorbSums | stellar-swipe/contracts/oracle/src/external_adapter.rs:15-44 | without overflow the sums are the weighted sum and the total weight of the contributing observations |
| ExternalAdapter.AbsorbSlashes | stellar-swipe/contracts/oracle/src/external_adapter.rs:15-44 | without overflow each oracle has taken one slash per observation of it with a failed signature |
| ExternalAdapter.SumsWithin | stellar-swipe/contracts/oracle/src/external_adapter.rs:38-43 | the weighted sum lies between the smallest and largest contributing price times the total weight |
| ExternalAdapter.AverageWithin | stellar-swipe/contracts/oracle/src/external_adapter.rs:46-50 | a successful result lies between the smallest and largest contributing price |
| ExternalAdapter.OutcomeErrors | stellar-swipe/contracts/oracle/src/external_adapter.rs:46-50 | without overflow the result is NoOracleData exactly when no observation contributes, and otherwise the truncated weighted average of the contributing ones |
| ExternalAdapter.TotalWeightZero | stellar-swipe/contracts/oracle/src/external_adapter.rs:38-48 | the total weight is 0 exactly when no observation contributes |
| ExternalAdapter.FreshnessBoundary | stellar-swipe/contracts/oracle/src/external_adapter.rs:33-36 | an observation exactly 300 s old still counts and one 301 s old does not |
| ExternalAdapter.OverflowSticks | stellar-swipe/contracts/oracle/src/external_adapter.rs:41 | once a product overflows the rest of the batch changes nothing |
| ExternalAdapter.ProcessExternalPrices | stellar-swipe/contracts/oracle/src/external_adapter.rs:7-51 | the loop returns exactly the specified outcome and leaves the stats map as the specified pass over the batch does; an empty batch changes nothing |
| Sorting.BubbleSort | stellar-swipe/contracts/signal_registry/src/categories.rs:122-134 | the in-place bubble sort leaves no element followed by one its swap test would move it behind, the array is a permutation of what it held, and equally ranked elements keep their order |
| Sorting.RankClassAppend | stellar-swipe/contracts/signal_registry/src/query.rs:58-102 | the equally ranked elements of a concatenation are those of each part, in turn |
| Sorting.SwapStable | stellar-swipe/contracts/signal_registry/src/query.rs:96-99 | swapping neighbours of different rank, the only swap the strict test makes, keeps every run of equal ranks in order |
| Sorting.StableTrans | stellar-swipe/contracts/signal_registry/src/query.rs:58-102 | keeping the order of equal ranks composes over successive swaps |
| Sorting.StableSortUnique | stellar-swipe/contracts/signal_registry/src/query.rs:58-102 | an ordered, stable permutation of a list is unique |
| Sorting.OrderedUnique | stellar-swipe/contracts/signal_registry/src/query.rs:58-102 | two ordered permutations of each other with the same runs of equal rank are equal |
| Sorting.HeadsAgree | stellar-swipe/contracts/signal_registry/src/query.rs:58-102 | such lists start with the same element |
| Sorting.TailsAgree | stellar-swipe/contracts/signal_registry/src/query.rs:58-102 | dropping that element keeps them permutations with the same runs |
| Sorting.OrderedTail | stellar-swipe/contracts/signal_registry/src/query.rs:58-102 | the rest of an ordered list is ordered |
| Sorting.ClassPosition | stellar-swipe/contracts/signal_registry/src/query.rs:58-102 | an element's place among its equally ranked elements is the number of them before it |
| Sorting.ClassGrows | stellar-swipe/contracts/signal_registry/src/query.rs:58-102 | that number grows along the list, strictly past an element of the rank |
| Sorting.ClassSource | stellar-swipe/contracts/signal_registry/src/query.rs:58-102 | every member of a run of equal rank comes from a position with as many of its rank before it |
| Sorting.StableTies | stellar-swipe/contracts/signal_registry/src/query.rs:58-102 | in a stable rearrangement two equally ranked elements appear in their original order |
| Sorting.BubblePass | stellar-swipe/contracts/signal_registry/src/lib.rs:637-648 | one inner pass keeps the elements after position `m`, permutes the first `m`, and leaves at position `m - 1` an element no earlier one would be swapped behind |
| Sorting.SwapKeeps | stellar-swipe/contracts/signal_registry/src/lib.rs:641-646 | swapping two neighbours inside the first m elements keeps their multiset and the rest |
| Sorting.PrefixBound | stellar-swipe/contracts/signal_registry/src/query.rs:59-66 | a bound on every element of a slice still holds after the pass permutes that slice |
| Sorting.CollectEntries | stellar-swipe/contracts/signal_registry/src/lib.rs:626-631 | copying a map into a vector of pairs lists each key once with its value and nothing else |
| Sorting.EntriesPermutation | stellar-swipe/contracts/signal_registry/src/categories.rs:114-134 | sorting such a listing leaves a listing of the same map |
| Sorting.TopPrefix | stellar-swipe/contracts/signal_registry/src/lib.rs:650-656 | the first `limit` entries of the sorted listing are distinct keys with their values, still in order, and no key left out ranks ahead of any returned one |
| Sorting.SortedEntries | stellar-swipe/contracts/signal_registry/src/lib.rs:626-648 | the collected and sorted vector lists each key of the map once with its value, and is ordered by the swap test |

## Left out

Contracts stated weaker than the source, or with a precondition in place of a panic:

- Templates.TemplateStore.NextTemplateId: requires the counter to be below `U64_MAX` instead of modelling the panic of its `checked_add(...).expect`.
- Combos.ComboStore.CreateComboSignal: requires the combo counter to be below `U64_MAX` instead of modelling the panic of its `checked_add(...).expect`.
- Performance.CalculateRoi: requires a non-zero entry price instead of modelling the panic for a zero one; the panic of its `checked_mul` on overflow is not modelled.
- Registry.SignalRegistry.NextSignalId: the wrap-around or panic of the u64 id counter is not modelled.
- Performance.TradesAccumulate: the `checked_add` panics of `update_signal_stats` and `update_provider_performance` are not modelled.
- OracleReputation.Reputation: the u32 products and the u64 subtraction `now - last_slash` are unbounded integers here. A `last_slash` later than `now` panics in the source; here it only forfeits the consistency bonus.

Integer widths. Every amount, price and counter is an unbounded `int`. Overflow
panics and wrap-around that the following expressions can reach are not
modelled:
- `total * weight` in combos;
- the `parse_i128` accumulator in import;
- the per-signal success rate in query;
- follower counts `+ 1` in social;
- `now + PAUSE_DURATION` in admin;
- the threshold underflow in signer removal in admin;
- the u32 and i128 sums in collaboration;
- `last_signal_time + lock` in stake;
- `offset + limit` in paging;
- `now + days * 86400` in authorisation;
- the u32 daily-trade count in risk;
- `now + MAX_EXPIRY` in signal creation;
- the `weighted_sum +=` and `total_weight +=` sums in the external adapter (`external_adapter.rs:41-42`);
- `(max_p - min_p) * 100` in the oracle's spread check (`oracle/src/lib.rs:519`);
- the products `amount * price`, `new_position_amount * trade_price`, `trade_amount * trade_price`, `new_position_value * 100` and `entry_price * (100 - stop_loss_pct)`, and the sums `total_value +=`, `current_position + trade_amount` and `current_portfolio_value + trade_value`, in risk (`risk.rs:179`, `risk.rs:208-216`, `risk.rs:236`);
- the products `amount * current_price` and `(current_price - entry_price) * amount` and the running totals in the portfolio (`portfolio.rs:41-45`);
- the `price_diff` subtraction in the ROI calculation (`performance.rs:28-29`);
- `(price - consensus).abs() * 10000` in the deviation of a submission (`oracle/src/lib.rs:310`, `oracle/src/reputation.rs:95`);
- the sum of the two middle prices of the weighted median (`oracle/src/lib.rs:454`).
Of the external adapter's arithmetic only the product `price * weight` is
modelled: its overflow is the adapter's `Overflow` error.

Host services and effects:
- Events (`events.rs` and every `publish` call) are not modelled. They carry no state that the logic reads back.
- `require_auth` is not modelled; the caller is taken to be authenticated.
- Storage tiers are not modelled. Every key is a field of the contract's class.
- TTL extension is not modelled.
- Soroban rolls back a failed invocation. The model does not: writes made before an error remain. This matters for the slashes the external adapter applies before an `Overflow`.
- Ed25519 signature checking and the XDR message built for it (`external_adapter.rs:17-26`) are a foreign cryptographic call. They are the predicate parameter `signatureOk`.
- The ledger clock is a parameter.
- Soroban map iteration order is not modelled. It is only relied on for the popular-tag and top-provider listings, the template variable lookup and the signal queries. Registry.TopProviders, Registry.SignalRegistry.GetTopProviders, Categories.TopTags and Categories.TagStore.GetPopularTags are specified up to the order of equal ranks, and the variable lookup picks any key. The signal stores are sequences in key order, so the query feed's candidates are in id order, and its stable sort keeps tied signals in that order.
- Expiry.CleanupExpiredSignals: the cloned store is built as the entries cleaned so far followed by the untouched rest, not overwritten key by key; both give the same store, and the signals are a sequence in key order rather than a map.

Operations not modelled:
- The price-conversion branch of the oracle (`oracle/src/lib.rs:3-218`), `add_price_source` and the pair-keyed `submit_price` (`oracle/src/lib.rs:527-561`). They depend on `conversion`, `storage` and `OracleWeight`, which are not part of this model.
- `get_price` (`oracle/src/lib.rs:477-480`). It is a projection of `get_price_with_confidence`.
- `get_oracles`, `get_consensus_price` and `get_price_submissions`. They are plain reads of one storage field.
- `analytics` and `leaderboard`. The signal registry references these modules, but they are not part of this model.
- The token transfer in `collect_and_distribute_fee` is a TODO in the source (`fees.rs:128-130`); only the treasury balance is modelled.
- `set_platform_treasury` and `get_platform_treasury` are not modelled. They store and read one address.
- `import_signals_json` and the external-id mapping of import (`import.rs:239-269`) are not modelled.
- UTF-8 handling in templates is not modelled. Template text is a byte sequence, and in the model non-ASCII bytes pass through unchanged. The source instead pushes `bytes[i] as char` (`templates.rs:139`), which re-encodes every byte of 0x80 or more as two UTF-8 bytes, and its byte-wise cut at the length limit (`templates.rs:143-148`) can split such a character, which `from_utf8` then refuses as `InvalidTemplate`. None of this is modelled.
- The declaration-only files `oracle/src/interface.rs`, `signal_registry/src/submission.rs` and `auto_trade/src/storage.rs` hold no behaviour.

Differences between the source and what it describes (the model follows the code):
- `auto_trade/src/lib.rs` calls `storage::is_authorized`, which `auto_trade/src/storage.rs` does not define. Whether the user is authorised is a boolean input.
- The same crate does not declare `risk`, `history`, `auth` or `portfolio` as modules. They are modelled as written.
- `auto_trade/src/errors.rs` has no `DailyTradeLimitExceeded` or `PositionLimitExceeded`, though `risk.rs` returns them. They are constructors of the error type here.
- `check_position_limit` divides by the new portfolio value. That value is 0 when the trade's value cancels the current one, and the division then panics. The panic is the `DivisionByZero` error here.
- The auto-trade tests store market prices under the key "market_price", but the exchange code reads "price". The model reads the key the code reads.
- `get_active_signals_archived` in the signal registry calls `expiry::get_active_signals_filtered`, which `expiry.rs` does not define. It is not modelled.
- The doc comment of `create_combo_signal` (`combos.rs:176`) says Simultaneous combos may not mix BUY and SELL on the same asset pair, but the function (`combos.rs:177-262`) makes no such check. The model makes none either.
- `auto_suggest_tags` calls the text it scans `rationale_lower` but never lowercases it. The model matches case exactly, as the code does.
- The batch-size guard of the CSV import can never fire: the batch is cut to the maximum before the guard runs. The model keeps the guard and proves that it is unreachable.
- The oracle, combo and import files use error enums (`OracleError`, `ComboError`, `ImportError`) and records that are not defined in any file shown. Their constructors are reconstructed from their uses.
