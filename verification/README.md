# Verified model of the canonicalisation core

A question-answering back end answers from a canonical store that a deterministic pipeline builds
from source workbooks and trusted external snapshots. The modules here model that pipeline and the
authoriser that decides what may be compared, and prove what the rest of the system relies on:
runs that may be repeated, facts that do not depend on which row came first, batches that refine
row-at-a-time loading, snapshots that are READY only when reconciled, filters that hold on every row
of a result.

Tables are maps and sets under their unique keys, insert-or-ignore adds a row unless a constraint is
hit, transactions are copies that a failure puts back, and hashed ids are injective constructors.
Code that updates state is written as classes and loops proved equal to functions on the tables;
the theorems are about those functions, over all rows, runs, orders, batch sizes and failures.

| Modules | What they model |
|---|---|
| `IdentityStore`, `IdentityInvariants`, `HoldingsRuns`, `HoldingsIntegrator` | the identity store and the holdings integrator |
| `SecurityIssuers`, `IssuerIntegrator` | the issuer integrator |
| `FilterTree`, `ComparisonContracts`, `ComparisonPlans`, `ComparisonGroups` | the comparison authoriser |
| `CanonicalTables`, `RowBuffer`, `SnapshotLifecycle` | the row buffer, its flushes, and the life of a snapshot |
| `RebuildRows`, `TwoPassFacts`, `RowOrder`, `RelationDomains`, `TwoPassRebuild`, `TwoPassRun` | the two-pass rebuild: audit, emitters, evidence, conflict cases, domain gate |
| `RebuildUnits` | the table rows that each source row adds, their keys and references, and the load of all of them |
| `ReplaceSnapshot`, `SnapshotIngest`, `IdentifierConflicts`, `SparseEvidence` | snapshot replacement and sparse provenance |
| `OntologyPartition`, `EntityLookup` | the ontology partition and the entity lookup |

## What the code does not give

Each of these is stated as a lemma with the exact condition or with an input that shows it.

- A holdings row that is UNRESOLVED in one run may be RESOLVED in the next (`HoldingsRuns.UnresolvedMayResolveLater`, `HoldingsRuns.SecondRunAgreesIff`).
- The must-hold analysis misses what follows from a double negation (`FilterTree.DoubleNegationIsMissed`), and the rewrite inspects only direct children below OR and NOT: a removed id survives exactly when it occurs deeper (`FilterTree.RemovedIdStaysIff`, with a tree in `FilterTree.DeepPredicateStays`).
- A step that already carries ranking groups cannot be executed group by group (`ComparisonGroups.SpecialisedGroupVerifies`), and an authorised group need not become a step of its own: everything the step asks for must be rankable inside the group (`ComparisonGroups.SpecialisedGroupHasOneContract`; `ComparisonGroups.AuthorisedGroupMayNotSpecialise` gives a step).
- Concept rows are inserted once, under the category met first, and the domain gate compares that category: it refuses a rebuild exactly when a concept is used under another one (`RelationDomains.GateAcceptsRebuild`; `RelationDomains.SharedConceptIsRefused` gives a row). The mapping table gives every concept one category (app/ontology/runtime_mapping.py:221-298).
- Readiness counts the snapshot rows of the four datasets, so one row left by an earlier generation makes every later call rebuild (`SnapshotLifecycle.RebuildIsSkippedIff`); a failure while the report is read marks FAILED the snapshots whose tables are already committed (`SnapshotLifecycle.CaughtFailureRestoresIff`).
- The policy of no first-row selection is not kept by the bonds table (`RowOrder.BondDateFollowsFirstRow`), by the risk code that stands in for a missing risk name (`RowOrder.RiskGradesOfBond`, `RowOrder.CodeStandsInForName`) or by the credit rating, where the last row wins (`RowOrder.RatingFollowsLastRow`).
- Issuer ids are stored in upper case and looked up as they come, so a second run over the issuer records may write again: it is idle exactly when the tables between the runs have every record at rest (`SecurityIssuers.SecondRunIdleIff`; `SecurityIssuers.LowerCaseIdMayTurnAmbiguous` shows records that are not).
- Two issuers may end on one organization: exactly when the second's identifier is that organization's or, without an owner, its name leads there alone (`SecurityIssuers.SharesOrganizationIff`); beside a new organization that means one legal-name key (`SecurityIssuers.SameNameSharesOrganization`).
- Ingesting one dataset drops the identifier conflicts of every dataset of the snapshot; only the run over all workbooks restores them (`IdentifierConflicts.IngestedConflicts`, `IdentifierConflicts.Runner.IngestAll`).

## Model

| member | source | states |
|---|---|---|
| HoldingsIntegrator.Integrator.Integrate | app/data/holdings.py:200-236 | One run over the holdings equals the table function `Integrate`; when a row raises, the tables are put back and nothing is reported |
| HoldingsIntegrator.Integrator.IntegrateRow | app/data/holdings.py:205-235 | One row: both resolutions, the recorded row, the HOLDS fact and the issuer fact are exactly one `Step` of the tables |
| HoldingsIntegrator.Integrator.ResolveProduct | app/data/holdings.py:316-346 | Product resolution by ISIN, then ticker, then provider id, with the ETF requirement, and the error for an unreviewed provider |
| HoldingsIntegrator.Integrator.ResolveSecurity | app/data/holdings.py:348-424 | Security resolution: the first ambiguous key ends it, several owners are ambiguous, one owner takes the remaining keys, none founds a security only on an allowed identity |
| HoldingsIntegrator.Integrator.AttachIdentifiers | app/data/holdings.py:426-448 | The loop inserts each key unless it is already owned, exactly as `Attach` |
| HoldingsIntegrator.Integrator.LookUp | app/data/holdings.py:450-485 | Under the unique index a lookup writes nothing, is ambiguous exactly for an open collision case, and otherwise answers the one live owner or that there is none |
| HoldingsIntegrator.Integrator.UpsertHoldsFact | app/data/holdings.py:522-553 | Four inserts or ignores: the fact is stored with this row as evidence, earlier details are kept, and the answer is by how much the facts grew |
| IdentityInvariants.LookUpNeverWrites | app/data/holdings.py:450-485 | In every valid state the branch for several owners is unreachable, so looking up writes nothing |
| IdentityInvariants.OwnershipIsStable | app/data/v2_schema.py:507-514 | In every later reachable state a key that a validated identifier gave to an owner still belongs to that owner |
| IdentityInvariants.ProductStable | app/data/holdings.py:316-346 | A product once answered is answered the same in every later state |
| IdentityInvariants.FoundOwnersIs | app/data/holdings.py:366-392 | The loop over the candidate keys finds exactly the securities that own one of them, unless a key is contested |
| IdentityInvariants.ResolveSecurityLeaves | app/data/holdings.py:348-424 | After any resolution the tables are valid and only grew, and a resolved row claims its security through a key it owns |
| IdentityInvariants.ResolvedIsForever | app/data/holdings.py:348-424 | A row resolved to a security resolves to the same security, without a new one, in every later reachable state |
| IdentityInvariants.ResolvedTakesUnownedKeys | app/data/holdings.py:426-448 | After a row resolves, each of its keys that nobody owned belongs to its security; keys of a non-security owner stay where they are |
| IdentityInvariants.AttachClaims | app/data/holdings.py:426-448 | After attaching, the owner has every candidate key that was free or its own |
| HoldingsRuns.StepLeaves | app/data/holdings.py:205-235 | After a completed row the row is recorded, its product answer is fixed, and it is finished unless it was UNRESOLVED |
| HoldingsRuns.StepIdle | app/data/holdings.py:205-235 | A finished row writes nothing when it is taken again and inserts no fact |
| HoldingsRuns.RunFinishes | app/data/holdings.py:200-236 | At the end of a run every row that was not UNRESOLVED is finished, whatever later rows did |
| HoldingsRuns.TallyConserves | app/data/holdings.py:200-236 | Every row is counted under one product and one security status, and eligible = facts + deduplicated |
| HoldingsRuns.ReportConserved | app/data/holdings.py:200-236 | The counts of every completed run add up and the HOLDS count is the number of facts the tables gained |
| HoldingsRuns.EligibleRowsArePosted | app/data/holdings.py:522-553 | Every eligible row of a completed run has its HOLDS fact stored and evidenced by its own assertion |
| HoldingsRuns.ReintegrationIsIdle | app/data/holdings.py:200-236 | A second run after a run without UNRESOLVED securities changes no table, inserts no fact and counts every eligible row as deduplicated |
| HoldingsRuns.SecondRunAgreesIff | app/data/holdings.py:200-236 | The second run agrees with the first on the number of UNRESOLVED rows exactly when no unresolved row has a key owned by a security between the runs; it then writes nothing |
| HoldingsRuns.RepeatedRunsConverge | app/data/holdings.py:200-236 | Repeated runs reach a fixpoint within one more run than the first run had UNRESOLVED rows |
| HoldingsRuns.UnresolvedMayResolveLater | app/data/holdings.py:348-424 | Two concrete rows: the first is UNRESOLVED in run one and, taken again in the tables that run leaves, is RESOLVED |
| FilterTree.Analyse | app/data/metric_capabilities.py:754-783 | The recursion computes the guaranteed ids and the ids the tree mentions |
| FilterTree.GuaranteedIsSound | app/data/metric_capabilities.py:754-783 | A guaranteed predicate is true in every assignment that satisfies the tree |
| FilterTree.GuaranteedIsExact | app/data/metric_capabilities.py:754-783 | On NOT-free trees the guaranteed ids are exactly the entailed ones |
| FilterTree.DoubleNegationIsMissed | app/data/metric_capabilities.py:754-783 | Under a double negation an entailed predicate is not found |
| FilterTree.EqFilter | app/data/metric_capabilities.py:750-783 | The loop over the filters returns the value of the first trusted equality filter on the field |
| FilterTree.TrustedIffForced | app/data/metric_capabilities.py:750-783 | On NOT-free trees with distinct ids a filter is trusted exactly when every admitted row satisfies it |
| FilterTree.EqualityIsForced | app/data/metric_capabilities.py:750-783 | A reported value is carried by every admitted row; on NOT-free trees nothing is reported only when no such equality is forced |
| FilterTree.WithoutIsDrop | app/data/metric_capabilities.py:795-829 | When the rewrite succeeds, the new conjuncts are the old ones without the removed predicates, in order |
| FilterTree.WithoutKeepsMeaning | app/data/metric_capabilities.py:795-829 | The old tree is equivalent to the new one together with the removed conjuncts, and no removed id is left among the conjuncts |
| FilterTree.WithoutKeepsShape | app/data/metric_capabilities.py:795-829 | A well-formed tree stays well formed or becomes absent, and absent exactly when no conjunct is left |
| FilterTree.WithoutIdempotent | app/data/metric_capabilities.py:795-829 | Removing the same ids again removes nothing |
| FilterTree.RemovedIdStaysIff | app/data/metric_capabilities.py:795-829 | A removed id is still somewhere in the rewritten tree exactly when the old tree has it two or more levels below a conjunct that is not AND |
| ComparisonContracts.AumContractsAreNotMixed | app/data/metric_capabilities.py:336-345 | A KRW or USD size contract is given only for the domestic universe or when every admitted row carries the currency or country equality |
| ComparisonPlans.SemanticsIdempotent | app/data/metric_capabilities.py:832-842 | Dropping the resolution notes of a contract document twice is dropping them once, at every depth |
| ComparisonPlans.PlansAgreeIff | app/data/metric_capabilities.py:665-705 | Two contract documents agree up to the resolution note exactly when they come from one contract |
| ComparisonPlans.GroupsMatchOperands | app/data/metric_capabilities.py:515-605 | A split has one group for each expanded operand, all different, and is group-wise exactly when there are at least two |
| ComparisonPlans.RunPrepare | app/data/metric_capabilities.py:347-513 | The passes over sort, requested fields, limit, comparison and filters, then one contract per field, compute `Prepare` |
| ComparisonPlans.LedgerIgnoresOutputs | app/data/metric_capabilities.py:347-513 | No output that preparation writes is read by it |
| ComparisonPlans.PrepareIdempotent | app/data/metric_capabilities.py:347-513 | Preparing a prepared step changes nothing and reports the same |
| ComparisonGroups.VerifiedInputs | app/data/metric_capabilities.py:721-747 | A step is accepted exactly when it needs no split, raises no reason, and carries distinct contracts each equal to the recomputed one |
| ComparisonGroups.MatchesIsSameContract | app/data/metric_capabilities.py:721-747 | A supplied plan matches exactly when the recomputed contract of its field is the same contract |
| ComparisonGroups.PreparedIsAccepted | app/data/metric_capabilities.py:721-747 | What preparation leaves executable is accepted |
| ComparisonGroups.SpecialisedGroupVerifies | app/data/metric_capabilities.py:614-663 | The step made for one group is accepted exactly when the step it was made from carried no groups |
| ComparisonGroups.GroupDatasetsDiffer | app/data/metric_capabilities.py:515-605 | Different groups of a split are ranked under contracts of different datasets |
| ComparisonGroups.GroupIsAuthorised | app/data/metric_capabilities.py:293-335 | The universe and grain of a ranking group are authorised for exactly the contract of the group |
| ComparisonGroups.NeverTwoContracts | app/data/metric_capabilities.py:497-508 | No step yields two different contracts for one field, so the reason for that is never given |
| ComparisonGroups.PreparedCleanIff | app/data/metric_capabilities.py:347-513 | Preparation leaves nothing unsupported and gives no reason exactly when every ranking is split or authorised, every requested return and compared field is authorised, a top-n has a ranking, the comparison is valid, and no filter is on the risk grade or on something that is no rating |
| ComparisonGroups.SpecialisesIff | app/data/metric_capabilities.py:614-663 | A group becomes a step exactly when the step has nothing unsupported and the group, no conjunct stops the rewrite of the tree, and the step scoped to the group is served |
| ComparisonGroups.AuthorisedInGroup | app/data/metric_capabilities.py:293-345 | Inside a group exactly these fields are authorised: domestic, every return and the size; elsewhere, the one-year return, and the size where currency or country is forced |
| ComparisonGroups.SpecialisedGroupHasOneContract | app/data/metric_capabilities.py:614-663 | A step without groups of its own has a group specialised exactly when it ranks by the one-year return, is split into the group, and asks for nothing that cannot be ranked inside it; the group then carries exactly one one-year-return contract, its own |
| CanonicalTables.OrderFollowsKeys | app/data/v2_rebuild.py:559-570 | Every table is flushed once and after the tables its foreign keys name |
| CanonicalTables.LastPerIdSuffices | app/data/v2_rebuild.py:571-573 | Upserting the last row of each fact id leaves what upserting all rows in turn would leave |
| CanonicalTables.LastPerIdDistinct | app/data/v2_rebuild.py:571-573 | The batch sent to the upsert names no fact twice |
| CanonicalTables.FlushIsSequential | app/data/v2_rebuild.py:558-595 | A flush that completes leaves in every table what its rows, one at a time, would have left |
| CanonicalTables.FlushSucceeds | app/data/v2_rebuild.py:558-595 | When every reference names a stored row or a row of the same buffer, no statement of the flush fails |
| RowBuffer.AddUnitRows | app/data/v2_rebuild.py:551-556 | Adding rows one after the other appends to each table exactly its own rows, in order |
| RowBuffer.Rows.InsertChunks | app/data/v2_rebuild.py:578-595 | Inserting in statements of at most 500 rows is the chunked execution of the batch |
| RowBuffer.Rows.Flush | app/data/v2_rebuild.py:558-595 | A completed flush empties the buffer and stores the rows as if put one at a time; it fails exactly when a statement fails |
| RowBuffer.BatchingRefinesRowAtATime | app/data/v2_rebuild.py:866-884 | For every batch size and flush schedule a completed load leaves the tables of the unbuffered load |
| RebuildUnits.UnitParents | app/data/v2_rebuild.py:1080-1151 | Whatever processing a row adds finds every row that its foreign keys name among the rows added for the same source row |
| RebuildUnits.ConflictParents | app/data/v2_rebuild.py:1965-1999 | What the conflict cases add refers to itself and to rows added with the source rows that state the disputed values |
| RebuildUnits.RebuildLoads | app/data/v2_rebuild.py:866-884 | For every schedule of flushes that ends in one, the rebuild's rows load without a missing parent or a repeated upsert key and leave what no buffering would leave, in tables a later rebuild can start from |
| RebuildUnits.RebuiltIsTwoPass | app/data/v2_rebuild.py:866-884 | From empty tables the loaded fact and link tables hold exactly the facts and links of the two passes |
| RebuildUnits.RebuiltTypedRows | app/data/v2_rebuild.py:1411-1423 | Every fact that is no candidate has its typed row, and outside credit ratings that row says what the two passes store under the fact |
| RebuildUnits.FirstRebuild | app/data/v2_rebuild.py:866-884 | Into empty tables, rows that pass the count check load under every schedule of flushes and leave the facts, links and typed rows of the two passes |
| RowBuffer.LoadAll | app/data/v2_rebuild.py:866-884 | The loading loop with its size test and its flush at the end of each file is the scheduled load |
| SnapshotLifecycle.Rebuilder.Rebuild | app/data/v2_rebuild.py:847-904 | A call runs audit, staging, load, commit and report, and on a failure marks the snapshots, exactly as `Run` |
| SnapshotLifecycle.TablesChangeOnlyByCommit | app/data/v2_rebuild.py:866-897 | Canonical tables change only in a committing call, and then by exactly its rows |
| SnapshotLifecycle.StatusAfterRun | app/data/v2_rebuild.py:847-904 | A completed call leaves its snapshots READY, a recorded failure leaves all FAILED, an unrecorded one STAGED or READY |
| SnapshotLifecycle.CaughtFailureRestoresIff | app/data/v2_rebuild.py:885-904 | A caught failure leaves the tables as they were exactly when it struck before the commit; a failure of the report marks FAILED what is committed |
| SnapshotLifecycle.HistoryIsSafe | app/data/v2_schema.py:101 | Over every history of calls and failures READY implies PASSED and reconciled, and the tables are the initial ones plus the committed rows |
| SnapshotLifecycle.RebuildIsSkippedIff | app/data/v2_rebuild.py:992-1018 | After a completed call the next one is skipped exactly when the four datasets had no other snapshot of the date |
| TwoPassRun.Rebuild.AuditRow | app/data/v2_rebuild.py:943-974 | One audited row adds exactly its stated values and its price date to the value sets |
| TwoPassRun.Rebuild.Audit | app/data/v2_rebuild.py:906-941 | Pass one ends with exactly the values that the rows state, so it knows which fields the rows disagree about and the latest price dates |
| TwoPassRun.Rebuild.Assertions | app/data/v2_rebuild.py:1187-1243 | The asserted columns of the row are added and no others |
| TwoPassRun.Rebuild.Entities | app/data/v2_rebuild.py:1245-1300 | Described entities with their names, lots and classes with their parents, products with their types and bonds with their dates stay what the first row of each gave |
| TwoPassRun.Rebuild.StoreConcepts | app/data/v2_rebuild.py:1621-1626 | The concepts that a row maps to are stored, and one that is stored keeps the category it was met under first |
| TwoPassRun.Rebuild.RememberConflictAssertions | app/data/v2_rebuild.py:1153-1185 | A disputed value is remembered with exactly the assertions that state it |
| TwoPassRun.Rebuild.Put | app/data/v2_rebuild.py:1411-1423 | What is emitted is stored and linked, nothing stored is lost, and of two bodies under one id the first stays, or for a metric the last |
| TwoPassRun.Rebuild.Emit | app/data/v2_rebuild.py:1361-1935 | An emitter visits its places of the row in order and adds exactly their facts and links |
| TwoPassRun.Rebuild.ProcessRow | app/data/v2_rebuild.py:1080-1151 | After a row the tables hold what the rows so far emit |
| TwoPassRun.Rebuild.AddCase | app/data/v2_rebuild.py:1965-1981 | A case lists one candidate for each value of the disputed field and adds each with its assertions |
| TwoPassRun.Rebuild.AddConflictCases | app/data/v2_rebuild.py:1965-1999 | There is one case for each disputed field, and facts and links are exactly what was emitted |
| TwoPassRun.Rebuild.Run | app/data/v2_rebuild.py:866-884 | Both passes from empty tables: facts, links, products, bonds, ratings, assertions and cases are exactly those the rows determine |
| TwoPassFacts.EveryFactIsEvidenced | app/data/v2_rebuild.py:1946-1953 | Every stored fact has a link, and every link leads from a stored fact to an assertion of a stored record |
| TwoPassFacts.RowEmissionIsEvidenced | app/data/v2_rebuild.py:1411-1438 | Whatever a row emits on any path is linked to at least one of its own assertions and to no others |
| TwoPassFacts.NoFirstRowSelection | app/data/v2_rebuild.py:1361-1399 | For each audited bond and fund field a resolved fact is stored exactly when all rows stating the field state one value and the fact is what it means |
| TwoPassFacts.DisagreementLeavesNothing | app/data/v2_rebuild.py:420-422 | Two distinct values of a field leave no resolved fact for it |
| TwoPassFacts.OneFactPerColumn | app/data/v2_rebuild.py:1628-1726 | A field of a product never has two resolved facts |
| TwoPassFacts.CandidateLinks | app/data/v2_rebuild.py:1965-1999 | A candidate fact is linked to exactly the assertions of the rows that state a value with its normal form, and exists exactly when there is a dispute and such a row |
| RowOrder.OneBodyPerFact | app/data/v2_rebuild.py:1937-1944 | Two emissions under one fact id have one typed row, for every kind of fact but the credit rating |
| RowOrder.OrderOfRowsDoesNotMatter | app/data/v2_rebuild.py:906-974 | Two rebuilds from the same rows in any orders store the same facts, typed rows and evidence, but for credit ratings |
| RowOrder.CountCheckIff | app/data/v2_rebuild.py:2073-2085 | The count of stored records equals the count of accepted rows exactly when no source key is repeated |
| RowOrder.RiskGradesOfBond | app/data/v2_rebuild.py:2298-2306 | A bond has a risk grade exactly when its names agree and some row maps its name, or in its absence its code, to it |
| RowOrder.CodeStandsInForName | app/data/v2_rebuild.py:2298-2306 | Two valid rows of one bond that disagree in no column give it two risk grades |
| RowOrder.BondDateFollowsFirstRow | app/data/v2_rebuild.py:1253-1256 | The issue date and the maturity date of the bonds table are the resolved ones exactly when there is none or the first row of the bond states one |
| RowOrder.RatingFollowsLastRow | app/data/v2_rebuild.py:1913-1934 | The stored rating is the same for every order of the rows exactly when no two rows write different ratings |
| RelationDomains.GateAcceptsRebuild | app/data/v2_rebuild.py:2073-2098 | When every row has its own record, as the count check before the gate demands, no note has a manager or an issuer and the gate passes exactly when no concept is used under a category other than its stored one, so always when no concept has two |
| RelationDomains.NotesHaveNoManagerOrIssuer | app/data/v2_rebuild.py:453-548 | When the rows of each product agree on its group, no ETN has a manager or an issuer, and every relation and classification is inside its contract exactly when no concept is used under a category other than its stored one |
| RelationDomains.RelationTargetInRange | app/data/v2_rebuild.py:1628-1772 | Every relation target has the kind and role that the contract of the relation names |
| OntologyPartition.AssignBlank | scripts/modularize_ontology.py:139-150 | The worklist stops, visits exactly the blank nodes reachable from its root, and gives their triples to the module |
| OntologyPartition.Partition | scripts/modularize_ontology.py:131-176 | Refused for a shared blank node exactly when one is reached from two modules, accepted exactly when none is and every triple hangs below a named subject; the parts are then disjoint and make up the source |
| OntologyPartition.CheckIsomorphic | scripts/modularize_ontology.py:171-175 | For a part of the source the isomorphism test is equality |
| OntologyPartition.IsomorphicPartIsWhole | scripts/modularize_ontology.py:171-175 | A part of a finite graph is isomorphic to the graph exactly when it is the graph |
| OntologyPartition.OwnersTellCrossing | scripts/modularize_ontology.py:163-169 | The recorded owners show a node with two modules exactly when some blank node is reached from two modules |
| EntityLookup.ExactMatches | app/entity/lookup.py:43-92 | The exact matches returned are exactly those of the best tier, none when nothing matches |
| EntityLookup.FindExact | app/entity/lookup.py:50-81 | The first name of the entity with the form of the query decides its tier |
| EntityLookup.LookUp | app/entity/lookup.py:43-159 | Exact matches when there are any, with ambiguity; otherwise the accepted head of the first ten of the ranking, every candidate judged |
| EntityLookup.Sort | app/entity/lookup.py:133 | The ranking is a permutation of the scored matches, best first and by id among equals |
| EntityLookup.BestNameIsBest | app/entity/lookup.py:111-122 | The matched name scores at least as much as every other name of the entity |
| EntityLookup.RegistryOrderDoesNotMatter | app/entity/lookup.py:105-142 | Ranking and acceptance are the same for every order of the registry |
| EntityLookup.AcceptedIsPrefix | app/entity/lookup.py:134-142 | What is accepted is a head of the ranking; what follows is worse by the margin |
| EntityLookup.UniqueMatchIffClearWinner | app/entity/lookup.py:105-159 | There is one accepted match exactly when one entity reaches the threshold and every other eligible entity of the whole registry is worse by the margin |
| IssuerIntegrator.SourceConflicts | app/data/security_issuers.py:324-339 | Exactly the tickers with two issuers and the issuers with two legal names |
| IssuerIntegrator.Integrator.ResolveOrganization | app/data/security_issuers.py:367-431 | By identifier, by the one organization of that name, or a new organization, with identifier and alias inserted or ignored |
| IssuerIntegrator.Integrator.IntegrateRow | app/data/security_issuers.py:148-193 | One record is one `Step` of tables, report and security standings |
| IssuerIntegrator.Integrator.Integrate | app/data/security_issuers.py:134-194 | The run over the records is `Run`, under exactly the conflicts of the source |
| SecurityIssuers.ReportBalances | app/data/security_issuers.py:134-194 | Existing + created + ambiguous + conflict organizations are the resolved securities, facts + deduplicated are the evidence links, and every record has one security status |
| SecurityIssuers.ResolvedIffEvidenced | app/data/security_issuers.py:459-520 | After a run over new records a record is RESOLVED exactly when a fact is evidenced by its own assertion |
| SecurityIssuers.SecondRunIdleIff | app/data/security_issuers.py:134-194 | A second run leaves all tables as they are exactly when the tables between the runs have every record at rest; it then repeats the standings, adds no fact and deduplicates; ids in stored form always meet the condition |
| SecurityIssuers.StepKeepsSettled | app/data/security_issuers.py:367-431 | No other record undoes the standing of a record: the identifier of an ambiguous name is not claimed by a record of the same issuer |
| SecurityIssuers.IdleIffAtRest | app/data/security_issuers.py:148-193 | A recorded row writes nothing exactly when its record says what the tables now resolve its issuer to and that organization has identifier, alias, fact and the row's own evidence |
| SecurityIssuers.SharesOrganizationIff | app/data/security_issuers.py:367-431 | After one issuer is resolved, another ends on the same organization exactly when its identifier is or has become that organization's or, without an owner, no other organization goes by its name and this one does or would be founded for it |
| SecurityIssuers.SameNameSharesOrganization | app/data/security_issuers.py:396-408 | An issuer without an owner joins an organization just founded for another exactly when the legal names have one key |
| SparseEvidence.SparseIsDense | app/data/evidence.py:52-92 | For every record and mapped column the sparse lookup succeeds and equals the lookup in the store with one assertion per cell |
| SparseEvidence.LookupFailsIff | app/data/evidence.py:71-80 | The lookup fails exactly for an unknown record or a present cell of an unmapped column |
| SparseEvidence.CleanedIsMissingIffNull | app/data/cleaning.py:45-63 | After cleaning a cell counts as missing exactly when it is null |
| SparseEvidence.Store.Transform | app/data/ontology_transform.py:58-83 | The loop over the mappings stores exactly the assertions that are not missing |
| SparseEvidence.Store.Load | app/data/ontology_transform.py:34-83 | A new record joins the store and the store stays sparse |
| SparseEvidence.Store.Find | app/data/evidence.py:52-92 | In a sparse store the lookup of a mapped column finds what an assertion of the cell would say, stored or not, and fails exactly for an unknown record or an unmapped column with a value |
| SnapshotIngest.Ingestor.DeleteExisting | app/data/ingest.py:401-470 | In a consistent database the deletions remove exactly what the dataset and snapshot own and the conflicts of the snapshot |
| SnapshotIngest.StageRow | app/data/ingest.py:346-398 | With the sets seen so far a row stages exactly the entries it adds |
| SnapshotIngest.ReadRow | app/data/ingest.py:202-293 | A row is loaded or quarantined, and counted, by the first reason that applies |
| SnapshotIngest.Ingestor.LoadRows | app/data/ingest.py:194-296 | For every batch size the database gains exactly the entries of the rows, and no insert meets a key that is there |
| SnapshotIngest.Ingestor.Ingest | app/data/ingest.py:155-343 | An unchanged workbook is skipped; otherwise the database is the other rows and the entries of this workbook, and stays consistent |
| SnapshotIngest.OnlyTheInputCounts | app/data/ingest.py:155-343 | What the dataset holds for the snapshot depends on the rows alone; every other row is untouched but for the conflicts of the snapshot |
| SnapshotIngest.IngestedIsValid | app/data/ingest.py:401-470 | No child row is orphaned by the replacement |
| ReplaceSnapshot.EntriesAreProper | app/data/ingest.py:199-296 | What the rows give hangs together and each row adds only new keys |
| ReplaceSnapshot.CountsAddUp | app/data/ingest.py:299-302 | Rows read = loaded + quarantined, duplicates are quarantined, and the loaded rows have as many distinct records |
| IdentifierConflicts.Runner.Rebuild | app/data/ingest.py:128-153 | Afterwards the conflicts of the snapshot are exactly the identifiers that several products share, and every other row is untouched |
| IdentifierConflicts.IngestedConflicts | app/data/ingest.py:402 | An ingestion leaves no conflict of its snapshot and keeps the conflicts of every other snapshot right |
| IdentifierConflicts.Runner.IngestAll | app/data/ingest.py:97-126 | When the conflicts of every snapshot were right before a run over any workbooks, they are right after it |

## Left out

- IdentityStore: holding weights and units beside the fact, the set of source products in the report, and the registration and validation of snapshots and sources before the loop.
- SecurityIssuers.Run: the same registration, the order of the records (the run takes them in the order of their ids), the branch for an identifier with several organizations, which the partial unique index excludes, and identifiers of the scheme that belong to other kinds of entity, which the pipeline never writes; aliases have one type.
- TextForms: case folding and stripping are ASCII; the proofs use only that they are functions.
- FilterTree: field aliases are taken as resolved before the analysis.
- ComparisonPlans: the disclosure text of a contract and of its resolution note.
- CanonicalTables: foreign keys to tables that the buffer does not hold, namely snapshots, metric definitions, product types, identifier schemes and ingestion runs.
- SnapshotLifecycle: the hard-coded row counts and the details of reconciliation are one point of failure; metric definitions are not seeded.
- RebuildRows.Row: validation and mapping of workbook rows; a row arrives with its key, group and family. Cells are text, so a numeric zero that the source reads as absent is not told apart.
- RebuildRows.Lexicon: readings of dates, numbers, currencies, countries, ontology concepts, product suffixes and normal forms are arbitrary functions.
- TwoPassRun.Rebuild: aliases, identifiers and their collisions, the crosswalk, quarantined rows, resolution cases and classification counts; one value map stands for the bond and the fund map, whose keys are of different kinds; units and scales of metrics.
- TwoPassRun.Rebuild.Entities: listing dates of exchange-traded products, market, date and sequence of a lot.
- RebuildUnits.UnitItems: aliases, identifiers and their collisions, the crosswalk, resolution cases and quarantined rows; the row number is told by the record, since each record has one row; unique constraints that repeat the primary key in other columns; the natural key of a lot, under which a second lot would be ignored.
- RebuildUnits.RebuildLoads: starts from tables that hold rows of the forms it writes; what other components add to the entity tables is not among them.
- RelationDomains: the contracts of HOLDS and SECURITY_ISSUED_BY, which the rebuild does not emit.
- OntologyPartition.Partition: the table of module names is a parameter, subjects come in any order, and a blank-node isomorphism test is stood for by equality, which it is proved to be here.
- EntityLookup: similarity, comparison forms and organization compatibility are arbitrary functions; scores are whole millionths, so the rounding of binary fractions at the margin is not modelled; an entity without an official name is not modelled.
- SparseEvidence: identifiers, observations, relations, codes and documents that are derived from the same cells.
- SnapshotIngest.Ingestor.Ingest: coverage statistics, quality profiles, dry runs and row limits; a payload is its text; the checks on a row are given as their verdicts; a flush inserts its tables together, where the source inserts them table by table with parents first; the identifiers mapped from one row are a set, so one repeated within a row is not told apart.
- IdentifierConflicts: the list of products in a conflict row.
- The HTTP application, the agent, the language-model clients, the crawlers and the activation scripts.
- External metrics: the same insert-or-ignore pattern without the creation of identifiers.
- Text normalisation, file hashing, workbook reading and SQL.
