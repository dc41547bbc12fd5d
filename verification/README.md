# A verified model of evalhub's store and query compiler

evalhub keeps evaluation records in Postgres: Cards, Evals, and the runs of an
Eval. This project models the parts of it that decide what is true of the data
over time and what a query answers, and proves properties of them in Dafny.

`dafny verify dfyconfig.toml` checks everything.

## What is modelled

**The run projection** (`Grammar`, `Paths`, `Typecheck`, `Sql`, `RunSql`,
`RunPaging`, `RunMeaning`, `RunProjection`, `RunMasking`, `Quoting`). A `where`
document is lowered, parsed, checked against a path table and compiled to a
statement. The statement is a tree, and an evaluator gives it the meaning
Postgres does: three truth values, NULL placement, the masking of runs a reader
may not see. Path literals, jsonpaths and LIKE patterns stay text inside the
tree and are read back by the evaluator, so quoting is part of the proof. Three
results carry this part. `RunProjection.RequestAnswers` says that the answer is
exactly the listed runs whose filter is true of what the reader sees.
`RunPaging.FollowCursors` says that following cursors yields all of it, in
order, each row once. `RunMasking.MaskingIsTotal` says that nothing of a hidden
run shows in any page.

**The run store** (`RunRules`, `RunTables`, `RunHistory`, `RunStore`,
`RunHash`, `RunVisibility`). `RunStore.EvalRuns` is the object whose tables the
writes change; each method is proved against a function on values in
`RunTables`, and `RunHistory` proves what those functions keep over every
history, and that a batch is its puts.

**Cards** (`UsedSet`, `CardStore`, `CardHistory`, `Migration`). Which runs of an
Eval a Card used is fixed when it is posted and can only grow; the migration
from 0.1 rebuilds it from the versions a Card points at, and leaves stores that
meet the invariants of the run tables and of the Cards.

**Locks** (`Locks`). Transactions take record-row locks one at a time and
interleave. What a Card records is what the rule for used sets gives at the
moment it commits, and no set of transactions waits in a circle.

**Records** (`RecordKeyset`, `RecordRender`, `Versions`, `Refs`, `Traverse`).
Paging over records, which record queries cannot be rendered, the sequence of a
record's versions, and the walk over relations.

`Prelude`, `Text`, `Json`, `Ir`, `Validate`, `Errors` and `Backend` are shared
vocabulary. `Backend` holds what is taken from outside: the collation (a text's
place in the order), the RFC 3339 codec, array subscripts and jsonpath escapes;
`Backend.Sound` says what is asked of them, and `Backend.SoundBackend` that all of
it can be had at once. Canonicalisation with sha256 is
injective, and so is a digest's hexadecimal where a lemma asks for `Faithful`.

## Where the code and its documentation part

The model follows the code. Each point is a lemma with the exact condition, and
where something fails an input that shows it.

- `jsonpath` escapes the quote and not the backslash: the path asked for is the
  path meant if and only if no segment holds a backslash
  (`Quoting.JsonPathReadsBack`, `RunMeaning.PathExistsExact`), as
  `ext.a/b.k\n` does (`RunProjection.SlashedIsMissed`). A path that reads as
  no member path fails the statement (`RunProjection.CastsExactly`).
- An unregistered `ext.{ns}.{key}` is split at the first dot on the ground that
  a namespace has none, but a slug may have one (`Paths.UnregisteredPath`,
  `Paths.DottedNamespaceIsSplit`).
- `eq` on an untyped path is containment, which is equality if and only if the
  literal is a scalar (`Json.ContainmentIsEquality`, `Json.ContainedIsNotEqual`).
- The keyset over records is not aware of NULL: a row that sorts after for a
  NULL is lost, a row with a NULL key makes a cursor that is refused, and
  without a sort the predicate compares `version_id` alone while the order
  leads with `created_at` (`RecordKeyset.UnbrokenBySort`,
  `RecordKeyset.CursorUsable`, `RecordKeyset.UnbrokenByAge`; the inputs are those
  of `RecordKeyset.NullIsLost`, `RecordKeyset.NullCursorIsRefused` and
  `RecordKeyset.OlderIsLost`).
- `in` and the other operators on a fingerprint pass the check and are refused
  by the store (`RecordRender.RendersExactly`, `RecordRender.FingerprintInIsRefused`).
- The ingest rule for used sets, applied again after a late edge, can lose runs;
  the store unites instead (`UsedSet.RecomputedKeeps`, `UsedSet.RecomputedLoses`).
- The grammar document asks for one term or more in `and` and `or`; the code
  accepts none, and the empty junctions mean true and false
  (`Grammar.LowerExact`, `RunMeaning.FilterMeans`).

## Model

| member | source | states |
|---|---|---|
| Quoting.EscapeLike | crates/evalhub-store/src/query_sql.rs:881-890 | the loop leaves the text with a backslash before each `%`, `_` and backslash: the `Escaped` of the two pattern lemmas |
| Quoting.PrefixPattern | crates/evalhub-store/src/query_sql.rs:775-790 | for all texts, `LIKE` with `escape_like(s)%` holds exactly of the texts that begin with `s` |
| Quoting.ContainsPattern | crates/evalhub-store/src/query_sql.rs:775-790 | for all texts, `LIKE` with `%escape_like(s)%` holds exactly of the texts in which `s` stands somewhere |
| Quoting.ArrayLiteral | crates/evalhub-store/src/query_sql.rs:208-239 | a path renders exactly when it is not empty and no segment is empty or holds a control character, and then to the literal of `LiteralReadsBack` |
| Quoting.LiteralReadsBack | crates/evalhub-store/src/query_sql.rs:208-239 | reading the rendered path through the quoting of the SQL string and then of the array literal gives the path back, so rendering is injective |
| Quoting.JsonPath | crates/evalhub-store/src/query_sql.rs:864-877 | a jsonpath renders exactly when no segment holds a control character |
| Quoting.JsonPathReadsBack | crates/evalhub-store/src/query_sql.rs:864-877 | a rendered jsonpath reads back as its path if and only if no segment holds a backslash, which the source does not escape |
| Quoting.SlashedReadsElsewhere | crates/evalhub-store/src/query_sql.rs:864-877 | the path `ext`, `a/b`, `k\n` reads back with a line feed for its last two characters |
| Json.ContainsNest | crates/evalhub-store/src/query_sql.rs:855-861 | containment of a nested document asks about the one member at the path, and nothing else |
| Json.ContainmentIsEquality | crates/evalhub-store/src/query_sql.rs:693-710 | `eq` on an untyped path is containment; it is equality for every stored value if and only if the literal is a scalar |
| Json.ContainedIsNotEqual | crates/evalhub-store/src/query_sql.rs:693-710 | `[1, 2]` contains `[1]` and does not equal it |
| Grammar.RejectExtraKeys | crates/evalhub-query/src/grammar.rs:450-464 | every key not allowed becomes one error, pushed after the errors already there |
| Grammar.LowerTermInto | crates/evalhub-query/src/grammar.rs:428-448 | a `match` term becomes its explicit form, a bare literal meaning `eq`; its problems are pushed in order |
| Grammar.LowerLeafInto | crates/evalhub-query/src/grammar.rs:348-422 | a leaf is lowered by its operator; its problems are pushed in order |
| Grammar.LowerInto | crates/evalhub-query/src/grammar.rs:298-346 | the whole wire filter is lowered and its problems are pushed onto the one list in the order they are met |
| Grammar.LowerExact | crates/evalhub-query/src/grammar.rs:298-448 | lowering finds no problem and the result builds exactly for the documents of the grammar, told without lowering |
| Grammar.ParseFilter | crates/evalhub-query/src/grammar.rs:257-268 | a filter is returned exactly for the documents of the grammar; otherwise the error list is not empty |
| Grammar.ParseExact | crates/evalhub-query/src/grammar.rs:257-268 | what parses, written out again, parses to the same filter |
| Grammar.ParseWire | crates/evalhub-query/src/grammar.rs:257-448 | every filter, written as a client writes it, parses back to itself |
| Paths.PrintedResolves | crates/evalhub-query/src/typecheck.rs:494-580 | for every valid metric id and every Card of the request, the printed bracketed path resolves to exactly that column and type |
| Paths.ResolvedIsPrinted | crates/evalhub-query/src/typecheck.rs:494-580 | every string accepted as a bracketed path is the printed form of the column it resolves to |
| Paths.UnregisteredPath | crates/evalhub-query/src/typecheck.rs:451-482 | `ext.{ns}.{key}` of nobody's schema means that namespace and key if and only if the namespace has no dot, although a slug may have one |
| Paths.DottedNamespaceIsSplit | crates/evalhub-query/src/typecheck.rs:451-482 | `a.b/c` is a valid id, and its `ext` path resolves to namespace `a` |
| Typecheck.CmpProblemsExact | crates/evalhub-query/src/typecheck.rs:700-808 | a comparison has no problem exactly when the path can serve it |
| Typecheck.CheckCmp | crates/evalhub-query/src/typecheck.rs:738-808 | one comparison: the operator and the literal are both checked, every problem pushed, and a result given exactly when there is none |
| Typecheck.CheckTerms | crates/evalhub-query/src/typecheck.rs:920-975 | the terms of an `any`: all problems pushed, and conditions returned exactly when every term is well typed and there is one |
| Typecheck.CheckAt | crates/evalhub-query/src/typecheck.rs:838-918 | the recursive check returns the elaborated filter exactly when it is well typed, and adds an error exactly when it is not |
| Typecheck.Check | crates/evalhub-query/src/typecheck.rs:829-836 | an error is returned exactly when the error list is not empty, exactly when the filter is not well typed |
| Typecheck.CompileFilter | crates/evalhub-query/src/typecheck.rs:997-1018 | parse and check: no error exactly when the filter parses and is well typed |
| Typecheck.CompileSorts | crates/evalhub-query/src/typecheck.rs:1239-1283 | the sort keys come out in order, all of them exactly when every path can be sorted on |
| Typecheck.CompileRuns | crates/evalhub-query/src/typecheck.rs:1191-1234 | a run request compiles exactly when filter, sort and cursor are accepted, and to the query they elaborate to |
| Sql.RowOrderStrict | crates/evalhub-store/src/run_sql.rs:418-434 | the `ORDER BY` over any keys, directions and NULLs is a strict order |
| Sql.RowsSorted | crates/evalhub-store/src/run_sql.rs:356-427 | the answer of a statement stands in strictly ascending order |
| Sql.BestIsExtreme | crates/evalhub-store/src/run_sql.rs:298-320 | the judgement a sort key picks is missing exactly when no entry has the field, and otherwise none beats it in the sort's direction |
| RunSql.PushFilter | crates/evalhub-store/src/run_sql.rs:521-541 | the pushed predicate is the rendering whose meaning `FilterMeans` proves; the first term that cannot be rendered stops it |
| RunSql.PushJunction | crates/evalhub-store/src/run_sql.rs:543-563 | the terms of a junction are pushed one after the other, all or the first error |
| RunSql.PushKeyset | crates/evalhub-store/src/run_sql.rs:437-478 | the nested loops push the disjunction that `KeysetExact` is about, or fail exactly when the cursor does not fit the sort |
| RunSql.Build | crates/evalhub-store/src/run_sql.rs:356-427 | sort plans, filter and scope make up the statement; the first part that cannot be rendered fails it |
| RunSql.FetchPage | crates/evalhub-store/src/run_sql.rs:739-777 | one page: the first rows of the answer, and a cursor exactly when there is a row more |
| RunSql.Fetch | crates/evalhub-store/src/run_sql.rs:739-777 | a query either fails to render or answers with its page |
| RunSql.OneMoreIsEnough | crates/evalhub-store/src/run_sql.rs:739-777 | reading one row more than the page decides whether there is a next page |
| RunPaging.CursorDecodes | crates/evalhub-store/src/query_sql.rs:953-979 | the cursor of a row decodes to exactly the keys of that row, NULLs and timestamps included |
| RunPaging.KeyEqualExact | crates/evalhub-store/src/run_sql.rs:480-493 | the pushed equality is TRUE exactly when the keys are the same, two NULLs being the same |
| RunPaging.KeyAfterExact | crates/evalhub-store/src/run_sql.rs:495-519 | the pushed comparison is TRUE exactly when the key comes strictly after the cursor's in `ASC NULLS LAST` or `DESC NULLS FIRST` |
| RunPaging.KeysetExact | crates/evalhub-store/src/run_sql.rs:437-519 | in three-valued logic the keyset is TRUE exactly for the rows strictly after the cursor's row, with the `run_id` tie-break |
| RunPaging.RowsAfter | crates/evalhub-store/src/run_sql.rs:437-519 | the statement continued after row i answers with exactly the rows from i + 1 on |
| RunPaging.FollowCursors | crates/evalhub-store/src/run_sql.rs:739-777 | over a statement the database takes, following `next` from no cursor ends, and the pages put together are all the rows in order, each once, all pages but the last full |
| RunPaging.RowsAreFilteredAndSorted | crates/evalhub-store/src/run_sql.rs:356-427 | those rows are exactly the listed ones whose filter is TRUE, strictly sorted, none twice |
| RunPaging.WalkQuery | crates/evalhub-store/src/run_sql.rs:739-777 | the same for every query, whatever its sort keys and page size: there are no pages exactly when it does not render or its statement fails at the database |
| RunMeaning.ResolvedRun | crates/evalhub-query/src/typecheck.rs:333-482 | whatever a path of the run table resolves to is a run column of a fitting type, served in full, or an untyped body path |
| RunMeaning.OperatorMeans | crates/evalhub-store/src/run_sql.rs:654-728 | a rendered operator has, in all three truth values, the meaning of the comparison, `in`, prefix and substring included |
| RunMeaning.ColumnMeans | crates/evalhub-store/src/run_sql.rs:233-282 | a rendered column reads the value of the run as the reader sees it |
| RunMeaning.JudgementMeans | crates/evalhub-store/src/run_sql.rs:567-578 | a judgement comparison is TRUE exactly when some entry of that Card for the run satisfies it |
| RunMeaning.CmpMeans | crates/evalhub-store/src/run_sql.rs:580-618 | one rendered comparison has the truth value of the comparison read directly |
| RunMeaning.ExistsMeans | crates/evalhub-store/src/run_sql.rs:620-650 | every rendered `exists` has the truth value of presence read directly, of the path its jsonpath reads back as |
| RunMeaning.PathExistsExact | crates/evalhub-store/src/query_sql.rs:864-877 | `exists` on an untyped path asks for that path on every run with a body if and only if no segment holds a backslash |
| RunMeaning.FilterMeans | crates/evalhub-store/src/run_sql.rs:521-728 | compilation preserves meaning: on every run the rendered predicate of every filter that checks and renders has the truth value of the parsed filter read directly |
| RunMeaning.MeansAsWritten | crates/evalhub-store/src/query_sql.rs:864-877 | where no path asked for by `exists` holds a backslash, that is the filter as written |
| RunProjection.CompareServedExact | crates/evalhub-store/src/run_sql.rs:580-728 | an accepted comparison fails to render exactly on a timestamp asked for as text or against a literal that is not RFC 3339, or on a segment that cannot be written |
| RunProjection.ExistsServedExact | crates/evalhub-store/src/run_sql.rs:620-650 | an accepted `exists` fails to render exactly on a segment that cannot be written |
| RunProjection.RendersExactly | crates/evalhub-store/src/run_sql.rs:521-728 | the same for whole filters |
| RunProjection.CastsExactly | crates/evalhub-store/src/run_sql.rs:634-641 | a rendered filter fails at the database exactly when a path it asks for by `exists` is written as no member path |
| RunProjection.RequestRendersExactly | crates/evalhub-store/src/run_sql.rs:330-427 | of the requests the front end accepts, the statement cannot be built for exactly those not served |
| RunProjection.KeysMean | crates/evalhub-store/src/run_sql.rs:284-352 | the sort keys of a row are the sort values of the run as the reader sees it, of a Card's verdicts the best |
| RunProjection.RequestAnswers | crates/evalhub-store/src/run_sql.rs:356-427 | from the wire to the rows: the answer is exactly the listed runs whose filter is true of what the reader sees, sorted, none twice; as rendered for every accepted request, as written where no `exists` path holds a backslash |
| RunProjection.SlashedIsMissed | crates/evalhub-store/src/query_sql.rs:864-877 | asked whether `ext.a/b.k\n` exists, the projection answers no of a run that has it |
| RunMasking.ResolveCards | crates/evalhub-store/src/runs.rs:1171-1205 | every Card of the request joins, in request order, or exactly the ones that do not are listed, in that order |
| RunMasking.Project | crates/evalhub-store/src/runs.rs:1141-1340 | nothing for an Eval that is missing or not visible, the Cards that do not join, which part cannot be served, or the page of `Projection` |
| RunMasking.ExprBlind | crates/evalhub-store/src/run_sql.rs:201-321 | no rendered expression reads more of a row than the reader may see |
| RunMasking.PredBlind | crates/evalhub-store/src/run_sql.rs:521-696 | nor does any predicate, however deep |
| RunMasking.RowsBlind | crates/evalhub-store/src/run_sql.rs:356-427 | two stores alike to the reader give the same rows in the same order |
| RunMasking.UsedBlind | crates/evalhub-store/src/used_set.rs:299-332 | and the same used sets, read back with their current hashes |
| RunMasking.MaskingIsTotal | crates/evalhub-store/src/runs.rs:1141-1340 | masking is total: two stores alike to the reader give the same page, for every query, cursor and set of Cards |
| RunMasking.HiddenRunsDoNotShow | crates/evalhub-store/src/run_sql.rs:362-385 | replacing a run that is not shown by another of the same id and content hash changes no page |
| RunVisibility.HiddenEditsDoNotShow | crates/evalhub-store/src/runs.rs:424-536 | deleting an archived run changes no page of any reader who is not a member |
| RunHash.Materialise | crates/evalhub-core/src/run.rs:73-86 | exactly the six facets the run lacks and the header has are copied |
| RunHash.MaterialiseKeeps | crates/evalhub-core/src/run.rs:73-86 | what the run has, `null` included, stays; a second copy from the same header changes nothing |
| RunHash.MaterialisedForGood | crates/evalhub-core/src/run.rs:73-86 | a run that has all six facets is not touched by any header |
| RunHash.RunsHashExact | crates/evalhub-core/src/run.rs:123-136 | two lists have the same `runs_hash` if and only if they hold the same pairs equally often, in whatever order |
| RunHash.SameIdsSameHashes | crates/evalhub-core/src/run.rs:123-136 | over one list of distinct ids, equal digests mean equal content hashes |
| RunHash.ChangedIdsExact | crates/evalhub-store/src/used_set.rs:349-368 | `changed_since_card` lists exactly the used runs whose posted and current hash differ |
| RunHash.SummaryTells | crates/evalhub-store/src/used_set.rs:349-368 | the posted and the current used-set hash are equal exactly when `changed_since_card` is empty |
| RunRules.PathErrorsExact | crates/evalhub-core/src/validate.rs:454-487 | no error exactly when every attachment path is relative, free of `..` and there once |
| RunRules.AttachmentPaths | crates/evalhub-core/src/validate.rs:454-487 | the set of paths a pointer may name, and one error for every bad or repeated path |
| RunRules.CheckExt | crates/evalhub-core/src/validate.rs:528-552 | one error for every `ext` key that is not an id, at the top and in every facet |
| RunRules.RunSemantic | crates/evalhub-core/src/validate.rs:690-766 | all violations of the run rules, in the order they are looked for |
| RunRules.SemanticExact | crates/evalhub-core/src/validate.rs:690-766 | no violation exactly when every run rule holds |
| RunTables.DecodeAttachments | crates/evalhub-store/src/runs.rs:822-849 | the attachments with a well-formed digest, and one error for every other |
| RunHistory.CheckedGood | crates/evalhub-store/src/runs.rs:759-849 | an element without an error is stored as it is hashed, under its own id, and none of its side rows has a key twice |
| RunHistory.RejectionsExact | crates/evalhub-store/src/runs.rs:597-688 | a write is refused exactly when some element has a problem, and lists exactly those elements |
| RunHistory.WriteGood | crates/evalhub-store/src/runs.rs:577-753 | a write keeps the run-table invariant |
| RunHistory.FormulaAnyOrder | crates/evalhub-store/src/runs.rs:951-982 | the digest over the rows does not depend on the order they are read in |
| RunHistory.FormulaTells | crates/evalhub-store/src/runs.rs:951-982 | two tables have the same digest exactly when they have the same ids under the same content hashes |
| RunHistory.EditsChangeNoHash | crates/evalhub-store/src/runs.rs:424-536 | archive, unarchive, delete and a header post change no content hash and not `runs_hash` |
| RunHistory.HistoryGood | crates/evalhub-store/src/runs.rs:295-536 | over every history: each live row, its columns and its side rows are what its stored body makes them, a deleted one has no body and no attachments, and `runs_hash` is the formula over all rows |
| RunHistory.NoRunsGood | crates/evalhub-store/src/runs.rs:1000-1002 | the empty table satisfies the invariant |
| RunHistory.RowsStay | crates/evalhub-store/src/runs.rs:852-947 | no write ever removes a run row |
| RunHistory.DeletedForGood | crates/evalhub-store/src/runs.rs:577-632 | a deleted run keeps its row and side rows as they are through every later history |
| RunHistory.PutExact | crates/evalhub-store/src/runs.rs:295-317 | a put reports the problems of its element alone, or writes it and nothing else |
| RunHistory.BatchIsPuts | crates/evalhub-store/src/runs.rs:328-347 | a batch without repeats succeeds exactly when each element's put would, and then leaves and reports what the puts leave and report one after the other; otherwise nothing changes |
| RunHistory.BatchRefusals | crates/evalhub-store/src/runs.rs:577-688 | a refused batch lists, in order, exactly the elements whose put is refused, with the errors their put reports |
| RunHistory.RepeatedBatch | crates/evalhub-store/src/runs.rs:690-722 | an accepted batch sent again under the same header reports every element unchanged and changes nothing |
| RunStore.SortedIsReport | crates/evalhub-store/src/runs.rs:679-688 | rejections gathered in two passes, sorted, are the report by index |
| RunStore.EvalRuns.Upsert | crates/evalhub-store/src/runs.rs:852-947 | one run row is inserted or overwritten and its side rows replaced, nothing else |
| RunStore.EvalRuns.RecomputeRunsHash | crates/evalhub-store/src/runs.rs:951-982 | whatever order the rows come in, the stored digest is the formula |
| RunStore.EvalRuns.CheckElement | crates/evalhub-store/src/runs.rs:603-640 | the errors of one element, in order: repeated, validation, digests, deleted |
| RunStore.EvalRuns.CheckInputs | crates/evalhub-store/src/runs.rs:597-640 | every element is checked, every failure collected |
| RunStore.EvalRuns.CheckAttachments | crates/evalhub-store/src/runs.rs:642-678 | attachments are looked up only for elements that passed, and refused when not ready |
| RunStore.EvalRuns.WriteRuns | crates/evalhub-store/src/runs.rs:577-753 | the whole write, all or nothing: outcome and new state are those of the specification the histories are about |
| RunStore.EvalRuns.Put | crates/evalhub-store/src/runs.rs:295-317 | one element, the same way |
| RunStore.EvalRuns.PutBatch | crates/evalhub-store/src/runs.rs:328-347 | the elements of a batch under their own `run_id` |
| RunStore.EvalRuns.SetArchived | crates/evalhub-store/src/runs.rs:483-536 | only the archive mark of a live run changes, or the error says why not |
| RunStore.EvalRuns.Tombstone | crates/evalhub-store/src/runs.rs:424-481 | body and attachments of a live run go, everything else stays, or the error says why not |
| UsedSet.FixOne | crates/evalhub-store/src/used_set.rs:124-178 | one Eval: the named runs if an edge names runs, else the live ones, with the hashes now; every named element without a row is an error |
| UsedSet.Fix | crates/evalhub-store/src/used_set.rs:124-178 | the same for every Eval among the edges, and for no other |
| UsedSet.CheckRunResults | crates/evalhub-store/src/used_set.rs:197-248 | exactly the elements outside their used set are refused, as unknown or as not used |
| UsedSet.Insert | crates/evalhub-store/src/used_set.rs:254-278 | every used run is recorded; what was recorded before keeps its hash |
| UsedSet.RecomputedKeeps | crates/evalhub-store/src/relations.rs:573-598 | the ingest rule applied afresh after one more edge keeps every used run if and only if an earlier edge named runs, or the new one names none, or it names every live run |
| UsedSet.RecomputedLoses | crates/evalhub-store/src/relations.rs:573-598 | a bare edge uses two live runs; by the rule alone one more edge that names the first would leave the second out |
| CardStore.FixCardRuns | crates/evalhub-store/src/records.rs:795-903 | a Card is accepted exactly when every named run has a row and every judged run is used, by the edges that still resolve under the lock; a refusal lists exactly the runs that fail |
| CardHistory.RecordedIsCurrent | crates/evalhub-store/src/used_set.rs:254-278 | a run newly recorded carries the content hash its row has then |
| CardHistory.HistoryGood | crates/evalhub-store/src/relations.rs:573-661 | over every history of posts, edges and run writes: recorded runs have rows, judgements lie inside used sets, used sets only grow and recorded hashes never change |
| CardHistory.EmptyGood | crates/evalhub-store/src/used_set.rs:49-54 | the empty store satisfies that invariant |
| CardHistory.Cards.Post | crates/evalhub-store/src/records.rs:795-939 | a Card post records its used sets, judgements and edges, or nothing and lists exactly what is wrong |
| CardHistory.Cards.Add | crates/evalhub-store/src/relations.rs:498-661 | a late edge adds the runs of all edges so far, or is refused listing exactly the named runs without a row, or is no longer visible and adds none |
| Locks.PlanOrdered | crates/evalhub-store/src/used_set.rs:20-39 | every transaction takes its locks in one order: a Card, then Evals by id |
| Locks.AcquireKeeps | crates/evalhub-store/src/used_set.rs:96-116 | granting a lock keeps exclusion, and an Eval is recorded as visible under it exactly when the writer may see it |
| Locks.CommitKeeps | crates/evalhub-store/src/used_set.rs:20-47 | a commit of one transaction leaves what every other has seen and recorded true |
| Locks.RunKeeps | crates/evalhub-store/src/used_set.rs:20-47 | so does every interleaving of all transactions, step by step |
| Locks.CommittedIsCurrent | crates/evalhub-store/src/used_set.rs:33-47 | when a Card transaction commits, in any interleaving, it has a used set for exactly the Evals of its edges its writer may see then, and each is what the rule gives over the rows and edges then, so every recorded run carries the hash of its row |
| Locks.PostIsRuled | crates/evalhub-store/src/records.rs:795-903 | a post of a new version has recorded exactly the used sets of its edges into the Evals its writer may see, over the rows at its commit |
| Locks.WaitsUpward | crates/evalhub-store/src/used_set.rs:20-39 | who waits for a waiting transaction wants a lower lock |
| Locks.NoDeadlock | crates/evalhub-store/src/runs.rs:540-557 | no chain of transactions waiting for each other closes, in any state, the migration's included |
| Locks.SomeoneMoves | crates/evalhub-store/src/records.rs:1315-1331 | while transactions are under way one of them is free to go on |
| Refs.RefReadsBack | crates/evalhub-store/src/relations.rs:119-138 | the text an unresolved reference is stored under parses back to it |
| Traverse.AllFound | crates/evalhub-store/src/relations.rs:870-940 | when the queue is empty everything within the distance has been found, no farther off |
| Traverse.TraverseFrom | crates/evalhub-store/src/relations.rs:848-942 | the walk ends; its nodes are exactly the versions within the clamped depth of the mapped start, each once, nearest first; its edges exactly those read below the bound, each once |
| Migration.CheckRunIds | crates/evalhub-store/src/data_migrations.rs:586-600 | one problem for every element without a valid `run_id` |
| Migration.NoBadElements | crates/evalhub-store/src/data_migrations.rs:586-600 | none exactly when every element has one |
| Migration.Collect | crates/evalhub-store/src/data_migrations.rs:355-393 | the live versions, and the 1.0 ones among them split |
| Migration.PickWinners | crates/evalhub-store/src/data_migrations.rs:401-407 | later versions override earlier ones, run by run |
| Migration.WinnerIsHighest | crates/evalhub-store/src/data_migrations.rs:355-407 | the winner of an id is its run in the live 1.0 version of the highest seq that holds it, and there is a winner only of such an id |
| Migration.WriteWinners | crates/evalhub-store/src/data_migrations.rs:408-429 | each winner is a row with every column and side row as converted, an overwritten one keeping its marks, and all other rows and side rows stay; a malformed digest is a problem instead, and a repeated attachment path fails the statement |
| Migration.HashOfConverted | crates/evalhub-store/src/data_migrations.rs:332-341 | the hash of a written row is the hash the conversion of the run has |
| Migration.RebuildCard | crates/evalhub-store/src/data_migrations.rs:501-555 | a named run takes the hash of the version pointed at, else of its row, else it is reported |
| Migration.UsedHaveRows | crates/evalhub-store/src/data_migrations.rs:501-555 | every rebuilt used run has a row |
| Migration.NamedAreAccounted | crates/evalhub-store/src/data_migrations.rs:531-542 | the ids a Card names split exactly into the used and the reported |
| Migration.ChangedExactly | crates/evalhub-store/src/data_migrations.rs:513-542 | a used run reads as changed exactly when the version of the highest seq pointed at that holds it and the one of the highest seq of all convert it to different runs |
| Migration.MigrateEval | crates/evalhub-store/src/data_migrations.rs:353-571 | one Eval: broken exactly on a repeated attachment path, refused exactly when it has a problem, else its runs, versions and Cards are migrated |
| Migration.Database.RunPending | crates/evalhub-store/src/data_migrations.rs:261-285 | the step is applied at most once, and whole or not at all; it is applied exactly when no Eval is refused or broken |
| Migration.MigratedRunsGood | crates/evalhub-store/src/data_migrations.rs:401-434 | over a good run table the migrated run table is good: rows, columns, side rows and `runs_hash` are what the stored bodies make them |
| Migration.MigrationKeepsCards | crates/evalhub-store/src/data_migrations.rs:544-555 | the rebuilt used sets keep the Cards' invariant: every recorded run has a row and every judgement lies inside its used set |
| RecordKeyset.FormsAgree | crates/evalhub-store/src/query_sql.rs:411-476 | row-value comparison and lexicographic disjunction have the same truth value on every row, NULLs included |
| RecordKeyset.AdmitsExactly | crates/evalhub-store/src/query_sql.rs:411-476 | with sort keys, a cursor admits exactly the rows after its own that do not sort there for a NULL |
| RecordKeyset.ContinuesExactly | crates/evalhub-store/src/query_sql.rs:411-476 | the page after a row goes on where the rows do exactly when the cursor admits the later rows and no other |
| RecordKeyset.ContinuesBySort | crates/evalhub-store/src/query_sql.rs:411-476 | with sort keys that is exactly when no later row sorts after for a NULL |
| RecordKeyset.ContinuesByAge | crates/evalhub-store/src/query_sql.rs:380-395 | without a sort every page continues if and only if `created_at` and `version_id` put the rows in the same order |
| RecordKeyset.DecodeCursor | crates/evalhub-store/src/query_sql.rs:411-449 | a cursor is read key by key, failing at the first that does not fit |
| RecordKeyset.CursorUsable | crates/evalhub-store/src/query_sql.rs:491-515 | the cursor of a row is refused exactly when one of its keys is NULL |
| RecordKeyset.FetchPage | crates/evalhub-store/src/query_sql.rs:905-950 | one page of hits, with a cursor exactly when there is one more |
| RecordKeyset.FollowCursors | crates/evalhub-store/src/query_sql.rs:905-950 | with sort keys and no row lost to a NULL, or without a sort and with agreeing orders, the pages put together are all the hits in order |
| RecordKeyset.UnbrokenBySort | crates/evalhub-store/src/query_sql.rs:411-476 | with sort keys every row but the last can be continued from if and only if no row that another follows has a NULL key and none follows it for a NULL |
| RecordKeyset.SortedUnbroken | crates/evalhub-store/src/query_sql.rs:411-476 | so paging is complete over any non-empty sort whose keys are not NULL |
| RecordKeyset.UnbrokenByAge | crates/evalhub-store/src/query_sql.rs:380-395 | without a sort that is so if and only if `created_at` and `version_id` put the rows in the same order |
| RecordKeyset.NullIsLost | crates/evalhub-store/src/query_sql.rs:411-476 | of two hits under one ascending key the second has none: the page after the first is empty |
| RecordKeyset.NullCursorIsRefused | crates/evalhub-store/src/query_sql.rs:491-515 | and the cursor of that hit is refused |
| RecordKeyset.OlderIsLost | crates/evalhub-store/src/query_sql.rs:380-395 | a newer hit under a lower `version_id`: the page after it is empty, and the older hit is never seen |
| RecordRender.ExtendedTable | crates/evalhub-query/src/typecheck.rs:408-432 | registered schemas add typed `ext` paths and change no other |
| RecordRender.RendersExactly | crates/evalhub-store/src/query_sql.rs:518-833 | an accepted record filter fails to render exactly on a fingerprint with another operator than `eq` or `ne` or a literal that is not hexadecimal, or on a segment that cannot be written |
| RecordRender.FingerprintInIsRefused | crates/evalhub-store/src/query_sql.rs:652-690 | `in` on a fingerprint is accepted and does not render |
| RecordRender.SortRendersExactly | crates/evalhub-store/src/query_sql.rs:274-320 | an accepted record sort fails exactly on a fingerprint or on a segment that cannot be written |
| Versions.ChangedKeys | crates/evalhub-store/src/records.rs:1771-1784 | the keys of either body whose values differ, sorted, each once |
| Versions.LatestIsHighest | crates/evalhub-store/src/records.rs:528-538 | the latest is the live version after which no live one comes |
| Versions.HistoryGood | crates/evalhub-store/src/records.rs:486-763 | over every history: seqs are 1 to n in append order, a label names at most one version, a live body has its hash, and no version is lost or rewritten |
| Versions.PostIsIdempotent | crates/evalhub-store/src/records.rs:540-558 | a post of what the latest version says writes nothing, and so does the second post of anything accepted |
| Versions.Record.Append | crates/evalhub-store/src/records.rs:486-763 | a post finds the version, is refused, meets a label in use, or appends the next seq with its changed keys |
| Versions.Record.Label | crates/evalhub-store/src/records.rs:1338-1394 | a label moves to the version named, or nothing changes |
| Versions.Record.Bury | crates/evalhub-store/src/records.rs:1438-1510 | a live version loses its body and nothing else, or the error says why not |

## Left out

- The text of the SQL and the numbering of binds: the compilers build a tree, and `render` is not part of this model.
- Records in full: the record compiler is modelled for what it refuses and for its paging, not for what each filter means; `list`, `get_by_label` and the comparison view are left out.
- JSON Schema validation and the ±2^53 rule, the typed builder behind `parse`, and `split_v1`: parameters, or one step (`Build`) that reads operators.
- Numbers as doubles: a number is its position in their order, since nothing modelled computes with one.
- Hints of error entries, audit and outbox rows, badges, timestamps of rows, reasons and notes of tombstones.
- Attachment upload and garbage collection: the set of ready digests is a parameter of each write.
- The order of relations read at one node, and so the order of nodes at one distance: the walk is proved nearest first.
- Foreign-key and unique-index waits, lock queues and the planner: `Locks` knows row locks, statement reads and atomic commit.
- A Card named twice in one run query: the second cell would come out empty; the front end keeps each Card once.
- RunProjection.CastsExactly: a jsonpath that is no chain of quoted members is taken to be refused, although one that holds another jsonpath expression would be evaluated as such.
- RunStore.EvalRuns.WriteRuns: the latest live header is a field of the Eval, set by `SetHeader`, and not read from its versions.
- CardHistory.Cards.Post: the version id is new; resolving the targets of relations is a parameter, as are the Evals visible under the lock.
- CardStore.FixCardRuns: says which entries a refusal lists, not how often nor in which order; they are sorted by path and code.
- Locks.CommittedIsCurrent: a Card transaction may also commit where the source refuses it for a named run without a row; which refusals there are is `CardStore.FixCardRuns`.
- Migration.MigrateEval: the bodies of Cards do not change and the counts of the summary line are not part of this model.
- Migration.Database.RunPending: where one Eval is refused and another broken, which of the two is reported depends on the order of the Evals, which is left open.
- Migration.MigratedRunsGood: that the conversion makes an object of every run, and that no winner's row was deleted before, are hypotheses, since `split_v1` is a parameter.
- Versions.Record.Append: attachments, Card runs and registry lookups are one yes or no.
