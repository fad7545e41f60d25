# Verified models of the report, rule, action and ingestion engines

This project models the small engines behind an advertising-automation service and proves what they
are for. Tables are maps and sequences, every database transaction is one atomic step, and code that
changes state in place is a class or a loop proved against a function of its inputs. Each protocol is
then a set of steps, and its promises are lemmas about every run of those steps.

| files | what they model |
|---|---|
| `RuleCompiler`, `Sql`, `RuleReadback`, `RuleParsing`, `RuleMeaning`, `RuleNulls`, `RuleLaws` | rule conditions compiled to SQL text with positional parameters; an independent lexer, binder, parser and three-valued evaluator read the text back |
| `PdfText`, `Decimals`, `PdfWriter`, `PdfReader`, `PdfRoundTrip`, `ReportTable` | the PDF writer with hand-computed offsets, lengths and escapes, and an independent reader following sections 7.3.4.2, 7.5.4 and 7.5.5 of ISO 32000-1 |
| `SheetCells` | spreadsheet column names and cell references |
| `FifoCosts`, `FifoRows`, `AverageCosts` | batch cost allocation |
| `RateLimit` | the token bucket, the table of buckets and the retry loop on top |
| `Ngrams`, `NgramLaws` | the negative n-gram analysis |
| `ReportJobs`, `JobLaws`, `ReportProtocol`, `Calendar`, `ScheduleSlots`, `Deliveries` | report jobs with competing workers, and scheduled slots feeding them |
| `StateMachine`, `StateLaws`, `ActionLifecycle`, `ActionLaws`, `ActionProtocol` | proposals from decision to verification, with retries and dead letters |
| `Guardrails`, `GuardLaws`, `ApplyGuardrails`, `LiveBatch` | guardrails on one proposal, on a batch about to go live, and a whole worker run under them |
| `Configuration`, `Overrides`, `Canary`, `Rollouts`, `RolloutLaws` | layered configuration, its history, bounded exposure and rollouts |
| `Watermark`, `CostLedger` | ingestion watermarks and the SKU cost ledger |
| `Wrappers`, `Numbers`, `Texts`, `Ordering` | shared vocabulary: options and results, joined texts and white space, stable sorting |

The functions that the code is proved against are not their own judges: `ReportTable` and the modules whose names end in
`Laws` say what they compute in terms of the inputs alone, by the names, numbers and sums a user would give.

Numbers are exact reals or unbounded integers, instants are integers, and rounding is written out where it
decides something: half-even to cents in the guardrails, half up to two decimals in the rollout column.
Hashes, random identifiers, the exponential, calendar months of timestamps and provider answers are
parameters, assumed injective only where a lemma says so.

Where the code differs from its documentation the model follows the code:

- A quotient of three or more operands compiles every operand but prints two (`services/rules/compiler.py:99-101`). A
  condition's meaning counts all of them. With two operands in every quotient the SQL has that meaning on every row
  (`RuleMeaning.CompiledMeaning`); a quotient of plain metrics has it only then (`RuleNulls.MetricQuotientExactlyWhen`),
  although some longer quotients agree by their values (`RuleNulls.SelfQuotientAgrees`). `RuleNulls.ThirdMetricIsLost` and
  `RuleNulls.ThirdMetricIsIgnored` are inputs that fail, the second with a comparison that touches a missing metric and
  matches; in `RuleNulls.LongQuotientIsUnreadable` the parameters no longer fit the text.
- The action worker writes to the provider before it compares the baseline (`services/actions/worker.py:360-367`), although
  the state machine's text promises not to overwrite a manual change. `ActionProtocol.DriftIsNoticedTooLate` says what does hold.
- Dry ingestion runs raise the watermark (`services/ingest/pipelines/ads_daily.py:276-278,308-309`) over days nobody asked for.
  `Watermark.DryRunLeavesGap` says which days the next live run covers, `Watermark.DryRunKeepsCoverExactlyWhen` when nothing
  is lost, and `Watermark.GapStays` that no later run goes back.
- Rounding to cents can leave the allowed range, so a value the guardrails produced may be refused on the second check;
  `Guardrails.SettlesExactlyWhen` gives the exact condition and `Guardrails.SmallBidDoesNotSettle` an input.
- The unique index on open cost rows does not by itself keep windows apart, as the migration's comment has it.
  `CostLedger.ImportStaysApartExactlyWhen` says when an imported row does, open or closed, and for windows in a row
  `CostLedger.StaysDisjointExactlyWhen` and `CostLedger.ClosedStaysDisjointExactlyWhen` say what that comes to.
- Receipts that share an identifier share one balance, which the last of them sets (`services/economics/batch_cogs.py:74`).
  `FifoRows.AllStockHeldExactlyWhen` says when all stock can be sold, and `FifoRows.SharedIdFallsShort` is an input that fails.

## Model

| member | source | states |
|---|---|---|
| RuleCompiler.Compiler.Compile | services/rules/compiler.py:58-103 | compiling a node appends its text's parameters and counts the nodes visited, or stops with the error of the first bad node in visiting order |
| RuleCompiler.Compiler.CompileAll | services/rules/compiler.py:88-102 | operands are compiled in order and the first error stops the rest |
| RuleCompiler.CompileCondition | services/rules/compiler.py:106-111 | a condition must be a non-empty object; the result is its text with its parameters in order, or the first error |
| RuleLaws.AcceptedExactlyWhen | services/rules/compiler.py:58-103 | a condition is accepted exactly when it follows the grammar of operators and metrics, nothing is nested deeper than eight and at most 120 nodes count |
| RuleLaws.FormOfLegal | services/rules/compiler.py:70-102 | which of the operators a node is, or what is wrong with it |
| RuleReadback.ErrorFree | services/rules/compiler.py:59-86 | a condition is accepted exactly when every node has a legal shape, none is deeper than 8 and at most 120 nodes are visited |
| RuleReadback.TextLexes | services/rules/compiler.py:58-103 | the compiled text falls into exactly the node's tokens, whatever boundary follows it |
| RuleReadback.ChainLexes | services/rules/compiler.py:87-103 | the same for any number of operands joined by one operator |
| RuleParsing.TokensParse | services/rules/compiler.py:58-103 | the printed parentheses suffice: a precedence parser reads every compiled node back as the tree it was printed from |
| RuleParsing.ChainParses | services/rules/compiler.py:87-103 | chains of one operator group from the left |
| RuleParsing.TighterFirst | services/rules/compiler.py:87-103 | the parser that reads the text takes the tighter of two operators first, and else the left one |
| RuleParsing.LevelsAre | services/rules/compiler.py:38-40 | and they bind as in SQL: `or`, `and`, comparisons, sums, products |
| RuleMeaning.TreeMeaning | services/rules/compiler.py:87-103 | three-valued SQL evaluation of that tree equals direct evaluation of what is printed on every row |
| RuleMeaning.ExactSense | services/rules/compiler.py:99-101 | with two operands in every quotient that is direct evaluation of all operands |
| RuleMeaning.ExactDropsNothing | services/rules/compiler.py:54-56 | and then every parameter has its placeholder |
| RuleMeaning.PlaceholderCount | services/rules/compiler.py:54-56 | placeholders printed plus parameters dropped by long quotients make up all parameters |
| RuleMeaning.CompiledMeaning | services/rules/compiler.py:106-111 | the compiled text and parameters can be read back exactly when no parameter was dropped, and then mean what is printed; with two operands in every quotient they can, and mean the whole condition on every row |
| RuleLaws.AnsweredExactlyWhen | services/rules/compiler.py:54-103 | the SQL can be read back exactly when the condition is accepted and no quotient has a literal beyond its second operand |
| RuleLaws.ComparisonLaw | services/rules/compiler.py:91-98 | the SQL of each of the six comparisons matches exactly when both sides have values that compare so, and is plain false with one missing |
| RuleLaws.LogicLaw | services/rules/compiler.py:88-90 | `and` matches when all operands do and is false as soon as one is, `or` the other way round, and else the answer is missing |
| RuleLaws.NegationLaw | services/rules/compiler.py:82-84 | `not` turns a match into a non-match and back, and leaves a missing answer missing |
| RuleLaws.ArithmeticLaw | services/rules/compiler.py:102-103 | sums, differences and products go from the left over all operands, and are missing when one is |
| RuleLaws.QuotientLaw | services/rules/compiler.py:99-101 | a quotient of two numbers is theirs, and missing with a side missing or the divisor zero |
| RuleLaws.MetricLaw | services/rules/compiler.py:12-36 | each of the 23 metric names stands for its column, and no other name for any |
| RuleLaws.LiteralLaw | services/rules/compiler.py:64-67 | a literal stands for itself |
| RuleLaws.WasteRule | services/rules/starter_rules.py:95-101 | a shipped rule matches exactly the keywords it describes |
| RuleNulls.ArithmeticValue | services/rules/compiler.py:99-103 | arithmetic, over all operands or the printed ones, is NULL exactly when one that counts is missing or a later operand of a quotient is zero |
| RuleNulls.BlankComparison | services/rules/compiler.py:95-98 | a comparison with such a side means plain false |
| RuleNulls.BlankNeverMatches | services/rules/compiler.py:95-101 | with two operands in every quotient the SQL of a comparison is false as soon as any metric it touches is missing; otherwise as soon as a printed one is |
| RuleNulls.MissingDataNeverMatches | services/rules/compiler.py:87-103 | the SQL of a condition without `not` is never NULL, and losing metrics never turns a non-match into a match |
| RuleNulls.MetricQuotientExactlyWhen | services/rules/compiler.py:99-101 | the SQL of a quotient of metrics is the quotient of all of them on every row exactly when there are two |
| RuleNulls.SelfQuotientAgrees | services/rules/compiler.py:99-101 | longer quotients whose further operands are one agree all the same |
| RuleNulls.ThirdMetricIsLost | services/rules/compiler.py:99-101 | the SQL of cost over clicks over impressions leaves the impressions out |
| RuleNulls.ThirdMetricIsIgnored | services/rules/compiler.py:95-101 | and with impressions missing a comparison of it matches |
| RuleNulls.NegationMatchesMissingData | services/rules/compiler.py:82-84 | with `not` the compiled SQL can match once a metric is lost: a concrete condition and rows |
| RuleNulls.LongQuotientIsUnreadable | services/rules/compiler.py:99-101 | a three-operand quotient of literals compiles to two placeholders for three parameters |
| Decimals.PaddedNumeral | services/reports/render.py:176-177 | a zero-padded offset keeps its value, and is ten digits long exactly below ten to the tenth |
| PdfText.ReplacementsEscapeOnce | services/reports/render.py:141-142 | the three replacements in their order escape every character once |
| PdfText.LiteralRead | services/reports/render.py:141-142 | a literal-string reader undoes the escaping of any text up to its line ends |
| PdfText.LineFeedsUnchanged | services/reports/render.py:141-142 | line ends come back unchanged exactly when there is no carriage return |
| PdfText.EscapedLineRead | services/reports/render.py:157 | a printed line reads back as its Latin-1 text with `?` for the rest |
| PdfWriter.StreamOf | services/reports/render.py:155-159 | the page loop builds the content stream of the page's lines, each cut to 160 characters |
| PdfWriter.ObjectsOf | services/reports/render.py:146-167 | the object loop numbers catalog, page tree, page and content objects and the font as the page count dictates |
| PdfWriter.PdfBytes | services/reports/render.py:145-181 | the file is the header, the numbered bodies, the table of their offsets and the trailer |
| PdfRoundTrip.ObjectAt | services/reports/render.py:169-172 | the recorded offset of an object is where its `id 0 obj` starts |
| PdfRoundTrip.EntriesAt | services/reports/render.py:174-177 | every table entry is twenty bytes while offsets have at most ten digits |
| PdfRoundTrip.TableRead | services/reports/render.py:173-180 | `startxref` points at `xref`, and size and root agree with the table |
| PdfRoundTrip.ObjectRead | services/reports/render.py:170-177 | entry i leads to `i 0 obj` and the body written for it |
| PdfRoundTrip.PageRead | services/reports/render.py:151-163 | a page's parent, font, contents and stream length all resolve, and its stream gives back its lines |
| PdfRoundTrip.FileRead | services/reports/render.py:145-181 | reading any file below ten to the tenth bytes gives back the pages it was made from, in `/Kids` order |
| PdfRoundTrip.PagesHoldLines | services/reports/render.py:146-147 | the pages together hold exactly the header and row lines, 48 a page, at least one page |
| PdfRoundTrip.ReportReadBack | services/reports/render.py:145-181 | the rendered report reads back as its header and row lines, cut and in Latin-1 |
| ReportTable.ReportShowsTable | services/reports/render.py:145-181 | the file read back shows the columns on its first line and row i on line 1 + i, 48 lines a page, between the version mark and the end mark |
| ReportTable.JoinedIsLaidOut | services/reports/render.py:146 | the fields of a line stand in their order, each but the first after a bar between two spaces |
| ReportTable.LaidOutOnce | services/reports/render.py:146 | and there is only one such line |
| PdfRoundTrip.ShownExactly | services/reports/render.py:157 | a line is shown as it was cut exactly when the kept part has no carriage return |
| SheetCells.ColumnName | services/reports/render.py:94-99 | the divmod loop computes the bijective base-26 name |
| SheetCells.NameThenNumber | services/reports/render.py:94-99 | every positive number has a non-empty A-Z name that gives the number back |
| SheetCells.NumberThenName | services/reports/render.py:94-99 | every non-empty A-Z string is the name of its number |
| SheetCells.NamesKeepOrder | services/reports/render.py:94-99 | names are in shortlex order exactly as their numbers are in order |
| SheetCells.ReferenceLocated | services/reports/render.py:110-113 | a cell reference decodes to its own column and row |
| SheetCells.Sheet | services/reports/render.py:107-114 | the row loop yields the header and rows with their references |
| SheetCells.SheetReferences | services/reports/render.py:107-114 | every cell holds the table's value at the place its reference decodes to, so no two share one |
| FifoCosts.SellOne | services/economics/batch_cogs.py:82-98 | the inner loop takes from each batch received by then what its balance and the sale allow, and lowers the balances accordingly |
| FifoCosts.SoldIsRows | services/economics/batch_cogs.py:85-98 | with distinct identifiers that is each eligible batch's share of the cumulative supply, and every balance is what the closed form leaves |
| FifoCosts.Fifo | services/economics/batch_cogs.py:73-99 | the nested loop over mutable balances, whatever the identifiers; with distinct ones the closed-form ledger and the last reason for incompleteness |
| FifoCosts.RunIsLedger | services/economics/batch_cogs.py:73-99 | with distinct identifiers the loops compute the closed form |
| FifoCosts.Calculate | services/economics/batch_cogs.py:54-70 | the validation errors in order, else the run over the sorted inputs, which is the closed form when identifiers are distinct |
| FifoCosts.SaleConserves | services/economics/batch_cogs.py:85-98 | a positive sale's rows add up to its quantity |
| FifoCosts.BatchConserves | services/economics/batch_cogs.py:90-94 | what a batch gave and what is left always make what was received, so none is overdrawn |
| FifoCosts.GreedyOrder | services/economics/batch_cogs.py:87-95 | a batch is used only after its receipt and only once every earlier batch is empty |
| FifoCosts.ShortfallEmptiesStock | services/economics/batch_cogs.py:96-98 | a sale falls short only when all eligible stock is gone |
| FifoCosts.ClosedForm | services/economics/batch_cogs.py:73-99 | without a shortfall batch i gives sale j the overlap of cumulative supply and cumulative positive demand |
| FifoCosts.CompleteWhenCosted | services/economics/batch_cogs.py:70 | a run is complete exactly when every allocation carries a cost |
| FifoCosts.InputOrderIrrelevant | services/economics/batch_cogs.py:57-58 | the order in which receipts and sales are given does not matter |
| FifoCosts.InputsInOrder | services/economics/batch_cogs.py:57-58 | receipts are taken by arrival and identifier, sales by time and reference |
| FifoRows.ShippedConserves | services/economics/batch_cogs.py:82-98 | whatever the identifiers, a positive sale's rows add up to its quantity |
| FifoRows.RowsAndStock | services/economics/batch_cogs.py:90-94 | the rows of the output that name a batch and what is left of it always make what was received |
| FifoRows.RowIsShare | services/economics/batch_cogs.py:87-95 | a row names a batch received by then, at its cost, for its whole share, and every earlier batch is then empty |
| FifoRows.RowIsOverlap | services/economics/batch_cogs.py:73-99 | without a shortfall so far a row's quantity is the overlap of its batch's place in supply with the sale's place in demand |
| FifoRows.SaleRowsNumbered | services/economics/batch_cogs.py:86-97 | the rows of a sale carry its reference and are numbered in their order |
| FifoRows.ReturnLaw | services/economics/batch_cogs.py:77-83 | a return is valued like the last row that had a cost, under the same batch, and not at all when none had |
| FifoRows.AllStockHeldExactlyWhen | services/economics/batch_cogs.py:74 | the balances hold all that was received exactly when no two receipts share an identifier |
| FifoRows.SharedIdFallsShort | services/economics/batch_cogs.py:74 | ten and five units under one identifier cannot fill an order for eleven |
| AverageCosts.Average | services/economics/batch_cogs.py:102-116 | one row a sale at the average of the usable stock, and the last reason for incompleteness |
| AverageCosts.Calculate | services/economics/batch_cogs.py:54-70 | the first error in order, else the rows and reason of the chosen method over the sorted inputs |
| AverageCosts.AverageIsFair | services/economics/batch_cogs.py:106-115 | a sale is costed exactly when some receipt is usable for it, at a cost between the lowest and the highest, and stock valued at it keeps its value |
| AverageCosts.AverageLaw | services/economics/batch_cogs.py:105-115 | the unit cost is the worth of the usable receipts over their units, the cost that times the units sold, and the batch the last usable receipt |
| AverageCosts.CompleteWhenStocked | services/economics/batch_cogs.py:109-113 | the calculation is complete exactly when every sale has stock behind it |
| RateLimit.TokenBucket.TryAcquire | services/ingest/clients/rate_limit.py:46-55 | one pass under the lock refills, then takes a token or says how long to wait |
| RateLimit.TokenBucket.Acquire | services/ingest/clients/rate_limit.py:44-58 | a caller alone on the bucket returns, after no more naps than the wait divided by thirty seconds |
| RateLimit.NapStep | services/ingest/clients/rate_limit.py:55-58 | each nap brings the token nearer by the nap or the whole wait |
| RateLimit.TokensInRange | services/ingest/clients/rate_limit.py:48-53 | tokens stay between zero and the burst under any interleaving |
| RateLimit.WindowBalance | services/ingest/clients/rate_limit.py:44-58 | tokens taken in a window and tokens left never exceed tokens before it plus what the rate delivers |
| RateLimit.WindowBound | services/ingest/clients/rate_limit.py:44-58 | in any window of length T at most burst + rate*T acquisitions succeed, whoever makes them |
| RateLimit.Limiters.LimiterFor | services/ingest/clients/rate_limit.py:74-92 | an endpoint's bucket is made once, full, with the published rate and a burst of at least one, and shared; endpoints without a limit have none and unknown ones are refused |
| RateLimit.Call | services/ingest/clients/sp_api.py:117-152 | the loop returns the first settling answer, sends at most six requests, at most two when creating a report, and sleeps after each failed attempt as long as the attempt asks for |
| RateLimit.NapLaw | services/ingest/clients/rate_limit.py:128-137 | a wait is what the server asked for, at most 300 seconds, and otherwise doubles from one second up to 120 |
| RateLimit.NapsNeededIs | services/ingest/clients/rate_limit.py:55-58 | the bound on naps is the missing part of a token in steps of thirty seconds, rounded up |
| RateLimit.CreationSentTwiceAtMost | services/ingest/clients/sp_api.py:130-143 | a creation is sent again only after a 401 on the first attempt |
| Ngrams.PhrasesAreContained | services/rules/ngrams.py:87-98 | the phrases of a query are exactly the phrases of one to three words it contains |
| Ngrams.Aggregate | services/rules/ngrams.py:127-143 | rows are summed by query, and queries without tokens are skipped |
| Ngrams.Index | services/rules/ngrams.py:149-152 | the inverted index lists for each phrase exactly the queries that contain it |
| Ngrams.IndexAgreesWithScan | services/rules/ngrams.py:155-173 | summing the indexed queries of a phrase equals scanning all rows for it |
| Ngrams.Findings | services/rules/ngrams.py:145-198 | one finding for each candidate phrase, with totals, chance, reasons, protection and decision as the rows alone give them |
| Ngrams.Analyze | services/rules/ngrams.py:116-212 | the answer is those findings sorted by length and phrase and run through the cover pass |
| Ngrams.FindingIsVerdict | services/rules/ngrams.py:155-212 | a finding differs from the direct verdict on its phrase only by being covered |
| Ngrams.NothingConverting | services/rules/ngrams.py:158-161 | no reported phrase occurs in a query with orders |
| Ngrams.NegativesAreAnAntichain | services/rules/ngrams.py:200-211 | no phrase left negative contains another one |
| Ngrams.CoverLosesNothing | services/rules/ngrams.py:201-211 | dropping covered phrases blocks exactly the same queries |
| Ngrams.ProtectedNeverNegated | services/rules/ngrams.py:105-113 | a phrase that overlaps a protected term in either direction is reported as protected, never negated |
| NgramLaws.ReportedExactlyWhen | services/rules/ngrams.py:154-161 | a phrase is reported exactly when it has one to three words, occurs in a row, and its rows have no orders and enough clicks |
| NgramLaws.FindingCounts | services/rules/ngrams.py:145-181 | queries, clicks, impressions, cost and sales of a finding are the sums over its rows, and its chance is exp of minus its clicks times all orders over all clicks |
| NgramLaws.CondemnedExactlyWhen | services/rules/ngrams.py:182-197 | exactly which phrases are negative: every threshold met by those sums and that chance, and no protected term within or around |
| NgramLaws.DecidedExactlyWhen | services/rules/ngrams.py:192-211 | negative or covered when condemned, protected when a protected term overlaps, and a human's matter otherwise |
| NgramLaws.ReasonsGiven | services/rules/ngrams.py:182-196 | each reason is given exactly when it applies |
| NgramLaws.FindingsInOrder | services/rules/ngrams.py:199 | shorter phrases first, and those of one length in dictionary order |
| NgramLaws.ContainsMeans | services/rules/ngrams.py:96-98 | a query contains a phrase when the phrase is a part of it, word for word |
| Ngrams.RowOrderIrrelevant | services/rules/ngrams.py:124 | the answer does not depend on the order of the rows |
| ReportJobs.Queue.EnqueueJob | services/reports/jobs.py:75-183 | a new job under an unused key, the existing job for the same scope, or the first of the errors |
| ReportJobs.Queue.ClaimNext | services/reports/jobs.py:186-227 | claims the due unlocked job that waited longest, if there is one |
| ReportJobs.Queue.FinishJob | services/reports/jobs.py:230-267 | ends a running job for the worker that claimed it and refuses everybody else |
| ReportJobs.Queue.FailJob | services/reports/jobs.py:290-308 | the same with a required error text |
| ReportJobs.Queue.RetryJob | services/reports/jobs.py:311-345 | queues a failed job with attempts left |
| ReportJobs.Queue.RenderClaimedJob | services/reports/artifacts.py:88-144 | artifact and success together, or an error and no change |
| ReportJobs.Queue.RenderOrFailJob | services/reports/worker.py:99-145 | the worker's second transaction: render, or roll back and record the failure |
| JobLaws.EnqueueLaw | services/reports/jobs.py:75-183 | which requests are met, the queued job field by field, and that anything else changes nothing |
| JobLaws.ClaimableLaw | services/reports/jobs.py:195-201 | which jobs can be claimed, and which goes first |
| JobLaws.ClaimLaw | services/reports/jobs.py:202-227 | a claim starts one more attempt for the worker, field by field |
| JobLaws.FailLaw | services/reports/jobs.py:290-308 | only the worker that runs a job can fail it, and only with a reason |
| JobLaws.RetryLaw | services/reports/jobs.py:311-345 | a failed job with attempts left is queued again, field by field |
| JobLaws.RenderLaw | services/reports/artifacts.py:88-144 | rendering succeeds exactly for the job's worker with a private key and one to 3650 days of retention, and the artifact expires then |
| JobLaws.RecordLaw | services/reports/jobs.py:53-72 | an event is dropped exactly when one of the same job, kind, attempt and tag is there |
| JobLaws.DescribedLaw | services/reports/worker.py:136-145 | the recorded error is the exception's text, at most 2000 characters of it, or its type's name |
| ReportProtocol.StepKeeps | services/reports/jobs.py:75-345 | every transaction keeps the invariant, and one that changes a row records exactly one event |
| ReportProtocol.Always | services/reports/jobs.py:75-345 | the invariant holds in every state of every run of any users and workers |
| ReportProtocol.RowBounds | services/reports/jobs.py:204-211 | attempts stay within the maximum, queued rows have one left, and succeeded coincides with an artifact |
| ReportProtocol.LogGivesStatus | services/reports/jobs.py:39-72 | replaying the event log gives every row's status and attempt |
| ReportProtocol.OneOutcomePerAttempt | services/reports/jobs.py:230-267 | an attempt ends at most once, by the worker that started it |
| ReportProtocol.LogIsShort | services/reports/jobs.py:321-328 | a job has at most three events for each attempt it may have |
| ReportProtocol.EveryChangeRecorded | services/reports/jobs.py:53-72 | the clause that drops duplicate events never drops one |
| ReportProtocol.NothingUndone | packages/db/migrations/0032_report_job_core.sql:103-151 | success, artifacts, keys, scopes and the log survive everything that follows |
| ReportProtocol.SameKeySameJob | services/reports/jobs.py:117-139 | one idempotency key means one job |
| ReportProtocol.AskingAgain | services/reports/jobs.py:155-183 | asking again for the same thing, however late, finds the same job and changes nothing |
| Calendar.YearStart | services/reports/scheduled_delivery.py:132-146 | counting months agrees with the closed form for whole years of the Gregorian calendar |
| Calendar.MonthStartsAt | services/reports/scheduled_delivery.py:132-146 | and for every month of it |
| Calendar.MonthsInOrder | services/reports/scheduled_delivery.py:142-146 | later months start later |
| ScheduleSlots.NextRun | services/reports/scheduled_delivery.py:107-156 | the errors in order, else the following slot, across month and year ends |
| ScheduleSlots.MonthlyRun | services/reports/scheduled_delivery.py:129-155 | this month's run or the next month's |
| ScheduleSlots.FollowingIsLeast | services/reports/scheduled_delivery.py:108 | what is computed is the least slot strictly after the given instant, a slot being a time of day, on a weekday or on a date of the calendar |
| ScheduleSlots.MonthlySlots | services/reports/scheduled_delivery.py:129-155 | the monthly slots are the schedule's day of every month at its hour, minute and second |
| Deliveries.Store.VisitOne | services/reports/scheduled_delivery.py:169-211 | one due schedule gets its run row, its job unless its recipient left, and its next slot |
| Deliveries.VisitLaw | services/reports/scheduled_delivery.py:169-211 | a visit asks for the days of the schedule's window up to the day before the slot, for its recipient, and moves on to the next slot |
| Deliveries.Store.EnqueueDue | services/reports/scheduled_delivery.py:159-212 | a batch of due schedules is all or nothing and counts the jobs it created |
| Deliveries.Always | services/reports/scheduled_delivery.py:159-212 | in every run of schedules, batches and queue steps the run rows are exactly the slots passed |
| Deliveries.NoSlotSkipped | services/reports/scheduled_delivery.py:170-211 | between its first slot and its next one a schedule has skipped none |
| Deliveries.OneJobPerSlot | services/reports/scheduled_delivery.py:194 | two runs never share a report job |
| StateMachine.ActionObject.ApproveIt | services/actions/state_machine.py:92-115 | approval of a pending, unexpired proposal by an owner or admin other than its author, or no change |
| StateMachine.ActionObject.RejectIt | services/actions/state_machine.py:118-124 | rejection from pending or approved, or no change |
| StateMachine.ActionObject.ExpireIt | services/actions/state_machine.py:127-132 | expiry after 48 hours, or no change |
| StateMachine.ActionObject.ApplyIt | services/actions/state_machine.py:135-169 | the outcome of an attempt: applied, failed, or failed by drift |
| StateMachine.ActionObject.VerifyIt | services/actions/state_machine.py:172-189 | verification no earlier than seven days after apply, or no change |
| StateMachine.ActionObject.RollbackIt | services/actions/state_machine.py:192-202 | rollback of an applied action with a baseline, or no change of status |
| StateMachine.ActionObject.RetryIt | services/actions/state_machine.py:205-212 | a failed action goes back to pending without its approval |
| StateLaws.ApprovedExactlyWhen | services/actions/state_machine.py:92-115 | approval takes a pending proposal of the last 48 hours and an owner or admin other than its author |
| StateLaws.ExpiredExactlyWhen | services/actions/state_machine.py:127-132 | expiry takes a pending or approved proposal older than 48 hours |
| StateLaws.AppliedExactlyWhen | services/actions/state_machine.py:135-169 | an approved action ends applied exactly when the call went through and the value read is the baseline, if both are known |
| StateLaws.VerifiedExactlyWhen | services/actions/state_machine.py:172-189 | verification takes an applied action, seven days, and one of five outcomes |
| StateLaws.RolledBackExactlyWhen | services/actions/state_machine.py:192-202 | rollback takes an applied action with a known baseline |
| ActionLifecycle.Store.DecideAction | apps/web/lib/approval-decision.ts:34-140 | the decision on a pending proposal, or the first refusal in the order the code has them |
| ActionLaws.DecidedExactlyWhen | apps/web/lib/approval-decision.ts:34-140 | exactly when a proposal can be approved or rejected: in time, by an owner or admin, and approved only 72 hours after any other change of its entity and with no rival proposal |
| ActionLaws.ProposedExactlyWhen | packages/db/migrations/0025_action_collision_detection.sql:24-29 | a proposal is taken up unless its entity has a live one; a finding always is |
| ActionLifecycle.Store.ExecuteAction | services/actions/worker.py:357-367 | reads, writes, and only then compares; the row and its trail afterwards |
| ActionLifecycle.Store.BlockAction | services/actions/worker.py:370-391 | a blocked action fails without a word to the provider |
| ActionLifecycle.Store.RunBatch | services/actions/worker.py:473-538 | every fetched row ends applied or failed, the two counts add up, blocked rows reach no provider, and no other row is touched; without credentials only the blocked rows fail and the others stay as they are |
| ActionLifecycle.ExecuteDone | services/actions/worker.py:357-367 | applied exactly when both calls succeed and the baseline still holds; written exactly when the read came back |
| ActionLifecycle.Store.Trigger | packages/db/migrations/0026_action_retry_dead_letter.sql:48-97 | a failure is counted and either scheduled for a retry or dead-lettered |
| ActionLaws.FailureLaw | packages/db/migrations/0026_action_retry_dead_letter.sql:48-97 | a transient failure comes due again after 60 seconds, doubled each time up to an hour, plus at most 30, while tries are left; any other is set aside for good |
| ActionLifecycle.Store.JudgeAction | services/actions/verification.py:355-364 | the verdict is stored only if the transition is allowed |
| ActionLifecycle.Store.UndoAction | services/actions/lifecycle_audit.py:55-81 | rollback, with the status kept when the provider refuses |
| ActionLifecycle.Store.ReleaseDue | services/actions/retry.py:58-111 | due failures go back to pending together or not at all |
| ActionLifecycle.Store.ReplayAction | services/actions/retry.py:114-156 | an owner or admin returns a dead letter to pending |
| ActionLifecycle.Store.RequeueAction | services/actions/lifecycle_audit.py:11-37 | the manual retry of a failed action |
| ActionProtocol.StepKeeps | services/actions/state_machine.py:38-47 | every step keeps the invariant over rows and their trails |
| ActionProtocol.Always | services/actions/state_machine.py:38-47 | the invariant holds in every state of every run |
| ActionProtocol.WritesAreApproved | services/actions/worker.py:357-367 | every provider write is of the proposed value, never of a finding, and comes directly after an approval in time by an owner or admin, itself made after the row last became pending |
| ActionProtocol.RowFacts | services/actions/state_machine.py:180-202 | verified means seven days after apply, rolled back means a baseline was stored, failures are counted and automatic releases stay within the maximum |
| ActionProtocol.FewChanges | services/actions/state_machine.py:38-47 | a status changes at most three times, and three more for each return to the queue |
| ActionProtocol.TerminalIsFinal | services/actions/state_machine.py:36-47 | a verified, rejected, expired or rolled-back row never changes again, and trails only grow |
| ActionProtocol.OneProposalPerEntity | packages/db/migrations/0025_action_collision_detection.sql:27-29 | an entity has at most one pending or approved proposal |
| ActionProtocol.DriftIsNoticedTooLate | services/actions/worker.py:360-367 | with drift the provider is written to all the same, and the action ends failed with its old baseline |
| ActionProtocol.BatchRefused | services/actions/retry.py:71-111 | a batch of due rows is refused as a whole exactly when two of them are for one entity |
| Guardrails.Decision.DataQuality | services/rules/guardrails.py:156-189 | stale, unsettled or thin data blocks, in that order |
| Guardrails.Decision.SetPrice | services/rules/guardrails.py:252-265 | clamp, bounds and rounding in that order, and whether a limit moved the price |
| Guardrails.Check | services/rules/guardrails.py:192-277 | the first guard in order blocks and is noted last; otherwise the price that would be sent |
| GuardLaws.AllowedExactlyWhen | services/rules/guardrails.py:192-277 | a change is allowed exactly when its data is fresh, settled and thick enough, its entity has rested, the rule is not too wide, and the day has changes and budget left |
| GuardLaws.FindingAllowedExactlyWhen | services/rules/guardrails.py:208-218 | a finding only needs sound data |
| GuardLaws.PriceLaw | services/rules/guardrails.py:120-153 | a price is moved within the allowed change, then within the absolute limits, then to the nearest cent, the even one of two |
| Guardrails.RoundNearest | services/rules/guardrails.py:265 | rounding moves a price by at most half a cent |
| Guardrails.MovedExactlyOutside | services/rules/guardrails.py:127-153 | a price is left alone exactly when it is within every limit |
| Guardrails.PriceInRange | services/rules/guardrails.py:252-265 | before rounding every price is within every limit, if any price is |
| Guardrails.SettlesExactlyWhen | services/rules/guardrails.py:252-265 | checking any resulting price again leaves it alone exactly when the limits overlap and do not round outwards |
| Guardrails.WholeCentLimitsSettle | services/rules/guardrails.py:252-265 | overlapping whole-cent limits are enough for that |
| Guardrails.SmallBidDoesNotSettle | services/rules/guardrails.py:127-139 | a bid of three cents with a quarter allowed is a counterexample |
| Guardrails.AllowedAgain | services/rules/guardrails.py:192-277 | under that condition an allowed proposal's own value is allowed again, unclamped |
| ApplyGuardrails.Validate | services/actions/apply_guardrails.py:76-139 | admits exactly the items with sound evidence that no guard blocks and no limit would alter |
| ApplyGuardrails.ValidateBatch | services/actions/worker.py:423-455 | each item is judged after the changes and budget of those admitted before it |
| ApplyGuardrails.DailyChangesKept | services/actions/worker.py:434-454 | admitted changes never take the day past its limit |
| ApplyGuardrails.DailyBudgetKept | services/actions/worker.py:435-454 | admitted budget increases over known baselines never take the day past its cap |
| ApplyGuardrails.LivePricesAreSound | services/actions/apply_guardrails.py:129-134 | every admitted price is whole cents, in bounds, and within the allowed change of a positive baseline |
| LiveBatch.Screen | services/actions/worker.py:394-456 | a row is sent exactly when no human controls it and, live, there is consent and it is admissible after those admitted before it |
| LiveBatch.SentIsEligible | services/actions/worker.py:423-456 | live, the rows sent are the admitted ones among those no human controls |
| LiveBatch.PickedFewer | services/actions/worker.py:434-455 | whatever part of them is written adds up to no more |
| LiveBatch.RunOnce | services/actions/worker.py:458-542 | exactly the rows that pass are sent; what a live run asks the provider to write keeps the day's changes and budget within their caps and every price, as it stands in the row, in bounds; without consent or credentials it asks for nothing |
| Configuration.Overlay | services/config/inheritance.py:91-106 | one layer is put over the values and sources, or a hard or unknown key stops everything |
| Configuration.Resolve | services/config/inheritance.py:50-114 | the effective configuration, or an error exactly when there is none |
| Configuration.SourcesSupply | services/config/inheritance.py:66-114 | every value without a cap is the one its recorded source supplies, the most specific layer first |
| Configuration.CappedSupply | services/config/inheritance.py:7-12 | bid, daily budget and changes a day are what their layer supplies, or their own guard's value with its source when that is smaller |
| Configuration.ScopesAccepted | services/config/inheritance.py:36-45 | only tenant, marketplace and entity are scopes, each with an identifier, the tenant's its own |
| Configuration.HardGuardsStand | services/config/inheritance.py:97-98 | a hard guard keeps its default whatever the overrides say |
| Configuration.LimitsHold | services/config/inheritance.py:108-113 | bid, daily budget and changes a day are at most their guards, and the lower bid at most the upper |
| Overrides.History.PublishOverride | services/config/inheritance.py:136-188 | appends the next version of a scope, or refuses and changes nothing |
| Overrides.History.RollbackOverride | services/config/inheritance.py:195-214 | appends the target's values again, for the same scope only |
| Overrides.PublishedIsLatest | services/config/inheritance.py:163-169 | a published version is its scope's latest and no other scope's |
| Overrides.PublishedExactlyWhen | services/config/inheritance.py:136-166 | exactly which changes are published: scope, reason, role and acceptable values |
| Overrides.PublishedRow | services/config/inheritance.py:163-188 | the published version is the next of its scope after the one it supersedes, with the change's values, author and reason |
| Overrides.VersionsGrow | services/config/inheritance.py:169 | a scope never uses a version twice |
| Overrides.GoingBackRestores | services/config/inheritance.py:195-214 | going back to an attached version restores the configuration in force when it was its scope's latest |
| Overrides.NoGoingBackToDetached | services/config/inheritance.py:156-157 | a detached version cannot be gone back to |
| Canary.CanaryIds | services/config/simulation.py:72-87 | selection is refused exactly for percentages outside (0, 100] |
| Canary.CanarySize | services/config/simulation.py:75-87 | the count is the rounded-up percentage, never none of some, and everything at one hundred |
| Canary.CanariesGrow | services/config/simulation.py:80-87 | a larger percentage only adds entities after those already chosen |
| Canary.CanaryIgnoresOrder | apps/web/lib/config-rollouts.ts:15 | without digest collisions the order of the ids does not matter |
| Canary.CanariesByDigest | services/config/simulation.py:80-87 | those with the least digests are chosen |
| Canary.SimulationAffects | services/config/simulation.py:32-69 | exactly the unprotected entities whose spend would change are affected, within the limit |
| Canary.SimulationSums | services/config/simulation.py:38-52 | a simulation is refused exactly when its limit is negative or exceeded, and else sums spend, change and risk over what is unprotected |
| Canary.CanariesAreSafe | services/config/simulation.py:42-49 | no canary is protected and there are never more than the exposure limit |
| Canary.SimulationIgnoresOrder | services/config/simulation.py:38 | the simulation does not depend on the order of the candidates |
| Rollouts.Store.TransitionRollout | apps/web/lib/config-rollouts.ts:26-56 | one transition, or an error that leaves everything as it was |
| Rollouts.Store.AppendOverride | apps/web/lib/config-rollouts.ts:22-24 | a tenant override under the next version |
| Rollouts.TransitionKeepsOrder | packages/db/migrations/0052_configuration_rollout_activation.sql:12-53 | a transition records one event, and only one that may follow |
| RolloutLaws.WidenedExactlyWhen | apps/web/lib/config-rollouts.ts:26-50 | a rollout starts with a canary and then widens, each time by more |
| RolloutLaws.CompletedExactlyWhen | apps/web/lib/config-rollouts.ts:51-56 | it completes from a canary or an expansion at one hundred percent, with the proposal as the tenant's next override |
| RolloutLaws.TurnedBackExactlyWhen | apps/web/lib/config-rollouts.ts:34-48 | turning one back before completion changes no configuration |
| RolloutLaws.KeptLaw | packages/db/migrations/0051_configuration_rollout.sql:17 | a percentage is kept to the nearest hundredth, the higher of two |
| Rollouts.ExposureGrows | packages/db/migrations/0052_configuration_rollout_activation.sql:12-53 | exposure grows until completion, only rollback follows completion, and nothing follows rollback |
| Rollouts.RollbackUndoesCompletion | apps/web/lib/config-rollouts.ts:34-47 | rolling a completed rollout back succeeds exactly when no tenant override came in between, and then restores what the tenant's layer said before |
| Watermark.PlanHolds | services/ingest/pipelines/ads_daily.py:108-121 | exactly which days a plan holds: those after the watermark and the last few again, as far back as reports go |
| Watermark.PipelinePlans | services/ingest/pipelines/ads_daily.py:108-121 | 95 days back for ads and 730 for sales at first, and the last fourteen days again |
| Watermark.PlanClosesGapExactlyWhen | services/ingest/pipelines/sales_traffic.py:61-74 | a plan leaves no day after the watermark out exactly when the oldest one can still be had |
| Watermark.Pipeline.UpsertRows | services/ingest/pipelines/ads_daily.py:177-194 | rows are stored up to the first unusable one |
| Watermark.IngestingAgain | services/ingest/pipelines/ads_daily.py:183-192 | ingesting a report again changes nothing |
| Watermark.Pipeline.RunRequests | services/ingest/pipelines/ads_daily.py:272-290 | successes and failures add up to the requests, and exactly the good days are covered |
| Watermark.Pipeline.Run | services/ingest/pipelines/sales_traffic.py:250-263 | a run plans, requests, and raises the watermark only without failures |
| Watermark.WatermarkIsLatestFull | services/ingest/pipelines/ads_daily.py:256-269 | over live runs the watermark is the day before the latest full run, never past yesterday |
| Watermark.WatermarkNeverFalls | services/ingest/pipelines/sales_traffic.py:214-227 | it never falls |
| Watermark.NoGap | services/ingest/pipelines/ads_daily.py:108-121 | if full runs are close enough, every day from the first one's start to the watermark was requested and stored |
| Watermark.DryRunLeavesGap | services/ingest/pipelines/ads_daily.py:276-278 | after a dry run, a later live run covers of the days before it exactly those covered already and those from the raised watermark's start whose report was good |
| Watermark.DryRunKeepsCoverExactlyWhen | services/ingest/pipelines/ads_daily.py:308-309 | a dry run leaves every day up to the watermark covered exactly when the days it passes over were covered before |
| Watermark.GapStays | services/ingest/pipelines/ads_daily.py:108-121 | no later run, live or dry, asks for a day that was left out |
| CostLedger.Ledger.UpsertRow | services/economics/cost_import.py:130-175 | closes the older open row, overwrites a conflicting one, or inserts |
| CostLedger.Ledger.ImportCosts | services/economics/cost_import.py:178-187 | an import is its rows in order |
| CostLedger.ImportKeepsOneOpen | services/economics/cost_import.py:131-132 | after any imports a SKU has at most one open row |
| CostLedger.ImportApart | services/economics/cost_import.py:136-141 | SKUs do not touch each other's rows |
| CostLedger.ImportStaysApartExactlyWhen | packages/db/migrations/0003_rules_actions.sql:132-135 | in any ledger without overlap, one more row keeps windows apart exactly when it is apart from every window other than an open one it closes or overwrites |
| CostLedger.StaysDisjointExactlyWhen | services/economics/cost_import.py:133-160 | for windows in a row, one more open row does exactly when it starts no earlier than the open one, or replaces the only one |
| CostLedger.ClosedStaysDisjointExactlyWhen | services/economics/cost_import.py:142-145 | and a closed row exactly when it ends before all of them start |
| CostLedger.LedgerPerSku | services/economics/cost_import.py:130-187 | with open rows in non-decreasing order windows follow each other without gap or overlap, and the cost at any date is the last imported one that had started |

## Left out

- HTTP, OAuth, database plumbing, argument parsing, environment and logging: provider answers and query results are parameters.
- Concurrent action workers of one tenant: fetching approved actions takes no row lock, so one worker a tenant is assumed.
- Provider writes are not undone when a worker's transaction is rolled back later; the model's steps are whole transactions.
- Daylight-saving zones: schedules are modelled at a fixed offset, because aware datetimes of one zone compare by wall clock. Years past 9999 are not refused.
- JSON, CSV, ZIP, SHA-256, XML escaping of spreadsheet cells, and the tokeniser of search terms: libraries or regular expressions; tokenised rows and digests are inputs.
- Floating point: sums, products and quotients are exact, and NaN and infinities do not occur. SQL integers divide as numbers, and text compares by code point.
- Contributing queries kept as evidence with a finding, and campaign identifiers of a query: a sorted excerpt that decides nothing.
- Failure classification by regular expressions, the spread of retry delays and the text of error messages are parameters.
- `canceled` jobs and progress columns of report jobs: nothing in the repository cancels a job, and progress decides nothing.
- Routing finished scheduled reports to notification channels, and creating schedules beyond their first slot.
- The jitter of `backoff_sleep` and the catalogue of endpoints and their rates.
- The loop over several ads datasets: datasets have separate watermarks, so one is modelled with its settings.
- Parsing of cost rows and provider payloads: field-by-field checks without interplay.
- Row-level security, role tables, navigation and pages.
- RateLimit.TokenBucket.Acquire: proved for a caller alone on the bucket; with others on it the window bound holds but no caller is sure of a token.
- ActionLifecycle.Store.ReleaseDue: the chosen rows are given, because the locks of other workers may keep any due row out of the choice; their order and the limit are not modelled.
- Deliveries.Store.EnqueueDue: the chosen schedules are given for the same reason; the protocol's lemmas hold for every choice, so which are due, enabled, first in order and within the limit is not modelled.
- FifoCosts.InputOrderIrrelevant: needs distinct identifiers, because two receipts with one identifier and one date stay in the order in which they are given.
