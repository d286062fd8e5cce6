# Hierarchical timing engines of watchful_guerilla, in Dafny

The Ruby gem wraps blocks of application code in `measure(category,
*identifiers) { ... }` calls. Nested calls build a call tree, and when the
outermost call closes the engine prints per-category timing statistics. The
gem holds two versions of this engine, and both are modelled here:

- **WG** (`lib/w_g.rb`), the current engine. `measure` keeps a `@top`/`@root`
  pair of node pointers and links each new node under the current top or
  makes it the root. `sumarize` walks the finished tree in post-order and
  splits each node's time into self time and overhead. `increment_category_time`
  and `increment_summary_category` fill the per-category `[self, overhead,
  errored]` table and the super-category buckets found with
  `/\((.*)\)\:/`. `print_measured_results` sorts and partitions them into the
  report.
- **WatchfulGuerilla** (`lib/watchful_guerilla.rb`), the earlier engine.
  Each node works out its own `child_time`, `self_time` and `pure_time` as
  its block ends and is aggregated at once. A nested call charges its
  bookkeeping to the parent's `overhead_time`. An exception is rescued into
  the node and raised again afterwards. The report adds TOTALS and
  SBN TOTALS lines.

Durations are exact `real` values supplied as inputs rather than clock
readings. A caller's block is a small program (`Blocks.Work`): it spends time,
raises, runs two steps in sequence, rescues, or calls `measure` on a nested
block. Each `measure` call carries the engine's own costs: entering, leaving,
and, for a root, building the report's figures and writing its lines out
(`Blocks.Costs`). WG times the building as `print_time` but not the writing
(`lib/w_g.rb:91-146`). `Blocks.Exec` is the block's behaviour without any engine, and it is
the reference that both engines are proved transparent against. Ruby hashes
are insertion-ordered association lists (`Tables`). `sort_by { ... }.reverse`
is a descending insertion sort (`Sorting.SortDesc`).

The WG engine keeps node objects on a heap, a sequence in allocation order,
so `@top` and `@root` are optional heap positions, as in the Ruby
(`WgMeasure`). The WatchfulGuerilla engine is modelled structurally
(`GuerillaMeasure`): a run returns the nodes its measured calls closed. That
return is the link to the parent. Returning from the nested run is the
restoring of `@top`.

Modules:

| module | file | covers |
|---|---|---|
| Text | text.dfy | `identifier`, `start_with?`, `blank?`, long-call entries |
| Tables, Sums, Sorting | tables.dfy, sums.dfy, sorting.dfy | hashes, sums, sorting, filtering |
| Blocks | blocks.dfy | caller blocks and their uninstrumented semantics |
| WgConfig | wg_config.dfy | WG setters and defaults |
| WgTree, WgAggregate | wg_tree.dfy, wg_aggregate.dfy | WG nodes, `sumarize`, `increment_category_time` |
| WgSuper | wg_super.dfy | the super-category regular expression |
| WgReport, WgReportProps | wg_report.dfy, wg_report_props.dfy | WG `print_measured_results` |
| WgMeasure | wg_measure.dfy | WG `measure` |
| GuerillaConfig | guerilla_config.dfy | WatchfulGuerilla setters and the settings read |
| GuerillaNode, GuerillaAggregate | guerilla_node.dfy, guerilla_aggregate.dfy | WatchfulGuerilla nodes and `increment_category_time` |
| GuerillaReport | guerilla_report.dfy | WatchfulGuerilla `print_measured_results` |
| GuerillaMeasure | guerilla_measure.dfy | WatchfulGuerilla `measure` and `Node#measure` |

Two facts about the code shape the model:

- Neither engine clamps negative derived times: `self_time` is
  `total_time - child_time` as computed (`lib/w_g.rb:258`,
  `lib/watchful_guerilla.rb:194-195`).
- WG marks a node whose block raised only by `complete` staying false.
  WatchfulGuerilla stores the exception on the node and raises it again
  after the node has been aggregated.

## Model

| member | source | states |
|---|---|---|
| Text.Identifier | lib/w_g.rb:267-269 | The identifier starts with the category, is the category alone when there are no identifiers, and has the length of the parts joined by `", "` |
| Text.IdentifierSnoc | lib/watchful_guerilla.rb:204-206 | Adding an identifier appends `", "` and that identifier to the label |
| Tables.Put | lib/watchful_guerilla.rb:156 | `h[k] = v`: afterwards `k` maps to `v`, every other key maps to what it did before, and keys stay distinct |
| Tables.GetPermutation | lib/w_g.rb:104 | Reordering a hash's entries changes no lookup |
| Sorting.SortDesc | lib/w_g.rb:104 | `sort_by { v[0] }.reverse` yields a permutation of the entries in non-increasing key order |
| Sorting.Select | lib/w_g.rb:104-109 | Filtering and mapping keep exactly the images of the kept entries |
| Sorting.SelectOrdered | lib/w_g.rb:104-109 | Filtering and mapping a sorted list keeps it sorted when the mapping preserves the key |
| WgConfig.Tracing | lib/w_g.rb:16-18 | `tracing(state)` sets the trace flag to `state` and changes nothing else |
| WgConfig.Profiling | lib/w_g.rb:20-22 | `profiling(state)` sets the profile flag and changes nothing else |
| WgConfig.Measuring | lib/w_g.rb:24-26 | `measuring(state)` sets the measure flag and changes nothing else |
| WgConfig.ReportingThreshold | lib/w_g.rb:28-30 | The stored threshold is in seconds: times 1000 it gives back the milliseconds argument; nothing else changes |
| WgConfig.DefaultSettings | lib/w_g.rb:38-42 | After loading, tracing, profiling and measuring are off and the threshold is 0.02 s |
| WgTree.SelfTime | lib/w_g.rb:255-258 | An incomplete node has self time 0; a complete one has self time plus child time equal to its block time |
| WgTree.OverheadShare | lib/w_g.rb:162 | An incomplete node adds no overhead; a complete one adds its outer time less its block time |
| WgTree.IncrementEntry | lib/w_g.rb:159-163 | The node's category gets its self time and overhead share added and its errored flag OR-ed with "not complete"; other categories are unchanged |
| WgTree.Summarize | lib/w_g.rb:255-261 | `sumarize` returns the node's outer wall time and leaves the accumulators as if the subtree had been aggregated in post-order |
| WgTree.SummarizeAll | lib/w_g.rb:256 | The children's returns add up to their outer times, and they are aggregated left to right |
| WgTree.PostOrderStep | lib/w_g.rb:255-260 | A node is aggregated right after its children's subtrees |
| WgAggregate.CategoryAggregate | lib/w_g.rb:159-163 | Each category's entry is present exactly when some node has that category, and then holds the sums of those nodes' self times and overhead shares, with the errored flag set exactly when one of them is incomplete |
| WgAggregate.LongCallsAggregate | lib/w_g.rb:165 | `@long_calls` lists `(identifier, self_time)` for exactly the nodes above the threshold, in aggregation order |
| WgAggregate.SlowMembers | lib/w_g.rb:165 | A node is recorded as slow exactly when its self time is strictly above the threshold |
| WgAggregate.TableDistinct | lib/w_g.rb:160 | The category table never holds a category twice |
| WgAggregate.TableTotals | lib/w_g.rb:159-163 | Over any set of categories, the table's columns add up to the nodes' self times and overhead shares, so no node is dropped or counted twice |
| WgAggregate.Telescope | lib/w_g.rb:255-261 | Self times plus overhead shares over a whole tree add up to the root's outer wall time |
| WgSuper.MatchFrom | lib/w_g.rb:111 | From a `(`, the longest newline-free match ending in `):` |
| WgSuper.FirstMatch | lib/w_g.rb:111 | The match with the leftmost start, then the longest group, or none when nothing matches |
| WgSuper.SuperCategoryMatch | lib/w_g.rb:111 | The super-category is group 1 of the match Ruby reports, and nil exactly when the pattern matches nowhere |
| WgReport.Pick | lib/w_g.rb:104-109 | `errors` (or `blocks`) holds a line for exactly the entries with that errored flag, keeping the sorted order |
| WgReport.PickCount | lib/w_g.rb:104-109 | `errors` and `blocks` together have one line per category |
| WgReport.PickDistinct | lib/w_g.rb:104-109 | No category appears twice across `errors` and `blocks` |
| WgReport.IncrementSummary | lib/w_g.rb:153-157 | The named bucket gets the times added, starting from `[0, 0]`; other buckets are unchanged |
| WgReport.AddToBucketsGet | lib/w_g.rb:110-112 | The corrected loop pass adds the category once to the `""` bucket and to its super-category's bucket, and to nothing else |
| WgReport.AddToBucketsAsWrittenGet | lib/w_g.rb:110-112 | The pass as written touches the same buckets, except that a category whose captured name is empty is added to `""` a second time |
| WgReport.SuperTotalsDistinct | lib/w_g.rb:110-112 | Bucket names stay distinct |
| WgReport.SuperBucket | lib/w_g.rb:110-112 | With the corrected loop, each bucket holds the sums over exactly the categories that fall in it; `""` holds every category once |
| WgReport.SuperBucketAsWritten | lib/w_g.rb:110-112 | With the loop as written, for any entries, every named bucket is as with the corrected loop, and `""` also holds, a second time, the times of every category whose captured name is empty |
| WgReport.GrandTotalOfAsWritten | lib/w_g.rb:110-125 | The grand-totals line as written exceeds the corrected one by the times of the categories whose captured name is empty |
| WgReport.EmptySuperCategory | lib/w_g.rb:111 | The pattern captures an empty name from `"(): x"` |
| WgReport.SuperTotalsDoubleCount | lib/w_g.rb:110-112 | As written, a category with an empty super-category is counted twice in the `""` bucket |
| WgReport.Visible | lib/w_g.rb:115-117 | `totals` shows exactly the non-blank buckets, keeping the sorted order |
| WgReportProps.ReportSource | lib/w_g.rb:99-102 | The report is built from fresh accumulators filled by `sumarize` on the root |
| WgReportProps.EntryOfTable | lib/w_g.rb:159-163 | Every category-table entry is a category of the tree with the sums of its nodes |
| WgReportProps.TableOfCategory | lib/w_g.rb:159-163 | Every category of the tree has its entry in the table |
| WgReportProps.ReportCategories | lib/w_g.rb:104-109 | A line is under `errors` exactly when its category has an incomplete node, and under `blocks` exactly when it has nodes and none is incomplete; it carries the category's sums; names are distinct and both lists are descending |
| WgReportProps.BucketOfNodes | lib/w_g.rb:110-112 | With the corrected loop, bucket `g` is present exactly when some node's category falls in it, and holds the sums of those nodes |
| WgReportProps.ReportGrandTotals | lib/w_g.rb:123-125 | With the corrected loop, the grand self time is all nodes' self times; the overhead is all overhead shares plus `print_time`; the total is the root's outer time plus `print_time` |
| WgReportProps.ReportGrandTotalsAsWritten | lib/w_g.rb:110-125 | As written, for any tree, the grand self time, overhead and total each also count a second time the self times and overhead shares of the nodes whose category captures an empty name |
| WgReportProps.AsWrittenSurplus | lib/w_g.rb:110-125 | The as-written grand-totals line is the corrected one plus the times of the nodes whose category captures an empty name |
| WgReportProps.GrandTotalsAgree | lib/w_g.rb:110-125 | For a tree with no category that captures an empty name, the code as written prints the corrected grand totals |
| WgReportProps.ReportTotals | lib/w_g.rb:115-117 | `totals` has one line for each non-blank super-category some node carries, with those nodes' sums, in descending order |
| WgReportProps.TotalsLine | lib/w_g.rb:115-117 | A `totals` line names a non-blank super-category of some node, with that bucket's sums |
| WgReportProps.TotalsHasBucket | lib/w_g.rb:115-117 | Every non-blank super-category of some node gets a `totals` line |
| WgReportProps.ShownLine | lib/w_g.rb:116 | A shown line carries the value of a non-blank bucket |
| WgReportProps.ReportLongBlocks | lib/w_g.rb:119-121 | `long_blocks` is a permutation of `(identifier, self_time)` for the nodes above the threshold, in descending order |
| WgReportProps.LongCallMember | lib/w_g.rb:165 | A long call is recorded exactly for a slow node |
| WgMeasure.Open | lib/w_g.rb:182-190 | A new node is allocated and becomes `top`; under a root it is appended as the previous top's last child, otherwise it becomes the root and is linked nowhere; no other node changes |
| WgMeasure.Run | lib/w_g.rb:176-202 | A run keeps the stack discipline (`top` and `root` come back as they were; only the current top changes, and it only gains children), ends exactly as the uninstrumented block, and prints only at the top level |
| WgMeasure.MeasureCall | lib/w_g.rb:176-202 | One call keeps the same discipline, allocates at least one node, and passes the block's outcome on |
| WgMeasure.LeaveKeeps | lib/w_g.rb:192-195 | The `ensure` clause restores what opening the node broke |
| WgMeasure.RunDisabled | lib/w_g.rb:177 | With measuring off the engine is untouched, nothing prints, and the block takes its uninstrumented time |
| WgMeasure.NestedElapsed | lib/w_g.rb:180-197 | Below the top level a block takes its uninstrumented time plus the bookkeeping of its `measure` calls, raised or not |
| WgMeasure.MeasureNode | lib/w_g.rb:183-198 | The new node carries the category and identifiers and is linked as the last child of the previous top; a raised block leaves it incomplete with zero times; a returned one gives it the block and call times |
| WgMeasure.TopLevelRaised | lib/w_g.rb:191-200 | A top-level call whose block raises prints nothing |
| WgMeasure.TopLevelReport | lib/w_g.rb:197-200 | A top-level call whose block returns prints one report about its own tree; the call's time is the root's outer time plus `print_time` plus the untimed writing of the lines |
| WgMeasure.TopLevelElapsed | lib/w_g.rb:180-200 | A top-level call takes the block's uninstrumented time plus every entry and exit cost, the report's building and its output |
| WgMeasure.GrandTotalIsCallTime | lib/w_g.rb:123-146 | The grand total printed plus the time spent writing the report out, which `print_time` does not cover, equals the wall time of the whole top-level call |
| WgMeasure.NestedOwn | lib/w_g.rb:191-197 | Below the top level a block that cannot raise takes its own time plus the outer times of the nodes it appends |
| WgMeasure.FinishedSelf | lib/w_g.rb:256-258 | A finished node's self time is its block time less its children's outer times |
| WgMeasure.RootSelfTime | lib/w_g.rb:255-258 | The root's self time is exactly the block's own time; nested calls and their bookkeeping go to the children |
| GuerillaConfig.Set | lib/watchful_guerilla.rb:21-35 | Each setter writes its own attribute, the threshold in seconds, and assigns no instance variable |
| GuerillaConfig.LoadedSettings | lib/watchful_guerilla.rb:42-45 | After loading, the attributes are off with a 20 ms threshold, and every instance variable is nil |
| GuerillaConfig.ApplyKeepsIvars | lib/watchful_guerilla.rb:5-8 | No sequence of setter calls assigns an instance variable |
| GuerillaConfig.GateNeverOpens | lib/watchful_guerilla.rb:93 | As written, `measure` never measures, whatever setters are called |
| GuerillaConfig.GateFollowsMeasuring | lib/watchful_guerilla.rb:29-31 | With the intended gate, `measuring(state)` decides measuring until the next `measuring` call |
| GuerillaConfig.ThresholdNeverSet | lib/watchful_guerilla.rb:158 | As written, the threshold read is always nil |
| GuerillaConfig.ThresholdFollowsSetter | lib/watchful_guerilla.rb:33-35 | With the intended read, `reporting_threshold(ms)` sets the threshold to `ms` milliseconds until the next such call |
| GuerillaNode.IncrementEntry | lib/watchful_guerilla.rb:151-156 | The node's category gets `[total - overhead, pure, overhead]` added, starting from `[0, 0, 0]`; other categories are unchanged |
| GuerillaNode.PostOrderStep | lib/watchful_guerilla.rb:184-198 | A node is aggregated right after its children's subtrees |
| GuerillaAggregate.CategoryAggregate | lib/watchful_guerilla.rb:151-156 | Each category's triple is present exactly when some node has that category, and then holds the sums of those nodes' block-less-overhead, pure and overhead times |
| GuerillaAggregate.LongCallsAggregate | lib/watchful_guerilla.rb:158 | `@long_calls` lists `[identifier, pure_time]` for exactly the nodes above the threshold, in aggregation order |
| GuerillaAggregate.SlowMembers | lib/watchful_guerilla.rb:158 | A node is recorded as slow exactly when its pure time is strictly above the threshold |
| GuerillaAggregate.TableDistinct | lib/watchful_guerilla.rb:152-156 | The category table never holds a category twice |
| GuerillaAggregate.TableTotals | lib/watchful_guerilla.rb:151-156 | Over any set of categories, the pure and overhead columns add up to the nodes' pure times and overheads |
| GuerillaReport.TallyIsSum | lib/watchful_guerilla.rb:124-130 | The loop's running totals end as the column sums over the kept categories |
| GuerillaReport.LineTotals | lib/watchful_guerilla.rb:124-130 | A totals line over some categories is the pure times and overheads of exactly the nodes in them |
| GuerillaReport.ReportCategories | lib/watchful_guerilla.rb:124 | The table lists each category once, with its nodes' sums, and no other, from the largest block time down |
| GuerillaReport.ReportTotals | lib/watchful_guerilla.rb:121-130 | TOTALS is all nodes' pure time and overhead; SBN TOTALS is the same over categories starting with `(SBN):` |
| GuerillaReport.ReportLongCalls | lib/watchful_guerilla.rb:145 | The long calls listed are a permutation of `[identifier, pure_time]` for exactly the slow nodes, from the largest pure time down |
| GuerillaReport.SlowCalls | lib/watchful_guerilla.rb:158 | A long call is recorded exactly for a slow node |
| GuerillaMeasure.Run | lib/watchful_guerilla.rb:92-118 | A run ends exactly as the uninstrumented block, and only a top-level call prints |
| GuerillaMeasure.MeasureCall | lib/watchful_guerilla.rb:92-118 | One call closes exactly one node at its level and passes the block's outcome on, so an exception is raised again |
| GuerillaMeasure.RunDisabled | lib/watchful_guerilla.rb:93 | With measuring off no node is made and nothing is charged, aggregated or printed, and the block takes its uninstrumented time |
| GuerillaMeasure.ElapsedSplit | lib/watchful_guerilla.rb:96-115 | Below the top level a block's time is its own time plus its closed nodes' block times plus the overhead charged upwards |
| GuerillaMeasure.MeasureNode | lib/watchful_guerilla.rb:184-198 | The node carries the category, identifiers and the exception raised; its pure time is exactly the block's own time; the call's time is block time plus bookkeeping, and for a root also the report's computing and output |
| GuerillaMeasure.PureSum | lib/watchful_guerilla.rb:193-195 | Below the top level the pure times of all nodes closed add up to the block's time outside its own code |
| GuerillaMeasure.OverheadSum | lib/watchful_guerilla.rb:115 | The overheads of all nodes closed, plus what is charged upwards, are the entry and exit costs of every nested call |
| GuerillaMeasure.AggregatedInPostOrder | lib/watchful_guerilla.rb:184-198 | Every node is aggregated as it closes, so the accumulators end as a post-order fold of the closed subtrees |
| GuerillaMeasure.RootCall | lib/watchful_guerilla.rb:100-113 | A root call prints what its own tree aggregates to, whatever the accumulators held before |
| GuerillaMeasure.TopLevelPrints | lib/watchful_guerilla.rb:110-113 | Each top-level call is a root and prints exactly once, in order, the aggregation of its own tree |
| GuerillaMeasure.RootTree | lib/watchful_guerilla.rb:115 | A root tree's pure times add up to the block's uninstrumented time, and its overheads to the nested calls' bookkeeping |
| GuerillaMeasure.RootTotals | lib/watchful_guerilla.rb:120-139 | The printed TOTALS are the block's uninstrumented time and the nested calls' bookkeeping, also when the block raised, and the outcome is passed on after printing |

## Left out

- Clock reads (`Benchmark.realtime`, `Time.current`): durations and bookkeeping costs are inputs (`Blocks.Work`, `Blocks.Costs`).
- `ap` output and `fmt`/`format("%.3f")`: a report is the list of values it prints, not the text.
- Tie order of `sort_by(...).reverse`: Ruby's sort is not stable, so only descending order and permutation are stated.
- Floating-point rounding: times are exact reals.
- `profile`, `pause` and `resume` in both engines: they drive the external RubyProf profiler and write HTML files.
- `configure`: it calls into ActiveRecord.
- `filter`: Rails controller glue and logging.
- `measure_block`: it calls `toggle_measuring`, which neither file defines.
- The trace line `measure` prints when tracing is on: output only.
- `lib/w_g/method_decorator.rb`, the Rails generators and the initializer template: reflection and file templating.
- Ruby truthiness of the setters' `!!state`: setter arguments are booleans.
- Exceptions other than StandardError: they escape `Node#measure`'s `rescue` without restoring `@top`; a block here raises only StandardError (`Blocks.Exn`).
- `@category_overhead_times` (`lib/watchful_guerilla.rb:104`) is reset and never read, so it is not modelled.
- WatchfulGuerilla's node side (`lib/watchful_guerilla.rb:175-206`) is written as private instance methods of the module, and line 99 calls `new` on the module, which a Ruby module does not respond to. The model treats them as a node class, as WG does.
- WatchfulGuerilla's `measure` is modelled with the gate and threshold read from the attributes the setters write. The as-written reads appear only in `GuerillaConfig`, under Findings.
- WgMeasure.Run, GuerillaMeasure.Run: the configuration is one value for the whole run, so a setter called from inside a measured block is not modelled. WG reads `@measure_enabled` at every call (`lib/w_g.rb:177`), but reads `@reporting_threshold` only when the root prints, through `sumarize` (`lib/w_g.rb:102`, `lib/w_g.rb:165`). WatchfulGuerilla reads the gate at every call (`lib/watchful_guerilla.rb:93`) and compares against the threshold as each node closes (`lib/watchful_guerilla.rb:158`). Two behaviours are therefore outside the model. First, `measuring(false)` inside a block leaves the later nested calls unmeasured, while the enclosing call still closes and prints. Second, a threshold changed after a node closes but before the root prints applies to every node in WG, but only to later closes in WatchfulGuerilla.
- The default `category = '*unspecified*'` of `measure` (`lib/w_g.rb:176`, `lib/watchful_guerilla.rb:92`) is the constant `Blocks.UnspecifiedCategory`. A `Measured` step always carries its category, so a call that omits it is a step with that constant.
- Concurrency: both engines keep one process-wide `@top`/`@root` pair; a single call stack is modelled.
- WgMeasure.NestedOwn: stated only for blocks with no failing step anywhere, including a step that a `rescue` catches. When a nested `measure` block raises, its node stays incomplete and its outer time becomes its children's outer times. The call's entry and exit costs and the raised block's own time still pass in the enclosing block's wall time, and the equation has no term for them.
- WgMeasure.RootSelfTime: stated only for blocks with no failing step anywhere. When a nested call's block raises and an enclosing `rescue` catches it, the root still prints, and its self time also holds that call's entry and exit costs and the raised block's own time. A root whose own block raises prints nothing.
- WgReport.AddToBucketsGet: states the corrected loop pass. The pass as written adds a category whose captured name is empty to `""` twice; `WgReport.AddToBucketsAsWrittenGet` states that.
- WgReportProps.BucketOfNodes: states the buckets of the corrected loop. As written, the `""` bucket also holds a second time the nodes whose category captures an empty name; `WgReport.SuperBucketAsWritten` states that for any entries.
- WgReportProps.ReportGrandTotals: states the grand totals of the corrected loop, which `PrintMeasuredResults` uses. As written they are larger by the times of the nodes whose category captures an empty name, as `WgReportProps.ReportGrandTotalsAsWritten` states for any tree. `WgReportProps.GrandTotalsAgree` shows the two agree when no category captures an empty name.
- WgMeasure.GrandTotalIsCallTime: relies on the corrected grand totals. With the loop as written, the grand total also counts a second time the nodes whose category captures an empty name.
- GuerillaMeasure.ElapsedSplit, GuerillaMeasure.MeasureNode, GuerillaMeasure.PureSum, GuerillaMeasure.RootTree, GuerillaMeasure.RootTotals, WgMeasure.NestedElapsed, WgMeasure.NestedOwn, WgMeasure.RootSelfTime, WgMeasure.TopLevelElapsed, WgMeasure.TopLevelReport, WgMeasure.GrandTotalIsCallTime: the few statements of `measure` outside every `Benchmark.realtime` take no time in the model. In WG these are lines 177-179, 197-199 and 201; in WatchfulGuerilla they are lines 93-95 and 115-117. In the program that time is charged to no node and lands in the enclosing node's self or pure time, so each of these equalities would gain the sum of those slivers.

## Findings

| source | as written | input that shows it | evidently intended | confidence | as-written member | corrected member |
|---|---|---|---|---|---|---|
| lib/w_g.rb:110-112 | A category whose parenthesised part is empty, such as `"(): x"`, captures the super-category `""`. Because `""` is truthy in Ruby, the category is added to the `""` grand-total bucket a second time (for every input: `WgReport.SuperBucketAsWritten`, `WgReportProps.ReportGrandTotalsAsWritten`). | one category `"(): x"` with self time 1: the grand self time is 2 | every category counts once in the `""` bucket; `totals` already hides blank names (line 116) | not executed | WgReport.SuperTotalsDoubleCount | WgReport.SuperBucket |
| lib/watchful_guerilla.rb:93 | `measure` gates on `@measure_enabled`. `measuring` writes the `mattr_accessor` attribute instead (line 30), which is a class variable, so the instance variable stays nil. | `measuring(true)` followed by any `measure` call: the block just runs | measure when `measuring(true)` was called | not executed | GuerillaConfig.GateNeverOpens | GuerillaConfig.GateFollowsMeasuring |
| lib/watchful_guerilla.rb:158 | `increment_category_time` compares with `@reporting_threshold`, which nothing assigns, so once measuring runs `pure_time > nil` raises. | `reporting_threshold(20)`, then any node reaching `increment_category_time` | compare with the threshold `reporting_threshold` set | not executed | GuerillaConfig.ThresholdNeverSet | GuerillaConfig.ThresholdFollowsSetter |
