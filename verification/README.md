# A Dafny model of the code generator's core

The generator turns Lean definitions, held in a small expression IR, into Rust. Each
definition is alpha-normalised, its join points are expanded, it is normalised again, and
the result is lowered: self tail calls to loops, list results to caller-owned buffers, an
accumulated list to one that is extended in place. Every step relies on something an earlier
step established. This project models those steps over one IR with one evaluator and proves
that each keeps the meaning of every definition. It also models four smaller stateful cores:
the bump allocator of Wasm guests, the bounded parallel map, the acyclicity check of the
proof-root graph, and the parser's iterative let spine.

- `Ir.dfy`, `Semantics.dfy`: the IR and its evaluator. Outcomes are a value, a compute error,
  a panic, `Stuck` (code rustc would refuse) and `OutOfFuel`. Evaluation is strict and left to
  right; a join point is a lexically scoped local function. Fuel bounds nested calls and
  nested jumps. Preservation theorems equate outcomes at every bound on calls; those about
  join expansion ask that the bound on jumps covers the 128 nested jumps the pass admits.
- `Operators.dfy`: what the operators and matches of that evaluator compute, by laws.
- `Paths.dfy`: places in a term as paths of child indices, in which several analyses are stated
  from the outside.
- `JoinExpansion.dfy`, `JoinCost.dfy`, `JoinCycles.dfy`, `JoinFactoring.dfy`, `Diamonds.dfy`,
  `DiamondChains.dfy`, `JoinPass.dfy`, `DeadJoins.dfy`: guarded expansion of join points.
  `DeadJoins.ExpansionRefinesRuns` is the preservation theorem.
- `Naming.dfy`, `NamePlaces.dfy`, `NamingMeaning.dfy`, `JoinSource.dfy`: normalisation, which
  names it avoids, why it keeps meaning, and why the condition on dead joins can be read off the
  source.
- `TailCalls.dfy`, `PathUses.dfy`, `UsePlaces.dfy`, `MoveCheck.dfy`, `OwningUses.dfy`,
  `OwnedAccumulators.dfy`, `MovedTwice.dfy`: loops, moves, owned lists.
- `Pipeline.dfy`, `OwnedWorkers.dfy`: the chain as a whole, up to the loop, the filled buffer
  and the worker with owned lists.
- `Fallibility.dfy`, `BoundedNat.dfy`: which definitions can fail, what 64-bit arithmetic
  computes.
- `Builder.dfy`, `BuilderPlaces.dfy`, `LazyLists.dfy`, `DeferredLists.dfy`: lists in caller
  buffers, which bodies can be built into one, and what a failure means when list bindings are
  deferred.
- `Wrappers.dfy`: options and results.
- `BumpAllocator.dfy`, `ParallelMap.dfy`, `RootGraph.dfy`, `LetSpineParser.dfy`,
  `LetSpineLanguage.dfy`: the cores beside the compiler.

Names are strings. `Naming.Lexicon` abstracts what the target language says about them: the
NFC key of a rendered identifier (an uninterpreted function that fixes `prod_local_N`), which
identifiers can be bound, and what a call renders as. Definition names in a module are
distinct. Strict operators are one node, `Prim`, because all passes traverse them alike.

Where the code and its documentation differ, the model follows the code:

- The renderer's comment (`rust/prod-codegen/src/lib.rs:2824`) says that a join without jumps
  is just a block, and the join pass emits it so. The block is executed although the lexical
  meaning never runs it. `DeadJoins.DeadJoinPanics` is an accepted body whose run changes;
  `JoinSource.Meek` is what a caller can check of a source to know that no run does, with two
  strengths: dead joins that only name and build values change nothing, those that cannot fail
  change nothing unless the emitted code does not compile. `DeadJoins.InertHeadExact` gives the
  condition exactly for bodies that start with a dead join that only names and builds values:
  it must not use its own parameters.
- A comment in `generate_def_in` (`rust/prod-codegen/src/lib.rs:1373-1374`) says that ownership
  is planned against the original declaration and that shadowing is excluded. Ownership is
  decided there, but the loop is planned after normalisation, and a binder that hides a
  borrowed formal loses the loop: `OwnedWorkers.ShadowingLosesLoop` is the example,
  `OwnedWorkers.LoopSurvives` the exact condition. The worker is right with and without it.
- The counts that decide that a list is moved (`rust/prod-codegen/src/lib.rs:631-704`,
  `rust/prod-codegen/src/owned_accumulators.rs:41-89`) see the scrutinee of a match once. The
  arm of `Nat.succ` repeats its text (`rust/prod-codegen/src/lib.rs:2958-2963`), so a list that
  it moves is moved twice, and the compiler refuses the crate. `MovedTwice.RereadingRefused` is
  an accepted accumulator, `MovedTwice.LocalMovedTwice` a let-bound list;
  `OwnedAccumulators.CompilesExactly` and `MoveCheck.MovedOnceCompiles` say exactly when the
  move check passes.
- Builder mode never evaluates a list that is bound and not used, so `Builder.BuilderRuns`
  speaks of successful reference runs; `LazyLists.LostInRun` is a definition whose failure is
  lost, and `LazyLists.OnDemandExact` says for every run whether one is.
  `DeferredLists.ResolvedExact` is the claim without exceptions where every deferred list is
  used on every path, `Builder.PromptExact` the one without deferred lists, errors included.
- The grammar in the parser's header lets every identifier stand for a variable. A name that
  starts like a boolean or a number is read as that literal, with the rest of the name left
  over; `LetSpineParser.VarReadsBack` says exactly which names are safe.
- `checked_shl` drops the bits shifted out; `BoundedNat.ShlExact` says when left shift is exact.

## Model

| member | source | states |
|---|---|---|
| `Operators.ArithMeans` | rust/prod-codegen/src/lib.rs:2685-2744 | what every operator computes, on the bounded and on the unbounded machine, by laws: sum, product and power on success; the difference that makes up for the subtrahend, or zero; the quotient between whose multiples the dividend lies, or zero; the remainder below the divisor, or the dividend; the quotient by a power of two for a right shift; comparisons are the order; which results are errors |
| `Operators.MeansOne` | rust/prod-codegen/src/lib.rs:2685-2744 | the laws leave one outcome for each pair of operands |
| `Operators.PowerLaws` | rust/prod-codegen/src/lib.rs:2726-2740 | powers turn sums of exponents into products, so the power operator is the power of arithmetic |
| `Operators.PrimMeans` | rust/prod-codegen/src/lib.rs:3339-3357 | an operator node whose two operands evaluate to naturals evaluates to what the laws say of them |
| `Operators.ListsMean` | rust/prod-codegen/src/lib.rs:2685-2694 | append keeps both operands in order, cons puts one element in front, length counts, and other values are compared for equality |
| `Operators.RecordsMean` | rust/prod-codegen/src/lib.rs:2941-2966 | projecting a field from a constructed record gives the operand in that place |
| `Operators.MatchConstructed` | rust/prod-codegen/src/lib.rs:2941-2966 | an alternative of the constructor that built a value binds the operands it was built from |
| `Operators.ConstructMatched` | rust/prod-codegen/src/lib.rs:2941-2966 | and whatever an alternative binds builds the value again |
| `Operators.MatchNatural` | rust/prod-codegen/src/lib.rs:2958-2963 | a natural matches zero or the successor of its predecessor, never both |
| `JoinCost.Table.Measure` | rust/prod-codegen/src/joins.rs:45-97 | on success the cost is the exact size and jump nesting of the fully expanded tree, within both limits; a limit error means the expansion would be too deep for the jumps still allowed or too large; an unsupported join means no expansion of any depth exists; the memo stays exact and disjoint from the active set |
| `JoinCost.Table.MeasureJump` | rust/prod-codegen/src/joins.rs:52-84 | a jump adds its parameters, its arguments and its continuation, one level deeper, with the arity and cycle refusals first |
| `JoinCost.Table.MeasureTarget` | rust/prod-codegen/src/joins.rs:60-68 | the continuation is measured once: a memoised cost is exact, and while it is measured its label is active |
| `JoinCost.Table.MeasureChildren` | rust/prod-codegen/src/joins.rs:89-95 | the running total over children is exact, and stopping early is justified by the remaining budget |
| `JoinCost.ActiveTarget` | rust/prod-codegen/src/joins.rs:54-56 | a jump to an active label closes a cycle, so no expansion of any depth exists |
| `JoinCost.ChildrenCost` | rust/prod-codegen/src/joins.rs:89-95 | expanded size is one plus the children's sizes, nesting the deepest child's, and a node expands exactly when all its children do |
| `JoinCost.JumpCost` | rust/prod-codegen/src/joins.rs:69-83 | the expansion of a jump: one let per parameter, the arguments, the continuation one level deeper |
| `JoinCost.Stable` | rust/prod-codegen/src/joins.rs:57-68 | an expansion that exists within a budget is the same tree, with the same cost, for every budget its nesting fits |
| `JoinCost.NoDescent` | rust/prod-codegen/src/joins.rs:54-56 | a term whose expansion needs itself one level lower never expands: the argument behind refusing cycles |
| `JoinFactoring.TakeTailEval` | rust/prod-codegen/src/joins.rs:125-148 | evaluating the source is evaluating the argument selected by the branches and then jumping with it, first error included |
| `JoinFactoring.TakeTailNames` | rust/prod-codegen/src/joins.rs:125-148 | taking the tail arguments keeps binders, removes only the destination label from the free names, and strictly shrinks the tree |
| `JoinFactoring.HoistEval` | rust/prod-codegen/src/joins.rs:193-200 | hoisting a shared tail jump out of an if or match keeps value and error order |
| `JoinFactoring.FactorNames` | rust/prod-codegen/src/joins.rs:150-202 | factoring keeps alpha-uniqueness, binders and free names, so a jump only moves where its label is in scope, and never grows the tree |
| `JoinFactoring.FactorEval` | rust/prod-codegen/src/joins.rs:150-202 | the factored term has the outcome of the source term under related joins, in any mode of the traversal |
| `JoinFactoring.FactorRun` | rust/prod-codegen/src/joins.rs:255-273 | factoring every definition of a module preserves every run |
| `JoinFactoring.Factorer.Expression` | rust/prod-codegen/src/joins.rs:150-202 | the traversal yields the factored tree and leaves the set of available labels as it found it |
| `Diamonds.FactorComplete` | rust/prod-codegen/src/joins.rs:150-202 | the factored term has no diamond left: no tail if or match of which every end, through let bodies and branches, jumps with one argument to the same label in scope; places, tail places and scopes are paths of child indices |
| `Diamonds.FactorIdle` | rust/prod-codegen/src/joins.rs:150-202 | a term without such diamonds stays as it is: nothing else is rewritten |
| `Diamonds.DestinationExactly` | rust/prod-codegen/src/joins.rs:101-123 | the pass finds a common destination exactly when every end of the term is a one-argument jump to it |
| `DiamondChains.ChainCosts` | rust/prod-codegen/src/joins.rs:333-372 | the exact cost of a chain of n diamonds, ifs or matches in any order: nesting n; factored 7n - 2 nodes, unfactored 2n + 7 * 2^(n-1) - 4 |
| `DiamondChains.ChainRefused` | rust/prod-codegen/src/joins.rs:459-465 | the pass refuses such a chain if and only if it has more links than the depth limit |
| `DiamondChains.ExpandChain` | rust/prod-codegen/src/joins.rs:459-465 | and otherwise returns the expansion of the source if that fits the node limit, and the linear expansion of the factored chain if not |
| `JoinExpansion.Collector.Walk` | rust/prod-codegen/src/lib.rs:1809-1827 | the walk adds exactly the declarations of the tree, later ones of a label winning, and to every label's count exactly the number of its jump sites |
| `JoinExpansion.CollectJoins` | rust/prod-codegen/src/lib.rs:1800-1829 | the collected context is the function of the body that the pass is specified with |
| `JoinPass.Expander.Expression` | rust/prod-codegen/src/joins.rs:281-323 | succeeds with exactly the expansion whenever one exists; fails only when none exists, cycles included; terminates on every input |
| `JoinPass.Expander.Join` | rust/prod-codegen/src/joins.rs:287-304 | a jump is refused only when it has the wrong arity or closes a cycle, and then has no expansion at all; otherwise it becomes the expansion |
| `JoinPass.Expander.Jump` | rust/prod-codegen/src/joins.rs:292-303 | arguments in the caller's scope, then the continuation: together exactly the expansion of the jump, or a proof that there is none |
| `JoinPass.Expander.Continuation` | rust/prod-codegen/src/joins.rs:296-299 | the continuation is expanded with its label active, and the label is released afterwards |
| `JoinPass.InlinedJoinFree` | rust/prod-codegen/src/joins.rs:281-323 | an expansion contains no join declaration and no jump |
| `JoinPass.Check` | rust/prod-codegen/src/joins.rs:241-246 | the cost check succeeds if and only if the expansion nests at most 128 jumps and has at most 65536 nodes, and reports its exact size and nesting |
| `JoinPass.Inline` | rust/prod-codegen/src/joins.rs:271-277 | after a successful check the inlining cannot fail and yields the measured tree |
| `JoinPass.Expand` | rust/prod-codegen/src/joins.rs:230-279 | leaves a body without joins alone; accepts every body within the limits and returns its expansion; otherwise accepts only through the factored body; every failure is a cycle, a bad arity or an exceeded limit; an accepted body has no reachable jump cycle, factored or not; results are join-free and within the node limit |
| `JoinPass.FactoringNeverGrows` | rust/prod-codegen/src/joins.rs:150-202 | factoring increases neither source size, nor expanded size, nor expanded nesting, and keeps expansion possible |
| `JoinPass.FactorCost` | rust/prod-codegen/src/joins.rs:150-202 | the same inside any enclosing join context, hoisting included |
| `JoinPass.FactoringKeepsNesting` | rust/prod-codegen/src/joins.rs:150-202 | at every budget the factored body expands exactly when the source body does, and then to the same exact nesting |
| `JoinPass.AcceptedAcyclic` | rust/prod-codegen/src/joins.rs:230-279 | a body accepted directly or through factoring has no cycle of jumps reachable from it |
| `JoinCycles.NeverExpands` | rust/prod-codegen/src/joins.rs:54-56 | with valid jumps, a body has no expansion of any depth if and only if a chain of jumps that starts in it repeats a label |
| `JoinPass.FactorContext` | rust/prod-codegen/src/joins.rs:257-258 | the joins collected after factoring are the factored joins collected before, with the same jump targets |
| `JoinPass.ContsValid` | rust/prod-codegen/src/joins.rs:204-218 | arities validated in a body hold in every collected continuation |
| `JoinPass.Records` | rust/prod-codegen/src/lib.rs:1799-1823 | what the context collects is what lexical scoping sees, for alpha-unique bodies |
| `JoinPass.JoinOrigin` | rust/prod-codegen/src/joins.rs:232-234 | in a closed body without declarations there is no jump either |
| `DeadJoins.InertDeadJoinRuns` | rust/prod-codegen/src/joins.rs:305-315 | a dead join that only names and builds values changes nothing if and only if its free variables are in scope, or the rest does not compile either |
| `DeadJoins.InertHeadExact` | rust/prod-codegen/src/joins.rs:305-315 | every run of a definition that starts with such a dead join is preserved, whatever else its module calls, if and only if the dead continuation does not use its own parameters, or the source does not compile either |
| `DeadJoins.DeadJoinPanics` | rust/prod-codegen/src/joins.rs:305-315 | a closed body that the pass accepts, returns n and panics once expanded: its dead join is unreachable |
| `DeadJoins.ExpansionRefinesRuns` | rust/prod-codegen/src/joins.rs:230-323 | join expansion, through the factored fallback or not, preserves every run, with any number of joins nobody jumps to, when each of those is bound by a let that ignores it, does not use its own parameters and contains no checked operator, call or unreachable: same value, error, panic and fuel, or code that does not compile |
| `DeadJoins.ExpansionPreservesRuns` | rust/prod-codegen/src/joins.rs:230-323 | the same with exact equality where dead joins only name and build values, in particular where there are none |
| `DeadJoins.NoDeadJoinsTame` | rust/prod-codegen/src/joins.rs:305-306 | a body whose declared joins are all jumped to meets the condition |
| `DeadJoins.FactorTame` | rust/prod-codegen/src/joins.rs:150-202 | factoring keeps the condition, so it is checked once, on the body the pass is given |
| `DeadJoins.PruneRun` | rust/prod-codegen/src/joins.rs:305-315 | replacing dead joins by the unit they denote preserves every run |
| `DeadJoins.ExpansionPads` | rust/prod-codegen/src/joins.rs:281-323 | the expansion of a body is the expansion of its pruned body with harmless blocks, closed in scope, where ignored units were; factored duplicates and nested continuations included |
| `DeadJoins.PaddedRun` | rust/prod-codegen/src/joins.rs:305-315 | harmless blocks in place of ignored units preserve every run |
| `DeadJoins.ExpandedClosed` | rust/prod-codegen/src/joins.rs:281-323 | an expanded body is closed over the definition's parameters and has no joins |
| `Naming.FreshInjective` | rust/prod-codegen/src/naming.rs:67-69 | generated names of different numbers differ |
| `Naming.Names.BindName` | rust/prod-codegen/src/naming.rs:51-77 | the bound name's key is new and becomes used; the name is admissible; a good original is kept; any other name is one the source never mentions; the search terminates |
| `Naming.Names.BindOne` | rust/prod-codegen/src/naming.rs:43-49 | the same, and compiler-owned identity follows the name through renaming |
| `Naming.Names.Bindings` | rust/prod-codegen/src/naming.rs:79-88 | fails exactly on a duplicate in the group; otherwise all names of the group get pairwise distinct new keys |
| `Naming.Names.Rewrite` | rust/prod-codegen/src/naming.rs:90-174 | succeeds exactly when every binding group is duplicate-free; the result is a consistent renaming with pairwise distinct keys, and a settled tree is its own result |
| `Naming.Names.RewriteDeclaration` | rust/prod-codegen/src/naming.rs:107-128 | a let that declares a join shares one name when binder and label were spelled alike, and continuation and body see the label |
| `Naming.NormalizeTracking` | rust/prod-codegen/src/naming.rs:272-323 | fails exactly on a duplicate in one group; the result is a consistent renaming whose binders have pairwise distinct unprotected keys and which has no positional reference left; such a definition is its own result, so normalising twice is normalising once; the returned names are exactly what the binders spelled like a tracked source are now called |
| `Naming.OccupiedSame` | rust/prod-codegen/src/naming.rs:229-259 | renaming changes none of the protected names of a definition |
| `NamePlaces.ProtectedExactly` | rust/prod-codegen/src/naming.rs:228-310 | a spelling is protected exactly when it is the key of a prelude name, of a name that the code of some node of the body uses (a temporary, a callee, an unqualified constructor of a term or a pattern), of the definition's own helper, or of a temporary of a function that fills a buffer |
| `NamePlaces.OccupiedExactly` | rust/prod-codegen/src/naming.rs:182-258 | the walks over the body collect exactly the names that some node claims |
| `NamePlaces.UnmentionedExactly` | rust/prod-codegen/src/naming.rs:203-227 | a name counts as new exactly when no formal, variable, binder or label of the source has its key |
| `NamingMeaning.BindTracks` | rust/prod-codegen/src/naming.rs:79-88 | binding a group keeps renamed and original environments in step, under shadowing and sibling reuse |
| `NamingMeaning.FindTracks` | rust/prod-codegen/src/naming.rs:159-162 | a renamed jump finds the renamed join, or none on either side |
| `NamingMeaning.RenamedEval` | rust/prod-codegen/src/naming.rs:90-174 | a consistently renamed term evaluates as the original, positional references denoting the original formals |
| `NamingMeaning.NormalizationPreservesRuns` | rust/prod-codegen/src/naming.rs:272-323 | normalising every definition of a module preserves every run |
| `NamingMeaning.HygienicIsUnique` | rust/prod-codegen/src/naming.rs:1-3 | a normalised body binds no name twice and hides no formal: what the name-indexed analyses assume |
| `NamingMeaning.NormalizedIsClosed` | rust/prod-codegen/src/naming.rs:90-174 | normalising a closed definition yields a closed one: no variable or label is captured or dropped |
| `NamingMeaning.RenamedJoinFree` | rust/prod-codegen/src/naming.rs:90-174 | renaming neither introduces nor removes joins |
| `TailCalls.Planner.Visit` | rust/prod-codegen/src/tail_calls.rs:50-104 | succeeds exactly when some marks allow lowering, with the least such marks, and finds every self call |
| `TailCalls.Planner.VisitArgs` | rust/prod-codegen/src/tail_calls.rs:67-77 | a back edge marks exactly the formals it changes, and refuses a changed borrowed formal |
| `TailCalls.MakePlan` | rust/prod-codegen/src/tail_calls.rs:21-115 | a plan exists if and only if there is a self call and every self call stands at a tail path, the value of a let that is returned included, has every argument and hands each borrowed formal on; it marks exactly the formals that some self call replaces, the least marks that allow lowering |
| `TailCalls.LowersExactly` | rust/prod-codegen/src/tail_calls.rs:21-104 | lowering with given marks is possible exactly when, by paths of child indices, every self call is at a tail place with the right arguments |
| `TailCalls.SelfCallExactly` | rust/prod-codegen/src/tail_calls.rs:50-104 | the traversal finds a self call exactly when one stands somewhere |
| `TailCalls.OperandsEval` | rust/prod-codegen/src/tail_calls.rs:123-146 | skipping unchanged formals and assigning the others at once gives the operands of the recursive call, swaps and first error included |
| `TailCalls.TailEval` | rust/prod-codegen/src/tail_calls.rs:118-180 | one turn of the loop, then whatever it stands for, has the outcome of the recursive body |
| `TailCalls.RunLoop` | rust/prod-codegen/src/lib.rs:1510-1540 | the loop returns the outcome of the recursive definition for every argument and every bound on calls |
| `TailCalls.HiddenFormalLoops` | rust/prod-codegen/src/tail_calls.rs:67-73 | without normalisation the lowering would be wrong: a let that hides a formal makes the loop repeat where the recursion returns |
| `TailCalls.DiscardableOk` | rust/prod-codegen/src/lib.rs:614-619 | values dropped with their unused binding always succeed |
| `Pipeline.Lower` | rust/prod-codegen/src/lib.rs:1370-1395 | fails only on a duplicate in one binding group or on joins that are refused, never in the second normalisation; on success every stage is related to the one before it as the preservation theorem needs |
| `Pipeline.ExpandedGrouped` | rust/prod-codegen/src/joins.rs:228-229 | what join expansion returns for a normalised body has no duplicate in a binding group, so it can be normalised again |
| `Pipeline.PipelineRefinesRuns` | rust/prod-codegen/src/lib.rs:1364-1395 | normalising, expanding joins and normalising again preserves every run of a module of closed definitions whose sources meet the lexical condition on dead joins |
| `JoinSource.SourceTame` | rust/prod-codegen/src/joins.rs:305-315 | the normalised body meets the condition on dead joins if and only if the source does, where a join is dead when neither its scope nor its continuation jumps to it |
| `JoinSource.RenamedMeek` | rust/prod-codegen/src/naming.rs:90-174 | renaming keeps the lexical condition in both directions |
| `JoinSource.NameKept` | rust/prod-codegen/src/naming.rs:90-174 | a variable or label that is free in a term is free under its new name in the renamed term |
| `JoinSource.NameGone` | rust/prod-codegen/src/naming.rs:90-174 | a name that no free name is renamed to is not free in the renamed term: nothing is captured |
| `Pipeline.FinalIsClosed` | rust/prod-codegen/src/lib.rs:1364-1395 | every stage of a closed definition is closed |
| `Pipeline.FinalIsBuilder` | rust/prod-codegen/src/lib.rs:1364-1395 | a staged definition that builder mode accepts meets everything else builder mode relies on |
| `Pipeline.FillLowered` | rust/prod-codegen/src/lib.rs:1364-1509 | the exported list function of the staged module delivers the list of the source definition, whole and in front of the caller's buffer, or refuses it as too large |
| `Pipeline.FinalIsJoinFree` | rust/prod-codegen/src/lib.rs:1364-1395 | the staged body has no joins left, so later analyses may ignore them |
| `Pipeline.RunLowered` | rust/prod-codegen/src/lib.rs:1364-1540 | the loop emitted for a planned definition gives the outcome of the source definition, under the condition on the sources' dead joins |
| `PathUses.CountPathUses` | rust/prod-codegen/src/lib.rs:631-664 | the counting loop computes the recursive count: leading lets skipped, exclusive branches maximised, the rest added |
| `PathUses.TraceBound` | rust/prod-codegen/src/lib.rs:666-704 | no execution path moves the local more often than the sequential count says, unless it reaches an arm that repeats a scrutinee which moves it |
| `PathUses.NoUseAfterMove` | rust/prod-codegen/src/lib.rs:631-704 | with a count of at most one and no reachable arm that repeats a scrutinee which moves the local, every execution path is length reads followed by at most one further use, a self append counting as one |
| `PathUses.UnrepeatedSafe` | rust/prod-codegen/src/lib.rs:2958-2963 | a local that occurs in no scrutinee which a Nat.succ arm repeats meets that condition |
| `UsePlaces.CountsPlaces` | rust/prod-codegen/src/lib.rs:631-704 | a local counts at all exactly when it occurs other than as a length read ahead of everything else, and counts more than once exactly when two such occurrences lie on one path: neither in different branches nor the two operands of one self append |
| `UsePlaces.SequentialTwice` | rust/prod-codegen/src/lib.rs:666-704 | the same for the sequential count, where no length read is skipped |
| `UsePlaces.UsesPresent` | rust/prod-codegen/src/lib.rs:621-628 | the plain count is positive exactly when the local occurs |
| `MoveCheck.FlowGone` | rust/prod-codegen/src/lib.rs:2958-2963 | the text of a term that some path moves a local in, put after itself, is refused by the compiler's move check |
| `MoveCheck.FlowExact` | rust/prod-codegen/src/lib.rs:2941-2966 | with at most one use in a row the move check on the emitted code refuses exactly when some path reaches an arm that repeats a scrutinee which moves the local, and otherwise finds it gone exactly when some path to the end moves it |
| `MoveCheck.MovedOnceCompiles` | rust/prod-codegen/src/lib.rs:631-664 | the same for the path count, which is what decides that a local is moved and not cloned |
| `OwnedAccumulators.Parameters` | rust/prod-codegen/src/owned_accumulators.rs:7-39 | owned formals are exactly the ownable ones that some self call replaces, in a body whose self calls are all at tail places and hand on what stays borrowed, provided the result is not a copied value; equally, the candidates that every way of lowering the self calls assigns |
| `OwnedAccumulators.CandidateExactly` | rust/prod-codegen/src/owned_accumulators.rs:18-28 | a candidate is a list formal of a definition that returns a named type, counted on some path and twice on none, every occurrence of which is consumed |
| `OwningUses.OwnedExactly` | rust/prod-codegen/src/owned_accumulators.rs:41-89 | the ownership test accepts exactly the terms without joins, positional references and binders of the name in which every occurrence is consumed by what stands above it: a constructor, an append on its left, the same argument of a self call, or such a place through branches and let bodies |
| `OwnedAccumulators.OwnedMore` | rust/prod-codegen/src/owned_accumulators.rs:41-89 | what may be read may also be owned: the relaxed test accepts more |
| `OwnedAccumulators.TakeOwned` | rust/prod-codegen/src/owned_accumulators.rs:41-89 | code that uses each of several owned formals at most once, in owning positions, and repeats no scrutinee that moves one, never reads one after moving it, leaves the others alone, and its destructive evaluation, scrutinees of Nat.succ arms evaluated twice, gives the pure outcome |
| `OwnedAccumulators.TakeKeeps` | rust/prod-codegen/src/lib.rs:2958-2963 | a term that moves no owned formal leaves every buffer and every ownership as it was, so evaluating it twice is evaluating it once |
| `OwnedAccumulators.EnterAccepted` | rust/prod-codegen/src/lib.rs:2958-2963 | the second look at the scrutinee binds the predecessor of the value matched and leaves the state alone |
| `OwnedAccumulators.CompilesExactly` | rust/prod-codegen/src/lib.rs:2958-2963 | the move check accepts a worker with owned formals if and only if no reachable Nat.succ arm repeats a scrutinee that moves one of them; in a body without unreachable and empty matches, if and only if no such arm repeats a scrutinee that one of them occurs in |
| `OwnedAccumulators.OwnedTurn` | rust/prod-codegen/src/owned_accumulators.rs:7-89 | one destructive turn of the loop of a planned body, for any set of owned formals under that condition, never uses a list after moving it and agrees with the pure turn |
| `OwnedAccumulators.RunOwned` | rust/prod-codegen/src/lib.rs:1510-1569 | for every set of owned formals and every arguments the loop, with a buffer per list that appends and conses extend, returns the outcome of the pure recursion and does not modify the callers' slices, if no reachable arm repeats a scrutinee that moves one of them; otherwise there is no worker, since the compiler refuses it |
| `OwnedAccumulators.RunOnce` | rust/prod-codegen/src/lib.rs:1373-1420 | the same for a worker that has no loop and recurses |
| `MovedTwice.RereadingRefused` | rust/prod-codegen/src/lib.rs:2958-2963 | a definition whose accumulator counts once, is accepted and has a loop plan, and whose worker the compiler refuses because an arm repeats the scrutinee that moves it |
| `MovedTwice.RereadingFails` | rust/prod-codegen/src/lib.rs:2958-2963 | what that worker would do: every turn with a list in it uses the list after moving it, where the pure definition returns |
| `MovedTwice.LocalMovedTwice` | rust/prod-codegen/src/lib.rs:2958-2963 | the same for a let-bound list that counts once: moved twice on every run that takes the arm, and refused |
| `OwnedAccumulators.PathIsSequential` | rust/prod-codegen/src/owned_accumulators.rs:41-89 | in owning positions the path count of a formal is its sequential count |
| `OwnedWorkers.StagedCandidate` | rust/prod-codegen/src/lib.rs:1371-1390 | a candidate of the raw definition is one of the definition after normalisation, expansion and normalisation, and its staged body repeats a scrutinee that moves it exactly when the raw body does |
| `OwnedWorkers.RenamedLowers` | rust/prod-codegen/src/lib.rs:1371-1420 | a renamed join-free body can be lowered with every formal marked if and only if in the original every self call is in tail position, has every argument, and passes each borrowed formal on by position or by a name that no binder hides |
| `OwnedWorkers.LoopSurvives` | rust/prod-codegen/src/lib.rs:1371-1420 | for every closed definition, joins and positional references included, the staged definition has a loop for some marks if and only if the expanded body meets that condition |
| `OwnedWorkers.LoopUnexpanded` | rust/prod-codegen/src/lib.rs:1371-1420 | for a definition without joins, if and only if the raw body does |
| `OwnedWorkers.LoopsExactly` | rust/prod-codegen/src/lib.rs:1371-1420 | without positional references the raw body does if and only if it can be lowered for some marks and no self call passes a borrowed formal on hidden |
| `OwnedWorkers.OwnedLoopSurvives` | rust/prod-codegen/src/lib.rs:1371-1420 | the same for formals chosen as owned, with the borrowing the worker is planned with |
| `OwnedWorkers.ShadowingLosesLoop` | rust/prod-codegen/src/lib.rs:1371-1374 | a raw definition whose accumulator is owned and which can be lowered, while its staged form has no loop |
| `OwnedWorkers.RunWorker` | rust/prod-codegen/src/lib.rs:1364-1569 | the emitted worker, owned formals decided on the raw definition and the loop planned on the staged one, returns the outcome of the source definition if no reachable arm of the source repeats a scrutinee that moves an owned formal, and does not compile otherwise; for every definition it loops exactly when the expanded body has a self call and meets the loop condition, for one without joins when the raw body does, and with owned formals when no self call passes a borrowed formal on hidden |
| `Fallibility.FallibleReason` | rust/prod-codegen/src/lib.rs:599-609 | an expression is fallible exactly when it contains a checked operation or calls a definition that can fail |
| `Fallibility.CheckedExactly` | rust/prod-codegen/src/lib.rs:599-602 | the checked operators are exactly those that make some pair of machine words fail |
| `Fallibility.PromoteAll` | rust/prod-codegen/src/lib.rs:583-596 | one pass keeps every shape justified; it either strictly reduces the plain definitions or finds none left to promote |
| `Fallibility.Signatures` | rust/prod-codegen/src/lib.rs:568-598 | the loop terminates; a definition ends up fallible exactly when it returns no list and a call path reaches a checked operation or a buffer callee; list definitions fill buffers exactly when they have parameters |
| `Fallibility.NoError` | rust/prod-codegen/src/lib.rs:599-609 | evaluating a term that is not fallible never yields a compute error, through joins and calls |
| `Fallibility.PlainNeverFails` | rust/prod-codegen/src/lib.rs:568-609 | with the computed shapes, a value-returning definition without a reason to fail yields no compute error on any input |
| `Builder.Copy` | rust/prod-codegen/src/lib.rs:2445-2456 | a copied list needs its whole length; then the prefix is the list and the rest of the buffer is untouched; otherwise nothing is written |
| `Builder.Build` | rust/prod-codegen/src/lib.rs:2337-2530 | whatever builder code runs, the buffer keeps its length and everything past the reported count |
| `Builder.ValueAgrees` | rust/prod-codegen/src/lib.rs:2383-2396 | in value positions the emitted variables mean what the source binds, although deferred lists have no variable |
| `Builder.PushEntry` | rust/prod-codegen/src/lib.rs:2384-2396 | recording a list binding keeps every recorded list resolvable to the value the source bound |
| `Builder.BuilderRefines` | rust/prod-codegen/src/lib.rs:2337-2530 | when the reference list is Ok(xs), builder code reports its length with xs in front and the suffix untouched if it fits, and OutputTooSmall otherwise, through deferred lists, recursive buffer calls, field and parameter copies; without deferred lists the failures agree too |
| `BuilderPlaces.AcceptedExactly` | rust/prod-codegen/src/lib.rs:2337-2530 | builder code is generated exactly when each place that the list comes from, through branches, let bodies and the tails of conses, is one there is code for, given the list bindings recorded on the way: empty, a list parameter, a list field of a value, a callee that fills buffers, or a recorded list that is accepted where it was recorded; and everything computed on the way is an ordinary value |
| `Builder.RefinesCons` | rust/prod-codegen/src/lib.rs:2885-2907 | one slot is taken before the head is evaluated, then the tail fills what is left |
| `Builder.RefinesCall` | rust/prod-codegen/src/lib.rs:2469-2479 | a buffer callee writes straight into the remaining buffer, for evaluated arguments |
| `Builder.BuilderRuns` | rust/prod-codegen/src/lib.rs:1491-1509 | the same for a whole definition called with any arguments and any buffer |
| `Builder.PromptExact` | rust/prod-codegen/src/lib.rs:1491-1509 | without deferred lists builder code succeeds exactly when the list exists and fits, and any other failure is the source's own |
| `Builder.DeferredErrorLost` | rust/prod-codegen/src/lib.rs:2384-2396 | a failing list that is bound and never used is never evaluated by builder code: the error of the reference is lost |
| `LazyLists.DemandBuilds` | rust/prod-codegen/src/lib.rs:2337-2530 | builder code succeeds exactly when evaluation on demand, which binds a recorded list that fails to its failure, denotes a list that fits, and then with that list in front |
| `LazyLists.DemandAgrees` | rust/prod-codegen/src/lib.rs:2384-2396 | evaluation on demand depends on free variables only, so a recorded list comes to the same wherever it is used |
| `LazyLists.SpillStops` | rust/prod-codegen/src/lib.rs:2384-2396 | where the strict program reaches a recorded list that fails, that failure is its outcome |
| `LazyLists.StrictAgrees` | rust/prod-codegen/src/lib.rs:1491-1509 | unless it stops in a recorded list, a strict run denotes a list exactly when evaluation on demand does, and the same one |
| `LazyLists.OnDemandExact` | rust/prod-codegen/src/lib.rs:1491-1509 | for every accepted module, run and buffer: builder code delivers exactly the list that evaluation on demand denotes, if it fits; it delivers a list where the strict run has none if and only if the strict run stops in a recorded list, with its failure, and the list on demand exists and fits |
| `LazyLists.LostInRun` | rust/prod-codegen/src/lib.rs:2384-2396 | a definition whose run fails with an overflow and whose exported function succeeds |
| `DeferredLists.ResolvedExact` | rust/prod-codegen/src/lib.rs:2384-2396 | where every deferred list is resolved on every path from its binding, builder code succeeds if and only if the reference list exists and fits, with that list in front; a failure for any reason but space means that the reference has no list |
| `DeferredLists.SpoilsBuild` | rust/prod-codegen/src/lib.rs:2384-2396 | a deferred list that can never be built keeps every body that demands it from succeeding, whatever comes into scope before |
| `Builder.Fill` | rust/prod-codegen/src/lib.rs:2337-2530 | the array writer does on the caller's array what the specification does on values, and nothing below its start |
| `Builder.FillBuffer` | rust/prod-codegen/src/lib.rs:1491-1509 | a list that exists is delivered whole in front of the caller's buffer, or refused as too large, with the rest of the buffer kept |
| `BoundedNat.ArithExact` | rust/prod-codegen/src/lib.rs:2684-2716 | machine arithmetic on fitting operands fails exactly when the result passes 64 bits or a power's exponent 32 bits, and is Lean's otherwise; right shifts by 64 or more are zero |
| `BoundedNat.ShlExact` | rust/prod-codegen/src/lib.rs:2695-2701 | left shift is exact if and only if the amount is below 64 and no bit is lost |
| `BoundedNat.ShiftedFits` | rust/prod-codegen/src/lib.rs:2702-2713 | a fitting operand shifted right by 64 or more is zero |
| `BoundedNat.ExactEval` | rust/prod-codegen/src/lib.rs:3310-3357 | the bounded evaluation is the unbounded one cut off at its first out-of-range step, for bodies without left shifts |
| `BoundedNat.BoundedRefinesUnbounded` | rust/prod-codegen/src/lib.rs:3305-3357 | an Ok result is Lean's result; an error is reported if and only if the unbounded evaluation has an out-of-range step, and it is the error of the first one |
| `BoundedNat.UnboundedNeverErrs` | rust/prod-codegen/src/lib.rs:3305-3309 | Lean's evaluation has no compute errors of its own |
| `BumpAllocator.AlignTo` | rust/prod-codegen/src/core_wasm.rs:188-194 | rounds up to the next multiple, or traps exactly for a small or non-power alignment or an overflow |
| `BumpAllocator.MaskIsFloor` | rust/prod-codegen/src/core_wasm.rs:191-192 | on the numbers that 32-bit words denote, the mask is the largest multiple of the alignment, the number AlignTo computes |
| `BumpAllocator.SingleBitIsPower` | rust/prod-codegen/src/core_wasm.rs:190 | a word with a single bit set is exactly one that denotes a power of two |
| `BumpAllocator.PlaceExactly` | rust/prod-codegen/src/core_wasm.rs:188-219 | an attempt takes the least aligned address past the load and the heap base whose block ends inside the address space, and traps exactly when there is none or the alignment is not a power of two |
| `BumpAllocator.Place` | rust/prod-codegen/src/core_wasm.rs:214-219 | a placed block starts at or past both the load and the heap base, is aligned, and its end does not overflow |
| `BumpAllocator.Missing` | rust/prod-codegen/src/core_wasm.rs:201-212 | the growth requested is the least that covers the block, within the page limit; it traps exactly when memory is past the limit or the block does not fit under it |
| `BumpAllocator.StepKeeps` | rust/prod-codegen/src/core_wasm.rs:214-225 | every atomic access of every thread keeps the invariant, with stale loads, spurious failures and concurrent growth |
| `BumpAllocator.UndisturbedAttempt` | rust/prod-codegen/src/core_wasm.rs:214-230 | an attempt that no other thread disturbs gives the block and grows the memory by what is missing, from any state of the other threads, or traps exactly when there is no address or not enough memory |
| `BumpAllocator.AllocationsAreSafe` | rust/prod-codegen/src/core_wasm.rs:188-244 | over every run returned blocks are pairwise apart, aligned, at or above the heap base and inside grown memory, and every pointer is a nonnegative i32 |
| `BumpAllocator.GivenForGood` | rust/prod-codegen/src/core_wasm.rs:227-235 | later steps never move or take back a returned block, and memory never shrinks |
| `BumpAllocator.GuardNeverFires` | rust/prod-codegen/src/core_wasm.rs:133-136 | the overlap guard never traps on an input that lies in one returned block and an output in another |
| `BumpAllocator.PackRoundTrip` | rust/prod-codegen/src/core_wasm.rs:259-260 | pointer and length come back from the packed result, which is nonnegative exactly when the pointer is |
| `ParallelMap.DivCeil` | rust/prod-runtime/src/lib.rs:83 | the ceiling of a quotient, by its two bounds |
| `ParallelMap.WorkersBounded` | rust/prod-runtime/src/lib.rs:82-95 | chunks of size ceil(n/w) need at most w workers |
| `ParallelMap.ChunksTile` | rust/prod-runtime/src/lib.rs:94-95 | every slot lies in exactly one chunk |
| `ParallelMap.StepOwnsSlot` | rust/prod-runtime/src/lib.rs:97-102 | a worker's step changes no slot outside its own chunk |
| `ParallelMap.StepInv` | rust/prod-runtime/src/lib.rs:97-102 | a worker has called the closure once on each of its first slots, from untouched slots, and only its last call may have failed; other workers do not disturb this |
| `ParallelMap.Join` | rust/prod-runtime/src/lib.rs:108-124 | joining in spawn order reports the first failed worker |
| `ParallelMap.JoinedIsSequential` | rust/prod-runtime/src/lib.rs:108-124 | once all workers are done the joined result is the sequential one, and without error every slot is mapped |
| `ParallelMap.ScheduleIndependent` | rust/prod-runtime/src/lib.rs:92-125 | every complete interleaving gives the sequential result: all slots mapped, or the error of the lowest failing element |
| `ParallelMap.MapAlone` | rust/prod-runtime/src/lib.rs:85-90 | one worker stops at the first error; exactly the slots up to it are written |
| `ParallelMap.MapThreads` | rust/prod-runtime/src/lib.rs:92-125 | threads scheduled in any order terminate with the sequential result, and every slot is its old value or its mapped one |
| `ParallelMap.ParallelMap` | rust/prod-runtime/src/lib.rs:57-126 | the two argument errors leave the output alone; otherwise the result is the sequential one for every worker count |
| `RootGraph.LastComponentUnique` | rust/prod-cli/src/roots.rs:81-83 | the last component is the dot-free suffix that a dot or nothing precedes |
| `RootGraph.AdjacencyMeaning` | rust/prod-cli/src/roots.rs:80-99 | an edge exists exactly when a dependency is the root's id, or ends in it after its last dot |
| `RootGraph.IsAcyclicFrom` | rust/prod-cli/src/roots.rs:101-116 | true finishes the node with finished nodes closed under successors and the path restored; false exhibits a cycle; the search terminates |
| `RootGraph.FinishedOffCycles` | rust/prod-cli/src/roots.rs:104 | no cycle starts at a finished node |
| `RootGraph.BackEdge` | rust/prod-cli/src/roots.rs:103 | meeting an in-progress node closes a cycle along the recursion path |
| `RootGraph.Check` | rust/prod-cli/src/roots.rs:118-142 | the report is acyclic if and only if the dependency graph has no cycle |
| `LetSpineParser.ParseExprAt` | rust/prod-ir/src/parser.rs:278-313 | the loop with its stack of pending bindings returns what the recursive grammar returns, on every token sequence and for every budgets |
| `LetSpineParser.CloseLets` | rust/prod-ir/src/parser.rs:308-311 | pending lets are closed innermost first, each with its parenthesis |
| `LetSpineParser.ParseExpr` | rust/prod-ir/src/parser.rs:264-266 | an expression is parsed under depth 4096 and recursion 64 |
| `LetSpineParser.LetStep` | rust/prod-ir/src/parser.rs:280-293 | one turn of the loop trades a let head for a pending binding and one level of depth |
| `LetSpineLanguage.ReadsExactly` | rust/prod-ir/src/parser.rs:278-472 | for every token sequence and every budgets the parser returns exactly the tree that the tokens in front spell, as the grammar of the header says, numbers and booleans that end inside a word included, if its parentheses fit the depth and its recursion, let bodies aside, the recursion budget |
| `LetSpineLanguage.SpellingRead` | rust/prod-ir/src/parser.rs:278-472 | a spelled tree outside the budgets is refused as TooLarge, never read as another tree |
| `LetSpineLanguage.RoundTrip` | rust/prod-ir/src/parser.rs:278-472 | in particular the rendering of a tree is read back as that tree or refused as TooLarge |
| `LetSpineLanguage.ManyRead` | rust/prod-ir/src/parser.rs:404-423 | repeated arguments are all read up to the closing parenthesis, and exhaustion inside one is not mistaken for the end |
| `LetSpineLanguage.ArmsRead` | rust/prod-ir/src/parser.rs:424-438 | alternatives and the optional default are read up to the closing parenthesis, and exhaustion inside one aborts |
| `LetSpineParser.VarReadsBack` | rust/prod-ir/src/parser.rs:299-307 | a variable is read back if and only if no number or boolean is found at the front of its name |
| `LetSpineParser.BooleanPrefix` | rust/prod-ir/src/parser.rs:303 | a variable whose name continues after true is read as that boolean, with the rest left over |
| `LetSpineLanguage.RenderInjective` | rust/prod-ir/src/parser.rs:278-472 | no two well-formed trees render alike |
| `LetSpineLanguage.SpineLimit` | rust/prod-ir/src/parser.rs:127-130 | a let spine is limited by the depth budget alone: 4096 lets parse, one more does not |
| `LetSpineParser.OperatorsProper` | rust/prod-ir/src/parser.rs:319-374 | no operator of the tables is spelled like another form |
| `LetSpineParser.ThreeOperands` | rust/prod-ir/src/parser.rs:366-375 | exactly the conditional, slice, exact split, quotient and remainder take three operands |
| `LetSpineParser.OperandCounts` | rust/prod-ir/src/parser.rs:319-374 | every other operator takes as many operands as the table it stands in says |
| `LetSpineLanguage.AcceptedSpells` | rust/prod-ir/src/parser.rs:278-472 | whatever tables of operators are given, a tree that is returned is spelled by the tokens it was read from and nests within both budgets |

## Left out

- Text emission: the model gives the meaning of the emitted code, not its characters, and rustc's checks are the outcome `Stuck`.
- JoinPass.Expand: error payloads (the label of the refused join) are dropped; the kind of error is kept.
- OwnedAccumulators.TakeOwned: reading a local copies its value here, where the emitted code moves it when its path count is at most one and clones it otherwise; by `PathUses.NoUseAfterMove` no later step of a run can tell. That a list bound to a local keeps its storage is not stated, because which locals are moved depends on type declarations, which are not part of this model.
- Pipeline.RunLowered: speaks of values; whether the moves of let-bound lists compile is the separate statement `MoveCheck.MovedOnceCompiles`, one local at a time.
- DeadJoins.ExpansionRefinesRuns: a dead continuation that itself declares joins or jumps is outside the condition, as is one whose let variable is used; whether a term that cannot fail compiles is not decided, because types are not modelled.
- LazyLists.OnDemandExact: where lists are deferred and there is no list, which of several failures is reported first is not described.
- Builder.BuilderRefines: resolves a deferred list against the entries recorded before it, where the code passes all entries; names are distinct, so both find the same entry.
- OwnedWorkers.RunWorker: whether a type is borrowed is an input, since borrow inference is not part of this model; owned formals start from the slices the caller passes.
- Rewriting `&mut Expr` in place: `expand`, `factor_tail_diamonds`, `take_tail_arguments` and `rewrite` return the new tree instead; the sets, maps and counters they update are class fields.
- `usize` overflow in cost addition: node counts are bounded by 65536 at every addition.
- Inlined string and byte literals, UTF-8 views, indexing, slicing, splitting, joining, decimal parsing, fixed-width operators, quotient and remainder: thin wrappers over library calls.
- Projections carry the index of the field; resolving field names against type declarations would only add easy members.
- Rust borrow inference and clone decisions other than the path count: their correctness is defined by rustc.
- Eager jump bindings in builder position: they only make the generator refuse more definitions.
- Static list definitions: their constant rendering; `Fallibility` assumes, as the code checks, that an accepted one is not fallible.
- Lists longer than 2^64 elements: `BoundedNat` assumes that list lengths fit a machine word.
- Memory ordering beyond what relaxed loads may return, and the contents written into allocated blocks.
- Panics inside the parallel map's closure, and thread creation.
- Duplicate ids, empty dependencies, the Pareto front, bridges and root filters of the root report: one-branch checks.
- Characters in the parser: white space, comments, quoting and escapes are tokens already; types, module headers, string, byte and decimal literals are not parsed.
- A number token that is followed by letters is split as the code splits it, but a number in the place of a name is not modelled: names there are words.
- The CLI, file publishing, manifests, packages and the printers for other languages.
