# Profile scoring engines and companion cores, modelled in Dafny

This project models the routing-profile scoring engine of the repository in its three generations.

- **The panamint runtime** (`projects/panamint/src/profile/runtime.rs`):
  - a nested scope stack;
  - a variable mapping that hands out memo-slot ids from a counter;
  - a builder that lowers a parsed cost expression to an indexed IR, resolving identifiers as local definition, then constant, then whitelisted global;
  - block kinds checked for arity;
  - an evaluation context that fills memo slots, short-circuits `any?`/`all?`/`none?`, folds `sum`/`sub`/`mul`/`div`, and treats `return!` as an early exit;
  - the runtime that evaluates constants in declaration order and combines the penalties and the cost factor into a score.
- **The older compiled runtime** (`src/profile/runtime.rs`): four block kinds, no globals, and panics where the newer engine returns typed errors.
- **The lazy tree walker** (`src/profile.rs`): truthiness, a scope stack that caches a definition's value in place the first time it is looked up, and `when` blocks that fall through to `Invalid`.

Each engine's operations are written imperatively, as in the source: classes over a scope stack, a slot array, a variable counter. Each operation is proved equal to a specification function, and the properties are proved about those functions. Some quirks of the engines are modelled as written and exhibited by lemmas rather than corrected:
- an inner definition that shadows an outer one reuses the outer slot;
- a local definition cannot refer to itself;
- constants are evaluated without memo slots;
- a lowering error leaves its scope pushed.

Four smaller cores of the same repository are modelled beside it:
- **hotpot's activity code** (`projects/hotpot/src/activity.rs`): file-type detection from a file name, and Ramer–Douglas–Peucker line simplification;
- **the Bluetooth LE metric decoders of git-commitment** (`projects/git-commitment/main.go`): Heart Rate Measurement per section 3.1 of the Heart Rate Service 1.0 specification, and the Cycling Power Measurement header per the Cycling Power Service 1.1 specification, plus the sink list that `emit` delivers to;
- **the Lisp of git-timewarp** (`projects/git-timewarp/lisp.py`): tokenizer, atom classification, recursive-descent parser, symbol interning, the lexical scope chain and the special forms of the evaluator;
- **squabble's lint-rule framework** (`projects/squabble/squabble/rules/`): rule metadata from docstrings, the rule registry, and the `AddColumnDisallowConstraints` rule in both of its versions.

Modules: `Options` (Option and Result), `ProfileAst` (the parsed expression shared by the three engines), `PanamintScope`, `PanamintVariables`, `PanamintIr`, `PanamintCompiler`, `PanamintEval`, `PanamintRuntime` with their `...Facts` modules, `LegacyRuntime`, `ProfileWalker`, `HotpotActivity`, `BleMetrics`, `LispValues`, `LispReader`, `LispEval`, `SquabbleRules` and `SquabbleAddColumn`.

## Model

| member | source | states |
|---|---|---|
| ProfileAst.FalsyValues | src/profile.rs:26-30 | only `Bool(false)` and `Invalid` are falsy; `Number(0)` and the empty string are truthy |
| PanamintIr.ArityOf | projects/panamint/src/profile/runtime.rs:54-67 | the arity is unary exactly for `return!`, variadic for the other seven kinds |
| PanamintIr.BlockTyOf | projects/panamint/src/profile/runtime.rs:225-235 | a block name has a kind exactly when it is one of the eight keywords, and that kind's keyword is the name |
| PanamintIr.KeywordRoundTrip | projects/panamint/src/profile/runtime.rs:225-235 | every kind's keyword is accepted and maps back to that kind |
| PanamintScope.Lookup | projects/panamint/src/profile/runtime.rs:30-33 | `get` finds a key exactly when some map binds it, and returns the binding of the innermost such map |
| PanamintScope.SetTop | projects/panamint/src/profile/runtime.rs:23-28 | `set` changes only the innermost map, where it binds the key |
| PanamintScope.NestedScope.Empty | projects/panamint/src/profile/runtime.rs:11-13 | a new stack holds one empty map |
| PanamintScope.NestedScope.Push | projects/panamint/src/profile/runtime.rs:15-17 | pushing appends one empty map |
| PanamintScope.NestedScope.Pop | projects/panamint/src/profile/runtime.rs:19-21 | popping removes and returns exactly the innermost map |
| PanamintScope.NestedScope.Set | projects/panamint/src/profile/runtime.rs:23-28 | the new frames are `SetTop` of the old ones |
| PanamintScope.LookupSetTop | projects/panamint/src/profile/runtime.rs:23-33 | after `set(k, v)`, `get(k)` is `v` and every other key resolves as before |
| PanamintScope.LookupPush | projects/panamint/src/profile/runtime.rs:15-17 | pushing an empty map changes no lookup |
| PanamintScope.LookupPop | projects/panamint/src/profile/runtime.rs:19-33 | popping discards exactly the innermost map's bindings: its keys resolve further out, all others as before |
| PanamintVariables.VariableMapping.constructor | projects/panamint/src/profile/runtime.rs:96-102 | a new mapping has one empty map in each stack and slot counter 0 |
| PanamintVariables.VariableMapping.Clear | projects/panamint/src/profile/runtime.rs:104-106 | `clear` hands back the old contents and leaves a new mapping |
| PanamintVariables.VariableMapping.Push | projects/panamint/src/profile/runtime.rs:108-111 | both stacks get a new innermost map |
| PanamintVariables.VariableMapping.Pop | projects/panamint/src/profile/runtime.rs:113-116 | both stacks lose their innermost map |
| PanamintVariables.VariableMapping.AddVariable | projects/panamint/src/profile/runtime.rs:118-124 | returns the old counter, binds it in the innermost id map and increments the counter |
| PanamintVariables.VariableMapping.GetOrAssignId | projects/panamint/src/profile/runtime.rs:126-131 | returns the visible id of the name, or assigns a new one as `add_variable` does |
| PanamintVariables.VariableMapping.AddDefinition | projects/panamint/src/profile/runtime.rs:133-135 | the definition is bound in the innermost definition map only |
| PanamintCompiler.CompactTag | projects/panamint/src/profile/runtime.rs:160-164 | a key has a dictionary id exactly when the dictionary holds it, and then it is that id; otherwise the reserved unknown id |
| PanamintCompiler.CompactPatterns | projects/panamint/src/profile/runtime.rs:196-215 | one compacted pattern per pattern, in order, each of the same kind with its key and every value compacted |
| PanamintCompiler.ConstIndices | projects/panamint/src/profile/runtime.rs:171-174 | the map holds exactly the constant names, each at an index naming it, and no later index names it |
| PanamintCompiler.BuildConstMap | projects/panamint/src/profile/runtime.rs:166-175 | 255 or more constants abort; otherwise each name maps to its declaration index |
| PanamintCompiler.LowerIdent | projects/panamint/src/profile/runtime.rs:181-194 | identifier lowering keeps both stack depths and never lowers the slot counter |
| PanamintCompiler.LowerF | projects/panamint/src/profile/runtime.rs:177-268 | lowering only deepens the stacks and raises the slot counter; on success the depths are restored |
| PanamintCompiler.LowerBody | projects/panamint/src/profile/runtime.rs:246-249 | a lowered body has one expression per element |
| PanamintCompiler.BuildF | projects/panamint/src/profile/runtime.rs:270-275 | a successful build leaves a new mapping behind; a failed one leaves the deepened state |
| PanamintCompiler.Builder.constructor | projects/panamint/src/profile/runtime.rs:151-158 | a builder starts with its inputs and a new variable mapping |
| PanamintCompiler.Builder.Lower | projects/panamint/src/profile/runtime.rs:177-268 | result and mapping state are those of `LowerF` from the old state |
| PanamintCompiler.Builder.LowerBlock | projects/panamint/src/profile/runtime.rs:217-254 | push, definitions, keyword match, arity check, body, pop: result and state as `LowerF` |
| PanamintCompiler.Builder.LowerDefinitions | projects/panamint/src/profile/runtime.rs:220-223 | each definition is lowered before it is registered; result and state as `LowerDefs` |
| PanamintCompiler.Builder.LowerBodyItems | projects/panamint/src/profile/runtime.rs:246-249 | the body elements lowered in order, first error returned; as `LowerBody` |
| PanamintCompiler.Builder.LowerWhen | projects/panamint/src/profile/runtime.rs:256-266 | each clause's condition then value, in order; as `LowerF` |
| PanamintCompiler.Builder.Build | projects/panamint/src/profile/runtime.rs:270-275 | result and state as `BuildF` |
| PanamintCompilerFacts.InitialSound | projects/panamint/src/profile/runtime.rs:96-102 | a new mapping binds no slot and no definition |
| PanamintCompilerFacts.SoundPushPop | projects/panamint/src/profile/runtime.rs:108-116 | pushing and popping keep every bound slot below the counter and every definition runnable |
| PanamintCompilerFacts.SoundIdOf | projects/panamint/src/profile/runtime.rs:118-131 | `get_or_assign_id` returns a slot below the new counter; a fresh slot is the old counter, held by no visible name; an existing one leaves the state unchanged |
| PanamintCompilerFacts.SoundDefine | projects/panamint/src/profile/runtime.rs:133-135 | registering a runnable definition keeps the state sound |
| PanamintCompilerFacts.LowerSound | projects/panamint/src/profile/runtime.rs:177-268 | lowering keeps the state sound, and a lowered expression names only assigned slots and passes every arity check |
| PanamintCompilerFacts.BuildRunnable | projects/panamint/src/profile/runtime.rs:270-275 | a built expression fits in the `next_id` slots its evaluation context gets |
| PanamintCompilerFacts.IdentResolution | projects/panamint/src/profile/runtime.rs:181-194 | local definition, then constant, then global, else `UnknownIdent`, in both directions; a local definition gets its visible slot or the next one |
| PanamintCompilerFacts.SelfReferenceIsUnknown | projects/panamint/src/profile/runtime.rs:220-222 | a definition cannot refer to itself: the name is unknown inside its own expression |
| PanamintCompilerFacts.UnknownBlockKeepsScope | projects/panamint/src/profile/runtime.rs:217-235 | an unknown block name is an error that leaves the pushed scope on the stack |
| PanamintCompilerFacts.ArityBeforeBody | projects/panamint/src/profile/runtime.rs:237-244 | a wrong argument count aborts before any body element is lowered, leaving the scope pushed |
| PanamintCompilerFacts.BuildsAreIndependent | projects/panamint/src/profile/runtime.rs:270-275 | after a successful build the next build starts from a new mapping |
| PanamintCompilerFacts.ShadowingReusesSlot | projects/panamint/src/profile/runtime.rs:126-131 | an inner definition shadowing a referenced outer one reuses the outer slot 0 |
| PanamintEval.MatchFrom | projects/panamint/src/profile/runtime.rs:614-646 | the pattern loop answers true exactly when every remaining pattern matches |
| PanamintEval.Apply | projects/panamint/src/profile/runtime.rs:595-598 | each operator inverts as arithmetic does: subtracting `b` undoes a sum, adding it undoes a difference, dividing by non-zero `b` undoes a product and a product with zero is zero; multiplying by it undoes a division by non-zero `b`; a division by zero gives 0 |
| PanamintEval.PatternMatches | projects/panamint/src/profile/runtime.rs:622-636 | a matching pattern needs its key present, except the not-exists pattern, which needs it absent |
| PanamintEval.PatternDuals | projects/panamint/src/profile/runtime.rs:622-636 | not-exists is the negation of exists; on a present key the none-of test is the negation of the one-of test; on a missing key neither value test matches |
| PanamintEval.Eval | projects/panamint/src/profile/runtime.rs:484-520 | evaluation never empties a memo slot that was already filled |
| PanamintEval.EvalBlock | projects/panamint/src/profile/runtime.rs:557-600 | evaluating a block never empties a filled memo slot |
| PanamintEval.Scan | projects/panamint/src/profile/runtime.rs:559-587 | the short-circuit loop of `any?`/`all?`/`none?` never empties a filled memo slot |
| PanamintEval.Fold | projects/panamint/src/profile/runtime.rs:522-555 | folding never empties a filled memo slot |
| PanamintEval.FoldFrom | projects/panamint/src/profile/runtime.rs:540-552 | the rest of a fold never empties a filled memo slot |
| PanamintEval.WhenFrom | projects/panamint/src/profile/runtime.rs:602-612 | the clause loop never empties a filled memo slot |
| PanamintEval.EvalContext.Constant | projects/panamint/src/profile/runtime.rs:451-462 | a constant's context has the constants and globals, no tag source and no memo slots |
| PanamintEval.EvalContext.Create | projects/panamint/src/profile/runtime.rs:470-482 | a scoring context has one empty memo slot per local definition and a tag source |
| PanamintEval.EvalContext.Evaluate | projects/panamint/src/profile/runtime.rs:484-520 | the outcome and the new memo slots are those of `Eval` on the old slots |
| PanamintEval.EvalContext.EvaluateBlock | projects/panamint/src/profile/runtime.rs:557-600 | the outcome and the new memo slots are those of `EvalBlock` |
| PanamintEval.EvalContext.FoldBlock | projects/panamint/src/profile/runtime.rs:522-555 | the outcome and the new memo slots are those of `Fold` |
| PanamintEval.EvalContext.EvaluateWhen | projects/panamint/src/profile/runtime.rs:602-612 | the outcome and the new memo slots are those of `WhenFrom` from the first clause |
| PanamintEval.EvalContext.EvaluateTagPatterns | projects/panamint/src/profile/runtime.rs:614-646 | aborts with "no tags supported here" without a tag source, otherwise gives true exactly when every pattern matches |
| PanamintEvalFacts.RunSeqCons | projects/panamint/src/profile/runtime.rs:484-520 | a run of expressions that gave values splits into its first evaluation and the run of the rest |
| PanamintEvalFacts.ScanAt | projects/panamint/src/profile/runtime.rs:559-587 | once earlier arguments did not stop a short-circuit block, the next argument decides it, passes its error on, or the block gives its default |
| PanamintEvalFacts.AnyIsFirstTruthy | projects/panamint/src/profile/runtime.rs:559-567 | `any?` is true at the first truthy argument and false when all are falsy; later arguments are not evaluated |
| PanamintEvalFacts.AllIsFirstFalsy | projects/panamint/src/profile/runtime.rs:569-577 | `all?` is false at the first falsy argument and true when all are truthy |
| PanamintEvalFacts.NoneIsNotAny | projects/panamint/src/profile/runtime.rs:579-587 | `none?` evaluates exactly what `any?` does and negates its answer |
| PanamintEvalFacts.FoldOfNumbers | projects/panamint/src/profile/runtime.rs:522-555 | `sum`/`sub`/`mul`/`div` over arguments that all give numbers is the left fold of those numbers with the operator |
| PanamintEvalFacts.FoldNeedsArguments | projects/panamint/src/profile/runtime.rs:526-528 | a folding block without arguments is an internal "improper arity" error |
| PanamintEvalFacts.FoldStops | projects/panamint/src/profile/runtime.rs:530-552 | a fold stops at the first argument that is not a number: `invalid` propagates, other values are a type error |
| PanamintEvalFacts.WhenIsFirstTruthy | projects/panamint/src/profile/runtime.rs:602-612 | the value of the first clause whose condition is truthy is the result; no truthy condition is `WhenFallthrough` |
| PanamintEvalFacts.ReturnRaises | projects/panamint/src/profile/runtime.rs:589-593 | `return!` hands its argument's value up as an early return |
| PanamintEvalFacts.LookupMemoizes | projects/panamint/src/profile/runtime.rs:502-514 | after the first successful lookup of a definition, later lookups give the same value and evaluate nothing |
| PanamintEvalFacts.RunnableNeverPanics | projects/panamint/src/profile/runtime.rs:502-514 | a compiled expression with in-range slots never aborts in a scoring context |
| PanamintEvalFacts.PatternsNeedTags | projects/panamint/src/profile/runtime.rs:614-620 | without a tag source any tag pattern aborts |
| PanamintEvalFacts.MissingTag | projects/panamint/src/profile/runtime.rs:622-636 | a tag missing from the source satisfies only the not-exists pattern |
| PanamintRuntime.ConstantsFrom | projects/panamint/src/profile/runtime.rs:345-367 | on success there is one value per remaining definition appended after the ones already computed, and the mapping is left fresh |
| PanamintRuntime.BuildOptional | projects/panamint/src/profile/runtime.rs:324-340 | an optional expression builds to a unit exactly when it is present |
| PanamintRuntime.FreshSlots | projects/panamint/src/profile/runtime.rs:470-482 | one empty memo slot per slot the compiler handed out |
| PanamintRuntime.Runtime.EvaluateExpression | projects/panamint/src/profile/runtime.rs:403-435 | the result is `ExpressionValue`: the expression's number, 500000 for `invalid`, an early return's value, otherwise a type error |
| PanamintRuntime.Runtime.Contribute | projects/panamint/src/profile/runtime.rs:383-394 | a present expression contributes its value, a missing one nothing |
| PanamintRuntime.Runtime.Score | projects/panamint/src/profile/runtime.rs:369-401 | the result is `ScoreF`: penalties and cost factor accumulated in the source's order, first failure returned |
| PanamintRuntime.EvaluateConstants | projects/panamint/src/profile/runtime.rs:345-367 | the constants and the builder's new mapping are those of `ConstantsFrom` from the first definition |
| PanamintRuntime.FromParsed | projects/panamint/src/profile/runtime.rs:316-343 | the runtime is `FromParsedF`: constants first, then way penalty, node penalty and cost factor, first error returned |
| PanamintRuntime.FromParsedF | projects/panamint/src/profile/runtime.rs:316-343 | 255 or more constants fail; a compiled runtime has one value per constant definition and each scoring expression exactly when the parsed profile has it |
| PanamintRuntimeFacts.ScoreDefaults | projects/panamint/src/profile/runtime.rs:380-381 | with no scoring expressions every edge scores penalty 0 and cost factor 1 |
| PanamintRuntimeFacts.ScoreAddsUp | projects/panamint/src/profile/runtime.rs:369-401 | scoring succeeds exactly when every present expression yields a number; penalty is node penalty at both ends plus way penalty, cost factor is one plus the expression |
| PanamintRuntimeFacts.ScoreValueMeaning | projects/panamint/src/profile/runtime.rs:419-434 | a number is itself, `invalid` is 500000, an early return counts as the value, booleans and strings are type errors |
| PanamintRuntimeFacts.BuildOptionalRunnable | projects/panamint/src/profile/runtime.rs:270-275 | every built scoring expression is runnable with its own slot count, and the builder's mapping is fresh again |
| PanamintRuntimeFacts.ExpressionNeverAborts | projects/panamint/src/profile/runtime.rs:403-435 | a runnable expression never aborts when evaluated on a tag source |
| PanamintRuntimeFacts.CompiledUnitsRunnable | projects/panamint/src/profile/runtime.rs:316-343 | every scoring expression of a compiled profile is runnable from fresh slots |
| PanamintRuntimeFacts.ScoringNeverAborts | projects/panamint/src/profile/runtime.rs:369-401 | once a profile compiles, scoring gives a score or a runtime error, never an abort |
| PanamintRuntimeFacts.ExampleConstants | projects/panamint/src/profile/runtime.rs:673-706 | the test profile's constants evaluate, in order, to 1, 1, false, false, true, 3, invalid |
| PanamintRuntimeFacts.ConstantSeesOnlyEarlier | projects/panamint/src/profile/runtime.rs:355-364 | a constant that names a later constant fails with a bad constant reference |
| PanamintRuntimeFacts.ConstantReadsNoGlobal | projects/panamint/src/profile/runtime.rs:322-323 | constants are evaluated with a lookup that knows no global, so a global fails as a bad global reference |
| PanamintRuntimeFacts.ConstantEarlyReturnFails | projects/panamint/src/profile/runtime.rs:358-362 | `return!` in a constant is not caught and fails compilation as a constant-evaluation error |
| PanamintRuntimeFacts.ConstantLocalDefinitionPanics | projects/panamint/src/profile/runtime.rs:451-462 | a constant that uses a local definition aborts on an out-of-range slot, since a constant's context has no slots |
| PanamintRuntimeFacts.ShadowingSumsOuterTwice | projects/panamint/src/profile/runtime.rs:502-514 | the shadowing example compiled to one shared slot sums the outer value twice (2, not 3) |
| LegacyRuntime.BlockTyOf | src/profile/runtime.rs:165-171 | a block name maps to a kind exactly when it is one of the four keywords, each to its own kind |
| LegacyRuntime.BuildConstMap | src/profile/runtime.rs:108-117 | aborts exactly when there are 255 or more constants; otherwise each constant name maps to its declaration index |
| LegacyRuntime.LowerIdent | src/profile/runtime.rs:123-134 | identifier lowering only extends the mapping and leaves its scope depth unchanged |
| LegacyRuntime.LowerF | src/profile/runtime.rs:119-193 | lowering only extends the mapping, and a successful lowering leaves the scope depth unchanged |
| LegacyRuntime.LowerBlock | src/profile/runtime.rs:157-178 | a named block only extends the mapping and, on success, pops the scope it pushed |
| LegacyRuntime.LowerDefs | src/profile/runtime.rs:160-163 | block definitions only extend the mapping and keep the scope depth when they lower |
| LegacyRuntime.LowerBody | src/profile/runtime.rs:173 | a lowered body has one expression per source element, in order |
| LegacyRuntime.LowerClauses | src/profile/runtime.rs:180-192 | `when` clauses only extend the mapping and keep the scope depth when they lower |
| LegacyRuntime.BuildF | src/profile/runtime.rs:195-200 | a successful build hands the mapping over and leaves the builder's mapping fresh |
| LegacyRuntime.Builder.constructor | src/profile/runtime.rs:96-102 | a new builder has the constant map, the tag dictionary and a fresh mapping |
| LegacyRuntime.Builder.Lower | src/profile/runtime.rs:119-193 | the result and the new mapping are those of `LowerF` on the old mapping |
| LegacyRuntime.Builder.LowerBlock | src/profile/runtime.rs:157-178 | the result and the new mapping are those of `LowerF` on a named block |
| LegacyRuntime.Builder.LowerDefinitions | src/profile/runtime.rs:160-163 | the first failure and the new mapping are those of `LowerDefs` |
| LegacyRuntime.Builder.LowerBodyItems | src/profile/runtime.rs:173 | the lowered body and the new mapping are those of `LowerBody` |
| LegacyRuntime.Builder.LowerWhen | src/profile/runtime.rs:180-192 | the result and the new mapping are those of `LowerF` on a `when` block |
| LegacyRuntime.Builder.Build | src/profile/runtime.rs:195-200 | the unit and the new mapping are those of `BuildF` |
| LegacyRuntime.Eval | src/profile/runtime.rs:320-344 | evaluation never empties a filled memo slot |
| LegacyRuntime.EvalBlock | src/profile/runtime.rs:346-391 | evaluating a block never empties a filled memo slot |
| LegacyRuntime.Scan | src/profile/runtime.rs:348-376 | the loops of `any?`/`all?`/`none?` never empty a filled memo slot |
| LegacyRuntime.SumFrom | src/profile/runtime.rs:378-389 | the `sum` loop never empties a filled memo slot |
| LegacyRuntime.WhenFrom | src/profile/runtime.rs:393-403 | the clause loop never empties a filled memo slot |
| LegacyRuntime.EvalContext.Constant | src/profile/runtime.rs:294-302 | a constant's context has the constants, no tag source and no memo slots |
| LegacyRuntime.EvalContext.WithTagSource | src/profile/runtime.rs:304-318 | a scoring context has one empty memo slot per local definition and a tag source |
| LegacyRuntime.EvalContext.Evaluate | src/profile/runtime.rs:320-344 | the outcome and the new memo slots are those of `Eval` on the old slots |
| LegacyRuntime.EvalContext.EvaluateBlock | src/profile/runtime.rs:346-391 | the outcome and the new memo slots are those of `EvalBlock` |
| LegacyRuntime.EvalContext.EvaluateWhen | src/profile/runtime.rs:393-403 | the outcome and the new memo slots are those of `WhenFrom` from the first clause |
| LegacyRuntime.EvalContext.EvaluateTagPatterns | src/profile/runtime.rs:405-437 | aborts with "no tags supported here" without a tag source, otherwise true exactly when every pattern matches |
| LegacyRuntime.ConstantsFrom | src/profile/runtime.rs:239-254 | on success one value per remaining definition is appended after those already computed, and the mapping is left fresh |
| LegacyRuntime.BuildOptional | src/profile/runtime.rs:223-235 | an optional block builds to a unit exactly when it is present |
| LegacyRuntime.ProfileRuntime.ScoreWay | src/profile/runtime.rs:267-285 | the result is `ScoreWayF` on the tag source |
| LegacyRuntime.EvaluateConstants | src/profile/runtime.rs:239-254 | the constants and the builder's new mapping are those of `ConstantsFrom` from the first definition |
| LegacyRuntime.From | src/profile/runtime.rs:217-237 | the runtime is `FromF`: the constant map, the constants, then way penalty, node penalty and cost factor, first abort returned |
| LegacyRuntime.FromF | src/profile/runtime.rs:217-237 | 255 or more constants abort; a runtime has one value per constant definition and each scoring block exactly when the parsed profile has it |
| LegacyRuntime.AsExpression | src/profile/runtime.rs:224-235 | a parsed named block becomes the named-block expression with the same definitions, name and body |
| LegacyRuntime.Wrapped | src/profile/runtime.rs:224-235 | an optional block is wrapped exactly when present, as its named-block expression |
| LegacyRuntimeFacts.IdentResolution | src/profile/runtime.rs:123-134 | a visible local definition gives its memo slot, else a constant gives its index, else lowering aborts with "undefined var or const" |
| LegacyRuntimeFacts.UnknownBlockAborts | src/profile/runtime.rs:165-171 | a block whose name is not one of the four keywords aborts, and a block that lowers has one of them |
| LegacyRuntimeFacts.TagsCompacted | src/profile/runtime.rs:136-155 | tag patterns lower in place, same number and order, each key and value replaced by its dictionary id or the unknown id |
| LegacyRuntimeFacts.PatternsAreConjunction | src/profile/runtime.rs:405-437 | tag patterns are true exactly when every pattern matches; without a tag source evaluation aborts |
| LegacyRuntimeFacts.RunSeqCons | src/profile/runtime.rs:320-344 | a run of expressions that gave values splits into its first evaluation and the run of the rest |
| LegacyRuntimeFacts.AnyIsFirstTruthy | src/profile/runtime.rs:348-356 | `any?` is true at the first truthy argument and false when all are falsy; later arguments are not evaluated |
| LegacyRuntimeFacts.AllIsFirstFalsy | src/profile/runtime.rs:358-366 | `all?` is false at the first falsy argument and true when all are truthy |
| LegacyRuntimeFacts.NoneIsNotAny | src/profile/runtime.rs:368-376 | `none?` evaluates exactly what `any?` does and negates its answer |
| LegacyRuntimeFacts.SumOfNumbers | src/profile/runtime.rs:378-389 | a `sum` whose arguments all give numbers is their total; an empty `sum` is 0 |
| LegacyRuntimeFacts.SumStops | src/profile/runtime.rs:380-386 | a `sum` stops at the first argument that is not a number: `invalid` propagates, any other value aborts |
| LegacyRuntimeFacts.WhenIsFirstTruthy | src/profile/runtime.rs:393-403 | a `when` gives the value of the first clause with a truthy condition, and aborts when there is none |
| LegacyRuntimeFacts.LookupMemoizes | src/profile/runtime.rs:330-338 | after the first successful lookup of a definition, later lookups give the same value and evaluate nothing |
| LegacyRuntimeFacts.ScoreWayMeaning | src/profile/runtime.rs:267-285 | no way penalty scores 0, a number is the score, `invalid` is 500000, any other value or an abort during evaluation aborts |
| LegacyRuntimeFacts.ExampleConstants | src/profile/runtime.rs:462-497 | the test profile's constants evaluate, in order, to 1, 1, false, false, true, 3, invalid |
| LegacyRuntimeFacts.LaterConstantAborts | src/profile/runtime.rs:239-254 | a constant that names a later constant compiles but aborts on the constant lookup |
| ProfileWalker.ChildScope | src/profile.rs:278-285 | a block's scope binds exactly the names its definitions define |
| ProfileWalker.ChildScopeLaterWins | src/profile.rs:278-285 | a repeated name is bound, unevaluated, to its last definition |
| ProfileWalker.Innermost | src/profile.rs:317-320 | the chosen scope binds the name and no scope above it does; none is chosen only when no scope binds it |
| ProfileWalker.Store | src/profile.rs:287-289 | storing a value changes only that name in that scope, to the evaluated value, and keeps which names are bound |
| ProfileWalker.PopScopeF | src/profile.rs:347-353 | popping fails exactly on the global scope, leaving the stack as it was; otherwise exactly the top scope is removed |
| ProfileWalker.EvalF | src/profile.rs:365-377 | evaluation changes no scope's set of bound names |
| ProfileWalker.LookupF | src/profile.rs:317-337 | a lookup changes no scope's set of bound names |
| ProfileWalker.NamedBlockF | src/profile.rs:456-462 | a named block restores the stack height and bound names, whatever its result |
| ProfileWalker.InnerF | src/profile.rs:392-453 | evaluating a block's body changes no scope's set of bound names |
| ProfileWalker.AnyF | src/profile.rs:394-408 | the `any?`/`none?` loop gives a boolean when it finishes |
| ProfileWalker.AllF | src/profile.rs:410-419 | the `all?` loop gives a boolean when it finishes |
| ProfileWalker.EqF | src/profile.rs:421-436 | the `eq?` loop changes no scope's set of bound names |
| ProfileWalker.SumF | src/profile.rs:438-450 | the `sum` loop changes no scope's set of bound names |
| ProfileWalker.WhenF | src/profile.rs:379-390 | the clause loop changes no scope's set of bound names |
| ProfileWalker.GlobalsF | src/profile.rs:355-362 | the stack height is kept, and a stopped run reports a failure rather than a value |
| ProfileWalker.EvaluationContext.Create | src/profile.rs:304-309 | a new context has the profile's globals and one empty global scope |
| ProfileWalker.EvaluationContext.PushScope | src/profile.rs:340-345 | the block's child scope is pushed on top and nothing else changes |
| ProfileWalker.EvaluationContext.PopScope | src/profile.rs:347-353 | the failure and new stack are those of `PopScopeF` |
| ProfileWalker.EvaluationContext.Lookup | src/profile.rs:317-337 | the outcome and new stack are those of `LookupF` |
| ProfileWalker.EvaluationContext.FindInnermost | src/profile.rs:318-319 | the scan from the innermost scope outwards finds `Innermost` |
| ProfileWalker.EvaluationContext.EvalGlobals | src/profile.rs:355-362 | the failure and new stack are those of `GlobalsF` from the first global |
| ProfileWalker.EvaluationContext.EvalExpr | src/profile.rs:365-377 | the outcome and new stack are those of `EvalF` |
| ProfileWalker.EvaluationContext.EvalWhenBlock | src/profile.rs:379-390 | the outcome and new stack are those of `WhenF` from the first clause |
| ProfileWalker.EvaluationContext.EvalNamedBlockInner | src/profile.rs:392-453 | the outcome and new stack are those of `InnerF` |
| ProfileWalker.EvaluationContext.EvalNamedBlock | src/profile.rs:456-462 | the outcome and new stack are those of `NamedBlockF` |
| ProfileWalkerFacts.InnermostSameKeys | src/profile.rs:317-320 | which scope a lookup uses depends only on the names each scope binds |
| ProfileWalkerFacts.LookupCaches | src/profile.rs:323-330 | after a successful lookup the value is stored in the innermost binding scope, and later lookups give it again, change nothing and need no fuel |
| ProfileWalkerFacts.MissingIsLookupError | src/profile.rs:336 | a name no scope binds is a lookup error and the stack is untouched |
| ProfileWalkerFacts.SelfReferenceDiverges | src/profile.rs:323-327 | a definition that names itself never produces a value, whatever the fuel |
| ProfileWalkerFacts.UnknownBlockIsError | src/profile.rs:452 | a block with none of the five names is an unknown-block error and its scope is popped again |
| ProfileWalkerFacts.RunSeqCons | src/profile.rs:365-377 | a run of expressions that gave values splits into its first evaluation and the run of the rest |
| ProfileWalkerFacts.AnyIsFirstTruthy | src/profile.rs:394-408 | `any?` is true at the first truthy argument and false when all are falsy, later arguments unevaluated; `none?` is the negation |
| ProfileWalkerFacts.AllIsFirstFalsy | src/profile.rs:410-419 | `all?` is false at the first falsy argument and true when all are truthy |
| ProfileWalkerFacts.EqIsAllEqual | src/profile.rs:421-436 | when every argument evaluates, `eq?` is true exactly when there is an argument and all equal the first |
| ProfileWalkerFacts.SumOfNumbers | src/profile.rs:438-450 | a `sum` whose arguments all give numbers is their total; an empty one is 0 |
| ProfileWalkerFacts.SumStops | src/profile.rs:441-446 | a `sum` stops at the first non-number: `invalid` propagates, any other value aborts |
| ProfileWalkerFacts.WhenIsFirstTruthy | src/profile.rs:379-390 | a `when` gives the value of the first clause with a truthy condition, and `invalid` when there is none |
| ProfileWalkerFacts.PopGlobalPanics | src/profile.rs:347-350 | popping the global scope aborts with the source's message |
| ProfileWalkerFacts.TagPatternsAbort | src/profile.rs:372 | tag patterns are not evaluated by this engine: any use aborts |
| ProfileWalkerFacts.TestProfileGlobals | src/profile.rs:555-575 | the test globals evaluate in order and the global scope ends holding their values over what it held |
| ProfileWalkerFacts.TestProfileFromEmpty | src/profile.rs:555-577 | from the empty global scope, the globals end as exactly the test's values |
| ProfileWalkerFacts.TestProfileLookups | src/profile.rs:578-593 | after the globals, `b`, `e`, `f`, `g`, `h` look up to 1, true, "d or e", 3 and invalid |
| HotpotActivity.LastDot | projects/hotpot/src/activity.rs:344 | the index found holds the last '.' of the name; none is found only when the name has no '.' |
| HotpotActivity.Split | projects/hotpot/src/activity.rs:344 | the components are non-empty in number, dot-free, and join back to the name |
| HotpotActivity.Classify | projects/hotpot/src/activity.rs:351-356 | an extension is recognised exactly when it is `gpx`, `fit` or `tcx`, as the matching type |
| HotpotActivity.SplitJoin | projects/hotpot/src/activity.rs:344 | splitting is the inverse of joining dot-free components |
| HotpotActivity.LastDotIsLast | projects/hotpot/src/activity.rs:344 | a '.' with no '.' after it is the one found |
| HotpotActivity.SplitLast | projects/hotpot/src/activity.rs:344-349 | the components of a name ending in `.x` are those of the rest followed by `x` |
| HotpotActivity.PlainShape | projects/hotpot/src/activity.rs:348-356 | an uncompressed match is the bare extension or ends with '.' and the extension |
| HotpotActivity.GzipShape | projects/hotpot/src/activity.rs:347-356 | a gzip match is the extension plus `.gz`, or ends with '.', the extension and `.gz` |
| HotpotActivity.PlainByShape | projects/hotpot/src/activity.rs:348-356 | every name of the uncompressed shape is recognised with that type |
| HotpotActivity.GzipByShape | projects/hotpot/src/activity.rs:347-356 | every name of the gzip shape is recognised with that type, gzipped |
| HotpotActivity.GzipOf | projects/hotpot/src/activity.rs:347 | `rest.gz` is a gzipped activity file when `rest` is an uncompressed one |
| HotpotActivity.FileTypeByName | projects/hotpot/src/activity.rs:343-357 | a name is recognised as a type and compression exactly when it has that shape, in both directions |
| HotpotActivity.BareGzIsNone | projects/hotpot/src/activity.rs:347 | the name `gz` alone is not recognised |
| HotpotActivity.GzipKeepsFileType | projects/hotpot/src/activity.rs:342-349 | `bar.gpx.gz` has the type of `bar.gpx`, gzipped |
| HotpotActivity.FarthestFrom | projects/hotpot/src/activity.rs:414-420 | the scan gives the greatest interior distance, never below 0, at the first interior index attaining it, or index 0 when none is above 0 |
| HotpotActivity.Farthest | projects/hotpot/src/activity.rs:411-421 | the greatest interior distance, never below 0, at the first interior index attaining it; index 0 exactly when that distance is 0 |
| HotpotActivity.Interior | projects/hotpot/src/activity.rs:409-429 | a line of at least two points has at most its interior points pushed |
| HotpotActivity.Simplified | projects/hotpot/src/activity.rs:404-434 | the output is no longer than the line, keeps at least two points of a line that has two, and starts and ends with its end points |
| HotpotActivity.Shift | projects/hotpot/src/activity.rs:424-426 | every index is moved by the split offset, in order |
| HotpotActivity.CombinePicks | projects/hotpot/src/activity.rs:423-427 | points kept left of the split, the split point and points kept right of it are, in order, interior points of the whole line |
| HotpotActivity.InteriorIsSubsequence | projects/hotpot/src/activity.rs:409-429 | the pushed points are interior points of the line, at strictly increasing indices |
| HotpotActivity.SimplifiedIsSubsequence | projects/hotpot/src/activity.rs:404-434 | the output keeps the first and last points and between them only input points in their order; short lines come back unchanged |
| HotpotActivity.PicksWithEnds | projects/hotpot/src/activity.rs:431-433 | interior picks with both end points added are picks of the whole line |
| HotpotActivity.SplitIsInterior | projects/hotpot/src/activity.rs:414-427 | when the farthest point is beyond epsilon, its index is strictly inside the line |
| HotpotActivity.NoFarPointKeepsEnds | projects/hotpot/src/activity.rs:423-433 | when no interior point is farther than epsilon, only the two end points remain |
| HotpotActivity.RetainsSpike | projects/hotpot/src/activity.rs:480-495 | the source's second test: the spike at (5, 5) is kept and the points near the ends dropped |
| HotpotActivity.PointBuffer.Start | projects/hotpot/src/activity.rs:431 | the buffer starts with the first point |
| HotpotActivity.PointBuffer.Push | projects/hotpot/src/activity.rs:425 | a push appends exactly the point |
| HotpotActivity.FindFarthest | projects/hotpot/src/activity.rs:411-421 | the scan loop computes `Farthest` |
| HotpotActivity.SimplifyInner | projects/hotpot/src/activity.rs:409-429 | the buffer gains exactly `Interior` of the line |
| HotpotActivity.PushAround | projects/hotpot/src/activity.rs:423-427 | the buffer gains the left half's points, the split point, then the right half's points |
| HotpotActivity.Simplify | projects/hotpot/src/activity.rs:404-435 | the result is `Simplified` |
| BleMetrics.Uint16LE | projects/git-commitment/main.go:211 | the low byte comes first and the high byte second |
| BleMetrics.Int16 | projects/git-commitment/main.go:165 | the signed reading lies in the 16-bit range and agrees with the pattern modulo 2^16 |
| BleMetrics.Bits16 | projects/git-commitment/main.go:212 | the pattern stored for a signed value reads back as that value |
| BleMetrics.Uint16LERoundTrip | projects/git-commitment/main.go:211 | splitting a 16-bit value into bytes and reading them little-endian gives it back |
| BleMetrics.ContactStatus | projects/git-commitment/main.go:151-155 | the two contact-status bits: the high one is "supported", the low one "detected" |
| BleMetrics.HeartRateShortBufferPanics | projects/git-commitment/main.go:142-165 | two bytes announcing a 16-bit reading pass the guard and then read past the end, while the decoder rejects them |
| BleMetrics.HeartRateAsWritten | projects/git-commitment/main.go:142-170 | the handler as written panics only on a two-byte buffer; what it emits is a heart rate |
| BleMetrics.DecodeHeartRate | projects/git-commitment/main.go:142-170 | a decoded heart rate comes from at least two bytes of a sensor that is reading, is a signed 16-bit value, and is the second byte when the flag announces eight bits |
| BleMetrics.DecodeHeartRateAgrees | projects/git-commitment/main.go:142-170 | the handler as written fails exactly on such short buffers; otherwise the decoder emits exactly what the handler emits |
| BleMetrics.EncodeHeartRate | projects/git-commitment/main.go:127-141 | a notification has the flag byte, the reading in the announced width, then the optional fields |
| BleMetrics.HeartRateRoundTrip | projects/git-commitment/main.go:148-169 | decoding a sensor's notification gives its reading in either width, unless the sensor reports contact supported but not detected |
| BleMetrics.DecodedHeartRateIsEncoded | projects/git-commitment/main.go:148-169 | every decoded reading comes from the buffer's bytes, in the width its flag announces, from a reading sensor |
| BleMetrics.CyclingPowerShortBufferPanics | projects/git-commitment/main.go:210-216 | two- and three-byte buffers pass the guard and then read the power field past the end, while the decoder rejects them |
| BleMetrics.CyclingPowerAsWritten | projects/git-commitment/main.go:209-251 | the handler as written panics only on two- or three-byte buffers; what it emits is a non-zero power |
| BleMetrics.DecodeCyclingPower | projects/git-commitment/main.go:209-251 | a decoded power needs the four bytes of flags and power and is a non-zero signed 16-bit value |
| BleMetrics.DecodeCyclingPowerAgrees | projects/git-commitment/main.go:209-225 | the handler as written fails exactly on two or three bytes; otherwise the decoder emits exactly what the handler emits |
| BleMetrics.EncodeCyclingPower | projects/git-commitment/main.go:190-208 | a notification has two flag bytes, the power field, then the optional fields |
| BleMetrics.CyclingPowerRoundTrip | projects/git-commitment/main.go:211-225 | decoding gives back any non-zero power, whatever the flags and optional fields; zero power emits nothing |
| BleMetrics.DecodedCyclingPowerIsEncoded | projects/git-commitment/main.go:211-225 | every decoded power is the signed little-endian reading at bytes 2 and 3, and the buffer is the encoding of that power behind its flags |
| BleMetrics.FirstFourFields | projects/git-commitment/main.go:228-250 | the offset after the first four optional fields is 4, plus 1, 2, 6, 4 for flag bits 0, 2, 4, 5 |
| BleMetrics.PresentSize | projects/git-commitment/main.go:228-250 | the present optional fields take no more bytes than all of them, and none without flags |
| BleMetrics.FieldStart | projects/git-commitment/main.go:228-250 | a field starts after the four bytes of flags and power and no later than if every earlier field were present; without flags it starts at byte 4 |
| BleMetrics.SkipOptionalFields | projects/git-commitment/main.go:228-250 | the offset walk ends where the layout table puts the fifth field |
| BleMetrics.SkipOptionalFieldsBounds | projects/git-commitment/main.go:228-250 | the walk ends between 4 and 17, at 4 exactly when none of the four flags is set |
| BleMetrics.Sink.Open | projects/git-commitment/main.go:120-124 | a new sink has received nothing |
| BleMetrics.NotificationHandler | projects/git-commitment/main.go:101-117 | power measurements go to the power handler, heart-rate measurements to the heart-rate handler, anything else to none |
| BleMetrics.Repeat | projects/git-commitment/main.go:120-124 | exactly n copies of the metric |
| BleMetrics.Deliveries | projects/git-commitment/main.go:120-124 | a sink registered n times receives nothing for an ignored notification, otherwise the metric n times |
| BleMetrics.MetricSource.constructor | projects/git-commitment/main.go:72-82 | a new source has no sinks and has enabled nothing |
| BleMetrics.MetricSource.AddSink | projects/git-commitment/main.go:91-99 | the sink is appended, and notifications are enabled only when the list goes from empty to one sink |
| BleMetrics.MetricSource.Emit | projects/git-commitment/main.go:120-124 | every sink receives the metric once per time it is registered, after what it had |
| BleMetrics.MetricSource.HandleHeartRateMeasurement | projects/git-commitment/main.go:142-170 | the corrected handler: every sink receives the heart rate `DecodeHeartRate` gives once per registration, or nothing |
| BleMetrics.MetricSource.HandleCyclingPowerMeasurement | projects/git-commitment/main.go:209-251 | the corrected handler: every sink receives the power `DecodeCyclingPower` gives once per registration, or nothing |
| BleMetrics.MetricSource.Notify | projects/git-commitment/main.go:93-117 | a notification reaches the sinks through the corrected handler enabled for the characteristic, if any |
| LispReader.Symbol.constructor | projects/git-timewarp/lisp.py:13-20 | a symbol carries its name |
| LispReader.SymbolTable.Empty | projects/git-timewarp/lisp.py:14 | the intern table starts empty |
| LispReader.SymbolTable.Intern | projects/git-timewarp/lisp.py:16-20 | an already-interned name gives back the same symbol object, a new name a fresh symbol; either way the table maps the name to the result |
| LispReader.Skip | projects/git-timewarp/lisp.py:114 | a run of a character class ends within the string |
| LispReader.SkipRun | projects/git-timewarp/lisp.py:114 | the run found is all of the class and stops at the end or at a character outside it |
| LispReader.ReadLine | projects/git-timewarp/lisp.py:120 | a line read and what is left make up the input; a non-empty input gives a non-empty line |
| LispReader.RestOfLine | projects/git-timewarp/lisp.py:114 | the captured rest of a line is no longer than what is left of it |
| LispReader.ScanLine | projects/git-timewarp/lisp.py:114-130 | a match yields a non-empty token and a strictly shorter remaining line |
| LispReader.ScanLineFails | projects/git-timewarp/lisp.py:125-128 | the pattern fails exactly on a blank line, at a backquote, and at a string left open on its line |
| LispReader.ScannedTokenShape | projects/git-timewarp/lisp.py:114 | every matched token is a bracket or quote, a double-quoted string, a comment, or a run of atom characters |
| LispReader.TokensWellFormed | projects/git-timewarp/lisp.py:113-132 | the tokenizer yields non-empty, non-comment texts ended by one or two end markers |
| LispReader.TokensAtLineEnd | projects/git-timewarp/lisp.py:118-123 | a used-up line reads the next one; at the end of the input the end marker comes twice |
| LispReader.TokensOnLine | projects/git-timewarp/lisp.py:125-132 | a line with text yields its match's token unless it is a comment, then goes on; a failed match ends the stream |
| LispReader.TokenizeStep | projects/git-timewarp/lisp.py:118-132 | one pass of the loop yields a prefix of the token stream and makes progress |
| LispReader.Tokenize | projects/git-timewarp/lisp.py:113-132 | the tokens yielded are `Tokens` of the whole input |
| LispReader.TokensSkippingBlanksWellFormed | projects/git-timewarp/lisp.py:113-132 | the intended tokenizer also yields non-empty, non-comment texts ended by end markers |
| LispReader.BlankLineEndsInput | projects/git-timewarp/lisp.py:125-128 | a whitespace-only line ends the token stream as written, whatever follows it |
| LispReader.BlankLineSkipped | projects/git-timewarp/lisp.py:119-121 | the intended tokenizer reads past a whitespace-only line as if it were not there |
| LispReader.TrailingSpaceExample | projects/git-timewarp/lisp.py:125-128 | on `a`, a space, a newline and `b`, the tokenizer as written stops after `a`; the intended one reads `a` and `b` |
| LispReader.AtomClassifies | projects/git-timewarp/lisp.py:135-150 | `#t` and `#f` are booleans; otherwise integer text is tried before float text, and everything else is a symbol |
| LispReader.AtomReadsInt | projects/git-timewarp/lisp.py:143-146 | an integer's decimal text reads back as that integer |
| LispReader.AtomReadsString | projects/git-timewarp/lisp.py:140-141 | a string printed with its escapes between double quotes reads back as that string |
| LispReader.AtomStringError | projects/git-timewarp/lisp.py:140-141 | a quoted token whose inside does not decode raises the decoder's `ValueError` |
| LispReader.EscapeStep | projects/git-timewarp/lisp.py:141 | one escape sequence decodes by consuming at least one and at most the remaining characters; the only failures are value errors |
| LispReader.StringEscape | projects/git-timewarp/lisp.py:141 | decoding fails only with a `ValueError` (a trailing backslash or a bad `\x` escape) |
| LispReader.EscapeRoundTrip | projects/git-timewarp/lisp.py:141 | decoding the escaped form of any string gives back the string |
| LispReader.EscapeFitsToken | projects/git-timewarp/lisp.py:114 | the escaped form has no double quote and no newline, so it fits inside one string token |
| LispReader.PlainTextDecodes | projects/git-timewarp/lisp.py:141 | text without a backslash decodes to itself |
| LispReader.NewlineEscapeExample | projects/git-timewarp/lisp.py:141 | `\n` decodes to a newline and a backslash before a newline disappears |
| LispReader.UnknownEscapeExample | projects/git-timewarp/lisp.py:141 | an unknown escape such as `\q` is kept as written, backslash included |
| LispReader.HexEscapeExample | projects/git-timewarp/lisp.py:141 | `\x41` decodes to `A` |
| LispReader.OctalEscapeExample | projects/git-timewarp/lisp.py:141 | up to three octal digits after a backslash decode to one character, `\101` to `A` |
| LispReader.BadEscapeExample | projects/git-timewarp/lisp.py:141 | a trailing backslash and a `\x` without two hex digits are `ValueError`s |
| LispReader.Atom | projects/git-timewarp/lisp.py:135-150 | a token not starting with a double quote always reads; only string decoding can fail, with a `ValueError`; the result is a string exactly when the token starts with a double quote |
| LispReader.IntTextDigits | projects/git-timewarp/lisp.py:143-146 | `int()` accepts exactly an optional sign followed by at least one decimal digit |
| LispReader.IntTextIsFloatText | projects/git-timewarp/lisp.py:143-146 | everything `int()` accepts, `float()` accepts too |
| LispReader.Read | projects/git-timewarp/lisp.py:185-187 | `read` parses the tokenizer's stream as written: empty input reads as the end marker after one token; a successful read consumes at least one token |
| LispReader.ReadSkippingBlanks | projects/git-timewarp/lisp.py:185-187 | `read` over the intended tokenizer: empty input reads as the end marker after one token; a successful read consumes at least one token |
| LispReader.ReadTrailingSpaceExample | projects/git-timewarp/lisp.py:125-128 | `(a ` followed by `b)` on the next line fails with "expected )" as written, because the whitespace rest ends the tokens; the intended tokenizer reads the list |
| LispReader.HandleTokF | projects/git-timewarp/lisp.py:154-176 | reading a token stops at or after where it started, within the stream |
| LispReader.ReadListF | projects/git-timewarp/lisp.py:156-164 | reading a list's elements stops within the stream |
| LispReader.ParseF | projects/git-timewarp/lisp.py:178-182 | a successful parse consumes at least one token |
| LispReader.Parser.constructor | projects/git-timewarp/lisp.py:153 | a parser starts at the beginning of its token stream |
| LispReader.Parser.HandleTok | projects/git-timewarp/lisp.py:154-176 | the value and the tokens consumed are those of `HandleTokF`, and its error on failure |
| LispReader.Parser.ReadList | projects/git-timewarp/lisp.py:156-164 | the list and the tokens consumed are those of `ReadListF` |
| LispReader.Parser.Parse | projects/git-timewarp/lisp.py:153-182 | the value and the tokens consumed are those of `ParseF` |
| LispReader.Unparse | projects/git-timewarp/lisp.py:153-176 | a printed datum has at least one token |
| LispReader.ReadsUnparsed | projects/git-timewarp/lisp.py:154-176 | reading a datum's printed tokens gives back the datum and stops right after them |
| LispReader.ReadsUnparsedParens | projects/git-timewarp/lisp.py:155-164 | a parenthesised list reads back as its elements, in order |
| LispReader.ReadsUnparsedList | projects/git-timewarp/lisp.py:158-164 | the elements of a printed list and its `)` read back as the list |
| LispReader.ParseUnparse | projects/git-timewarp/lisp.py:178-180 | parsing a printed datum gives it back |
| LispReader.ParseQuoted | projects/git-timewarp/lisp.py:169-170 | `'x` reads as the list of the symbol `quote` and `x` |
| LispReader.UnclosedList | projects/git-timewarp/lisp.py:161-162 | a list that meets the end marker before `)` is the syntax error "expected )" |
| LispReader.ParseStrayTokens | projects/git-timewarp/lisp.py:166-180 | a stray `)` is "unmatched )"; a leading end marker is returned as the end marker |
| LispEval.FloatZeroIsFalse | projects/git-timewarp/lisp.py:204 | a float literal whose mantissa digits are all zero, other than the infinities and not-a-number, is false |
| LispEval.FloatNonZeroIsTrue | projects/git-timewarp/lisp.py:204 | a float literal with non-zero digits and a decimal exponent of at least -268 is true |
| LispEval.FloatUnderflowIsFalse | projects/git-timewarp/lisp.py:204 | a float literal below 10^-359 in value rounds to zero and is false |
| LispEval.ZeroExamples | projects/git-timewarp/lisp.py:204 | `0.0` and `-0e7` are false |
| LispEval.UnderflowExample | projects/git-timewarp/lisp.py:204 | `1e-400` is false, since it underflows to zero |
| LispEval.HalfIsTrue | projects/git-timewarp/lisp.py:204 | `0.5` is true |
| LispEval.MilliIsTrue | projects/git-timewarp/lisp.py:204 | `1e-3` is true |
| LispEval.CharKeys | projects/git-timewarp/lisp.py:36 | a string parameter list pairs one key per character |
| LispEval.Bindings | projects/git-timewarp/lisp.py:35-36 | pairing fails exactly when some parameter is a list, and then with "unhashable type: 'list'" |
| LispEval.NewScope | projects/git-timewarp/lisp.py:27-36 | a new scope's parent is the one given |
| LispEval.Find | projects/git-timewarp/lisp.py:38-49 | an unbound name is a lookup error naming it |
| LispEval.Frames | projects/git-timewarp/lisp.py:38-43 | the chain of dictionaries starts with the scope's own |
| LispEval.FirstBindingIsFirst | projects/git-timewarp/lisp.py:38-43 | a name is found exactly when some dictionary binds it, from the first one that does |
| LispEval.FindFirstFrame | projects/git-timewarp/lisp.py:38-49 | lookup is the first binding in the chain, innermost first, else a lookup error |
| LispEval.SymbolParamsBindWholeList | projects/git-timewarp/lisp.py:31-32 | a symbol as parameter list binds exactly that name, to the whole argument list |
| LispEval.BindingsZip | projects/git-timewarp/lisp.py:35-36 | pairing distinct symbols with arguments binds each symbol to its argument |
| LispEval.BindingsOnlyParams | projects/git-timewarp/lisp.py:35-36 | pairing symbols with arguments binds nothing else |
| LispEval.ZipBindsEachParam | projects/git-timewarp/lisp.py:27-36 | a call scope binds each distinct parameter to its argument and nothing else |
| LispEval.LaterParamWins | projects/git-timewarp/lisp.py:36 | a repeated parameter is bound to its last argument |
| LispEval.NewScopeErrors | projects/git-timewarp/lisp.py:35-36 | a length mismatch is an assertion error, a list parameter is unhashable, a parameter list without length fails |
| LispEval.StringParams | projects/git-timewarp/lisp.py:35-36 | a string parameter list binds each character |
| LispEval.EvalAllF | projects/git-timewarp/lisp.py:246 | evaluating a list of forms gives one value per form |
| LispEval.EvalDo | projects/git-timewarp/lisp.py:218-222 | the loop's value is `DoF` from `None` |
| LispEval.EvalMonotone | projects/git-timewarp/lisp.py:190-253 | an answer reached with some fuel is the same with more |
| LispEval.FormMonotone | projects/git-timewarp/lisp.py:196-253 | a special form or call evaluated with some fuel gives the same answer with more |
| LispEval.DoMonotone | projects/git-timewarp/lisp.py:218-222 | the `do` loop gives the same answer with more fuel |
| LispEval.EvalAllMonotone | projects/git-timewarp/lisp.py:246 | evaluating the arguments gives the same values with more fuel |
| LispEval.ApplyMonotone | projects/git-timewarp/lisp.py:101-107 | calling a procedure gives the same answer with more fuel |
| LispEval.EvalWithMoreFuel | projects/git-timewarp/lisp.py:190-253 | more fuel in any amount leaves a reached answer unchanged |
| LispEval.EvalAllElementwise | projects/git-timewarp/lisp.py:246 | the values of a list of forms are their values one by one; an error is the first failing form's |
| LispEval.DoAppend | projects/git-timewarp/lisp.py:219-221 | `do` over one more form is the earlier forms' error or the new form's value |
| LispEval.SymbolsLookedUpAtomsSelfEvaluate | projects/git-timewarp/lisp.py:190-199 | a symbol evaluates to its binding, any other atom to itself, and `()` fails to index |
| LispEval.DoReturnsLast | projects/git-timewarp/lisp.py:218-222 | `(do)` is `None`, otherwise the value of the last form once the earlier ones succeed |
| LispEval.IfTakesOneBranch | projects/git-timewarp/lisp.py:202-206 | `if` evaluates the condition and then exactly one branch |
| LispEval.IfNeedsThreeParts | projects/git-timewarp/lisp.py:203 | an `if` without exactly three parts fails to unpack before evaluating anything |
| LispEval.QuoteReturnsUnevaluated | projects/git-timewarp/lisp.py:212-216 | `quote` returns one argument unevaluated, or else the argument list |
| LispEval.OnlyClosuresCallable | projects/git-timewarp/lisp.py:249-253 | only closures can be called |
| LispEval.QuoteEach | projects/git-timewarp/lisp.py:212-214 | one quoted form per value |
| LispEval.EvalQuoted | projects/git-timewarp/lisp.py:212-214 | evaluating quoted values gives them back |
| LispEval.ClosureCallUsesCapturedScope | projects/git-timewarp/lisp.py:101-107 | calling a closure evaluates its body in a new scope under the captured scope, not the caller's |
| LispEval.LambdaCall | projects/git-timewarp/lisp.py:208-210 | `((lambda params body) args)` evaluates the body with the parameters bound in a child of the defining scope |
| LispEval.QuotedDatumEvaluatesToItself | projects/git-timewarp/lisp.py:212-214 | reading a quoted datum and evaluating it gives the datum back |
| SquabbleRules.TrimStart | projects/squabble/squabble/rules/__init__.py:30 | removing leading whitespace never lengthens the docstring |
| SquabbleRules.TrimEnd | projects/squabble/squabble/rules/__init__.py:30 | removing trailing whitespace never lengthens the docstring |
| SquabbleRules.TrimStartSpec | projects/squabble/squabble/rules/__init__.py:30 | the leading strip drops exactly a whitespace prefix and stops at the first other character |
| SquabbleRules.TrimEndSpec | projects/squabble/squabble/rules/__init__.py:30 | the trailing strip drops exactly a whitespace suffix and stops at the last other character |
| SquabbleRules.StripKeepsMiddle | projects/squabble/squabble/rules/__init__.py:30 | `strip()` keeps a contiguous middle of the text, removes only whitespace, and leaves none at either end |
| SquabbleRules.Strip | projects/squabble/squabble/rules/__init__.py:30 | `strip()` never lengthens the text and leaves no whitespace at either end |
| SquabbleRules.StripIdempotent | projects/squabble/squabble/rules/__init__.py:30 | stripping an already stripped docstring changes nothing |
| SquabbleRules.FirstIndex | projects/squabble/squabble/rules/__init__.py:30 | the split point of `split('\n', 1)` is the first newline, and without a result there is no newline |
| SquabbleRules.MetaOf | projects/squabble/squabble/rules/__init__.py:28-36 | a rule's metadata carries its class name |
| SquabbleRules.MetaSplitsDocstring | projects/squabble/squabble/rules/__init__.py:28-36 | the description is one line; help is present exactly when the stripped docstring has a newline; description, newline and help rebuild the stripped docstring |
| SquabbleRules.MetaWithoutDocstring | projects/squabble/squabble/rules/__init__.py:30-35 | a class without a docstring has an empty description and no help |
| SquabbleRules.MetaExample | projects/squabble/squabble/rules/__init__.py:28-36 | a docstring with a leading space and a trailing newline gives the first line as description and the inner rest as help |
| SquabbleRules.LastNamed | projects/squabble/squabble/rules/__init__.py:14-17 | the position found for a rule name lies within the registration sequence |
| SquabbleRules.LastNamedSpec | projects/squabble/squabble/rules/__init__.py:14-17 | the found class is the last one with the name; without a result no class has it |
| SquabbleRules.RegisterAllLastWins | projects/squabble/squabble/rules/__init__.py:10-17 | after a run of registrations each name maps to the entry of the last class with that name, and other names keep their earlier entry |
| SquabbleRules.RegisterOneMore | projects/squabble/squabble/rules/__init__.py:10-17 | registering one more class is one more step of the same run |
| SquabbleRules.RegisterAll | projects/squabble/squabble/rules/__init__.py:10-17 | the registered names are the earlier ones and the names of the classes registered |
| SquabbleRules.Registry.constructor | projects/squabble/squabble/rules/__init__.py:7 | the table of known rules starts empty |
| SquabbleRules.Registry.RegisterRule | projects/squabble/squabble/rules/__init__.py:10-17 | the table gains the class and its metadata under the rule name, replacing any earlier entry |
| SquabbleRules.Registry.DefineSubclass | projects/squabble/squabble/rules/__init__.py:24-26 | defining a subclass registers it exactly as `register_rule` does |
| SquabbleRules.Upper | projects/squabble/squabble/rules/__init__.py:88 | upper-casing keeps the length of the name |
| SquabbleRules.UpperAt | projects/squabble/squabble/rules/__init__.py:88 | upper-casing maps each character on its own, position by position |
| SquabbleRules.LowerCaseNames | projects/squabble/squabble/rules/__init__.py:88 | lower- and mixed-case names upper-case to the map's keys |
| SquabbleRules.MapNames | projects/squabble/squabble/rules/__init__.py:87-92 | an accepted name list yields one constraint kind per name |
| SquabbleRules.MapNamesSpec | projects/squabble/squabble/rules/__init__.py:87-92 | the list is accepted iff every upper-cased name is a key of `CONSTRAINT_MAP`; then each kind is the mapped one; otherwise the error is the KeyError of the first unknown name |
| SquabbleRules.CollectConstraints | projects/squabble/squabble/rules/__init__.py:85-92 | the loop over the configured names computes the same kinds, or the same first KeyError, as the specification |
| SquabbleRules.ConfigureAcceptsKnownNames | projects/squabble/squabble/rules/__init__.py:81-94 | a configuration is accepted iff `disallowed` is present, non-empty and all known; the blocked set is then exactly the kinds of the names; a missing or empty list raises the configuration error |
| SquabbleRules.MapNamesIgnoresCase | projects/squabble/squabble/rules/__init__.py:88 | name lists that upper-case alike map alike, errors included |
| SquabbleRules.ConfigureIgnoresCase | projects/squabble/squabble/rules/__init__.py:81-94 | replacing the names by ones that upper-case alike configures the same rule |
| SquabbleRules.ConfigureF | projects/squabble/squabble/rules/__init__.py:81-94 | a missing or empty `disallowed` list raises the configuration error; an accepted configuration blocks a non-empty set of known constraint kinds |
| SquabbleRules.RuleInit | projects/squabble/squabble/rules/__init__.py:20-21 | the base constructor accepts exactly one argument besides the instance |
| SquabbleRules.ConfigureAsWritten | projects/squabble/squabble/rules/__init__.py:78-94 | the constructor as written, whenever it succeeds, agrees with the validation |
| SquabbleRules.SuperInitRejectsEverything | projects/squabble/squabble/rules/__init__.py:78-79 | as written every construction raises the arity `TypeError`, even for a configuration the validation accepts |
| SquabbleRules.Blocked | projects/squabble/squabble/rules/__init__.py:125-126 | the flagged constraints are no more than the column's constraints |
| SquabbleRules.BlockedStep | projects/squabble/squabble/rules/__init__.py:125-126 | one more loop step flags the constraint exactly when its kind is blocked |
| SquabbleRules.BlockedMembers | projects/squabble/squabble/rules/__init__.py:125-126 | a constraint is flagged iff it is in the column and its kind is blocked |
| SquabbleRules.BlockedAppend | projects/squabble/squabble/rules/__init__.py:125-126 | flagging preserves list order: the flags of a concatenation are the concatenated flags |
| SquabbleRules.Violations | projects/squabble/squabble/rules/__init__.py:115-126 | a constraint is flagged exactly when the command adds a column, the column has constraints, the constraint is one of them and its kind is blocked |
| SquabbleRules.OnlyAddColumnInspected | projects/squabble/squabble/rules/__init__.py:115-123 | a command other than ADD COLUMN, a missing constraint list or an empty one is never flagged |
| SquabbleRules.ConfiguredViolations | projects/squabble/squabble/rules/__init__.py:81-129 | with an accepted configuration a new column's constraint is flagged iff it belongs to the column and some configured name maps to its kind |
| SquabbleRules.FailContext.constructor | projects/squabble/squabble/rules/__init__.py:127-129 | a fresh linter context has recorded no failures |
| SquabbleRules.FailContext.Fail | projects/squabble/squabble/rules/__init__.py:127-129 | `fail` appends one failure with the message id, column and node |
| SquabbleRules.FailuresFor | projects/squabble/squabble/rules/__init__.py:127-129 | one failure per flagged constraint |
| SquabbleRules.FailuresForStep | projects/squabble/squabble/rules/__init__.py:127-129 | a further flagged constraint appends its failure at the end |
| SquabbleRules.FailuresForSpec | projects/squabble/squabble/rules/__init__.py:127-129 | the i-th failure is `constraint_not_allowed` for the column and the i-th flagged constraint |
| SquabbleRules.LegacyAddColumnRule.Configured | projects/squabble/squabble/rules/__init__.py:94 | the rule keeps the blocked kinds it is given |
| SquabbleRules.LegacyAddColumnRule.Create | projects/squabble/squabble/rules/__init__.py:81-94 | construction succeeds iff the configuration is accepted, with the configured blocked set; otherwise it raises the configuration's error |
| SquabbleRules.LegacyAddColumnRule.Check | projects/squabble/squabble/rules/__init__.py:115-129 | the context gains exactly the failures for the flagged constraints of an added column, in order, and nothing else |
| SquabbleRules.LegacyAddColumnRule.FailEach | projects/squabble/squabble/rules/__init__.py:125-129 | the loop appends the failures for the blocked constraints, in order |
| SquabbleAddColumn.ReportContext.constructor | projects/squabble/squabble/rules/add_column_disallow_constraint.py:92-95 | a fresh linter context holds no reports |
| SquabbleAddColumn.ReportContext.Report | projects/squabble/squabble/rules/add_column_disallow_constraint.py:92-95 | `report` appends one issue with rule, message id, parameters and node |
| SquabbleAddColumn.IssuesFor | projects/squabble/squabble/rules/add_column_disallow_constraint.py:88-95 | one report per flagged constraint |
| SquabbleAddColumn.IssuesForStep | projects/squabble/squabble/rules/add_column_disallow_constraint.py:88-95 | a further flagged constraint appends its report at the end |
| SquabbleAddColumn.IssuesForSpec | projects/squabble/squabble/rules/add_column_disallow_constraint.py:37-39 | the i-th report names the i-th flagged constraint, has the column as its `col` parameter and a message id the rule's messages define |
| SquabbleAddColumn.AddColumnRule.Configured | projects/squabble/squabble/rules/add_column_disallow_constraint.py:56-57 | the rule keeps its options and blocked kinds |
| SquabbleAddColumn.AddColumnRule.Create | projects/squabble/squabble/rules/add_column_disallow_constraint.py:41-57 | construction succeeds iff the configuration is accepted, keeping the options and the configured blocked set; otherwise it raises the configuration's error |
| SquabbleAddColumn.AddColumnRule.Check | projects/squabble/squabble/rules/add_column_disallow_constraint.py:78-95 | the context gains exactly the reports for the flagged constraints of an added column, in order; other commands and missing constraint lists add nothing |
| SquabbleAddColumn.AddColumnRule.ReportEach | projects/squabble/squabble/rules/add_column_disallow_constraint.py:88-95 | the loop appends the reports for the blocked constraints, in order |
| SquabbleAddColumn.ReportsDefaultOnly | projects/squabble/squabble/rules/add_column_disallow_constraint.py:41-95 | configured with `default`, a column with a DEFAULT and a UNIQUE constraint is reported for the DEFAULT one only |

## Left out

- Parsing of profiles (the pest grammar and the `parse_*` functions) is not part of this model. All three engines start from the parsed `ProfileAst.Expression`.
- PanamintEval.Apply: `f32` arithmetic is modelled on reals, without rounding, infinities or NaN. A division by zero therefore gives 0 here instead of an infinity or NaN, and the older engines' `sum` is likewise addition on reals, without `f32` rounding.
- The tag dictionary (`to_compact`), the per-edge tag source (`has_tag`/`get_tag`) and the global-variable lookup are modelled as maps. The unknown-tag id is a distinct constructor rather than a reserved integer.
- Panics of the Rust code are modelled as an explicit panic outcome carrying the panic message, not as process termination. In the older runtime these are too many constants, an undefined name, an unknown block type, a non-number way score, a bad constant lookup, a non-number in a sum block, a when block with no matching clause and tags asked for where there are none (`src/profile/runtime.rs:110`, 132, 170, 281, 328, 384, 402 and 408), and indexing the empty slot vector of a constant context. In the canonical runtime they include a wrong number of arguments (`projects/panamint/src/profile/runtime.rs:242-244`).
- LegacyRuntime.FromF: the unused `Err(())` type of `from` is modelled as an error string. The constants are read from the parsed profile's definitions; the source names them `constant_defs` in `runtime.rs` but `global_defs` in `src/profile.rs:63`.
- ProfileWalker: looking up a stored definition can recurse without structural decrease. Evaluation therefore carries a fuel bound and yields a divergence outcome once the fuel is spent. Profiles whose definitions refer to each other in a cycle recurse without end in the source. That non-termination is what the bound leaves unmodelled.
- The walker's `score_node` and `score_way` (`src/profile.rs:464-469`) are stubs that return 0.0. They are not modelled.
- PanamintVariables.VariableMapping.AddVariable: the `u16` width of `next_id` is not modelled. The counter is unbounded here, so the 65536th variable of one build gets id 65535 + 1. In the source `next_id += 1` then panics in a debug build and wraps to 0 in a release build. PanamintCompilerFacts.BuildRunnable and PanamintEvalFacts.RunnableNeverPanics hold only for builds with fewer than 65536 variables, and the older runtime shares this class.
- HotpotActivity.Simplified: `point_to_line_dist` is a parameter returning a real for each point and segment, not the Euclidean formula. `epsilon` is required to be non-negative: for a negative one the source splits at index 0 and recurses on the whole line again without end.
- The tile clipping and the file I/O of `activity.rs` are not part of this model.
- BleMetrics.MetricSource.HandleHeartRateMeasurement, BleMetrics.MetricSource.HandleCyclingPowerMeasurement and BleMetrics.MetricSource.Notify: these are the corrected handlers and decode with `DecodeHeartRate` and `DecodeCyclingPower`. On the inputs listed under "## Findings" they deliver nothing, where the source panics: a two-byte heart-rate buffer announcing a 16-bit reading, and a two- or three-byte power notification. The handlers as written are `HeartRateAsWritten` and `CyclingPowerAsWritten`.
- BleMetrics: the Bluetooth plumbing (adapter, scanning, connection, characteristic discovery and subscription) is left out. Notifications arrive as byte sequences, and sinks are output lists. Channel blocking and goroutines are not modelled.
- LispEval: evaluation carries a fuel bound, because applying a closure recurses on its body without structural decrease. Programs that do not terminate are what the bound leaves unmodelled.
- LispEval: the git scope (the `git_scope` branch of `Scope.find`, `lisp.py:45-47`) and the global scope of built-in Python functions are left out, so only closures can be applied. Applying anything else gives a type error.
- LispEval.Truthy: a float literal is false exactly when correct rounding to a double gives zero, which is how the literal's value is tested here. The other float operations are not modelled, because the evaluator does no arithmetic.
- LispEval: `print` returns the evaluated arguments as in the source, but writes nothing.
- LispEval: the placeholders `stash!`, `pop!` and `commit!` evaluate to nil, as their bodies do nothing.
- LispReader: symbol identity through the intern table is modelled by the `Intern` method, but the parser compares symbols by name instead of threading the table through.
- SquabbleRules: the `pglast` node is abstracted to a command subtype and a column definition with an optional constraint list, and the linter context to the list of failures or reports it records. `register` and `enable` are not modelled.
- SquabbleRules.LegacyAddColumnRule.Create: the constructor is modelled with the base-class call taking the options alone, which is the corrected form of the one listed under "## Findings". The options the base class stores are not used by the rule and are not modelled.
- SquabbleRules: the enum members `ConstrType.FOREIGN` and `ConstrType.UNIQUE` named at `__init__.py:70-71` are taken to be the FOREIGN and UNIQUE constraint kinds.
- SquabbleRules.Upper and SquabbleRules.Strip: upper-casing and `strip()` are ASCII-only, without Unicode case mapping or Unicode whitespace.
- SquabbleRules.MapNames: the `ty is None` branch of the constructor cannot be reached, because the map holds no `None` value and an unknown name already raises `KeyError` at the lookup. The model has the `KeyError` only.
- Console output is not modelled: the `print` of `register_rule`, the `println!` of each constant in `evaluate_constants` (`src/profile/runtime.rs:248`), the walker's "WARN: no matching when clause, using INVALID" (`src/profile.rs:388`) and the "BUG: missing notification handler:" line of the BLE handler dispatch (`projects/git-commitment/main.go:114`). None of them changes a result.

## Findings

| source | as written | input that shows it | evidently intended | confidence | as-written member | corrected member |
|---|---|---|---|---|---|---|
| projects/git-commitment/main.go:142-165 | the length guard only requires two bytes, and then the 16-bit heart rate reads bytes 1 and 2 | the two bytes `[0x01, 72]`: the flag announces a 16-bit value, and `buf[1:]` has one byte, so the read panics | reject a buffer too short for the announced reading as malformed | not executed | BleMetrics.HeartRateShortBufferPanics | BleMetrics.HeartRateRoundTrip |
| projects/git-commitment/main.go:210-216 | the length guard only requires two bytes, but the power field is read from bytes 2 and 3 | any two- or three-byte notification, which reads `buf[2:]` past its end | require the four bytes of flags and instantaneous power | not executed | BleMetrics.CyclingPowerShortBufferPanics | BleMetrics.CyclingPowerRoundTrip |
| projects/git-timewarp/lisp.py:125-128 | a line, or the rest of a line, holding only whitespace does not match the pattern, so the tokenizer yields the end marker and stops | the input `"a \nb\n"` yields `a` and then the end marker, and `b` is never read | treat a whitespace-only remainder like an empty line and read on | not executed | LispReader.BlankLineEndsInput | LispReader.BlankLineSkipped |
| projects/squabble/squabble/rules/__init__.py:78-79 | `super().__init__(self, opts)` passes the instance again besides the options, two arguments where `Rule.__init__` takes one | any construction, even `{"disallowed": ["unique"]}`, raises `TypeError` before the validation runs | `super().__init__(opts)`, after which the validation decides | not executed | SquabbleRules.SuperInitRejectsEverything | SquabbleRules.ConfigureAcceptsKnownNames |
