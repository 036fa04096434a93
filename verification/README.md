# Sentanyl core service: a verified model

Three parts of the service carry its hard guarantees, and this project models them and proves what they promise.

- **Story sessions** (`Session*.dfy`). Start commands, durable sweeps, the test tick and click triggers race on shared
  session rows. `SessionModel` has the row updates, as functions and as the in-place loops of one sweep; `SessionProtocol`
  is a transition system in which nothing is atomic beyond one row update: every actor holds stale copies, and any step
  may be the last one before a crash. `SessionSteps` says what each step writes, and `SessionTheorems` holds for every run
  of any length.
- **The script front end.** Lexer (`Utf8`, `Lexemes`, `LexTheorems`, `LexRoundTrip`, `LexEscapes`, `LexSteps`, `Lexer`,
  `LexPlaces`), parser (`Condition*.dfy`, `Action*.dfy`, `Block*.dfy`, and `Script*.dfy`: typed trees of whole scripts that
  spell their own text), macro expander (`Substitution`, `Expansion`, `ExpansionSteps`, `ExpansionValues`, `ExpansionPlaces`,
  `AstNodes`, `Expander`, `StoryExpander`, `ExpansionTheorems`) and compiler passes (`Conditions`, `EnactmentLinks`,
  `PublicIds`, `StoryIds`).
- **Plan changes** (`Plan*.dfy`, `PastDue.dfy`). Stripe's price, the tenant document and the intent rows are separate
  stores; each handler, sweep and webhook is a sequence of writes that can fail or stop anywhere. `PlanHandlers` and
  `PlanSweeps` say what each leaves behind.

Where the program works on mutable state the model does too: classes and methods with loops, each proved against a
function, about which the theorems are then stated.

## Assumptions

- Sessions: a snapshot read returns rows as they are at the step that reads them; a session's story graph, the user's
  unsubscription and the send authority's answer are inputs of a step and may differ from step to step. Clock readings
  never decrease.
- Plan changes: the handlers, sweeps and webhooks of one tenant do not interleave; an error from Stripe means the change
  was not applied; an event carries the current price, and that price maps to a tier. What a tenant does in Stripe's own
  portal falls between handlers: cancellations made there are modelled, changes of price are not.
- Scripts: which runes above ASCII are letters or digits, decimal conversion, and the interpolation of one string are
  parameters of the lexer and the expander. For interpolation `Substitution` proves which strings do not depend on the
  map's iteration order.

## What the proofs turned up

Each of these is a lemma with a concrete run or an exact condition, named at its end.

- Two starts for the same user and story whose supersede passes overlap can supersede each other, and no session stays
  active (`OverlappingStartsLeaveNoneActive`). An active session is safe from the starts already made exactly when no
  other start of its pair is still before or in its pass (`SurvivesIff`).
- Completion writes by public id alone. A sweep with a due copy that it will complete can end the session before the
  session's own deadline exactly if the session is still active (`EndsEarlyIff`), and can turn "superseded" into
  "completed" exactly if it is not completed yet (`OverwritesSupersededIff`).
- Withdrawing a scheduled downgrade after a sweep has changed the price and crashed leaves Stripe and the tenant apart with
  no intent that says so (`WithdrawalAfterCrashDivergesSilently`); withdrawal is safe exactly when the tiers agree or
  another intent still covers the gap (`WithdrawalSafeIff`).
- A sweep that crashes before it stamps an applied downgrade replays it over a later upgrade
  (`UnstampedDowngradeUndoesUpgrade`); the price stays exactly when every downgrade still scheduled is to a tier at that
  price (`PriceStaysIff`).
- A cancellation made in Stripe's portal has no intent unless an earlier request left one (`CancellationIsBackedIff`).
- A billing event whose processed mark is lost can restart a running past-due clock (`RedeliveryIsInertIff`).
- A comment left open is reported only if its last rune is one byte long and it is not empty (`OpenCommentReportedIff`).
- Columns fall short after the lexer steps back from a duration such as `12dx`, by the length of the number
  (`TokenPlaces`).
- `not has_badge "a" and has_badge "b"` is read as the negation of the whole and compiled to a demand for both badges
  (`NegatedChainDemandsBoth`).
- An `else` written for a trigger is taken by a retry action without a fallback that stands last before it
  (`TriggerReadsBackIff`).
- `tags`, `must_have [` and `must_not_have [` make the parser run for ever unless strings and commas follow up to the
  closing bracket or the end (`NonFlatListHangs`); where the lists behind it are flat, the first one decides
  (`ScriptHangsIff`). Where every such word is followed by a flat list parsing ends, having read the whole script
  (`NeverHangs`).
- Conditions: `or` is compiled like `and`, `not` over a block is ignored, tags and undeclared badges guard nothing
  (`LeafIsSoundIff`). Over declared badges it is sound where `not` stands over single badges and no `or` is empty
  (`GuardIsSound`), and `SoundIff` decides every other nesting. It is exact without a choice, and for a
  choice among badges exactly if there is none (`ChoiceIsExactIff`).
- `loop_to_enactment` is linked exactly when its target is declared earlier (`LoopIsLinkedIff`); a duplicated name can
  leave a pending marker (`MarkerRemainsIff`).
- Pattern instances drop a level expression, and clones drop a scene's generation block and a trigger's watch fields
  (`PatternCloneIsTemplateIff`, `CloneIsTemplateIff`, `TriggerCloneIsTemplateIff`).
- A parameter value in which another parameter's placeholder occurs, or can begin at its end, makes the substituted text
  depend on map order (`OrderShowsIff`).
- A wait in days counts as minutes (`WaitIsItsLengthIff`).

Where the code and its comments part, the model follows the code: `or` is said to become a badge condition
(scripting/compiler.go:959) but is walked like `and`; a plan change is said never to diverge silently
(routes/platform_billing.go:246-249), which withdrawal breaks; the lexer's position is said to be recalculated for the
offset it steps back to (scripting/lexer.go:343-344), but it is recalculated for the number's start.

## Model

| member | source | states |
|---|---|---|
| `SessionModel.Decide` | routes/story_engine.go:301-352 | what advancing does on the copy it holds: nothing, completion, or a claim of exactly the next index |
| `SessionModel.ActiveSnaps` | routes/story_engine.go:280-286 | the snapshot of a sweep is exactly the active rows, each once |
| `SessionModel.SessionStore.Start` | routes/story_engine.go:197-230 | an uninterrupted start inserts at most one row per command key and leaves the new session the only active one of its pair |
| `SessionModel.SessionStore.SupersedeOthers` | routes/story_engine.go:225-230 | marks exactly the other active sessions of the same user and story |
| `SessionModel.SessionStore.AdvanceSession` | routes/story_engine.go:301-415 | advances the row as decided on the copy, and sends one email exactly when the claim succeeded and was not refused |
| `SessionModel.SessionStore.AdvanceExpiredSessions` | routes/story_engine.go:280-298 | one undisturbed sweep advances every row whose deadline has passed by exactly one step and touches no other |
| `SessionModel.SweepIsPass` | routes/story_engine.go:280-298 | the sweep's loop over its snapshot is one simultaneous pass over the rows |
| `SessionInvariants.KeepClaims` | routes/story_engine.go:354-377 | the claims of a session are 1, 2, ... up to its index after every step, whoever takes it |
| `SessionInvariants.KeepCopies` | routes/story_engine.go:280-298 | a copy that still pins its row has the row's wait and follow-up, however old it is |
| `SessionTheorems.ClaimsInOrderExactlyOnce` | routes/story_engine.go:301-415 | in every run each (session, index) is claimed at most once, in order, without a gap |
| `SessionTheorems.EmailsAtMostOnce` | routes/story_engine.go:354-415 | in every run at most one email goes out per (session, index), and only by the actor that claimed it |
| `SessionTheorems.SweepClaimsNeverEarly` | routes/story_engine.go:280-298 | a sweep's claim happens at or after the row's own deadline, even from a stale copy |
| `SessionTheorems.OlderActiveMeansUnsettled` | routes/story_engine.go:225-230 | while an older session of the pair is active, the newer one's supersede pass has not finished |
| `SessionTheorems.AtMostOneActive` | routes/story_engine.go:197-230 | once all starts have finished their pass at most one session of a pair is active, the last inserted |
| `SessionTheorems.OverlappingStartsLeaveNoneActive` | routes/story_engine.go:225-230 | two overlapping starts can end with no active session at all |
| `SessionTheorems.LastStartSurvives` | routes/story_engine.go:197-230 | a start that overlaps no running start of its pair is never superseded; crashed and failed starts do not count |
| `SessionTheorems.SurvivesIff` | routes/story_engine.go:215-230 | an active session is safe from the starts already made, in every schedule, exactly when none other of its pair is before or in its pass |
| `SessionTheorems.WaitIsItsLengthIff` | routes/story_engine.go:568-581 | a wait is as long as it says exactly if it is not in days |
| `SessionTheorems.StartsAreIdempotent` | routes/story_engine.go:197-248 | any number of starts with one nonempty key yield at most one session and one first email |
| `SessionTheorems.OnlyTheInserterActs` | routes/story_engine.go:217-248 | only the command that inserted a row supersedes for it or sends its first email |
| `SessionTheorems.ReplayIsInert` | routes/story_engine.go:217-223 | a replayed command key changes nothing |
| `SessionTheorems.EndedStaysEnded` | routes/story_engine.go:362-377 | a completed or superseded session never becomes active or advances again |
| `SessionTheorems.ClaimsAreBounded` | routes/story_engine.go:323-328 | with n enactments in a storyline a session is claimed at most n - 1 times |
| `SessionTheorems.ExpiredPassProgresses` | routes/story_engine.go:280-377 | every pass that finds a session expired ends it or uses up one remaining enactment |
| `SessionTheorems.ExpiredPassesComplete` | routes/story_engine.go:280-377 | as many expired passes as enactments remain complete the session |
| `SessionCompletions.EndsEarlyIff` | routes/story_engine.go:417-421 | a sweep holding a due copy it will complete can end the session before its own deadline, in some schedule, exactly if the session is still active |
| `SessionCompletions.StaleSweepCompletesEarly` | routes/story_engine.go:417-421 | such a run from the beginning |
| `SessionCompletions.OverwritesSupersededIff` | routes/story_engine.go:417-421 | such a sweep can overwrite "superseded", in some schedule, exactly if the session is not completed yet |
| `SessionCompletions.StaleSweepCompletesSuperseded` | routes/story_engine.go:417-421 | such a run from the beginning |
| `SessionTheorems.FreshCopyIsOnTime` | routes/story_engine.go:288-297 | a sweep acting while its copy still equals the row acts at or after the deadline |
| `SessionSteps.AdvanceStepIs` | routes/story_engine.go:301-421 | what an attempt on a due copy does to every row: completion, a claim of the next index with that enactment's wait and follow-up, or nothing |
| `SessionSteps.ClaimWritesItsEnactment` | routes/story_engine.go:329-371 | in every run a session whose index an advance changes to n takes the wait and follow-up of enactment n of its own storyline |
| `SessionSteps.SweepSkipsIff` | routes/story_engine.go:288-297 | a sweep leaves a copy alone exactly until its wait is over |
| `SessionSteps.InsertStepIs` | routes/story_engine.go:197-223 | a start inserts one session at the first enactment with that enactment's wait and follow-up, or nothing if its key was used |
| `SessionSteps.RewindMovesDeadline` | routes/story_engine.go:94-98 | a test tick brings a deadline nearer by exactly its seconds |
| `Utf8.DecodeEncode` | scripting/lexer.go:40-61 | every code point is read back from its encoding, whatever bytes follow |
| `Utf8.EncodeDecode` | scripting/lexer.go:48-61 | a rune is re-encoded as its own bytes, unless it was a stray byte |
| `LexTheorems.TokensAreInOrder` | scripting/lexer.go:27-36 | for every source the tokens end with one end-of-file token at its length and never overlap or go back |
| `LexTheorems.TokensAreTheirText` | scripting/lexer.go:128-333 | every legal token other than a string is exactly the source slice at its offset |
| `LexTheorems.GapsAreBlank` | scripting/lexer.go:80-125 | between tokens there are only blanks and comments, each comment running to its proper end |
| `LexTheorems.NothingLeftToSkip` | scripting/lexer.go:80-125 | skipping stops only where neither a blank nor a comment starts |
| `LexTheorems.NoTokenIsCutShort` | scripting/lexer.go:270-333 | words, numbers and durations end only where they cannot go on; the lexer steps back exactly before a word |
| `LexTheorems.OpenCommentReportedIff` | scripting/lexer.go:104-120 | when the missing end of a block comment is reported |
| `LexTheorems.UnexpectedIffIllegal` | scripting/lexer.go:225-226 | an unexpected character is reported at an offset exactly when the token there is illegal |
| `LexRoundTrip.QuotedReadsBack` | scripting/lexer.go:230-267 | every well-formed text, quoted, is read back as itself up to its closing quote and without a diagnostic |
| `LexRoundTrip.LiteralsAreText` | scripting/lexer.go:230-267 | whatever bytes a string is read from, its literal is well-formed text |
| `LexEscapes.SpelledReadsBack` | scripting/lexer.go:247-267 | every well-formed text, with newline, tab and carriage return spelled as escapes, is read back as itself up to its closing quote, without a report |
| `LexEscapes.OtherEscapeStays` | scripting/lexer.go:259-262 | a backslash before any other rune stays in the literal, with that rune |
| `LexEscapes.UnclosedIsReported` | scripting/lexer.go:230-250 | a string without a closing quote takes the rest of the text, and is reported once |
| `LexEscapes.KindsFit` | scripting/lexer.go:128-333 | the kind of every token fits the text it was read from: numbers, floats, durations, words, strings, operators |
| `LexRoundTrip.PrintedTokensLexBack` | scripting/lexer.go:27-333 | for every source, lexing its printed tokens gives the same tokens again |
| `Lexer.Lexer.Advance` | scripting/lexer.go:48-61 | the line stays exact and the column keeps its lag, or loses it at a newline |
| `Lexer.Lexer.SkipWhitespaceAndComments` | scripting/lexer.go:80-125 | the cursor skips and reports exactly what the specification says |
| `Lexer.Lexer.SkipBlock` | scripting/lexer.go:103-121 | a block comment is left at its first closing, with the report due |
| `Lexer.Lexer.ReadString` | scripting/lexer.go:230-267 | literal, end and diagnostics of a string |
| `Lexer.Lexer.ReadNumberOrDuration` | scripting/lexer.go:270-318 | the number at the cursor; after stepping back the column lags by the number's length |
| `Lexer.Lexer.StepBack` | scripting/lexer.go:296-301 | the cursor is behind the digits, the line exact, the column that of the first digit |
| `Lexer.Lexer.RecalcLineCol` | scripting/lexer.go:345-358 | line and column of an offset by a scan from the beginning |
| `Lexer.Lexer.Next` | scripting/lexer.go:128-227 | the next token with its place, its diagnostics and the lag it leaves behind |
| `Lexer.Lexer.Tokenize` | scripting/lexer.go:27-36 | terminates on every source with exactly the specified tokens, places and diagnostics |
| `LexPlaces.TokenPlaces` | scripting/lexer.go:63-65 | offsets and lines are exact; a column is short by the latest number stepped back to on the same line, and by nothing else |
| `ConditionParser.ParsePrint` | scripting/parser.go:1565-1654 | a readable condition is read back as itself, up to its last token |
| `ConditionParser.RoundTripIff` | scripting/parser.go:1565-1654 | printing and parsing a condition gives it back exactly when it is readable |
| `ConditionParser.NegatedChainDemandsBoth` | scripting/parser.go:1612-1638 | a negated badge followed by "and" is read as a negated conjunction and compiled to a demand for both |
| `ConditionParser.ListTerminatesIff` | scripting/parser.go:1990-2001 | the list loop ends exactly when only strings and commas come before the bracket |
| `ConditionParser.ListRoundTrip` | scripting/parser.go:1990-2001 | a printed list is read back element by element |
| `ConditionParser.Parser.ParseCondition` | scripting/parser.go:1565-1654 | the cursor parse is the specified one; every call consumes a token, so it ends on every stream |
| `ConditionParser.Parser.ParseStringList` | scripting/parser.go:1990-2001 | the list read and the tokens left, on every stream on which the loop ends |
| `ActionParser.ActionReadsBackIff` | scripting/parser.go:1404-1561 | a printed action is read back as itself exactly when nothing follows that would continue it |
| `ActionParser.BodyIsReadAs` | scripting/parser.go:1357-1385 | what a printed trigger body of do and else clauses is read as |
| `ActionParser.TriggerReadsBackIff` | scripting/parser.go:1357-1385 | in a body of do and else clauses a trigger keeps its else exactly when no retry action without fallback stands last before it |
| `ActionParser.Parser.ParseActionNode` | scripting/parser.go:1404-1525 | the cursor parse of an action is the specified one and consumes a token |
| `ActionParser.Parser.ParseElseClause` | scripting/parser.go:1538-1560 | an else clause in its three forms, with recovery |
| `ActionParser.Parser.ParseDurationNode` | scripting/parser.go:1658-1700 | a duration literal, or a number and a unit |
| `ActionParser.Parser.ParseTriggerBody` | scripting/parser.go:1357-1385 | the do and else cases of the loop over a trigger's clauses |
| `ConditionGrammar.ConditionIsReadIff` | scripting/parser.go:1565-1654 | the words the parser reads as a condition are exactly those of an independent token grammar |
| `ActionGrammar.ActionIsReadIff` | scripting/parser.go:1404-1525 | the same for actions with their retry modifiers |
| `ActionGrammar.ElseIsReadIff` | scripting/parser.go:1538-1560 | the same for else clauses |
| `ScriptTheorems.CondIsRead` | scripting/parser.go:1565-1654 | a condition spelled with the language's keywords is read as itself before any token but `and` and `or` |
| `ScriptTheorems.ActionIsReadBack` | scripting/parser.go:1404-1561 | the same for every action with its retry modifiers |
| `ScriptTheorems.ElseBlockIsRead` | scripting/parser.go:1365-1377 | an else block is read as its actions in order |
| `ScriptTheorems.SpanIsRead` | scripting/parser.go:1658-1693 | a number with any spelling of a unit is read as that many of the unit's initial |
| `ScriptTheorems.ScriptIsRead` | scripting/parser.go:22-1403 | every script of the typed trees, spelled keyword by keyword apart from the parser's tables, is read without a report and clause for clause |
| `ScriptUniqueness.ScriptIsReadAsIff` | scripting/parser.go:22-1403 | the text of a typed tree is read as that tree and as no other, and no other tree has that text |
| `ScriptRefusals.OthersAreRefused` | scripting/parser.go:856-858 | a token that starts no clause of the typed trees in its block costs one report and is skipped |
| `BlockTheorems.ScriptIff` | scripting/parser.go:22-118 | the parser reads a script as a tree without a report exactly when the script is a text of the grammar for that tree |
| `BlockTheorems.ReportsIff` | scripting/parser.go:22-118 | a report is made, or a loop never left, exactly on texts outside the grammar |
| `BlockTheorems.Unambiguous` | scripting/parser.go:808-1046 | no script of the grammar can be read in two ways |
| `BlockTheorems.PrintedItems` | scripting/parser.go:808-1046 | the clauses of any block are read back in order, whatever follows them |
| `BlockTheorems.CleanItems` | scripting/parser.go:808-1046 | what a block reads without a report is in the grammar, and the tree leaves none of its tokens out |
| `BlockTheorems.OperandTakes` | scripting/parser.go:158-198 | an operand of the grammar, conditions and actions included, is taken as it stands |
| `BlockTheorems.CleanOperand` | scripting/parser.go:158-198 | nothing else is taken without a report |
| `BlockTheorems.CleanUse` | scripting/parser.go:732-800 | which uses are read without a report |
| `BlockTheorems.JunkCostsOneReport` | scripting/parser.go:856-858 | an unexpected token between clauses costs one report and no clause |
| `BlockTheorems.NeverHangs` | scripting/parser.go:22-118 | parsing ends on every stream whose lists hold only strings and commas |
| `BlockTheorems.ListHangsIff` | scripting/parser.go:1990-2001 | the model's mark for a parse that does not return is set exactly when the list loop never ends |
| `BlockHangs.NonFlatListHangs` | scripting/parser.go:1990-2006 | after any text read without a report, however deep in blocks, a list that is not flat is never left |
| `BlockHangs.ScriptHangsIff` | scripting/parser.go:1990-2006 | if all the lists behind it are flat, the parser never returns exactly when this one is not |
| `BlockHangs.OnlyListsCanHang` | scripting/parser.go:1990-2006 | whenever the parser never returns, some word that takes a list stands before one that is not flat |
| `BlockTheorems.TagsWithoutListHang` | scripting/parser.go:1024-1026 | one such text: tags before anything but a list, whatever comes later |
| `BlockParser.ParseScript` | scripting/parser.go:22-118 | reads the whole stream; no report exactly on the grammar's texts, with their one reading |
| `BlockParser.Parser.ParseBlock` | scripting/parser.go:814-859 | the loop of a block, with recovery: every round consumes a token |
| `BlockParser.Parser.ParseForNode` | scripting/parser.go:583-667 | a for loop, given up where the source gives it up |
| `BlockParser.Parser.Words` | scripting/parser.go:158-164 | expected words in order: a mismatch is reported and, as the slot says, left or skipped |
| `BlockParser.Parser.Args` | scripting/parser.go:765-796 | the argument loop with its dotted names |
| `Substitution.ReplaceIsFill` | scripting/expander.go:975-979 | replacing one placeholder in a well-formed text fills exactly that parameter |
| `Substitution.OrderDoesNotMatter` | scripting/expander.go:965-981 | every iteration order of independent parameters gives the same text, and it is the simultaneous substitution |
| `Substitution.TemplateOf` | scripting/expander.go:962-981 | every text in which each dollar sign opens a placeholder is a well-formed template |
| `Substitution.OrderShowsIff` | scripting/expander.go:965-981 | the order of the map shows in some template exactly if the placeholder of a parameter that is replaced by something else occurs in, or can begin at the end of, the value of another one |
| `Substitution.SubstituteParams` | scripting/expander.go:965-981 | the helper, under any iteration order, computes the simultaneous substitution |
| `AstNodes.CloneEnactment` | scripting/expander.go:783-821 | a clone made of new nodes only, with the template's value under substitution and its range expanded |
| `AstNodes.CloneLoopEnactment` | scripting/expander.go:475-523 | the clone of a loop's enactment, level expression resolved or reported |
| `AstNodes.ExpandRange` | scripting/expander.go:761-779 | a new scene for each number of the range, in order, none twice |
| `AstNodes.BuildObjectParams` | scripting/expander.go:417-428 | an item's fields as parameters, whatever order the map yields |
| `AstNodes.InstancesShareNoNode` | scripting/expander.go:665-718 | two instances reach no common scene or trigger |
| `AstNodes.ResolveLinksInTriggers` | scripting/expander.go:935-944 | link names in triggers become their addresses, in place |
| `AstNodes.ApplySender` | scripting/expander.go:948-958 | empty sender fields are filled and nothing else |
| `Expander.Expander.constructor` | scripting/expander.go:67-114 | definitions by name, the first of a name counting and the others reported |
| `Expander.Expander.ExpandPattern` | scripting/expander.go:665-718 | the pattern's instances: new, unshared, with the specified values; the templates keep theirs |
| `Expander.Expander.ExpandPolicy` | scripting/expander.go:722-753 | the policy's triggers, cloned under its arguments |
| `Expander.Expander.ExpandEnactmentNode` | scripting/expander.go:611-661 | range, uses, sender and links of one enactment, in place, within its own nodes |
| `Expander.AutoAssignLevels` | scripting/expander.go:225-249 | levels 1, 2, ... exactly when one is missing or comes twice |
| `Expander.Expander.ApplyEnactmentDefaults` | scripting/expander.go:433-470 | every enactment gets its own clones of the defaults |
| `Expander.Expander.ExpandLoop` | scripting/expander.go:347-376 | the enactments of every item: its patterns' first, then the body's |
| `Expander.Expander.ResolveForLoopData` | scripting/expander.go:382-411 | what a loop runs over, or the report that there is nothing |
| `Expander.Expander.ExpandStorylineNode` | scripting/expander.go:165-221 | a storyline expanded in place: specified value and reports, no shared node, templates and loop bodies unchanged |
| `StoryExpander.CloneStoryline` | scripting/expander.go:290-337 | the clone of a loop's storyline, its own loop bodies cloned too |
| `StoryExpander.AutoAssignStorylineOrders` | scripting/expander.go:253-274 | a storyline without an order gets its place |
| `StoryExpander.ExpandStoryNode` | scripting/expander.go:118-161 | a whole story expanded in place: specified value and reports, no two storylines sharing a node, all templates unchanged |
| `ExpansionTheorems.ExpandedStoryIsFlat` | scripting/expander.go:46-63 | no loop, use statement or range is left at any level |
| `ExpansionTheorems.EnactmentCount` | scripting/expander.go:165-221 | exact number of enactments: direct, per pattern use, and per loop item |
| `ExpansionTheorems.StorylineCount` | scripting/expander.go:140-149 | exact number of storylines |
| `ExpansionTheorems.RangeAddsScenes` | scripting/expander.go:611-617 | a range a..b adds max(0, b - a + 1) scenes |
| `ExpansionTheorems.GeneratedLevelsAreDistinct` | scripting/expander.go:209-212 | once something was generated all enactments have levels, no two the same |
| `ExpansionTheorems.AuthoredLevelsAreKept` | scripting/expander.go:209-212 | with nothing generated, authored levels are untouched |
| `ExpansionTheorems.CloneIsTemplateIff` | scripting/expander.go:823-845 | cloning without parameters is the identity exactly for scenes without a generation block |
| `ExpansionTheorems.TriggerCloneIsTemplateIff` | scripting/expander.go:847-879 | the same for triggers, exactly when they watch nothing |
| `ExpansionTheorems.PatternCloneIsTemplateIff` | scripting/expander.go:783-821 | the same for a pattern's enactments: no level expression, no range, and scenes and triggers that are cloned whole |
| `ExpansionTheorems.ExpandedScenesHaveSender` | scripting/expander.go:642-647 | with complete senders, one of them in force, every scene leaves expansion with a complete sender |
| `ExpansionTheorems.AuthoredSenderIsKept` | scripting/expander.go:948-958 | what a scene says of its sender itself is never overwritten |
| `ExpansionTheorems.NoLinkNameIsLeft` | scripting/expander.go:935-944 | no trigger waits for a link by its name, if no link leads to the name of a link |
| `ExpansionTheorems.NamesStandForTheFirst` | scripting/expander.go:88-113 | a name is defined exactly when some definition has it, and stands for the first |
| `ExpansionValues.BindIs` | scripting/expander.go:680-687 | a parameter is bound to the argument at its own position, a link's name giving way to its address, the last one if it occurs twice; nothing else is bound |
| `ExpansionValues.BindFieldsIs` | scripting/expander.go:417-428 | each field of a loop's item is bound behind the variable and a dot; nothing else is bound |
| `ExpansionValues.InstancesAre` | scripting/expander.go:665-718 | every instance of a pattern takes, field by field, the argument at the position of the parameter the field names, and the sender in force where it has none |
| `ExpansionValues.SubjectTakesArgument` | scripting/expander.go:823-845 | in particular a subject that is the name of parameter q becomes argument q |
| `ExpansionValues.PolicyTriggersAre` | scripting/expander.go:722-753 | the triggers of a policy take their arguments the same way |
| `ExpansionValues.PatternTakes` | scripting/expander.go:783-821 | what an enactment cloned from a pattern takes from its template |
| `ExpansionValues.LoopTakes` | scripting/expander.go:475-523 | the same for a loop's enactment |
| `ExpansionValues.RangeSceneIs` | scripting/expander.go:761-779 | scene i of a range knows its number |
| `ExpansionValues.PlacesAndLevels` | scripting/expander.go:165-221 | which enactment stands at which place of an expanded storyline, and with which level |
| `ExpansionValues.OrdersAre` | scripting/expander.go:253-274 | a storyline keeps its order, or gets its place in the list |
| `ExpansionValues.LastSenderCounts` | scripting/expander.go:187-198 | the last `use sender` that names a known sender decides |
| `ExpansionValues.SceneSenderIs` | scripting/expander.go:948-958 | exactly the empty sender fields are filled, each from the field of the same name |
| `ExpansionValues.TriggerLinkIs` | scripting/expander.go:935-944 | a trigger's link name becomes that link's address |
| `ExpansionValues.DefaultTriggerIs` | scripting/expander.go:433-470 | every default trigger stands behind the enactment's own, as written |
| `ExpansionPlaces.UsedPatternIs` | scripting/expander.go:165-201 | where the enactments of a storyline's k-th use stand, each an instance of its pattern with the sender in force at that use |
| `ExpansionPlaces.LoopEnactmentIs` | scripting/expander.go:347-376 | where the enactment made for item i of loop d stands; its fields take the fields of that item, its level is the template's or the expression's |
| `ExpansionPlaces.LoopPatternIs` | scripting/expander.go:347-376 | the same for the pattern instances of that item, whose arguments take its fields |
| `ExpansionPlaces.LoopStorylineIs` | scripting/expander.go:279-342 | where the storyline made for item i of loop d stands, with what its enactments, uses and inner loops take from that item |
| `ExpansionPlaces.DataIs` | scripting/expander.go:382-411 | what item i of a loop is: an object, a string, or an entry of the data it names |
| `ExpansionPlaces.PolicyPart` | scripting/expander.go:618-623 | the triggers of each policy an enactment uses stand behind those of the uses before it |
| `Conditions.Trigger.ApplyCondition` | scripting/compiler.go:923-983 | the recursive walk adds exactly the compiled demands to the trigger's two lists |
| `Conditions.GuardIsSound` | scripting/compiler.go:764-767 | a contact that passes the compiled guard satisfies the written condition |
| `Conditions.GuardIsExactWithoutChoice` | scripting/compiler.go:923-983 | without a real choice the guard admits exactly the contacts meant |
| `Conditions.ChoiceIsExactIff` | scripting/compiler.go:958-962 | a choice among any number of badges is compiled exactly if and only if its alternatives are all the same |
| `Conditions.SoundIff` | scripting/compiler.go:923-983 | for any nesting over declared badges, the guard is sound exactly if nobody passes it or the condition holds once every leaf has what it asks for |
| `Conditions.NegatedBlockIsSoundIff` | scripting/compiler.go:963-981 | in particular, that of a negated block of sound conditions is sound exactly if it demands and forbids the same badge |
| `Conditions.LeafIsSoundIff` | scripting/compiler.go:923-957 | a leaf is compiled soundly exactly if it names a declared badge |
| `Conditions.PassesIff` | scripting/compiler.go:923-983 | who passes the guard of any condition, said without the guard: declared badges only, `or` as strict as `and`, `not` over single badges only |
| `EnactmentLinks.Compiler.CompileStoryline` | scripting/compiler.go:461-564 | both passes leave every enactment with its final actions and older storylines untouched |
| `EnactmentLinks.JumpIsLinked` | scripting/compiler.go:506-564 | a jump is linked to its target whether declared earlier, later or itself, and no marker remains |
| `EnactmentLinks.LoopIsLinkedIffEarlier` | scripting/compiler.go:1029-1041 | a loop back is linked exactly when its target is declared earlier |
| `EnactmentLinks.LoopIsLinkedIff` | scripting/compiler.go:1029-1041 | for any names: exactly when its target is known where it is compiled |
| `EnactmentLinks.LastLinkCounts` | scripting/compiler.go:996-1041 | an action list leads where its last link leads |
| `EnactmentLinks.NoLinkLeadsNowhere` | scripting/compiler.go:996-1041 | and nowhere if no target is known |
| `EnactmentLinks.LastNameCounts` | scripting/compiler.go:996-1122 | the merged action has the name given last |
| `EnactmentLinks.AddedNamesAreKept` | scripting/compiler.go:996-1122 | with no name given the first added name becomes the name, and the others are kept in order |
| `EnactmentLinks.NamesBehindAName` | scripting/compiler.go:996-1122 | behind an action that gives a name every added name is kept besides |
| `EnactmentLinks.MarkerRemainsIff` | scripting/compiler.go:518-564 | exactly when a jump keeps its pending marker, for any names |
| `EnactmentLinks.JumpsOfCleanScriptAreLinked` | scripting/compiler.go:1017-1028 | in a script with colon-free, distinct names every jump within a storyline is linked |
| `EnactmentLinks.CompileScript` | scripting/compiler.go:461-564 | the same for all storylines of a script, compiled one after the other |
| `PublicIds.NumberOfId` | scripting/compiler.go:1565-1568 | the counter can be read back from an id, whatever its prefix |
| `PublicIds.IdParts` | scripting/compiler.go:1565-1568 | between its underscores an id has the fixed word, the prefix, the session code and the counter, in this order |
| `PublicIds.BeforeIff` | scripting/compiler.go:271-275 | names are ordered by the first rune in which they differ |
| `PublicIds.IdGenerator.Generate` | scripting/compiler.go:1565-1568 | an id never issued before |
| `PublicIds.IdGenerator.Precreate` | scripting/compiler.go:268-305 | a name's id is fixed by its rank among the names |
| `PublicIds.AscendingListingIsUnique` | scripting/compiler.go:269-275 | the sorted listing of a set is unique, so no map order shows in the numbering |
| `PublicIds.SortedNames` | scripting/compiler.go:271-275 | the names in ascending order, whatever order the map yields |
| `StoryIds.Compiler.CompileTrigger` | scripting/compiler.go:732-848 | the ids a trigger takes, its else included |
| `StoryIds.Compiler.CompileStories` | scripting/compiler.go:309-648 | the ids taken on the way down the stories are those of the tree's entities in order |
| `StoryIds.IdsMatchTree` | scripting/compiler.go:309-848 | exactly one id for each story, storyline, enactment, scene with message and content, template, trigger and action of the tree, and no more |
| `StoryIds.CompilationIds` | scripting/compiler.go:112-123 | all ids of one compilation differ and follow from the name sets and the tree alone |
| `PlanModel.PlanStore.ConfirmPlanIntents` | routes/plan_change_intent.go:61-71 | exactly the pending intents are confirmed, with the tier Stripe reports |
| `PlanModel.PlanStore.MarkScheduledIntents` | routes/plan_change_intent.go:48-56 | exactly the scheduled intents of one kind are marked |
| `PlanModel.PlanStore.ReconcileStale` | routes/plan_change_intent.go:100-135 | stale intents are settled with the paid tier, which becomes the recorded one |
| `PlanModel.PlanStore.ApplyDueBillingChanges` | routes/plan_change_intent.go:143-181 | after a pass over the due downgrades price, recorded tier and intents agree and the projection is gone |
| `PlanModel.PlanStore.ReconcileScheduledCancellations` | routes/plan_change_intent.go:186-215 | the projection shows a cancellation exactly when Stripe holds one |
| `PlanInvariants.KeepShape` | routes/platform_billing.go:164-296 | every step of every handler, sweep and webhook keeps what the running handler relies on, withdrawals included |
| `PlanInvariants.KeepInv` | routes/platform_billing.go:164-296 | every step keeps a divergence visible, if a withdrawal is asked for only where it is safe |
| `PlanTheorems.NeverSilentlyDiverged` | routes/platform_billing.go:246-269 | in every run with crashes and failed writes anywhere in which each withdrawal is asked for in a state where it is safe, the tiers agree or an intent says that they may not |
| `PlanTheorems.WithdrawalSafeIff` | routes/platform_billing.go:390-407 | no run that starts with a withdrawal, with any failures, diverges silently if and only if the tiers agree or another intent covers the gap |
| `PlanTheorems.WebhookRestoresSync` | routes/platform_webhook.go:329-341 | one processed event makes the tiers equal, from any state |
| `PlanTheorems.SweepRestoresSync` | routes/plan_change_intent.go:100-135 | one sweep over any stale intents makes the tiers equal and confirms each with the paid tier |
| `PlanSweeps.GivesUpOnlyLate` | routes/plan_change_intent.go:113-125 | at any point of any run a sweep gives a pending intent up only if it is more than a day old or the price paid stands for no tier |
| `PlanSweeps.StaleIntentSettles` | routes/plan_change_intent.go:100-135 | after any number of unanswered sweeps within the day the intent still stands, and one answered sweep makes the tiers equal and confirms it |
| `PlanTheorems.ResolvedStaysResolved` | routes/plan_change_intent.go:38-46 | a resolved intent is never written again |
| `PlanTheorems.NeverBeforeEffectiveDate` | routes/plan_change_intent.go:148-171 | at any point of any run the due phase changes price or tier only for a scheduled downgrade past its effective date |
| `PlanTheorems.ConfirmedMeansApplied` | routes/plan_change_intent.go:166-179 | a scheduled downgrade is confirmed only when all three stores agree on it |
| `PlanTheorems.DuePassConverges` | routes/plan_change_intent.go:143-181 | whatever crashed attempts left, one uninterrupted pass over any due downgrades settles all three stores |
| `PlanHandlers.UpgradeRuns` | routes/platform_billing.go:249-282 | an upgrade: price and tier at once, with a confirmed intent |
| `PlanHandlers.RefusedUpgradeRuns` | routes/platform_billing.go:250-259 | an upgrade Stripe refuses leaves a failed intent and nothing else |
| `PlanHandlers.DowngradeRuns` | routes/platform_billing.go:227-245 | a downgrade: price and tier stay, the intent and the projection name the end of the paid period |
| `PlanHandlers.UnrecordedDowngradeRuns` | routes/platform_billing.go:237-241 | a downgrade that cannot be recorded leaves nothing |
| `PlanHandlers.RequestIsRefusedIff` | routes/platform_billing.go:176-232 | exactly which requests change nothing, a downgrade that does not fit among them |
| `PlanHandlers.UnfitIsNeverScheduled` | routes/platform_billing.go:208-221 | no run schedules a downgrade if none that is asked for fits |
| `PlanHandlers.UpgradesPendDowngradesWait` | routes/platform_billing.go:208-250 | in every run only downgrades are scheduled and only other changes are pending |
| `PlanHandlers.CancellationRuns` | routes/platform_billing.go:307-346 | a cancellation: Stripe ends the subscription with the period, the projection and the intent say when |
| `PlanHandlers.RefusedCancellationRuns` | routes/platform_billing.go:337-342 | refused by Stripe, it leaves a failed intent and no projection |
| `PlanHandlers.ReactivationStarts` | routes/platform_billing.go:364-375 | a reversal takes Stripe's flag back first |
| `PlanHandlers.RefusedReactivationRuns` | routes/platform_billing.go:371-375 | refused by Stripe, it changes nothing |
| `PlanHandlers.ReactivationEnds` | routes/platform_billing.go:376-385 | then the scheduled cancellation is closed, the reversal recorded and the projection cleared |
| `PlanHandlers.WithdrawalRuns` | routes/platform_billing.go:390-407 | a withdrawn downgrade: its intent closed, the projection cleared, price and tier untouched |
| `PlanHandlers.EventShowsCancellation` | routes/platform_webhook.go:275-278 | an event projects the cancellation Stripe holds, with its date |
| `PlanHandlers.EventDropsCancellation` | routes/platform_webhook.go:279-287 | where Stripe holds none a projected cancellation goes, with its intent |
| `PlanHandlers.EventKeepsProjection` | routes/platform_webhook.go:279-287 | any other projection stays |
| `PlanHandlers.EventConfirms` | routes/platform_webhook.go:336-341 | the event confirms a pending intent with the tier that is paid for |
| `PlanHandlers.SweepOfCancellation` | routes/plan_change_intent.go:198-214 | a sweep repairs a lost projection of a cancellation and drops one that Stripe no longer holds |
| `PlanFindings.WithdrawalAfterCrashDivergesSilently` | routes/platform_billing.go:390-407 | a run in which withdrawal hides a divergence |
| `PlanFindings.UnstampedDowngradeUndoesUpgrade` | routes/plan_change_intent.go:166-179 | a run in which a replayed downgrade undoes a later upgrade |
| `PlanFindings.PriceStaysIff` | routes/plan_change_intent.go:143-181 | no run without a further change of plan moves the price if and only if every downgrade still scheduled is to a tier at the current price |
| `PlanCancellations.CancellationIsBackedIff` | routes/platform_billing.go:307-388 | a cancellation at Stripe has a scheduled cancel intent all along a run if and only if each one made in the portal found one |
| `PastDue.ClockIsFirstLate` | routes/platform_webhook.go:291-307 | over every sequence of deliveries the past-due time is that of the first late report since the last clear one |
| `PastDue.NoRetryMovesTheClock` | routes/platform_webhook.go:447-456 | no later failure or retry moves a running clock |
| `PastDue.StatusIsLastWritten` | routes/platform_webhook.go:198-386 | after any deliveries the status is that of the last event whose status was written |
| `PastDue.StatusIsKept` | routes/platform_webhook.go:198-386 | and stays what it was if none was |
| `PastDue.DuplicateIsInert` | routes/platform_webhook.go:108-140 | redelivering a processed event changes nothing |
| `PastDue.RedeliveryIsInertIff` | routes/platform_webhook.go:108-150 | exactly when a redelivered event can no longer move the clock, whatever is delivered in between |
| `PastDue.DuplicatesChangeNothing` | routes/platform_webhook.go:108-150 | if every processed mark is written, erasing the duplicates of a stream changes nothing |
| `PastDue.Webhook.SubscriptionUpdated` | routes/platform_webhook.go:291-307 | the handler's effect on status and clock, write by write |
| `PastDue.Webhook.ReceiveAll` | routes/platform_webhook.go:26-106 | any sequence of deliveries, processed in place |

## Left out

- HTTP handlers, authentication, audit, logging, the Mongo and Stripe clients, the send provider and the tracking tokens:
  only the row updates and their predicates are modelled.
- Hydration of a story's graph from id references: the graph a step sees is a parameter of the step.
- Purging sessions: a purge forgets command keys, so runs do not contain one.
- Concurrent handlers, sweeps or webhooks for one tenant, and price changes made through Stripe's portal or a checkout.
- The end of a subscription at Stripe (routes/platform_webhook.go:345-366), which clears the projection and confirms the
  scheduled cancellations: plan-change runs stop there.
- The plan contract snapshot and the tier an event names in its metadata: field copies beside the tier.
- The sweeps' limit of 50 rows: a sweep may work on any sublist of the matching rows.
- Which words are keywords: a table on the literal, which is proved.
- Optional spellings in `ScriptTree`: `up_to` without `times`, else actions without `do`, lists without commas and the like
  are read as `BlockTheorems.ScriptIff` and `ActionGrammar.ActionIsReadIff` say, but the typed trees do not spell them.
- Node fields of the block parser: a tree keeps each block's clauses in order with their words; the fields of a node are
  set by them in that order. Integers beyond 64 bits are not told apart.
- Lists, conditions, actions and else clauses have cursor parsers of their own; `BlockParser` takes their specified result
  instead of calling them.
- ActionParser.BodyIsReadAs: bodies of do and else clauses only; `BlockTheorems` has the other clauses of a trigger.
- ActionParser.TriggerReadsBackIff: bodies of do and else clauses only, for the same reason.
- ActionParser.Parser.ParseTriggerBody: the do and else cases only, for the same reason.
- Declarations of funnels, sites and the like between stories: their tokens do not occur in the modelled streams.
- The string form of a duration ("1 day") and quoted or capitalised units: splitting on white space and lower-casing are
  library behaviour.
- Storylines' badges, lifecycle blocks and routes, required badges and durations of triggers: copied by clones, some with
  substitution of one name.
- The loop over the stories of a script, and the inheritance of AI context in funnels.
- Links in a scene's body: the wrapping in anchors is a parameter of the expander.
- Funnels, sites, products, offers, courses, quizzes, media and campaigns: the story half of the language again.
- Compiled actions' waits, flags and badge transactions, of which a later one overwrites an earlier one.
- StoryIds.CompilationIds: the random session code is a parameter, so uniqueness across compilations is not stated.
