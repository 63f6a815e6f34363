# Verified models of the luaur tools

Dafny models of four pieces of code that luaur ships or tests itself with, and
proofs of what each of them promises.

1. **The editor's change sets and document tree** (`website/codemirror.bundle.js`).
   A change set is a list of sections with inserted texts. `Tokens` gives it a
   meaning one character at a time, and a reference `Merge` for two changes made
   on the same document. The section loops of `map`, `compose` and `invert`, run
   by mutable section iterators, are proved against that meaning for all change
   sets and all documents: mapping converges to the merged document, composing
   equals applying twice, inverting restores. What mapping and composing make has as
   few sections as can be, and composing cuts replacements exactly where both sets
   have a boundary. The rope of leaves and nodes is
   proved to be the flat text with exact caches, through splitting, packing and
   replacing, at any length, and applying a change set to a rope refines applying
   it to text.
2. **The program generators and source transforms** (`fuzz/src/lib.rs`). A small
   operational semantics of Luau (closures over shared cells, mutable tables,
   loops, errors, step limits) says what a run is observed to do; laws of programs
   (which branch runs, how loops unroll, what is printed) pin it from outside. A
   simulation proof shows that both metamorphic transforms are invisible for every
   program, every insertion and every pair of step limits. The generator of
   deterministic programs is well scoped for every byte stream, ends by printing
   what its variables hold, and its expressions print to text that a lexer and a
   precedence-climbing parser read back. The grammar generator always emits the
   tokens of a program tree, well nested and within a constant number of calls, in
   text that the same lexer reads back but for accidental comments. The statement
   mutator, with its cache, equals a cache-free function of the bytes, and
   everything in its output comes from the corpus. Every generator is also shown to
   reach everything its grammar allows: `Coverage`, `Recipes`, `Requests` and
   `Metamorphic` give bytes for every tree, program, run of edits and insertion.
3. **The generator of library calls** (`fuzz/src/api_gen.rs`). Termination of the
   recursive value generator on depth, unread bytes and kind; the kind
   discipline of every program it makes; and that the programs it can make are
   exactly those within its bounds (`ApiCoverage`).
4. **Number scanning and printing** (`crates/luaur-common/src/strtod_shim.rs`,
   `website/env.js`). The decimal scan is maximal munch in the sense of section
   7.22.1.3 of ISO C17; integer printing and reading are inverse to each other,
   with the exact condition under which the hexadecimal form is not.

Objects and loops of the source are classes and loops here (`SectionIter`,
`Choices`, `Gen`, `Slices`, the section, packing and scanning loops); values are
datatypes. `dafny verify dfyconfig.toml` checks everything.

The code departs from what one would expect in six places. The model follows the
code, and each place has its exact condition:

- mapping over a change set of another length does not always report the
  mismatch: it loops forever exactly when a change of the other set starts before
  the end of the mapped one and removes text beyond it (`Mapping.MapSet`,
  `Mapping.HangsAndReports`);
- composing joins the pieces that one replacement is cut into, but not always: where
  the first of two neighbouring changes only deletes or only inserts, they may meet
  inside a change of the first set (`Composition.MeetInside`). A replacement and a
  change behind it meet only where both sets have a boundary, and no replacement
  reaches across one (`Composition.ComposeSets`);
- copying lines without an end stops after 1 000 000 000 characters. On a leaf the
  tree that comes back is wrong exactly when that bound shows, as for one line of a
  character more, appended to the empty document (`Replacing.ReplaceLeaf`,
  `Replacing.AppendsTooLong`). On a node the model ends with `PastLimit` exactly
  when the leaf it descends to is damaged (`Replacing.Replace`);
- `%#0Nx` pads zeros in front of `0x`, so that the text reads as 0
  (`Formatting.UnsignedRoundTrip`, `Formatting.BuriedExample`);
- a column behind the end of its line is sent into a later line
  (`Locations.OrderExact`, `Locations.FoundAgain`, `Locations.ColumnsPastTheEnd`);
- nothing keeps a unary minus from being written directly behind another one,
  where the two start a comment; exactly then the text of a generated program does
  not read back as what was written (`Grammar.Generate`, `Lexing.LexExact`). Twelve
  bytes make the generator write `f(--b)`, whose text is not nested
  (`Coverage.WritesAComment`).

## Model

| member | source | states |
|---|---|---|
| Tokens.MergeSymmetric | website/codemirror.bundle.js:4 | the document two concurrent changes lead to does not depend on which of them is called the first, only on who wins ties |
| Tokens.MergeRep | website/codemirror.bundle.js:4 | over equally long stretches of keeping and dropping, a character survives the merge exactly when both sides keep it |
| ChangeSets.ChangeSet.NewLengthUpto | website/codemirror.bundle.js:4 | `newLength` is the length of the document that the sections make |
| ChangeSets.WithTextAligned | website/codemirror.bundle.js:4 | `addInsert` leaves all texts aligned with their sections and only lengthens the text of the last one |
| ChangeSets.AddInsert | website/codemirror.bundle.js:4 | the padding loop of `addInsert` gives text to the last section and to no other |
| ChangeSets.PushKeep | website/codemirror.bundle.js:4 | `addSection` with an unchanged stretch, joined or not, keeps the meaning and leaves a further stretch unchanged |
| ChangeSets.PushChange | website/codemirror.bundle.js:4 | `addSection` and `addInsert` with a change, in all its ways of joining, keep the meaning and replace a further stretch; a forced join is sound onto a change |
| ChangeSets.Retain | website/codemirror.bundle.js:4 | recording an unchanged stretch extends the meaning of the set, for every document |
| ChangeSets.Place | website/codemirror.bundle.js:4 | recording a change extends the meaning of the set, for every document |
| ChangeSets.AddSectionTight | website/codemirror.bundle.js:4 | `addSection` keeps sections as few as they can be: none says nothing, and no two neighbours are both unchanged, both only deletions or both only insertions |
| ChangeSets.TightChanges | website/codemirror.bundle.js:4 | a set of as few sections as can be is `empty` exactly when it changes nothing |
| Boundaries.MadeStep | website/codemirror.bundle.js:4 | recording one more piece, joined on or not as the `open` flag says, keeps replacements cut exactly at the boundaries that both sets have |
| Boundaries.PointSide | website/codemirror.bundle.js:4 | every boundary of a set lies in front of a section, behind it, or inside an unchanged one |
| SectionIters.FetchOn | website/codemirror.bundle.js:4 | fetching a section puts the iterator at its start, with exactly the tokens of the sections from there ahead |
| SectionIters.AdvanceOn | website/codemirror.bundle.js:4 | passing `n` old characters takes exactly `n` tokens off what lies ahead and makes progress |
| Mapping.PassOther | website/codemirror.bundle.js:4 | the branch of `mapSet` that walks over the other side's change keeps the loop's meaning; it never ends only where that change straddles the mapped set's end |
| Mapping.CarryOwn | website/codemirror.bundle.js:4 | the branch of `mapSet` that carries its own change over kept and deleted stretches of the other keeps the loop's meaning |
| Mapping.MapSet | website/codemirror.bundle.js:4 | `mapSet` succeeds exactly on equal lengths, loops forever exactly when a change of the other set straddles the end of the mapped one, and reports a mismatch otherwise; its result applies to the other's new document, makes the merged document, puts in exactly the text that the mapped set puts in, and has as few sections as can be |
| Mapping.Map | website/codemirror.bundle.js:4 | `ChangeSet.map`, with its shortcut for an empty other set, and the same exact condition for never ending |
| Mapping.Reported | website/codemirror.bundle.js:4 | where one side is at its end and no change is under way, the lengths differ and nothing straddles: the mismatch is reported |
| Mapping.HangsAndReports | website/codemirror.bundle.js:4 | one character kept, mapped over a deletion of two, never ends; over a kept character and a deletion it is reported |
| Mapping.Converge | website/codemirror.bundle.js:4 | A then B mapped over A, and B then A mapped over B, make the same text from every document, and all lengths fit |
| Mapping.Diamond | website/codemirror.bundle.js:4 | both mappings of any two sets on one document succeed and converge |
| Composition.MoveBoth | website/codemirror.bundle.js:4 | the part of `composeSets` that moves both iterators, with `off`, `textBit` and the `open` flag, keeps the loop's meaning, cuts the sections where both sets have a boundary, and makes progress |
| Composition.MoveDeleted | website/codemirror.bundle.js:4 | where A has deleted something, `composeSets` records the deletion, keeps the loop's meaning and the cuts |
| Composition.MoveInserted | website/codemirror.bundle.js:4 | where B only inserts, `composeSets` records the text, keeps the loop's meaning and the cuts |
| Composition.ComposeSets | website/codemirror.bundle.js:4 | `composeSets` succeeds exactly when A's new length is B's length; the result has the outer lengths, applies like A and then B, and has as few sections as can be; a replacement and a change behind it meet only where both sets have a boundary, and no replacement reaches across such a place |
| Composition.MeetInside | website/codemirror.bundle.js:4 | deleting two characters and replacing three by two, and then deleting the first of those two: the deletion of five and the insertion of one meet inside the replacement |
| Composition.Compose | website/codemirror.bundle.js:4 | `ChangeSet.compose`, with its shortcuts for empty sets |
| Composition.Reconcile | website/codemirror.bundle.js:4 | each side composing its own change with the other's mapped one ends with a set that makes the merged document |
| Inversion.RestoresUpto | website/codemirror.bundle.js:4 | section by section, the inverse has swapped lengths and restores the places passed so far |
| Inversion.Invert | website/codemirror.bundle.js:4 | `invert` swaps the lengths, aligns the old texts with their sections, and undoes the change on its document |
| Inversion.DoubleInverse | website/codemirror.bundle.js:4 | inverting the inverse on the new document gives back the sections and the texts |
| Lines.AppendText | website/codemirror.bundle.js:3 | appending lines from a range to a last line appends exactly that range of the joined text, bounds the number of lines, and puts no line break inside a line |
| Ropes.Split | website/codemirror.bundle.js:2 | cutting lines into leaves of 32 keeps all lines and counts lengths exactly |
| Ropes.NewNode | website/codemirror.bundle.js:2 | a node counts the lines of its children |
| Ropes.ChildSpan | website/codemirror.bundle.js:2 | a child's text stands in its node's text where the running position says, behind a line break |
| Balancing.Flush | website/codemirror.bundle.js:3 | closing a chunk, which may build a smaller tree, loses no line |
| Balancing.Add | website/codemirror.bundle.js:3 | taking a large node apart, letting a subtree stand, melting leaves, or chunking keeps all lines in order and the chunk small |
| Balancing.From | website/codemirror.bundle.js:3 | building a tree ends, is valid, and has exactly the lines of its parts |
| Editing.DecomposeLeaf | website/codemirror.bundle.js:1 | cutting a leaf, joined to the last piece or not, with a split above 32 lines |
| Editing.DecomposeNode | website/codemirror.bundle.js:2 | cutting a node adds exactly the range of its text to the pieces and keeps open ends in leaves |
| Editing.Clamp | website/codemirror.bundle.js:4 | positions are pulled into the document in order, and left alone when they are in it |
| Editing.Slice | website/codemirror.bundle.js:1 | a slice is a valid tree of exactly the slice of the text |
| Editing.ReplaceByParts | website/codemirror.bundle.js:1 | the general `replace` is splicing the flat text, and puts no line break inside a line |
| Replacing.LeafText | website/codemirror.bundle.js:1 | the lines of a leaf with a range exchanged, as copied with the built-in bound |
| Replacing.LimitExact | website/codemirror.bundle.js:1-3 | the text copied with the bound of 1e9 is the replacement if and only if the texts fit it, or nothing is left behind the replaced part |
| Replacing.ReplaceLeaf | website/codemirror.bundle.js:1 | `replace` on a leaf of any length gives the spliced text with exact caches if and only if the bound of line copying does not show |
| Replacing.ReplaceNode | website/codemirror.bundle.js:2 | `replace` on a node of any length, in one child or over several, rebalancing or not, is splicing the flat text with exact caches; it ends with `PastLimit` exactly when the leaf it descends to is past the bound |
| Replacing.Replace | website/codemirror.bundle.js:1-2 | `replace` on any document is splicing the flat text; it ends with `PastLimit` exactly when the leaf it descends to is past the bound |
| Replacing.Append | website/codemirror.bundle.js:1 | appending concatenates the texts, at any length, unless a single leaf past the bound is appended |
| Replacing.AppendsTooLong | website/codemirror.bundle.js:1 | one line of 1e9 + 1 characters appended to the empty document: the bound shows, and the leaf that comes back is not that line |
| Replacing.FitIsBounded | website/codemirror.bundle.js:1-2 | however long a document is, replacing never shows the bound if its leaves are within it and so is a leaf put in |
| Replacing.AppendBounded | website/codemirror.bundle.js:1-2 | appending never shows the bound of the old document |
| Replacing.ShortFits | website/codemirror.bundle.js:1-2 | a document within the bound has all leaves within it |
| Replacing.LongLeafLines | website/codemirror.bundle.js:1-2 | a leaf past the bound is at most 32 consecutive lines of the document that are longer than it |
| Replacing.OrdinaryIsShort | website/codemirror.bundle.js:1-3 | however many lines there are, no 32 of them get past the bound if none is longer than 31 249 999 characters |
| Replacing.Of | website/codemirror.bundle.js:1 | a document is made from any lines, but not from none |
| Lookup.LineInner | website/codemirror.bundle.js:1-2 | the line found by number or position is that line of the text, with its number and ends |
| Lookup.LineAt | website/codemirror.bundle.js:1 | the line around a position, found exactly when the position is in the document |
| Lookup.LineNumber | website/codemirror.bundle.js:1 | the line of a number, found exactly when there is one |
| Lookup.SliceLeaf | website/codemirror.bundle.js:2 | the text of a range of a leaf |
| Lookup.SliceNode | website/codemirror.bundle.js:3 | the text of a range of a node |
| Lookup.SliceString | website/codemirror.bundle.js:2-3 | the text of a range is that slice of the flat text |
| Lookup.ToString | website/codemirror.bundle.js:1 | the whole text |
| Documents.Gather | website/codemirror.bundle.js:4 | a run of adjacent changes is gathered into one replacement, as `iterChanges` does; the bound shows only if the run inserts more than it |
| Documents.Apply | website/codemirror.bundle.js:4 | applying a change set to a rope of any length makes a valid rope of the text that the set means, whose lines are the lines of that text; refused exactly on a wrong length; spoiled only if the text of some document on the way has at most 32 consecutive lines longer than the bound, or a run of changes inserts more than it; never when old text and insertions fit it |
| Documents.LeafIsLong | website/codemirror.bundle.js:1-4 | a leaf past the bound shows as lines of the text itself, however the document is stored |
| Documents.CleanLines | website/codemirror.bundle.js:1-3 | a valid tree without line breaks inside its lines has exactly the lines of its text |
| Documents.ShortIsSafe | website/codemirror.bundle.js:4 | old text and insertions that together fit the bound leave no such lines and no such run |
| FindDiff.CommonPrefix | website/codemirror.bundle.js:9 | the longest common prefix |
| FindDiff.CommonSuffix | website/codemirror.bundle.js:9 | the longest common suffix |
| FindDiff.Settle | website/codemirror.bundle.js:9 | the adjustment of an overlapping prefix and suffix ends in a range, in order, with equal surroundings, and puts the change where it is wanted if it can stand there |
| FindDiff.InsertPlaces | website/codemirror.bundle.js:9 | an insertion that explains the difference can stand exactly between the longest common suffix and the longest common prefix |
| FindDiff.DeletePlaces | website/codemirror.bundle.js:9 | and so can a deletion |
| FindDiff.Find | website/codemirror.bundle.js:9 | a difference is found exactly for unequal strings, exchanging it turns one string into the other, and it stands at the preferred place, on the preferred side, whenever it can; otherwise it starts behind the longest common prefix |
| Bytes.Choices.InRange | fuzz/src/lib.rs:131-143 | a choice is in range, a function of the bytes, reads a byte if it needs one, and is the least when there is none |
| Bytes.DrawsNumber | fuzz/src/lib.rs:131-143 | every number of a range is chosen by some bytes, as many as the range asks for |
| Luau.InnerFunctionsSee | fuzz/src/lib.rs:874-934 | a function made inside a function sees the locals around both, in the observed run |
| Laws.InProgram | fuzz/src/lib.rs:874-934 | where one piece of code gives what another gives, it can stand for it in any program: conclusive observations are the same |
| Laws.BranchTaken | fuzz/src/lib.rs:874-934 | with a literal as its condition, `if` is a block of the one branch |
| Laws.BranchOnAnd | fuzz/src/lib.rs:874-934 | `if a and b` asks for `b` only where `a` holds, for any expressions and branches |
| Laws.BranchOnOr | fuzz/src/lib.rs:874-934 | `if a or b` asks for `b` only where `a` does not hold |
| Laws.WhileUnrolls | fuzz/src/lib.rs:874-934 | `while` is testing, running the body once, and going on, in both directions, within one more step, for a body without a `break` or `continue` of its own |
| Laws.BreakEndsLoop | fuzz/src/lib.rs:874-934 | a loop whose body comes to a `break` is an `if` |
| Laws.ContinueGoesOn | fuzz/src/lib.rs:874-934 | `continue` at the end of a body changes nothing |
| Laws.EndsBlock | fuzz/src/lib.rs:874-934 | nothing behind a `return`, `break` or `continue` runs |
| Laws.ForUnrolls | fuzz/src/lib.rs:874-934 | where numbers count as they should, a counting loop is its body with a loop variable of its own, and the loop from the next number on |
| Laws.ForIsOver | fuzz/src/lib.rs:874-934 | past its end it does nothing |
| Outcomes.LocalHolds | fuzz/src/lib.rs:874-934 | a local holds what it was given, at the end of any program |
| Outcomes.AssignHolds | fuzz/src/lib.rs:874-934 | an assigned local holds what was assigned |
| Outcomes.LocalsAreApart | fuzz/src/lib.rs:874-934 | locals of a block, or of other names, leave a local alone |
| Outcomes.ItemsAreNumbered | fuzz/src/lib.rs:874-934 | the items of a table are numbered from 1, and there are no others |
| Outcomes.TablesAreShared | fuzz/src/lib.rs:874-934 | what is put in under one name of a table is found under the other, at that key and no other |
| Outcomes.OperandsAreGiven | fuzz/src/lib.rs:874-934 | `and` and `or` give one of their operands, and the right one |
| Outcomes.CallBinds | fuzz/src/lib.rs:874-934 | a parameter holds the argument of its place, or `nil` where there is none |
| Outcomes.FunctionsShareLocals | fuzz/src/lib.rs:874-934 | a function that assigns to a local around it is seen to have done so |
| Outcomes.ErrorsStop | fuzz/src/lib.rs:874-934 | calling what is no function, or an operation that fails, ends the run with an error that shows what was printed before and nothing of what follows |
| Outcomes.PrintAddsEntry | fuzz/src/lib.rs:882-897 | one call of `print` adds one entry, its arguments in order |
| Outcomes.LeftToRight | fuzz/src/lib.rs:882-934 | the items of a table are evaluated from left to right |
| Printouts.PrintsAreSeen | fuzz/src/lib.rs:882-934 | a program that ends, followed by prints of its first variables, shows what it showed and then the values they hold, one in each entry |
| Simulation.SimExpr | fuzz/src/lib.rs:874-934 | an expression that does not name a fresh local, also in its nested functions, evaluates alike in states that differ only in it |
| Simulation.SimStmt | fuzz/src/lib.rs:874-934 | so does a statement, with closures, tables, loops, errors and step limits |
| Simulation.SimBlock | fuzz/src/lib.rs:874-934 | and a block |
| Fuel.MoreStmt | fuzz/src/lib.rs:874-934 | a larger step limit changes nothing about a statement that ends |
| Fuel.Conclusive | fuzz/src/lib.rs:874-934 | two conclusive observations of one program are equal, whatever the step limits |
| Metamorphic.NoopRuns | fuzz/src/lib.rs:1090-1105 | each of the four no-ops leaves everything the same but the inserted local |
| Metamorphic.NoopPreserves | fuzz/src/lib.rs:1090-1105 | weaving no-ops into any program that does not name `_meta`, nested functions included, leaves prints, result and error the same at every step limit |
| Metamorphic.DeadBranchPreserves | fuzz/src/lib.rs:1119-1152 | weaving any statements under `if false` or `while false` into any program leaves the observation the same |
| Metamorphic.InsertNoops | fuzz/src/lib.rs:1090-1105 | the loop weaves in exactly the no-ops that the bytes ask for |
| Metamorphic.InsertDeadBranches | fuzz/src/lib.rs:1119-1152 | the loop weaves in exactly the dead branches that the bytes ask for, from the corpus or the two fallbacks |
| Metamorphic.EveryNoops | fuzz/src/lib.rs:1090-1105 | every way of putting one of the four no-ops, or none, in front of each statement is asked for by some bytes |
| Metamorphic.EveryBurials | fuzz/src/lib.rs:1119-1152 | so is every way of burying statements of one script of the corpus, in either form |
| Metamorphic.OracleHolds | fuzz/src/lib.rs:874-934 | two conclusive observations, before and after either transform and under any two step limits, are equal |
| Computational.Atom | fuzz/src/lib.rs:945-961 | an atom reads only variables in scope and can be printed |
| Computational.Expression | fuzz/src/lib.rs:963-1021 | an expression reads only variables in scope and can be printed, for every byte stream and depth |
| Computational.Generate | fuzz/src/lib.rs:1027-1084 | every program declares before it reads, prints all variables at its end, has at most 60 locals, and does before that what its bytes ask for |
| Computational.DeclaredOnce | fuzz/src/lib.rs:1027-1084 | in a well scoped program each variable has exactly one declaration |
| Printouts.EndsWithItsVariables | fuzz/src/lib.rs:1027-1084 | a generated program that ends without an error shows last what its variables hold, one entry each, in order |
| Recipes.Cover | fuzz/src/lib.rs:945-1021 | every expression of the generator's forms, within its ranges and depth, is made from bytes, whatever stands around them |
| Recipes.EveryBody | fuzz/src/lib.rs:1027-1084 | every list of at most 30 rounds, each of any of the four forms, is what some bytes ask for |
| Recipes.Reach | fuzz/src/lib.rs:1027-1084 | from these bytes the generator makes exactly that, and the prints |
| Computational.WovenLocals | fuzz/src/lib.rs:1090-1105 | no-op insertion adds at most one local per statement |
| Computational.MetamorphicTest | fuzz/src/lib.rs:1027-1152 | for all inputs: generated programs and both transforms of them are seen to do the same, within 150 locals |
| SourceText.LexShown | fuzz/src/lib.rs:945-1021 | lexing the text of an expression gives the tokens that were laid out, spaces and maximal munch included |
| SourceText.ShownNoDashes | fuzz/src/lib.rs:945-1021 | the text of an expression never contains the start of a comment |
| Parsing.ShowParses | fuzz/src/lib.rs:945-1021 | parsing the text of an expression gives the expression back |
| Parsing.ShowIsInjective | fuzz/src/lib.rs:945-1021 | different expressions have different texts |
| Layout.StackCounts | fuzz/src/lib.rs:158-437 | what the scanner holds open is what was opened and not closed, kind by kind |
| Layout.ScanMeaning | fuzz/src/lib.rs:158-437 | a program that scans has every bracket, block and `repeat` closed, never closes too early, and every `break` and `continue` in a loop of its function |
| Grammar.Gen.Expr | fuzz/src/lib.rs:158-216 | an expression closes what it opens, keeps the loop depth, ends, pays for its calls, and is exactly the tree that the bytes ask for |
| Grammar.Gen.Table | fuzz/src/lib.rs:247-270 | the same for a table, with at most six calls of its own and its fields in order |
| Grammar.Gen.FuncExpr | fuzz/src/lib.rs:284-299 | the same for a function expression, whose body starts outside all loops |
| Grammar.Gen.BlockOf | fuzz/src/lib.rs:301-318 | the same for a block, with at most one call per statement and one for the result |
| Grammar.Gen.Stmt | fuzz/src/lib.rs:320-420 | the same for a statement of each of the twelve kinds; `break` and `continue` only at positive loop depth, which is the number of loops around |
| Grammar.Gen.FuncTail | fuzz/src/lib.rs:422-437 | the same for a function declaration |
| Grammar.Generate | fuzz/src/lib.rs:122-136 | every byte stream ends in the tokens of a tree of the grammar, the one that the bytes ask for, well nested and after at most 1400 calls; the text lexes to exactly these tokens, and is then nested as read, if and only if no two minus signs stand side by side |
| Coverage.CoverExp | fuzz/src/lib.rs:158-299 | every expression of the grammar within the budget is drawn from its bytes, wherever they stand, and uses up its number of calls |
| Coverage.CoverStm | fuzz/src/lib.rs:301-437 | so is every statement |
| Coverage.EveryProgram | fuzz/src/lib.rs:122-437 | for every program tree within the budget, what its bytes ask for is that tree |
| Coverage.Reach | fuzz/src/lib.rs:122-437 | from the bytes of any program tree within the budget the generator writes exactly its tokens |
| Coverage.WritesAComment | fuzz/src/lib.rs:133-181 | from the bytes 1 9 1 5 1 4 0 4 0 2 1 1 the generator writes `f(--b)`: nested tokens, text that is not nested |
| Layout.AllowedIsNear | fuzz/src/lib.rs:158-437 | wherever the generator writes one token directly behind another, they do not run together when read, but for two minus signs |
| Layout.TextReads | fuzz/src/lib.rs:158-437 | for everything laid out like that: the text reads back exactly where no two minus signs meet, and then nests as the tokens do |
| Layout.CommentSwallows | fuzz/src/lib.rs:176-181 | `f(--b)` is laid out and nested as the generator does it, and its text is not nested |
| Lexing.LexToken | fuzz/src/lib.rs:158-437 | the lexer takes exactly the token in front, if the next character ends it |
| Lexing.LexLoose | fuzz/src/lib.rs:176-181 | a comment swallows tokens: what is read is never more than what was written, and strictly less where two minus signs meet |
| Lexing.LexExact | fuzz/src/lib.rs:176-181 | text reads as what was written if and only if no two minus signs stand side by side |
| Locations.SplitJoins | crates/luaur-ast/src/parser_tests.rs:223-246 | the lines of a text hold no break and join to it |
| Locations.SplitIsUnique | crates/luaur-ast/src/parser_tests.rs:223-246 | lines without breaks are what their joined text splits into |
| Locations.LineStarts | fuzz/src/lib.rs:762-768 | the table holds the start of every line |
| Locations.StringAt | crates/luaur-ast/src/parser_tests.rs:223-246 | the running sum reads the slice between two positions, and refuses exactly the others |
| Locations.CutBothWays | fuzz/src/lib.rs:769-792 | wherever the running sum reads anything, the table cuts the same bytes |
| Locations.TableIsExact | fuzz/src/lib.rs:769-775 | for positions in range the table's offset equals the running sum, is undone by locating it, undoes locating, and keeps the order both ways |
| Locations.FoundAgain | fuzz/src/lib.rs:769-775 | a position is found again where the table sends it if and only if it is in range |
| Locations.OrderExact | fuzz/src/lib.rs:769-775 | a position stays in front of every later one in range if and only if its column is at most one behind the end of its line, or no later line holds text |
| Locations.ColumnsPastTheEnd | fuzz/src/lib.rs:769-775 | a column behind the end of its line can be sent behind a later position |
| Splicing.EditConserves | fuzz/src/lib.rs:1203-1246 | an edit adds and takes exactly the statements it says; swaps and moves only permute |
| Splicing.EditCounts | fuzz/src/lib.rs:1203-1246 | an edit changes the number of statements by at most one |
| Requests.EditPlaces | fuzz/src/lib.rs:1203-1246 | for each edit, which statement stands at which index afterwards |
| Requests.WrapLines | fuzz/src/lib.rs:1232-1244 | a wrapping is a line in front of its statement's lines and a line behind |
| Splicing.DrawnEditFits | fuzz/src/lib.rs:1188-1246 | every edit the bytes ask for has its indices in range |
| Requests.EveryEdit | fuzz/src/lib.rs:1188-1246 | every edit that fits, with any insertion from the corpus, is asked for by bytes, whatever stands around them |
| Requests.EveryRun | fuzz/src/lib.rs:1156-1253 | every run of at most 24 such edits of any script is asked for by some bytes |
| Splicing.RunKeepsOrigin | fuzz/src/lib.rs:1197-1247 | after any run every statement is a corpus statement wrapped no more often than there were edits, and the count moved by no more than that |
| Splicing.SplicedOrigin | fuzz/src/lib.rs:1156-1253 | at most 80 statements, each a corpus statement in at most 24 wrappings |
| Splicing.Slices.Pick | fuzz/src/lib.rs:1168-1181 | with the cache in any state, the slices are those of slicing afresh |
| Splicing.Slices.Step | fuzz/src/lib.rs:1203-1246 | one round of the loop is the edit that the bytes ask for |
| Splicing.Slices.Splice | fuzz/src/lib.rs:1156-1253 | the cached run gives what the cache-free function of the bytes gives |
| ApiCalls.GenValue | fuzz/src/api_gen.rs:274-300 | a value of the asked kind, the one that the bytes ask for, ending on depth, unread bytes and kind, with tables nested at most one deeper than the depth |
| ApiCalls.GenFunction | fuzz/src/api_gen.rs:349-366 | a function, which at depth 0 may still hold functions but reads a byte for each |
| ApiCalls.GenTable | fuzz/src/api_gen.rs:313-345 | a table within the nesting bound |
| ApiCalls.FillArg | fuzz/src/api_gen.rs:400-412 | an argument that fits its slot: a local of a compatible kind or a fresh value, as the bytes ask |
| ApiCalls.BuildCall | fuzz/src/api_gen.rs:416-440 | the slots are those the function asks for, all arguments fit, and both are what the bytes ask for |
| ApiCalls.Generate | fuzz/src/api_gen.rs:458-493 | every program is well kinded and small, and the one that its bytes ask for |
| ApiCoverage.CoverValue | fuzz/src/api_gen.rs:230-375 | every value within the bounds of depth and range is made from some bytes |
| ApiCoverage.CoverArg | fuzz/src/api_gen.rs:400-412 | every compatible local and every fresh value is reached for a slot |
| ApiCoverage.EveryProgram | fuzz/src/api_gen.rs:458-493 | every program of up to three locals and three calls of any covered functions, with any fitting arguments and any loop count, is made from some bytes |
| ApiCoverage.OnlyPossible | fuzz/src/api_gen.rs:458-493 | and no bytes make any other |
| ApiCalls.CountsAreBounded | fuzz/src/api_gen.rs:378-440 | in a well kinded program every count is a literal between -2000 and 2000; no local can stand there |
| ApiCalls.EveryCountHasItsSlot | fuzz/src/api_gen.rs:416-440 | a call has exactly as many slots for counts as the function asks for, and so for every kind nothing variadic expands to |
| ApiCalls.ProbesAreBounded | fuzz/src/api_gen.rs:507-549 | the harmless, dangerous and boundary values for a count are bounded literals |
| ApiCalls.ProbeCalls | fuzz/src/api_gen.rs:559-594 | the sweep has every boundary value in every position and every dangerous pair in every two positions, with all counts bounded |
| Decimals.Scan | crates/luaur-common/src/strtod_shim.rs:26-67 | the longest prefix that is a number is consumed, and nothing exactly when no prefix is one |
| Decimals.Rescan | crates/luaur-common/src/strtod_shim.rs:26-67 | scanning the consumed prefix consumes all of it |
| Formatting.DigitsRead | website/env.js:111-137 | the digits of a number stand for it |
| Formatting.ReadingIsUnique | website/env.js:111-120 | a text reads as at most one signed number |
| Formatting.SignedRoundTrip | website/env.js:66-120 | `%d` with any flags, width and precision prints what reads as the number alone, at the length that width, sign, precision and digits ask for |
| Formatting.PaddingFills | website/env.js:66-80 | the padding stands behind the text for `-`, as zeros behind the sign for `0`, and as blanks in front otherwise |
| Formatting.SignedLayout | website/env.js:66-120 | `%d` is that padding of what it prints without a width, which starts with a sign or a blank exactly as the number and the flags ask, and goes on in digits |
| Formatting.PlainLayout | website/env.js:121-137 | without a width and `#`, digits that stand for the number, as many as the precision asks for, and no other zeros in front |
| Formatting.UnsignedLayout | website/env.js:66-137 | `%u`, `%o`, `%x` and `%X` are that padding of the mark of the conversion and those digits, in letters of its case |
| Formatting.Strtoul | website/env.js:203-226 | white space, an `0x` where the base allows it, all digits that follow, their value modulo 2^32, and where they end |
| Formatting.UnsignedRoundTrip | website/env.js:121-226 | for every number below 2^32, `strtoul` inverts `%u`, `%o`, `%x` and `%X` if and only if no zeros are padded before an `0x`; otherwise it gives 0 |
| Formatting.BuriedExample | website/env.js:66-80 | `%#08x` of 31 is `00000x1f`, which reads as 0 |

## Left out

- Replacing.Replace: that the tree is wrong past the bound is proved of leaves; for a node the outcome is `PastLimit`, and what the node, or later operations, make of the damaged leaf, whose cached length is wrong, is not modelled.
- Replacing.ReplaceNode: the same.
- Replacing.Append: the same, where a leaf past the bound is appended to a node.
- Simulation.SimExpr: covers the modelled part of Luau; so do `Simulation.SimStmt`, `Simulation.SimBlock`, `Metamorphic.NoopPreserves` and `Metamorphic.OracleHolds`.
- Documents.Apply: says what can spoil the result past the bound, not exactly when it does, which depends on how the trees on the way happen to be balanced; of documents made from lines that hold line breaks themselves it says only that nothing is spoiled within the bound.
- Formatting.Strtoul: accumulates exact integers; the code accumulates doubles, which are exact below 2^53.
- Grammar.Generate: acceptance by the parser is not claimed, which for example refuses a `break` that is not the last statement of its block.
- Lexing.LexExact: the lexer has the tokens that the generators write and comments up to the end of a line; long comments and strings, and marks that are never written, are not in it.
- Change sets: sections are pairs instead of a flat array of integers; an unchanged section of length 0, which mapping and composing never make but hand-written JSON could hold, is not a valid set (mapping and composing may then throw).
- Change sets: descriptions without text, `mapPos`, `filter`, `ChangeSet.of`, JSON.
- Rope: iterators, `eq`, `scanIdentical`, other line separators, sharing of subtrees between versions.
- Luau: metatables, multiple results, coroutines, `pcall` and stateful libraries; arithmetic and library functions are any partial function that gives plain data or one of its arguments.
- Luau: the step limit is a budget of calls and loop rounds on each path, not a count of all VM steps.
- Transforms: they work on parsed statements; splitting source text relies on the parser, which is not part of this model. A program that does not compile, for example one with a lone `;`, is observed as inconclusive.
- Text of statements: statements are laid out and lexed, only expressions are parsed; the parser here is a reference for that part of the language.
- Numerals: the value of a decimal literal is its two numbers, not a double.
- The typed and definition-file generators, which add easy members of the same form.
- API calls: the table of functions and the pools of strings are parameters, and argument texts are abstract values.
- Mutator: statements are joined by line breaks at the end, which is not modelled, and the grammar fallback is only named.
- Number scanning: the double that a scanned slice stands for.
- Host shims: float formatting, `strftime`, `writeCStr` and `readCStr`.
- Lexer, parser, compiler, virtual machine, garbage collector, type checker and native code generation of luaur.
