# Roslynator symbol definitions and trivia analysis, in Dafny

This project models two parts of Roslynator, the C# analyzer and refactoring library.

**Symbol definition display** (`SymbolDefinitionDisplay.cs`) turns a symbol into the list of display parts of its declaration. The parts are keywords, names, punctuation, spaces, line breaks and indentation. The rendering includes:

- the attributes the caller wants shown, sorted, split into one `[...]` per attribute or joined with commas, optionally with their arguments (primitive literals, enum flags or casts, `typeof(T)`, arrays);
- the base list `: Base, IA, IB`, with the interfaces sorted by namespace and then by name, and `IEnumerable` optionally omitted next to `IEnumerable<T>`;
- `where` clauses, optionally each on its own line;
- parameters, optionally each on its own line;
- `default(T)` default values shortened to `default`;
- attributes placed in front of each parameter and in front of accessor keywords.

**Syntax trivia analysis** (`SyntaxTriviaAnalysis.cs`) answers questions about the whitespace, comments and line ends around tokens:

- whether a trivia list has one of the shapes a fix expects (optional whitespace, an optional comment, then a line end);
- whether a token sits at the start or the end of a line;
- which line end a fix should copy;
- what indentation a node has, and which other indentation appears above it.

The node form of the exterior test, `SyntaxTrivia.IsNodeExteriorTriviaEmptyOrWhitespace`, uses the leading trivia of the node's first token and the trailing trivia of its last token.

Display parts are `DisplayParts.Part(kind, text)`. The builder the source fills is the class `DisplayParts.PartBuilder`, whose `items` the methods update in place. Each method is proved against a specification function, and the lemmas state the properties of that function. The host compiler's services are data or oracles in the model:

- how a symbol renders (`SymbolDisplay.Symbol` carries its own parts);
- which attributes it has;
- token lookup and line positions in a syntax tree (`Indentation.Tree`).

## Model

| member | source | states |
|---|---|---|
| DisplayParts.Glyph | src/CSharp.Workspaces/CSharp/SymbolDefinitionDisplay.cs:817-821 | a non-NUL glyph means the part is punctuation with exactly that one character, and one-character punctuation has its own character as glyph (how `part.ToString()` is compared with `"("`) |
| DisplayParts.Step | src/CSharp.Workspaces/CSharp/SymbolDefinitionDisplay.cs:916-992 | a part that is not punctuation never moves the four nesting counters |
| DisplayParts.AfterConcat | src/CSharp.Workspaces/CSharp/SymbolDefinitionDisplay.cs:815-902 | the counters after `a + b` are the counters after `b` started from those after `a` |
| DisplayParts.AfterIsShift | src/CSharp.Workspaces/CSharp/SymbolDefinitionDisplay.cs:815-902 | scanning from counters `d` ends at `d` plus the net effect of the parts |
| DisplayParts.BalancedConcat | src/CSharp.Workspaces/CSharp/SymbolDefinitionDisplay.cs:291-353 | two bracket-balanced renderings concatenated are balanced |
| DisplayParts.AppendRange | src/CSharp.Workspaces/CSharp/SymbolDefinitionDisplay.cs:1103-1104 | copying `s[from..to]` onto a list appends exactly that slice |
| DisplayParts.PartBuilder.constructor | src/CSharp.Workspaces/CSharp/SymbolDefinitionDisplay.cs:104 | a new builder holds exactly the parts it is given |
| DisplayParts.PartBuilder.Add | src/CSharp.Workspaces/CSharp/SymbolDefinitionDisplay.cs:1255-1278 | the builder's items gain the part at the end and nothing else changes |
| DisplayParts.PartBuilder.AddRange | src/CSharp.Workspaces/CSharp/SymbolDefinitionDisplay.cs:112 | the builder's items gain the parts at the end |
| DisplayParts.PartBuilder.Insert | src/CSharp.Workspaces/CSharp/SymbolDefinitionDisplay.cs:810-811 | the part is inserted at the index; the items before and after keep their order |
| DisplayParts.PartBuilder.Set | src/CSharp.Workspaces/CSharp/SymbolDefinitionDisplay.cs:833 | only the item at the index is replaced |
| ParameterList.ListStartFrom | src/CSharp.Workspaces/CSharp/SymbolDefinitionDisplay.cs:905-995 | the result is -1 or the first position from `k` where the list opener stands at nesting depth 0; no earlier position qualifies |
| ParameterList.FindParameterListStart | src/CSharp.Workspaces/CSharp/SymbolDefinitionDisplay.cs:905-995 | the loop returns the first top-level `(` of a method or named type, or `[` of a property, else -1; it always returns -1 for other symbol kinds |
| Sorting.Insert | src/CSharp.Workspaces/CSharp/SymbolDefinitionDisplay.cs:293 | inserting into the ordered list adds exactly that element |
| Sorting.SortBy | src/CSharp.Workspaces/CSharp/SymbolDefinitionDisplay.cs:293 | the sorted list is a permutation of the input |
| Sorting.SortByMembers | src/CSharp.Workspaces/CSharp/SymbolDefinitionDisplay.cs:143-158 | sorting keeps the length and exactly the same elements |
| Sorting.InsertSorted | src/CSharp.Workspaces/CSharp/SymbolDefinitionDisplay.cs:293 | insertion into a sorted list under a total preorder stays sorted |
| Sorting.SortBySorted | src/CSharp.Workspaces/CSharp/SymbolDefinitionDisplay.cs:293 | under a total preorder the result is sorted |
| Sorting.SortByStable | src/CSharp.Workspaces/CSharp/SymbolDefinitionDisplay.cs:293 | the sort is stable, as `OrderBy` is: the elements that compare equal to any given one come out in their input order |
| SymbolDisplay.JoinSnoc | src/CSharp.Workspaces/CSharp/SymbolDefinitionDisplay.cs:1206-1236 | appending an item to a separated list adds a separator only if the list was not empty |
| SymbolDisplay.JoinConcat | src/CSharp.Workspaces/CSharp/SymbolDefinitionDisplay.cs:403-407 | joining two nonempty lists puts exactly one separator between them (constructor then named arguments) |
| SymbolDisplay.JoinBalanced | src/CSharp.Workspaces/CSharp/SymbolDefinitionDisplay.cs:1206-1236 | balanced items joined with a balanced separator are balanced |
| SymbolDisplay.TypeArgumentItems | src/CSharp.Workspaces/CSharp/SymbolDefinitionDisplay.cs:1204-1237 | one rendering per type argument, in order |
| SymbolDisplay.StripSuffix | src/CSharp.Workspaces/CSharp/SymbolDefinitionDisplay.cs:1188-1202 | only the last part can change, and only if it is a class name ending in `Attribute`; then it loses exactly that suffix |
| SymbolDisplay.AttributeClassDisplay | src/CSharp.Workspaces/CSharp/SymbolDefinitionDisplay.cs:1188-1202 | a symbol that is not a named type renders unchanged; otherwise the rendering keeps its length |
| SymbolDisplay.StripAfterPrefix | src/CSharp.Workspaces/CSharp/SymbolDefinitionDisplay.cs:1188-1202 | the suffix is stripped from the symbol's own last part and never from a prefix already in the builder |
| SymbolDisplay.DisplayedAfterAttribute | src/CSharp.Workspaces/CSharp/SymbolDefinitionDisplay.cs:1172-1202 | after `[` or a separator, AddDisplayParts with suffix removal appends exactly the attribute-class rendering |
| SymbolDisplay.StripKeepsDepths | src/CSharp.Workspaces/CSharp/SymbolDefinitionDisplay.cs:1188-1202 | stripping the suffix never changes bracket nesting |
| SymbolDisplay.DisplayBalanced | src/CSharp.Workspaces/CSharp/SymbolDefinitionDisplay.cs:1204-1237 | a symbol whose renderings are balanced, with its type-argument list `<…>`, renders balanced |
| SymbolDisplay.AttributeClassBalanced | src/CSharp.Workspaces/CSharp/SymbolDefinitionDisplay.cs:1188-1202 | the attribute-class rendering is balanced |
| SymbolDisplay.AddDisplayParts | src/CSharp.Workspaces/CSharp/SymbolDefinitionDisplay.cs:1172-1253 | the builder gains the symbol's parts in the format the namespace style selects, suffix-stripped when asked, then its type arguments |
| SymbolDisplay.AddTypeArguments | src/CSharp.Workspaces/CSharp/SymbolDefinitionDisplay.cs:1204-1237 | the builder gains `<`, the arguments separated by `, `, and `>`; nothing when there are no arguments |
| SymbolDisplay.AddTypeArgumentAt | src/CSharp.Workspaces/CSharp/SymbolDefinitionDisplay.cs:1212-1236 | one loop step appends the next argument and, unless it is the last, `, ` |
| SymbolDisplay.ItemStep | src/CSharp.Workspaces/CSharp/SymbolDefinitionDisplay.cs:1212-1236 | the separated-list loop invariant is kept by one step |
| SymbolDisplay.DisplayedAfterPlain | src/CSharp.Workspaces/CSharp/SymbolDefinitionDisplay.cs:1172-1186 | without suffix removal the builder gains exactly the display of the symbol |
| SymbolDisplay.AddTypeArgument | src/CSharp.Workspaces/CSharp/SymbolDefinitionDisplay.cs:1214 | the builder gains exactly the type argument's rendering |
| ConstantDisplay.LiteralKind | src/CSharp.Workspaces/CSharp/SymbolDefinitionDisplay.cs:535-558 | a boolean renders as a keyword, a char or string as a string literal, every other primitive as a number |
| ConstantDisplay.FieldItems | src/CSharp.Workspaces/CSharp/SymbolDefinitionDisplay.cs:456-470 | one rendering per enum flag field, in order |
| ConstantDisplay.ValueItems | src/CSharp.Workspaces/CSharp/SymbolDefinitionDisplay.cs:505-523 | one rendering per array element, in order |
| ConstantDisplay.ConstantBalanced | src/CSharp.Workspaces/CSharp/SymbolDefinitionDisplay.cs:435-533 | every renderable constant renders bracket-balanced |
| ConstantDisplay.EnumBalanced | src/CSharp.Workspaces/CSharp/SymbolDefinitionDisplay.cs:448-481 | an enum value renders balanced, as `A \| B` or as `(E)1` |
| ConstantDisplay.AddConstantValue | src/CSharp.Workspaces/CSharp/SymbolDefinitionDisplay.cs:435-533 | the builder gains exactly the constant's rendering: literal, flags or cast, `typeof(T)`, or `new T[] { … }` |
| ConstantDisplay.AddEnumCast | src/CSharp.Workspaces/CSharp/SymbolDefinitionDisplay.cs:472-478 | with no flag fields the builder gains `(`, the enum type, `)` and the number |
| ConstantDisplay.AddTypeOf | src/CSharp.Workspaces/CSharp/SymbolDefinitionDisplay.cs:482-490 | the builder gains `typeof(`, the type and `)` |
| ConstantDisplay.AddArray | src/CSharp.Workspaces/CSharp/SymbolDefinitionDisplay.cs:491-528 | the builder gains the array rendering |
| ConstantDisplay.AddArrayHead | src/CSharp.Workspaces/CSharp/SymbolDefinitionDisplay.cs:495-503 | the builder gains `new T[] { ` |
| ConstantDisplay.AddArrayValues | src/CSharp.Workspaces/CSharp/SymbolDefinitionDisplay.cs:505-523 | the builder gains the elements separated by `, ` |
| ConstantDisplay.AddArrayValueAt | src/CSharp.Workspaces/CSharp/SymbolDefinitionDisplay.cs:509-522 | one loop step appends the next element and, unless it is the last, `, ` |
| ConstantDisplay.AddEnumFields | src/CSharp.Workspaces/CSharp/SymbolDefinitionDisplay.cs:454-471 | the builder gains the flag fields separated by ` \| ` |
| AttributeDisplay.ConstructorItems | src/CSharp.Workspaces/CSharp/SymbolDefinitionDisplay.cs:369-393 | one rendering per positional argument, in order |
| AttributeDisplay.NamedItems | src/CSharp.Workspaces/CSharp/SymbolDefinitionDisplay.cs:413-430 | each named argument renders as `Name = value`, in order |
| AttributeDisplay.ArgumentListIsOneList | src/CSharp.Workspaces/CSharp/SymbolDefinitionDisplay.cs:356-433 | the two phases together make one `( … )` list of all positional then named arguments with `, ` between, or nothing when there are none |
| AttributeDisplay.ArgumentListBalanced | src/CSharp.Workspaces/CSharp/SymbolDefinitionDisplay.cs:356-433 | the argument list is balanced |
| AttributeDisplay.AddAttributeArguments | src/CSharp.Workspaces/CSharp/SymbolDefinitionDisplay.cs:356-433 | the builder gains exactly the argument list |
| AttributeDisplay.AppendConstructorArguments | src/CSharp.Workspaces/CSharp/SymbolDefinitionDisplay.cs:369-393 | reports whether there was a positional argument, and appends `(` and the positional arguments when there was |
| AttributeDisplay.AddConstructorItems | src/CSharp.Workspaces/CSharp/SymbolDefinitionDisplay.cs:378-391 | the builder gains the positional arguments separated by `, ` |
| AttributeDisplay.AppendNamedArguments | src/CSharp.Workspaces/CSharp/SymbolDefinitionDisplay.cs:395-432 | reports whether there was a named argument, and appends `, ` or `(` before the named arguments as the source decides |
| AttributeDisplay.AddNamedItems | src/CSharp.Workspaces/CSharp/SymbolDefinitionDisplay.cs:413-430 | the builder gains the named arguments separated by `, ` |
| AttributeDisplay.AddNamedArgumentAt | src/CSharp.Workspaces/CSharp/SymbolDefinitionDisplay.cs:413-430 | one loop step appends the next named argument and, unless it is the last, `, ` |
| AttributeDisplay.AddNamedArgument | src/CSharp.Workspaces/CSharp/SymbolDefinitionDisplay.cs:415-419 | the builder gains `Name = value` |
| AttributeDisplay.Filter | src/CSharp.Workspaces/CSharp/SymbolDefinitionDisplay.cs:291-292 | exactly the attributes whose class passes the predicate are kept |
| AttributeDisplay.KeyOrderTotal | src/CSharp.Workspaces/CSharp/SymbolDefinitionDisplay.cs:293 | comparing attributes by their display string is a total preorder when the string comparer is one |
| AttributeDisplay.Selected | src/CSharp.Workspaces/CSharp/SymbolDefinitionDisplay.cs:291-293 | the selected attributes all pass and are as many as the filter keeps |
| AttributeDisplay.SelectedSorted | src/CSharp.Workspaces/CSharp/SymbolDefinitionDisplay.cs:293 | the selected attributes are in order of their display strings |
| AttributeDisplay.AttributeItems | src/CSharp.Workspaces/CSharp/SymbolDefinitionDisplay.cs:306-312 | one rendering per attribute, in order |
| AttributeDisplay.AttributeList | src/CSharp.Workspaces/CSharp/SymbolDefinitionDisplay.cs:295-353 | nothing for no attributes; otherwise it starts with `[` and ends with a line break or `]` as `addNewLine` says |
| AttributeDisplay.NothingUnlessOnePasses | src/CSharp.Workspaces/CSharp/SymbolDefinitionDisplay.cs:291-295 | the rendering is empty if and only if no attribute's class passes the predicate |
| AttributeDisplay.HiddenAttributesIgnored | src/CSharp.Workspaces/CSharp/SymbolDefinitionDisplay.cs:291-311 | attributes the predicate rejects have no effect: rendering only those that pass gives the same parts, and the arguments of the rejected ones need not be renderable |
| AttributeDisplay.Groups | src/CSharp.Workspaces/CSharp/SymbolDefinitionDisplay.cs:315-336 | in split mode each attribute is its own `[ … ]` group |
| AttributeDisplay.SplitIsOnePairPerAttribute | src/CSharp.Workspaces/CSharp/SymbolDefinitionDisplay.cs:306-353 | in split mode the rendering is the groups joined by a line break or a space, plus a final line break when asked |
| AttributeDisplay.GroupsPrefix | src/CSharp.Workspaces/CSharp/SymbolDefinitionDisplay.cs:306-347 | the first k groups are the opening, the first k items with the split separator, and `]` |
| AttributeDisplay.AssemblyTargetBalanced | src/CSharp.Workspaces/CSharp/SymbolDefinitionDisplay.cs:299-304 | the `assembly: ` target is balanced |
| AttributeDisplay.ItemBalanced | src/CSharp.Workspaces/CSharp/SymbolDefinitionDisplay.cs:308-311 | one attribute with its arguments is balanced |
| AttributeDisplay.AttributeListBalanced | src/CSharp.Workspaces/CSharp/SymbolDefinitionDisplay.cs:295-353 | the whole attribute rendering is balanced, so it never disturbs the scans that follow it |
| AttributeDisplay.AddAttributes | src/CSharp.Workspaces/CSharp/SymbolDefinitionDisplay.cs:280-354 | the builder gains the selected, sorted attributes rendered as the options say |
| AttributeDisplay.AddAttributeList | src/CSharp.Workspaces/CSharp/SymbolDefinitionDisplay.cs:295-353 | the builder gains the rendering of an already ordered list |
| AttributeDisplay.AddItems | src/CSharp.Workspaces/CSharp/SymbolDefinitionDisplay.cs:306-347 | the builder gains the items separated by `][` with a break, or by `, ` |
| AttributeDisplay.AddOpening | src/CSharp.Workspaces/CSharp/SymbolDefinitionDisplay.cs:297-304 | the builder gains `[` and, for assembly attributes, `assembly: ` |
| AttributeDisplay.AddSeparator | src/CSharp.Workspaces/CSharp/SymbolDefinitionDisplay.cs:315-341 | the builder gains the separator the split and new-line options choose |
| AttributeDisplay.AddClosing | src/CSharp.Workspaces/CSharp/SymbolDefinitionDisplay.cs:349-352 | the builder gains `]` and, when asked, a line break |
| AttributeDisplay.AddAttribute | src/CSharp.Workspaces/CSharp/SymbolDefinitionDisplay.cs:308-311 | the builder gains the class name without suffix and, when asked, the arguments |
| AttributeDisplay.AddAttributeClass | src/CSharp.Workspaces/CSharp/SymbolDefinitionDisplay.cs:308 | the builder gains the attribute class rendered without its suffix |
| AttributeDisplay.AddAttributeAt | src/CSharp.Workspaces/CSharp/SymbolDefinitionDisplay.cs:306-347 | one loop step appends the next attribute and, unless it is the last, the separator |
| AttributeDisplay.GetAttributesParts | src/CSharp.Workspaces/CSharp/SymbolDefinitionDisplay.cs:251-278 | the result is the attribute rendering of the symbol's attributes |
| AttributeDisplay.FirstKeyword | src/CSharp.Workspaces/CSharp/SymbolDefinitionDisplay.cs:758 | the first part that is the keyword, or none when no part is |
| AttributeDisplay.InsertBefore | src/CSharp.Workspaces/CSharp/SymbolDefinitionDisplay.cs:766-767 | the segment and one space are inserted at the index; everything else keeps its place |
| AttributeDisplay.WithAccessorAttributes | src/CSharp.Workspaces/CSharp/SymbolDefinitionDisplay.cs:754-771 | with no attributes the parts are unchanged |
| AttributeDisplay.AccessorAttributesUnchanged | src/CSharp.Workspaces/CSharp/SymbolDefinitionDisplay.cs:754-769 | with attributes, the parts are unchanged if and only if the accessor keyword is absent |
| AttributeDisplay.AccessorAttributesBeforeKeyword | src/CSharp.Workspaces/CSharp/SymbolDefinitionDisplay.cs:756-768 | the attributes and a space land right before the first accessor keyword; removing them gives the original |
| AttributeDisplay.AddAccessorAttributes | src/CSharp.Workspaces/CSharp/SymbolDefinitionDisplay.cs:738-789 | the result places the accessor's attribute rendering in front of its `get`/`set`/`add`/`remove` keyword |
| AttributeDisplay.PlaceAccessorAttributes | src/CSharp.Workspaces/CSharp/SymbolDefinitionDisplay.cs:754-771 | the insertion step computes the placement function |
| AttributeDisplay.InsertedTwice | src/CSharp.Workspaces/CSharp/SymbolDefinitionDisplay.cs:766-767 | inserting the space and then the segment at the same index puts the segment before the space |
| ParameterFormatting.OpenerBroken | src/CSharp.Workspaces/CSharp/SymbolDefinitionDisplay.cs:810-811 | inserting the line break and indentation after the opener adds exactly two parts |
| ParameterFormatting.RelaxConcat | src/CSharp.Workspaces/CSharp/SymbolDefinitionDisplay.cs:815-902 | the whitespace-insensitive view distributes over concatenation |
| ParameterFormatting.ReflowOnlyBreaksSpaces | src/CSharp.Workspaces/CSharp/SymbolDefinitionDisplay.cs:815-902 | whitespace-insensitive view of the scan: with whitespace collapsed, its output equals its input (the exact output is ReflowIsBreakAfter) |
| ParameterFormatting.CloseIndex | src/CSharp.Workspaces/CSharp/SymbolDefinitionDisplay.cs:850-880 | the scan stops, if at all, at a `)` or `]` at or after its start |
| ParameterBreaks.CloseIndexCloses | src/CSharp.Workspaces/CSharp/SymbolDefinitionDisplay.cs:850-880 | where the scan stops, that part closes the list under the counters the scan has after reading it: the paren counter back at 0 for methods and named types, the bracket counter back at 0 for indexers |
| ParameterFormatting.ReflowKeepsTail | src/CSharp.Workspaces/CSharp/SymbolDefinitionDisplay.cs:850-880 | everything from the closing part on is kept as it was |
| ParameterFormatting.FormattedOnlyBreaksLines | src/CSharp.Workspaces/CSharp/SymbolDefinitionDisplay.cs:791-903 | whitespace-insensitive view of the whole call: without a parameter list nothing changes; otherwise, whitespace collapsed, the result is the input with one space after the opener |
| ParameterBreaks.ReflowIsBreakAfter | src/CSharp.Workspaces/CSharp/SymbolDefinitionDisplay.cs:815-902 | the scan's exact output: every part is kept, except that the space after each break position (a `, ` at top level, reached before any part closes the list, counters taken over the parts from where the scan started) becomes a line break and an indentation |
| ParameterBreaks.FormattedBreaksAt | src/CSharp.Workspaces/CSharp/SymbolDefinitionDisplay.cs:791-903 | the exact as-written result: unchanged without a list start; otherwise the input with a line break and an indentation after the opener, and with the space after each break position of the scan from position 1 replaced by a line break and an indentation |
| ParameterBreaks.FormattedFromOpenerBreaksAt | src/CSharp.Workspaces/CSharp/SymbolDefinitionDisplay.cs:791-903 | the exact corrected result: unchanged without a list start; otherwise everything up to the opener is kept, a line break and an indentation follow it, and the space after each break position of the scan from the opener is replaced by a line break and an indentation |
| ParameterBreaks.ReflowPassesOver | src/CSharp.Workspaces/CSharp/SymbolDefinitionDisplay.cs:815-902 | parts that are neither a comma nor a closing bracket are kept and only counted |
| ParameterBreaks.AsWrittenAgreesWithCorrected | src/CSharp.Workspaces/CSharp/SymbolDefinitionDisplay.cs:801-813 | scanning from position 1 and scanning from the opener give the same layout when the opener is not the first part and the parts between hold no comma and no closing bracket and leave the counters at 0 |
| ParameterFormatting.CommaIsNeutral | src/CSharp.Workspaces/CSharp/SymbolDefinitionDisplay.cs:823-843 | a comma moves no counter and closes nothing |
| ParameterFormatting.BreakShape | src/CSharp.Workspaces/CSharp/SymbolDefinitionDisplay.cs:833-834 | replacing the space and inserting the indentation turns `, ` into `,` line break, indentation |
| ParameterFormatting.ScanPart | src/CSharp.Workspaces/CSharp/SymbolDefinitionDisplay.cs:817-901 | one loop step keeps the scan invariant, or closes with the builder at its target |
| ParameterFormatting.FormatParameters | src/CSharp.Workspaces/CSharp/SymbolDefinitionDisplay.cs:791-903 | the builder becomes the as-written layout, with the scan from position 1; without a parameter list it is unchanged |
| ParameterFormatting.FormatParametersFromOpener | src/CSharp.Workspaces/CSharp/SymbolDefinitionDisplay.cs:791-903 | the builder becomes the corrected layout, with the scan from the opener |
| ParameterFormatting.AttributeLineHasNoListStart | src/CSharp.Workspaces/CSharp/SymbolDefinitionDisplay.cs:905-995 | an attribute line is balanced and holds no parameter-list opener |
| ParameterFormatting.ExampleListStart | src/CSharp.Workspaces/CSharp/SymbolDefinitionDisplay.cs:803-811 | for `[A]` then `M(a, b)` the opener is at 5 and the break lands after it |
| ParameterFormatting.ExampleAsWritten | src/CSharp.Workspaces/CSharp/SymbolDefinitionDisplay.cs:813-902 | from position 1 the scan leaves `[A]\nM(\n  a, b)` unchanged after the opener break |
| ParameterFormatting.ExampleCorrected | src/CSharp.Workspaces/CSharp/SymbolDefinitionDisplay.cs:813-902 | from the opener the scan of `M(` line break, indentation, `a, b)` gives `(`, line break, indentation, `a,`, line break, indentation, `b)` |
| ParameterFormatting.AttributeSuppressesFormatting | src/CSharp.Workspaces/CSharp/SymbolDefinitionDisplay.cs:801-813 | as written, an attribute in front leaves only the opener broken, and the corrected layout differs |
| ParameterFormatting.IndexerListStartInAttribute | src/CSharp.Workspaces/CSharp/SymbolDefinitionDisplay.cs:905-995 | for an indexer, the list-start search stops at the `[` of an attribute in front of the declaration |
| ParameterFormatting.ListStartFromShift | src/CSharp.Workspaces/CSharp/SymbolDefinitionDisplay.cs:905-995 | behind a balanced prefix the opener search finds the same opener, shifted |
| ParameterFormatting.ReflowShift | src/CSharp.Workspaces/CSharp/SymbolDefinitionDisplay.cs:815-902 | the scan of a suffix does not depend on what precedes it |
| ParameterFormatting.PrefixedListStart | src/CSharp.Workspaces/CSharp/SymbolDefinitionDisplay.cs:905-995 | a balanced prefix without an opener shifts the list start by its length |
| ParameterFormatting.FormattedFromOpenerIgnoresPrefix | src/CSharp.Workspaces/CSharp/SymbolDefinitionDisplay.cs:236-240 | the corrected layout of attributes followed by a declaration is the attributes followed by the declaration's layout |
| ParameterAttributes.Untag | src/CSharp.Workspaces/CSharp/SymbolDefinitionDisplay.cs:562-736 | removing the tags keeps every part in place |
| ParameterAttributes.OriginalsOfOrigs | src/CSharp.Workspaces/CSharp/SymbolDefinitionDisplay.cs:562-736 | the original parts of untouched input are the input |
| ParameterAttributes.AnnotateOnlyInserts | src/CSharp.Workspaces/CSharp/SymbolDefinitionDisplay.cs:618-735 | the scan only inserts: dropping the inserted segments gives the scanned input |
| ParameterAttributes.SeededOriginals | src/CSharp.Workspaces/CSharp/SymbolDefinitionDisplay.cs:578-592 | inserting the first parameter's attributes after the opener adds no original part |
| ParameterAttributes.OnlyInserts | src/CSharp.Workspaces/CSharp/SymbolDefinitionDisplay.cs:562-736 | whenever it succeeds, dropping the inserted attributes gives the original parts |
| ParameterAttributes.AnnotateFailsIff | src/CSharp.Workspaces/CSharp/SymbolDefinitionDisplay.cs:628-646 | the scan fails (the parameter index runs out) if and only if there are more top-level `, ` than parameters left |
| ParameterAttributes.FailsIff | src/CSharp.Workspaces/CSharp/SymbolDefinitionDisplay.cs:571-646 | the operation fails if and only if there is a parameter list and either no parameter or more separators than parameters |
| ParameterAttributes.AnnotateWithoutAttributes | src/CSharp.Workspaces/CSharp/SymbolDefinitionDisplay.cs:648-666 | when no parameter has attributes, the scan inserts nothing |
| ParameterAttributes.WithoutAttributesUnchanged | src/CSharp.Workspaces/CSharp/SymbolDefinitionDisplay.cs:588-616 | when no parameter has attributes, the parts come back unchanged |
| ParameterAttributes.SeededUntag | src/CSharp.Workspaces/CSharp/SymbolDefinitionDisplay.cs:588-592 | the first parameter's attributes and a space go right after the opener, when there are any |
| ParameterAttributes.InsertLeading | src/CSharp.Workspaces/CSharp/SymbolDefinitionDisplay.cs:588-592 | the two insertions produce the seeded parts |
| ParameterAttributes.PlaceAttributes | src/CSharp.Workspaces/CSharp/SymbolDefinitionDisplay.cs:648-666 | the builder is created or caught up, then gains the space and the attributes; `prevIndex` moves past the comma |
| ParameterAttributes.ScanPart | src/CSharp.Workspaces/CSharp/SymbolDefinitionDisplay.cs:620-734 | one loop step reports a missing parameter, a closed list, or keeps the scan invariant |
| ParameterAttributes.ScanComma | src/CSharp.Workspaces/CSharp/SymbolDefinitionDisplay.cs:628-671 | a comma never closes the list; at a top-level `, ` the next parameter is taken or found missing |
| ParameterAttributes.CopyRest | src/CSharp.Workspaces/CSharp/SymbolDefinitionDisplay.cs:605-616 | the result is the builder's parts followed by the parts not yet copied |
| ParameterAttributes.ScanList | src/CSharp.Workspaces/CSharp/SymbolDefinitionDisplay.cs:618-735 | the loop computes the scan from the list start |
| ParameterAttributes.AddParameterAttributes | src/CSharp.Workspaces/CSharp/SymbolDefinitionDisplay.cs:562-736 | the result is the specification's rendering, or none where the source indexes past the parameters |
| DefaultLiteral.ClosingFrom | src/CSharp.Workspaces/CSharp/SymbolDefinitionDisplay.cs:1111-1144 | the result is -1 or the position of a `)` |
| DefaultLiteral.ClosingFromIsMatch | src/CSharp.Workspaces/CSharp/SymbolDefinitionDisplay.cs:1111-1144 | the `)` found closes the parenthesis opened just before the start, and none earlier does |
| DefaultLiteral.ClosingMatches | src/CSharp.Workspaces/CSharp/SymbolDefinitionDisplay.cs:1111-1144 | from any start the search returns the matching `)` or -1 when the parentheses never balance |
| DefaultLiteral.FindClosingParentheses | src/CSharp.Workspaces/CSharp/SymbolDefinitionDisplay.cs:1111-1144 | the loop returns the matching `)` or -1 |
| DefaultLiteral.DefaultAt | src/CSharp.Workspaces/CSharp/SymbolDefinitionDisplay.cs:1072-1099 | the result is -1, or a position inside the parts at least four past the `=`: where the `)` of `= default(…)` was found |
| DefaultLiteral.DeletionsAreDefaultGroups | src/CSharp.Workspaces/CSharp/SymbolDefinitionDisplay.cs:1015-1109 | every deleted span is the `(…)` of a `= default(…)` |
| DefaultLiteral.DeletionsOrdered | src/CSharp.Workspaces/CSharp/SymbolDefinitionDisplay.cs:1015-1109 | the deleted spans are disjoint and in order |
| DefaultLiteral.EraseDeletes | src/CSharp.Workspaces/CSharp/SymbolDefinitionDisplay.cs:1100-1108 | erasing ordered spans only deletes parts, never reorders or adds |
| DefaultLiteral.EraseLength | src/CSharp.Workspaces/CSharp/SymbolDefinitionDisplay.cs:1100-1108 | the result is shorter by exactly the parts the spans cover |
| DefaultLiteral.NoDeletions | src/CSharp.Workspaces/CSharp/SymbolDefinitionDisplay.cs:1072-1093 | without `default(` nothing is deleted |
| DefaultLiteral.DefaultLiteralsOnlyDelete | src/CSharp.Workspaces/CSharp/SymbolDefinitionDisplay.cs:997-1158 | the result is the input with parts deleted, every deleted stretch being the `(…)` of an `= default(…)`, and shorter by exactly their size; which groups the scan reaches is `DeletionsAfterPassing` |
| DefaultLiteral.SkipPassed | src/CSharp.Workspaces/CSharp/SymbolDefinitionDisplay.cs:1014-1068 | parts that neither close the list nor start an `= default(…)` are only counted: the scan resumes after them with the counters they leave |
| DefaultLiteral.DeletionsAfterPassing | src/CSharp.Workspaces/CSharp/SymbolDefinitionDisplay.cs:1015-1109 | the converse: the first `= default(…)` the scan reaches, before the list's closing part, is deleted and the scan resumes after its `)`; once the list closes, or the parts end, nothing more is deleted |
| DefaultLiteral.DefaultLiteralsUnchanged | src/CSharp.Workspaces/CSharp/SymbolDefinitionDisplay.cs:997-1158 | without `default(` the parts come back unchanged |
| DefaultLiteral.DefaultClose | src/CSharp.Workspaces/CSharp/SymbolDefinitionDisplay.cs:1074-1097 | the three checks after `=` and the parenthesis search compute the end of the default group |
| DefaultLiteral.ReplaceAt | src/CSharp.Workspaces/CSharp/SymbolDefinitionDisplay.cs:1072-1109 | handling one `=` keeps the rewrite invariant and moves the scan past any default group |
| DefaultLiteral.CopyBeforeGroup | src/CSharp.Workspaces/CSharp/SymbolDefinitionDisplay.cs:1100-1108 | the builder catches up to `default` and the scan resumes after `)` |
| DefaultLiteral.GetResult | src/CSharp.Workspaces/CSharp/SymbolDefinitionDisplay.cs:1146-1157 | the parts unchanged if nothing was rewritten, else the builder followed by the rest |
| DefaultLiteral.ScanPart | src/CSharp.Workspaces/CSharp/SymbolDefinitionDisplay.cs:1017-1067 | one loop step stops at the list's closing part or keeps the rewrite invariant |
| DefaultLiteral.ReplaceDefaultExpressionWithDefaultLiteral | src/CSharp.Workspaces/CSharp/SymbolDefinitionDisplay.cs:997-1158 | the result is the parts with each parameter's `default(T)` shortened to `default` |
| DefinitionDisplay.Plain | src/CSharp.Workspaces/CSharp/SymbolDefinitionDisplay.cs:29-39 | the host's declaration parts, in order |
| DefinitionDisplay.FirstWhere | src/CSharp.Workspaces/CSharp/SymbolDefinitionDisplay.cs:79-91 | -1 or the first `where` keyword; none before it |
| DefinitionDisplay.FirstWhereIffConstraints | src/CSharp.Workspaces/CSharp/SymbolDefinitionDisplay.cs:79-91 | there is no first `where` if and only if the constraint count is zero |
| DefinitionDisplay.FindConstraints | src/CSharp.Workspaces/CSharp/SymbolDefinitionDisplay.cs:79-91 | the loop finds the first `where` and counts all of them |
| DefinitionDisplay.ConstraintsUnchanged | src/CSharp.Workspaces/CSharp/SymbolDefinitionDisplay.cs:207-232 | with no named types to re-render and no breaks, the clauses are copied unchanged |
| DefinitionDisplay.AddConstraints | src/CSharp.Workspaces/CSharp/SymbolDefinitionDisplay.cs:207-232 | the builder gains the clauses from the first `where` on |
| DefinitionDisplay.AddConstraintAt | src/CSharp.Workspaces/CSharp/SymbolDefinitionDisplay.cs:209-231 | one loop step appends the next clause part |
| DefinitionDisplay.AddConstraintPart | src/CSharp.Workspaces/CSharp/SymbolDefinitionDisplay.cs:211-230 | a `where` gains a break when clauses are broken, a named type is re-rendered, anything else is copied |
| DefinitionDisplay.WithoutEnumerable | src/CSharp.Workspaces/CSharp/SymbolDefinitionDisplay.cs:70 | exactly the interfaces that are not `IEnumerable` remain |
| DefinitionDisplay.ListedInterfaces | src/CSharp.Workspaces/CSharp/SymbolDefinitionDisplay.cs:65-71 | an interface is listed if and only if it is declared and not `IEnumerable` omitted next to `IEnumerable<T>` |
| DefinitionDisplay.OrdinalTotal | src/CSharp.Workspaces/CSharp/SymbolDefinitionDisplay.cs:150-157 | ordinal string comparison relates any two strings |
| DefinitionDisplay.OrdinalTransitive | src/CSharp.Workspaces/CSharp/SymbolDefinitionDisplay.cs:150-157 | ordinal string comparison is transitive |
| DefinitionDisplay.OrdinalAntisymmetric | src/CSharp.Workspaces/CSharp/SymbolDefinitionDisplay.cs:150-157 | ordinal comparison both ways means equal strings |
| DefinitionDisplay.InterfaceLeTransitive | src/CSharp.Workspaces/CSharp/SymbolDefinitionDisplay.cs:143-158 | the namespace-then-name order is transitive |
| DefinitionDisplay.InterfaceOrderTotal | src/CSharp.Workspaces/CSharp/SymbolDefinitionDisplay.cs:143-158 | the namespace-then-name order is a total preorder |
| DefinitionDisplay.InterfacesInOrder | src/CSharp.Workspaces/CSharp/SymbolDefinitionDisplay.cs:143-158 | the listed interfaces come out sorted by namespace, then name, with the same members and count |
| DefinitionDisplay.InterfaceItems | src/CSharp.Workspaces/CSharp/SymbolDefinitionDisplay.cs:160-187 | one rendering per interface, in order |
| DefinitionDisplay.BaseItems | src/CSharp.Workspaces/CSharp/SymbolDefinitionDisplay.cs:123-187 | one entry per interface, plus one for the base type when there is one |
| DefinitionDisplay.BaseListEntries | src/CSharp.Workspaces/CSharp/SymbolDefinitionDisplay.cs:51-77 | the base list has exactly `baseListCount` entries |
| DefinitionDisplay.SpaceBeforeClausesUnlessBroken | src/CSharp.Workspaces/CSharp/SymbolDefinitionDisplay.cs:189-196 | after a nonempty base list with constraint clauses, the section ends in a space unless the clauses are put on their own lines |
| DefinitionDisplay.AddSymbolDisplay | src/CSharp.Workspaces/CSharp/SymbolDefinitionDisplay.cs:125 | the builder gains the symbol's rendering |
| DefinitionDisplay.AddBaseSeparator | src/CSharp.Workspaces/CSharp/SymbolDefinitionDisplay.cs:129-139 | the builder gains `,` then a break and indentation, or a space |
| DefinitionDisplay.AddBaseEntryAt | src/CSharp.Workspaces/CSharp/SymbolDefinitionDisplay.cs:164-186 | one loop step appends the next entry and, unless it is the last, the separator |
| DefinitionDisplay.AddBaseList | src/CSharp.Workspaces/CSharp/SymbolDefinitionDisplay.cs:123-187 | the builder gains the base type and the interfaces separated as the options say |
| DefinitionDisplay.AddInterfaces | src/CSharp.Workspaces/CSharp/SymbolDefinitionDisplay.cs:160-187 | the loop completes the separated list with the interfaces |
| DefinitionDisplay.InterfaceItemAt | src/CSharp.Workspaces/CSharp/SymbolDefinitionDisplay.cs:160-166 | entry k is interface k minus one when there is a base type |
| DefinitionDisplay.AddBaseListSection | src/CSharp.Workspaces/CSharp/SymbolDefinitionDisplay.cs:108-197 | the builder gains the declaration up to `where`, ` : `, the base list, and a space before clauses unless they are broken |
| DefinitionDisplay.AnyPasses | src/CSharp.Workspaces/CSharp/SymbolDefinitionDisplay.cs:48 | true if and only if some attribute's class passes |
| DefinitionDisplay.AttributesIffVisible | src/CSharp.Workspaces/CSharp/SymbolDefinitionDisplay.cs:41-49 | attributes render if and only if a visibility predicate is given and some attribute passes it |
| DefinitionDisplay.ShortcutAgrees | src/CSharp.Workspaces/CSharp/SymbolDefinitionDisplay.cs:93-100 | when there is nothing to add, the early return agrees with the full assembly |
| DefinitionDisplay.BodyKeepsPlainDeclaration | src/CSharp.Workspaces/CSharp/SymbolDefinitionDisplay.cs:198-232 | with no base list, no named types and no breaks, the body is the plain declaration |
| DefinitionDisplay.AddBody | src/CSharp.Workspaces/CSharp/SymbolDefinitionDisplay.cs:108-232 | the builder gains the declaration with its base list and constraint clauses |
| DefinitionDisplay.GetDisplayParts | src/CSharp.Workspaces/CSharp/SymbolDefinitionDisplay.cs:15-249 | the result is the definition rendering: attributes, declaration, base list, clauses, then the as-written parameter layout and default literals |
| DefinitionDisplay.Assemble | src/CSharp.Workspaces/CSharp/SymbolDefinitionDisplay.cs:102-248 | the slow path computes the full assembly, with the as-written parameter layout |
| DefinitionDisplay.AddUnformatted | src/CSharp.Workspaces/CSharp/SymbolDefinitionDisplay.cs:104-232 | an empty builder gains the attributes and the body |
| DefinitionDisplay.Finish | src/CSharp.Workspaces/CSharp/SymbolDefinitionDisplay.cs:234-248 | parameters are laid out as FormatParameters does (scan from position 1) when asked and there are several; default literals are shortened when some parameter has a default |
| DefinitionDisplay.FinishedAgrees | src/CSharp.Workspaces/CSharp/SymbolDefinitionDisplay.cs:234-240 | the as-written and the corrected parameter layout of the display agree when nothing between position 1 and the opener is a comma or closing bracket and the counters are back at 0 there |
| DefinitionDisplay.AddDefinitionAttributes | src/CSharp.Workspaces/CSharp/SymbolDefinitionDisplay.cs:106 | the builder gains the definition's attributes, nothing without a predicate |
| SyntaxTrivia.Kinds | src/Common/CSharp/SyntaxTriviaAnalysis.cs:137-201 | the kinds of a trivia list, one per trivia, in order |
| SyntaxTrivia.EmptyOrSingleWhitespaceIsBlank | src/Common/CSharp/SyntaxTriviaAnalysis.cs:27-33 | `IsEmptyOrSingleWhitespaceTrivia` holds if and only if there is no trivia or exactly one whitespace; it implies blank, and a lone line end is blank but not accepted |
| SyntaxTrivia.OptionalWhitespaceThenEndOfLineShapes | src/Common/CSharp/SyntaxTriviaAnalysis.cs:137-156 | `IsOptionalWhitespaceThenEndOfLineTrivia` accepts a list if and only if the kinds are exactly `[EOL]` or `[WS, EOL]` |
| SyntaxTrivia.OptionalCommentShapes | src/Common/CSharp/SyntaxTriviaAnalysis.cs:158-185 | `IsOptionalWhitespaceThenOptionalSingleLineCommentThenEndOfLineTrivia` accepts a list if and only if the kinds are one of the four shapes: optional whitespace, optional comment, line end |
| SyntaxTrivia.BlankShapesRejected | src/Common/CSharp/SyntaxTriviaAnalysis.cs:137-201 | an empty list or a lone whitespace has none of the shapes |
| SyntaxTrivia.WithoutCommentIsWithOptionalComment | src/Common/CSharp/SyntaxTriviaAnalysis.cs:137-185 | every list the plain shape accepts is accepted by the comment variant |
| SyntaxTrivia.StartsWithIffShapedPrefix | src/Common/CSharp/SyntaxTriviaAnalysis.cs:187-201 | `StartsWithOptionalWhitespaceThenEndOfLineTrivia` holds of a list if and only if some nonempty prefix has exactly the shape |
| SyntaxTrivia.PrecededAndFollowedExclusive | src/Common/CSharp/SyntaxTriviaAnalysis.cs:115-135 | `IsTokenPrecededWithNewLineAndNotFollowedWithNewLine` and `IsTokenFollowedWithNewLineAndNotPrecededWithNewLine` never both hold of a token |
| SyntaxTrivia.LineBreakSides | src/Common/CSharp/SyntaxTriviaAnalysis.cs:115-135 | when either of those two predicates holds, the token's exterior is blank (`IsExteriorTriviaEmptyOrWhitespace`) and the line end is on that predicate's side only |
| EndOfLine.FirstEndOfLine | src/Common/CSharp/SyntaxTriviaAnalysis.cs:74-84 | a line end of the list, and none exactly when the list has no line end |
| EndOfLine.TokenEndOfLine | src/Common/CSharp/SyntaxTriviaAnalysis.cs:74-84 | a line end of the token's leading or trailing trivia, and none exactly when it has none |
| EndOfLine.ForwardFrom | src/Common/CSharp/SyntaxTriviaAnalysis.cs:70-88 | what the forward scan finds is a line end |
| EndOfLine.BackwardFrom | src/Common/CSharp/SyntaxTriviaAnalysis.cs:90-110 | what the backward scan finds is a line end |
| EndOfLine.EndOfLineFrom | src/Common/CSharp/SyntaxTriviaAnalysis.cs:68-113 | what the search finds is a line end |
| EndOfLine.FindInTriviaList | src/Common/CSharp/SyntaxTriviaAnalysis.cs:74-78 | the loop returns the first line end of the list |
| EndOfLine.FindInToken | src/Common/CSharp/SyntaxTriviaAnalysis.cs:74-84 | leading trivia are searched before trailing trivia |
| EndOfLine.FindEndOfLine | src/Common/CSharp/SyntaxTriviaAnalysis.cs:68-113 | the loops return the first line end from the token forwards, else the nearest one backwards |
| EndOfLine.GetEndOfLine | src/Common/CSharp/SyntaxTriviaAnalysis.cs:56-61 | always a line end: the one found, or a new line |
| EndOfLine.ForwardNone | src/Common/CSharp/SyntaxTriviaAnalysis.cs:70-88 | the forward scan finds nothing if and only if no token from there on has a line end |
| EndOfLine.BackwardNone | src/Common/CSharp/SyntaxTriviaAnalysis.cs:90-110 | the backward scan finds nothing if and only if no token before has a line end |
| EndOfLine.NoneIffNoEndOfLine | src/Common/CSharp/SyntaxTriviaAnalysis.cs:68-113 | nothing is found if and only if no token of the tree carries a line end |
| EndOfLine.ForwardFindsFirst | src/Common/CSharp/SyntaxTriviaAnalysis.cs:70-88 | the first token at or after the start with a line end supplies it |
| EndOfLine.BackwardFindsNearest | src/Common/CSharp/SyntaxTriviaAnalysis.cs:90-110 | with none ahead, the nearest token before the start with a line end supplies it |
| EndOfLine.LeadingBeforeTrailing | src/Common/CSharp/SyntaxTriviaAnalysis.cs:74-84 | a token with a line end in its leading trivia supplies that one, never one from its trailing trivia |
| EndOfLine.FoundIsCarried | src/Common/CSharp/SyntaxTriviaAnalysis.cs:68-113 | whatever is found belongs to a token on the scanned side |
| Indentation.ParentOf | src/Common/CSharp/SyntaxTriviaAnalysis.cs:265-266 | the parent taken from a node that does not cover the text is always an earlier node, so the climb ends |
| Indentation.Ascend | src/Common/CSharp/SyntaxTriviaAnalysis.cs:265-266 | the node reached contains the position and is numbered no later than the starting node (parents are numbered before their children) |
| Indentation.IndentationIn | src/Common/CSharp/SyntaxTriviaAnalysis.cs:268-296 | the indentation found is always a whitespace trivia, the empty one when nothing qualifies |
| Indentation.LineStartOf | src/Common/CSharp/SyntaxTriviaAnalysis.cs:256-258 | a node's line start lies inside the text |
| Indentation.IndentationIsWhitespace | src/Common/CSharp/SyntaxTriviaAnalysis.cs:249-261 | a node's indentation is whitespace, and the empty whitespace when it has no tree |
| Indentation.ScanDiffers | src/Common/CSharp/SyntaxTriviaAnalysis.cs:216-246 | the look upwards keeps the first indentation and returns a second that is whitespace and either empty or of a different width |
| Indentation.AnalysisShape | src/Common/CSharp/SyntaxTriviaAnalysis.cs:203-247 | the analysis holds the node's own indentation and a second one that is empty or of a different width; both are empty without a tree |
| Indentation.AscendTo | src/Common/CSharp/SyntaxTriviaAnalysis.cs:265-266 | the loop climbs to the nearest node containing the position |
| Indentation.DetermineIndentationAt | src/Common/CSharp/SyntaxTriviaAnalysis.cs:263-297 | the result is the indentation of the line that starts at the position |
| Indentation.DetermineIndentation | src/Common/CSharp/SyntaxTriviaAnalysis.cs:249-261 | the empty whitespace without a tree, else the indentation of the node's first line |
| Indentation.AnalyzeIndentation | src/Common/CSharp/SyntaxTriviaAnalysis.cs:203-247 | the loops compute the analysis: the node's indentation and the first different one found walking back |

## Left out

- The host renders symbols (`ToDisplayParts`), lists attributes and parameters, and finds tokens and lines. The model takes all of these as data: a `Symbol` carries its short and qualified renderings, and `Indentation.Tree` carries the lookups as functions. Formatting a primitive value (`SymbolDisplay.FormatPrimitive`) is the constant's `formatted` text.
- `EnumUtility.GetConstituentFields` is not part of this model. An enum constant carries its flag fields.
- `DefinitionDisplay.InterfacesInOrder`: the source sorts with `ImmutableArray.Sort`, which is not stable. The model sorts stably. The two agree except on the order of interfaces that compare equal.
- `DefinitionDisplay.InterfaceLeTransitive`: namespaces are compared by their display names, standing in for `MetadataNameEqualityComparer`.
- `DefinitionDisplay.GetDisplayParts`: the text of the factory's default indentation and `DefinitionListOptions.DefaultValues.IndentChars` are not part of this model. Both are options.
- `ParameterFormatting.FormattedFromOpenerIgnoresPrefix`: the corrected layout covers methods and named types. For an indexer the list-start search itself stops at an attribute's `[` (`IndexerListStartInAttribute`), and that search is not corrected.
- `AttributeDisplay.AddAttributes`: the attribute order uses the culture-sensitive comparer of `OrderBy`. That comparer is a parameter assumed to be a total preorder.
- `AttributeDisplay.AddAttributes`: a null predicate is not modelled. In the source it throws when the filter runs, and every caller in the model passes one.
- `AttributeDisplay.AddAccessorAttributes`: requires an accessor kind when an attribute would be shown. `GetKeyword` throws for other method kinds, and the model does not reproduce the throw.
- `ConstantDisplay.AddConstantValue`: the `InvalidOperationException` for an error constant or an unknown primitive type is excluded by `Renderable` instead of being modelled as a result. The attribute renderings ask this only of the arguments of attributes that pass the caller's predicate (`AttributeDisplay.PassingRenderable`), since the others are never rendered.
- `ParameterAttributes.AddParameterAttributes`: each parameter's attribute rendering is given as input. The source computes them with `GetAttributesParts`, which is modelled on its own.
- `Debug.Assert` calls have no effect in release builds and are not modelled.
- `SyntaxTrivia.IsEmptyOrWhitespace`: Roslynator's trivia-list extension is not part of this model. It is taken to hold when every trivia is whitespace or a line end.
- `EndOfLine.FindEndOfLine`: the tokens of the tree are an array in the order the host's next/previous navigation visits them. Moving to the next or previous token is index +1 or -1, and the ends give the none token. The overloads taking a node or a node-or-token start from the first token, or throw for neither, and are not separate members.
- `EndOfLine.GetEndOfLine`: the host's new-line text (`CSharpFactory.NewLine`) is a parameter.
- `Indentation.AnalyzeIndentation`: `WellFormed` requires every position to lie inside a root's full span. This makes the `node == null` break unreachable; the source would dereference null right after it anyway. Zero-width and end-of-file token cases are likewise left to the oracle.
- Cancellation tokens are not modelled.

## Findings

| source | as written | input that shows it | evidently intended | confidence | as-written member | corrected member |
|---|---|---|---|---|---|---|
| src/CSharp.Workspaces/CSharp/SymbolDefinitionDisplay.cs:801-813 | FormatParameters scans the builder from position 1 with all counters at 0, so attribute parts already in the builder are counted too. The leading `[` is skipped but its `]` is not, which leaves the bracket counter at -1, and then no comma of the parameter list is top-level. | `GetDisplayParts` with attributes shown and `formatParameters` on a method `[A]` `M(a, b)`: only the opener is broken, and `a, b` stay on one line | for methods and named types, parameters are broken onto separate lines whether or not attributes precede the declaration: the scan starts at the parameter-list opener (the display keeps the as-written layout; `DefinitionDisplay.FinishedAgrees` says when the two coincide) | not executed | ParameterFormatting.AttributeSuppressesFormatting | ParameterFormatting.FormattedFromOpenerIgnoresPrefix |
