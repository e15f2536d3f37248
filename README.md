# serverless-navigator: the descriptor parser and the variable resolver

serverless-navigator is an editor extension that links the `handler:` and
`schema: ${file(...)}` fields of a Serverless Framework descriptor
(`serverless.yml`) to the files they name. This project models its two pure
cores and proves properties about them in Dafny.

- **The descriptor parser** (`src/yaml-parser.ts`). It does not implement a
  YAML grammar: it splits the text at `\n` and makes three independent
  passes over the lines, steered by indentation.
  - One pass collects the `handler:` entries of the top-level `functions:`
    block, each with the function it belongs to.
  - One pass collects the `schema: ${file(<path>)}` entries of that block.
  - One pass builds a best-effort nested key/value record of the whole
    document, using a stack of open records.
- **The variable resolver** (`src/variable-resolver.ts`). It runs up to ten
  rewriting passes. Each pass replaces every `${expr}` of a string with the
  value of `expr`:
  - `self:a.b` is looked up in the parsed record;
  - every other expression resolves to the default written after its first
    top-level comma (one layer of quotes removed);
  - an expression with no match and no default stays as its own placeholder.

Modules, one file each:

- `Wrappers`: `Option`.
- `Text`: character-level helpers for the regular expressions the source
  uses. These are `\s`, `trim`, `split`, the `\s+#.*$` comment strip, the key
  pattern `^([\w][\w.-]*)\s*:\s*(.*)$` and the `${file(...)}` pattern.
- `Tree`: the parsed record as a JSON-like `Node`, with path get and set.
- `YamlParser`: the three passes as imperative methods. Each is proved equal
  to a left fold whose step function states what one line does.
- `YamlProperties`: what the folds guarantee.
- `VariableResolver`: `findTopLevelComma`, `lookupPath`, `resolveExpression`
  and `resolveVariables`.
- `ParserCases`, `SchemaCases`, `DataCases` and `ResolverCases`: the repository's own test scenarios,
  proved for every input of their shape and then for the test's literal
  input.

## Model

| member | source | states |
|---|---|---|
| Text.Indent | src/yaml-parser.ts:31-34 | the indent is the length of the longest all-whitespace prefix of the line |
| Text.Trim | src/yaml-parser.ts:46 | the trimmed text is the slice between leading and trailing whitespace, and it neither starts nor ends with whitespace when non-empty |
| Text.Split | src/yaml-parser.ts:24 | splitting never yields an empty list, no part holds the separator, and joining the parts gives back the input |
| Text.SplitJoin | src/yaml-parser.ts:24 | splitting the join of separator-free parts gives back exactly those parts |
| Text.JoinInjective | src/yaml-parser.ts:24 | two lists of separator-free lines with the same join are equal |
| Text.StripComment | src/yaml-parser.ts:92 | the result is the longest prefix that contains no whitespace-then-`#` comment start; the character after it starts one |
| Text.StripNoHash | src/yaml-parser.ts:92 | a value without `#` is left as it is by the comment strip |
| Text.KeyColonFromIff | src/yaml-parser.ts:60 | the column-0 closer test `^\S+\s*:` holds exactly when some run of non-space characters from the start is followed by optional spaces and a colon |
| Text.HasKeyColonIff | src/yaml-parser.ts:60 | the same closer test, stated for the whole trimmed text in both directions |
| Text.MatchKeySound | src/yaml-parser.ts:72-78 | a successful key match splits the text into a key of word characters, dots and dashes, a colon surrounded by spaces, and the value |
| Text.MatchKeyComplete | src/yaml-parser.ts:72-78 | every text of that shape is matched with exactly that key and value |
| Text.KeyPatternColon | src/yaml-parser.ts:60-72 | a text the key pattern matches also passes the closer test |
| Text.FunctionsHeaderIff | src/yaml-parser.ts:54 | the `^functions\s*:` test holds exactly when the key pattern matches with key `functions` |
| Text.FunctionsKeyIsHeader | src/yaml-parser.ts:54 | a `functions:` key line passes the header test |
| Text.MatchFileRefSound | src/yaml-parser.ts:161 | a matched value is `${file(` + path + `)}` with a non-empty path free of `)` |
| Text.FileRefRoundTrip | src/yaml-parser.ts:161 | wrapping a non-empty path free of `)` in `${file(...)}` and matching it gives the path back |
| Text.MatchFileRefExact | src/yaml-parser.ts:161 | the file pattern matches with path `p` if and only if the value is `${file(p)}` with `p` non-empty and free of `)` |
| Text.Unquote | src/yaml-parser.ts:210-213 | an unquoted value is unchanged; a quoted one loses its first and last characters, which are the same quote |
| Text.UnquoteQuoted | src/variable-resolver.ts:32-37 | unquoting a text wrapped in one kind of quote gives the text inside |
| Text.TrimIs | src/variable-resolver.ts:30-31 | trimming whitespace around a text without outer whitespace gives that text |
| Tree.GetAppend | src/variable-resolver.ts:64-74 | descending along `p + q` is descending along `p`, then along `q` |
| Tree.GetSetAt | src/yaml-parser.ts:203-214 | after `parent[key] = v` on the record at `path`, the node at `path + [key]` is `v` |
| Tree.SetAtElsewhere | src/yaml-parser.ts:203-214 | a store changes no path that is neither a prefix nor an extension of the stored one |
| Tree.SetAtKeepsRecords | src/yaml-parser.ts:203-208 | a store keeps every record on the way to its parent a record |
| Tree.SetAtTwice | src/yaml-parser.ts:205-214 | storing twice under one key keeps only the second value |
| YamlParser.ExtractHandlers | src/yaml-parser.ts:36-107 | the loop's result equals the fold of the handler step over all lines |
| YamlParser.HandlerLine | src/yaml-parser.ts:45-75 | one iteration of the handler loop: skip, header, closer, outside the block, no key match, else the key step |
| YamlParser.HandlerKeyLine | src/yaml-parser.ts:77-103 | a key line opens a function scope when it is in the indentation window and not nested, and records a non-empty `handler:` value under the current function |
| YamlParser.ExtractSchemas | src/yaml-parser.ts:109-176 | the loop's result equals the fold of the schema step over all lines |
| YamlParser.SchemaLine | src/yaml-parser.ts:116-144 | one iteration of the schema loop, with the same skip, header and closer branches |
| YamlParser.SchemaKeyLine | src/yaml-parser.ts:146-172 | a key line at indent 1..4 opens a function scope unless nested; a `schema:` whose value is a file reference is recorded with its path |
| YamlParser.PopTo | src/yaml-parser.ts:199-201 | popping keeps a non-empty prefix of the stack whose top is the root or has a smaller indent, and removes only frames with an indent at least the line's |
| YamlParser.TreeLine | src/yaml-parser.ts:185-215 | one iteration of the tree loop, with its pop loop, equals the tree step |
| YamlParser.ParseToObject | src/yaml-parser.ts:178-219 | the loop's root equals the fold of the tree step over all lines |
| YamlProperties.IgnoredLine | src/yaml-parser.ts:44-75 | a blank or comment line, or a line without a key that cannot close the block (indented, or failing `^\S+\s*:`), leaves all three passes' states unchanged |
| YamlProperties.HandlerScopeChange | src/yaml-parser.ts:54-89 | the block flag and scope after a line: a column-0 `functions:` opens the block, a column-0 key line closes it and clears the scope, and in-window keys that are not nested start a function |
| YamlProperties.HandlerEmission | src/yaml-parser.ts:91-103 | a line appends exactly one entry, carrying the comment-stripped value and the current function, when it emits, and nothing otherwise |
| YamlProperties.OpenHeaderInside | src/yaml-parser.ts:54-66 | while the block is open, there is a column-0 `functions:` line with no closer between it and the current line |
| YamlProperties.HandlerScanInv | src/yaml-parser.ts:36-107 | the handler fold keeps its scope, open-block and entry invariants at every prefix of the document |
| YamlProperties.HandlersWellFormed | src/yaml-parser.ts:77-103 | every entry comes from a `handler:` key line inside the `functions:` block, below its function's line, at a greater indent, with a non-empty raw value; no line between the function's line and the entry starts another function, so the function named is the latest one; entries are in strictly increasing line order |
| YamlProperties.ScopeKeeps | src/yaml-parser.ts:77-89 | a line that neither closes the block nor starts a function keeps the current function, which is then still the latest started |
| YamlProperties.CurrentFunctionLine | src/yaml-parser.ts:77-91 | while a function is current, its name line is the one recorded, it is indented 1 to 4, and no later line has closed the block or started another function |
| YamlProperties.HandlersPrefix | src/yaml-parser.ts:44-106 | the entries after `i` lines are a prefix of the entries after any later number of lines, and so of the document's entries |
| YamlProperties.HandlerOrigin | src/yaml-parser.ts:44-106 | every entry after `n` lines is the one its own line records, in the state reached just before that line, and that line comes before `n` |
| YamlProperties.HandlersComplete | src/yaml-parser.ts:91-103 | a line that emits gives the document exactly one entry, the one it records, placed after every entry of earlier lines; a line that does not emit gives none |
| YamlProperties.NoBlockNoHandlers | src/yaml-parser.ts:54-70 | a document without a column-0 `functions:` line has no handler entries |
| YamlProperties.HandlerHeader | src/yaml-parser.ts:54-58 | every handler entry has a `functions:` header line before its function's line |
| YamlProperties.SchemaEmission | src/yaml-parser.ts:159-172 | a line appends exactly one schema entry, whose path is the file reference's path, when it emits, and nothing otherwise |
| YamlProperties.SchemaBlockChange | src/yaml-parser.ts:125-135 | the schema pass opens and closes the block on the same lines as the handler pass |
| YamlProperties.SchemasWellFormed | src/yaml-parser.ts:159-172 | every schema entry comes from a `schema:` key line inside the block whose value is `${file(path)}`, under the named function; entries are in strictly increasing line order |
| YamlProperties.SchemasPrefix | src/yaml-parser.ts:115-175 | the schema entries after `i` lines are a prefix of those after any later number of lines |
| YamlProperties.SchemaOrigin | src/yaml-parser.ts:115-175 | every schema entry after `n` lines is the one its own line records, and that line comes before `n` |
| YamlProperties.SchemasComplete | src/yaml-parser.ts:159-172 | a line that emits gives the document exactly one schema entry, the one it records, after the entries of earlier lines; a line that does not emit gives none |
| YamlProperties.ScopesAgreeAt | src/yaml-parser.ts:125-156 | after every prefix the schema pass has the same block flag, current function and indentation as the handler pass of lines 53-91 |
| YamlProperties.SchemaFunctionAsHandlers | src/yaml-parser.ts:149-172 | the function a schema entry names is the one the handler pass makes current on that line |
| YamlProperties.SchemaNamedBy | src/yaml-parser.ts:149-172 | each schema entry's function is named by a key line at indent 1 to 4 at or before the entry, with no line in between closing the block or starting another function |
| YamlProperties.NoBlockNoSchemas | src/yaml-parser.ts:125-139 | a document without a column-0 `functions:` line has no schema entries |
| YamlProperties.SchemaHeader | src/yaml-parser.ts:125-128 | every schema entry has a `functions:` header line before it |
| YamlProperties.KeyStepStores | src/yaml-parser.ts:196-215 | a key line pops exactly the frames at its indent or deeper, and stores under its parent a new record for `''`, `\|` or `>` and otherwise the unquoted value |
| YamlProperties.KeyStepKeeps | src/yaml-parser.ts:199-215 | a key line keeps the stack well formed: indents rise, each frame's path extends the one below, and each frame names a record |
| YamlProperties.TreeAtOK | src/yaml-parser.ts:180-216 | the stack is well formed after every prefix of the document |
| YamlProperties.BuildTreeIsRecord | src/yaml-parser.ts:178-219 | the parsed data is always a record |
| YamlProperties.ParseLines | src/yaml-parser.ts:23-29 | parsing the join of `\n`-free lines gives the three passes over exactly those lines |
| VariableResolver.TopLevelComma | src/variable-resolver.ts:77-101 | the result is -1 or the index of a comma outside quotes and braces, and no such comma comes earlier |
| VariableResolver.CommaFromLeast | src/variable-resolver.ts:82-100 | the scan from any position finds the least top-level comma from there on |
| VariableResolver.FindTopLevelComma | src/variable-resolver.ts:77-101 | the loop with its three locals returns exactly that index |
| VariableResolver.NoCommaNoSplit | src/variable-resolver.ts:77-101 | an expression without a comma has no top-level comma |
| VariableResolver.FirstPlainComma | src/variable-resolver.ts:85-95 | a comma after a run free of quotes, braces and commas is the top-level comma |
| VariableResolver.LookupPath | src/variable-resolver.ts:60-75 | the loop returns the node reached by descending one record per dot-separated segment, and nothing once a value on the way is missing or not a record |
| VariableResolver.NonSelfIgnoresTree | src/variable-resolver.ts:49-57 | an expression that is not `self:` never reads the tree, and resolves to its default or else its own placeholder |
| VariableResolver.SplitSelf | src/variable-resolver.ts:25-38 | `self:path,d`, with a path free of commas, quotes and braces, splits at the comma after the path into `self:path` and the default trimmed and with one layer of matching quotes removed |
| VariableResolver.SelfWithDefault | src/variable-resolver.ts:25-46 | `self:path,d` resolves to the string form of the value found at the path, and otherwise to `d` trimmed and with one layer of matching quotes removed |
| VariableResolver.UnresolvedIsVerbatim | src/variable-resolver.ts:40-57 | without a default, an expression that is not a found `self:` path resolves to `${expr}` |
| VariableResolver.SelfWithoutComma | src/variable-resolver.ts:40-46 | `self:path` without a comma resolves to the value found, or else stays `${self:path}` |
| VariableResolver.MatchAt | src/variable-resolver.ts:8-13 | the pattern `\$\{[^}]+\}` matches at the start of the string, closing at the brace it returns, exactly when the string starts with `${`, at least one non-`}` character and a `}` |
| VariableResolver.ReplaceNoVar | src/variable-resolver.ts:13-15 | a pass over a string without a placeholder leaves it unchanged |
| VariableResolver.ReplacePlain | src/variable-resolver.ts:13-15 | a pass copies a `$`-free prefix and rewrites the rest |
| VariableResolver.ReplaceVar | src/variable-resolver.ts:13-15 | a pass replaces a leading placeholder with the callback's value for its expression and goes on after it, not rescanning the replacement |
| VariableResolver.PlaceholderHasVar | src/variable-resolver.ts:8 | a string starting with a placeholder passes the test of line 8 |
| VariableResolver.RunPasses | src/variable-resolver.ts:5-18 | the loop returns the result of at most ten passes, stopping early once the test of line 8 fails |
| VariableResolver.ResolveVariables | src/variable-resolver.ts:1-19 | the loop returns the ten-pass resolution of the input against the tree |
| VariableResolver.ResolvedNoVar | src/variable-resolver.ts:8-11 | a string without a placeholder is returned as it is |
| VariableResolver.ResolveNIsPasses | src/variable-resolver.ts:7-16 | the result is the k-th pass for some k up to the bound, and it has no placeholder left when k is below the bound |
| VariableResolver.ResolvedBounded | src/variable-resolver.ts:7-16 | resolution stops after at most ten passes, and earlier only when no placeholder remains |
| VariableResolver.ReplaceFixed | src/variable-resolver.ts:7-16 | once a pass changes nothing, every further pass returns the same string |
| ResolverCases.SelfOnce | src/variable-resolver.ts:40-45 | a found `self:` placeholder followed by `$`-free text resolves to the value followed by that text |
| ResolverCases.SelfTwice | src/variable-resolver.ts:7-16 | a value that itself holds a placeholder is resolved on the next pass |
| ResolverCases.TwoInOnePass | src/variable-resolver.ts:13-15 | two found placeholders in one string are both replaced |
| ResolverCases.DefaultUsed | src/variable-resolver.ts:25-57 | an expression that is not `self:` resolves to its unquoted, trimmed default |
| ResolverCases.QuotedDefault | src/variable-resolver.ts:32-37 | a default in quotes resolves to the text without them |
| ResolverCases.EmptyDefault | src/variable-resolver.ts:29-31 | a comma with nothing after it resolves to the empty string |
| ResolverCases.MissingStays | src/variable-resolver.ts:46 | a missing `self:` path without a default stays as its placeholder |
| ResolverCases.CyclicStays | src/variable-resolver.ts:7-16 | a value that refers back to itself is a fixed point of the passes |
| ResolverCases.SelfVariable | test/test.ts:135-143 | test 6: `${self:custom.prefix}/hello.handler` resolves to `src/functions/hello.handler` |
| ResolverCases.OptDefault | test/test.ts:146-149 | test 7: `${opt:stage, 'dev'}` resolves to `dev` |
| ResolverCases.EnvDefault | test/test.ts:151-152 | test 7: `${env:NODE_ENV, "production"}` resolves to `production` |
| ResolverCases.OptEmptyDefault | src/variable-resolver.ts:29-38 | `${opt:stage,}` resolves to the empty string |
| ResolverCases.UnresolvableVariable | test/test.ts:156-160 | test 8: `${self:custom.missing}` against an empty record stays as it is |
| ResolverCases.NestedVariables | test/test.ts:163-172 | test 9: a value holding a further `self:` placeholder resolves in two passes |
| ResolverCases.MultipleVariables | test/test.ts:175-184 | test 10: two placeholders in one string both resolve |
| ResolverCases.SelfReference | src/variable-resolver.ts:7-16 | `custom.loop` referring to itself leaves `${self:custom.loop}` unchanged after ten passes |
| ParserCases.KeyTextFacts | src/yaml-parser.ts:46-78 | an indented `key: value` line has that indent, is not skipped, matches with exactly that key and value, passes the closer test, and is a header exactly when the key is `functions` |
| ParserCases.HandlerKeyText | src/yaml-parser.ts:48-103 | on such a line the handler step is the header, closer, outside-block or key branch of the source |
| ParserCases.SchemaKeyText | src/yaml-parser.ts:119-172 | on such a line the schema step is the header, closer, outside-block or key branch of the source |
| ParserCases.OtherText | src/yaml-parser.ts:60-75 | an indented line without a key, such as a list item, changes neither scanner |
| ParserCases.FunctionBlock | src/yaml-parser.ts:80-103 | a function with `handler:` and an `events:` list records one entry naming the function and its line, and ends with the function's scope open |
| ParserCases.AroundBlockHandlers | src/yaml-parser.ts:54-91 | in a document with one function in the `functions:` block and sections before and after it, only that function's `handler:` is recorded |
| ParserCases.BasicHandlerExtraction | test/test.ts:28-48 | test 1: the two-function document gives exactly two entries, `hello` then `goodbye`, with the expected raw values and lines |
| ParserCases.NoHandlersOutsideFunctions | test/test.ts:84-103 | test 4: of the three `handler:` keys only the one under `hello` is recorded |
| SchemaCases.NameLine | src/yaml-parser.ts:149-156 | a function's `name:` line at indentation 2, outside any open function's scope, makes that function current at indentation 2 |
| SchemaCases.QuietLine | src/yaml-parser.ts:149-159 | a key other than `schema` nested deeper than the current function changes nothing |
| SchemaCases.ItemLine | src/yaml-parser.ts:141-144 | an indented line without a key, such as `- http:`, changes nothing |
| SchemaCases.ValueLine | src/yaml-parser.ts:159-172 | a `schema:` line under a current function appends what `SchemaOf` gives for its value at that line and function |
| SchemaCases.SchemaOfFileRef | src/yaml-parser.ts:160-171 | a `${file(<path>)}` value with a non-empty path free of `)` gives one entry carrying the value, the path, the line and the function |
| SchemaCases.NotFileRef | src/yaml-parser.ts:161-162 | a value not starting with `$` gives no entry |
| SchemaCases.EventHeadScan | src/yaml-parser.ts:149-156 | a function's name, `handler:`, `events:` and `- http:` lines make it current and record nothing |
| SchemaCases.RequestLinesScan | src/yaml-parser.ts:141-159 | the `path:`, `method:`, `request:`, `schemas:` and media type lines under an event record nothing |
| SchemaCases.SchemaFunctionScan | src/yaml-parser.ts:115-172 | a function with an `http` event whose request has a `schema:` ends with that function current and its schema, if a file reference, appended at the right line |
| SchemaCases.NamedFunctionScan | src/yaml-parser.ts:149-172 | the same with a `name:` line above the `schema:` line |
| SchemaCases.ServiceHeadSchemas | src/yaml-parser.ts:119-128 | the blank lines, `service:` and the `functions:` header only open the block |
| SchemaCases.DocumentSchemas | src/yaml-parser.ts:23-28 | the `schemas` of the parse of a text are the schema scan of its lines |
| SchemaCases.OneFunctionSchemas | src/yaml-parser.ts:109-175 | a document with one such function reports exactly that function's schema, if any |
| SchemaCases.AroundSchemaSchemas | src/yaml-parser.ts:125-139 | a `schema:` under a section before the `functions:` block is not reported; the one under the function is |
| SchemaCases.TwoNamedSchemas | src/yaml-parser.ts:149-172 | two functions report their schemas in document order, each under its own function |
| SchemaCases.TwoNamedDocument | src/yaml-parser.ts:109-175 | for two functions with file-reference schemas the parse reports exactly those two entries, with their paths, lines and functions |
| SchemaCases.BookingSchemas | test/test.ts:187-220 | test 11: the two schemas are `schemas/book-slot.json` under `bookSlot` and `schemas/cancel-slot.json` under `cancelSlot`, in that order |
| SchemaCases.NoSchemasOutsideFunctions | test/test.ts:223-245 | test 12: only `schemas/hello.json`, under `hello`, is reported; the `schema:` under `custom:` is not |
| SchemaCases.NoSchemaWithoutFileRef | test/test.ts:248-267 | test 13: a `schema:` value that is not a file reference gives no entry |
| DataCases.StoreKey | src/yaml-parser.ts:196-215 | a key line whose frame is the highest one indented less than it pops the frames above that one, pushes a record frame for an empty value, stores the record or the value at the key's path, and changes no path off it |
| DataCases.TopStep | src/yaml-parser.ts:196-215 | a top-level `key: value` lands under the root, whatever is open, and changes nothing under other top-level keys |
| DataCases.OpenStep | src/yaml-parser.ts:199-208 | a top-level `sec:` closes every open record and leaves the stack as the root and the new record |
| DataCases.ChildStep | src/yaml-parser.ts:199-215 | a key line more indented than the top frame stores its value in that frame's record and keeps the stack |
| DataCases.SubStep | src/yaml-parser.ts:199-208 | `sub:` inside a section pushes the sub-record's frame above the section's |
| DataCases.NestedSteps | src/yaml-parser.ts:180-216 | a section with a key and a sub-record holding a key stores both values at their paths and nothing under other top-level keys |
| DataCases.SubRecordSteps | src/yaml-parser.ts:180-216 | the sub-record's two lines store the inner value under it and keep the section's other key |
| DataCases.PairSteps | src/yaml-parser.ts:180-216 | a section with two keys stores both values at their paths and nothing under other top-level keys |
| DataCases.SectionsKept | src/yaml-parser.ts:205-214 | values stored by earlier sections survive later sections, which write only under their own top-level keys |
| DataCases.DataTree | src/yaml-parser.ts:178-219 | in a document of a top-level key, a nested section and a two-key section, every value is found at the path of the keys leading to it |
| DataCases.DataParsing | test/test.ts:106-132 | test 5: the data holds `my-service` at `service`, `src/functions` at `custom.prefix`, `deep-value` at `custom.nested.value`, `aws` at `provider.name` and `nodejs18.x` at `provider.runtime` |

## Left out

- `valueStart` (src/yaml-parser.ts:94, 163) is not modelled. It is an editor column computed with `indexOf`, and no other result depends on it.
- Whitespace is ASCII only: `\s` and `trim` cover space, tab, `\n`, `\r`, vertical tab and form feed, not the Unicode spaces JavaScript also accepts.
- Text.Split: JavaScript's `split('\n')` is modelled, but `\r\n` line endings are not treated specially. This matches the source, which keeps the `\r` and lets `trim` remove it.
- The parsed record is a value `Node`, and `parent[key] = child` on an aliased object is modelled as a store at the parent's path. `YamlProperties.KeyStepKeeps` proves every open frame still names a record, which is what makes the two agree. Object identity is not modelled.
- VariableResolver.LookupPath: a key found through the prototype chain of a plain object (for example `constructor` or `__proto__`) is not found in the model; only own keys are.
- Tree.Stringify: `String(value)` on a record is `[object Object]`. The model produces that string, but no scalar other than a string can occur, since the parser stores only strings.
- VariableResolver.ResolveExpression: the `opt:`, `env:` and `file(` branches (src/variable-resolver.ts:49-55) are merged into the final fallback, because all three return the same value.
- Each pass's loop body is its own method (`HandlerLine`, `SchemaLine`, `TreeLine`), and `continue` becomes an early return from it. The order of branches is kept.
- Tests 2 and 3 of test/test.ts are not modelled as concrete documents. What they check is covered for all inputs by `YamlProperties.HandlerEmission` and `HandlersComplete`: the entry holds the value as written, `${...}` included, cut at an inline comment (`Text.StripComment`) and trimmed.
- Text.MatchKey: in JavaScript the `.` of `(.*)$` (src/yaml-parser.ts:72) and of the comment pattern `\s+#.*$` does not match `\r`, `\u2028` or `\u2029`. So a trimmed line with one of these inside fails the key pattern there, while the model accepts it.
- YamlParser.TreeLine: a key named `__proto__` (src/yaml-parser.ts:205-214) sets the prototype of the record in JavaScript instead of adding an own key. The model stores it as an ordinary key.
- The rest of the extension is not part of this model: src/extension.ts, the code-lens and document-link providers, and src/file-resolver.ts. These consist of editor API calls and file system I/O.
