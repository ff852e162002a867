# MicroGenesis core, modelled in Dafny

MicroGenesis scaffolds Spring Boot, Micronaut and GraphQL services from
entity definitions. This project models the parts of it that compute
rather than render templates:

- **The DDL parser** (`DDLParser`). It finds the `CREATE TABLE` statements of
  an SQL script and splits each table's column block on top-level commas. It
  classifies every line as a PRIMARY KEY, FOREIGN KEY, other constraint or
  column line, and infers ManyToOne, OneToMany and ManyToMany relationships
  between the tables. It also maps SQL types to Java and Kotlin types and keys
  the generated entities by class name. The regular expressions become
  deterministic scanners over characters (`DdlScan`). The relationship pass
  updates an array of table values in place; it is specified by a list of
  append events (`DdlRelationships`).
- **The schema relationship mapper** (`SchemaRelationshipMapper`). It adds
  relationship fields to entity definitions from an override mapping. It also
  writes a template mapping over all entity pairs and guesses relationships
  from field types and names. Entities are an array of values that the
  enrichment loop updates in place.
- **The two configuration classes.** The hierarchical `Config` of `src/core`
  has dot-path `get`/`set`, deep merge, `MICROGENESIS_` environment
  overrides, and sections shared with `DEFAULT_CONFIG` through its shallow
  copy. The flat `Config` of `src/microgenesis` is the other one.
- **The `Example` class.**
- **The name-case helpers of the Spring Boot Java generator**, and the
  import collectors of the Kotlin and GraphQL generators.

`Wrappers`, `Strings` and `JsonValue` hold the Option/Result types, models of
Python's string built-ins (`lower`, `split`, `strip`, `title`, `sorted`) and
JSON values.

The code is followed where it differs from what its documentation or its
tests expect:

- The table pattern's column block `([\s\S]*?)\)` stops at the first `)`.
  In a table with a column such as `VARCHAR(50)`, the block therefore ends
  inside that type, and the rest of the columns are never read
  (`DdlScan.BlockStopsAtFirstParen`, `DdlParser.UsersBlockTruncated`). The
  users table of the parser's own test schema keeps one column
  (`username VARCHAR(50`) and no primary key, where the test expects four
  columns and the key `id` (`DdlParser.UsersTableOfTest`).
- An inline `PRIMARY KEY` after a column adds neither a key nor a column
  (`DdlLines.InlinePrimaryKeyVanishes`).

## Model

| member | source | states |
|---|---|---|
| Strings.LowerStr | src/microgenesis/generators/schema/ddl_parser.py:285 | `str.lower()` keeps the length and lowers each character |
| Strings.UpperStr | src/microgenesis/generators/schema/ddl_parser.py:136 | `str.upper()` keeps the length and raises each character |
| Strings.Split | src/core/config.py:138 | `str.split(sep)` always yields at least one piece |
| Strings.SplitJoin | src/core/config.py:138 | split pieces hold no separator, there is one more piece than separators, and re-joining them gives the text back |
| Strings.SplitNoSep | src/core/config.py:138 | a text without the separator splits into itself alone |
| Strings.SplitAtSep | src/core/config.py:138 | the piece before the first separator comes first, then the split of the rest |
| Strings.Remove | src/microgenesis/generators/schema/ddl_parser.py:233-237 | removing a character leaves none of it |
| Strings.TrimLeft | src/microgenesis/generators/schema/ddl_parser.py:104 | the result is a suffix of the input, draws its characters from it, and does not start with a dropped character |
| Strings.TrimRight | src/microgenesis/generators/schema/ddl_parser.py:104 | the result is a prefix of the input, draws its characters from it, and does not end with a dropped character |
| Strings.Strip | src/microgenesis/generators/schema/ddl_parser.py:92 | `str.strip()` leaves no whitespace at either end |
| Strings.StripQuotes | src/microgenesis/generators/schema/ddl_parser.py:104 | `strip('`"')` leaves no quote at either end |
| Strings.TitleFrom | src/microgenesis/generators/schema/ddl_parser.py:235 | title-casing from a given state keeps the length |
| Strings.Title | src/microgenesis/generators/schema/ddl_parser.py:235 | `str.title()` keeps the length |
| Strings.Capitalize | src/generators/spring_boot/java/__init__.py:585 | `str.capitalize()` keeps the length |
| Strings.LowerAll | src/generators/spring_boot/java/__init__.py:624 | each text is lowered, in order; shared by the case helpers and the environment key paths |
| Strings.TrimLeftPadded | src/microgenesis/generators/schema/ddl_parser.py:92 | blanks before a word are all that `lstrip` removes |
| Strings.StripPadded | src/microgenesis/generators/schema/ddl_parser.py:92 | `strip()` of blanks followed by a word that starts and ends with a non-blank gives the word |
| Strings.LessIrreflexive | src/generators/graphql/java/__init__.py:431 | the string order used by `sorted` is irreflexive |
| Strings.LessTransitive | src/generators/graphql/java/__init__.py:431 | the string order is transitive |
| Strings.LessTotal | src/generators/graphql/java/__init__.py:431 | two distinct strings are always ordered one way or the other |
| Strings.HasLeast | src/generators/graphql/java/__init__.py:431 | every non-empty finite set of strings has a least element |
| Strings.SortedList | src/generators/graphql/java/__init__.py:431 | `sorted(list(s))` is strictly ascending and holds exactly the elements of `s`, each once |
| CaseConversion.RunLength | src/generators/spring_boot/java/__init__.py:599 | the alphanumeric run at the start is maximal: every character in it is alphanumeric and the next is not |
| CaseConversion.Words | src/generators/spring_boot/java/__init__.py:599 | every word produced by the substitute-then-split is a non-empty alphanumeric run |
| CaseConversion.CapitalizeAll | src/generators/spring_boot/java/__init__.py:605 | each word is capitalised, in order |
| CaseConversion.ConcatAlnum | src/generators/spring_boot/java/__init__.py:585 | joining alphanumeric words gives an alphanumeric text |
| CaseConversion.CaseMapsKeepAlnum | src/generators/spring_boot/java/__init__.py:585 | capitalising or lowering a word keeps it a word |
| CaseConversion.ToPascalCase | src/generators/spring_boot/java/__init__.py:575-586 | the PascalCase form has alphanumeric characters only, and is empty exactly when the text has no word |
| CaseConversion.CapitalizedAlnum | src/generators/spring_boot/java/__init__.py:585 | capitalising words keeps each one alphanumeric |
| CaseConversion.ToCamelCase | src/generators/spring_boot/java/__init__.py:588-609 | camelCase and PascalCase forms have alphanumeric characters only, and are empty exactly when the text has no word |
| CaseConversion.ToSnakeCase | src/generators/spring_boot/java/__init__.py:611-625 | splitting the snake_case form into words again gives the text's words, lower-cased |
| CaseConversion.ToKebabCase | src/generators/spring_boot/java/__init__.py:627-641 | splitting the kebab-case form into words again gives the text's words, lower-cased |
| CaseConversion.PascalIsCamelCapitalized | src/generators/spring_boot/java/__init__.py:585-605 | `_to_pascal_case(t)`, written on its own, equals `_to_camel_case(t, True)` on every text, and both give "" when there is no word |
| CaseConversion.WordsEmptyIff | src/generators/spring_boot/java/__init__.py:601-602 | a text has no words exactly when it has no alphanumeric character |
| CaseConversion.CamelLowerFirst | src/generators/spring_boot/java/__init__.py:606-607 | camelCase is "" exactly for texts with no alphanumeric character; otherwise it is the first word lowered followed by the rest capitalised, and it never starts with an upper-case letter |
| CaseConversion.JoinShape | src/generators/spring_boot/java/__init__.py:624 | words joined by a non-word separator give a text with no leading, trailing or doubled separator, only word characters and separators, and one separator fewer than words |
| CaseConversion.CountAlnum | src/generators/spring_boot/java/__init__.py:624 | an alphanumeric word holds no separator |
| CaseConversion.LowerAllWords | src/generators/spring_boot/java/__init__.py:624 | lowering keeps every word a word |
| CaseConversion.SnakeShape | src/generators/spring_boot/java/__init__.py:621-625 | snake_case has no leading, trailing or doubled `_`, only alphanumerics and `_`, and one `_` fewer than words |
| CaseConversion.KebabShape | src/generators/spring_boot/java/__init__.py:637-641 | kebab-case has the same shape with `-` |
| CaseConversion.WordsOfWordThen | src/generators/spring_boot/java/__init__.py:599 | a word followed by a non-alphanumeric character, or by nothing, is read back as that word |
| CaseConversion.RunLengthOfWordThen | src/generators/spring_boot/java/__init__.py:599 | the run at the start of such a text is exactly the word |
| CaseConversion.WordsOfJoin | src/generators/spring_boot/java/__init__.py:621-624 | splitting words joined by a non-word separator gives the same words back |
| CaseConversion.LowerAllIdempotent | src/generators/spring_boot/java/__init__.py:624 | lowering every word twice is lowering once |
| CaseConversion.SnakeIdempotent | src/generators/spring_boot/java/__init__.py:621-625 | converting to snake_case twice is the same as once |
| CaseConversion.KebabIdempotent | src/generators/spring_boot/java/__init__.py:637-641 | converting to kebab-case twice is the same as once |
| CaseConversion.WordsOfPair | src/generators/spring_boot/java/__init__.py:599 | two words separated by a space split back into those two words |
| CaseConversion.WordsOfOne | src/generators/spring_boot/java/__init__.py:599 | a single word is its own only word |
| CaseConversion.PascalOfPair | src/generators/spring_boot/java/__init__.py:585 | PascalCase of two words is the two words capitalised and concatenated |
| CaseConversion.PascalOfWord | src/generators/spring_boot/java/__init__.py:585 | PascalCase of a single word capitalises it and lowers the rest of it |
| CaseConversion.HelloWorldWords | src/generators/spring_boot/java/__init__.py:585 | "hello" and "world" are words and capitalise to "Hello" and "World" |
| CaseConversion.HelloWorldJoined | src/generators/spring_boot/java/__init__.py:585 | "HelloWorld" is one word and capitalises to "Helloworld" |
| CaseConversion.PascalNotIdempotent | src/generators/spring_boot/java/__init__.py:585 | PascalCase is not idempotent: "hello world" gives "HelloWorld", and converting that again gives "Helloworld" |
| DdlScan.SkipWhile | src/microgenesis/generators/schema/ddl_parser.py:45 | a greedy character-class run: every character it covers satisfies the class and the next one does not |
| DdlScan.SkipSpaces | src/microgenesis/generators/schema/ddl_parser.py:45 | `\s*` stops at the first non-whitespace character or at the end |
| DdlScan.SkipWhileTo | src/microgenesis/generators/schema/ddl_parser.py:45 | a run ends exactly at the first character that breaks it |
| DdlScan.SkipWord | src/microgenesis/generators/schema/ddl_parser.py:45 | `\w*` covers only word characters and stops at the first other one |
| DdlScan.SkipDigits | src/microgenesis/generators/schema/ddl_parser.py:123 | `\d*` never moves backwards |
| DdlScan.SkipQuote | src/microgenesis/generators/schema/ddl_parser.py:45 | an optional quote consumes at most one character |
| DdlScan.FirstIndexOf | src/microgenesis/generators/schema/ddl_parser.py:45 | the position found holds one of the characters and none comes before it; with no position, none occurs |
| DdlScan.FirstIndexAt | src/microgenesis/generators/schema/ddl_parser.py:45 | the first occurrence is found at exactly that position |
| DdlScan.SearchFinds | src/microgenesis/generators/schema/ddl_parser.py:46 | a successful search returns the match at the first position where the pattern matches |
| DdlScan.SearchFails | src/microgenesis/generators/schema/ddl_parser.py:46 | a search fails exactly when the pattern matches at no position |
| DdlScan.TailEnd | src/microgenesis/generators/schema/ddl_parser.py:45 | the lazy tail up to `;` or the end stays inside the text |
| DdlScan.NameAndBlockAt | src/microgenesis/generators/schema/ddl_parser.py:45 | a table match has a non-empty word-character name and a column block holding no `)` |
| DdlScan.BlockStopsAtFirstParen | src/microgenesis/generators/schema/ddl_parser.py:45 | the column block is exactly the text between the opening `(` and the first `)` after it |
| DdlScan.NameAndBlockOfScan | src/microgenesis/generators/schema/ddl_parser.py:45 | the match is assembled from the positions where the sub-scanners stop |
| DdlScan.BlockOfParts | src/microgenesis/generators/schema/ddl_parser.py:45 | for a text built as a name, blanks, `(`, a text without `)`, `)` and anything after, the match gives that name and that block |
| DdlScan.TableAt | src/microgenesis/generators/schema/ddl_parser.py:45 | the full statement pattern, with the optional IF NOT EXISTS group, matches a word name and a block without `)` |
| DdlScan.Statements | src/microgenesis/generators/schema/ddl_parser.py:46-51 | every statement found by `finditer` has a non-empty word-character name and a block without `)` |
| DdlScan.NextStatement | src/microgenesis/generators/schema/ddl_parser.py:46 | the next statement found ends after where the search started |
| DdlScan.SpacedPairFromIff | src/microgenesis/generators/schema/ddl_parser.py:99 | the search for `W1\s+W2` from a position succeeds exactly when the pattern matches at or after it |
| DdlScan.SpacedPairWitness | src/microgenesis/generators/schema/ddl_parser.py:99 | a successful search names a position where the pattern matches |
| DdlScan.SpacedPairFromOf | src/microgenesis/generators/schema/ddl_parser.py:99 | a match at a position is found by any search starting at or before it |
| DdlScan.HasSpacedPairIff | src/microgenesis/generators/schema/ddl_parser.py:129 | `re.search(r'W1\s+W2', line, re.IGNORECASE)` succeeds exactly when the pattern matches somewhere |
| DdlScan.WordFromIff | src/microgenesis/generators/schema/ddl_parser.py:122 | the keyword search from a position succeeds exactly when the keyword occurs at or after it |
| DdlScan.ContainsWordIff | src/microgenesis/generators/schema/ddl_parser.py:122 | the keyword search succeeds exactly when the keyword occurs somewhere, case-insensitively |
| DdlScan.KeywordAbsent | src/microgenesis/generators/schema/ddl_parser.py:99-122 | a text whose lowered form lacks some letter of a keyword matches neither the keyword nor the keyword followed by blanks and another word |
| DdlScan.SpacedPairOfParts | src/microgenesis/generators/schema/ddl_parser.py:99 | two words written in any case with one blank between them match `W1\s+W2` |
| DdlScan.ParenGroupAt | src/microgenesis/generators/schema/ddl_parser.py:100 | `\((.*?)\)` captures no `)` and no line feed |
| DdlScan.ParenNameAt | src/microgenesis/generators/schema/ddl_parser.py:109-111 | the parenthesised column that ends both foreign-key patterns is one or more word characters |
| DdlScan.ForeignKeyColumnAt | src/microgenesis/generators/schema/ddl_parser.py:109 | the captured column is one or more word characters |
| DdlScan.ReferencedNameAt | src/microgenesis/generators/schema/ddl_parser.py:110-111 | the captured table is one or more word characters, and the match ends within the text |
| DdlScan.ReferencedTableAt | src/microgenesis/generators/schema/ddl_parser.py:110 | the captured table is one or more word characters |
| DdlScan.ReferencedColumnAt | src/microgenesis/generators/schema/ddl_parser.py:111 | the captured column is one or more word characters |
| DdlScan.ForeignKeyColumn | src/microgenesis/generators/schema/ddl_parser.py:109 | the column of the first match is one or more word characters |
| DdlScan.ReferencedTable | src/microgenesis/generators/schema/ddl_parser.py:110 | the table of the first match is one or more word characters |
| DdlScan.ReferencedColumn | src/microgenesis/generators/schema/ddl_parser.py:111 | the column of the first match is one or more word characters |
| DdlScan.TypeParamsEnd | src/microgenesis/generators/schema/ddl_parser.py:123 | the optional `(n[, m])` type parameters end after where they start |
| DdlScan.ColumnDefAt | src/microgenesis/generators/schema/ddl_parser.py:123 | a column match gives a non-empty word-character name and a type starting with a word character |
| DdlScan.PrimaryKeyGroup | src/microgenesis/generators/schema/ddl_parser.py:100-102 | the key group of a PRIMARY KEY line holds no `)` |
| DdlScan.ColumnDef | src/microgenesis/generators/schema/ddl_parser.py:123-126 | the first column match on a line gives a word-character name and a type starting with a word character |
| DdlScan.NoDefault | src/microgenesis/generators/schema/ddl_parser.py:129-130 | a line without the word DEFAULT has no default value |
| DdlModel.LowerKeepsUnderscore | src/microgenesis/generators/schema/ddl_parser.py:233 | lower-casing neither adds nor removes an underscore |
| DdlModel.RemoveLength | src/microgenesis/generators/schema/ddl_parser.py:233-237 | removing a character shortens the text by its number of occurrences |
| DdlModel.TitledConcat | src/microgenesis/generators/schema/ddl_parser.py:235 | titling the pieces and joining them changes only letter case: the result lowers to the lowered concatenation |
| DdlModel.LowerTitleFrom | src/microgenesis/generators/schema/ddl_parser.py:235 | `title()` changes only letter case |
| DdlModel.ConcatSplit | src/microgenesis/generators/schema/ddl_parser.py:233-237 | concatenating the `split('_')` pieces removes the underscores and nothing else |
| DdlModel.DdlCamelSpec | src/microgenesis/generators/schema/ddl_parser.py:223-237 | `_to_camel_case` changes only letter case and drops the underscores: it leaves no `_`, its length drops by their number, and it lowers to the lowered input without them |
| DdlModel.TitleWord | src/microgenesis/generators/schema/ddl_parser.py:235 | `title()` of a word of letters raises its first letter and lowers the rest |
| DdlModel.SplitPair | src/microgenesis/generators/schema/ddl_parser.py:233 | two underscore-free pieces joined by `_` split back into those pieces |
| DdlModel.DdlCamelOfPair | src/microgenesis/generators/schema/ddl_parser.py:234-237 | the class name of `a_b` titles both pieces; the field name keeps `a` and titles `b` |
| DdlModel.DdlCamelClassName | src/microgenesis/generators/schema/ddl_parser.py:235 | the table `order_items` gets the class name `OrderItems` |
| DdlModel.DdlCamelFieldName | src/microgenesis/generators/schema/ddl_parser.py:237 | the column `user_id` gets the field name `userId` |
| DdlLines.SplitPreservingParentheses | src/microgenesis/generators/schema/ddl_parser.py:239-274 | the character loop computes the pieces defined by `SplitParens` |
| DdlLines.ScanDepth | src/microgenesis/generators/schema/ddl_parser.py:250-264 | the nesting level while scanning is the level of the text read so far, which is the level of the current piece |
| DdlLines.ScanNoTopComma | src/microgenesis/generators/schema/ddl_parser.py:265-267 | no piece, finished or current, holds a comma outside parentheses |
| DdlLines.ScanJoin | src/microgenesis/generators/schema/ddl_parser.py:265-269 | the finished pieces and the current piece, joined by commas, give back the text read |
| DdlLines.ScanAfter | src/microgenesis/generators/schema/ddl_parser.py:239-274 | text without a comma after the scan state only extends the current piece |
| DdlLines.DepthFlat | src/microgenesis/generators/schema/ddl_parser.py:239-274 | text without parentheses stays at nesting level 0 |
| DdlLines.SplitTwo | src/microgenesis/generators/schema/ddl_parser.py:239-274 | a parenthesis-free piece, a comma and a comma-free piece split into exactly those two pieces |
| DdlLines.SplitParensRoundTrip | src/microgenesis/generators/schema/ddl_parser.py:239-274 | joining the pieces with commas gives the text back, less a final top-level comma whose empty last piece is dropped |
| DdlLines.SplitParensNoTopComma | src/microgenesis/generators/schema/ddl_parser.py:239-274 | every piece is free of commas outside parentheses |
| DdlLines.PrimaryKeyNames | src/microgenesis/generators/schema/ddl_parser.py:103-105 | a key group yields one name per comma-separated piece, none holding a comma |
| DdlLines.SplitPrimaryKeyGroup | src/microgenesis/generators/schema/ddl_parser.py:103-105 | the loop over `pk_cols.split(',')` computes exactly `PrimaryKeyNames` |
| DdlLines.ColumnOf | src/microgenesis/generators/schema/ddl_parser.py:123-139 | a parsed column has a non-empty name and an underscore-free field name, and is nullable exactly when the line has no `NOT\s+NULL` |
| DdlLines.PlainColumn | src/microgenesis/generators/schema/ddl_parser.py:120-139 | a column line without NOT NULL and DEFAULT gives a nullable column without a default, its type upper-cased and its field name camel-cased |
| DdlLines.ForeignKeyOf | src/microgenesis/generators/schema/ddl_parser.py:108-119 | each name of a foreign key found is one or more word characters |
| DdlLines.Classify | src/microgenesis/generators/schema/ddl_parser.py:92-139 | the branches in the parser's order, each an if-and-only-if on the stripped line: blank; else `PRIMARY\s+KEY`; else `FOREIGN\s+KEY`, read by `ForeignKeyOf`; else one of CONSTRAINT, INDEX or KEY, ignored; else a column, read by `ColumnOf`. So an inline key hides the column |
| DdlLines.Kinds | src/microgenesis/generators/schema/ddl_parser.py:91-139 | each line is classified, in order |
| DdlLines.ParseLine | src/microgenesis/generators/schema/ddl_parser.py:91-139 | the loop body adds exactly the contribution of the line's classification |
| DdlLines.CollectStep | src/microgenesis/generators/schema/ddl_parser.py:91 | one more line extends the three lists by that line's contribution |
| DdlLines.CollectTwo | src/microgenesis/generators/schema/ddl_parser.py:91-139 | two lines give the first line's additions, then the second's |
| DdlLines.CollectNothingThenColumn | src/microgenesis/generators/schema/ddl_parser.py:91-139 | two lines, the first adding nothing and the second one column, give that column and no key |
| DdlLines.ParseColumnsAndConstraints | src/microgenesis/generators/schema/ddl_parser.py:72-141 | the result is the contributions of the classified pieces, collected in order |
| DdlLines.ForeignKeysFromLines | src/microgenesis/generators/schema/ddl_parser.py:108-119 | a foreign key is in the result exactly when some FOREIGN KEY line's three sub-matches all succeed and give it |
| DdlLines.ColumnsFromLines | src/microgenesis/generators/schema/ddl_parser.py:122-139 | a column is in the result exactly when some column line's match succeeds and gives it |
| DdlLines.PrimaryKeyFromLines | src/microgenesis/generators/schema/ddl_parser.py:99-105 | a name is a primary-key column exactly when some PRIMARY KEY line lists it |
| DdlLines.AtMostOnePerLine | src/microgenesis/generators/schema/ddl_parser.py:107-139 | each line adds at most one column or foreign key |
| DdlLines.KeyLinesAreNotColumns | src/microgenesis/generators/schema/ddl_parser.py:122 | a line mentioning KEY, PRIMARY KEY or FOREIGN KEY is never read as a column |
| DdlLines.InlinePrimaryKeyVanishes | src/microgenesis/generators/schema/ddl_parser.py:99-101 | an inline PRIMARY KEY with no parenthesis on its line adds nothing |
| DdlRelationships.Lookup | src/microgenesis/generators/schema/ddl_parser.py:150 | `table_map[name]` is the last table with that name |
| DdlRelationships.FkEventsShape | src/microgenesis/generators/schema/ddl_parser.py:154-172 | a foreign key appends nothing, or a ManyToOne on its own table and then a OneToMany on the table it references; it appends both exactly when a table of that name exists |
| DdlRelationships.IsJunction | src/microgenesis/generators/schema/ddl_parser.py:176-192 | a junction table has exactly two foreign keys, and each references a table that was parsed |
| DdlRelationships.JunctionEventsShape | src/microgenesis/generators/schema/ddl_parser.py:186-218 | a candidate appends nothing, or, exactly when it is a junction table, a ManyToMany record on the table each of its two keys references, first key first |
| DdlRelationships.Inferred | src/microgenesis/generators/schema/ddl_parser.py:143-177 | inference keeps the number of tables |
| DdlRelationships.DeliveredAppend | src/microgenesis/generators/schema/ddl_parser.py:159-172 | what a table receives from two runs of appends is what it receives from each, in order |
| DdlRelationships.ApplyAppend | src/microgenesis/generators/schema/ddl_parser.py:159-172 | applying two runs of appends one after the other is applying them together |
| DdlRelationships.NothingDelivered | src/microgenesis/generators/schema/ddl_parser.py:155 | no appends deliver nothing to any table |
| DdlRelationships.DeliveredPair | src/microgenesis/generators/schema/ddl_parser.py:159-172 | the first of two appends reaches a table exactly when it is aimed at that table |
| DdlRelationships.AppliedUpToIff | src/microgenesis/generators/schema/ddl_parser.py:153 | the loop invariant holds exactly when every table seen so far has its expected value |
| DdlRelationships.AppliedIff | src/microgenesis/generators/schema/ddl_parser.py:153 | the whole-array invariant holds exactly when every table has its expected value |
| DdlRelationships.AppliedStart | src/microgenesis/generators/schema/ddl_parser.py:143-150 | before either loop, the tables are as parsed |
| DdlRelationships.AppliedSkeleton | src/microgenesis/generators/schema/ddl_parser.py:153-177 | the passes keep each table's name, class, columns and keys |
| DdlRelationships.AppliedStep | src/microgenesis/generators/schema/ddl_parser.py:153-177 | a step that applies new appends, and possibly one junction flag, keeps the invariant with the history extended |
| DdlRelationships.AppliedInferred | src/microgenesis/generators/schema/ddl_parser.py:143-177 | once every append and flag is applied, the tables are the inferred ones |
| DdlRelationships.ProcessRelationships | src/microgenesis/generators/schema/ddl_parser.py:143-177 | `_process_relationships` turns the array into `Inferred` of its old contents |
| DdlRelationships.ForeignKeyPass | src/microgenesis/generators/schema/ddl_parser.py:153-172 | after the first loop the tables hold exactly the foreign-key appends |
| DdlRelationships.JunctionPass | src/microgenesis/generators/schema/ddl_parser.py:175-177 | after the second loop they also hold the junction appends and flags |
| DdlRelationships.BuildTableMap | src/microgenesis/generators/schema/ddl_parser.py:150 | the dictionary maps each name to the last table with that name |
| DdlRelationships.AddForeignKeyRelationships | src/microgenesis/generators/schema/ddl_parser.py:154-172 | one table's foreign keys add their appends in key order |
| DdlRelationships.AddForeignKey | src/microgenesis/generators/schema/ddl_parser.py:155-172 | a key whose table exists adds a ManyToOne and a OneToMany; a dangling key adds nothing |
| DdlRelationships.AddForeignKeyPair | src/microgenesis/generators/schema/ddl_parser.py:159-172 | the two appends for an existing referenced table change only those relationship lists |
| DdlRelationships.ProcessJunctionTable | src/microgenesis/generators/schema/ddl_parser.py:179-221 | a candidate with exactly two resolvable foreign keys gets both ManyToMany appends and its flag; any other candidate changes nothing |
| DdlRelationships.AddManyToManyPair | src/microgenesis/generators/schema/ddl_parser.py:192-221 | both referenced tables get their ManyToMany record, and the junction table its flag |
| DdlRelationships.ApplyPair | src/microgenesis/generators/schema/ddl_parser.py:159-172 | two appends add their records to the tables they aim at, the first before the second |
| DdlRelationships.GainsFlatten | src/microgenesis/generators/schema/ddl_parser.py:153-177 | what a run made of blocks gives a table of one kind is what the blocks give, block by block |
| DdlRelationships.DeliveredFlatten | src/microgenesis/generators/schema/ddl_parser.py:153-177 | a record one block of a run delivers, the whole run delivers |
| DdlRelationships.JunctionEventKinds | src/microgenesis/generators/schema/ddl_parser.py:197-218 | one junction candidate appends ManyToMany records only |
| DdlRelationships.OfKindAppend | src/microgenesis/generators/schema/ddl_parser.py:159 | selecting one kind distributes over concatenation |
| DdlRelationships.GainsAppend | src/microgenesis/generators/schema/ddl_parser.py:159 | what a table gains of one kind from two runs is what it gains from each |
| DdlRelationships.GainsNone | src/microgenesis/generators/schema/ddl_parser.py:159 | two runs that each give nothing of a kind together give nothing |
| DdlRelationships.GainsPair | src/microgenesis/generators/schema/ddl_parser.py:159 | from two appends a table gains the first one's record when it targets it with that kind |
| DdlRelationships.FkManyToOne | src/microgenesis/generators/schema/ddl_parser.py:159-164 | a foreign key gives its own table its ManyToOne, and no other table any |
| DdlRelationships.FkOneToMany | src/microgenesis/generators/schema/ddl_parser.py:167-172 | a foreign key gives the table it references one OneToMany back to the owning table |
| DdlRelationships.FkManyToMany | src/microgenesis/generators/schema/ddl_parser.py:155-172 | a foreign key adds no ManyToMany |
| DdlRelationships.OwnManyToOnes | src/microgenesis/generators/schema/ddl_parser.py:154-164 | a table's keys give it one ManyToOne per resolvable key, in key order |
| DdlRelationships.OtherManyToOnes | src/microgenesis/generators/schema/ddl_parser.py:159 | a table's keys give no other table a ManyToOne |
| DdlRelationships.TableOneToManys | src/microgenesis/generators/schema/ddl_parser.py:167-172 | a table's keys give each referenced table one OneToMany per key that references it |
| DdlRelationships.DirectManyToOnes | src/microgenesis/generators/schema/ddl_parser.py:153-164 | after visiting table `t`, the foreign-key pass has given `t` exactly its own ManyToOnes |
| DdlRelationships.DirectOneToManys | src/microgenesis/generators/schema/ddl_parser.py:153-172 | the OneToManys a table gains are one per key referencing it, in table order |
| DdlRelationships.JunctionKinds | src/microgenesis/generators/schema/ddl_parser.py:197-218 | the junction pass appends ManyToMany records only |
| DdlRelationships.DirectKinds | src/microgenesis/generators/schema/ddl_parser.py:153-172 | the foreign-key pass appends no ManyToMany |
| DdlRelationships.TableKinds | src/microgenesis/generators/schema/ddl_parser.py:154-172 | one table's keys append no ManyToMany |
| DdlRelationships.InferredManyToOnes | src/microgenesis/generators/schema/ddl_parser.py:154-164 | a table's inferred ManyToOnes are exactly one per resolvable key, in key order |
| DdlRelationships.InferredOneToManys | src/microgenesis/generators/schema/ddl_parser.py:166-172 | a table's inferred OneToManys are exactly one per key, of any table in table order, that references it |
| DdlRelationships.InferredManyToManys | src/microgenesis/generators/schema/ddl_parser.py:175-221 | the ManyToMany records a table gains are those of the junction tables in table order, one per key that references it, first key first, with join and inverse join columns as the source assigns them |
| DdlRelationships.JunctionManyToManys | src/microgenesis/generators/schema/ddl_parser.py:175-177 | the junction pass over the first `n` tables delivers to a table exactly the reference ManyToMany records of those tables |
| DdlRelationships.PairManyToManys | src/microgenesis/generators/schema/ddl_parser.py:186-218 | one junction candidate delivers to a table exactly its reference ManyToMany records |
| DdlRelationships.ManyToManyRefBlocks | src/microgenesis/generators/schema/ddl_parser.py:175-177 | the reference records are the concatenation of each table's block |
| DdlRelationships.PairBlocks | src/microgenesis/generators/schema/ddl_parser.py:175-177 | block `i` holds table `i`'s reference ManyToMany records |
| DdlRelationships.NoJunctionNoManyToMany | src/microgenesis/generators/schema/ddl_parser.py:175-177 | without a junction table no table gains a ManyToMany |
| DdlRelationships.NoJunctionEvents | src/microgenesis/generators/schema/ddl_parser.py:176 | with no junction among the first tables, the junction pass appends nothing |
| DdlRelationships.JunctionDelivered | src/microgenesis/generators/schema/ddl_parser.py:175-177 | a record that one junction table delivers survives to the end of the junction pass |
| DdlRelationships.DeliveredKept | src/microgenesis/generators/schema/ddl_parser.py:159 | a record delivered by either part of a run is delivered by the whole |
| DdlRelationships.JunctionSymmetry | src/microgenesis/generators/schema/ddl_parser.py:197-218 | a junction table links its two referenced tables both ways, with the join and inverse join columns swapped |
| DdlRelationships.NoForeignKeysNoChange | src/microgenesis/generators/schema/ddl_parser.py:143-177 | without foreign keys inference changes nothing |
| DdlRelationships.NoDirectEvents | src/microgenesis/generators/schema/ddl_parser.py:154 | tables without foreign keys produce no appends |
| DdlParser.ParseTables | src/microgenesis/generators/schema/ddl_parser.py:49-65 | the statement loop builds one table per CREATE TABLE match, in the order of the matches |
| DdlParser.ParsedTables | src/microgenesis/generators/schema/ddl_parser.py:49-65 | one table per statement |
| DdlParser.ParseDdl | src/microgenesis/generators/schema/ddl_parser.py:33-70 | `parse_ddl` returns one table per CREATE TABLE statement, then inference over all of them |
| DdlParser.ParsedTableShape | src/microgenesis/generators/schema/ddl_parser.py:56-63 | each parsed table carries its statement's name and the class name of that name, with no relationships and no junction flag |
| DdlParser.InferenceOnlyAppends | src/microgenesis/generators/schema/ddl_parser.py:143-221 | inference keeps each table's name, class, columns and keys, and only appends to its relationships |
| DdlParser.JavaType | src/microgenesis/generators/schema/ddl_parser.py:276-306 | every SQL type gets one of the nine Java type names |
| DdlParser.KotlinType | src/microgenesis/generators/schema/ddl_parser.py:429-459 | every SQL type gets one of the nine Kotlin type names |
| DdlParser.JavaTypeOrdered | src/microgenesis/generators/schema/ddl_parser.py:276-306 | the corrected map gives one of the same Java type names |
| DdlParser.ContainsPart | src/microgenesis/generators/schema/ddl_parser.py:287 | a text containing a keyword contains every part of it |
| DdlParser.KeywordInclusions | src/microgenesis/generators/schema/ddl_parser.py:287-302 | every type holding a longer keyword holds the shorter one tested before it |
| DdlParser.BigintIsInteger | src/microgenesis/generators/schema/ddl_parser.py:287-290 | a BIGINT column maps to `Integer` in Java and `Int` in Kotlin |
| DdlParser.UnreachableBranches | src/microgenesis/generators/schema/ddl_parser.py:289-302 | neither map ever returns `Long` or `LocalDateTime` |
| DdlParser.KotlinFollowsJava | src/microgenesis/generators/schema/ddl_parser.py:438-459 | the Kotlin map is the Java map with `Int` for `Integer` and `ByteArray` for `byte[]` |
| DdlParser.StringFallback | src/microgenesis/generators/schema/ddl_parser.py:305-306 | `String` is returned exactly for types holding none of the deciding keywords |
| DdlParser.DatetimeIsDate | src/microgenesis/generators/schema/ddl_parser.py:297-298 | a DATETIME column becomes `LocalDate`, because the `date` test comes first |
| DdlParser.TimestampIsTime | src/microgenesis/generators/schema/ddl_parser.py:299-300 | a TIMESTAMP column becomes `LocalTime`, because the `time` test comes first |
| DdlParser.OrderedMapsWideTypes | src/microgenesis/generators/schema/ddl_parser.py:289-302 | with longer keywords tested first, BIGINT is `Long` and DATETIME and TIMESTAMP are `LocalDateTime` |
| DdlParser.OrderedAgreesElsewhere | src/microgenesis/generators/schema/ddl_parser.py:287-306 | apart from those three keywords, the reordered map agrees with the map as written |
| DdlParser.GenerateEntities | src/microgenesis/generators/schema/ddl_parser.py:308-336 | entities are keyed by the class names of the non-junction tables, the last such table wins, and an unsupported language gives none |
| DdlParser.UsersBlockTruncated | tests/test_ddl_parser.py:19-21 | from the table name on, the pattern reads the test's users statement as the name `users` and a block that ends at `username VARCHAR(50`, so the later columns are never read |
| DdlParser.UsersBlockHasNoParen | tests/test_ddl_parser.py:19-21 | that block holds no `)` |
| DdlParser.UsersBlockLines | tests/test_ddl_parser.py:19-21 | the block splits into the `id` line and the cut `username` line |
| DdlParser.UsersLineChars | tests/test_ddl_parser.py:20-21 | the `id` line has no comma or parenthesis; the cut `username` line has no comma and no `)` |
| DdlParser.IndentBlank | tests/test_ddl_parser.py:20-21 | the indentation is blank, and stripping leaves each line |
| DdlParser.IdLinePrimaryKey | tests/test_ddl_parser.py:20 | the `id` line holds `PRIMARY KEY` and no `(` |
| DdlParser.IdLineHasNoParen | tests/test_ddl_parser.py:20 | the `id` line has no `(` |
| DdlParser.IdLineAdds | tests/test_ddl_parser.py:20 | the `id` line adds neither a column nor a key, since its key has no parenthesised group |
| DdlParser.NameLineLetters | tests/test_ddl_parser.py:21 | the cut `username` line lacks the letters that start or fill the key words |
| DdlParser.NameLineNoKeys | tests/test_ddl_parser.py:21 | the cut `username` line holds none of the key words, so it is read as a column |
| DdlParser.NameLineWords | tests/test_ddl_parser.py:21 | where the name and type words of the cut `username` line end |
| DdlParser.NameLineSize | tests/test_ddl_parser.py:21 | the unclosed `(50` is not part of the type token |
| DdlParser.NameLineDef | tests/test_ddl_parser.py:21 | the column pattern reads the name `username` and the type `VARCHAR` |
| DdlParser.UpperCaseType | tests/test_ddl_parser.py:21 | `VARCHAR` upper-cases to itself |
| DdlParser.NameLineColumn | tests/test_ddl_parser.py:21 | the cut `username` line gives a nullable `username` column of type `VARCHAR` without a default |
| DdlParser.NameLineAdds | tests/test_ddl_parser.py:21 | the cut `username` line adds exactly that column |
| DdlParser.UsersBlockColumns | tests/test_ddl_parser.py:19-21 | the block gives the single `username` column, no primary key and no foreign key |
| DdlParser.UsersTableOfTest | tests/test_ddl_parser.py:19-24 | the users table of the test schema is parsed with the name `users`, the one `username` column, an empty primary key and no foreign keys |
| RelationshipMapper.FieldFor | src/generators/schema/relationship_mapper.py:81-116 | only the four recognised types add a field; to-one fields are named as given and typed as the target, to-many fields are `<name>List` of `List<target>` |
| RelationshipMapper.OneFieldPerEntry | src/generators/schema/relationship_mapper.py:65-116 | without a missing target, exactly one field is added per entry with an existing target and a recognised type |
| RelationshipMapper.DefaultEntry | src/generators/schema/relationship_mapper.py:67-68 | an entry naming only its target gets a one-to-many field named after the lower-cased target |
| RelationshipMapper.FailureIsFinal | src/generators/schema/relationship_mapper.py:66-68 | after an entry without a target, later entries add nothing |
| RelationshipMapper.AddedStep | src/generators/schema/relationship_mapper.py:65-116 | one more entry adds what its target, type and field name say |
| RelationshipMapper.LastIndex | src/generators/schema/relationship_mapper.py:55 | `entity_map` maps every name to the last entity with that name |
| RelationshipMapper.FirstOrder | src/generators/schema/relationship_mapper.py:55 | the dictionary's keys are the distinct names, in first-occurrence order |
| RelationshipMapper.BuildEntityMap | src/generators/schema/relationship_mapper.py:55 | the loop builds exactly that index and key order |
| RelationshipMapper.EntityMapKeyed | src/generators/schema/relationship_mapper.py:55-59 | the index and key order describe the same names, without repeats |
| RelationshipMapper.EnrichedUpTo | src/generators/schema/relationship_mapper.py:59-116 | enrichment keeps the number of entities and their names |
| RelationshipMapper.FailurePos | src/generators/schema/relationship_mapper.py:66-68 | the first failing key position lies within the range searched |
| RelationshipMapper.EnrichedUpToFacts | src/generators/schema/relationship_mapper.py:59-116 | an entity is extended once its key has been visited, if it is the dictionary's entity for that name and has overrides, and is unchanged otherwise |
| RelationshipMapper.TemplatesFor | src/generators/schema/relationship_mapper.py:137-150 | every template entry aims at another existing entity and carries the default settings |
| RelationshipMapper.TemplateCount | src/generators/schema/relationship_mapper.py:137-150 | each entity not named like the source contributes exactly one entry |
| RelationshipMapper.TemplatesCoverOthers | src/generators/schema/relationship_mapper.py:137-150 | every entity of another name is the target of some entry |
| RelationshipMapper.DistinctNamesTemplates | src/generators/schema/relationship_mapper.py:137-150 | with distinct names, a source gets one entry per other entity |
| RelationshipMapper.CountOne | src/generators/schema/relationship_mapper.py:139 | with distinct names, a present name occurs once |
| RelationshipMapper.CountNone | src/generators/schema/relationship_mapper.py:139 | an absent name occurs no times |
| RelationshipMapper.DetectField | src/generators/schema/relationship_mapper.py:184-218 | a detected relationship aims at an entity; it is one-to-many exactly for `List<...>` types, and many-to-one otherwise |
| RelationshipMapper.ListRule | src/generators/schema/relationship_mapper.py:184-195 | `List<x>` suggests a one-to-many to `x` exactly when `x` is an entity |
| RelationshipMapper.IdRule | src/generators/schema/relationship_mapper.py:208-218 | a field `wId` of a non-entity type suggests a many-to-one to `w` capitalised, under the field name `w` |
| RelationshipMapper.DetectedIn | src/generators/schema/relationship_mapper.py:179-218 | at most one suggestion per field, each aimed at an entity |
| RelationshipMapper.TemplateEntries | src/generators/schema/relationship_mapper.py:137-150 | the inner loop yields the template entries, or fails exactly when it meets an empty target name |
| RelationshipMapper.NamesStep | src/generators/schema/relationship_mapper.py:171 | the set of names grows by one entity's name at a time |
| RelationshipMapper.DetectAll | src/generators/schema/relationship_mapper.py:179-218 | the field loop computes exactly the suggestions of the entity's fields |
| RelationshipMapper.DetectedMatchesStep | src/generators/schema/relationship_mapper.py:175-177 | the entity loop keeps, for every name seen, the suggestions of its last entity |
| RelationshipMapper.NonEmptyDetections | src/generators/schema/relationship_mapper.py:220 | dropping the empty lists keeps exactly the names with suggestions |
| RelationshipMapper.LastIndexSnoc | src/generators/schema/relationship_mapper.py:55 | a later entity replaces earlier ones of the same name |
| RelationshipMapper.NamesOfElements | src/generators/schema/relationship_mapper.py:171 | the set comprehension is the set of names |
| RelationshipMapper.GatherStep | src/generators/schema/relationship_mapper.py:119 | visiting a key changes only that key's entity, so the entities gathered for earlier keys stay current |
| RelationshipMapper.FailurePosFrom | src/generators/schema/relationship_mapper.py:59-68 | searching for the first failure from an earlier position gives the same answer when none lies between |
| RelationshipMapper.JoinColumnIgnoresFieldName | src/generators/schema/relationship_mapper.py:85 | as written, any two to-one fields on the same target get the same annotations, whereas the intended annotations of two differently named fields differ |
| RelationshipMapper.JoinColumnFor | src/generators/schema/relationship_mapper.py:85 | the intended join column carries the field name, followed by `_id` |
| RelationshipMapper.JoinColumnInjective | src/generators/schema/relationship_mapper.py:85 | distinct field names give distinct intended join columns |
| RelationshipMapper.FieldForIntended | src/generators/schema/relationship_mapper.py:81-116 | the field of `FieldFor`, with the join column naming the field |
| RelationshipMapper.IntendedJoinColumnNamesField | src/generators/schema/relationship_mapper.py:93 | with the intended annotation, two to-one fields share annotations exactly when they share a name |
| RelationshipMapper.SchemaRelationshipMapper.constructor | src/generators/schema/relationship_mapper.py:15-25 | a mapper built without a file has no overrides |
| RelationshipMapper.SchemaRelationshipMapper.LoadMappingFile | src/generators/schema/relationship_mapper.py:27-39 | the overrides become the parsed mapping, or none at all when reading or parsing fails |
| RelationshipMapper.SchemaRelationshipMapper.AddRelationshipFields | src/generators/schema/relationship_mapper.py:61-116 | only entity `i` changes: it gains the fields its overrides add, and the call reports whether a missing target stopped it |
| RelationshipMapper.SchemaRelationshipMapper.EnrichEntities | src/generators/schema/relationship_mapper.py:41-121 | with no overrides the entities come back unchanged; otherwise each distinct name's entity is enriched in first-occurrence order and returned once; a missing target raises, keeping the fields added so far |
| RelationshipMapper.SchemaRelationshipMapper.EnrichOne | src/generators/schema/relationship_mapper.py:59-119 | one loop iteration advances the enrichment by one key and fails exactly when that key's overrides meet a missing target |
| RelationshipMapper.SchemaRelationshipMapper.EnrichInOrder | src/generators/schema/relationship_mapper.py:59-121 | the loop stops at the first failing key; otherwise it returns the enriched entity of every key, in key order |
| RelationshipMapper.SchemaRelationshipMapper.GenerateMappingTemplate | src/generators/schema/relationship_mapper.py:130-150 | the mapping has one key per entity name, holding its template entries; it raises exactly when an empty target name is indexed |
| RelationshipMapper.SchemaRelationshipMapper.AnalyzeEntityFields | src/generators/schema/relationship_mapper.py:160-220 | the result holds exactly the names whose last entity suggests something, with those suggestions |
| CoreConfig.SetIn | src/core/config.py:156-166 | setting a path adds its first key and leaves every other top-level key as it was |
| CoreConfig.SetThenGet | src/core/config.py:156-166 | reading a path back after setting it gives the value set |
| CoreConfig.SetIsLocal | src/core/config.py:156-166 | setting a path leaves every path that branches off it unchanged |
| CoreConfig.EmptyGet | src/core/config.py:138-147 | a lookup of a non-empty path in an empty dictionary returns the default |
| CoreConfig.GetIn | src/core/config.py:138-147 | a path that does not lead through dictionaries to a present key reads the default |
| CoreConfig.DeepMerge | src/core/config.py:168-179 | the merged keys are the target's plus the source's |
| CoreConfig.MergeIdempotent | src/core/config.py:168-179 | merging a dictionary into itself changes nothing |
| CoreConfig.MergeSourceWins | src/core/config.py:175-179 | a source path ending in a value other than a dictionary reads that value after the merge |
| CoreConfig.MergeKeepsTarget | src/core/config.py:175-179 | a target path that the source does not reach reads the same after the merge |
| CoreConfig.MergeInsert | src/core/config.py:175-179 | merging one more source key changes only that key |
| CoreConfig.MergeStep | src/core/config.py:175 | merging key by key: each further key updates only itself, from the entry of the dictionary merged so far |
| CoreConfig.Restrict | src/core/config.py:175 | restricting a dictionary keeps exactly the chosen keys |
| CoreConfig.LowerJoin | src/core/config.py:191 | lowering a joined text lowers each segment |
| CoreConfig.ReplaceAfterWord | src/core/config.py:191 | `replace("__", ".")` passes over an underscore-free prefix |
| CoreConfig.DunderToDots | src/core/config.py:191 | segments joined by `__` become the same segments joined by `.` |
| CoreConfig.ReplaceDunderNoDoubles | src/core/config.py:191 | `replace("__", ".")` leaves no two adjacent underscores, and the result starts with `_` only when the input starts with a single one |
| CoreConfig.EnvKeyPath | src/core/config.py:188-191 | a variable names a path exactly when it carries the `MICROGENESIS_` prefix, and that path holds no `__` |
| CoreConfig.SplitOfJoin | src/core/config.py:156 | splitting segments joined by a separator they lack gives them back |
| CoreConfig.LowerKeepsOut | src/core/config.py:191 | lowering adds no `_` and no `.` |
| CoreConfig.EnvNameRest | src/core/config.py:189-191 | a prefixed variable names the path obtained by lowering the rest and replacing `__` with `.` |
| CoreConfig.EnvTranslation | src/core/config.py:181-192 | `MICROGENESIS_A__B` overrides the path `a.b`, whose keys are the lowered segments |
| CoreConfig.EnvWithoutPrefix | src/core/config.py:189 | variables without the prefix override nothing |
| CoreConfig.EnvLastWins | src/core/config.py:188-192 | the last prefixed variable decides its path's value |
| CoreConfig.DefaultSections | src/core/config.py:22-43 | the defaults have the four sections application, logging, templates and generators |
| CoreConfig.DefaultConfig.constructor | src/core/config.py:22-43 | the class-level `DEFAULT_CONFIG` holds those sections |
| CoreConfig.ViewOf | src/core/config.py:51 | `config_data`, with shared sections read through the defaults, has the same keys |
| CoreConfig.ViewOwn | src/core/config.py:220 | giving a slot its own value changes only that key |
| CoreConfig.ViewShared | src/core/config.py:163-166 | writing into a shared section changes only that key, in every view built on the same defaults |
| CoreConfig.GetFirst | src/core/config.py:141-143 | a lookup follows the first key, then the rest of the path |
| CoreConfig.GetSingle | src/core/config.py:141-147 | a one-key lookup of a present key gives its value |
| CoreConfig.Config.View | src/core/config.py:51 | the instance's dictionary has the keys of its slots |
| CoreConfig.Config.Get | src/core/config.py:128-147 | a key without a dot reads its own entry or the default; any path that is not present reads the default |
| CoreConfig.Config.constructor | src/core/config.py:45-51 | a new configuration is a shallow copy of the defaults: every section is shared |
| CoreConfig.Config.Set | src/core/config.py:149-166 | `set` replaces the dictionary by `SetIn` of its path, reads back the value, and touches no other default section |
| CoreConfig.Config.MergeKey | src/core/config.py:175-179 | one step of `_deep_update` changes only its own key |
| CoreConfig.Config.MergeNext | src/core/config.py:175-179 | after one more step the dictionary is the merge with that key included |
| CoreConfig.Config.DeepUpdate | src/core/config.py:168-179 | `_deep_update` leaves the deep merge of the old dictionary and the source, keeping merged sections shared |
| CoreConfig.Config.ApplyEnvOverrides | src/core/config.py:181-192 | the overrides are applied to the dictionary in environment order |
| CoreConfig.Config.Load | src/core/config.py:68-100 | a successful load is a deep merge followed by the environment overrides; a failed one changes nothing |
| CoreConfig.Config.GetItem | src/core/config.py:202-211 | `self[key]` succeeds exactly for present keys and agrees with `get` |
| CoreConfig.Config.SetItem | src/core/config.py:213-220 | `self[key] = value` gives the instance its own slot for that key and changes nothing else |
| CoreConfig.Config.AsDict | src/core/config.py:194-200 | the copy has the same top-level entries |
| CoreConfig.SharedSectionLeak | src/core/config.py:51 | two instances built on the same defaults share sections: a nested `set` on one is seen by `get` on the other |
| FlatConfig.Defaults | src/microgenesis/config.py:11-15 | the three defaults: name, debug and log_level |
| FlatConfig.PairOf | src/microgenesis/config.py:38 | an element `update` can store is a list of a text key and a value, or a two-character text; null, booleans, numbers and objects are rejected |
| FlatConfig.Chars | src/microgenesis/config.py:38 | iterating a text yields its characters, each a one-character text |
| FlatConfig.Config.constructor | src/microgenesis/config.py:17-21 | a new configuration is the defaults, updated by the loaded JSON value when there is one |
| FlatConfig.Config.Load | src/microgenesis/config.py:32-40 | an unreadable file changes nothing; otherwise the dictionary and whether the call raised are those of `update` with the loaded value |
| FlatConfig.Config.Get | src/microgenesis/config.py:53-55 | `get` gives the stored value, or the default when the key is missing |
| FlatConfig.Config.Set | src/microgenesis/config.py:57-59 | `set`, and `__setitem__` at lines 65-67 which makes the same assignment, change exactly one key, and `get` reads it back |
| FlatConfig.Config.GetItem | src/microgenesis/config.py:61-63 | `cfg[key]` succeeds exactly for present keys and agrees with `get` |
| FlatConfig.FreshDefaults | src/microgenesis/config.py:11-21 | without a file, `get` returns the three defaults, and the fallback for any other key |
| FlatConfig.UpdateObject | src/microgenesis/config.py:38 | a loaded object never raises: its keys are added, its values win, and every other key keeps its value |
| FlatConfig.UpdateScalar | src/microgenesis/config.py:38 | a loaded null, boolean or number raises and changes nothing |
| FlatConfig.UpdateText | src/microgenesis/config.py:38 | a loaded text changes nothing, and raises unless it is empty |
| FlatConfig.UpdatePairsRaises | src/microgenesis/config.py:38 | a list update raises exactly when one of its elements is not a storable pair |
| FlatConfig.UpdatePairsKeeps | src/microgenesis/config.py:38 | a key that no stored pair names keeps its value, and its presence |
| FlatConfig.UpdatePairsLastWins | src/microgenesis/config.py:38 | after a list update that does not raise, the last pair's key holds the last pair's value |
| FlatConfig.LoadKeepsUnnamed | src/microgenesis/config.py:38 | a shallow update with an object keeps every default that the object does not name |
| ExampleClass.Example.constructor | src/microgenesis/example.py:7-15 | the instance keeps the name it was given |
| ExampleClass.Example.Greet | src/microgenesis/example.py:17-25 | the greeting frames the name between "Hello from " and "!", so the name can be read back from it |
| ExampleClass.Example.SetName | src/microgenesis/example.py:27-41 | an empty name is refused with the ValueError and the old one kept; any other name replaces it |
| ExampleClass.GreetInjective | src/microgenesis/example.py:23 | two greetings are equal exactly when the names are |
| ExampleClass.DefaultGreeting | src/microgenesis/example.py:7-38 | a default instance greets as "Hello from MicroGenesis!", and a refused rename leaves the greeting unchanged |
| KotlinImports.GenericAt | src/generators/spring_boot/kotlin/__init__.py:467 | a generic-argument match ends inside the text, after where it starts, with a non-empty first group, no `,` in the first group and no `>` in either |
| KotlinImports.FindAll | src/generators/spring_boot/kotlin/__init__.py:467 | every match of `re.findall` is well formed, and there are no more matches than characters searched |
| KotlinImports.Accepted | src/generators/spring_boot/kotlin/__init__.py:471-474 | an argument is imported only when it is non-empty, no Kotlin primitive and not under `java.` or `kotlin.` |
| KotlinImports.FindAllSkips | src/generators/spring_boot/kotlin/__init__.py:467 | no match starts before the first `<` |
| KotlinImports.Unmarked | src/generators/spring_boot/kotlin/__init__.py:455-456 | exactly one trailing `?` is removed |
| KotlinImports.DtoFieldImports | src/generators/spring_boot/kotlin/__init__.py:490-502 | a field adds at most one DTO import |
| KotlinImports.DtoFieldJava | src/generators/spring_boot/kotlin/__init__.py:496-502 | every DTO import of a field lies under `java.` |
| KotlinImports.JavaPrefixed | src/generators/spring_boot/kotlin/__init__.py:497 | a package under `java.` keeps that prefix whatever follows it |
| KotlinImports.EntityFieldImports | src/generators/spring_boot/kotlin/__init__.py:452-474 | a field's entity imports include its DTO imports |
| KotlinImports.EntityImports | src/generators/spring_boot/kotlin/__init__.py:449-474 | the entity imports always include `jakarta.persistence.*` |
| KotlinImports.DtoImports | src/generators/spring_boot/kotlin/__init__.py:487-502 | every DTO import lies under `java.` |
| KotlinImports.AddGenericImports | src/generators/spring_boot/kotlin/__init__.py:468-474 | the inner loops add exactly the accepted generic arguments |
| KotlinImports.AddEntityFieldImports | src/generators/spring_boot/kotlin/__init__.py:452-474 | the loop body adds exactly the field's entity imports |
| KotlinImports.AddDtoFieldImports | src/generators/spring_boot/kotlin/__init__.py:490-502 | the loop body adds exactly the field's DTO imports |
| KotlinImports.GetImportsForKotlinEntity | src/generators/spring_boot/kotlin/__init__.py:440-476 | the result is strictly sorted, holds exactly the entity imports, and includes the persistence import |
| KotlinImports.GetImportsForKotlinDto | src/generators/spring_boot/kotlin/__init__.py:478-504 | the result is strictly sorted and holds exactly the DTO imports |
| KotlinImports.DtoSubset | src/generators/spring_boot/kotlin/__init__.py:449-504 | the DTO imports are entity imports, without the persistence import |
| KotlinImports.PersistenceIsNotJava | src/generators/spring_boot/kotlin/__init__.py:449 | the persistence import is not under `java.` |
| KotlinImports.NullableMarker | src/generators/spring_boot/kotlin/__init__.py:455-456 | one nullable marker does not change what a field imports |
| KotlinImports.NamesUnmarked | src/generators/spring_boot/kotlin/__init__.py:458-461 | none of the five time and SQL type names ends in `?` |
| KotlinImports.TimeTypes | src/generators/spring_boot/kotlin/__init__.py:458-459 | a time type imports exactly its `java.time` name |
| KotlinImports.SqlTypes | src/generators/spring_boot/kotlin/__init__.py:460-461 | an SQL type imports exactly its `java.sql` name |
| KotlinImports.ClosedType | src/generators/spring_boot/kotlin/__init__.py:455-461 | a type closed by `>` has no marker and is none of the five names |
| KotlinImports.CollectionHead | src/generators/spring_boot/kotlin/__init__.py:462-463 | the collection name is the text before the first `<` |
| KotlinImports.FindAllOne | src/generators/spring_boot/kotlin/__init__.py:467 | `C<x>` has a single match whose first group is `x` |
| KotlinImports.FindAllTwo | src/generators/spring_boot/kotlin/__init__.py:467 | `C<k, v>` has a single match with groups `k` and `v` |
| KotlinImports.MatchOfTwo | src/generators/spring_boot/kotlin/__init__.py:467 | the match at the `<` of `C<k, v>` gives both groups and ends after the `>` |
| KotlinImports.TwoArgLayout | src/generators/spring_boot/kotlin/__init__.py:467 | the pieces of `C<k, v>` sit where the match expects them |
| KotlinImports.MatchAtLayout | src/generators/spring_boot/kotlin/__init__.py:467 | a text laid out as `<k, v>` matches with both groups |
| KotlinImports.SpaceThenWord | src/generators/spring_boot/kotlin/__init__.py:467 | one space before a non-space is skipped exactly |
| KotlinImports.CollectionOfOne | src/generators/spring_boot/kotlin/__init__.py:462-474 | `C<x>` imports `java.util.C`, and for an entity also `x` when it is accepted |
| KotlinImports.CollectionOfTwo | src/generators/spring_boot/kotlin/__init__.py:462-474 | `C<k, v>` imports `java.util.C` and both arguments when they are accepted |
| GraphqlImports.TypeImports | src/generators/graphql/java/__init__.py:411-424 | a field type adds at most two imports, and at most one unless it is a collection |
| GraphqlImports.AnnotationImports | src/generators/graphql/java/__init__.py:427-429 | the annotations add something exactly when `@Id` is among them |
| GraphqlImports.EntityImports | src/generators/graphql/java/__init__.py:408-429 | an entity without fields imports nothing |
| GraphqlImports.AddFieldImports | src/generators/graphql/java/__init__.py:410-429 | the loop body adds exactly the field's imports |
| GraphqlImports.AddAnnotationImports | src/generators/graphql/java/__init__.py:427-429 | the inner loop adds exactly the annotations' imports |
| GraphqlImports.GetImportsForEntity | src/generators/graphql/java/__init__.py:399-431 | the result is strictly sorted and holds exactly the entity's imports |
| GraphqlImports.IdAnnotation | src/generators/graphql/java/__init__.py:427-429 | an `@Id` on any field imports `jakarta.persistence.Id`, whatever its type |
| GraphqlImports.ImportsFromFields | src/generators/graphql/java/__init__.py:410-429 | every import comes from some field |
| GraphqlImports.TimeTypes | src/generators/graphql/java/__init__.py:413-414 | `LocalDate` and `LocalDateTime` import exactly their `java.time` names |
| GraphqlImports.SqlTypes | src/generators/graphql/java/__init__.py:415-416 | `Date` and `Timestamp` import exactly their `java.sql` names |
| GraphqlImports.LocalTimeIgnored | src/generators/graphql/java/__init__.py:413 | `LocalTime` imports nothing |
| GraphqlImports.MarkedTimeIgnored | src/generators/graphql/java/__init__.py:413 | a nullable marker is not stripped, so `LocalDate?` imports nothing |
| GraphqlImports.OtherTypes | src/generators/graphql/java/__init__.py:413-417 | a type of none of the recognised forms imports nothing |
| GraphqlImports.CollectionOf | src/generators/graphql/java/__init__.py:417-424 | `C<x>` imports `java.util.C` and, unless `x` is boxed, `package.x` |
| GraphqlImports.ClosedType | src/generators/graphql/java/__init__.py:413-416 | a type closed by `>` is no time or SQL type |
| GraphqlImports.InnerOf | src/generators/graphql/java/__init__.py:421 | the search finds `x` in `c<x>` |
| GraphqlImports.InnerAt | src/generators/graphql/java/__init__.py:421 | a match at a position is a non-empty text without `>`, enclosed there by `<` and `>` |
| GraphqlImports.Inner | src/generators/graphql/java/__init__.py:421 | the group `re.search` finds is enclosed by `<` and `>` somewhere in the type |
| GraphqlImports.SearchSkips | src/generators/graphql/java/__init__.py:421 | the search passes over positions without `<` |
| GraphqlImports.SampleEntity | tests/test_graphql_generator.py:158-177 | the test's entity imports exactly the persistence Id, `LocalDateTime`, `List` and `.Item` |
| GraphqlImports.FourFields | src/generators/graphql/java/__init__.py:410 | the imports of four fields are the union of each field's imports |
| GraphqlImports.SamplePlainField | tests/test_graphql_generator.py:164-167 | the plain fields of the test entity import only their annotations' imports |
| GraphqlImports.SampleTimeField | tests/test_graphql_generator.py:165 | its `LocalDateTime` field imports `java.time.LocalDateTime` |
| GraphqlImports.SampleListField | tests/test_graphql_generator.py:166 | its `List<Item>` field imports `java.util.List` and `.Item` |

## Left out

- File and console I/O is not modelled. This covers `parse_ddl_file`, reading
  and writing the mapping file, and `save`, `_default_config_path` and the file
  reads of both `Config` classes. Each read is a parameter of the operation
  holding the parsed content, or `None` when the read or the parse fails.
- Logging is not modelled; the logger calls have no effect in the model.
- The entity code text is not modelled. `_generate_java_entity` and
  `_generate_kotlin_entity` (ddl_parser.py:338-427) and the template
  rendering of the generators are left out. `DdlParser.GenerateEntities`
  stands each entity for the table it comes from.
- The modelled maps carry no key order. This applies to the results of
  `generate_entities` (whose keys the source inserts in table order),
  `generate_mapping_file` and `analyze_entity_fields`, and to the nested
  dictionaries of `Config`. Key order is modelled only where the source
  iterates it: `entity_map` in `enrich_entities`.
- Aliasing is modelled one level deep. A top-level section of the core
  `Config` is either its own or shared with `DEFAULT_CONFIG`. Deeper aliasing
  between a loaded dictionary and the configuration is not modelled.
- JSON numbers are integers; floats are not modelled.
- Character classes, case mapping and `title()` are ASCII only. Unicode
  letters, digits and case folding are not modelled.
- A missing `type`, `package` or `annotations` is the empty string or list,
  the default that `.get` supplies. A missing `name` or `type` read with `[]`
  in `analyze_entity_fields`/`generate_mapping_file` raises `KeyError` in the
  source. The model does not represent such entities.
- RelationshipMapper.SchemaRelationshipMapper.LoadMappingFile and
  RelationshipMapper.SchemaRelationshipMapper.EnrichEntities: the loaded mapping
  is taken to be an object whose values are lists of objects with text
  values, and a `None` field stands only for a missing key. The other shapes
  that `json.load` can return are not modelled:
  - An explicit `null` `type` makes `.get` return `None`. No branch matches, so
    no field is added; the model instead adds a one-to-many field.
  - A `null` `fieldName` makes the source emit fields named `None` and
    `NoneList`.
  - A `target` that is not a text raises on `.lower()`.
  - A list entry that is not an object raises `AttributeError` on `.get`.
  - A top level that is not an object behaves in two ways. A falsy one (`[]`,
    `""`, `null`) returns the entities unchanged. A non-empty list or text is
    searched with `in` and then raises `TypeError` when indexed.
- `target_id_type` in `enrich_entities` (relationship_mapper.py:76-78) is
  computed but never used, so it is not modelled.
- The regular expressions are hand-written scanners for those particular
  patterns, not a general regex engine.
- KotlinImports.GenericAt: `re.findall` with nested generics is modelled only
  for the deterministic match of the pattern at each `<`. The contract
  states where a match ends and that its groups are well formed, not which
  text they hold; `FindAllOne` and `FindAllTwo` state that for the two
  shapes the generator meets.
- DdlLines.ColumnOf: does not state the type or default value of a column
  in its contract. Those are given by the line scanners, not by a separate
  property.
- FlatConfig.Config.Load: a pair whose key is a JSON number, boolean or null,
  and a two-key object used as a pair element, are taken as raising. Python
  would store them, but a map keyed by text cannot hold them.
- FlatConfig.Config.constructor: when `update` raises, Python's constructor
  raises and no object results. The model's constructor keeps the data
  updated up to that point.

## Findings

| source | as written | input that shows it | evidently intended | confidence | as-written member | corrected member |
|---|---|---|---|---|---|---|
| src/microgenesis/generators/schema/ddl_parser.py:287-290 | `int` is tested before `bigint`, so the `Long` branch is dead | type `BIGINT` maps to `Integer` | BIGINT maps to `Long` | not executed | DdlParser.BigintIsInteger | DdlParser.OrderedMapsWideTypes |
| src/microgenesis/generators/schema/ddl_parser.py:297-302 | `date` and `time` are tested before `datetime` and `timestamp` | `DATETIME` maps to `LocalDate`; `TIMESTAMP` maps to `LocalTime` | both map to `LocalDateTime` | not executed | DdlParser.DatetimeIsDate | DdlParser.OrderedMapsWideTypes |
| src/generators/schema/relationship_mapper.py:85 | the join-column annotation is a plain string, so `{field_name}` is emitted literally | fields `author` and `editor` on one target get the same annotation | `@JoinColumn(name = "author_id")` | not executed | RelationshipMapper.JoinColumnIgnoresFieldName | RelationshipMapper.IntendedJoinColumnNamesField |
