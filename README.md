# ProgrammingNotes in Dafny: the Lox scanner and the small example programs

This project models, in Dafny, the algorithmic parts of a C++/C# notes
repository and proves what they promise.

**The Lox lexical scanner** (`C++/CraftingInterpreters/Lox/src/lox/scanner/`) is the main part.

- `LoxToken` holds the token record, the token kinds and the static keyword table.
- `LoxLexical` describes the scanner as pure functions:
  - `Step` is one pass of the main loop from a token start: the character switch, maximal munch for `! = < >`, line comments, whitespace, strings, numbers and identifiers.
  - `ScanFrom` chains those steps to the end of the source.
- `LoxScanner.Scanner` is the scanner object with its mutable cursors `start`, `current` and `line`, its token list and the log its error sink appends to. Each of its methods is proved to do exactly what the pure functions describe.
- `LoxRules` proves the per-lexeme rules.
- `LoxProperties` proves the whole-scan properties:
  - lexemes are source slices, in order and disjoint;
  - line numbers count line feeds;
  - exactly one END token, last.
- `LoxExamples` works out whole scans of small sources.

**The small example programs** are each modelled in their own form:

| Module | Source | Form |
|---|---|---|
| `Geometry` | `Point` | values |
| `Matrices` | the `Matrix` template | a class over an array; `get`'s abort is a `None` result |
| `Aviation` | `Airplane` with a variant state | a class whose methods follow a pure transition function |
| `Accounting` | `computeAnalytics` | a transform loop and an in-place `remove_if` compaction over an array |
| `Banking` | `getMaxAmount` | a function |
| `PassAndReturn` | `sum`, `greatest_of` and the write through its reference | |
| `Fibonacci` | the tenth-Fibonacci loop | |
| `Registration` | the registration-form stack | |
| `StlVector` | the `std::array` and `std::vector` fills | |
| `CSharpArrays` | C# index-from-end, slices, rectangular and jagged arrays | |

C++ `int` arithmetic that could overflow is over `CppInt.Int32`, and requires the result to be representable, since signed overflow is undefined.

**Two behaviours of the scanner are modelled as the code has them.**

- A STRING token's literal runs from after the opening quote up to and *including* the closing quote. The code takes `substr(start + 1, current - start - 1)` after consuming the closing quote. The comment above that line (`scanner.cpp:192-194`) means to trim both quotes and puzzles over quotes that still appear when the token is printed; what `Token::toString` prints is the lexeme, which holds both quotes whatever the literal is. The closing quote kept in the literal comes from the `substr` bounds alone. The model follows the code: see `LoxRules.StringLiteral` and `LoxExamples.ClosedStringLiteral`.
- A STRING token carries the line counter reached at its *closing* quote, after the line feeds inside it.

## Model

Source paths are relative to the repository root.

| member | source | states |
|---|---|---|
| `LoxToken.IdentifierKind` | C++/CraftingInterpreters/Lox/src/lox/scanner/scanner.cpp:162-172 | an identifier-shaped lexeme gets a reserved kind exactly when the whole text is a key of the keyword table, that key's kind; otherwise IDENTIFIER |
| `LoxToken.KeywordTableIsBijective` | C++/CraftingInterpreters/Lox/src/lox/scanner/scanner.cpp:249-267 | the keyword table maps its spellings one-to-one onto the sixteen reserved kinds |
| `LoxLexical.CharacterClasses` | C++/CraftingInterpreters/Lox/src/lox/scanner/scanner.cpp:141-156 | `isDigit` and `isAlpha` are disjoint; neither accepts a character that has its own case in the switch, so both reach the default branch; both continue an identifier under `isAlphaNumeric` |
| `LoxLexical.Peek` | C++/CraftingInterpreters/Lox/src/lox/scanner/scanner.cpp:110-114 | the character at the cursor when there is one, NUL at the end |
| `LoxLexical.PeekNext` | C++/CraftingInterpreters/Lox/src/lox/scanner/scanner.cpp:116-120 | what `peek` would see one character further on |
| `LoxScanner.Scanner.Peek` | C++/CraftingInterpreters/Lox/src/lox/scanner/scanner.cpp:110-114 | the character at `current` when there is one, NUL at the end |
| `LoxScanner.Scanner.PeekNext` | C++/CraftingInterpreters/Lox/src/lox/scanner/scanner.cpp:116-120 | the character after `current` when there is one, NUL otherwise |
| `LoxScanner.Scanner.IsAtEnd` | C++/CraftingInterpreters/Lox/src/lox/scanner/scanner.cpp:28-31 | not at the end means a character remains; under the cursor invariant, at the end means exactly at the end |
| `LoxLexical.StringStep` | C++/CraftingInterpreters/Lox/src/lox/scanner/scanner.cpp:177-198 | a string step gives exactly one of a STRING token ending at the closing quote and an "Unterminated string" report at the end of the source, at the line it reached, never below the starting line |
| `LoxLexical.NumberStep` | C++/CraftingInterpreters/Lox/src/lox/scanner/scanner.cpp:200-215 | a number step gives one NUMBER token whose literal is its own text, with no error and no line change, and stops before a character that is not a digit |
| `LoxLexical.IdentifierStep` | C++/CraftingInterpreters/Lox/src/lox/scanner/scanner.cpp:158-175 | an identifier step gives one token whose kind is the keyword lookup of its whole lexeme, and stops before a character that cannot continue it |
| `LoxProperties.ScanFromBounded` | C++/CraftingInterpreters/Lox/src/lox/scanner/scanner.cpp:15-26 | the main loop yields at most one token or report per consumed character, and the line counter never goes down |
| `LoxLexical.Tokens` | C++/CraftingInterpreters/Lox/src/lox/scanner/scanner.cpp:15-26 | the token list is never empty and ends with an END token |
| `LoxProperties.TokensAndErrorsBounded` | C++/CraftingInterpreters/Lox/src/lox/scanner/scanner.cpp:15-26 | a source of n characters yields at most n tokens and reports together, besides END |
| `LoxLexical.RunEnd` | C++/CraftingInterpreters/Lox/src/lox/scanner/scanner.cpp:179-183 | an "advance while" loop never moves the cursor back or past the end of the source |
| `LoxLexical.RunEndIsMaximal` | C++/CraftingInterpreters/Lox/src/lox/scanner/scanner.cpp:158-160 | an "advance while" loop stops at the first character that does not continue the run (or at the end): everything it consumed continues the run |
| `LoxLexical.Step` | C++/CraftingInterpreters/Lox/src/lox/scanner/scanner.cpp:42-108 | every pass of the main loop consumes at least one character and stays within the source, so the scan terminates |
| `LoxScanner.Scanner.constructor` | C++/CraftingInterpreters/Lox/src/lox/scanner/scanner.cpp:12-13 | a new scanner holds the source, no tokens, start = current = 0 and line 1 |
| `LoxScanner.Scanner.ScanTokens` | C++/CraftingInterpreters/Lox/src/lox/scanner/scanner.cpp:15-26 | the loop ends with the cursor at the end of the source and returns the scanned tokens followed by one END token with the final line; cursor bounds hold throughout |
| `LoxScanner.Scanner.Match` | C++/CraftingInterpreters/Lox/src/lox/scanner/scanner.cpp:33-40 | consumes the next character exactly when it exists and is the expected one |
| `LoxScanner.Scanner.ScanToken` | C++/CraftingInterpreters/Lox/src/lox/scanner/scanner.cpp:42-108 | one dispatch on the next character changes the cursor, the line, the tokens and the errors exactly as `Step` describes |
| `LoxScanner.Scanner.Advance` | C++/CraftingInterpreters/Lox/src/lox/scanner/scanner.cpp:122-125 | returns the character at the cursor and moves the cursor one forward |
| `LoxScanner.Scanner.AddToken` | C++/CraftingInterpreters/Lox/src/lox/scanner/scanner.cpp:127-139 | appends one token whose lexeme is the source from start to current, stamped with the current line |
| `LoxScanner.Scanner.Error` | C++/CraftingInterpreters/Lox/src/lox/scanner/scanner.cpp:6-10 | the error sink records one (line, message) report |
| `LoxScanner.Scanner.AdvanceWhile` | C++/CraftingInterpreters/Lox/src/lox/scanner/scanner.cpp:77 | the comment, number and identifier loops move the cursor to the end of the maximal run |
| `LoxScanner.Scanner.Identifier` | C++/CraftingInterpreters/Lox/src/lox/scanner/scanner.cpp:158-175 | finishes an identifier or keyword exactly as `IdentifierStep` describes |
| `LoxScanner.Scanner.String` | C++/CraftingInterpreters/Lox/src/lox/scanner/scanner.cpp:177-198 | finishes a string literal exactly as `StringStep` describes; the loop keeps line = line at entry + line feeds consumed |
| `LoxScanner.Scanner.Number` | C++/CraftingInterpreters/Lox/src/lox/scanner/scanner.cpp:200-215 | finishes a number literal exactly as `NumberStep` describes |
| `LoxScanner.ScanSource` | C++/CraftingInterpreters/Lox/src/lox/scanner/scanner.cpp:12-26 | a fresh scanner's tokens and error reports are `Tokens(src)` and `Errors(src)` |
| `LoxProperties.StepToken` | C++/CraftingInterpreters/Lox/src/lox/scanner/scanner.cpp:137-138 | a token made by one step has the consumed text as its lexeme, the step's line, and is never END |
| `LoxProperties.StringLine` | C++/CraftingInterpreters/Lox/src/lox/scanner/scanner.cpp:179-183 | a string step raises the line by the number of line feeds it consumes |
| `LoxProperties.StepLine` | C++/CraftingInterpreters/Lox/src/lox/scanner/scanner.cpp:84-90 | every step raises the line by exactly the number of line feeds it consumes |
| `LoxProperties.ScanLine` | C++/CraftingInterpreters/Lox/src/lox/scanner/scanner.cpp:88-89 | the final line is the starting line plus the number of line feeds in the rest of the source |
| `LoxProperties.SpansAreLexemes` | C++/CraftingInterpreters/Lox/src/lox/scanner/scanner.cpp:19 | each scanned token's lexeme is the source slice it came from; the slices lie within the source, in order and disjoint |
| `LoxProperties.TokenLines` | C++/CraftingInterpreters/Lox/src/lox/scanner/scanner.cpp:138 | each token's line is the starting line plus the line feeds before the end of its lexeme |
| `LoxProperties.NoEndInScan` | C++/CraftingInterpreters/Lox/src/lox/scanner/scanner.cpp:47-107 | the main loop never emits END |
| `LoxProperties.TokensEndWithOneEnd` | C++/CraftingInterpreters/Lox/src/lox/scanner/scanner.cpp:17-25 | the token list ends with exactly one END token, with empty lexeme, no literal and 1 + the number of line feeds as its line |
| `LoxProperties.TokenLinesNondecreasing` | C++/CraftingInterpreters/Lox/src/lox/scanner/scanner.cpp:181 | token lines never decrease along the token list |
| `LoxRules.OperatorMaximalMunch` | C++/CraftingInterpreters/Lox/src/lox/scanner/scanner.cpp:61-72 | `! = < >` take a following '=' when there is one and only then: the two-character kind and a two-character lexeme iff '=' follows, each operator keeping to its own pair of kinds |
| `LoxRules.PunctuationIsOneCharacter` | C++/CraftingInterpreters/Lox/src/lox/scanner/scanner.cpp:49-60 | each single-character punctuation mark emits its own kind (`(` LEFT_PAREN, `)` RIGHT_PAREN, … `*` STAR) as a one-character token without a literal, and consumes nothing more |
| `LoxRules.LineComment` | C++/CraftingInterpreters/Lox/src/lox/scanner/scanner.cpp:73-78 | `//` skips up to, not including, the next line feed or the end, with no token and no error |
| `LoxRules.LoneSlash` | C++/CraftingInterpreters/Lox/src/lox/scanner/scanner.cpp:79-82 | a slash not followed by another one is the SLASH token |
| `LoxRules.WhitespaceSkipped` | C++/CraftingInterpreters/Lox/src/lox/scanner/scanner.cpp:84-90 | space, CR and tab emit nothing; a line feed emits nothing and raises the line by one |
| `LoxRules.UnexpectedCharacterReported` | C++/CraftingInterpreters/Lox/src/lox/scanner/scanner.cpp:102-105 | any other character is reported as "Unexpected character" at the current line, emits nothing, and scanning carries on after it |
| `LoxRules.NumberLiteral` | C++/CraftingInterpreters/Lox/src/lox/scanner/scanner.cpp:200-214 | a number lexeme is digits with an optional '.' and digits, maximal, and its literal keeps its text |
| `LoxRules.IdentifierOrKeyword` | C++/CraftingInterpreters/Lox/src/lox/scanner/scanner.cpp:146-175 | an identifier lexeme is a maximal run of letters, digits and underscores; its kind is the keyword's when the whole lexeme is a keyword, IDENTIFIER otherwise |
| `LoxRules.StringLiteral` | C++/CraftingInterpreters/Lox/src/lox/scanner/scanner.cpp:177-198 | a token iff a closing quote follows; then the lexeme spans both quotes and the literal runs up to and including the closing quote; otherwise "Unterminated string" at the line reached, no token, cursor at the end |
| `LoxExamples.BangEqualIsOneToken` | C++/CraftingInterpreters/Lox/src/lox/scanner/scanner.cpp:61-63 | "!=" scans as one BANG_EQUAL token then END |
| `LoxExamples.TrailingDotIsSeparate` | C++/CraftingInterpreters/Lox/src/lox/scanner/scanner.cpp:205-210 | "123." scans as NUMBER "123" then DOT |
| `LoxExamples.ClassroomIsIdentifier` | C++/CraftingInterpreters/Lox/src/lox/scanner/scanner.cpp:162-167 | "classroom" is one IDENTIFIER, not the keyword `class` |
| `LoxExamples.ClosedStringLiteral` | C++/CraftingInterpreters/Lox/src/lox/scanner/scanner.cpp:191-197 | `"hello"` gives a STRING whose literal is `hello"` |
| `LoxExamples.UnterminatedStringReported` | C++/CraftingInterpreters/Lox/src/lox/scanner/scanner.cpp:185-189 | an unclosed string yields only END and one "Unterminated string" report |
| `LoxExamples.TwoUnexpectedCharacters` | C++/CraftingInterpreters/Lox/src/lox/scanner/scanner.cpp:104 | two unexpected characters give two reports and the scan still ends with END |
| `LoxExamples.NumbersOnThreeLines` | C++/CraftingInterpreters/Lox/src/lox/scanner/scanner.cpp:88-90 | numbers on three lines carry lines 1, 2 and 3 |
| `Geometry.Origin` | C++/GeneralNotes/Programs/OperatorOverloadingExample/Point.cpp:3 | the default constructor gives (0, 0) |
| `Geometry.ConstructorKeepsCoordinates` | C++/GeneralNotes/Programs/OperatorOverloadingExample/Point.cpp:5 | the two-argument constructor stores x and y unchanged, and the getters return them |
| `Geometry.Point.Plus` | C++/GeneralNotes/Programs/OperatorOverloadingExample/Point.cpp:7-11 | `+` is the component-wise sum of the coordinates |
| `Geometry.Point.GetX` | C++/GeneralNotes/Programs/OperatorOverloadingExample/Point.cpp:20-23 | the getter returns the x coordinate the point was built with |
| `Geometry.Point.GetY` | C++/GeneralNotes/Programs/OperatorOverloadingExample/Point.cpp:25-28 | the getter returns the y coordinate the point was built with |
| `Geometry.Point.Less` | C++/GeneralNotes/Programs/OperatorOverloadingExample/Point.cpp:13-18 | differing x coordinates decide; equal x coordinates leave the decision to y |
| `Geometry.LessIsLexicographic` | C++/GeneralNotes/Programs/OperatorOverloadingExample/Point.cpp:13-18 | `<` is the lexicographic order on (x, y), in both directions |
| `Geometry.LessIrreflexive` | C++/GeneralNotes/Programs/OperatorOverloadingExample/Point.cpp:15-17 | no point is less than itself |
| `Geometry.LessTransitive` | C++/GeneralNotes/Programs/OperatorOverloadingExample/Point.cpp:14-18 | `<` is transitive |
| `Geometry.LessTrichotomy` | C++/GeneralNotes/Programs/OperatorOverloadingExample/Point.cpp:13-17 | of two distinct points exactly one is less than the other |
| `Geometry.PlusCommutesWithOriginIdentity` | C++/GeneralNotes/Programs/OperatorOverloadingExample/Point.cpp:9 | `+` is commutative with the origin as identity |
| `Geometry.PlusMonotone` | C++/GeneralNotes/Programs/OperatorOverloadingExample/Point.cpp:8-10 | adding a point with non-negative coordinates never moves a point down the order |
| `Matrices.CellIndexInRange` | C++/Programs/TemplateParameterDeductionExample/include/Matrix.h:22 | an in-range (row, column) lies in [0, ROWS*COLUMNS) and decodes back to the row (quotient) and column (remainder), in row-major order |
| `Matrices.CellIndexInjective` | C++/Programs/TemplateParameterDeductionExample/include/Matrix.h:9-10 | distinct cells occupy distinct positions |
| `Matrices.Matrix.Cell` | C++/Programs/TemplateParameterDeductionExample/include/Matrix.h:9-10 | cell (row, column) is entry `column` of the row-th block of COLUMNS stored values, which lies inside the data |
| `Matrices.Matrix.Blank` | C++/Programs/TemplateParameterDeductionExample/include/Matrix.h:13 | the default constructor value-initialises all ROWS*COLUMNS cells |
| `Matrices.Matrix.FromArray` | C++/Programs/TemplateParameterDeductionExample/include/Matrix.h:14 | the array constructor stores the initial data unchanged |
| `Matrices.Matrix.Get` | C++/Programs/TemplateParameterDeductionExample/include/Matrix.h:16-23 | aborts (None) exactly when row >= ROWS or column >= COLUMNS; otherwise designates cell (row, column) at its row-major position |
| `Matrices.Matrix.SetThroughGet` | C++/Programs/TemplateParameterDeductionExample/include/Matrix.h:16-22 | writing through the reference changes that one cell and no other; on the abort nothing is written |
| `Aviation.Apply` | C++/Programs/STLVariantAsClassStateExample/Airplane.cpp:6-28 | a request moves the plane at most one phase forward; the state changes iff the guard holds: taxi from the gate, take-off from taxiing |
| `Aviation.RunMovesForward` | C++/Programs/STLVariantAsClassStateExample/Airplane.cpp:6-28 | along any requests the phase never decreases, Flying is terminal and the gate is never re-entered |
| `Aviation.GateTaxiTakeOff` | C++/Programs/STLVariantAsClassStateExample/Airplane.cpp:8-26 | from the gate, taxi then take-off ends flying at the requested speed |
| `Aviation.NoTakeOffFromGate` | C++/Programs/STLVariantAsClassStateExample/Airplane.cpp:21-25 | a take-off at the gate is refused and does not block a later taxi |
| `Aviation.Airplane.constructor` | C++/Programs/STLVariantAsClassStateExample/Airplane.cpp:4 | a new plane stands at its gate |
| `Aviation.Airplane.StartTaxi` | C++/Programs/STLVariantAsClassStateExample/Airplane.cpp:6-17 | the new state is `Apply` of the old state and the taxi request |
| `Aviation.Airplane.TakeOff` | C++/Programs/STLVariantAsClassStateExample/Airplane.cpp:19-28 | the new state is `Apply` of the old state and the take-off request |
| `Aviation.Airplane.CurrentStatus` | C++/Programs/STLVariantAsClassStateExample/Airplane.cpp:30-44 | reports the gate, lane or speed of the current alternative and changes nothing |
| `Accounting.Values` | C++/Programs/STLAlgorithmsUsageExample/UserAccount.cpp:13-15 | the transform yields every map value, in the entries' iteration order |
| `Accounting.NewOnlyKeepsExactlyTheNew` | C++/Programs/STLAlgorithmsUsageExample/UserAccount.cpp:18-20 | the filter keeps exactly the accounts with daysSinceRegistered <= 15, each as often as it occurs |
| `Accounting.NewOnlyDistributes` | C++/Programs/STLAlgorithmsUsageExample/UserAccount.cpp:19-20 | the filter preserves relative order |
| `Accounting.NewOnlyIdempotent` | C++/Programs/STLAlgorithmsUsageExample/UserAccount.cpp:18-20 | filtering again removes nothing more |
| `Accounting.ComputeAnalytics` | C++/Programs/STLAlgorithmsUsageExample/UserAccount.cpp:10-20 | the transform then remove_if/erase leaves exactly the new accounts in the entries' iteration order; the input is not modified |
| `Accounting.ExampleNewAccounts` | C++/Programs/STLAlgorithmsUsageExample/main.cpp:9-14 | of Alice, Bob, Charlie and Donald the new accounts are Alice's then Donald's, unsorted by balance |
| `Banking.GetMaxAmount` | C++/Programs/TemplateFunctionComparingBankAccountsExample/include/BankingFunctions.h:5-10 | for two accounts of the same kind, as the template's single type parameter demands, the result is one of the two amounts, at least each, and the second on a tie |
| `Banking.ExampleAmounts` | C++/GeneralNotes/Programs/TemplateFunctionComparingBankAccountsExample/main.cpp:10-16 | the example comparisons give 2000 and 5000 |
| `PassAndReturn.Sum` | C++/GeneralNotes/Programs/PassAndReturnByValueAndRef/main.cpp:5-8 | the result is the sum of the arguments |
| `PassAndReturn.GreatestOf` | C++/GeneralNotes/Programs/PassAndReturnByValueAndRef/main.cpp:15-21 | refers to arr1's element iff it is strictly greater, otherwise arr2's; the referenced value is the maximum |
| `PassAndReturn.WriteThroughGreatest` | C++/GeneralNotes/Programs/PassAndReturnByValueAndRef/main.cpp:25-34 | writing 50 through the reference changes numbers2[3] only |
| `Fibonacci.TenthIs55` | C++/GeneralNotes/Programs/FibonacciUsingLocalAndGlobalVariables/main.cpp:3 | F(10) = 55 |
| `Fibonacci.TenthFibonacci` | C++/GeneralNotes/Programs/FibonacciUsingLocalAndGlobalVariables/main.cpp:6-21 | the loop keeps n_1 = F(i-2), n_2 = F(i-1), current = F(i), runs 8 times and ends with F(10) = 55 |
| `Registration.ReverseElements` | C++/Programs/STLContainerAdaptorsExample/main.cpp:39-44 | last-in-first-out order puts the form i places from the top at position i, a permutation of the stored forms |
| `Registration.FormStack.constructor` | C++/Programs/STLContainerAdaptorsExample/main.cpp:12 | a new stack is empty |
| `Registration.FormStack.Push` | C++/Programs/STLContainerAdaptorsExample/main.cpp:34 | push adds the form on top and leaves the others |
| `Registration.FormStack.Top` | C++/Programs/STLContainerAdaptorsExample/main.cpp:41 | top is the last form pushed and not popped |
| `Registration.FormStack.Pop` | C++/Programs/STLContainerAdaptorsExample/main.cpp:43 | pop removes the top form |
| `Registration.FormStack.Size` | C++/Programs/STLContainerAdaptorsExample/main.cpp:39 | the size is zero exactly when the stack is empty |
| `Registration.StoreRegistrationForm` | C++/Programs/STLContainerAdaptorsExample/main.cpp:32-35 | the stack grows by the form, on top, the earlier forms unchanged |
| `Registration.EndOfDayRegistrationProcessing` | C++/Programs/STLContainerAdaptorsExample/main.cpp:37-45 | every stored form is processed once, most recent first, and the stack ends empty |
| `Registration.ProcessingOrder` | C++/Programs/STLContainerAdaptorsExample/main.cpp:37-45 | the processing order is a permutation of the stored forms, the last stored first |
| `Registration.RegistrationDay` | C++/Programs/STLContainerAdaptorsExample/main.cpp:10-21 | forms stored as Bob, Alice, Charlie are processed as Charlie, Alice, Bob |
| `StlVector.ArrayExample` | C++/Programs/STLVectorExample/main.cpp:8-16 | the fill gives arr[i] = i + 1; then front is 10, back is 1 and indices 1..8 keep i + 1 |
| `StlVector.IntVector.constructor` | C++/Programs/STLVectorExample/main.cpp:22 | a new vector has no elements and no capacity |
| `StlVector.IntVector.Reserve` | C++/Programs/STLVectorExample/main.cpp:23 | reserve raises the capacity to at least n and leaves the size and elements |
| `StlVector.IntVector.Resize` | C++/Programs/STLVectorExample/main.cpp:24 | resize makes the size exactly n, keeps the first elements and zero-fills the new ones |
| `StlVector.IntVector.Set` | C++/Programs/STLVectorExample/main.cpp:28 | assignment replaces one element |
| `StlVector.IntVector.Front` | C++/Programs/STLVectorExample/main.cpp:30 | front is the first element |
| `StlVector.IntVector.Back` | C++/Programs/STLVectorExample/main.cpp:31 | back is the last element |
| `StlVector.VectorExample` | C++/Programs/STLVectorExample/main.cpp:22-31 | after reserve(100) the size is 0; after resize(10) and the fill users[i] = i + 1, so front is 1 and back is 10 |
| `CSharpArrays.AtFromEnd` | CSharp/programs/Arrays/Program.cs:4 | `^k` is the element k places from the end, or an out-of-range error |
| `CSharpArrays.SliceFromEnd` | CSharp/programs/Arrays/Program.cs:7 | `^k..` is the last k elements, or an out-of-range error |
| `CSharpArrays.SliceAgreesWithIndex` | CSharp/programs/Arrays/Program.cs:4-7 | indexing from the end into the slice agrees with indexing from the end into the array |
| `CSharpArrays.ExampleFromEnd` | CSharp/programs/Arrays/Program.cs:3-7 | for 1..9, `^1` is 9 and `^3..` is [7, 8, 9] |
| `CSharpArrays.FillRectangular` | CSharp/programs/Arrays/Program.cs:15-25 | the 3 x 3 matrix ends with matrix[i, j] = i |
| `CSharpArrays.FillJagged` | CSharp/programs/Arrays/Program.cs:29-40 | three distinct new rows of length 3 with jagged[i][j] = i + j + 1 |

## Left out

- The Lox command-line shell (`lox.cpp`, `main.cpp`) is not part of this model. That covers file reading, the REPL, printing to stderr, exit codes and the global error flag. `Lox::error` is modelled as appending a `(line, message)` report to the scanner's error log.
- A Lox source is a `std::string` of bytes. Each `char` of the modelled source stands for one byte of it, so non-ASCII text must be given byte by byte: the program reports each byte of a multi-byte UTF-8 character as a separate unexpected character, and a source given as Unicode characters would get one report per character instead.
- NUMBER literals keep their digit text. The conversion by `std::stod` to a `double` is floating point and is not modelled. A literal outside the range of a `double` (a 400-digit number, say) makes `std::stod` throw `std::out_of_range`, which nothing in the scanner or in `Lox::run` catches, so the program stops there; the model instead emits the NUMBER token and scans on to END.
- The heap `Object` literals, the scanner's destructor and `Token::toString` are not modelled. `toString` depends on a header that is not part of this model.
- `LoxToken.KeywordTableIsBijective`: it does not state separately that the table has sixteen entries. The one-to-one correspondence with the sixteen reserved kinds is proved instead.
- `LoxScanner.Scanner.AdvanceWhile`: this is one helper for the three "advance while" loops (comment, number, identifier), which the source writes out separately.
- The scanner's `start`/`current` are `nat` and its `line` is an unbounded `int`. The `size_t` and `int` widths are not modelled.
- `Geometry.Point.Plus`, `PassAndReturn.Sum`: each requires that the sums fit in an `int`, because signed overflow is undefined behaviour in C++.
- `Matrices.Matrix.Get`: it requires non-negative indices. The template does not check them, and a negative index is undefined behaviour.
- `Aviation.Airplane.CurrentStatus`: it returns what is printed, as a value. The "unknown state" branch is left out because the variant always holds one of its three alternatives. The float speed is an uninterpreted `real`.
- All console output (the taxi and take-off messages, balances, processed forms, array contents) is left out.
- `Accounting.Values`, `Accounting.ComputeAnalytics`: they take the map as any sequence of its entries, in iteration order. That `std::map` iterates its keys in strictly ascending order is not modelled, so nothing here states that the accounts come sorted by user name. No sort by balance is modelled, because the code performs none, even though the comment at the top of its `main.cpp` asks for descending order.
- `StlVector.IntVector.Reserve`, `StlVector.IntVector.Resize`: they state only what the standard guarantees about capacity (at least n, unchanged when already large enough), not a particular growth policy.
- `Fibonacci.TenthFibonacci`: it uses unbounded integers. The values stay far below the `int` range.
