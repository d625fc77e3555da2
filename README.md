# A verified model of a lexical analyzer and recursive-descent recognizer

`LxAnlyzr_Prsr.c` reads arithmetic expressions from a file, splits them into
tokens and writes a bracketed, indented trace of how each expression parses.
This project models the two parts of that program in Dafny.

**The scanner.** `getChar`, `getNonBlank`, `addChar`, `lookup` and `lex` keep
one character of lookahead in `nextChar` and its class in `charClass`. They
collect the characters of a lexeme in the 100-cell buffer `lexeme`, with its
length in `lexLen`, and store the kind of token in `nextToken`. The tokens are:

- identifiers: a letter, then letters and digits;
- integer literals: a run of digits;
- the six one-character operators `( ) + - * /`;
- end of input, whose lexeme is the text `EOF`.

**The recognizer.** `expr`, `term` and `factor` recognise the grammar below by
predictive recursive descent, one procedure per rule:

    <expr>   -> <term> {(+ | -) <term>}
    <term>   -> <factor> {(* | /) <factor>}
    <factor> -> id | int_constant | ( <expr> )

- Each procedure writes an opening line `[expr`, `[term` or `[factor` at the
  current indentation, then its parts four spaces deeper, then a closing `]`.
- `main` primes the lookahead with `getChar`. It then repeats `lex(); expr();`
  until the token is EOF.

**Modules.**

- `Lexicon` holds the character classes and the token codes. It also holds
  `lookup`'s operator table and `CString`, what `%s` prints of a character buffer.
- `Scanning` holds the pure specification of one `lex` call, as `Scan` and
  `NextLook`: the token, the lexeme, the new cursor position and the number of
  "lexeme is too long" reports. It also holds the lemmas about token boundaries.
- `Layout` holds the shape of trace lines (`Indented`, `Lead`). It also holds
  `Walk`, a reader that checks indentation and bracket balance.
- `Recognizer` holds the pure specification of the three rules and of the
  driver loop. Each maps the lookahead and the indentation to the trace lines
  written and the lookahead left behind.
- `Nesting` proves that every trace the program writes is well nested.
- `Levels` proves what stands at each column of a rule's trace. Just inside
  `expr` are its terms with a `+` or `-` leaf between each two. Just inside
  `term` are its factors with a `*` or `/` leaf between each two.
- `Scenarios` gives the whole trace of a few small inputs: `a+b*c`
  (precedence), `(a+b)*c` (grouping), `(a+b` (a missing right parenthesis),
  `123+x` (a literal beside an identifier) and `a#b` (an unrecognised
  character). `ScenarioLines` writes those traces out one line after another.
- `Analyzer` holds the class `Globals`. Its fields are the program's global
  variables. Each C procedure is a method, its loops carry invariants, and each is
  proved to do what `Scanning` and `Recognizer` describe. `Analyzer.Analyze`
  is `main` without the file handling.

**Behaviours of the source that the model keeps as they are:**

- Any character other than a letter, a digit, white space or one of
  `( ) + - * /` is scanned as a one-character lexeme with the token code EOF.
  The driver therefore stops there and ignores the rest of the input.
- `main` calls `lex()` at the head of every round. So the token that stopped
  the previous `expr` (a stray `)`, or the `b` of `a b`) is dropped without
  being written.
- On an empty input, `expr` is still called once and writes an
  invalid-factor report (`Recognizer.BlankInputTrace`).
- After `lex` reaches end of input, `lexLen` is 0 while the buffer reads
  `EOF`. So "the buffer is NUL at `lexLen`" holds after every `addChar`, but
  not after that case of `lex`.

## Model

| member | source | states |
|---|---|---|
| Lexicon.ClassOf | LxAnlyzr_Prsr.c:133-145 | a character is LETTER exactly when it is alphabetic, DIGIT exactly when it is a digit, and never the end-of-input class |
| Lexicon.LookupToken | LxAnlyzr_Prsr.c:83-116 | `lookup` gives an operator token exactly for the six characters `( ) + - * /`, EOF for every other character, and the operator token it gives stands for that character |
| Lexicon.OperatorTableBijective | LxAnlyzr_Prsr.c:84-108 | the six characters and the six operator tokens correspond one to one, in both directions |
| Lexicon.CStringPrefix | LxAnlyzr_Prsr.c:215 | `%s` of the buffer prints a NUL-free prefix of it, which ends at a NUL unless it is the whole buffer |
| Lexicon.CStringTerminated | LxAnlyzr_Prsr.c:122-123 | a NUL written after a text hides whatever the buffer holds beyond it |
| Lexicon.CStringWhole | LxAnlyzr_Prsr.c:192-195 | a buffer without a NUL prints in full |
| Scanning.RunEndMaximal | LxAnlyzr_Prsr.c:165-168 | the loops of `getNonBlank` and `lex` stop at the end of a maximal run: every character before the stop is in the run and the stopping character is not |
| Scanning.RunEnd | LxAnlyzr_Prsr.c:150-153 | where a `while` loop over a class of characters stops: never before its start and never past the end of input |
| Scanning.Kept | LxAnlyzr_Prsr.c:119-127 | what `addChar` stores of a run: as many characters as there is room for, and the whole run when it fits in 99 |
| Scanning.Dropped | LxAnlyzr_Prsr.c:121-126 | how many `addChar` calls of a run find the buffer full: none for a run of at most 99, and the excess over 99 otherwise |
| Scanning.KeptExtend | LxAnlyzr_Prsr.c:119-127 | one more character of a run is stored while fewer than 99 are stored; otherwise the buffer is unchanged and one more overflow is reported |
| Scanning.LexemeLengthBoundary | LxAnlyzr_Prsr.c:121-126 | a lexeme of 99 characters is kept whole with no report; one of 100 is cut to 99 with exactly one report |
| Scanning.Scan | LxAnlyzr_Prsr.c:157-201 | one `lex` never moves the cursor backwards, keeps at most 99 characters, and gives EOF with lexeme `EOF` at the end of input exactly when only blanks remain |
| Scanning.ScanByClass | LxAnlyzr_Prsr.c:160-197 | unfolding lemma, restating the definition branch by branch: each case of `lex`'s switch (LETTER, DIGIT, UNKNOWN, EOF), chosen by the class of the first non-blank character, gives the token, lexeme, cursor and report count of that case |
| Scanning.ScanRun | LxAnlyzr_Prsr.c:162-181 | unfolding lemma, restating the definition branch by branch: from a letter (a digit), `lex` gives IDENT (INT_LIT) with the kept part of the run of letters and digits (of digits) starting there, and stops after it |
| Scanning.ScanAfterBlanks | LxAnlyzr_Prsr.c:158-159 | skipping the leading blanks first changes neither the outcome of `lex` nor whether the end of input is reached |
| Scanning.ScanProgress | LxAnlyzr_Prsr.c:150-196 | `lex` skips white space; at end of input it gives EOF with lexeme `EOF` and consumes nothing more; otherwise it consumes at least one non-blank character |
| Scanning.ScanIdentifier | LxAnlyzr_Prsr.c:162-170 | on a letter, `lex` gives IDENT whose lexeme is the maximal run of letters and digits (its first 99 characters), and the cursor stops on the first character that is neither |
| Scanning.ScanInteger | LxAnlyzr_Prsr.c:173-181 | on a digit, `lex` gives INT_LIT with the maximal run of digits, and stops on the first non-digit, so a following letter is not absorbed |
| Scanning.ScanPunctuation | LxAnlyzr_Prsr.c:184-187 | any other non-blank character is consumed alone as its own lexeme; its token is the operator it stands for, or EOF when it stands for none |
| Scanning.DigitsThenLetters | LxAnlyzr_Prsr.c:173-181 | `12ab` scans as INT_LIT `12` and then IDENT `ab` |
| Scanning.NextLook | LxAnlyzr_Prsr.c:157-201 | the lookahead after one `lex` never moves backwards; it stays put only by giving EOF; it strictly lowers the measure whenever the current token is not EOF; and it never lowers the report count |
| Scanning.NextLookAfterBlanks | LxAnlyzr_Prsr.c:158-160 | the blanks before a token do not change what the next `lex` gives |
| Scanning.NextLookAtEnd | LxAnlyzr_Prsr.c:190-196 | once only blanks remain, `lex` gives EOF with lexeme `EOF`, moves to the end of input and reports nothing |
| Layout.Spaces | LxAnlyzr_Prsr.c:209 | `%*s` with an empty string prints exactly `indent` spaces |
| Layout.IndentedLead | LxAnlyzr_Prsr.c:209 | a trace line written at indentation `n` has exactly `n` leading spaces, followed by its text |
| Recognizer.Expr | LxAnlyzr_Prsr.c:207-223 | `expr` never moves the scanner backwards or raises the measure, consumes nothing at EOF, and returns with a token that is neither `+` nor `-` |
| Recognizer.ExprRest | LxAnlyzr_Prsr.c:214-218 | the loop of `expr` stops only on a token that is neither `+` nor `-`, and never moves the scanner backwards |
| Recognizer.Term | LxAnlyzr_Prsr.c:225-240 | `term` never moves the scanner backwards or raises the measure, consumes nothing at EOF, and returns with a token that is neither `*` nor `/` |
| Recognizer.TermRest | LxAnlyzr_Prsr.c:232-236 | the loop of `term` stops only on a token that is neither `*` nor `/`, and never moves the scanner backwards |
| Recognizer.Factor | LxAnlyzr_Prsr.c:242-274 | `factor` never moves the scanner backwards, and on a token that starts no factor it leaves the lookahead untouched |
| Recognizer.FactorId | LxAnlyzr_Prsr.c:247-251 | unfolding lemma, restating the definition branch by branch: on an identifier or literal, `factor` writes its lexeme as a leaf at the inner indentation and scans one token |
| Recognizer.FactorParen | LxAnlyzr_Prsr.c:254-265 | unfolding lemma, restating the definition branch by branch: on `(`, `factor` writes `[LEFT_PAREN]` and the inner expression's lines. It then writes `[RIGHT_PAREN]` and scans past the `)` when one follows, and otherwise writes the unindented missing-parenthesis error and leaves the lookahead as the expression left it |
| Recognizer.FactorInvalid | LxAnlyzr_Prsr.c:266-269 | unfolding lemma, restating the definition branch by branch: on any other token, `factor` writes the unindented invalid-factor error between its own opening and closing lines and does not scan |
| Recognizer.DriveFrom | LxAnlyzr_Prsr.c:73-76 | the driver stops only when the lookahead token is EOF |
| Recognizer.DriveLoopFrom | LxAnlyzr_Prsr.c:73-76 | the `do`/`while` loop of `main`, run after a first round, writes exactly the lines of `DriveFrom` after what was already written, and stops where it stops |
| Recognizer.DriveLoop | LxAnlyzr_Prsr.c:73-76 | the `do`/`while` loop of `main` as it runs, appending each round's lines; it ends only on the token EOF |
| Recognizer.EofTerm | LxAnlyzr_Prsr.c:225-240 | at end of input `term` writes a factor holding only the invalid-factor error, and consumes nothing |
| Recognizer.EofExpr | LxAnlyzr_Prsr.c:207-223 | at end of input `expr` writes the seven lines of an invalid factor inside a term inside an expression, and consumes nothing |
| Recognizer.BlankInputTrace | LxAnlyzr_Prsr.c:72-76 | on an input of only white space the program writes exactly those seven lines |
| Scenarios.NextLookSingle | LxAnlyzr_Prsr.c:157-201 | a character that is neither white space nor NUL, and is punctuation or a letter or digit not followed by a letter or digit, is one lexeme: `lex` gives the token of its class (IDENT, INT_LIT or what `lookup` gives), the lexeme is that character, and the cursor moves one place |
| Scenarios.IdFactorStep | LxAnlyzr_Prsr.c:247-251 | a factor on an identifier or literal is the three lines `[factor`, `[id [...]]`, `]` and one scan |
| Scenarios.IdTerm | LxAnlyzr_Prsr.c:225-240 | a term on an identifier or literal that is followed by neither `*` nor `/` is the five lines of that single factor |
| Scenarios.TermRestOnce | LxAnlyzr_Prsr.c:232-236 | `term`'s loop that meets one `*` or `/`, and then a factor followed by neither, writes the operator leaf and that factor's lines and stops |
| Scenarios.ExprRestOnce | LxAnlyzr_Prsr.c:214-218 | `expr`'s loop that meets one `+` or `-`, and then a term followed by neither, writes the operator leaf and that term's lines and stops |
| Scenarios.SumExpr | LxAnlyzr_Prsr.c:207-223 | `x + y` (or `x - y`) over two identifiers or literals, followed by no operator, is one expression holding two five-line terms around the operator leaf |
| Scenarios.PrecedenceTokens | LxAnlyzr_Prsr.c:157-201 | `a+b*c` is scanned as `a`, `+`, `b`, `*`, `c`, then EOF |
| Scenarios.PrecedenceTrace | LxAnlyzr_Prsr.c:207-240 | the trace of `a+b*c`, line by line: the product `b*c` is a single term, the second operand of `+` |
| Scenarios.ParenSumTokens | LxAnlyzr_Prsr.c:157-201 | an input that starts with `(a+b`, followed by neither a letter nor a digit, is scanned first as `(`, then `a`, then `+`, then `b` |
| Scenarios.GroupingTokens | LxAnlyzr_Prsr.c:157-201 | `(a+b)*c` is scanned as `(`, `a`, `+`, `b`, `)`, `*`, `c`, then EOF |
| Scenarios.GroupingTrace | LxAnlyzr_Prsr.c:242-265 | the trace of `(a+b)*c`, line by line: the sum is an expression nested inside the first factor of the product, between `[LEFT_PAREN]` and `[RIGHT_PAREN]` |
| Scenarios.MissingParenTokens | LxAnlyzr_Prsr.c:157-201 | `(a+b` is scanned as `(`, `a`, `+`, `b`, then EOF |
| Scenarios.MissingParenTrace | LxAnlyzr_Prsr.c:260-263 | the trace of `(a+b`, line by line: the missing-parenthesis error is written once, at the margin, after the inner expression, and then the factor, the term and the expression close in that order |
| Scenarios.LiteralTokens | LxAnlyzr_Prsr.c:173-181 | `123+x` is scanned as the literal `123` (INT_LIT), `+`, the identifier `x`, then EOF |
| Scenarios.LiteralExpr | LxAnlyzr_Prsr.c:72-76 | the driver recognises `123+x` as one expression, the sum of two single-factor terms, and stops at EOF |
| Scenarios.LiteralTrace | LxAnlyzr_Prsr.c:247-251 | the trace of `123+x`, line by line: the literal and the identifier are both written as `[id [...]]` leaves |
| Scenarios.UnknownCharTokens | LxAnlyzr_Prsr.c:110-112 | `a#b` is scanned as `a` and then `#`, whose token is EOF |
| Scenarios.SingleTokens | LxAnlyzr_Prsr.c:157-201 | the one-character input `a` is scanned as `a`, then EOF |
| Scenarios.SingleTrace | LxAnlyzr_Prsr.c:72-76 | an input whose first token is an identifier or literal, and whose second token is EOF, is traced as that single expression |
| Scenarios.UnknownCharTrace | LxAnlyzr_Prsr.c:76 | the driver stops at the `#` of `a#b` with `b` unread, so the trace of `a#b` equals the trace of `a`, the seven lines of one expression |
| Nesting.ExprShape | LxAnlyzr_Prsr.c:209-220 | unfolding lemma, restating the definition branch by branch: `expr` writes one `[expr` line and one `]` line, both at its entry indentation, around everything else it writes |
| Nesting.TermShape | LxAnlyzr_Prsr.c:227-238 | unfolding lemma, restating the definition branch by branch: `term` writes one `[term` line and one `]` line, both at its entry indentation, around everything else it writes |
| Nesting.FactorShape | LxAnlyzr_Prsr.c:244-273 | `factor` writes one `[factor` line and one `]` line, both at its entry indentation, around the lines of the branch taken |
| Nesting.ExprNests | LxAnlyzr_Prsr.c:207-223 | the lines `expr` writes are well nested from its indentation: brackets balance and every line sits four spaces per open rule |
| Nesting.ExprRestNests | LxAnlyzr_Prsr.c:214-218 | the operator leaves and terms written by `expr`'s loop are well nested at the inner indentation |
| Nesting.TermNests | LxAnlyzr_Prsr.c:225-240 | the lines `term` writes are well nested from its indentation |
| Nesting.TermRestNests | LxAnlyzr_Prsr.c:232-236 | the operator leaves and factors written by `term`'s loop are well nested at the inner indentation |
| Nesting.ParenNests | LxAnlyzr_Prsr.c:254-265 | `[LEFT_PAREN]`, a well-nested expression and either `[RIGHT_PAREN]` or the unindented error are well nested at the inner indentation |
| Nesting.FactorNests | LxAnlyzr_Prsr.c:242-274 | the lines `factor` writes are well nested from its indentation, the error messages being at the margin |
| Nesting.DriveNests | LxAnlyzr_Prsr.c:73-76 | the driver's lines, one expression after another, are well nested |
| Nesting.TraceWellNested | LxAnlyzr_Prsr.c:62-80 | for every input, the whole output file is well nested from the margin |
| Levels.NextLookLexed | LxAnlyzr_Prsr.c:83-116 | after every `lex` an operator token's lexeme is its own character, since `lookup` sets `nextToken` and stores the character together |
| Levels.ExprLexed | LxAnlyzr_Prsr.c:207-223 | `expr` leaves a lookahead whose operator token and lexeme agree, when it was given one |
| Levels.ExprRestLexed | LxAnlyzr_Prsr.c:214-218 | `expr`'s loop leaves a lookahead whose operator token and lexeme agree, when it was given one |
| Levels.TermLexed | LxAnlyzr_Prsr.c:225-240 | `term` leaves a lookahead whose operator token and lexeme agree, when it was given one |
| Levels.TermRestLexed | LxAnlyzr_Prsr.c:232-236 | `term`'s loop leaves a lookahead whose operator token and lexeme agree, when it was given one |
| Levels.FactorLexed | LxAnlyzr_Prsr.c:242-274 | `factor` leaves a lookahead whose operator token and lexeme agree, when it was given one |
| Levels.ExprFrom | LxAnlyzr_Prsr.c:207-223 | every line `expr` writes sits at its indentation or deeper, except error messages at the margin |
| Levels.ExprRestFrom | LxAnlyzr_Prsr.c:214-218 | every line `expr`'s loop writes sits at the loop's indentation or deeper, except error messages at the margin |
| Levels.TermFrom | LxAnlyzr_Prsr.c:225-240 | every line `term` writes sits at its indentation or deeper, except error messages at the margin |
| Levels.TermRestFrom | LxAnlyzr_Prsr.c:232-236 | every line `term`'s loop writes sits at the loop's indentation or deeper, except error messages at the margin |
| Levels.FactorFrom | LxAnlyzr_Prsr.c:242-274 | every line `factor` writes sits at its indentation or deeper, except error messages at the margin |
| Levels.FactorBody | LxAnlyzr_Prsr.c:244-273 | the lines `factor` writes between its opening and closing lines sit four spaces deeper or further, except error messages at the margin |
| Levels.TermOwn | LxAnlyzr_Prsr.c:227-238 | at its own indentation (not the margin) `term` writes only its opening `[term` and its closing `]` |
| Levels.FactorOwn | LxAnlyzr_Prsr.c:244-273 | at its own indentation (not the margin) `factor` writes only its opening `[factor` and its closing `]` |
| Levels.ExprRestAt | LxAnlyzr_Prsr.c:214-218 | at the column of its terms, `expr`'s loop writes one `[+]` or `[-]` leaf followed by a term's `[term` and `]` per round, and nothing else |
| Levels.TermRestAt | LxAnlyzr_Prsr.c:232-236 | at the column of its factors, `term`'s loop writes one `[*]` or `[/]` leaf followed by a factor's `[factor` and `]` per round, and nothing else |
| Levels.ExprLevel | LxAnlyzr_Prsr.c:207-223 | four spaces inside `expr` stand one or more terms, each a `[term` and `]` pair, with a `[+]` or `[-]` leaf between each two, and nothing else |
| Levels.TermLevel | LxAnlyzr_Prsr.c:225-240 | four spaces inside `term` stand one or more factors, each a `[factor` and `]` pair, with a `[*]` or `[/]` leaf between each two, and nothing else |
| Levels.RoundLevels | LxAnlyzr_Prsr.c:73-76 | in every round of `main`'s loop, the expression's terms and `+`/`-` leaves stand four spaces in, and its first term's factors and `*`/`/` leaves stand eight spaces in |
| Analyzer.Globals.constructor | LxAnlyzr_Prsr.c:22-72 | the globals start zeroed (empty buffer, no reports, indentation 0), and the priming `getChar` puts the cursor on the first character |
| Analyzer.Globals.GetChar | LxAnlyzr_Prsr.c:130-146 | reads one more character, or stays at end of input, and keeps `nextChar` and `charClass` in step with the cursor |
| Analyzer.Globals.GetNonBlank | LxAnlyzr_Prsr.c:150-153 | moves the cursor to the end of the run of white space |
| Analyzer.Globals.AddChar | LxAnlyzr_Prsr.c:119-127 | while `lexLen <= 98` it stores `nextChar` at `lexLen`, puts a NUL after it and increments `lexLen`; otherwise it changes neither buffer nor length and reports the overflow once; `lexLen` never exceeds 99 |
| Analyzer.Globals.Lookup | LxAnlyzr_Prsr.c:83-116 | stores the character as `addChar` does, and sets and returns the token `LookupToken` gives |
| Analyzer.Globals.Lex | LxAnlyzr_Prsr.c:157-201 | the new lookahead is the one `NextLook` describes. The buffer holds the lexeme followed by a NUL, its later cells untouched, and `lexLen` is the lexeme's length (0 at end of input) |
| Analyzer.Globals.LexRun | LxAnlyzr_Prsr.c:162-181 | the LETTER and DIGIT cases of `lex` give the lookahead and buffer that `Scan` describes |
| Analyzer.Globals.LexOther | LxAnlyzr_Prsr.c:184-187 | the UNKNOWN case of `lex` gives the lookahead and buffer that `Scan` describes |
| Analyzer.Globals.LexEnd | LxAnlyzr_Prsr.c:190-196 | the EOF case of `lex` writes `EOF` and a NUL into the buffer, consumes nothing and gives token EOF |
| Analyzer.Globals.LookAdvanced | LxAnlyzr_Prsr.c:157-201 | a scan whose token, cursor, report count and printed lexeme agree with `Scan` yields the lookahead `NextLook` gives |
| Analyzer.Globals.AddRun | LxAnlyzr_Prsr.c:165-168 | the inner loops of `lex` stop at the end of the maximal run. The buffer holds its first 99 characters and a NUL, and every character beyond them is reported |
| Analyzer.Globals.AddNext | LxAnlyzr_Prsr.c:166-167 | one `addChar(); getChar();` on a character of a run extends the stored prefix of the run by one character, or reports one overflow |
| Analyzer.Globals.Expr | LxAnlyzr_Prsr.c:207-223 | `expr` writes exactly the lines `Recognizer.Expr` gives, leaves the lookahead it gives, and restores `indent` |
| Analyzer.Globals.Term | LxAnlyzr_Prsr.c:225-240 | `term` writes exactly the lines `Recognizer.Term` gives, leaves the lookahead it gives, and restores `indent` |
| Analyzer.Globals.Factor | LxAnlyzr_Prsr.c:242-274 | `factor` writes exactly the lines `Recognizer.Factor` gives, leaves the lookahead it gives, and restores `indent` |
| Analyzer.Globals.Run | LxAnlyzr_Prsr.c:72-76 | the loop of `main` writes exactly the lines `Recognizer.DriveFrom` gives and ends with the token EOF |
| Analyzer.FilledExtend | LxAnlyzr_Prsr.c:121-126 | one more `addChar` on a lexeme stores the next character and a NUL while there is room, and leaves the buffer as it is otherwise |
| Analyzer.CStringFilled | LxAnlyzr_Prsr.c:249 | `%s` of a buffer holding a text, then a NUL, then anything prints what `%s` of the text alone prints (`CString` of the text, which is the whole text when it holds no NUL) |
| Analyzer.Analyze | LxAnlyzr_Prsr.c:62-80 | the program writes `Recognizer.Trace` of its input, and that trace is well nested from the margin |

## Left out

- File handling is left out: `fopen`, `getc` on a `FILE*`, `fprintf` to the
  output file and the return codes of `main`. The input file is the string
  `input` of `Globals`. Each recognizer method returns the lines it writes,
  each without its newline, and the output file is the result of `Run`.
- The `printf` of "Error - a lexeme is too long" goes to standard output. It
  is modelled as the counter `overflows`.
- The signedness of `char` against `EOF` is left out. `nextChar` at end of input is
  the sentinel 0xFF (`(char)EOF`), and end of input is the cursor reaching
  `|input|`. A 0xFF byte before the end of input is scanned by the model as an
  unrecognised character: token EOF, lexeme that byte, one character consumed.
  With a signed `char` the program takes that byte for end of input instead:
  token EOF, lexeme `EOF`, nothing consumed. The trace is the same either way,
  because both give the token EOF, whose lexeme is never written, and the
  driver stops on it.
- `isalpha`, `isdigit` and `isspace` are those of the C locale, over ASCII.
  Other locales are not modelled.
- `ASSIGN_OP` is declared but never produced; `=` falls into the
  unrecognised-character case like any other character.
- The global `token` (line 27) is never used and is not modelled.
- `%*s` is modelled as that many spaces in front of the line.
- `nextToken` starts as EOF rather than 0. The first `lex` overwrites it
  before anything reads it.
- The `Globals` constructor performs the priming `getChar()` of `main`
  (line 72) as well as the initialisation of the globals.
- `lex`'s switch cases are the methods `LexRun` (LETTER and DIGIT, with
  `AddRun` and `AddNext` for their inner loops), `LexOther` and `LexEnd`, so
  that each case is proved on its own. The statements are those of the source,
  in its order.
- The class invariant `Valid` does not state that the last cell of `lexeme`
  stays NUL. That fact follows from the buffer postconditions of `AddChar`
  and `Lex`.
- The postconditions of `Globals.Expr`, `Term`, `Factor` and `Run` describe
  the scanner through `Look()`: the token, the printed lexeme, the cursor and
  the report count. They leave `lexLen` and the buffer cells after the first
  NUL unstated. Nothing reads those before the next `lex` sets them again.
- The depth of the C call stack is left out. Deeply nested `(` make `expr`,
  `term` and `factor` recurse until the stack overflows; the model's
  recursion has no bound. The width of `int indent` is left out as well:
  the model's indentation is an unbounded `nat`.
