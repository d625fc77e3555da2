/** The program itself: its global variables as the fields of one object,
    and each procedure as a method on them, proved to do what the scanner
    and recognizer functions describe. */
module Analyzer {
  import opened Lexicon
  import opened Scanning
  import opened Layout
  import R = Recognizer
  import Nesting

  /** The global state of the analyzer. The input file is the sequence
      `input`; the lines written to the output file are the results of the
      recognizer's methods. */
  class Globals {
    /** The characters of the input file. */
    const input: string
    /** Index in `input` of the character held in `nextChar`; `|input|` once end of input is read. */
    var pos: nat
    var nextChar: char
    var charClass: CharClass
    /** `char lexeme[100]`. */
    const lexeme: array<char>
    var lexLen: int
    var nextToken: Token
    var indent: nat
    /** How many times "Error - a lexeme is too long" has been printed. */
    var overflows: nat

    /** The cursor agrees with the input; the buffer has 100 cells and a
        length of at most 99. */
    ghost predicate Valid()
      reads this`pos, this`nextChar, this`charClass, this`lexLen
    {
      && pos <= |input|
      && nextChar == CharAt(input, pos)
      && charClass == ClassAt(input, pos)
      && lexeme.Length == MaxLexeme + 1
      && 0 <= lexLen <= MaxLexeme
    }

    /** The scanner as the recognizer sees it. */
    ghost function Look(): Lookahead
      reads this`nextToken, this`pos, this`overflows, lexeme
    {
      Lookahead(nextToken, CString(lexeme[..]), pos, overflows)
    }

    /** The globals at program start, followed by the first `getChar()` of `main`. */
    constructor (input: string)
      ensures Valid() && fresh(lexeme)
      ensures this.input == input && pos == 0
      ensures lexLen == 0 && lexeme[..] == seq(MaxLexeme + 1, _ => NUL)
      ensures nextToken == Eof && indent == 0 && overflows == 0
      ensures Look() == R.Initial
    {
      this.input := input;
      lexeme := new char[MaxLexeme + 1](_ => NUL);
      lexLen := 0;
      nextToken := Eof;
      indent := 0;
      overflows := 0;
      pos := 0;
      nextChar := CharAt(input, 0);
      charClass := ClassAt(input, 0);
      new;
      assert CString(lexeme[..]) == [];
    }

    /** `getChar`: read the next character and classify it. */
    method GetChar()
      requires Valid()
      modifies this`pos, this`nextChar, this`charClass
      ensures Valid()
      ensures pos == if old(pos) < |input| then old(pos) + 1 else |input|
    {
      if pos < |input| {
        pos := pos + 1;
      }
      if pos < |input| {
        nextChar := input[pos];
        charClass := ClassOf(nextChar);
      } else {
        nextChar := EofChar;
        charClass := EndOfInput;
      }
    }

    /** `getNonBlank`: skip white space. */
    method GetNonBlank()
      requires Valid()
      modifies this`pos, this`nextChar, this`charClass
      ensures Valid()
      ensures pos == RunEnd(input, old(pos), Blanks)
    {
      while IsSpace(nextChar)
        invariant Valid()
        invariant RunEnd(input, pos, Blanks) == RunEnd(input, old(pos), Blanks)
        decreases |input| - pos
      {
        GetChar();
      }
    }

    /** `addChar`: append `nextChar` to the lexeme while there is room
        (`lexLen <= 98`), keeping the buffer NUL-terminated; otherwise report
        the overflow and leave the buffer as it is. */
    method AddChar()
      requires Valid()
      modifies this`lexLen, this`overflows, lexeme
      ensures Valid()
      ensures old(lexLen) < MaxLexeme ==>
        && lexLen == old(lexLen) + 1
        && lexeme[..] == old(lexeme[..])[old(lexLen) := nextChar][old(lexLen) + 1 := NUL]
        && overflows == old(overflows)
      ensures old(lexLen) == MaxLexeme ==>
        lexLen == old(lexLen) && lexeme[..] == old(lexeme[..]) && overflows == old(overflows) + 1
    {
      if lexLen <= 98 {
        lexeme[lexLen] := nextChar;
        lexLen := lexLen + 1;
        lexeme[lexLen] := NUL;
      } else {
        overflows := overflows + 1;
      }
    }

    /** `lookup`: store the character and classify it as an operator, or as
        EOF when it is none of `( ) + - * /`. */
    method Lookup(ch: char) returns (t: Token)
      requires Valid()
      modifies this`lexLen, this`overflows, this`nextToken, lexeme
      ensures Valid()
      ensures t == nextToken == LookupToken(ch)
      ensures old(lexLen) < MaxLexeme ==>
        && lexLen == old(lexLen) + 1
        && lexeme[..] == old(lexeme[..])[old(lexLen) := nextChar][old(lexLen) + 1 := NUL]
        && overflows == old(overflows)
      ensures old(lexLen) == MaxLexeme ==>
        lexLen == old(lexLen) && lexeme[..] == old(lexeme[..]) && overflows == old(overflows) + 1
    {
      match ch {
      case '(' =>
        AddChar();
        nextToken := LeftParen;
      case ')' =>
        AddChar();
        nextToken := RightParen;
      case '+' =>
        AddChar();
        nextToken := AddOp;
      case '-' =>
        AddChar();
        nextToken := SubOp;
      case '*' =>
        AddChar();
        nextToken := MultOp;
      case '/' =>
        AddChar();
        nextToken := DivOp;
      case _ =>
        AddChar();
        nextToken := Eof;
      }
      t := nextToken;
    }

    /** `lex`: scan the next token. The new lookahead is the one `NextLook`
        describes; the buffer holds the lexeme (`"EOF"` at end of input)
        followed by a NUL, its later cells untouched. */
    method Lex() returns (t: Token)
      requires Valid()
      modifies this`pos, this`nextChar, this`charClass, this`lexLen, this`overflows, this`nextToken, lexeme
      ensures Valid()
      ensures Look() == NextLook(input, old(Look()))
      ensures t == nextToken
      ensures var s := Scan(input, old(pos));
        && lexeme[..] == Filled(old(lexeme[..]), s.text)
        && lexLen == if AtEnd(input, old(pos)) then 0 else |s.text|
    {
      ghost var st := Look();
      lexLen := 0;
      GetNonBlank();
      ScanAfterBlanks(input, old(pos));
      NextLookAfterBlanks(input, st);
      ghost var mid := Look();
      assert mid == st.(pos := pos);
      match charClass {
      case Letter =>
        LexRun(Word);
      case Digit =>
        LexRun(Digits);
      case Unknown =>
        LexOther();
      case EndOfInput =>
        LexEnd();
      }
      t := nextToken;
    }

    /** The cases LETTER and DIGIT of `lex`: store the first character, then
        the rest of the identifier or literal, and classify it. */
    method LexRun(run: Run)
      requires Valid() && lexLen == 0 && run != Blanks
      requires ClassAt(input, pos) == if run == Word then Letter else Digit
      modifies this`pos, this`nextChar, this`charClass, this`lexLen, this`overflows, this`nextToken, lexeme
      ensures Valid()
      ensures Look() == NextLook(input, old(Look()))
      ensures var s := Scan(input, old(pos));
        lexeme[..] == Filled(old(lexeme[..]), s.text) && lexLen == |s.text|
    {
      ghost var start := pos;
      ScanRun(input, pos, run);
      AddChar();
      GetChar();
      AddRun(run, start, old(lexeme[..]));
      nextToken := RunToken(run);
      CStringFilled(old(lexeme[..]), Scan(input, old(pos)).text);
      LookAdvanced();
    }

    /** The case UNKNOWN of `lex`: the character is a lexeme of its own. */
    method LexOther()
      requires Valid() && lexLen == 0
      requires ClassAt(input, pos) == Unknown && !IsSpace(nextChar)
      modifies this`pos, this`nextChar, this`charClass, this`lexLen, this`overflows, this`nextToken, lexeme
      ensures Valid()
      ensures Look() == NextLook(input, old(Look()))
      ensures var s := Scan(input, old(pos));
        lexeme[..] == Filled(old(lexeme[..]), s.text) && lexLen == |s.text|
    {
      ScanByClass(input, pos);
      FilledFirst(lexeme[..], nextChar);
      var _ := Lookup(nextChar);
      GetChar();
      CStringFilled(old(lexeme[..]), Scan(input, old(pos)).text);
      LookAdvanced();
    }

    /** The case EOF of `lex`: the token is EOF and the buffer reads "EOF". */
    method LexEnd()
      requires Valid() && lexLen == 0 && pos == |input|
      modifies this`nextToken, lexeme
      ensures Valid()
      ensures Look() == NextLook(input, old(Look()))
      ensures lexeme[..] == Filled(old(lexeme[..]), Scan(input, old(pos)).text) && lexLen == 0
    {
      nextToken := Eof;
      lexeme[0], lexeme[1], lexeme[2], lexeme[3] := 'E', 'O', 'F', NUL;
      FilledEof(old(lexeme[..]));
      CStringFilled(old(lexeme[..]), "EOF");
      LookAdvanced();
    }

    /** The lookahead after a scan that produced the outcome of `Scan`. */
    twostate lemma LookAdvanced()
      requires old(pos) <= |input|
      requires var s := Scan(input, old(pos));
        && nextToken == s.token && pos == s.next && overflows == old(overflows) + s.dropped
        && CString(lexeme[..]) == CString(s.text)
      ensures Look() == NextLook(input, old(Look()))
    {
    }

    /** The loops of `lex` that collect the rest of a lexeme whose first
        character, at `start`, `addChar` has just stored over the buffer `buf`:
        `addChar(); getChar();` while the character is a letter or digit (for
        an identifier) or a digit (for a literal). The buffer ends up holding
        the first 99 characters of the run, and every character beyond them
        is reported. */
    method AddRun(run: Run, ghost start: nat, ghost buf: seq<char>)
      requires Valid() && run != Blanks && |buf| == MaxLexeme + 1
      requires pos == start + 1 && lexLen == 1 && lexeme[..] == buf[0 := input[start]][1 := NUL]
      modifies this`pos, this`nextChar, this`charClass, this`lexLen, this`overflows, lexeme
      ensures Valid()
      ensures pos == RunEnd(input, start + 1, run)
      ensures lexLen == |Kept(input[start..pos])| && lexeme[..] == Filled(buf, Kept(input[start..pos]))
      ensures overflows == old(overflows) + Dropped(pos - start)
    {
      FilledFirst(buf, input[start]);
      assert input[start..pos] == [input[start]];
      while charClass == Digit || (run == Word && charClass == Letter)
        invariant Valid()
        invariant start < pos && RunEnd(input, pos, run) == RunEnd(input, start + 1, run)
        invariant lexLen == Stored(pos - start) && lexeme[..] == Filled(buf, Kept(input[start..pos]))
        invariant overflows == old(overflows) + Dropped(pos - start)
        decreases |input| - pos
      {
        AddNext(start, buf);
      }
    }

    /** One round of those loops: `addChar(); getChar();` on a character of the run. */
    method AddNext(ghost start: nat, ghost buf: seq<char>)
      requires Valid() && start < pos < |input| && |buf| == MaxLexeme + 1
      requires lexLen == Stored(pos - start) && lexeme[..] == Filled(buf, Kept(input[start..pos]))
      modifies this`pos, this`nextChar, this`charClass, this`lexLen, this`overflows, lexeme
      ensures Valid() && pos == old(pos) + 1
      ensures lexLen == Stored(pos - start) && lexeme[..] == Filled(buf, Kept(input[start..pos]))
      ensures overflows == old(overflows) + (Dropped(pos - start) - Dropped(old(pos) - start))
    {
      ghost var run := input[start..pos];
      assert input[start..pos + 1] == run + [nextChar];
      FilledExtend(buf, run, nextChar);
      AddChar();
      ghost var stored := lexeme[..];
      assert stored == Filled(buf, Kept(run + [input[pos]]));
      GetChar();
    }

    /** `expr`: write `[expr`, recognise terms separated by `+` or `-`, write `]`.
        `lines` are the lines it writes; the indentation is restored on return. */
    method Expr() returns (lines: seq<string>)
      requires Valid()
      modifies this, lexeme
      ensures Valid()
      ensures var r := R.Expr(input, old(Look()), old(indent));
        Look() == r.after && lines == r.trace && indent == old(indent)
      decreases Measure(input, Look()), 2
    {
      ghost var st := Look();
      lines := [Indented(indent, "[expr")];
      indent := indent + 4;
      var first := Term();
      lines := lines + first;
      ghost var la := Look();
      ghost var goal := R.ExprRest(input, la, indent);
      ghost var all := lines + goal.trace;
      while nextToken == AddOp || nextToken == SubOp
        invariant Valid() && indent == old(indent) + 4 && la == Look()
        invariant Measure(input, la) <= Measure(input, st)
        invariant R.ExprRest(input, la, indent).after == goal.after
        invariant lines + R.ExprRest(input, la, indent).trace == all
        decreases Measure(input, la)
      {
        ghost var next := R.Term(input, NextLook(input, la), indent);
        Regroup4(lines, [Indented(indent, "[" + la.text + "]")], next.trace, R.ExprRest(input, next.after, indent).trace);
        lines := lines + [Indented(indent, "[" + CString(lexeme[..]) + "]")];
        var _ := Lex();
        var t := Term();
        lines := lines + t;
        la := Look();
      }
      assert lines == all;
      indent := indent - 4;
      lines := lines + [Indented(indent, "]")];
    }

    /** `term`: write `[term`, recognise factors separated by `*` or `/`, write `]`.
        `lines` are the lines it writes; the indentation is restored on return. */
    method Term() returns (lines: seq<string>)
      requires Valid()
      modifies this, lexeme
      ensures Valid()
      ensures var r := R.Term(input, old(Look()), old(indent));
        Look() == r.after && lines == r.trace && indent == old(indent)
      decreases Measure(input, Look()), 1
    {
      ghost var st := Look();
      lines := [Indented(indent, "[term")];
      indent := indent + 4;
      var first := Factor();
      lines := lines + first;
      ghost var la := Look();
      ghost var goal := R.TermRest(input, la, indent);
      ghost var all := lines + goal.trace;
      while nextToken == MultOp || nextToken == DivOp
        invariant Valid() && indent == old(indent) + 4 && la == Look()
        invariant Measure(input, la) <= Measure(input, st)
        invariant R.TermRest(input, la, indent).after == goal.after
        invariant lines + R.TermRest(input, la, indent).trace == all
        decreases Measure(input, la)
      {
        ghost var next := R.Factor(input, NextLook(input, la), indent);
        Regroup4(lines, [Indented(indent, "[" + la.text + "]")], next.trace, R.TermRest(input, next.after, indent).trace);
        lines := lines + [Indented(indent, "[" + CString(lexeme[..]) + "]")];
        var _ := Lex();
        var f := Factor();
        lines := lines + f;
        la := Look();
      }
      assert lines == all;
      indent := indent - 4;
      lines := lines + [Indented(indent, "]")];
    }

    /** `factor`: an identifier or literal, or `( expr )`. The two errors are
        written at the margin and leave the lookahead token unconsumed. */
    method Factor() returns (lines: seq<string>)
      requires Valid()
      modifies this, lexeme
      ensures Valid()
      ensures var r := R.Factor(input, old(Look()), old(indent));
        Look() == r.after && lines == r.trace && indent == old(indent)
      decreases Measure(input, Look()), 0
    {
      ghost var st := Look();
      lines := [Indented(indent, "[factor")];
      indent := indent + 4;
      if nextToken == Ident || nextToken == IntLit {
        R.FactorId(input, st, old(indent));
        lines := lines + [Indented(indent, "[id [" + CString(lexeme[..]) + "]]")];
        var _ := Lex();
      } else if nextToken == LeftParen {
        R.FactorParen(input, st, old(indent));
        var body := [Indented(indent, "[LEFT_PAREN]")];
        var _ := Lex();
        var inner := Expr();
        body := body + inner;
        if nextToken == RightParen {
          body := body + [Indented(indent, "[RIGHT_PAREN]")];
          var _ := Lex();
        } else {
          body := body + [R.MissingRightParen];
        }
        lines := lines + body;
      } else {
        R.FactorInvalid(input, st, old(indent));
        lines := lines + [R.InvalidFactor];
      }
      indent := indent - 4;
      lines := lines + [Indented(indent, "]")];
    }

    /** The loop of `main`: `do { lex(); expr(); } while (nextToken != EOF)`.
        `lines` are the lines written to the output file. */
    method Run() returns (lines: seq<string>)
      requires Valid()
      modifies this, lexeme
      ensures Valid()
      ensures var r := R.DriveFrom(input, old(Look()), old(indent));
        Look() == r.after && lines == r.trace && indent == old(indent)
    {
      ghost var st := Look();
      R.DriveLoopFrom(input, st, indent, []);
      lines := [];
      var _ := Lex();
      var e := Expr();
      lines := lines + e;
      ghost var la := Look();
      ghost var goal := R.DriveLoop(input, la, indent, lines);
      while nextToken != Eof
        invariant Valid() && indent == old(indent) && la == Look()
        invariant R.DriveLoop(input, la, indent, lines) == goal
        decreases Measure(input, la)
      {
        var _ := Lex();
        e := Expr();
        lines := lines + e;
        la := Look();
      }
    }
  }

  /** The buffer `buf` once `text` and a NUL are written over its first cells. */
  ghost function Filled(buf: seq<char>, text: string): (r: seq<char>)
    requires |text| < |buf|
    ensures |r| == |buf|
  {
    text + [NUL] + buf[|text| + 1..]
  }

  /** The first `addChar` of a lexeme. */
  lemma FilledFirst(buf: seq<char>, c: char)
    requires |buf| >= 2
    ensures buf[0 := c][1 := NUL] == Filled(buf, [c])
  {
  }

  /** The four cells `lex` writes at end of input. */
  lemma FilledEof(buf: seq<char>)
    requires |buf| >= 4
    ensures buf[0 := 'E'][1 := 'O'][2 := 'F'][3 := NUL] == Filled(buf, "EOF")
  {
  }

  /** One more `addChar` on a lexeme of which `run` has been read: the
      buffer takes `c` while it has room and is left as it is otherwise. */
  lemma FilledExtend(buf: seq<char>, run: string, c: char)
    requires |buf| == MaxLexeme + 1
    ensures |run| < MaxLexeme ==>
      Filled(buf, Kept(run))[|run| := c][|run| + 1 := NUL] == Filled(buf, Kept(run + [c]))
    ensures |run| >= MaxLexeme ==> Filled(buf, Kept(run + [c])) == Filled(buf, Kept(run))
  {
    KeptExtend(run, c);
  }

  /** `%s` of the buffer prints what was written. */
  lemma CStringFilled(buf: seq<char>, text: string)
    requires |text| < |buf|
    ensures CString(Filled(buf, text)) == CString(text)
  {
    CStringTerminated(text, buf[|text| + 1..]);
  }

  /** `main` without its file handling: run the analyzer over an input and
      return the lines it writes, which form a well-nested trace. */
  method Analyze(input: string) returns (trace: seq<string>)
    ensures trace == R.Trace(input)
    ensures WellNested(trace, 0)
  {
    var g := new Globals(input);
    trace := g.Run();
    Nesting.TraceWellNested(input);
  }
}
