/** The layout of the trace: lines indented by `indent` spaces, and a
    checker that reads a trace back as nested brackets. */
module Layout {

  datatype Option<T> = None | Some(value: T)

  /** What `%*s` prints for a width of `n` and an empty string. */
  function Spaces(n: nat): (s: string)
    ensures |s| == n
    ensures forall k :: 0 <= k < n ==> s[k] == ' '
  {
    seq(n, _ => ' ')
  }

  /** The number of leading spaces of a line. */
  function Lead(line: string): (n: nat)
    ensures n <= |line|
    ensures forall k :: 0 <= k < n ==> line[k] == ' '
    ensures n < |line| ==> line[n] != ' '
  {
    if |line| > 0 && line[0] == ' ' then 1 + Lead(line[1..]) else 0
  }

  /** A trace line: `fprintf(out_fp, "%*s<body>\n", indent, "")` without the newline. */
  function Indented(n: nat, body: string): string {
    Spaces(n) + body
  }

  /** A line written at an indentation of `n` has exactly `n` leading spaces. */
  lemma IndentedLead(n: nat, body: string)
    requires |body| > 0 && body[0] != ' '
    ensures Lead(Indented(n, body)) == n
    ensures Indented(n, body)[n..] == body
  {
    var line := Indented(n, body);
    assert line[n] == body[0];
    assert line[n..] == body;
  }

  /** The four kinds of trace line: the opening `[rule` of a rule, its
      closing `]`, a leaf `[...]`, and an unindented error message. */
  datatype Shape = Open | Close | Leaf | Message

  /** The kind of a line, judged from what follows its indentation. */
  function ShapeOf(line: string): Shape {
    var body := line[Lead(line)..];
    if body == "]" then Close
    else if |body| >= 2 && body[0] == '[' && body[|body| - 1] == ']' then Leaf
    else if |body| >= 1 && body[0] == '[' then Open
    else Message
  }

  /** Where a reader of the trace stands: the column the next line at this
      depth must start at, and how many rules are open. */
  datatype Frame = Frame(col: nat, depth: nat)

  /** Reading one line: an opening line must start at the column and goes one
      level deeper (four more spaces); a closing line needs an open rule and
      starts four spaces to the left; a leaf stays at the column; an error
      message is unindented. `None` reports a line out of place. */
  function Advance(line: string, f: Frame): Option<Frame> {
    match ShapeOf(line)
    case Open => if Lead(line) == f.col then Some(Frame(f.col + 4, f.depth + 1)) else None
    case Close => if f.depth > 0 && Lead(line) + 4 == f.col then Some(Frame(Lead(line), f.depth - 1)) else None
    case Leaf => if Lead(line) == f.col then Some(f) else None
    case Message => if Lead(line) == 0 then Some(f) else None
  }

  /** Reading a sequence of lines. */
  function Walk(lines: seq<string>, f: Frame): Option<Frame>
    decreases |lines|
  {
    if lines == [] then Some(f)
    else match Advance(lines[0], f)
      case None => None
      case Some(g) => Walk(lines[1..], g)
  }

  /** A trace whose brackets balance, every line at four spaces per open
      rule from column `col`, every error message unindented. */
  predicate WellNested(lines: seq<string>, col: nat) {
    Walk(lines, Frame(col, 0)) == Some(Frame(col, 0))
  }

  /** Reading two traces one after the other. */
  lemma {:induction false} WalkAppend(a: seq<string>, b: seq<string>, f: Frame)
    ensures Walk(a + b, f) == match Walk(a, f) case None => None case Some(g) => Walk(b, g)
    decreases |a|
  {
    if a != [] {
      assert (a + b)[0] == a[0];
      assert (a + b)[1..] == a[1..] + b;
      match Advance(a[0], f)
      case None =>
      case Some(g) => WalkAppend(a[1..], b, g);
    } else {
      assert a + b == b;
    }
  }

  /** Reading a single line. */
  lemma WalkOne(line: string, f: Frame)
    ensures Walk([line], f) == Advance(line, f)
  {
    assert [line][1..] == [];
  }

  /** The opening line `[rule` at indentation `n`. */
  lemma OpenLine(n: nat, open: string)
    requires open == "[expr" || open == "[term" || open == "[factor"
    ensures Lead(Indented(n, open)) == n
    ensures ShapeOf(Indented(n, open)) == Open
  {
    IndentedLead(n, open);
  }

  /** A rule's trace that returns to where it started, between its opening
      line and its closing line at indentation `n`, returns to `n` too. */
  lemma {:induction false} RuleNests(n: nat, open: string, inner: seq<string>, d: nat)
    requires open == "[expr" || open == "[term" || open == "[factor"
    requires Walk(inner, Frame(n + 4, d + 1)) == Some(Frame(n + 4, d + 1))
    ensures Walk([Indented(n, open)] + inner + [Indented(n, "]")], Frame(n, d)) == Some(Frame(n, d))
  {
    var first := Indented(n, open);
    var last := Indented(n, "]");
    OpenLine(n, open);
    CloseLine(n);
    WalkAppend([first] + inner, [last], Frame(n, d));
    WalkAppend([first], inner, Frame(n, d));
    WalkOne(first, Frame(n, d));
    WalkOne(last, Frame(n + 4, d + 1));
  }

  /** The closing line at indentation `n`. */
  lemma CloseLine(n: nat)
    ensures Lead(Indented(n, "]")) == n
    ensures ShapeOf(Indented(n, "]")) == Close
  {
    IndentedLead(n, "]");
  }

  /** A leaf `[...]` at indentation `n`. */
  lemma LeafLine(n: nat, body: string)
    requires |body| >= 2 && body[0] == '[' && body[|body| - 1] == ']'
    ensures Lead(Indented(n, body)) == n
    ensures ShapeOf(Indented(n, body)) == Leaf
  {
    IndentedLead(n, body);
  }

  /** An error message, written at the left margin. */
  lemma MessageLine(msg: string)
    requires msg != [] && msg[0] != ' ' && msg[0] != '[' && msg[0] != ']'
    ensures Lead(msg) == 0 && ShapeOf(msg) == Message
  {
  }

  /** Regrouping a concatenation of four sequences. */
  lemma Regroup4<T>(a: seq<T>, b: seq<T>, c: seq<T>, d: seq<T>)
    ensures a + b + c + d == a + (b + c + d)
  {
  }

  /** Regrouping a concatenation of three sequences. */
  lemma Regroup3<T>(a: seq<T>, b: seq<T>, c: seq<T>)
    ensures a + b + c == a + (b + c)
  {
  }
}
