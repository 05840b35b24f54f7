/** The math mode of post format 3: the `math` and `mexpr` rules of post_fmt3.y. */
module MathMl {
  import opened Basics
  import opened Escape
  import opened Html

  /** The parse trees of `mexpr`. */
  datatype MExpr =
    | Bin(op: FlatOp, left: MExpr, right: MExpr)
    | Sup(left: MExpr, right: MExpr)
    | Sub(left: MExpr, right: MExpr)
    | Paren(e: MExpr)
    | Brace(e: MExpr)
    | Frac(above: MExpr, below: MExpr)
    | Sqrt(e: MExpr)
    | Propto
    | Number(s: string)
    | Ident(s: string)
    | FracWord
    | SqrtWord
    | ProptoWord

  /** The operators that only juxtapose their operands. */
  datatype FlatOp = Plus | Minus | Times | Slash | Equal | Less | Greater | Tilde

  datatype MathList = First(e: MExpr) | More(m: MathList, e: MExpr)

  function Elem(name: string, toks: seq<Tok>): seq<Tok>
  {
    [Open(name, [])] + toks + [Close(name)]
  }

  function OpToks(op: FlatOp): seq<Tok>
  {
    match op
    case Plus => Elem("mo", [Text("+")])
    case Minus => Elem("mo", [Text("-")])
    case Times => Elem("mo", [Text("*")])
    case Slash => Elem("mo", [Text("/")])
    case Equal => Elem("mo", [Text("=")])
    case Less => Elem("mo", [Text("&lt;")])
    case Greater => Elem("mo", [Text("&gt;")])
    case Tilde => []
  }

  /** math_apply with two operands. */
  function Apply2(op: string, a: seq<Tok>, b: seq<Tok>): seq<Tok>
  {
    [Open(op, [])] + Elem("mrow", a) + Elem("mrow", b) + [Close(op)]
  }

  /** math_apply with one. */
  function Apply1(op: string, a: seq<Tok>): seq<Tok>
  {
    Elem(op, Elem("mrow", a))
  }

  function ExprToks(e: MExpr): seq<Tok>
  {
    match e
    case Bin(op, l, r) => ExprToks(l) + OpToks(op) + ExprToks(r)
    case Sup(l, r) => Apply2("msup", ExprToks(l), ExprToks(r))
    case Sub(l, r) => Apply2("msub", ExprToks(l), ExprToks(r))
    case Paren(e) => ParenToks(ExprToks(e))
    case Brace(e) => ExprToks(e)
    case Frac(a, b) => Apply2("mfrac", ExprToks(a), ExprToks(b))
    case Sqrt(e) => Apply1("msqrt", ExprToks(e))
    case Propto => Elem("mo", [Text("&prop;")])
    case Number(s) => Elem("mn", [Text(s)])
    case Ident(s) => Elem("mi", [Text(s)])
    case FracWord => Elem("mi", [Text("frac")])
    case SqrtWord => Elem("mi", [Text("sqrt")])
    case ProptoWord => Elem("mi", [Text("propto")])
  }

  function ParenToks(toks: seq<Tok>): seq<Tok>
  {
    Elem("mrow", Elem("mo", [Text("(")]) + Elem("mrow", toks) + Elem("mo", [Text(")")]))
  }

  function MathToks(m: MathList): seq<Tok>
  {
    match m
    case First(e) => ExprToks(e)
    case More(m, e) => MathToks(m) + ExprToks(e)
  }

  /** What the lexer guarantees of numbers and identifiers. */
  predicate Lexed(e: MExpr)
  {
    match e
    case Bin(_, l, r) => Lexed(l) && Lexed(r)
    case Sup(l, r) => Lexed(l) && Lexed(r)
    case Sub(l, r) => Lexed(l) && Lexed(r)
    case Paren(e) => Lexed(e)
    case Brace(e) => Lexed(e)
    case Frac(a, b) => Lexed(a) && Lexed(b)
    case Sqrt(e) => Lexed(e)
    case Number(s) => TagFree(s)
    case Ident(s) => TagFree(s)
    case _ => true
  }

  predicate LexedList(m: MathList)
  {
    match m
    case First(e) => Lexed(e)
    case More(m, e) => LexedList(m) && Lexed(e)
  }

  // ----- Balance ---------------------------------------------------------------------

  /** Balanced on its own and free of raw brackets. */
  ghost predicate Sound(toks: seq<Tok>)
  {
    Neutral(toks) && Clean(toks)
  }

  lemma SoundConcat(a: seq<Tok>, b: seq<Tok>)
    requires Sound(a) && Sound(b)
    ensures Sound(a + b)
  {
    NeutralConcat(a, b);
  }

  lemma SoundElem(name: string, toks: seq<Tok>)
    requires NameOk(name) && Sound(toks)
    ensures Sound(Elem(name, toks))
  {
    NeutralWrap(Open(name, []), toks, name);
  }

  lemma SoundText(s: string)
    requires TagFree(s)
    ensures Sound([Text(s)])
  {
    NeutralTexts([Text(s)]);
  }

  lemma SoundLeaf(name: string, s: string)
    requires NameOk(name) && TagFree(s)
    ensures Sound(Elem(name, [Text(s)]))
  {
    SoundText(s);
    SoundElem(name, [Text(s)]);
  }

  lemma SoundApply2(op: string, a: seq<Tok>, b: seq<Tok>)
    requires NameOk(op) && Sound(a) && Sound(b)
    ensures Sound(Apply2(op, a, b))
  {
    var rows := Elem("mrow", a) + Elem("mrow", b);
    SoundElem("mrow", a);
    SoundElem("mrow", b);
    SoundConcat(Elem("mrow", a), Elem("mrow", b));
    SoundElem(op, rows);
    assert Apply2(op, a, b) == Elem(op, rows);
  }

  lemma SoundParen(toks: seq<Tok>)
    requires Sound(toks)
    ensures Sound(ParenToks(toks))
  {
    var open, close := Elem("mo", [Text("(")]), Elem("mo", [Text(")")]);
    SoundLeaf("mo", "(");
    SoundLeaf("mo", ")");
    SoundElem("mrow", toks);
    SoundConcat(open, Elem("mrow", toks));
    SoundConcat(open + Elem("mrow", toks), close);
    SoundElem("mrow", open + Elem("mrow", toks) + close);
  }

  lemma SoundOp(op: FlatOp)
    ensures Sound(OpToks(op))
  {
    match op
    case Plus => SoundLeaf("mo", "+");
    case Minus => SoundLeaf("mo", "-");
    case Times => SoundLeaf("mo", "*");
    case Slash => SoundLeaf("mo", "/");
    case Equal => SoundLeaf("mo", "=");
    case Less => SoundLeaf("mo", "&lt;");
    case Greater => SoundLeaf("mo", "&gt;");
    case Tilde => NeutralTexts([]);
  }

  /** Every expression compiles to balanced MathML without raw brackets. */
  lemma {:induction false} ExprSound(e: MExpr)
    requires Lexed(e)
    ensures Sound(ExprToks(e))
  {
    match e
    case Bin(op, l, r) =>
      ExprSound(l);
      ExprSound(r);
      SoundOp(op);
      SoundConcat(ExprToks(l), OpToks(op));
      SoundConcat(ExprToks(l) + OpToks(op), ExprToks(r));
    case Sup(l, r) =>
      ExprSound(l);
      ExprSound(r);
      SoundApply2("msup", ExprToks(l), ExprToks(r));
    case Sub(l, r) =>
      ExprSound(l);
      ExprSound(r);
      SoundApply2("msub", ExprToks(l), ExprToks(r));
    case Paren(e) =>
      ExprSound(e);
      SoundParen(ExprToks(e));
    case Brace(e) =>
      ExprSound(e);
    case Frac(a, b) =>
      ExprSound(a);
      ExprSound(b);
      SoundApply2("mfrac", ExprToks(a), ExprToks(b));
    case Sqrt(e) =>
      ExprSound(e);
      SoundElem("mrow", ExprToks(e));
      SoundElem("msqrt", Elem("mrow", ExprToks(e)));
    case Propto => SoundLeaf("mo", "&prop;");
    case Number(s) => SoundLeaf("mn", s);
    case Ident(s) => SoundLeaf("mi", s);
    case FracWord => SoundLeaf("mi", "frac");
    case SqrtWord => SoundLeaf("mi", "sqrt");
    case ProptoWord => SoundLeaf("mi", "propto");
  }

  lemma {:induction false} MathSound(m: MathList)
    requires LexedList(m)
    ensures Sound(MathToks(m))
  {
    match m
    case First(e) =>
      ExprSound(e);
    case More(m, e) =>
      MathSound(m);
      ExprSound(e);
      SoundConcat(MathToks(m), ExprToks(e));
  }

  /** As a string: `<` and `>` occur only as part of tags, and the tags nest. */
  lemma MathNests(m: MathList)
    requires LexedList(m)
    ensures WellNestedHtml(Serialize(Elem("math", MathToks(m))))
  {
    MathSound(m);
    SoundElem("math", MathToks(m));
    MatchedTokensNest(Elem("math", MathToks(m)));
  }

  // ----- Precedence ----------------------------------------------------------------------

  datatype Piece = Operand(e: MExpr) | Operator(op: FlatOp)

  /** The operands and flat operators of a tree from left to right. */
  function InOrder(e: MExpr): seq<Piece>
  {
    if e.Bin? then InOrder(e.left) + [Operator(e.op)] + InOrder(e.right) else [Operand(e)]
  }

  function PieceToks(pieces: seq<Piece>): seq<Tok>
  {
    if pieces == [] then []
    else (if pieces[0].Operand? then ExprToks(pieces[0].e) else OpToks(pieces[0].op)) + PieceToks(pieces[1..])
  }

  lemma {:induction false} PieceToksConcat(a: seq<Piece>, b: seq<Piece>)
    ensures PieceToks(a + b) == PieceToks(a) + PieceToks(b)
  {
    if a == [] {
      assert a + b == b;
    } else {
      assert (a + b)[1..] == a[1..] + b;
      PieceToksConcat(a[1..], b);
    }
  }

  lemma {:induction false} InOrderDetermines(e: MExpr)
    ensures ExprToks(e) == PieceToks(InOrder(e))
  {
    if e.Bin? {
      InOrderDetermines(e.left);
      InOrderDetermines(e.right);
      PieceToksConcat(InOrder(e.left), [Operator(e.op)]);
      PieceToksConcat(InOrder(e.left) + [Operator(e.op)], InOrder(e.right));
      assert PieceToks([Operator(e.op)]) == OpToks(e.op);
    } else {
      assert PieceToks([Operand(e)]) == ExprToks(e);
    }
  }

  /** Two parses of the same operands and flat operators look the same, whatever
      precedence and associativity they follow. */
  lemma FlatPrecedenceInvisible(a: MExpr, b: MExpr)
    requires InOrder(a) == InOrder(b)
    ensures ExprToks(a) == ExprToks(b)
  {
    InOrderDetermines(a);
    InOrderDetermines(b);
  }

  /** With `^` the grouping shows: (1 + 2)^3 and 1 + (2^3) differ already in
      their first tag. */
  lemma SuperscriptPrecedenceVisible(x: MExpr, y: MExpr, z: MExpr)
    requires x.Number?
    ensures ExprToks(Sup(Bin(Plus, x, y), z)) != ExprToks(Bin(Plus, x, Sup(y, z)))
  {
    assert ExprToks(Sup(Bin(Plus, x, y), z))[0] == Open("msup", []);
    assert ExprToks(Bin(Plus, x, Sup(y, z)))[0] == Open("mn", []);
  }
}
