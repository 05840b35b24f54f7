/**
 What posts say.  The trees of Fmt3Blocks have a meaning of their own, written here by
 the names of the commands and environments: which text a visitor is to see, and as
 what.  The theorem is that a reader of HTML finds exactly that in the compiled text.
 */
module Fmt3Meaning {
  import opened Basics
  import opened Escape
  import opened Html
  import opened HtmlReader
  import opened Fmt3
  import opened Fmt3Nesting
  import opened Fmt3Blocks
  import MathMl

  // ----- The meaning of formulas --------------------------------------------------------------

  function Within(role: Role, note: string, m: seq<Mark>): seq<Mark>
  {
    [Begin(role, note)] + m + [End(role)]
  }

  function OperatorMarks(s: string): seq<Mark>
  {
    Within(Role.Operator, "", Spell(s))
  }

  function GroupMarks(m: seq<Mark>): seq<Mark>
  {
    Within(Role.Group, "", m)
  }

  /** The sign of an operator; the tilde shows nothing. */
  function SignMarks(op: MathMl.FlatOp): seq<Mark>
  {
    match op
    case Plus => OperatorMarks("+")
    case Minus => OperatorMarks("-")
    case Times => OperatorMarks("*")
    case Slash => OperatorMarks("/")
    case Equal => OperatorMarks("=")
    case Less => OperatorMarks("<")
    case Greater => OperatorMarks(">")
    case Tilde => []
  }

  function ExprMarks(e: MathMl.MExpr): seq<Mark>
  {
    match e
    case Bin(op, l, r) => ExprMarks(l) + SignMarks(op) + ExprMarks(r)
    case Sup(base, up) => Within(Role.Superscript, "", GroupMarks(ExprMarks(base)) + GroupMarks(ExprMarks(up)))
    case Sub(base, down) => Within(Role.Subscript, "", GroupMarks(ExprMarks(base)) + GroupMarks(ExprMarks(down)))
    case Paren(e) => GroupMarks(OperatorMarks("(") + GroupMarks(ExprMarks(e)) + OperatorMarks(")"))
    case Brace(e) => ExprMarks(e)
    case Frac(above, below) => Within(Role.Fraction, "", GroupMarks(ExprMarks(above)) + GroupMarks(ExprMarks(below)))
    case Sqrt(e) => Within(Role.Root, "", GroupMarks(ExprMarks(e)))
    case Propto => OperatorMarks(Utf8(0x221D))
    case Number(s) => Within(Role.Number, "", Spell(s))
    case Ident(s) => Within(Role.Identifier, "", Spell(s))
    case FracWord => Within(Role.Identifier, "", Spell("frac"))
    case SqrtWord => Within(Role.Identifier, "", Spell("sqrt"))
    case ProptoWord => Within(Role.Identifier, "", Spell("propto"))
  }

  function MathMarks(m: MathMl.MathList): seq<Mark>
  {
    match m
    case First(e) => ExprMarks(e)
    case More(m, e) => MathMarks(m) + ExprMarks(e)
  }

  /** Numbers and identifiers are plain text. */
  predicate PlainExpr(e: MathMl.MExpr)
  {
    match e
    case Bin(_, l, r) => PlainExpr(l) && PlainExpr(r)
    case Sup(l, r) => PlainExpr(l) && PlainExpr(r)
    case Sub(l, r) => PlainExpr(l) && PlainExpr(r)
    case Paren(e) => PlainExpr(e)
    case Brace(e) => PlainExpr(e)
    case Frac(a, b) => PlainExpr(a) && PlainExpr(b)
    case Sqrt(e) => PlainExpr(e)
    case Number(s) => PlainText(s)
    case Ident(s) => PlainText(s)
    case _ => true
  }

  predicate PlainMath(m: MathMl.MathList)
  {
    match m
    case First(e) => PlainExpr(e)
    case More(m, e) => PlainMath(m) && PlainExpr(e)
  }

  // ----- The meaning of text --------------------------------------------------------------------

  /** What the lexer makes of characters. */
  predicate Lexed(t: Thing)
  {
    match t
    case Word(s) => PlainText(s)
    case Dash(n) => 1 <= n <= 3
    case OpenQuote(n) => 1 <= n <= 2
    case CloseQuote(n) => 1 <= n <= 2
    case Special(c) => c in {'"', '<', '>'}
    case Escaped(c) => c in {'\\', '{', '}', '[', ']', '&', '_', '^', '~'}
    case MathEnv(m) => PlainMath(m)
    case _ => true
  }

  /** Text and nothing else. */
  predicate IsText(t: Thing)
  {
    && !t.Command? && !t.Ampersand? && !t.Verbatim? && !t.ListingEnv? && !IsSpecial(t)
    && !t.MathEnv? && t != Escaped('\\')
  }

  /** The characters a piece of text stands for; `code` if in a texttt environment. */
  function TextOf(t: Thing, code: bool): string
  {
    match t
    case Word(s) => s
    case Newline => if code then "\n" else " "
    case Dash(n) => if n == 1 then "-" else Utf8(if n == 2 then 0x2013 else 0x2014)
    case OpenQuote(n) => Utf8(if n == 1 then 0x2018 else 0x201C)
    case CloseQuote(n) => Utf8(if n == 1 then 0x2019 else 0x201D)
    case Special(c) => [c]
    case Ellipsis => Utf8(0x2026)
    case NoBreak => Utf8(0xA0)
    case Dollar => "$"
    case Percent => "%"
    case Escaped(c) => [c]
    case _ => ""
  }

  function LeafMarks(t: Thing, code: bool): seq<Mark>
  {
    if t.MathEnv? then Within(Role.Formula, "", MathMarks(t.m))
    else if t == Escaped('\\') then [LineBreak]
    else Spell(TextOf(t, code))
  }

  /** Leaves of text only, as in the target of a link. */
  predicate AllText(text: Inlines)
  {
    match text
    case One(i) => i.Leaf? && IsText(i.t)
    case More(front, i) => AllText(front) && i.Leaf? && IsText(i.t)
  }

  function TextOfAll(text: Inlines, code: bool): string
  {
    match text
    case One(i) => if i.Leaf? then TextOf(i.t, code) else ""
    case More(front, i) => TextOfAll(front, code) + if i.Leaf? then TextOf(i.t, code) else ""
  }

  // ----- The meaning of commands ------------------------------------------------------------------

  /** Where a link leads. */
  function Target(env: Env, name: string, target: string): string
  {
    match name
    case "photolink" => env.photoUrl + "/" + target
    case "post" => env.baseUrl + "/?p=" + target
    case "taglink" => env.baseUrl + "/?tag=" + target
    case "wiki" => env.wikiUrl + "/" + target
    case "bug" => env.bugUrl + "/" + target
    case _ => target
  }

  /** The picture in front of some links. */
  function Icon(env: Env, name: string): seq<Mark>
  {
    match name
    case "wiki" => [Picture(env.baseUrl + "/wiki.png", "Wikipedia article:")] + Spell(Utf8(0xA0))
    case "bug" => [Picture(env.baseUrl + "/bug.png", "bug #")] + Spell(Utf8(0xA0))
    case _ => []
  }

  function LinkMarks(env: Env, name: string, target: string, body: seq<Mark>): seq<Mark>
  {
    Within(Role.Hyperlink, Target(env, name, target), Icon(env, name) + body)
  }

  function PictureMarks(env: Env, name: string, target: string, alt: string): seq<Mark>
  {
    [Picture(if name == "photo" then env.photoUrl + "/" + target else target, alt)]
  }

  function FontMarks(name: string, m: seq<Mark>): seq<Mark>
  {
    match name
    case "emph" => Within(Role.Emphasis, "", m)
    case "textbf" => Within(Role.Strong, "", m)
    case "textit" => Within(Role.Italic, "", m)
    case "texttt" => Within(Role.Span, "tt", m)
    case _ => Spell(Utf8(0xB0)) + m
  }

  function SymbolText(name: string): string
  {
    match name
    case "leftarrow" => Utf8(0x2190)
    case "rightarrow" => Utf8(0x2192)
    case "leftrightarrow" => Utf8(0x2194)
    case _ => Utf8(0x2122)
  }

  /** What closes the paragraph around it, and opens another. */
  function Between(m: seq<Mark>): seq<Mark>
  {
    [End(Role.Paragraph)] + m + [Begin(Role.Paragraph, "")]
  }

  function HeadingMarks(name: string, m: seq<Mark>): seq<Mark>
  {
    match name
    case "section" => Between(Within(Role.Heading(3), "", m))
    case "subsection" => Between(Within(Role.Heading(4), "", m))
    case _ => Between(Within(Role.Heading(5), "", m))
  }

  function InlineMarks(env: Env, i: Inline, code: bool): seq<Mark>
  {
    match i
    case Leaf(t) => LeafMarks(t, code)
    case Font(name, body) => FontMarks(name, TextMarks(env, body, code))
    case Link(name, target) => LinkMarks(env, name, TextOfAll(target, code), TextMarks(env, target, code))
    case Captioned(name, caption, target) =>
      LinkMarks(env, name, TextOfAll(target, code), TextMarks(env, caption, code))
    case Photo(name, target) => PictureMarks(env, name, TextOfAll(target, code), "")
    case Described(name, alt, target) => PictureMarks(env, name, TextOfAll(target, code), TextOfAll(alt, code))
    case Short(text) => Within(Role.Abbreviation, TextOfAll(text, code), TextMarks(env, text, code))
    case Expanded(full, text) => Within(Role.Abbreviation, TextOfAll(full, code), TextMarks(env, text, code))
    case Symbol(name) => Spell(SymbolText(name))
    case Dropped(_, _) => []
    case UnknownCmd(name) => Spell("[INVAL CMD '" + name + "']")
    case UnknownEnviron(_, kind) => Spell("[INVAL ENVIRON '" + kind + "']")
  }

  function TextMarks(env: Env, text: Inlines, code: bool): seq<Mark>
  {
    match text
    case One(i) => InlineMarks(env, i, code)
    case More(front, i) => TextMarks(env, front, code) + InlineMarks(env, i, code)
  }

  /** Links of \post and \taglink are printed to a buffer of 1024 bytes. */
  ghost predicate InBuffer(env: Env, i: Inline)
  {
    forall st :: ThingOut(env, ThingOf(i), st).Ok? ==> |Serialize(ThingOut(env, ThingOf(i), st).value.toks)| < 1023
  }

  /** Text is as lexed, targets are text only, and links fit their buffer. */
  ghost predicate Legible(env: Env, i: Inline)
  {
    match i
    case Leaf(t) => Lexed(t)
    case Font(_, body) => LegibleText(env, body)
    case Link(name, target) =>
      AllText(target) && LegibleText(env, target) && (name in {"post", "taglink"} ==> InBuffer(env, i))
    case Captioned(name, caption, target) =>
      LegibleText(env, caption) && AllText(target) && LegibleText(env, target)
      && (name in {"post", "taglink"} ==> InBuffer(env, i))
    case Photo(_, target) => AllText(target) && LegibleText(env, target)
    case Described(_, alt, target) =>
      AllText(alt) && LegibleText(env, alt) && AllText(target) && LegibleText(env, target)
    case Short(text) => AllText(text) && LegibleText(env, text)
    case Expanded(full, text) => AllText(full) && LegibleText(env, full) && LegibleText(env, text)
    case Symbol(_) => true
    case Dropped(_, body) => LegibleText(env, body)
    case UnknownCmd(name) => PlainText(name)
    case UnknownEnviron(_, kind) => PlainText(kind)
  }

  ghost predicate LegibleText(env: Env, text: Inlines)
  {
    match text
    case One(i) => Legible(env, i)
    case More(front, i) => LegibleText(env, front) && Legible(env, i)
  }

  predicate PlainEnv(env: Env)
  {
    && PlainText(env.baseUrl) && PlainText(env.photoUrl) && PlainText(env.wikiUrl) && PlainText(env.bugUrl)
    && PlainText(env.strerror)
  }

  // ----- The meaning of blocks --------------------------------------------------------------------

  function ListRole(kind: string): Role
  {
    match kind
    case "enumerate" => Role.NumberedList
    case "itemize" => Role.BulletList
    case _ => Role.DefinitionList
  }

  /** What \listing shows: the file in the directory of the post, or an error text. */
  function FileText(env: Env, fname: string): string
  {
    var path := env.dataDir + "/posts/" + Decimal(env.postId) + "/" + fname;
    if path in env.files then env.files[path].content
    else "Failed to read in listing '" + Decimal(env.postId) + "/" + fname + "': " + env.strerror
  }

  function CodeMarks(m: seq<Mark>): seq<Mark>
  {
    Between(Within(Role.Preformatted, "", m))
  }

  function ItemMarks(env: Env, i: Item): seq<Mark>
  {
    match i
    case Bare(body) => Within(Role.ListItem, "", TextMarks(env, body, false))
    case Named(term, body) =>
      Within(Role.Term, "", TextMarks(env, term, false)) + Within(Role.Definition, "", TextMarks(env, body, false))
    case Gap(inline) => InlineMarks(env, inline, false)
  }

  function ItemsMarks(env: Env, items: Items): seq<Mark>
  {
    match items
    case NoItem => []
    case AddItem(front, i) => ItemsMarks(env, front) + ItemMarks(env, i)
  }

  function RowsMarks(env: Env, rows: Rows): seq<Mark>
  {
    match rows
    case NoRow => []
    case AddRow(front, cells) =>
      RowsMarks(env, front) + Within(Role.Row, "", Within(Role.Cell, "", CellsMarks(env, cells)))
    case AddGap(front, i) => RowsMarks(env, front) + InlineMarks(env, i, false)
  }

  function CellMarks(env: Env, c: Cell): seq<Mark>
  {
    match c
    case Content(i) => InlineMarks(env, i, false)
    case Separator => [End(Role.Cell), Begin(Role.Cell, "")]
    case Inner(rows) => Within(Role.Table, "", RowsMarks(env, rows))
  }

  function CellsMarks(env: Env, cells: Cells): seq<Mark>
  {
    match cells
    case OneCell(c) => CellMarks(env, c)
    case MoreCells(front, c) => CellsMarks(env, front) + CellMarks(env, c)
  }

  function BlockMarks(env: Env, b: Block): seq<Mark>
  {
    match b
    case Plain(i) => InlineMarks(env, i, false)
    case Special(_) => []
    case Heading(name, title) => HeadingMarks(name, TextMarks(env, title, false))
    case Raw(t) =>
      if t.Verbatim? then Between(Spell(t.text)) else if t.ListingEnv? then CodeMarks(Spell(t.text)) else []
    case Included(fname) => CodeMarks(Spell(FileText(env, fname)))
    case List(kind, items) => Between(Within(ListRole(kind), "", ItemsMarks(env, items)))
    case Code(body) => CodeMarks(TextMarks(env, body, true))
    case Quote(quoted) =>
      Between(Within(Role.Quotation, "", Within(Role.Paragraph, "", BlocksMarks(env, quoted))))
    case Table(rows) => Between(Within(Role.Table, "", RowsMarks(env, rows)))
  }

  function BlocksMarks(env: Env, bs: Blocks): seq<Mark>
  {
    match bs
    case NoBlock => []
    case AddBlock(front, b) => BlocksMarks(env, front) + BlockMarks(env, b)
  }

  function PostMarks(env: Env, post: Post): seq<Mark>
  {
    (if post.Then? then PostMarks(env, post.front) else [])
    + Within(Role.Paragraph, "", BlocksMarks(env, post.bs)) + Spell("\n")
  }

  ghost predicate LegibleItems(env: Env, items: Items)
  {
    match items
    case NoItem => true
    case AddItem(front, i) =>
      && LegibleItems(env, front)
      && match i
         case Bare(body) => LegibleText(env, body)
         case Named(term, body) => LegibleText(env, term) && LegibleText(env, body)
         case Gap(inline) => Legible(env, inline)
  }

  ghost predicate LegibleRows(env: Env, rows: Rows)
  {
    match rows
    case NoRow => true
    case AddRow(front, cells) => LegibleRows(env, front) && LegibleCells(env, cells)
    case AddGap(front, i) => LegibleRows(env, front) && Legible(env, i)
  }

  ghost predicate LegibleCell(env: Env, c: Cell)
  {
    match c
    case Content(i) => Legible(env, i)
    case Separator => true
    case Inner(rows) => LegibleRows(env, rows)
  }

  ghost predicate LegibleCells(env: Env, cells: Cells)
  {
    match cells
    case OneCell(c) => LegibleCell(env, c)
    case MoreCells(front, c) => LegibleCells(env, front) && LegibleCell(env, c)
  }

  ghost predicate LegibleBlock(env: Env, b: Block)
  {
    match b
    case Plain(i) => Legible(env, i)
    case Special(_) => true
    case Heading(_, title) => LegibleText(env, title)
    case Raw(t) => t.Verbatim? ==> PlainText(t.text)
    case Included(fname) => PlainText(fname)
    case List(_, items) => LegibleItems(env, items)
    case Code(body) => LegibleText(env, body)
    case Quote(quoted) => LegibleBlocks(env, quoted)
    case Table(rows) => LegibleRows(env, rows)
  }

  ghost predicate LegibleBlocks(env: Env, bs: Blocks)
  {
    bs.AddBlock? ==> LegibleBlocks(env, bs.front) && LegibleBlock(env, bs.b)
  }

  ghost predicate LegiblePost(env: Env, post: Post)
  {
    LegibleBlocks(env, post.bs) && (post.Then? ==> LegiblePost(env, post.front))
  }

  // ----- What a post says about itself --------------------------------------------------------------

  /** The title, date, tag and image commands, in order. */
  function BlockSpecials(b: Block): seq<Thing>
  {
    match b
    case Special(t) => [t]
    case Quote(quoted) => BlocksSpecials(quoted)
    case _ => []
  }

  function BlocksSpecials(bs: Blocks): seq<Thing>
  {
    match bs
    case NoBlock => []
    case AddBlock(front, b) => BlocksSpecials(front) + BlockSpecials(b)
  }

  function Specials(post: Post): seq<Thing>
  {
    (if post.Then? then Specials(post.front) else []) + BlocksSpecials(post.bs)
  }

  /** The last title, date and image win, and the tags are collected, the last one first. */
  function Announced(env: Env, st: State, ss: seq<Thing>): State
  {
    if ss == [] then st
    else
      var before := Announced(env, st, DropLast(ss));
      match Last(ss)
      case TitleCmd(text) => before.(title := Some(text))
      case PublishedCmd(text) => before.(published := Some(text))
      case TagCmd(text) => before.(tags := [text] + before.tags)
      case TwitterImgCmd(text) => before.(twitterImg := Some(text))
      case TwitterPhotoCmd(text) => before.(twitterImg := Some(env.photoUrl + "/" + text))
      case _ => before
  }

  // ----- Tokens that mean something ----------------------------------------------------------------

  /** The tokens can be read, and mean this. */
  ghost predicate Mean(toks: seq<Tok>, m: seq<Mark>)
  {
    Readable(toks) && ReadToks(toks) == m
  }

  lemma MeanConcat(a: seq<Tok>, b: seq<Tok>, m: seq<Mark>, n: seq<Mark>)
    requires Mean(a, m) && Mean(b, n)
    ensures Mean(a + b, m + n)
  {
    ReadToksConcat(a, b);
  }

  lemma MeanNothing()
    ensures Mean([], [])
  {}

  lemma MeanTag(t: Tok)
    requires !t.Text? && CleanTok(t)
    ensures Mean([t], [ReadTag(Html.Inner(t))])
  {
    hide ReadTag, CleanTok, Html.Inner;
    assert [t][1..] == [] && ReadToks([]) == [];
    assert ReadToks([t]) == [ReadTag(Html.Inner(t))] + ReadToks([t][1..]);
  }

  lemma MeanText(s: string, said: string)
    requires Says(s, said)
    ensures Mean([Text(s)], Spell(said))
  {
    hide Read, Decode, Spell;
    assert [Text(s)][1..] == [] && ReadToks([]) == [];
    assert ReadToks([Text(s)]) == Read(s) + ReadToks([Text(s)][1..]);
  }

  /** An element without attributes. */
  lemma MeanElem(name: string, toks: seq<Tok>, m: seq<Mark>)
    requires NameOk(name) && name != "img" && Mean(toks, m)
    ensures Mean(MathMl.Elem(name, toks), Within(RoleOf(name), "", m))
  {
    hide Mean, RoleOf, ReadTag, NameOk;
    assert CleanTok(Open(name, [])) && CleanTok(Close(name));
    MeanTag(Open(name, []));
    MeanTag(Close(name));
    OpenReads(name);
    CloseReads(name);
    MeanConcat([Open(name, [])], toks, [Begin(RoleOf(name), "")], m);
    MeanConcat([Open(name, [])] + toks, [Close(name)], [Begin(RoleOf(name), "")] + m, [End(RoleOf(name))]);
  }

  /** An element with one. */
  lemma MeanElemWith(name: string, a: Attr, toks: seq<Tok>, m: seq<Mark>)
    requires NameOk(name) && name != "img" && AttrOk(a) && Mean(toks, m)
    ensures Mean([Open(name, [a])] + toks + [Close(name)], Within(RoleOf(name), NoteOf(name, [a]), m))
  {
    hide Mean, RoleOf, ReadTag, NameOk, NoteOf, AttrOk;
    assert CleanTok(Open(name, [a])) && CleanTok(Close(name));
    MeanTag(Open(name, [a]));
    MeanTag(Close(name));
    OpenWithReads(name, a);
    CloseReads(name);
    var note := NoteOf(name, [a]);
    MeanConcat([Open(name, [a])], toks, [Begin(RoleOf(name), note)], m);
    MeanConcat([Open(name, [a])] + toks, [Close(name)], [Begin(RoleOf(name), note)] + m, [End(RoleOf(name))]);
  }

  // ----- Formulas ------------------------------------------------------------------------------------

  lemma MeanPlain(s: string)
    requires PlainText(s)
    ensures Mean([Text(s)], Spell(s))
  {
    hide Says;
    PlainTextSays(s);
    MeanText(s, s);
  }

  lemma MeanReference(name: string, code: nat)
    requires EntityCode(name) == Some(code) && forall i :: 0 <= i < |name| ==> name[i] != ';'
    ensures code < 0x1_0000 && Mean([Text("&" + name + ";")], Spell(Utf8(code)))
  {
    hide Says, Utf8, EntityCode;
    SaysReference(name, code);
    MeanText("&" + name + ";", Utf8(code));
  }

  lemma MeanLeafElem(name: string, s: string)
    requires NameOk(name) && name != "img" && PlainText(s)
    ensures Mean(MathMl.Elem(name, [Text(s)]), Within(RoleOf(name), "", Spell(s)))
  {
    hide Mean;
    MeanPlain(s);
    MeanElem(name, [Text(s)], Spell(s));
  }

  lemma MeanSigns()
    ensures Mean(MathMl.Elem("mo", [Text("&lt;")]), OperatorMarks("<"))
    ensures Mean(MathMl.Elem("mo", [Text("&gt;")]), OperatorMarks(">"))
    ensures Mean(MathMl.Elem("mo", [Text("&prop;")]), OperatorMarks(Utf8(0x221D)))
  {
    hide Mean, MathMl.Elem;
    AsciiReferences();
    assert EntityCode("prop") == Some(0x221D);
    MeanReference("lt", 0x3C);
    MeanReference("gt", 0x3E);
    MeanReference("prop", 0x221D);
    assert "&" + "lt" + ";" == "&lt;" && "&" + "gt" + ";" == "&gt;" && "&" + "prop" + ";" == "&prop;";
    MeanElem("mo", [Text("&lt;")], Spell("<"));
    MeanElem("mo", [Text("&gt;")], Spell(">"));
    MeanElem("mo", [Text("&prop;")], Spell(Utf8(0x221D)));
  }

  lemma MeanOp(op: MathMl.FlatOp)
    ensures Mean(MathMl.OpToks(op), SignMarks(op))
  {
    hide Mean, MathMl.Elem, Utf8;
    MeanSigns();
    MeanNothing();
    match op
    case Plus => MeanLeafElem("mo", "+");
    case Minus => MeanLeafElem("mo", "-");
    case Times => MeanLeafElem("mo", "*");
    case Slash => MeanLeafElem("mo", "/");
    case Equal => MeanLeafElem("mo", "=");
    case _ =>
  }

  lemma MeanApply2(op: string, a: seq<Tok>, b: seq<Tok>, m: seq<Mark>, n: seq<Mark>)
    requires NameOk(op) && op != "img" && Mean(a, m) && Mean(b, n)
    ensures Mean(MathMl.Apply2(op, a, b), Within(RoleOf(op), "", GroupMarks(m) + GroupMarks(n)))
  {
    hide Mean, RoleOf;
    GroupRole();
    MeanElem("mrow", a, m);
    MeanElem("mrow", b, n);
    var rows := MathMl.Elem("mrow", a) + MathMl.Elem("mrow", b);
    MeanConcat(MathMl.Elem("mrow", a), MathMl.Elem("mrow", b), GroupMarks(m), GroupMarks(n));
    MeanElem(op, rows, GroupMarks(m) + GroupMarks(n));
    assert MathMl.Apply2(op, a, b) == MathMl.Elem(op, rows);
  }

  lemma GroupRole()
    ensures RoleOf("mrow") == Role.Group
  {}

  lemma MeanParen(toks: seq<Tok>, m: seq<Mark>)
    requires Mean(toks, m)
    ensures Mean(MathMl.ParenToks(toks), GroupMarks(OperatorMarks("(") + GroupMarks(m) + OperatorMarks(")")))
  {
    hide Mean;
    var open, close := MathMl.Elem("mo", [Text("(")]), MathMl.Elem("mo", [Text(")")]);
    MeanLeafElem("mo", "(");
    MeanLeafElem("mo", ")");
    MeanElem("mrow", toks, m);
    MeanConcat(open, MathMl.Elem("mrow", toks), OperatorMarks("("), GroupMarks(m));
    MeanConcat(open + MathMl.Elem("mrow", toks), close, OperatorMarks("(") + GroupMarks(m), OperatorMarks(")"));
    MeanElem("mrow", open + MathMl.Elem("mrow", toks) + close,
             OperatorMarks("(") + GroupMarks(m) + OperatorMarks(")"));
  }

  lemma MathRoles()
    ensures RoleOf("mrow") == Role.Group && RoleOf("msqrt") == Role.Root && RoleOf("mfrac") == Role.Fraction
    ensures RoleOf("msup") == Role.Superscript && RoleOf("msub") == Role.Subscript
    ensures RoleOf("mn") == Role.Number && RoleOf("mi") == Role.Identifier
    ensures forall m :: GroupMarks(m) == Within(Role.Group, "", m)
  {}

  lemma {:induction false} ExprMeans(e: MathMl.MExpr)
    requires PlainExpr(e)
    ensures Mean(MathMl.ExprToks(e), ExprMarks(e))
  {
    hide Mean, MathMl.Elem, MathMl.Apply2, MathMl.ParenToks, MathMl.OpToks, SignMarks, Utf8, RoleOf, Within, GroupMarks;
    MathRoles();
    MeanSigns();
    match e
    case Bin(op, l, r) =>
      ExprMeans(l);
      ExprMeans(r);
      MeanOp(op);
      MeanConcat(MathMl.ExprToks(l), MathMl.OpToks(op), ExprMarks(l), SignMarks(op));
      MeanConcat(MathMl.ExprToks(l) + MathMl.OpToks(op), MathMl.ExprToks(r),
                 ExprMarks(l) + SignMarks(op), ExprMarks(r));
    case Sup(l, r) =>
      ExprMeans(l);
      ExprMeans(r);
      MeanApply2("msup", MathMl.ExprToks(l), MathMl.ExprToks(r), ExprMarks(l), ExprMarks(r));
    case Sub(l, r) =>
      ExprMeans(l);
      ExprMeans(r);
      MeanApply2("msub", MathMl.ExprToks(l), MathMl.ExprToks(r), ExprMarks(l), ExprMarks(r));
    case Paren(e) =>
      ExprMeans(e);
      MeanParen(MathMl.ExprToks(e), ExprMarks(e));
    case Brace(e) =>
      ExprMeans(e);
    case Frac(a, b) =>
      ExprMeans(a);
      ExprMeans(b);
      MeanApply2("mfrac", MathMl.ExprToks(a), MathMl.ExprToks(b), ExprMarks(a), ExprMarks(b));
    case Sqrt(e) =>
      ExprMeans(e);
      MeanElem("mrow", MathMl.ExprToks(e), ExprMarks(e));
      MeanElem("msqrt", MathMl.Elem("mrow", MathMl.ExprToks(e)), GroupMarks(ExprMarks(e)));
    case Propto =>
    case Number(s) => MeanLeafElem("mn", s);
    case Ident(s) => MeanLeafElem("mi", s);
    case FracWord => MeanLeafElem("mi", "frac");
    case SqrtWord => MeanLeafElem("mi", "sqrt");
    case ProptoWord => MeanLeafElem("mi", "propto");
  }

  lemma {:induction false} MathMeans(m: MathMl.MathList)
    requires PlainMath(m)
    ensures Mean(MathMl.MathToks(m), MathMarks(m))
  {
    hide Mean;
    match m
    case First(e) =>
      ExprMeans(e);
    case More(m, e) =>
      MathMeans(m);
      ExprMeans(e);
      MeanConcat(MathMl.MathToks(m), MathMl.ExprToks(e), MathMarks(m), ExprMarks(e));
  }

  // ----- Text ------------------------------------------------------------------------------------------

  /** The characters say this, and can stand in an attribute. */
  ghost predicate Quotable(s: string, said: string)
  {
    Says(s, said) && TagFree(s)
  }

  lemma QuotablePlain(s: string)
    requires PlainText(s)
    ensures Quotable(s, s)
  {
    PlainTextSays(s);
  }

  lemma QuotableReference(name: string, code: nat)
    requires EntityCode(name) == Some(code) && TagFree(name) && forall i :: 0 <= i < |name| ==> name[i] != ';'
    ensures code < 0x1_0000 && Quotable("&" + name + ";", Utf8(code))
  {
    hide Says, Utf8, EntityCode;
    SaysReference(name, code);
  }

  lemma QuotableConcat(a: string, b: string, x: string, y: string)
    requires Quotable(a, x) && Quotable(b, y)
    ensures Quotable(a + b, x + y)
  {
    hide Says;
    SaysConcat(a, b, x, y);
  }

  lemma DashReads(n: nat)
    requires 1 <= n <= 3
    ensures Quotable(CharCvt(DASHES, n), TextOf(Dash(n), false))
  {
    hide Quotable, Utf8;
    QuotablePlain("-");
    assert EntityCode("ndash") == Some(0x2013) && EntityCode("mdash") == Some(0x2014);
    QuotableReference("ndash", 0x2013);
    QuotableReference("mdash", 0x2014);
    assert "&" + "ndash" + ";" == "&ndash;" && "&" + "mdash" + ";" == "&mdash;";
  }

  lemma OpenQuoteReads(n: nat)
    requires 1 <= n <= 2
    ensures Quotable(CharCvt(OQUOTES, n), TextOf(OpenQuote(n), false))
  {
    hide Quotable, Utf8;
    assert EntityCode("lsquo") == Some(0x2018) && EntityCode("ldquo") == Some(0x201C);
    QuotableReference("lsquo", 0x2018);
    QuotableReference("ldquo", 0x201C);
    assert "&" + "lsquo" + ";" == "&lsquo;" && "&" + "ldquo" + ";" == "&ldquo;";
  }

  lemma CloseQuoteReads(n: nat)
    requires 1 <= n <= 2
    ensures Quotable(CharCvt(CQUOTES, n), TextOf(CloseQuote(n), false))
  {
    hide Quotable, Utf8;
    assert EntityCode("rsquo") == Some(0x2019) && EntityCode("rdquo") == Some(0x201D);
    QuotableReference("rsquo", 0x2019);
    QuotableReference("rdquo", 0x201D);
    assert "&" + "rsquo" + ";" == "&rsquo;" && "&" + "rdquo" + ";" == "&rdquo;";
  }

  lemma SpecialReads(c: char)
    requires c in {'"', '<', '>'}
    ensures Quotable(SpecialChar(c), [c])
  {
    hide Quotable, Utf8, EntityCode;
    AsciiReferences();
    QuotableReference("quot", 0x22);
    QuotableReference("lt", 0x3C);
    QuotableReference("gt", 0x3E);
    assert "&" + "quot" + ";" == "&quot;" && "&" + "lt" + ";" == "&lt;" && "&" + "gt" + ";" == "&gt;";
    assert ['"'] == "\"" && ['<'] == "<" && ['>'] == ">";
  }

  lemma SignsRead()
    ensures Quotable("&hellip;", Utf8(0x2026)) && Quotable("&nbsp;", Utf8(0xA0)) && Quotable("&amp;", "&")
  {
    hide Quotable, Utf8;
    AsciiReferences();
    assert EntityCode("hellip") == Some(0x2026) && EntityCode("nbsp") == Some(0xA0);
    QuotableReference("hellip", 0x2026);
    QuotableReference("nbsp", 0xA0);
    QuotableReference("amp", 0x26);
    assert "&" + "hellip" + ";" == "&hellip;" && "&" + "nbsp" + ";" == "&nbsp;" && "&" + "amp" + ";" == "&amp;";
  }

  /** What a piece of text is printed as. */
  lemma TextReads(t: Thing, nesting: int)
    requires IsText(t) && Lexed(t)
    ensures |SimpleToks(t, nesting)| == 1 && SimpleToks(t, nesting)[0].Text?
    ensures Quotable(SimpleToks(t, nesting)[0].s, TextOf(t, nesting != 0))
  {
    hide Quotable, Utf8, CharCvt, SpecialChar;
    SignsRead();
    match t
    case Word(s) => QuotablePlain(s);
    case Newline => QuotablePlain(if nesting != 0 then "\n" else " ");
    case Dash(n) => DashReads(n);
    case OpenQuote(n) => OpenQuoteReads(n);
    case CloseQuote(n) => CloseQuoteReads(n);
    case Special(c) => SpecialReads(c);
    case Dollar => QuotablePlain("$");
    case Percent => QuotablePlain("%");
    case Escaped(c) => EscapedReads(c);
    case _ =>
  }

  lemma EscapedReads(c: char)
    requires c in {'{', '}', '[', ']', '&', '_', '^', '~'}
    ensures EscapedTok(c).Text? && Quotable(EscapedTok(c).s, [c])
  {
    hide Quotable, Utf8;
    SignsRead();
    if c != '&' {
      QuotablePlain([c]);
    } else {
      assert [c] == "&";
    }
  }

  lemma TextMeans(t: Thing, nesting: int)
    requires IsText(t) && Lexed(t)
    ensures Mean(SimpleToks(t, nesting), Spell(TextOf(t, nesting != 0)))
  {
    hide Mean, Says, SimpleToks, TextOf, Lexed;
    TextReads(t, nesting);
    var toks := SimpleToks(t, nesting);
    MeanText(toks[0].s, TextOf(t, nesting != 0));
    assert toks == [Text(toks[0].s)];
  }

  lemma FormulaMeans(m: MathMl.MathList)
    requires PlainMath(m)
    ensures Mean(MathMl.Elem("math", MathMl.MathToks(m)), Within(Role.Formula, "", MathMarks(m)))
  {
    hide Mean, MathMl.MathToks, MathMarks;
    MathMeans(m);
    MeanElem("math", MathMl.MathToks(m), MathMarks(m));
  }

  lemma BreakMeans()
    ensures Mean([Void("br", [])], [LineBreak])
  {
    hide Mean, ReadTag, Html.Inner;
    BreakReads();
    MeanTag(Void("br", []));
  }

  lemma LeafMeans(t: Thing, nesting: int)
    requires ProperInline(Leaf(t)) && Lexed(t)
    ensures Mean(SimpleToks(t, nesting), LeafMarks(t, nesting != 0))
  {
    hide Mean, TextOf, MathMl.Elem, MathMarks, Within, PlainMath, PlainText, CharCvt, SpecialChar, Spell;
    if t.MathEnv? {
      FormulaMeans(t.m);
    } else if t == Escaped('\\') {
      BreakMeans();
    } else {
      TextMeans(t, nesting);
    }
  }
}
