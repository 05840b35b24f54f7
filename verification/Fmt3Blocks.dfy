/**
 Posts by their structure.  A paragraph is a sequence of blocks: text, headings,
 listings, lists of items, quotes, tables of rows; text holds fonts and links, cells
 hold text and tables.  Flattening writes such a tree as the format has it, with a begin
 and an end around what belongs together.  Every post written so is disciplined.
 */
module Fmt3Blocks {
  import opened Basics
  import opened Html
  import opened Fmt3
  import opened Fmt3Discipline
  import opened Fmt3Nesting

  // ----- Trees ------------------------------------------------------------------------------

  datatype Inline =
    | Leaf(t: Thing)                                                // no command
    | Font(name: string, body: Inlines)                             // \emph{...} and the like
    | Link(name: string, target: Inlines)                           // \link{...}
    | Captioned(name: string, caption: Inlines, target: Inlines)    // \link[...]{...}
    | Photo(name: string, target: Inlines)                          // \img{...}
    | Described(name: string, alt: Inlines, target: Inlines)        // \img[...]{...}
    | Short(text: Inlines)                                          // \abbrev{...}
    | Expanded(full: Inlines, text: Inlines)                        // \abbrev[...]{...}
    | Symbol(name: string)                                          // \tm and the like
    | Dropped(name: string, body: Inlines)                          // \category{...}
    | UnknownCmd(name: string)
    | UnknownEnviron(begin: bool, kind: string)

  datatype Inlines = One(i: Inline) | More(front: Inlines, i: Inline)

  datatype Block =
    | Plain(i: Inline)
    | Special(t: Thing)                          // \title{...} and the like
    | Heading(name: string, title: Inlines)
    | Raw(t: Thing)                              // verbatim and listing environments
    | Included(fname: string)                    // \listing{...}
    | List(kind: string, items: Items)
    | Code(body: Inlines)                        // the texttt environment
    | Quote(quoted: Blocks)
    | Table(rows: Rows)

  datatype Blocks = NoBlock | AddBlock(front: Blocks, b: Block)

  datatype Item =
    | Bare(body: Inlines)
    | Named(term: Inlines, body: Inlines)
    | Gap(i: Inline)

  datatype Items = NoItem | AddItem(front: Items, i: Item)

  datatype Rows = NoRow | AddRow(front: Rows, cells: Cells) | AddGap(front: Rows, i: Inline)

  datatype Cell = Content(i: Inline) | Separator | Inner(rows: Rows)

  datatype Cells = OneCell(c: Cell) | MoreCells(front: Cells, c: Cell)

  const FONTS: set<string> := {"degree", "emph", "textbf", "textit", "texttt"}
  const LINKS: set<string> := {"link", "photolink", "post", "taglink", "wiki"}
  const PICTURES: set<string> := {"img", "photo"}
  const IGNORED: set<string> := {"category", "published", "tag", "title"}
  const SYMBOLS: set<string> := {"leftarrow", "leftrightarrow", "rightarrow", "tm"}
  const HEADINGS: set<string> := {"section", "subsection", "subsubsection"}
  const LISTS: set<string> := {"enumerate", "itemize", "description"}
  const ENVIRONS: set<string> := LISTS + {"quote", "tabular", "texttt"}
  const COMMANDS: set<string> :=
    FONTS + LINKS + SYMBOLS + HEADINGS
    + {"abbrev", "begin", "bug", "category", "end", "img", "item", "listing", "photo", "published", "tag", "title",
       "trow"}

  predicate IsCommand(name: string)
  {
    name in COMMANDS
  }

  predicate IsEnviron(kind: string)
  {
    kind in ENVIRONS
  }

  predicate ProperInline(i: Inline)
  {
    match i
    case Leaf(t) =>
      !t.Command? && !t.Ampersand? && !t.Verbatim? && !t.ListingEnv? && !IsSpecial(t)
    case Font(name, body) => name in FONTS && ProperInlines(body)
    case Link(name, target) => name in LINKS + {"bug"} && ProperInlines(target)
    case Captioned(name, caption, target) => name in LINKS && ProperInlines(caption) && ProperInlines(target)
    case Photo(name, target) => name in PICTURES && ProperInlines(target)
    case Described(name, alt, target) => name in PICTURES && ProperInlines(alt) && ProperInlines(target)
    case Short(text) => ProperInlines(text)
    case Expanded(full, text) => ProperInlines(full) && ProperInlines(text)
    case Symbol(name) => name in SYMBOLS
    case Dropped(name, body) => name in IGNORED && ProperInlines(body)
    case UnknownCmd(name) => !IsCommand(name)
    case UnknownEnviron(_, kind) => !IsEnviron(kind)
  }

  predicate ProperInlines(text: Inlines)
  {
    match text
    case One(i) => ProperInline(i)
    case More(front, i) => ProperInlines(front) && ProperInline(i)
  }

  predicate ProperBlock(b: Block)
  {
    match b
    case Plain(i) => ProperInline(i)
    case Special(t) => IsSpecial(t)
    case Heading(name, title) =>
      name in HEADINGS && ProperInlines(title)
    case Raw(t) => t.Verbatim? || t.ListingEnv?
    case Included(_) => true
    case List(kind, items) =>
      kind in LISTS && ProperItems(items)
    case Code(body) => ProperInlines(body)
    case Quote(body) => ProperBlocks(body)
    case Table(rows) => ProperRows(rows)
  }

  predicate ProperBlocks(bs: Blocks)
  {
    bs.AddBlock? ==> ProperBlocks(bs.front) && ProperBlock(bs.b)
  }

  predicate ProperItem(i: Item)
  {
    match i
    case Bare(body) => ProperInlines(body)
    case Named(term, body) => ProperInlines(term) && ProperInlines(body)
    case Gap(inline) => ProperInline(inline)
  }

  predicate ProperItems(items: Items)
  {
    items.AddItem? ==> ProperItems(items.front) && ProperItem(items.i)
  }

  predicate ProperRows(rows: Rows)
  {
    match rows
    case NoRow => true
    case AddRow(front, cells) => ProperRows(front) && ProperCells(cells)
    case AddGap(front, i) => ProperRows(front) && ProperInline(i)
  }

  predicate ProperCell(c: Cell)
  {
    match c
    case Content(i) => ProperInline(i)
    case Separator => true
    case Inner(rows) => ProperRows(rows)
  }

  predicate ProperCells(cells: Cells)
  {
    match cells
    case OneCell(c) => ProperCell(c)
    case MoreCells(front, c) => ProperCells(front) && ProperCell(c)
  }

  // ----- Flattening -------------------------------------------------------------------------

  /** A paragraph of these things. */
  function ParagraphOf(ts: seq<Thing>): Paragraph
    requires ts != []
  {
    if |ts| == 1 then Start(ts[0]) else Append(ParagraphOf(DropLast(ts)), Last(ts))
  }

  function Name(s: string): Arg
  {
    Braced(Start(Word(s)))
  }

  function ThingOf(i: Inline): Thing
    decreases i, 0
  {
    match i
    case Leaf(t) => t
    case Font(name, body) => Command(name, NoArg, Written(body))
    case Link(name, target) => Command(name, NoArg, Written(target))
    case Captioned(name, caption, target) => Command(name, Written(caption), Written(target))
    case Photo(name, target) => Command(name, NoArg, Written(target))
    case Described(name, alt, target) => Command(name, Written(alt), Written(target))
    case Short(text) => Command("abbrev", NoArg, Written(text))
    case Expanded(full, text) => Command("abbrev", Written(full), Written(text))
    case Symbol(name) => Command(name, NoArg, NoArg)
    case Dropped(name, body) => Command(name, NoArg, Written(body))
    case UnknownCmd(name) => Command(name, NoArg, NoArg)
    case UnknownEnviron(begin, kind) => Delimiter(if begin then "begin" else "end", kind)
  }

  /** Text in braces or brackets. */
  function Written(text: Inlines): Arg
    decreases text, 1
  {
    Braced(ParagraphOf(Things(text)))
  }

  function Things(text: Inlines): (ts: seq<Thing>)
    ensures ts != []
    decreases text, 0
  {
    match text
    case One(i) => [ThingOf(i)]
    case More(front, i) => Things(front) + [ThingOf(i)]
  }

  function Environment(kind: string, inner: seq<Thing>): seq<Thing>
  {
    [Delimiter("begin", kind)] + inner + [Delimiter("end", kind)]
  }

  function BlockThings(b: Block): (ts: seq<Thing>)
    ensures ts != []
  {
    match b
    case Plain(i) => [ThingOf(i)]
    case Special(t) => [t]
    case Heading(name, title) => [Command(name, NoArg, Written(title))]
    case Raw(t) => [t]
    case Included(fname) => [Command("listing", NoArg, Name(fname))]
    case List(kind, items) => Environment(kind, ItemThings(items))
    case Code(body) => Environment("texttt", Things(body))
    case Quote(body) => Environment("quote", Flatten(body))
    case Table(rows) => Environment("tabular", RowThings(rows))
  }

  function Flatten(bs: Blocks): (ts: seq<Thing>)
    ensures bs.AddBlock? ==> ts != []
  {
    match bs
    case NoBlock => []
    case AddBlock(front, b) => Flatten(front) + BlockThings(b)
  }

  function ItemThing(i: Item): Thing
  {
    match i
    case Bare(body) => Command("item", NoArg, Written(body))
    case Named(term, body) =>
      Command("item", Written(term), Written(body))
    case Gap(inline) => ThingOf(inline)
  }

  function ItemThings(items: Items): seq<Thing>
  {
    match items
    case NoItem => []
    case AddItem(front, i) => ItemThings(front) + [ItemThing(i)]
  }

  function RowThings(rows: Rows): seq<Thing>
  {
    match rows
    case NoRow => []
    case AddRow(front, cells) =>
      RowThings(front) + [Command("trow", NoArg, Braced(ParagraphOf(CellsThings(cells))))]
    case AddGap(front, i) => RowThings(front) + [ThingOf(i)]
  }

  function CellThings(c: Cell): (ts: seq<Thing>)
    ensures ts != []
  {
    match c
    case Content(i) => [ThingOf(i)]
    case Separator => [Ampersand]
    case Inner(rows) => Environment("tabular", RowThings(rows))
  }

  function CellsThings(cells: Cells): (ts: seq<Thing>)
    ensures ts != []
  {
    match cells
    case OneCell(c) => CellThings(c)
    case MoreCells(front, c) => CellsThings(front) + CellThings(c)
  }

  // ----- Walking through things -------------------------------------------------------------

  datatype Place = Place(st: State, open: seq<string>)

  /** Where the things lead, unless they abort or are out of place. */
  function Walk(env: Env, ts: seq<Thing>, at: Place): Option<Place>
  {
    if ts == [] then Some(at)
    else
      match Step(env, ts[0], at)
      case None => None
      case Some(next) => Walk(env, ts[1..], next)
  }

  function Step(env: Env, t: Thing, at: Place): Option<Place>
  {
    var out, after := ThingOut(env, t, at.st), AfterThing(env, t, at.st, at.open);
    if out.Ok? && after.Some? then Some(Place(out.value.st, after.value)) else None
  }

  /** The walk comes back to the same elements and the same depth of tables. */
  predicate Returns(env: Env, ts: seq<Thing>, at: Place)
  {
    var end := Walk(env, ts, at);
    end.Some? && end.value.open == at.open && end.value.st.tableNesting == at.st.tableNesting
  }

  lemma {:induction false} WalkConcat(env: Env, a: seq<Thing>, b: seq<Thing>, at: Place)
    ensures Walk(env, a + b, at)
         == if Walk(env, a, at).Some? then Walk(env, b, Walk(env, a, at).value) else None
  {
    hide Step;
    if a == [] {
      assert a + b == b;
    } else {
      assert (a + b)[0] == a[0] && (a + b)[1..] == a[1..] + b;
      var next := Step(env, a[0], at);
      if next.Some? {
        WalkConcat(env, a[1..], b, next.value);
      }
    }
  }

  lemma WalkOne(env: Env, t: Thing, at: Place)
    ensures Walk(env, [t], at) == Step(env, t, at)
  {
    hide Step;
    assert [t][1..] == [];
  }

  /** A paragraph is walked through as its things are. */
  lemma {:induction false} WalkParagraph(env: Env, ts: seq<Thing>, at: Place)
    requires ts != []
    ensures var p := ParagraphOf(ts);
            var out, after := ParagraphOut(env, p, at.st), AfterParagraph(env, p, at.st, at.open);
            Walk(env, ts, at) == if out.Ok? && after.Some? then Some(Place(out.value.st, after.value)) else None
  {
    hide ThingOut, AfterThing;
    if |ts| == 1 {
      assert ts == [ts[0]];
      WalkOne(env, ts[0], at);
    } else {
      assert ts == DropLast(ts) + [Last(ts)];
      WalkConcat(env, DropLast(ts), [Last(ts)], at);
      WalkParagraph(env, DropLast(ts), at);
      var mid := Walk(env, DropLast(ts), at);
      if mid.Some? {
        WalkOne(env, Last(ts), mid.value);
      }
    }
  }

  // ----- Commands ---------------------------------------------------------------------------

  /** The argument closes what it opens. */
  predicate ArgReturns(env: Env, a: Arg, slot: Slot, at: Place)
  {
    var out := ArgOut(env, a, at.st);
    && out.Ok? && out.value.st.tableNesting == at.st.tableNesting
    && (slot.Inside? || slot.Passed? ==>
          AfterText(env, a, at.st, Around(slot, at.open)) == Some(Around(slot, at.open)))
  }

  lemma NoArgReturns(env: Env, slot: Slot, at: Place)
    ensures ArgReturns(env, NoArg, slot, at) && ArgOut(env, NoArg, at.st) == Ok(Out([], at.st))
  {
    hide ParagraphOut, AfterParagraph;
  }

  lemma NameReturns(env: Env, s: string, at: Place)
    ensures ArgReturns(env, Name(s), Attribute, at) && Given(Name(s))
  {
    WordArg(env, s, at.st, at.open);
    hide ArgOut, AfterText;
  }

  lemma TextReturns(env: Env, ts: seq<Thing>, slot: Slot, at: Place)
    requires ts != [] && Returns(env, ts, Place(at.st, Around(slot, at.open)))
    ensures ArgReturns(env, Braced(ParagraphOf(ts)), slot, at)
  {
    hide Walk, ParagraphOf;
    WalkParagraph(env, ts, Place(at.st, Around(slot, at.open)));
    hide ParagraphOut, AfterParagraph;
  }

  lemma TextGiven(ts: seq<Thing>)
    requires ts != [] && !IsSpecial(ts[0])
    ensures Given(Braced(ParagraphOf(ts)))
  {}

  lemma CommandFits(env: Env, name: string, c: Cmd, opt: Arg, arg: Arg, at: Place)
    requires FindCmd(name) == Some(c) && !c.CBegin? && !c.CEnd? && ArgsFit(c, Given(arg), Given(opt))
    requires BreaksPara(c) ==> InPara(at.open)
    requires ArgReturns(env, opt, OptSlot(c, Given(opt)), Place(at.st, Base(c, at.open)))
    requires ArgReturns(env, arg, ArgSlot(c, Given(opt)),
                        Place(ArgOut(env, opt, at.st).value.st, Base(c, at.open)))
    ensures Returns(env, [Command(name, opt, arg)], at)
  {
    hide FindCmd, CmdToks, ArgsFit, ArgSlot, OptSlot, ArgOut, AfterText, Given, Serialize;
    WalkOne(env, Command(name, opt, arg), at);
  }

  /** A command with text in braces. */
  lemma TextCommandFits(env: Env, name: string, c: Cmd, ts: seq<Thing>, at: Place)
    requires FindCmd(name) == Some(c) && !c.CBegin? && !c.CEnd? && ArgsFit(c, true, false)
    requires BreaksPara(c) ==> InPara(at.open)
    requires ts != [] && !IsSpecial(ts[0])
    requires Returns(env, ts, Place(at.st, Around(ArgSlot(c, false), Base(c, at.open))))
    ensures Returns(env, [Command(name, NoArg, Braced(ParagraphOf(ts)))], at)
  {
    hide FindCmd, ArgsFit, ArgSlot, OptSlot, ArgOut, ParagraphOf, Returns, ArgReturns;
    var base := Place(at.st, Base(c, at.open));
    NoArgReturns(env, OptSlot(c, false), base);
    TextReturns(env, ts, ArgSlot(c, false), base);
    TextGiven(ts);
    CommandFits(env, name, c, NoArg, Braced(ParagraphOf(ts)), at);
  }

  // ----- Inline text ------------------------------------------------------------------------

  lemma InlinePlain(i: Inline)
    requires ProperInline(i)
    ensures !IsSpecial(ThingOf(i))
  {}

  lemma {:induction false} InlinesPlain(text: Inlines)
    requires ProperInlines(text)
    ensures !IsSpecial(Things(text)[0])
  {
    match text
    case One(i) => InlinePlain(i);
    case More(front, i) => InlinesPlain(front);
  }

  lemma LeafFits(env: Env, t: Thing, at: Place)
    requires !t.Command? && !t.Ampersand? && (t.Verbatim? || t.ListingEnv? ==> InPara(at.open))
    ensures Returns(env, [t], at)
  {
    WalkOne(env, t, at);
    hide ArgOut, AfterText, AfterEnviron, AfterCmd, Process, SimpleToks, FindCmd;
  }

  /** The text makes an argument for any command. */
  ghost predicate FitsAnywhere(env: Env, text: Inlines)
  {
    && Given(Written(text))
    && forall slot, at {:trigger ArgReturns(env, Written(text), slot, at)} :: ArgReturns(env, Written(text), slot, at)
  }

  lemma {:induction false} WrittenFits(env: Env, text: Inlines)
    requires ProperInlines(text)
    ensures FitsAnywhere(env, text)
    decreases text, 1
  {
    hide Returns, ArgReturns, ParagraphOf, Things;
    InlinesPlain(text);
    TextGiven(Things(text));
    forall slot, at ensures ArgReturns(env, Written(text), slot, at) {
      InlinesFit(env, text, Place(at.st, Around(slot, at.open)));
      TextReturns(env, Things(text), slot, at);
    }
  }

  /** A command with text in braces. */
  lemma OneTextFits(env: Env, name: string, c: Cmd, arg: Inlines, at: Place)
    requires FindCmd(name) == Some(c) && !c.CBegin? && !c.CEnd? && !BreaksPara(c) && ArgsFit(c, true, false)
    requires FitsAnywhere(env, arg)
    ensures Returns(env, [Command(name, NoArg, Written(arg))], at)
  {
    hide FindCmd, Returns, ArgReturns, ParagraphOf, ArgOut, Things;
    NoArgReturns(env, OptSlot(c, false), at);
    CommandFits(env, name, c, NoArg, Written(arg), at);
  }

  /** A command with text in brackets and in braces. */
  lemma TwoTextsFit(env: Env, name: string, c: Cmd, opt: Inlines, arg: Inlines, at: Place)
    requires FindCmd(name) == Some(c) && !c.CBegin? && !c.CEnd? && !BreaksPara(c) && ArgsFit(c, true, true)
    requires FitsAnywhere(env, opt) && FitsAnywhere(env, arg)
    ensures Returns(env, [Command(name, Written(opt), Written(arg))], at)
  {
    hide FindCmd, Returns, ParagraphOf, ArgOut, AfterText, Things;
    assert ArgReturns(env, Written(opt), OptSlot(c, true), at);
    var mid := ArgOut(env, Written(opt), at.st).value.st;
    assert ArgReturns(env, Written(arg), ArgSlot(c, true), Place(mid, at.open));
    CommandFits(env, name, c, Written(opt), Written(arg), at);
  }

  lemma UnknownFits(env: Env, name: string, at: Place)
    requires FindCmd(name).None?
    ensures Returns(env, [Command(name, NoArg, NoArg)], at)
  {
    hide FindCmd;
    NoArgReturns(env, Slot.Dropped, at);
    WalkOne(env, Command(name, NoArg, NoArg), at);
  }

  lemma SymbolFits(env: Env, name: string, c: Cmd, at: Place)
    requires FindCmd(name) == Some(c) && TakesNoArg(c)
    ensures Returns(env, [Command(name, NoArg, NoArg)], at)
  {
    hide FindCmd, Returns, ArgOut, AfterText;
    NoArgReturns(env, Slot.Dropped, at);
    CommandFits(env, name, c, NoArg, NoArg, at);
  }

  lemma UnknownEnvironFits(env: Env, begin: bool, kind: string, at: Place)
    requires FindEnviron(kind).None?
    ensures Returns(env, [Delimiter(if begin then "begin" else "end", kind)], at)
  {
    hide FindEnviron;
    var t := Delimiter(if begin then "begin" else "end", kind);
    assert FindCmd("begin") == Some(CBegin) && FindCmd("end") == Some(CEnd);
    WordArg(env, kind, at.st, at.open);
    NoArgReturns(env, Slot.Dropped, at);
    WalkOne(env, t, at);
    assert AfterThing(env, t, at.st, at.open) == AfterEnviron(env, begin, t.arg, at.st, at.open);
  }

  lemma FontFits(env: Env, name: string, body: Inlines, at: Place)
    requires name in FONTS && FitsAnywhere(env, body)
    ensures Returns(env, [Command(name, NoArg, Written(body))], at)
  {
    hide FindCmd, Returns, FitsAnywhere, Written;
    FontFound(name);
    OneTextFits(env, name, FindCmd(name).value, body, at);
  }

  lemma LinkFits(env: Env, name: string, target: Inlines, at: Place)
    requires name in LINKS + {"bug"} && FitsAnywhere(env, target)
    ensures Returns(env, [Command(name, NoArg, Written(target))], at)
  {
    hide FindCmd, Returns, FitsAnywhere, Written;
    if name in LINKS {
      LinkFound(name);
    }
    BugFound();
    OneTextFits(env, name, FindCmd(name).value, target, at);
  }

  lemma CaptionedFits(env: Env, name: string, caption: Inlines, target: Inlines, at: Place)
    requires name in LINKS && FitsAnywhere(env, caption) && FitsAnywhere(env, target)
    ensures Returns(env, [Command(name, Written(caption), Written(target))], at)
  {
    hide FindCmd, Returns, FitsAnywhere, Written;
    LinkFound(name);
    TwoTextsFit(env, name, FindCmd(name).value, caption, target, at);
  }

  lemma PhotoFits(env: Env, name: string, target: Inlines, at: Place)
    requires name in PICTURES && FitsAnywhere(env, target)
    ensures Returns(env, [Command(name, NoArg, Written(target))], at)
  {
    hide FindCmd, Returns, FitsAnywhere, Written;
    PictureFound(name);
    OneTextFits(env, name, FindCmd(name).value, target, at);
  }

  lemma DescribedFits(env: Env, name: string, alt: Inlines, target: Inlines, at: Place)
    requires name in PICTURES && FitsAnywhere(env, alt) && FitsAnywhere(env, target)
    ensures Returns(env, [Command(name, Written(alt), Written(target))], at)
  {
    hide FindCmd, Returns, FitsAnywhere, Written;
    PictureFound(name);
    TwoTextsFit(env, name, FindCmd(name).value, alt, target, at);
  }

  lemma IgnoredFits(env: Env, name: string, body: Inlines, at: Place)
    requires name in IGNORED && FitsAnywhere(env, body)
    ensures Returns(env, [Command(name, NoArg, Written(body))], at)
  {
    hide FindCmd, Returns, FitsAnywhere, Written;
    IgnoredFound(name);
    OneTextFits(env, name, CNop, body, at);
  }

  /** Inline text fits anywhere. */
  lemma {:induction false} InlineFits(env: Env, i: Inline, at: Place)
    requires ProperInline(i)
    ensures Returns(env, [ThingOf(i)], at)
    decreases i, 0
  {
    hide Returns, FindCmd, FindEnviron, Written, FitsAnywhere, IsCommand, IsEnviron;
    match i
    case Leaf(t) => LeafFits(env, t, at);
    case Font(name, body) =>
      WrittenFits(env, body);
      FontFits(env, name, body, at);
    case Link(name, target) =>
      WrittenFits(env, target);
      LinkFits(env, name, target, at);
    case Captioned(name, caption, target) =>
      WrittenFits(env, caption);
      WrittenFits(env, target);
      CaptionedFits(env, name, caption, target, at);
    case Photo(name, target) =>
      WrittenFits(env, target);
      PhotoFits(env, name, target, at);
    case Described(name, alt, target) =>
      WrittenFits(env, alt);
      WrittenFits(env, target);
      DescribedFits(env, name, alt, target, at);
    case Short(text) =>
      AbbrevFound();
      WrittenFits(env, text);
      OneTextFits(env, "abbrev", CAbbrev, text, at);
    case Expanded(full, text) =>
      AbbrevFound();
      WrittenFits(env, full);
      WrittenFits(env, text);
      TwoTextsFit(env, "abbrev", CAbbrev, full, text, at);
    case Symbol(name) =>
      SymbolFound(name);
      SymbolFits(env, name, FindCmd(name).value, at);
    case Dropped(name, body) =>
      WrittenFits(env, body);
      IgnoredFits(env, name, body, at);
    case UnknownCmd(name) =>
      NotFound(name);
      UnknownFits(env, name, at);
    case UnknownEnviron(begin, kind) =>
      EnvironsFound(kind);
      UnknownEnvironFits(env, begin, kind, at);
  }

  // The commands of the table.

  lemma FontFound(name: string)
    requires name in FONTS
    ensures FindCmd(name) in {Some(CDegree), Some(CEmph), Some(CTextBf), Some(CTextIt), Some(CTextTt)}
  {}

  lemma LinkFound(name: string)
    requires name in LINKS
    ensures FindCmd(name) in {Some(CLink), Some(CPhotoLink), Some(CPost), Some(CTagLink), Some(CWiki)}
  {}

  lemma SymbolFound(name: string)
    requires name in SYMBOLS
    ensures FindCmd(name) in {Some(CLeftArrow), Some(CLeftRightArrow), Some(CRightArrow), Some(CTm)}
  {}

  lemma HeadingFound(name: string)
    requires name in HEADINGS
    ensures FindCmd(name) in {Some(CSection), Some(CSubsection), Some(CSubsubsection)}
  {}

  lemma PictureFound(name: string)
    requires name in PICTURES
    ensures FindCmd(name) in {Some(CImg), Some(CPhoto)}
  {}

  lemma IgnoredFound(name: string)
    requires name in IGNORED
    ensures FindCmd(name) == Some(CNop)
  {}

  lemma TrowFound()
    ensures FindCmd("trow") == Some(CTrow)
  {}

  lemma ItemFound()
    ensures FindCmd("item") == Some(CItem)
  {}

  lemma BugFound()
    ensures FindCmd("bug") == Some(CBug)
  {}

  lemma AbbrevFound()
    ensures FindCmd("abbrev") == Some(CAbbrev)
  {}

  lemma NotFound(name: string)
    requires !IsCommand(name)
    ensures FindCmd(name).None?
  {}

  lemma EnvironsFound(kind: string)
    ensures kind in LISTS ==> FindEnviron(kind) in {Some(EEnumerate), Some(EItemize), Some(EDescription)}
    ensures !IsEnviron(kind) <==> FindEnviron(kind).None?
  {}

  lemma {:induction false} InlinesFit(env: Env, text: Inlines, at: Place)
    requires ProperInlines(text)
    ensures Returns(env, Things(text), at)
    decreases text, 0
  {
    hide Walk, ThingOf;
    match text
    case One(i) => InlineFits(env, i, at);
    case More(front, i) =>
      InlinesFit(env, front, at);
      InlineFits(env, i, Walk(env, Things(front), at).value);
      WalkConcat(env, Things(front), [ThingOf(i)], at);
  }

  // ----- Environments -----------------------------------------------------------------------

  function Inside(e: Environ, at: Place): Place
    requires AfterBegin(e, at.st.tableNesting, at.open).Some?
  {
    Place(Fmt3.Count(at.st, e, 1), AfterBegin(e, at.st.tableNesting, at.open).value)
  }

  /** What begins in a paragraph, or as a table in a table, and returns inside, returns. */
  lemma EnvironmentFits(env: Env, kind: string, e: Environ, inner: seq<Thing>, at: Place)
    requires FindEnviron(kind) == Some(e) && at.st.tableNesting >= 0
    requires InPara(at.open) || Nested(e, at.st.tableNesting)
    requires Returns(env, inner, Inside(e, at))
    ensures Returns(env, Environment(kind, inner), at)
  {
    hide Walk, FindEnviron, ThingOut, AfterThing, BeginToks, EndToks;
    var first, last := Delimiter("begin", kind), Delimiter("end", kind);
    DelimiterAfter(env, true, kind, at.st, at.open);
    NameIs(kind);
    WalkOne(env, first, at);
    WalkConcat(env, [first], inner, at);
    var end := Walk(env, inner, Inside(e, at)).value;
    DelimiterAfter(env, false, kind, end.st, end.open);
    WalkOne(env, last, end);
    WalkConcat(env, [first] + inner, [last], at);
    ClosesAsOpened(e, at.st.tableNesting, at.open);
  }

  lemma NameIs(kind: string)
    ensures Serialize([Text(kind)]) == kind
  {
    assert Serialize([Text(kind)]) == kind + "";
  }

  lemma ClosesAsOpened(e: Environ, nesting: nat, open: seq<string>)
    requires InPara(open) || Nested(e, nesting)
    ensures AfterBegin(e, nesting, open).Some?
    ensures AfterEnd(e, nesting, AfterBegin(e, nesting, open).value) == Some(open)
  {
    if InPara(open) {
      assert open == DropLast(open) + ["p"];
    }
    var inner := AfterBegin(e, nesting, open).value;
    var base := if Nested(e, nesting) then open else DropLast(open);
    assert DropLast(base + [ListElement(e)]) == base;
    assert DropLast(base + [ListElement(e)] + ["p"]) == base + [ListElement(e)];
    assert base + [ListElement(e)] + [] == base + [ListElement(e)];
    assert open + [] == open;
  }

  // ----- Tables -----------------------------------------------------------------------------

  lemma {:induction false} CellsPlain(cells: Cells)
    requires ProperCells(cells)
    ensures !IsSpecial(CellsThings(cells)[0])
  {
    match cells
    case OneCell(c) =>
      if c.Content? {
        InlinePlain(c.i);
      }
    case MoreCells(front, c) => CellsPlain(front);
  }

  predicate InTable(at: Place)
  {
    at.st.tableNesting > 0
  }

  predicate InCell(at: Place)
  {
    InTable(at) && at.open != [] && Last(at.open) == "td"
  }

  lemma {:induction false} CellFits(env: Env, c: Cell, at: Place)
    requires ProperCell(c) && InCell(at)
    ensures Returns(env, CellThings(c), at)
    decreases c, 0
  {
    hide Walk, ThingOf, RowThings;
    match c
    case Content(i) => InlineFits(env, i, at);
    case Separator => SeparatorFits(env, at);
    case Inner(rows) => TableFits(env, rows, at);
  }

  lemma SeparatorFits(env: Env, at: Place)
    requires InCell(at)
    ensures Returns(env, [Ampersand], at)
  {
    WalkOne(env, Ampersand, at);
    hide ArgOut, AfterText, AfterEnviron, AfterCmd, Process, FindCmd;
  }

  lemma {:induction false} CellsFit(env: Env, cells: Cells, at: Place)
    requires ProperCells(cells) && InCell(at)
    ensures Returns(env, CellsThings(cells), at)
    decreases cells, 0
  {
    hide Walk, CellThings;
    match cells
    case OneCell(c) => CellFits(env, c, at);
    case MoreCells(front, c) =>
      CellsFit(env, front, at);
      CellFits(env, c, Walk(env, CellsThings(front), at).value);
      WalkConcat(env, CellsThings(front), CellThings(c), at);
  }

  lemma InRow(at: Place)
    requires InTable(at)
    ensures InCell(Place(at.st, Around(ArgSlot(CTrow, false), Base(CTrow, at.open))))
  {
    assert Last(at.open + ["tr", "td"]) == "td";
  }

  lemma {:induction false} RowFits(env: Env, cells: Cells, at: Place)
    requires ProperCells(cells) && InTable(at)
    ensures Returns(env, [Command("trow", NoArg, Braced(ParagraphOf(CellsThings(cells))))], at)
    decreases cells, 1
  {
    hide Returns, CellsThings, ProperCells, ParagraphOf, FindCmd, Around, ArgSlot, Base, InCell;
    TrowFound();
    InRow(at);
    CellsPlain(cells);
    CellsFit(env, cells, Place(at.st, Around(ArgSlot(CTrow, false), Base(CTrow, at.open))));
    TextCommandFits(env, "trow", CTrow, CellsThings(cells), at);
  }

  lemma {:induction false} RowsFit(env: Env, rows: Rows, at: Place)
    requires ProperRows(rows) && InTable(at)
    ensures Returns(env, RowThings(rows), at)
    decreases rows, 0
  {
    match rows
    case NoRow =>
    case AddRow(front, cells) =>
      var row := Command("trow", NoArg, Braced(ParagraphOf(CellsThings(cells))));
      RowsFit(env, front, at);
      RowFits(env, cells, Walk(env, RowThings(front), at).value);
      WalkConcat(env, RowThings(front), [row], at);
    case AddGap(front, i) =>
      RowsFit(env, front, at);
      InlineFits(env, i, Walk(env, RowThings(front), at).value);
      WalkConcat(env, RowThings(front), [ThingOf(i)], at);
  }

  /** A table fits in a paragraph and in any table. */
  lemma {:induction false} TableFits(env: Env, rows: Rows, at: Place)
    requires ProperRows(rows) && at.st.tableNesting >= 0 && (InPara(at.open) || InTable(at))
    ensures Returns(env, Environment("tabular", RowThings(rows)), at)
    decreases rows, 1
  {
    hide Returns, RowThings, Environment;
    assert FindEnviron("tabular") == Some(ETabular);
    RowsFit(env, rows, Inside(ETabular, at));
    EnvironmentFits(env, "tabular", ETabular, RowThings(rows), at);
  }

  // ----- Blocks -----------------------------------------------------------------------------

  lemma {:induction false} ItemFits(env: Env, i: Item, at: Place)
    requires ProperItem(i)
    ensures Returns(env, [ItemThing(i)], at)
  {
    hide Walk, Returns, Written, FindCmd, FitsAnywhere, ProperInlines, ProperInline, ThingOf;
    ItemFound();
    match i
    case Bare(body) =>
      WrittenFits(env, body);
      OneTextFits(env, "item", CItem, body, at);
    case Named(term, body) =>
      WrittenFits(env, term);
      WrittenFits(env, body);
      TwoTextsFit(env, "item", CItem, term, body, at);
    case Gap(inline) => InlineFits(env, inline, at);
  }

  lemma {:induction false} ItemsFit(env: Env, items: Items, at: Place)
    requires ProperItems(items)
    ensures Returns(env, ItemThings(items), at)
  {
    hide ItemThing;
    match items
    case NoItem =>
    case AddItem(front, i) =>
      ItemsFit(env, front, at);
      ItemFits(env, i, Walk(env, ItemThings(front), at).value);
      WalkConcat(env, ItemThings(front), [ItemThing(i)], at);
  }

  predicate InParagraph(at: Place)
  {
    InPara(at.open) && at.st.tableNesting >= 0
  }

  lemma IncludedFits(env: Env, fname: string, at: Place)
    requires InParagraph(at)
    ensures Returns(env, [Command("listing", NoArg, Name(fname))], at)
  {
    hide Returns, ArgReturns, ArgOut;
    assert FindCmd("listing") == Some(CListing);
    var base := Place(at.st, Base(CListing, at.open));
    NoArgReturns(env, OptSlot(CListing, false), base);
    NameReturns(env, fname, base);
    CommandFits(env, "listing", CListing, NoArg, Name(fname), at);
  }

  lemma HeadingFits(env: Env, name: string, title: Inlines, at: Place)
    requires name in HEADINGS && ProperInlines(title) && InParagraph(at)
    ensures Returns(env, [Command(name, NoArg, Written(title))], at)
  {
    hide Returns, ParagraphOf, Things, FindCmd;
    HeadingFound(name);
    var c := FindCmd(name).value;
    InlinesPlain(title);
    InlinesFit(env, title, Place(at.st, Around(ArgSlot(c, false), Base(c, at.open))));
    TextCommandFits(env, name, c, Things(title), at);
  }

  lemma {:induction false} BlockFits(env: Env, b: Block, at: Place)
    requires ProperBlock(b) && InParagraph(at)
    ensures Returns(env, BlockThings(b), at)
    decreases b, 0
  {
    hide Returns, Environment, Things, ThingOf, ItemThings, RowThings, Flatten, ParagraphOf, FindCmd;
    match b
    case Plain(i) => InlineFits(env, i, at);
    case Special(t) => LeafFits(env, t, at);
    case Heading(name, title) => HeadingFits(env, name, title, at);
    case Raw(t) => LeafFits(env, t, at);
    case Included(fname) => IncludedFits(env, fname, at);
    case List(kind, items) =>
      EnvironsFound(kind);
      var e := FindEnviron(kind).value;
      ItemsFit(env, items, Inside(e, at));
      EnvironmentFits(env, kind, e, ItemThings(items), at);
    case Code(body) =>
      assert FindEnviron("texttt") == Some(ETexttt);
      InlinesFit(env, body, Inside(ETexttt, at));
      EnvironmentFits(env, "texttt", ETexttt, Things(body), at);
    case Quote(quoted) =>
      assert FindEnviron("quote") == Some(EQuote);
      BlocksFit(env, quoted, Inside(EQuote, at));
      EnvironmentFits(env, "quote", EQuote, Flatten(quoted), at);
    case Table(rows) => TableFits(env, rows, at);
  }

  lemma {:induction false} BlocksFit(env: Env, bs: Blocks, at: Place)
    requires ProperBlocks(bs) && InParagraph(at)
    ensures Returns(env, Flatten(bs), at)
    decreases bs, 0
  {
    hide BlockThings;
    match bs
    case NoBlock =>
    case AddBlock(front, b) =>
      BlocksFit(env, front, at);
      BlockFits(env, b, Walk(env, Flatten(front), at).value);
      WalkConcat(env, Flatten(front), BlockThings(b), at);
  }

  // ----- Posts ------------------------------------------------------------------------------

  datatype Post = Only(bs: Blocks) | Then(front: Post, bs: Blocks)

  /** Paragraphs are not empty. */
  predicate ProperPost(post: Post)
  {
    post.bs.AddBlock? && ProperBlocks(post.bs) && (post.Then? ==> ProperPost(post.front))
  }

  function ParagraphsOf(post: Post): Paragraphs
    requires ProperPost(post)
  {
    match post
    case Only(bs) => Single(ParagraphOf(Flatten(bs)))
    case Then(front, bs) => Next(ParagraphsOf(front), ParagraphOf(Flatten(bs)))
  }

  lemma WholeFits(env: Env, bs: Blocks, st: State)
    requires bs.AddBlock? && ProperBlocks(bs) && st.tableNesting >= 0
    ensures var p := ParagraphOf(Flatten(bs));
            && ParagraphOut(env, p, st).Ok?
            && ParagraphOut(env, p, st).value.st.tableNesting == st.tableNesting
            && AfterWhole(env, p, st, []) == Some([])
  {
    hide Walk, ParagraphOut, AfterParagraph, Flatten, ParagraphOf, ProperBlocks;
    assert [] + ["p"] == ["p"] && DropLast(["p"]) == [];
    BlocksFit(env, bs, Place(st, ["p"]));
    WalkParagraph(env, Flatten(bs), Place(st, ["p"]));
  }

  lemma {:induction false} PostFits(env: Env, post: Post)
    requires ProperPost(post)
    ensures ParagraphsOut(env, ParagraphsOf(post), INITIAL).Ok?
    ensures ParagraphsOut(env, ParagraphsOf(post), INITIAL).value.st.tableNesting == 0
    ensures AfterParagraphs(env, ParagraphsOf(post), INITIAL, []) == Some([])
  {
    hide ParagraphOut, AfterWhole, Flatten, ParagraphOf, ProperBlocks;
    match post
    case Only(bs) => WholeFits(env, bs, INITIAL);
    case Then(front, bs) =>
      PostFits(env, front);
      WholeFits(env, bs, ParagraphsOut(env, ParagraphsOf(front), INITIAL).value.st);
  }

  /** Whatever is written by structure compiles, is disciplined, and so nests if its
      text is clean. */
  lemma WrittenPostsNest(env: Env, post: Post)
    requires ProperPost(post)
    ensures var doc := Document(ParagraphsOf(post));
            && Compile(env, doc).Ok? && Disciplined(env, doc)
            && (CleanEnv(env) && Legible(env, doc) ==> WellNestedHtml(Serialize(Compile(env, doc).value.toks)))
  {
    PostFits(env, post);
    var doc := Document(ParagraphsOf(post));
    if CleanEnv(env) && Legible(env, doc) {
      CompiledPostNests(env, doc);
    }
  }
}
