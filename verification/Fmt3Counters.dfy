/**
 The two nesting counters of the parser.  They count the begins and ends of tables
 and verbatim environments, whether these are printed or not.  In a disciplined post
 the printed ones are closed at the end, so the counters are off by exactly what hides
 in arguments that are dropped or printed in attributes only.
 */
module Fmt3Counters {
  import opened Basics
  import opened Html
  import opened Fmt3
  import opened Fmt3Discipline
  import opened Fmt3Nesting

  // ----- Begins minus ends --------------------------------------------------------------------

  datatype Moves = Moves(tables: int, verbatims: int)

  const STILL := Moves(0, 0)

  function Sum(a: Moves, b: Moves): Moves
  {
    Moves(a.tables + b.tables, a.verbatims + b.verbatims)
  }

  /** What a thing does itself, apart from its arguments. */
  function Own(t: Thing, txt: seq<Tok>): Moves
    requires t.Command?
  {
    var c, e := FindCmd(t.name), FindEnviron(Serialize(txt));
    var d := if c == Some(CBegin) then 1 else if c == Some(CEnd) then -1 else 0;
    if e == Some(ETabular) then Moves(d, 0) else if e == Some(ETexttt) then Moves(0, d) else STILL
  }

  /** All the begins minus all the ends. */
  function AllOf(env: Env, t: Thing, st: State): Moves
    requires ThingOut(env, t, st).Ok?
    decreases t, 1
  {
    if !t.Command? then STILL
    else
      var opt := ArgOut(env, t.opt, st).value;
      var arg := ArgOut(env, t.arg, opt.st).value;
      Sum(Sum(AllOfArg(env, t.opt, st), AllOfArg(env, t.arg, opt.st)), Own(t, arg.toks))
  }

  function AllOfArg(env: Env, a: Arg, st: State): Moves
    requires ArgOut(env, a, st).Ok?
    decreases a, 3
  {
    if a.Braced? then AllOfParagraph(env, a.p, st) else STILL
  }

  function AllOfParagraph(env: Env, p: Paragraph, st: State): Moves
    requires ParagraphOut(env, p, st).Ok?
    decreases p, 2
  {
    match p
    case Start(t) => AllOf(env, t, st)
    case Append(q, t) => Sum(AllOfParagraph(env, q, st), AllOf(env, t, ParagraphOut(env, q, st).value.st))
  }

  /** Those in arguments that are not printed, or in attributes only. */
  function Hidden(env: Env, t: Thing, st: State): Moves
    requires ThingOut(env, t, st).Ok?
    decreases t, 1
  {
    if !t.Command? then STILL
    else
      var opt := ArgOut(env, t.opt, st).value;
      var arg := ArgOut(env, t.arg, opt.st).value;
      match FindCmd(t.name)
      case None => Sum(AllOfArg(env, t.opt, st), AllOfArg(env, t.arg, opt.st))
      case Some(c) =>
        if c.CBegin? || c.CEnd? then
          Sum(AllOfArg(env, t.opt, st),
              if FindEnviron(Serialize(arg.toks)).None? then HiddenInArg(env, t.arg, opt.st, Passed)
              else AllOfArg(env, t.arg, opt.st))
        else
          Sum(HiddenInArg(env, t.opt, st, OptSlot(c, Given(t.opt))),
              HiddenInArg(env, t.arg, opt.st, ArgSlot(c, Given(t.opt))))
  }

  function HiddenInArg(env: Env, a: Arg, st: State, slot: Slot): Moves
    requires ArgOut(env, a, st).Ok?
    decreases a, 3
  {
    if slot.Dropped? || slot.Attribute? then AllOfArg(env, a, st)
    else if a.Braced? then HiddenInParagraph(env, a.p, st)
    else STILL
  }

  function HiddenInParagraph(env: Env, p: Paragraph, st: State): Moves
    requires ParagraphOut(env, p, st).Ok?
    decreases p, 2
  {
    match p
    case Start(t) => Hidden(env, t, st)
    case Append(q, t) => Sum(HiddenInParagraph(env, q, st), Hidden(env, t, ParagraphOut(env, q, st).value.st))
  }

  function HiddenInParagraphs(env: Env, ps: Paragraphs, st: State): Moves
    requires ParagraphsOut(env, ps, st).Ok?
  {
    match ps
    case Single(p) => HiddenInParagraph(env, p, st)
    case Next(qs, p) =>
      Sum(HiddenInParagraphs(env, qs, st), HiddenInParagraph(env, p, ParagraphsOut(env, qs, st).value.st))
  }

  function HiddenInPost(env: Env, doc: Document): Moves
    requires Compile(env, doc).Ok?
  {
    if doc.Document? then HiddenInParagraphs(env, doc.ps, INITIAL) else STILL
  }

  predicate Moved(a: State, b: State, m: Moves)
  {
    b.tableNesting == a.tableNesting + m.tables && b.textttNesting == a.textttNesting + m.verbatims
  }

  lemma NothingMoved(st: State)
    ensures Moved(st, st, STILL)
  {}

  // ----- The counters count everything --------------------------------------------------------

  /** The command itself, after its arguments. */
  lemma {:induction false} ProcessCounts(env: Env, t: Thing, txt: seq<Tok>, opt: seq<Tok>, st: State)
    requires t.Command? && Process(env, t.name, Given(t.arg), txt, Given(t.opt), opt, st).Ok?
    ensures Moved(st, Process(env, t.name, Given(t.arg), txt, Given(t.opt), opt, st).value.st, Own(t, txt))
  {
    hide FindCmd, FindEnviron, CmdToks, ArgsFit, BeginToks, EndToks, Serialize;
  }

  lemma {:induction false} CountersCount(env: Env, t: Thing, st: State)
    requires ThingOut(env, t, st).Ok?
    ensures Moved(st, ThingOut(env, t, st).value.st, AllOf(env, t, st))
    decreases t, 1
  {
    hide Process, Own, SimpleToks, ArgOut, AllOfArg;
    if t.Command? {
      var opt := ArgOut(env, t.opt, st).value;
      var arg := ArgOut(env, t.arg, opt.st).value;
      CountersCountArg(env, t.opt, st);
      CountersCountArg(env, t.arg, opt.st);
      ProcessCounts(env, t, arg.toks, opt.toks, arg.st);
    }
  }

  lemma {:induction false} CountersCountArg(env: Env, a: Arg, st: State)
    requires ArgOut(env, a, st).Ok?
    ensures Moved(st, ArgOut(env, a, st).value.st, AllOfArg(env, a, st))
    decreases a, 3
  {
    if a.Braced? {
      CountersCountParagraph(env, a.p, st);
    }
  }

  lemma {:induction false} CountersCountParagraph(env: Env, p: Paragraph, st: State)
    requires ParagraphOut(env, p, st).Ok?
    ensures Moved(st, ParagraphOut(env, p, st).value.st, AllOfParagraph(env, p, st))
    decreases p, 2
  {
    match p
    case Start(t) => CountersCount(env, t, st);
    case Append(q, t) =>
      CountersCountParagraph(env, q, st);
      CountersCount(env, t, ParagraphOut(env, q, st).value.st);
  }

  // ----- Open elements ------------------------------------------------------------------------

  function Names(open: seq<string>, name: string): nat
  {
    if open == [] then 0 else Names(DropLast(open), name) + if Last(open) == name then 1 else 0
  }

  lemma NamesSnoc(open: seq<string>, x: string, name: string)
    ensures Names(open + [x], name) == Names(open, name) + if x == name then 1 else 0
  {
    assert DropLast(open + [x]) == open;
  }

  /** The tables and verbatim environments that are open now and were not. */
  function Opened(was: seq<string>, now: seq<string>): Moves
  {
    Moves(Names(now, "table") - Names(was, "table"), Names(now, "pre") - Names(was, "pre"))
  }

  /** Nothing opened. */
  lemma OnlyHidden(a: State, b: State, open: seq<string>, m: Moves)
    requires Moved(a, b, m)
    ensures Moved(a, b, Sum(Opened(open, open), m))
  {
    hide Names;
  }

  lemma BeginCounts(e: Environ, st: State, open: seq<string>)
    requires AfterBegin(e, st.tableNesting, open).Some?
    ensures Moved(st, Fmt3.Count(st, e, 1), Opened(open, AfterBegin(e, st.tableNesting, open).value))
  {
    var base := if Nested(e, st.tableNesting) then open else DropLast(open);
    var list := base + [ListElement(e)];
    forall name | name == "table" || name == "pre"
      ensures Names(AfterBegin(e, st.tableNesting, open).value, name)
           == Names(open, name) + if ListElement(e) == name then 1 else 0
    {
      NamesSnoc(base, ListElement(e), name);
      NamesSnoc(list, "p", name);
      assert list + [] == list;
    }
  }

  lemma EndCounts(e: Environ, st: State, open: seq<string>)
    requires AfterEnd(e, Fmt3.Count(st, e, -1).tableNesting, open).Some?
    ensures Moved(st, Fmt3.Count(st, e, -1), Opened(open, AfterEnd(e, Fmt3.Count(st, e, -1).tableNesting, open).value))
  {
    var list := if e.EQuote? then DropLast(open) else open;
    var after := AfterEnd(e, Fmt3.Count(st, e, -1).tableNesting, open).value;
    forall name | name == "table" || name == "pre"
      ensures Names(after, name) == Names(open, name) - if ListElement(e) == name then 1 else 0
    {
      NamesSnoc(DropLast(list), "p", name);
      assert DropLast(list) + [] == DropLast(list);
    }
  }

  /** Where the discipline holds the counters move with the open elements and with what
      hides. */
  lemma {:induction false} ThingCounts(env: Env, t: Thing, st: State, open: seq<string>)
    requires ThingOut(env, t, st).Ok? && AfterThing(env, t, st, open).Some?
    ensures Moved(st, ThingOut(env, t, st).value.st,
                  Sum(Opened(open, AfterThing(env, t, st, open).value), Hidden(env, t, st)))
    decreases t, 1
  {
    hide FindCmd, ThingOut, AfterThing, Hidden;
    if !t.Command? {
      SimpleCounts(env, t, st, open);
    } else if FindCmd(t.name).None? {
      UnknownCounts(env, t, st, open);
    } else if FindCmd(t.name).value.CBegin? || FindCmd(t.name).value.CEnd? {
      EnvironCounts(env, t, FindCmd(t.name).value, st, open);
    } else {
      CommandCounts(env, t, FindCmd(t.name).value, st, open);
    }
  }

  lemma StateCounts(env: Env, t: Thing, st: State, open: seq<string>)
    ensures Moved(st, SimpleState(env, t, st), STILL)
    ensures AfterSimple(t, open) in {None, Some(open)}
  {}

  lemma SimpleParts(env: Env, t: Thing, st: State, open: seq<string>)
    requires !t.Command?
    ensures AfterThing(env, t, st, open) == AfterSimple(t, open)
    ensures ThingOut(env, t, st).Ok? && ThingOut(env, t, st).value.st == SimpleState(env, t, st)
    ensures Hidden(env, t, st) == STILL
  {}

  lemma SimpleCounts(env: Env, t: Thing, st: State, open: seq<string>)
    requires !t.Command? && AfterThing(env, t, st, open).Some?
    ensures ThingOut(env, t, st).Ok?
    ensures Moved(st, ThingOut(env, t, st).value.st,
                  Sum(Opened(open, AfterThing(env, t, st, open).value), Hidden(env, t, st)))
  {
    hide Opened, Moved, Sum, ThingOut, AfterThing, Hidden, SimpleState, AfterSimple;
    SimpleParts(env, t, st, open);
    StateCounts(env, t, st, open);
    OnlyHidden(st, SimpleState(env, t, st), open, STILL);
  }

  lemma {:induction false} UnknownCounts(env: Env, t: Thing, st: State, open: seq<string>)
    requires t.Command? && FindCmd(t.name).None?
    requires ThingOut(env, t, st).Ok? && AfterThing(env, t, st, open).Some?
    ensures Moved(st, ThingOut(env, t, st).value.st,
                  Sum(Opened(open, AfterThing(env, t, st, open).value), Hidden(env, t, st)))
  {
    hide FindCmd, Names, ArgOut, AllOfArg;
    CountersCountArg(env, t.opt, st);
    CountersCountArg(env, t.arg, ArgOut(env, t.opt, st).value.st);
  }

  lemma {:induction false} EnvironCounts(env: Env, t: Thing, c: Cmd, st: State, open: seq<string>)
    requires t.Command? && FindCmd(t.name) == Some(c) && (c.CBegin? || c.CEnd?)
    requires ThingOut(env, t, st).Ok? && AfterThing(env, t, st, open).Some?
    ensures Moved(st, ThingOut(env, t, st).value.st,
                  Sum(Opened(open, AfterThing(env, t, st, open).value), Hidden(env, t, st)))
    decreases t, 0
  {
    hide FindCmd, FindEnviron, Names, Serialize, BeginToks, EndToks, AfterBegin, AfterEnd;
    hide AllOfArg, HiddenInArg, ArgOut;
    var opt := ArgOut(env, t.opt, st).value;
    var arg := ArgOut(env, t.arg, opt.st).value;
    CountersCountArg(env, t.opt, st);
    CountersCountArg(env, t.arg, opt.st);
    var found := FindEnviron(Serialize(arg.toks));
    assert AfterThing(env, t, st, open) == AfterEnviron(env, c.CBegin?, t.arg, opt.st, open);
    if found.None? {
      assert AfterEnviron(env, c.CBegin?, t.arg, opt.st, open) == AfterText(env, t.arg, opt.st, open);
      TextCounts(env, t.arg, opt.st, open);
    } else if c.CBegin? {
      BeginCounts(found.value, arg.st, open);
    } else {
      EndCounts(found.value, arg.st, open);
    }
  }

  lemma {:induction false} CommandCounts(env: Env, t: Thing, c: Cmd, st: State, open: seq<string>)
    requires t.Command? && FindCmd(t.name) == Some(c) && !c.CBegin? && !c.CEnd?
    requires ThingOut(env, t, st).Ok? && AfterThing(env, t, st, open).Some?
    ensures Moved(st, ThingOut(env, t, st).value.st,
                  Sum(Opened(open, AfterThing(env, t, st, open).value), Hidden(env, t, st)))
    decreases t, 0
  {
    hide FindCmd, CmdToks, FindEnviron, Serialize, ArgsFit, ArgSlot, OptSlot, Names, ArgOut, HiddenInArg, AfterText;
    var opt, hasOpt, base := ArgOut(env, t.opt, st).value, Given(t.opt), Base(c, open);
    ArgCounts(env, t.opt, st, OptSlot(c, hasOpt), base);
    ArgCounts(env, t.arg, opt.st, ArgSlot(c, hasOpt), base);
    OptNotPassed(c, hasOpt);
  }

  /** Only dropped and wrapped text can be optional. */
  lemma OptNotPassed(c: Cmd, hasOpt: bool)
    ensures !OptSlot(c, hasOpt).Passed?
    ensures BreaksPara(c) ==> !ArgSlot(c, hasOpt).Passed?
  {}

  /** An argument counts as what remains of it, and what hides in it. */
  lemma {:induction false} ArgCounts(env: Env, a: Arg, st: State, slot: Slot, base: seq<string>)
    requires ArgOut(env, a, st).Ok?
    requires AfterArg(slot, base, AfterText(env, a, st, Around(slot, base))).Some?
    ensures Moved(st, ArgOut(env, a, st).value.st,
                  Sum(Opened(base, AfterArg(slot, base, AfterText(env, a, st, Around(slot, base))).value),
                      HiddenInArg(env, a, st, slot)))
    decreases a, 4
  {
    hide Opened, Moved, Sum, ArgOut, AfterText, HiddenInArg, AllOfArg;
    HiddenArg(env, a, st, slot);
    if slot.Dropped? || slot.Attribute? {
      CountersCountArg(env, a, st);
      OnlyHidden(st, ArgOut(env, a, st).value.st, base, AllOfArg(env, a, st));
    } else {
      TextCounts(env, a, st, Around(slot, base));
      OpenedAround(slot, base);
    }
  }

  /** What is printed inside elements opens nothing. */
  lemma OpenedAround(slot: Slot, base: seq<string>)
    ensures Opened(Around(slot, base), Around(slot, base)) == Opened(base, base)
  {
    hide Names;
  }

  lemma HiddenArg(env: Env, a: Arg, st: State, slot: Slot)
    requires ArgOut(env, a, st).Ok?
    ensures HiddenInArg(env, a, st, slot)
         == if slot.Dropped? || slot.Attribute? then AllOfArg(env, a, st) else HiddenInArg(env, a, st, Passed)
  {
    hide ParagraphOut, AllOfParagraph, HiddenInParagraph;
  }

  lemma TextParts(env: Env, a: Arg, st: State, open: seq<string>)
    ensures a.NoArg? ==> ArgOut(env, a, st) == Ok(Out([], st)) && AfterText(env, a, st, open) == Some(open)
    ensures a.NoArg? ==> HiddenInArg(env, a, st, Passed) == STILL
    ensures a.Braced? ==> ArgOut(env, a, st) == ParagraphOut(env, a.p, st)
    ensures a.Braced? ==> AfterText(env, a, st, open) == AfterParagraph(env, a.p, st, open)
    ensures a.Braced? && ArgOut(env, a, st).Ok? ==>
              HiddenInArg(env, a, st, Passed) == HiddenInParagraph(env, a.p, st)
  {
    hide ParagraphOut, AfterParagraph, HiddenInParagraph;
  }

  lemma {:induction false} TextCounts(env: Env, a: Arg, st: State, open: seq<string>)
    requires ArgOut(env, a, st).Ok? && AfterText(env, a, st, open).Some?
    ensures Moved(st, ArgOut(env, a, st).value.st,
                  Sum(Opened(open, AfterText(env, a, st, open).value), HiddenInArg(env, a, st, Passed)))
    decreases a, 3
  {
    hide Opened, Moved, Sum, ArgOut, AfterText, HiddenInArg, ParagraphOut, AfterParagraph, HiddenInParagraph;
    TextParts(env, a, st, open);
    if a.Braced? {
      ParagraphCounts(env, a.p, st, open);
    } else {
      NothingMoved(st);
      OnlyHidden(st, st, open, STILL);
    }
  }

  lemma {:induction false} ParagraphCounts(env: Env, p: Paragraph, st: State, open: seq<string>)
    requires ParagraphOut(env, p, st).Ok? && AfterParagraph(env, p, st, open).Some?
    ensures Moved(st, ParagraphOut(env, p, st).value.st,
                  Sum(Opened(open, AfterParagraph(env, p, st, open).value), HiddenInParagraph(env, p, st)))
    decreases p, 2
  {
    match p
    case Start(t) => ThingCounts(env, t, st, open);
    case Append(q, t) =>
      ParagraphCounts(env, q, st, open);
      ThingCounts(env, t, ParagraphOut(env, q, st).value.st, AfterParagraph(env, q, st, open).value);
  }

  lemma {:induction false} ParagraphsCount(env: Env, ps: Paragraphs, st: State, open: seq<string>)
    requires ParagraphsOut(env, ps, st).Ok? && AfterParagraphs(env, ps, st, open).Some?
    ensures Moved(st, ParagraphsOut(env, ps, st).value.st,
                  Sum(Opened(open, AfterParagraphs(env, ps, st, open).value), HiddenInParagraphs(env, ps, st)))
  {
    match ps
    case Single(p) => WholeCounts(env, p, st, open);
    case Next(qs, p) =>
      ParagraphsCount(env, qs, st, open);
      WholeCounts(env, p, ParagraphsOut(env, qs, st).value.st, AfterParagraphs(env, qs, st, open).value);
  }

  lemma {:induction false} WholeCounts(env: Env, p: Paragraph, st: State, open: seq<string>)
    requires ParagraphOut(env, p, st).Ok? && AfterWhole(env, p, st, open).Some?
    ensures Moved(st, ParagraphOut(env, p, st).value.st,
                  Sum(Opened(open, AfterWhole(env, p, st, open).value), HiddenInParagraph(env, p, st)))
  {
    ParagraphCounts(env, p, st, open + ["p"]);
    NamesSnoc(open, "p", "table");
    NamesSnoc(open, "p", "pre");
  }

  // ----- The theorem --------------------------------------------------------------------------

  /** At the end of a disciplined post the counters hold what hides in it, so they are
      back at zero exactly if begins and ends balance there too. */
  lemma CountersReturn(env: Env, doc: Document)
    requires Disciplined(env, doc) && Compile(env, doc).Ok?
    ensures Moved(INITIAL, Compile(env, doc).value.st, HiddenInPost(env, doc))
    ensures Moved(INITIAL, Compile(env, doc).value.st, STILL) <==> HiddenInPost(env, doc) == STILL
  {
    if doc.Document? {
      ParagraphsCount(env, doc.ps, INITIAL, []);
    }
  }

  /** A command that prints nothing. */
  lemma DroppedAfter(env: Env, name: string, a: Arg, st: State, open: seq<string>)
    requires FindCmd(name) == Some(CNop) && Given(a) && ArgOut(env, a, st).Ok?
    ensures ThingOut(env, Command(name, NoArg, a), st) == Ok(Out([], ArgOut(env, a, st).value.st))
    ensures AfterThing(env, Command(name, NoArg, a), st, open) == Some(open)
  {
    hide FindCmd;
    assert ArgOut(env, NoArg, st) == Ok(Out([], st));
  }

  /** A table in an argument that is dropped nests, but the counter takes it for open. */
  lemma HiddenTableCounts(env: Env)
    ensures var hidden := Command("category", NoArg, Braced(Start(Delimiter("begin", "tabular"))));
            var doc := Document(Single(Start(hidden)));
            Disciplined(env, doc) && Compile(env, doc).Ok? && Compile(env, doc).value.st.tableNesting == 1
  {
    var table := Delimiter("begin", "tabular");
    var hidden := Command("category", NoArg, Braced(Start(table)));
    assert FindCmd("category") == Some(CNop) && FindEnviron("tabular") == Some(ETabular);
    DelimiterAfter(env, true, "tabular", INITIAL, ["p"]);
    WordArg(env, "tabular", INITIAL, []);
    hide FindCmd, FindEnviron, ThingOut, AfterThing;
    OneThing(env, table, INITIAL, ["p"]);
    OneThing(env, hidden, INITIAL, ["p"]);
    assert ArgOut(env, hidden.arg, INITIAL) == ThingOut(env, table, INITIAL);
    DroppedAfter(env, "category", hidden.arg, INITIAL, ["p"]);
    assert [] + ["p"] == ["p"] && DropLast(["p"]) == [];
  }
}
