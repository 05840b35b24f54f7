/**
 Which posts compile to well-nested HTML: `Disciplined` follows the parse tree with
 the stack of open elements and says where each construct may stand.  Most commands
 wrap their argument in an element; sections, listings and environments first close
 the paragraph around them, so they only work where a paragraph is the innermost
 element; a few drop their argument, and \degree passes it through.  Fmt3Nesting
 proves that exactly the disciplined posts nest.
 */
module Fmt3Discipline {
  import opened Basics
  import opened Escape
  import opened Html
  import opened MathMl
  import opened Posts
  import opened Fmt3

  // ----- Where arguments end up ----------------------------------------------------------

  /** What a command does with an argument. */
  datatype Slot =
    | Dropped                           // not printed
    | Attribute                         // printed in an attribute, or naming a file
    | Passed                            // printed as it is
    | Inside(elements: seq<string>)     // printed inside elements, the last one innermost

  function ArgSlot(c: Cmd, hasOpt: bool): Slot
  {
    match c
    case CAbbrev => if hasOpt then Inside(["abbr"]) else Attribute
    case CDegree => Passed
    case CEmph => Inside(["em"])
    case CItem => Inside([if hasOpt then "dd" else "li"])
    case CSection => Inside(["h3"])
    case CSubsection => Inside(["h4"])
    case CSubsubsection => Inside(["h5"])
    case CTextBf => Inside(["strong"])
    case CTextIt => Inside(["i"])
    case CTextTt => Inside(["span"])
    case CTrow => Inside(["tr", "td"])
    case CNop => Dropped
    case CLeftArrow => Dropped
    case CLeftRightArrow => Dropped
    case CRightArrow => Dropped
    case CTm => Dropped
    case CBegin => Dropped
    case CEnd => Dropped
    case _ => Attribute
  }

  function OptSlot(c: Cmd, hasOpt: bool): Slot
  {
    if !hasOpt then Dropped
    else if c.CAbbrev? || c.CImg? || c.CPhoto? then Attribute
    else if c.CItem? then Inside(["dt"])
    else if c.CLink? || c.CPhotoLink? || c.CPost? || c.CTagLink? || c.CWiki? then Inside(["a"])
    else Dropped
  }

  predicate BreaksPara(c: Cmd)
  {
    c.CSection? || c.CSubsection? || c.CSubsubsection? || c.CListing?
  }

  // ----- The discipline ------------------------------------------------------------------

  /** A paragraph is the innermost open element. */
  predicate InPara(open: seq<string>)
  {
    open != [] && Last(open) == "p"
  }

  /** The elements a command is printed in. */
  function Base(c: Cmd, open: seq<string>): seq<string>
  {
    if BreaksPara(c) && open != [] then DropLast(open) else open
  }

  /** The open elements around an argument. */
  function Around(slot: Slot, base: seq<string>): seq<string>
  {
    if slot.Inside? then base + slot.elements else base
  }

  /** The open elements after an argument, given those after its text; what is
      printed inside elements must close all it opens. */
  function AfterArg(slot: Slot, base: seq<string>, after: Option<seq<string>>): Option<seq<string>>
  {
    match slot
    case Dropped => Some(base)
    case Attribute => Some(base)
    case Passed => after
    case Inside(_) => if after == Some(Around(slot, base)) then Some(base) else None
  }

  /** The open elements after a command other than begin and end. */
  function AfterCmd(c: Cmd, hasOpt: bool, open: seq<string>, opt: Option<seq<string>>, arg: Option<seq<string>>)
    : Option<seq<string>>
  {
    var base := Base(c, open);
    if BreaksPara(c) && !InPara(open) then None
    else if AfterArg(OptSlot(c, hasOpt), base, opt).None? then None
    else
      match AfterArg(ArgSlot(c, hasOpt), base, arg)
      case None => None
      case Some(after) => Some(if BreaksPara(c) then open else after)
  }

  /** A table inside a table does not close a paragraph. */
  predicate Nested(e: Environ, nesting: int)
  {
    e.ETabular? && nesting != 0
  }

  function AfterBegin(e: Environ, nesting: int, open: seq<string>): Option<seq<string>>
  {
    if Nested(e, nesting) then Some(open + ["table"])
    else if !InPara(open) then None
    else Some(DropLast(open) + [ListElement(e)] + if e.EQuote? then ["p"] else [])
  }

  /** `nesting` is the table nesting after the decrement. */
  function AfterEnd(e: Environ, nesting: int, open: seq<string>): Option<seq<string>>
  {
    var list := if e.EQuote? && InPara(open) then DropLast(open) else open;
    if e.EQuote? && !InPara(open) then None
    else if list == [] || Last(list) != ListElement(e) then None
    else Some(DropLast(list) + if Nested(e, nesting) then [] else ["p"])
  }

  /** The open elements after a thing other than a command. */
  function AfterSimple(t: Thing, open: seq<string>): Option<seq<string>>
  {
    if t.Ampersand? then
      if open != [] && Last(open) == "td" then Some(open) else None
    else if t.Verbatim? || t.ListingEnv? then
      if InPara(open) then Some(open) else None
    else Some(open)
  }

  /** The open elements after a thing; None if something is out of place. */
  function AfterThing(env: Env, t: Thing, st: State, open: seq<string>): Option<seq<string>>
    decreases t, 1
  {
    if !t.Command? then AfterSimple(t, open)
    else
      match FindCmd(t.name)
      case None => Some(open)
      case Some(c) =>
        var opt := ArgOut(env, t.opt, st);
        if opt.Panic? then None
        else if c.CBegin? || c.CEnd? then AfterEnviron(env, c.CBegin?, t.arg, opt.value.st, open)
        else
          var hasOpt := Given(t.opt);
          AfterCmd(c, hasOpt, open,
                   AfterText(env, t.opt, st, Around(OptSlot(c, hasOpt), Base(c, open))),
                   AfterText(env, t.arg, opt.value.st, Around(ArgSlot(c, hasOpt), Base(c, open))))
  }

  /** begin and end; the name of an unknown environment is printed. */
  function AfterEnviron(env: Env, begin: bool, arg: Arg, st: State, open: seq<string>): Option<seq<string>>
    decreases arg, 4
  {
    match ArgOut(env, arg, st)
    case Panic(_) => None
    case Ok(out) =>
      match FindEnviron(Serialize(out.toks))
      case None => AfterText(env, arg, st, open)
      case Some(e) =>
        if begin then AfterBegin(e, out.st.tableNesting, open)
        else AfterEnd(e, Count(out.st, e, -1).tableNesting, open)
  }

  /** The open elements after the text of an argument. */
  function AfterText(env: Env, a: Arg, st: State, open: seq<string>): Option<seq<string>>
    decreases a, 3
  {
    match a
    case NoArg => Some(open)
    case Braced(p) => AfterParagraph(env, p, st, open)
  }

  function AfterParagraph(env: Env, p: Paragraph, st: State, open: seq<string>): Option<seq<string>>
    decreases p, 2
  {
    match p
    case Start(t) => AfterThing(env, t, st, open)
    case Append(q, t) =>
      match AfterParagraph(env, q, st, open)
      case None => None
      case Some(mid) =>
        match ParagraphOut(env, q, st)
        case Panic(_) => None
        case Ok(a) => AfterThing(env, t, a.st, mid)
  }

  /** A paragraph of the post with the `p` element around it.  Quotes may span
      paragraphs, since they close and open it. */
  function AfterWhole(env: Env, p: Paragraph, st: State, open: seq<string>): Option<seq<string>>
  {
    match AfterParagraph(env, p, st, open + ["p"])
    case None => None
    case Some(after) => if InPara(after) then Some(DropLast(after)) else None
  }

  function AfterParagraphs(env: Env, ps: Paragraphs, st: State, open: seq<string>): Option<seq<string>>
  {
    match ps
    case Single(p) => AfterWhole(env, p, st, open)
    case Next(qs, p) =>
      match AfterParagraphs(env, qs, st, open)
      case None => None
      case Some(mid) =>
        match ParagraphsOut(env, qs, st)
        case Panic(_) => None
        case Ok(a) => AfterWhole(env, p, a.st, mid)
  }

  /** Everything is in its place, and nothing stays open. */
  predicate Disciplined(env: Env, doc: Document)
  {
    doc.Document? ==> AfterParagraphs(env, doc.ps, INITIAL, []) == Some([])
  }

  // ----- Clean text ------------------------------------------------------------------------

  /** Raw text holds no tags; the lexer makes entities of the brackets and quotes of
      everything but verbatim text. */
  predicate SimpleLegible(t: Thing)
  {
    match t
    case Word(s) => TagFree(s)
    case Escaped(c) => TagFree([c])
    case MathEnv(m) => LexedList(m)
    case Verbatim(text) => TagFree(text)
    case _ => true
  }

  /** The link fits the buffer it is printed to. */
  predicate NotTruncated(env: Env, c: Cmd, txt: seq<Tok>, hasOpt: bool, opt: seq<Tok>)
  {
    (c.CPost? ==>
       |Serialize(Link(env.baseUrl + "/?p=" + Serialize(txt), if hasOpt then opt else txt))| < 1024)
    && (c.CTagLink? ==>
       |Serialize(Link(env.baseUrl + "/?tag=" + Serialize(txt), if hasOpt then opt else txt))| < 1024)
  }

  /** Text is clean where it is printed, and attribute values hold no tags. */
  predicate LegibleThing(env: Env, t: Thing, st: State)
    decreases t, 1
  {
    if !t.Command? then SimpleLegible(t)
    else
      match FindCmd(t.name)
      case None => TagFree(t.name)
      case Some(c) =>
        var opt, hasOpt := ArgOut(env, t.opt, st), Given(t.opt);
        opt.Ok? &&
        var arg := ArgOut(env, t.arg, opt.value.st);
        arg.Ok? &&
        if c.CBegin? || c.CEnd? then
          FindEnviron(Serialize(arg.value.toks)).None? ==> LegibleArg(env, t.arg, opt.value.st, Passed)
        else
          && LegibleArg(env, t.opt, st, OptSlot(c, hasOpt))
          && LegibleArg(env, t.arg, opt.value.st, ArgSlot(c, hasOpt))
          && NotTruncated(env, c, arg.value.toks, hasOpt, opt.value.toks)
  }

  predicate LegibleArg(env: Env, a: Arg, st: State, slot: Slot)
    decreases a, 3
  {
    match slot
    case Dropped => true
    case Attribute => ArgOut(env, a, st).Ok? && TagFree(Serialize(ArgOut(env, a, st).value.toks))
    case _ => a.Braced? ==> LegibleParagraph(env, a.p, st)
  }

  predicate LegibleParagraph(env: Env, p: Paragraph, st: State)
    decreases p, 2
  {
    match p
    case Start(t) => LegibleThing(env, t, st)
    case Append(q, t) =>
      LegibleParagraph(env, q, st) &&
      match ParagraphOut(env, q, st)
      case Panic(_) => false
      case Ok(a) => LegibleThing(env, t, a.st)
  }

  predicate LegibleParagraphs(env: Env, ps: Paragraphs, st: State)
  {
    match ps
    case Single(p) => LegibleParagraph(env, p, st)
    case Next(qs, p) =>
      LegibleParagraphs(env, qs, st) &&
      match ParagraphsOut(env, qs, st)
      case Panic(_) => false
      case Ok(a) => LegibleParagraph(env, p, a.st)
  }

  predicate Legible(env: Env, doc: Document)
  {
    doc.Document? ==> LegibleParagraphs(env, doc.ps, INITIAL)
  }

  predicate CleanEnv(env: Env)
  {
    TagFree(env.baseUrl) && TagFree(env.photoUrl) && TagFree(env.wikiUrl) && TagFree(env.bugUrl)
    && TagFree(env.strerror)
  }

  // ----- Elements stay where they were opened ------------------------------------------------

  /** The elements that can be left open by a piece of a post. */
  const BLOCKS: set<string> := {"p", "pre", "ol", "ul", "dl", "blockquote", "table"}

  predicate AllBlocks(open: seq<string>)
  {
    forall i :: 0 <= i < |open| ==> open[i] in BLOCKS
  }

  /** `after` has the same floor as before, with only blocks above it. */
  predicate Above(floor: seq<string>, after: Option<seq<string>>)
  {
    after.Some? ==> floor <= after.value && AllBlocks(after.value[|floor|..])
  }

  predicate Floor(floor: seq<string>)
  {
    floor != [] && Last(floor) !in BLOCKS
  }

  lemma DropAbove(floor: seq<string>, open: seq<string>)
    requires Floor(floor) && Above(floor, Some(open)) && Last(open) in BLOCKS
    ensures Above(floor, Some(DropLast(open)))
  {
    assert open == floor + open[|floor|..];
    assert DropLast(open)[|floor|..] == DropLast(open[|floor|..]);
  }

  lemma PushAbove(floor: seq<string>, open: seq<string>, more: seq<string>)
    requires Above(floor, Some(open)) && AllBlocks(more)
    ensures Above(floor, Some(open + more))
  {
    assert (open + more)[|floor|..] == open[|floor|..] + more;
  }

  /** Nothing closes an element of a command from within its argument. */
  lemma {:induction false} ThingAbove(env: Env, t: Thing, st: State, floor: seq<string>, open: seq<string>)
    requires Floor(floor) && Above(floor, Some(open))
    ensures Above(floor, AfterThing(env, t, st, open))
    decreases t, 1
  {
    if t.Command? && FindCmd(t.name).Some? && ArgOut(env, t.opt, st).Ok? {
      var c, mid := FindCmd(t.name).value, ArgOut(env, t.opt, st).value.st;
      if c.CBegin? || c.CEnd? {
        EnvironAbove(env, c.CBegin?, t.arg, mid, floor, open);
      } else if c.CDegree? {
        TextAbove(env, t.arg, mid, floor, open);
      }
    }
  }

  lemma {:induction false} EnvironAbove(env: Env, begin: bool, arg: Arg, st: State,
                                        floor: seq<string>, open: seq<string>)
    requires Floor(floor) && Above(floor, Some(open))
    ensures Above(floor, AfterEnviron(env, begin, arg, st, open))
    decreases arg, 4
  {
    if ArgOut(env, arg, st).Ok? {
      var out := ArgOut(env, arg, st).value;
      var found := FindEnviron(Serialize(out.toks));
      if found.None? {
        TextAbove(env, arg, st, floor, open);
      } else if begin {
        BeginAbove(found.value, out.st.tableNesting, floor, open);
      } else {
        EndAbove(found.value, Count(out.st, found.value, -1).tableNesting, floor, open);
      }
    }
  }

  lemma BeginAbove(e: Environ, nesting: int, floor: seq<string>, open: seq<string>)
    requires Floor(floor) && Above(floor, Some(open))
    ensures Above(floor, AfterBegin(e, nesting, open))
  {
    if Nested(e, nesting) {
      PushAbove(floor, open, ["table"]);
    } else if InPara(open) {
      DropAbove(floor, open);
      PushAbove(floor, DropLast(open), [ListElement(e)]);
      PushAbove(floor, DropLast(open) + [ListElement(e)], if e.EQuote? then ["p"] else []);
    }
  }

  lemma EndAbove(e: Environ, nesting: int, floor: seq<string>, open: seq<string>)
    requires Floor(floor) && Above(floor, Some(open))
    ensures Above(floor, AfterEnd(e, nesting, open))
  {
    if AfterEnd(e, nesting, open).Some? {
      var list := if e.EQuote? then DropLast(open) else open;
      if e.EQuote? {
        DropAbove(floor, open);
      }
      DropAbove(floor, list);
      PushAbove(floor, DropLast(list), if Nested(e, nesting) then [] else ["p"]);
    }
  }

  lemma {:induction false} TextAbove(env: Env, a: Arg, st: State, floor: seq<string>, open: seq<string>)
    requires Floor(floor) && Above(floor, Some(open))
    ensures Above(floor, AfterText(env, a, st, open))
    decreases a, 3
  {
    if a.Braced? {
      ParagraphAbove(env, a.p, st, floor, open);
    }
  }

  lemma {:induction false} ParagraphAbove(env: Env, p: Paragraph, st: State, floor: seq<string>, open: seq<string>)
    requires Floor(floor) && Above(floor, Some(open))
    ensures Above(floor, AfterParagraph(env, p, st, open))
    decreases p, 2
  {
    match p
    case Start(t) => ThingAbove(env, t, st, floor, open);
    case Append(q, t) =>
      ParagraphAbove(env, q, st, floor, open);
      var mid := AfterParagraph(env, q, st, open);
      if mid.Some? && ParagraphOut(env, q, st).Ok? {
        ThingAbove(env, t, ParagraphOut(env, q, st).value.st, floor, mid.value);
      }
  }
}
