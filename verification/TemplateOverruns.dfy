/**
 The assertion in cond_if is checked before the index moves, and so it admits one
 condition more than the array holds.  `CheckedPage` renders with the assertion and
 the array as they are; the theorems say of which pages the rendering writes behind
 an array, the page's own or that of a template it includes.
 */
module TemplateOverruns {
  import opened Basics
  import opened Vars
  import opened Parse
  import opened Template
  import opened TemplateNesting

  // ----- Rendering with a bounded stack -----------------------------------------------

  /** The assertion of cond_if: `cond_stack_use`, one less than the number of open
      conditions, is below COND_STACK_DEPTH. */
  predicate PassesAssertion(stack: seq<bool>)
  {
    |stack| - 1 < COND_STACK_DEPTH
  }

  /** The array has a slot for one more condition. */
  predicate HasRoom(stack: seq<bool>)
  {
    |stack| < COND_STACK_DEPTH
  }

  /** How a rendering ends. */
  datatype Outcome =
    | Done(out: string)
    | Aborted(fault: Fault)
    | AssertionFailed      // the assertion of cond_if
    | Overran              // cond_if writes behind its array

  function Unchecked(r: Result<string>): Outcome
  {
    match r
    case Ok(out) => Done(out)
    case Panic(fault) => Aborted(fault)
  }

  /** Run with the cond_if of the source. */
  function Checked(sys: Sys, lib: Library, ghost level: nat, scopes: seq<Scope>,
                   items: seq<Item>, stack: seq<bool>, out: string): Outcome
    requires Ranked(lib) && AllBelow(lib, items, level)
    decreases level + 1, 1, |items|
  {
    if items == [] then Done(out)
    else if items[0].Func? then
      match NextStack(sys, scopes, items[0], stack)
      case Panic(fault) => Aborted(fault)
      case Ok(next) =>
        if IsTest(items[0]) && !PassesAssertion(stack) then AssertionFailed
        else if IsTest(items[0]) && !HasRoom(stack) then Overran
        else Checked(sys, lib, level, scopes, items[1..], next, out)
    else if !AllTrue(stack) then Checked(sys, lib, level, scopes, items[1..], stack, out)
    else
      match CheckedItem(sys, lib, level, scopes, items[0])
      case Done(s) => Checked(sys, lib, level, scopes, items[1..], stack, out + s)
      case other => other
  }

  function CheckedItem(sys: Sys, lib: Library, ghost level: nat, scopes: seq<Scope>, item: Item): Outcome
    requires Ranked(lib) && Below(lib, item, level) && !item.Func?
    decreases level + 1, 0, 0
  {
    match item
    case Text(s) => Done(s)
    case Pipe(name, stages) => Unchecked(PipeOut(sys, scopes, name, stages))
    case Var(name) =>
      (match Lookup(scopes, name)
       case Some(val) => Unchecked(Print(val))
       case None => CheckedTemplate(sys, lib, scopes, name))
    case Foreach(name, tmpl) =>
      match Lookup(scopes, name)
      case None => Done("")
      case Some(Arr(vals)) => CheckedLoop(sys, lib, scopes, name, vals, tmpl)
      case Some(_) => Aborted(NotAnArray)
  }

  /** Every template has an array of its own. */
  function CheckedTemplate(sys: Sys, lib: Library, scopes: seq<Scope>, tmpl: string): Outcome
    requires Ranked(lib)
    decreases Height(lib, tmpl), 2, 0
  {
    if tmpl in lib.pages then Checked(sys, lib, Rank(lib, tmpl), scopes, lib.pages[tmpl], [], "") else Done("")
  }

  function CheckedLoop(sys: Sys, lib: Library, scopes: seq<Scope>,
                       name: string, vals: seq<Val>, tmpl: string): Outcome
    requires Ranked(lib)
    decreases Height(lib, tmpl), 3, |vals|
  {
    if vals == [] then Done("")
    else if |scopes| >= VAR_MAX_SCOPES then Aborted(TooManyScopes)
    else
      match ItemScope(name, vals[0])
      case Panic(fault) => Aborted(fault)
      case Ok(scope) =>
        match CheckedTemplate(sys, lib, scopes + [scope], tmpl)
        case Done(s) =>
          (match CheckedLoop(sys, lib, scopes, name, vals[1..], tmpl)
           case Done(t) => Done(s + t)
           case other => other)
        case other => other
  }

  function CheckedPage(sys: Sys, lib: Library, ghost level: nat, scopes: seq<Scope>, items: seq<Item>): Outcome
    requires Ranked(lib) && AllBelow(lib, items, level)
  {
    Checked(sys, lib, level, scopes, items, [], "")
  }

  // ----- The assertion never fires ----------------------------------------------------

  /** Until something is written behind an array, checking makes no difference. */
  lemma {:induction false} CheckedAgrees(sys: Sys, lib: Library, level: nat, scopes: seq<Scope>,
                                         items: seq<Item>, stack: seq<bool>, out: string)
    requires Ranked(lib) && AllBelow(lib, items, level) && |stack| <= COND_STACK_DEPTH
    ensures Checked(sys, lib, level, scopes, items, stack, out)
         in {Overran, Unchecked(Run(sys, lib, level, scopes, items, stack, out))}
    decreases level + 1, 1, |items|
  {
    hide Emit, CheckedItem, AllTrue, Test;
    if items != [] {
      var item, rest := items[0], items[1..];
      if item.Func? {
        var next := NextStack(sys, scopes, item, stack);
        if next.Ok? && !(IsTest(item) && !HasRoom(stack)) {
          CheckedAgrees(sys, lib, level, scopes, rest, next.value, out);
        }
      } else if !AllTrue(stack) {
        CheckedAgrees(sys, lib, level, scopes, rest, stack, out);
      } else {
        ItemAgrees(sys, lib, level, scopes, item);
        var text := Emit(sys, lib, level, scopes, item);
        if text.Ok? {
          CheckedAgrees(sys, lib, level, scopes, rest, stack, out + text.value);
        }
      }
    }
  }

  lemma {:induction false} ItemAgrees(sys: Sys, lib: Library, level: nat, scopes: seq<Scope>, item: Item)
    requires Ranked(lib) && Below(lib, item, level) && !item.Func?
    ensures CheckedItem(sys, lib, level, scopes, item) in {Overran, Unchecked(Emit(sys, lib, level, scopes, item))}
    decreases level + 1, 0, 0
  {
    match item
    case Var(name) => TemplateAgrees(sys, lib, scopes, name);
    case Foreach(name, tmpl) =>
      var val := Lookup(scopes, name);
      if val.Some? && val.value.Arr? {
        LoopAgrees(sys, lib, scopes, name, val.value.items, tmpl);
      }
    case _ =>
  }

  lemma {:induction false} TemplateAgrees(sys: Sys, lib: Library, scopes: seq<Scope>, tmpl: string)
    requires Ranked(lib)
    ensures CheckedTemplate(sys, lib, scopes, tmpl) in {Overran, Unchecked(RenderTemplate(sys, lib, scopes, tmpl))}
    decreases Height(lib, tmpl), 2, 0
  {
    if tmpl in lib.pages {
      CheckedAgrees(sys, lib, Rank(lib, tmpl), scopes, lib.pages[tmpl], [], "");
    }
  }

  lemma {:induction false} LoopAgrees(sys: Sys, lib: Library, scopes: seq<Scope>,
                                      name: string, vals: seq<Val>, tmpl: string)
    requires Ranked(lib)
    ensures CheckedLoop(sys, lib, scopes, name, vals, tmpl)
         in {Overran, Unchecked(RenderLoop(sys, lib, scopes, name, vals, tmpl))}
    decreases Height(lib, tmpl), 3, |vals|
  {
    if vals != [] {
      var scope := ItemScope(name, vals[0]);
      if scope.Ok? {
        TemplateAgrees(sys, lib, scopes + [scope.value], tmpl);
        LoopAgrees(sys, lib, scopes, name, vals[1..], tmpl);
      }
    }
  }

  // ----- One array ----------------------------------------------------------------------

  /** The run of a page comes to an `if` for which its own array has no slot, if what
      it includes does no harm. */
  predicate OverrunsItself(sys: Sys, lib: Library, ghost level: nat, scopes: seq<Scope>,
                           items: seq<Item>, stack: seq<bool>)
    requires Ranked(lib) && AllBelow(lib, items, level)
  {
    items != [] &&
    if items[0].Func? then
      match NextStack(sys, scopes, items[0], stack)
      case Panic(_) => false
      case Ok(next) =>
        if IsTest(items[0]) && !HasRoom(stack) then PassesAssertion(stack)
        else OverrunsItself(sys, lib, level, scopes, items[1..], next)
    else
      && (AllTrue(stack) ==> Emit(sys, lib, level, scopes, items[0]).Ok?)
      && OverrunsItself(sys, lib, level, scopes, items[1..], stack)
  }

  /** The page up to the first `if` for which the array has no slot. */
  function UpToFull(items: seq<Item>, depth: nat): (r: seq<Item>)
    ensures r <= items
  {
    if items == [] then []
    else if IsTest(items[0]) && depth >= COND_STACK_DEPTH then [items[0]]
    else
      [items[0]] + UpToFull(items[1..], if IsTest(items[0]) then depth + 1
                                        else if IsEndif(items[0]) && depth > 0 then depth - 1 else depth)
  }

  lemma PrefixBelow(lib: Library, a: seq<Item>, items: seq<Item>, level: nat)
    requires a <= items && AllBelow(lib, items, level)
    ensures AllBelow(lib, a, level)
  {
    assert forall i :: 0 <= i < |a| ==> a[i] == items[i];
  }

  /** A run that does not abort does not abort earlier either. */
  lemma {:induction false} PrefixRuns(sys: Sys, lib: Library, level: nat, scopes: seq<Scope>,
                                      a: seq<Item>, items: seq<Item>, stack: seq<bool>, out: string)
    requires Ranked(lib) && AllBelow(lib, items, level) && AllBelow(lib, a, level) && a <= items
    requires Run(sys, lib, level, scopes, items, stack, out).Ok?
    ensures Run(sys, lib, level, scopes, a, stack, out).Ok?
    decreases |items|
  {
    if a != [] {
      assert a[0] == items[0] && a[1..] <= items[1..];
      if items[0].Func? {
        PrefixRuns(sys, lib, level, scopes, a[1..], items[1..], NextStack(sys, scopes, items[0], stack).value, out);
      } else if !AllTrue(stack) {
        PrefixRuns(sys, lib, level, scopes, a[1..], items[1..], stack, out);
      } else {
        PrefixRuns(sys, lib, level, scopes, a[1..], items[1..], stack,
                   out + Emit(sys, lib, level, scopes, items[0]).value);
      }
    }
  }

  lemma {:induction false} OwnFrom(sys: Sys, lib: Library, level: nat, scopes: seq<Scope>,
                                        items: seq<Item>, stack: seq<bool>, out: string)
    requires Ranked(lib) && AllBelow(lib, items, level) && |stack| <= COND_STACK_DEPTH
    requires AllBelow(lib, UpToFull(items, |stack|), level)
    ensures OverrunsItself(sys, lib, level, scopes, items, stack)
       <==> MaxDepth(items, |stack|) > COND_STACK_DEPTH
            && Run(sys, lib, level, scopes, UpToFull(items, |stack|), stack, out).Ok?
    decreases |items|
  {
    hide Emit, AllTrue, Test, IsElse;
    var page := UpToFull(items, |stack|);
    if items != [] {
      var item, rest := items[0], items[1..];
      if item.Func? {
        var next := NextStack(sys, scopes, item, stack);
        if next.Ok? && !(IsTest(item) && !HasRoom(stack)) {
          assert page[1..] == UpToFull(rest, |next.value|);
          OwnFrom(sys, lib, level, scopes, rest, next.value, out);
        }
      } else {
        assert page[1..] == UpToFull(rest, |stack|);
        var more := if AllTrue(stack) then Emit(sys, lib, level, scopes, item) else Ok("");
        if more.Ok? {
          OwnFrom(sys, lib, level, scopes, rest, stack, if AllTrue(stack) then out + more.value else out);
        }
      }
    }
  }

  /** A page overruns its own array exactly if it has more conditions open than there
      are slots, and does not abort before it comes to the first that is too many. */
  lemma OwnArray(sys: Sys, lib: Library, level: nat, scopes: seq<Scope>, items: seq<Item>)
    requires Ranked(lib) && AllBelow(lib, items, level)
    ensures OverrunsItself(sys, lib, level, scopes, items, []) <==> GoesTooDeep(sys, lib, level, scopes, items)
  {
    PrefixBelow(lib, UpToFull(items, 0), items, level);
    OwnFrom(sys, lib, level, scopes, items, [], "");
  }

  predicate GoesTooDeep(sys: Sys, lib: Library, ghost level: nat, scopes: seq<Scope>, items: seq<Item>)
    requires Ranked(lib) && AllBelow(lib, items, level)
  {
    PrefixBelow(lib, UpToFull(items, 0), items, level);
    && MaxDepth(items, 0) > COND_STACK_DEPTH
    && RenderPage(sys, lib, level, scopes, UpToFull(items, 0)).Ok?
  }

  // ----- All the arrays -----------------------------------------------------------------

  /** A page or template that is rendered. */
  datatype Page = Page(level: nat, scopes: seq<Scope>, items: seq<Item>)

  /** The templates a page comes to render. */
  ghost function Entered(sys: Sys, lib: Library, level: nat, scopes: seq<Scope>,
                         items: seq<Item>, stack: seq<bool>): set<Page>
    requires Ranked(lib) && AllBelow(lib, items, level)
    decreases level + 1, 1, |items|
  {
    if items == [] then {}
    else if items[0].Func? then
      match NextStack(sys, scopes, items[0], stack)
      case Panic(_) => {}
      case Ok(next) => Entered(sys, lib, level, scopes, items[1..], next)
    else if !AllTrue(stack) then Entered(sys, lib, level, scopes, items[1..], stack)
    else
      EnteredByItem(sys, lib, level, scopes, items[0])
      + if Emit(sys, lib, level, scopes, items[0]).Ok? then Entered(sys, lib, level, scopes, items[1..], stack)
        else {}
  }

  ghost function EnteredByItem(sys: Sys, lib: Library, level: nat, scopes: seq<Scope>, item: Item): set<Page>
    requires Ranked(lib) && Below(lib, item, level) && !item.Func?
    decreases level + 1, 0, 0
  {
    match item
    case Var(name) => if Lookup(scopes, name).None? then EnteredByTemplate(sys, lib, scopes, name) else {}
    case Foreach(name, tmpl) =>
      (match Lookup(scopes, name)
       case Some(Arr(vals)) => EnteredByLoop(sys, lib, scopes, name, vals, tmpl)
       case _ => {})
    case _ => {}
  }

  ghost function EnteredByTemplate(sys: Sys, lib: Library, scopes: seq<Scope>, tmpl: string): set<Page>
    requires Ranked(lib)
    decreases Height(lib, tmpl), 2, 0
  {
    if tmpl in lib.pages then
      {Page(Rank(lib, tmpl), scopes, lib.pages[tmpl])}
      + Entered(sys, lib, Rank(lib, tmpl), scopes, lib.pages[tmpl], [])
    else {}
  }

  ghost function EnteredByLoop(sys: Sys, lib: Library, scopes: seq<Scope>,
                               name: string, vals: seq<Val>, tmpl: string): set<Page>
    requires Ranked(lib)
    decreases Height(lib, tmpl), 3, |vals|
  {
    if vals == [] || |scopes| >= VAR_MAX_SCOPES then {}
    else
      match ItemScope(name, vals[0])
      case Panic(_) => {}
      case Ok(scope) =>
        EnteredByTemplate(sys, lib, scopes + [scope], tmpl)
        + if RenderTemplate(sys, lib, scopes + [scope], tmpl).Ok? then
            EnteredByLoop(sys, lib, scopes, name, vals[1..], tmpl)
          else {}
  }

  /** The page itself and all the templates below it. */
  ghost function Rendered(sys: Sys, lib: Library, level: nat, scopes: seq<Scope>, items: seq<Item>): set<Page>
    requires Ranked(lib) && AllBelow(lib, items, level)
  {
    {Page(level, scopes, items)} + Entered(sys, lib, level, scopes, items, [])
  }

  ghost predicate Overruns(sys: Sys, lib: Library, p: Page)
    requires Ranked(lib)
  {
    AllBelow(lib, p.items, p.level) && OverrunsItself(sys, lib, p.level, p.scopes, p.items, [])
  }

  ghost predicate SomeOverruns(sys: Sys, lib: Library, pages: set<Page>)
    requires Ranked(lib)
  {
    exists p :: p in pages && Overruns(sys, lib, p)
  }

  lemma SomeOfUnion(sys: Sys, lib: Library, a: set<Page>, b: set<Page>)
    requires Ranked(lib)
    ensures SomeOverruns(sys, lib, a + b) <==> SomeOverruns(sys, lib, a) || SomeOverruns(sys, lib, b)
  {
    hide Overruns;
    if SomeOverruns(sys, lib, a) {
      var p :| p in a && Overruns(sys, lib, p);
      assert p in a + b;
    }
    if SomeOverruns(sys, lib, b) {
      var p :| p in b && Overruns(sys, lib, p);
      assert p in a + b;
    }
  }

  /** What happens first in time happens in some array. */
  lemma {:induction false} FirstOverrun(sys: Sys, lib: Library, level: nat, scopes: seq<Scope>,
                                        items: seq<Item>, stack: seq<bool>, out: string)
    requires Ranked(lib) && AllBelow(lib, items, level) && |stack| <= COND_STACK_DEPTH
    ensures Checked(sys, lib, level, scopes, items, stack, out) == Overran
       <==> OverrunsItself(sys, lib, level, scopes, items, stack)
            || SomeOverruns(sys, lib, Entered(sys, lib, level, scopes, items, stack))
    decreases level + 1, 1, |items|
  {
    hide Emit, CheckedItem, EnteredByItem, AllTrue, Test, SomeOverruns;
    NoneOverruns(sys, lib);
    if items != [] {
      var item, rest := items[0], items[1..];
      if item.Func? {
        var next := NextStack(sys, scopes, item, stack);
        if next.Ok? && !(IsTest(item) && !HasRoom(stack)) {
          FirstOverrun(sys, lib, level, scopes, rest, next.value, out);
        }
      } else if !AllTrue(stack) {
        FirstOverrun(sys, lib, level, scopes, rest, stack, out);
      } else {
        ItemOverrun(sys, lib, level, scopes, item);
        ItemAgrees(sys, lib, level, scopes, item);
        var text := Emit(sys, lib, level, scopes, item);
        if text.Ok? {
          FirstOverrun(sys, lib, level, scopes, rest, stack, out + text.value);
          SomeOfUnion(sys, lib, EnteredByItem(sys, lib, level, scopes, item),
                      Entered(sys, lib, level, scopes, rest, stack));
        } else {
          SomeOfUnion(sys, lib, EnteredByItem(sys, lib, level, scopes, item), {});
        }
      }
    }
  }

  lemma NoneOverruns(sys: Sys, lib: Library)
    requires Ranked(lib)
    ensures !SomeOverruns(sys, lib, {})
  {}

  lemma {:induction false} ItemOverrun(sys: Sys, lib: Library, level: nat, scopes: seq<Scope>, item: Item)
    requires Ranked(lib) && Below(lib, item, level) && !item.Func?
    ensures CheckedItem(sys, lib, level, scopes, item) == Overran
       <==> SomeOverruns(sys, lib, EnteredByItem(sys, lib, level, scopes, item))
    decreases level + 1, 0, 0
  {
    hide SomeOverruns;
    NoneOverruns(sys, lib);
    match item
    case Var(name) => TemplateOverrun(sys, lib, scopes, name);
    case Foreach(name, tmpl) =>
      var val := Lookup(scopes, name);
      if val.Some? && val.value.Arr? {
        LoopOverrun(sys, lib, scopes, name, val.value.items, tmpl);
      }
    case _ =>
  }

  lemma {:induction false} TemplateOverrun(sys: Sys, lib: Library, scopes: seq<Scope>, tmpl: string)
    requires Ranked(lib)
    ensures CheckedTemplate(sys, lib, scopes, tmpl) == Overran
       <==> SomeOverruns(sys, lib, EnteredByTemplate(sys, lib, scopes, tmpl))
    decreases Height(lib, tmpl), 3, 0
  {
    if tmpl in lib.pages {
      PageOverrun(sys, lib, Rank(lib, tmpl), scopes, lib.pages[tmpl]);
    } else {
      NoneOverruns(sys, lib);
    }
  }

  lemma {:induction false} PageOverrun(sys: Sys, lib: Library, level: nat, scopes: seq<Scope>, items: seq<Item>)
    requires Ranked(lib) && AllBelow(lib, items, level)
    ensures CheckedPage(sys, lib, level, scopes, items) == Overran
       <==> SomeOverruns(sys, lib, Rendered(sys, lib, level, scopes, items))
    decreases level + 1, 2, 0
  {
    hide Checked, Entered, OverrunsItself;
    var self := {Page(level, scopes, items)};
    FirstOverrun(sys, lib, level, scopes, items, [], "");
    SomeOfUnion(sys, lib, self, Entered(sys, lib, level, scopes, items, []));
    assert Page(level, scopes, items) in self;
  }

  lemma {:induction false} LoopOverrun(sys: Sys, lib: Library, scopes: seq<Scope>,
                                       name: string, vals: seq<Val>, tmpl: string)
    requires Ranked(lib)
    ensures CheckedLoop(sys, lib, scopes, name, vals, tmpl) == Overran
       <==> SomeOverruns(sys, lib, EnteredByLoop(sys, lib, scopes, name, vals, tmpl))
    decreases Height(lib, tmpl), 4, |vals|
  {
    hide SomeOverruns, CheckedTemplate, RenderTemplate, EnteredByTemplate;
    NoneOverruns(sys, lib);
    if vals != [] && |scopes| < VAR_MAX_SCOPES {
      var scope := ItemScope(name, vals[0]);
      if scope.Ok? {
        var inner := scopes + [scope.value];
        TemplateOverrun(sys, lib, inner, tmpl);
        TemplateAgrees(sys, lib, inner, tmpl);
        LoopOverrun(sys, lib, scopes, name, vals[1..], tmpl);
        SomeOfUnion(sys, lib, EnteredByTemplate(sys, lib, inner, tmpl),
                    if RenderTemplate(sys, lib, inner, tmpl).Ok? then
                      EnteredByLoop(sys, lib, scopes, name, vals[1..], tmpl)
                    else {});
      }
    }
  }

  // ----- The theorems -------------------------------------------------------------------

  ghost predicate TooDeep(sys: Sys, lib: Library, p: Page)
    requires Ranked(lib)
  {
    AllBelow(lib, p.items, p.level) && GoesTooDeep(sys, lib, p.level, p.scopes, p.items)
  }

  /** cond_if asserts `cond_stack_use < COND_STACK_DEPTH` before it advances the index.
      Rendering a page writes behind an array exactly if the page, or a template it
      comes to render, opens more than COND_STACK_DEPTH conditions and does not abort
      before it comes to the first one that is too many.  Otherwise the rendering is
      that of RenderPage, and the assertion never fails. */
  lemma AssertionAdmitsOneLevelTooMany(sys: Sys, lib: Library, level: nat, scopes: seq<Scope>, items: seq<Item>)
    requires Ranked(lib) && AllBelow(lib, items, level)
    ensures var r := CheckedPage(sys, lib, level, scopes, items);
            && (r == Overran <==> exists p :: p in Rendered(sys, lib, level, scopes, items) && TooDeep(sys, lib, p))
            && (r != Overran ==> r == Unchecked(RenderPage(sys, lib, level, scopes, items)))
  {
    var pages := Rendered(sys, lib, level, scopes, items);
    forall p | p in pages && AllBelow(lib, p.items, p.level)
      ensures Overruns(sys, lib, p) <==> TooDeep(sys, lib, p)
    {
      OwnArray(sys, lib, p.level, p.scopes, p.items);
    }
    hide Checked, Rendered, OverrunsItself, GoesTooDeep;
    PageOverrun(sys, lib, level, scopes, items);
    CheckedAgrees(sys, lib, level, scopes, items, [], "");
  }

  /** A page that is a template of the library; if `runs`, it does not abort. */
  ghost predicate Included(sys: Sys, lib: Library, p: Page, runs: bool)
    requires Ranked(lib)
  {
    exists tmpl :: tmpl in lib.pages && p.items == lib.pages[tmpl] && p.level == Rank(lib, tmpl)
                   && (runs ==> RenderTemplate(sys, lib, p.scopes, tmpl).Ok?)
  }

  ghost predicate AllIncluded(sys: Sys, lib: Library, pages: set<Page>, runs: bool)
    requires Ranked(lib)
  {
    forall p :: p in pages ==> Included(sys, lib, p, runs)
  }

  /** What is entered comes from the library, and aborts only if the page does. */
  lemma {:induction false} EnteredIncluded(sys: Sys, lib: Library, level: nat, scopes: seq<Scope>,
                                           items: seq<Item>, stack: seq<bool>, out: string)
    requires Ranked(lib) && AllBelow(lib, items, level)
    ensures AllIncluded(sys, lib, Entered(sys, lib, level, scopes, items, stack),
                        Run(sys, lib, level, scopes, items, stack, out).Ok?)
    decreases level + 1, 1, |items|
  {
    hide Emit, EnteredByItem, AllTrue, Test, Included;
    if items != [] {
      var item, rest := items[0], items[1..];
      if item.Func? {
        var next := NextStack(sys, scopes, item, stack);
        if next.Ok? {
          EnteredIncluded(sys, lib, level, scopes, rest, next.value, out);
        }
      } else if !AllTrue(stack) {
        EnteredIncluded(sys, lib, level, scopes, rest, stack, out);
      } else {
        var text := Emit(sys, lib, level, scopes, item);
        var runs := Run(sys, lib, level, scopes, items, stack, out).Ok?;
        ItemIncluded(sys, lib, level, scopes, item);
        RunsLess(sys, lib, EnteredByItem(sys, lib, level, scopes, item), text.Ok?, runs);
        if text.Ok? {
          EnteredIncluded(sys, lib, level, scopes, rest, stack, out + text.value);
        }
      }
    }
  }

  lemma RunsLess(sys: Sys, lib: Library, pages: set<Page>, runs: bool, less: bool)
    requires Ranked(lib) && AllIncluded(sys, lib, pages, runs) && (less ==> runs)
    ensures AllIncluded(sys, lib, pages, less)
  {}

  lemma {:induction false} ItemIncluded(sys: Sys, lib: Library, level: nat, scopes: seq<Scope>, item: Item)
    requires Ranked(lib) && Below(lib, item, level) && !item.Func?
    ensures AllIncluded(sys, lib, EnteredByItem(sys, lib, level, scopes, item),
                        Emit(sys, lib, level, scopes, item).Ok?)
    decreases level + 1, 0, 0
  {
    hide Included;
    match item
    case Var(name) => TemplateIncluded(sys, lib, scopes, name);
    case Foreach(name, tmpl) =>
      var val := Lookup(scopes, name);
      if val.Some? && val.value.Arr? {
        LoopIncluded(sys, lib, scopes, name, val.value.items, tmpl);
      }
    case _ =>
  }

  lemma {:induction false} TemplateIncluded(sys: Sys, lib: Library, scopes: seq<Scope>, tmpl: string)
    requires Ranked(lib)
    ensures AllIncluded(sys, lib, EnteredByTemplate(sys, lib, scopes, tmpl),
                        RenderTemplate(sys, lib, scopes, tmpl).Ok?)
    decreases Height(lib, tmpl), 2, 0
  {
    if tmpl in lib.pages {
      EnteredIncluded(sys, lib, Rank(lib, tmpl), scopes, lib.pages[tmpl], [], "");
      assert Included(sys, lib, Page(Rank(lib, tmpl), scopes, lib.pages[tmpl]),
                      RenderTemplate(sys, lib, scopes, tmpl).Ok?);
    }
  }

  lemma {:induction false} LoopIncluded(sys: Sys, lib: Library, scopes: seq<Scope>,
                                        name: string, vals: seq<Val>, tmpl: string)
    requires Ranked(lib)
    ensures AllIncluded(sys, lib, EnteredByLoop(sys, lib, scopes, name, vals, tmpl),
                        RenderLoop(sys, lib, scopes, name, vals, tmpl).Ok?)
    decreases Height(lib, tmpl), 3, |vals|
  {
    hide Included, RenderTemplate, EnteredByTemplate;
    if vals != [] && |scopes| < VAR_MAX_SCOPES {
      var scope := ItemScope(name, vals[0]);
      if scope.Ok? {
        var inner := scopes + [scope.value];
        var body := RenderTemplate(sys, lib, inner, tmpl);
        var runs := RenderLoop(sys, lib, scopes, name, vals, tmpl).Ok?;
        TemplateIncluded(sys, lib, inner, tmpl);
        RunsLess(sys, lib, EnteredByTemplate(sys, lib, inner, tmpl), body.Ok?, runs);
        LoopIncluded(sys, lib, scopes, name, vals[1..], tmpl);
      }
    }
  }

  /** For a page that does not abort at all the depths alone decide. */
  lemma DeepPageOverruns(sys: Sys, lib: Library, level: nat, scopes: seq<Scope>, items: seq<Item>)
    requires Ranked(lib) && AllBelow(lib, items, level)
    requires RenderPage(sys, lib, level, scopes, items).Ok?
    ensures CheckedPage(sys, lib, level, scopes, items) == Overran
       <==> exists p :: p in Rendered(sys, lib, level, scopes, items) && MaxDepth(p.items, 0) > COND_STACK_DEPTH
  {
    var pages := Rendered(sys, lib, level, scopes, items);
    EnteredIncluded(sys, lib, level, scopes, items, [], "");
    forall p | p in pages
      ensures TooDeep(sys, lib, p) <==> MaxDepth(p.items, 0) > COND_STACK_DEPTH
    {
      RunsUpToFull(sys, lib, p);
    }
    hide CheckedPage, Rendered, TooDeep;
    AssertionAdmitsOneLevelTooMany(sys, lib, level, scopes, items);
  }

  lemma RunsUpToFull(sys: Sys, lib: Library, p: Page)
    requires Ranked(lib) && AllBelow(lib, p.items, p.level)
    requires RenderPage(sys, lib, p.level, p.scopes, p.items).Ok?
    ensures TooDeep(sys, lib, p) <==> MaxDepth(p.items, 0) > COND_STACK_DEPTH
  {
    PrefixBelow(lib, UpToFull(p.items, 0), p.items, p.level);
    PrefixRuns(sys, lib, p.level, p.scopes, UpToFull(p.items, 0), p.items, [], "");
  }

  /** If neither the page nor any template has more conditions open than there are
      slots, nothing is written behind an array, whatever the rendering aborts with. */
  lemma FittingPageStays(sys: Sys, lib: Library, level: nat, scopes: seq<Scope>, items: seq<Item>)
    requires Ranked(lib) && AllBelow(lib, items, level)
    requires Fits(items, 0, COND_STACK_DEPTH) && StacksFit(lib)
    ensures CheckedPage(sys, lib, level, scopes, items) == Unchecked(RenderPage(sys, lib, level, scopes, items))
  {
    EnteredIncluded(sys, lib, level, scopes, items, [], "");
    forall p | p in Rendered(sys, lib, level, scopes, items)
      ensures !TooDeep(sys, lib, p)
    {
      assert Fits(p.items, 0, COND_STACK_DEPTH);
      FitsIffMaxDepth(p.items, 0, COND_STACK_DEPTH);
    }
    hide CheckedPage, Rendered, TooDeep;
    AssertionAdmitsOneLevelTooMany(sys, lib, level, scopes, items);
  }

  // ----- Examples -----------------------------------------------------------------------

  /** `n` nested tests. */
  function Tower(n: nat): (items: seq<Item>)
    ensures forall depth: nat :: MaxDepth(items, depth) == depth + n
    ensures forall i :: 0 <= i < |items| ==> items[i] == Func("ifset", Some("x"), None)
  {
    if n == 0 then [] else [Func("ifset", Some("x"), None)] + Tower(n - 1)
  }

  lemma {:induction false} TowerChecked(sys: Sys, lib: Library, level: nat, scopes: seq<Scope>, n: nat,
                                        stack: seq<bool>)
    requires Ranked(lib) && |stack| <= COND_STACK_DEPTH
    ensures AllBelow(lib, Tower(n), level)
    ensures Checked(sys, lib, level, scopes, Tower(n), stack, "") == Overran <==> |stack| + n > COND_STACK_DEPTH
  {
    if n > 0 {
      var next := NextStack(sys, scopes, Tower(n)[0], stack).value;
      assert Tower(n)[1..] == Tower(n - 1);
      if HasRoom(stack) {
        TowerChecked(sys, lib, level, scopes, n - 1, next);
      }
    }
  }

  /** Nested conditions without anything else leave the array from eleven on. */
  lemma ElevenConditions(sys: Sys, lib: Library, level: nat, scopes: seq<Scope>, n: nat)
    requires Ranked(lib)
    ensures AllBelow(lib, Tower(n), level)
    ensures CheckedPage(sys, lib, level, scopes, Tower(n)) == Overran <==> n >= 11
  {
    TowerChecked(sys, lib, level, scopes, n, []);
  }

  /** So does a page that includes such a template, whatever comes after it. */
  lemma IncludedConditions(sys: Sys, lib: Library, level: nat, scopes: seq<Scope>, tmpl: string, n: nat,
                           rest: seq<Item>)
    requires Ranked(lib) && AllBelow(lib, [Var(tmpl)] + rest, level)
    requires tmpl in lib.pages && lib.pages[tmpl] == Tower(n) && Lookup(scopes, tmpl).None?
    requires n >= 11
    ensures CheckedPage(sys, lib, level, scopes, [Var(tmpl)] + rest) == Overran
  {
    var items := [Var(tmpl)] + rest;
    assert Below(lib, items[0], level);
    ElevenConditions(sys, lib, Rank(lib, tmpl), scopes, n);
    assert CheckedItem(sys, lib, level, scopes, items[0]) == Overran;
  }
}
