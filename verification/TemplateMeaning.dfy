/**
 What templates print, said without the functions of the evaluator: variables and loop
 items by their innermost binding, conditions by the numbers they compare, and
 pipelines by what their output decodes to.
 */
module TemplateMeaning {
  import opened Basics
  import opened Vars
  import opened Parse
  import opened Template
  import Escape

  // ----- Pages of one command -----------------------------------------------------------

  lemma OneItem(sys: Sys, lib: Library, level: nat, scopes: seq<Scope>, item: Item)
    requires Ranked(lib) && AllBelow(lib, [item], level) && !item.Func?
    ensures Below(lib, item, level)
    ensures RenderPage(sys, lib, level, scopes, [item]) == Emit(sys, lib, level, scopes, item)
  {
    assert Below(lib, [item][0], level);
    assert [item][1..] == [];
    hide Emit;
    assert AllTrue([]);
    var text := Emit(sys, lib, level, scopes, item);
    if text.Ok? {
      NothingRuns(sys, lib, level, scopes, "" + text.value);
      assert "" + text.value == text.value;
    }
  }

  /** `{x}`: a string is printed as it is, and a number in digits. */
  lemma VariablePrints(sys: Sys, lib: Library, level: nat, scopes: seq<Scope>, x: string, i: nat)
    requires Ranked(lib) && AllBelow(lib, [Var(x)], level) && Innermost(scopes, x, i)
    ensures var r := RenderPage(sys, lib, level, scopes, [Var(x)]);
            match scopes[i][x]
            case Str(s) => r == Ok(s)
            case Int(n) => r.Ok? && Value(r.value) == n && forall k :: 0 <= k < |r.value| ==> IsDigit(r.value[k])
            case _ => r == Panic(NotPrintable)
  {
    LookupInnermost(scopes, x);
    OneItem(sys, lib, level, scopes, Var(x));
    var val := scopes[i][x];
    if val.Int? {
      DecimalValue(val.i);
    }
  }

  lemma TextPrints(sys: Sys, lib: Library, level: nat, scopes: seq<Scope>, s: string)
    requires Ranked(lib)
    ensures AllBelow(lib, [Text(s)], level) && RenderPage(sys, lib, level, scopes, [Text(s)]) == Ok(s)
  {
    OneItem(sys, lib, level, scopes, Text(s));
  }

  // ----- Loops --------------------------------------------------------------------------

  /** In a loop over `name` the item binds x to this string: either it is the string and
      x is `name`, or it is a list of bindings with this one. */
  predicate Binds(name: string, item: Val, x: string, s: string)
  {
    || (item.Str? && x == name && item.s == s)
    || (item.Nvl? && x in item.pairs && item.pairs[x] == Str(s))
  }

  /** The item can be looped over and leaves x alone. */
  predicate LeavesAlone(name: string, item: Val, x: string)
  {
    (item.Str? && x != name) || (item.Nvl? && x !in item.pairs)
  }

  function Joined(parts: seq<string>): string
  {
    if parts == [] then "" else parts[0] + Joined(parts[1..])
  }

  /** One item of a loop over a template that prints x. */
  lemma ItemPrints(sys: Sys, lib: Library, scopes: seq<Scope>, scope: Scope, tmpl: string, x: string, s: string)
    requires Ranked(lib) && tmpl in lib.pages && lib.pages[tmpl] == [Var(x)]
    requires Lookup(scopes + [scope], x) == Some(Str(s))
    ensures RenderTemplate(sys, lib, scopes + [scope], tmpl) == Ok(s)
  {
    OneItem(sys, lib, Rank(lib, tmpl), scopes + [scope], Var(x));
  }

  /** A loop prints what its items bind, in order, whatever is bound outside. */
  lemma {:induction false} LoopPrintsItems(sys: Sys, lib: Library, scopes: seq<Scope>, name: string, vals: seq<Val>,
                                           tmpl: string, x: string, parts: seq<string>)
    requires Ranked(lib) && tmpl in lib.pages && lib.pages[tmpl] == [Var(x)] && |scopes| < VAR_MAX_SCOPES
    requires |parts| == |vals| && forall i :: 0 <= i < |vals| ==> Binds(name, vals[i], x, parts[i])
    ensures RenderLoop(sys, lib, scopes, name, vals, tmpl) == Ok(Joined(parts))
  {
    if vals != [] {
      assert Binds(name, vals[0], x, parts[0]);
      var scope := ItemScope(name, vals[0]).value;
      InnerHides(scopes, scope, x);
      ItemPrints(sys, lib, scopes, scope, tmpl, x, parts[0]);
      LoopPrintsItems(sys, lib, scopes, name, vals[1..], tmpl, x, parts[1..]);
    }
  }

  /** What the items do not bind is found outside. */
  lemma {:induction false} LoopSeesOutside(sys: Sys, lib: Library, scopes: seq<Scope>, name: string, vals: seq<Val>,
                                           tmpl: string, x: string, i: nat, s: string)
    requires Ranked(lib) && tmpl in lib.pages && lib.pages[tmpl] == [Var(x)] && |scopes| < VAR_MAX_SCOPES
    requires Innermost(scopes, x, i) && scopes[i][x] == Str(s)
    requires forall k :: 0 <= k < |vals| ==> LeavesAlone(name, vals[k], x)
    ensures RenderLoop(sys, lib, scopes, name, vals, tmpl) == Ok(Joined(seq(|vals|, _ => s)))
  {
    LookupInnermost(scopes, x);
    if vals != [] {
      assert LeavesAlone(name, vals[0], x);
      var scope := ItemScope(name, vals[0]).value;
      InnerHides(scopes, scope, x);
      ItemPrints(sys, lib, scopes, scope, tmpl, x, s);
      LoopSeesOutside(sys, lib, scopes, name, vals[1..], tmpl, x, i, s);
      assert seq(|vals|, _ => s)[1..] == seq(|vals| - 1, _ => s);
    }
  }

  // ----- Conditions ---------------------------------------------------------------------

  /** The argument of a condition is this number: a numeral, a variable that is bound to
      it, or a variable that is not bound and counts as zero. */
  predicate Means(sys: Sys, scopes: seq<Scope>, arg: string, n: nat)
  {
    if sys.str2u64(arg).Some? then sys.str2u64(arg).value == n
    else
      || (exists i :: 0 <= i < |scopes| && Innermost(scopes, arg, i) && scopes[i][arg] == Int(n))
      || (n == 0 && forall i :: 0 <= i < |scopes| ==> arg !in scopes[i])
  }

  /** `{fxn(x,y)} a {else()} b {endif()}` */
  function Choice(fxn: string, x: Option<string>, y: Option<string>, a: string, b: string): seq<Item>
  {
    [Func(fxn, x, y), Text(a), Func("else", None, None), Text(b), Func("endif", None, None)]
  }

  lemma RunFunction(sys: Sys, lib: Library, level: nat, scopes: seq<Scope>, f: Item, rest: seq<Item>,
                    stack: seq<bool>, out: string)
    requires Ranked(lib) && AllBelow(lib, rest, level) && f.Func? && NextStack(sys, scopes, f, stack).Ok?
    ensures AllBelow(lib, [f] + rest, level)
    ensures Run(sys, lib, level, scopes, [f] + rest, stack, out)
         == Run(sys, lib, level, scopes, rest, NextStack(sys, scopes, f, stack).value, out)
  {
    hide NextStack;
    assert ([f] + rest)[1..] == rest;
    assert forall i :: 0 < i < |rest| + 1 ==> ([f] + rest)[i] == rest[i - 1];
  }

  lemma RunText(sys: Sys, lib: Library, level: nat, scopes: seq<Scope>, s: string, rest: seq<Item>,
                stack: seq<bool>, out: string)
    requires Ranked(lib) && AllBelow(lib, rest, level)
    ensures AllBelow(lib, [Text(s)] + rest, level)
    ensures Run(sys, lib, level, scopes, [Text(s)] + rest, stack, out)
         == Run(sys, lib, level, scopes, rest, stack, if AllTrue(stack) then out + s else out)
  {
    assert ([Text(s)] + rest)[1..] == rest;
    assert forall i :: 0 < i < |rest| + 1 ==> ([Text(s)] + rest)[i] == rest[i - 1];
  }

  lemma ChoiceRuns(sys: Sys, lib: Library, level: nat, scopes: seq<Scope>, fxn: string,
                   x: Option<string>, y: Option<string>, a: string, b: string, holds: bool)
    requires Ranked(lib) && IsTest(Func(fxn, x, y)) && Test(sys, scopes, Func(fxn, x, y)) == Ok(holds)
    ensures AllBelow(lib, Choice(fxn, x, y, a, b), level)
    ensures RenderPage(sys, lib, level, scopes, Choice(fxn, x, y, a, b)) == Ok(if holds then a else b)
  {
    hide Test, Run, AllBelow;
    var test, els, endif := Func(fxn, x, y), Func("else", None, None), Func("endif", None, None);
    var first := if holds then "" + a else "";
    var both := if holds then first else first + b;
    NothingRuns(sys, lib, level, scopes, both);
    assert [] + [holds] == [holds] && DropLast([holds]) == [] && DropLast([!holds]) == [];
    assert [] + [!holds] == [!holds];
    OneCondition(holds);
    OneCondition(!holds);
    RunFunction(sys, lib, level, scopes, endif, [], [!holds], both);
    RunText(sys, lib, level, scopes, b, [endif] + [], [!holds], first);
    RunFunction(sys, lib, level, scopes, els, [Text(b)] + ([endif] + []), [holds], first);
    var rest := [els] + ([Text(b)] + ([endif] + []));
    RunText(sys, lib, level, scopes, a, rest, [holds], "");
    RunFunction(sys, lib, level, scopes, test, [Text(a)] + rest, [], "");
    assert Choice(fxn, x, y, a, b) == [test] + ([Text(a)] + rest);
    assert both == if holds then a else b;
  }

  lemma OneCondition(b: bool)
    ensures AllTrue([b]) <==> b
  {
    assert [b][0] == b;
  }

  lemma NothingRuns(sys: Sys, lib: Library, level: nat, scopes: seq<Scope>, out: string)
    requires Ranked(lib)
    ensures AllBelow(lib, [], level) && Run(sys, lib, level, scopes, [], [], out) == Ok(out)
  {}

  lemma MeansValue(sys: Sys, scopes: seq<Scope>, arg: string, n: nat)
    requires Means(sys, scopes, arg, n)
    ensures ArgValue(sys, scopes, Some(arg)) == Ok(n)
  {
    LookupInnermost(scopes, arg);
  }

  /** Conditions compare numbers. */
  lemma ConditionsCompare(sys: Sys, lib: Library, level: nat, scopes: seq<Scope>, x: string, y: string,
                          m: nat, n: nat, a: string, b: string)
    requires Ranked(lib) && Means(sys, scopes, x, m) && Means(sys, scopes, y, n)
    ensures var gt, lt, eq := Choice("ifgt", Some(x), Some(y), a, b), Choice("iflt", Some(x), Some(y), a, b),
                              Choice("ifeq", Some(x), Some(y), a, b);
            && AllBelow(lib, gt, level) && AllBelow(lib, lt, level) && AllBelow(lib, eq, level)
            && RenderPage(sys, lib, level, scopes, gt) == Ok(if m > n then a else b)
            && RenderPage(sys, lib, level, scopes, lt) == Ok(if m < n then a else b)
            && RenderPage(sys, lib, level, scopes, eq) == Ok(if m == n then a else b)
  {
    hide RenderPage, AllBelow, Means, ArgValue;
    MeansValue(sys, scopes, x, m);
    MeansValue(sys, scopes, y, n);
    ChoiceRuns(sys, lib, level, scopes, "ifgt", Some(x), Some(y), a, b, m > n);
    ChoiceRuns(sys, lib, level, scopes, "iflt", Some(x), Some(y), a, b, m < n);
    ChoiceRuns(sys, lib, level, scopes, "ifeq", Some(x), Some(y), a, b, m == n);
  }

  /** ifset looks for a binding. */
  lemma IfsetFinds(sys: Sys, lib: Library, level: nat, scopes: seq<Scope>, x: string, y: Option<string>,
                   a: string, b: string)
    requires Ranked(lib)
    ensures AllBelow(lib, Choice("ifset", Some(x), y, a, b), level)
    ensures RenderPage(sys, lib, level, scopes, Choice("ifset", Some(x), y, a, b))
         == Ok(if exists i :: 0 <= i < |scopes| && x in scopes[i] then a else b)
  {
    hide RenderPage, AllBelow;
    LookupInnermost(scopes, x);
    ChoiceRuns(sys, lib, level, scopes, "ifset", Some(x), y, a, b, Lookup(scopes, x).Some?);
  }

  // ----- Pipelines ----------------------------------------------------------------------

  /** What a pipeline over a bound variable prints. */
  lemma PipePrints(sys: Sys, lib: Library, level: nat, scopes: seq<Scope>, x: string, i: nat, stages: seq<string>)
    requires Ranked(lib) && Innermost(scopes, x, i) && (scopes[i][x].Str? || scopes[i][x].Int?)
    ensures AllBelow(lib, [Pipe(x, stages)], level)
    ensures RenderPage(sys, lib, level, scopes, [Pipe(x, stages)])
         == match ApplyStages(sys, stages, scopes[i][x])
            case Ok(v) => Print(v)
            case Panic(f) => Panic(f)
  {
    LookupInnermost(scopes, x);
    OneItem(sys, lib, level, scopes, Pipe(x, stages));
  }

  lemma StageAlone(sys: Sys, stage: string, val: Val)
    ensures ApplyStages(sys, [stage], val) == ApplyStage(sys, StageOf(stage), val)
  {
    hide ApplyStage;
    assert [stage][1..] == [];
  }

  /** Stages apply from left to right. */
  lemma {:induction false} StagesInOrder(sys: Sys, stages: seq<string>, last: string, val: Val)
    ensures ApplyStages(sys, stages + [last], val)
         == match ApplyStages(sys, stages, val)
            case Ok(v) => ApplyStages(sys, [last], v)
            case Panic(f) => Panic(f)
  {
    hide ApplyStage;
    if stages == [] {
      assert stages + [last] == [last];
    } else {
      assert (stages + [last])[1..] == stages[1..] + [last];
      var first := ApplyStage(sys, StageOf(stages[0]), val);
      if first.Ok? {
        StagesInOrder(sys, stages[1..], last, first.value);
      }
    }
  }

  /** `{x|escape}` decodes as HTML, and `{x|urlescape}` as a form, to the string. */
  lemma EscapesDecode(sys: Sys, lib: Library, level: nat, scopes: seq<Scope>, x: string, i: nat)
    requires Ranked(lib) && Innermost(scopes, x, i) && scopes[i][x].Str?
    ensures AllBelow(lib, [Pipe(x, ["escape"])], level) && AllBelow(lib, [Pipe(x, ["urlescape"])], level)
    ensures var r := RenderPage(sys, lib, level, scopes, [Pipe(x, ["escape"])]);
            r.Ok? && Escape.TagFree(r.value) && Escape.HtmlUnescape(r.value) == scopes[i][x].s
    ensures var r := RenderPage(sys, lib, level, scopes, [Pipe(x, ["urlescape"])]);
            r.Ok? && (Escape.IsCString(scopes[i][x].s) ==> Escape.FormDecode(r.value) == scopes[i][x].s)
  {
    var val := scopes[i][x];
    PipePrints(sys, lib, level, scopes, x, i, ["escape"]);
    PipePrints(sys, lib, level, scopes, x, i, ["urlescape"]);
    StageAlone(sys, "escape", val);
    StageAlone(sys, "urlescape", val);
    hide RenderPage, ApplyStages;
    Escape.HtmlRoundTrip(val.s);
    Escape.HtmlEscapeIsTagFree(val.s);
    if Escape.IsCString(val.s) {
      Escape.UrlRoundTrip(val.s);
    }
  }

  /** `{x|urlescape|escape}` decodes in the opposite order. */
  lemma EscapesCompose(sys: Sys, lib: Library, level: nat, scopes: seq<Scope>, x: string, i: nat)
    requires Ranked(lib) && Innermost(scopes, x, i) && scopes[i][x].Str? && Escape.IsCString(scopes[i][x].s)
    ensures AllBelow(lib, [Pipe(x, ["urlescape", "escape"])], level)
    ensures var r := RenderPage(sys, lib, level, scopes, [Pipe(x, ["urlescape", "escape"])]);
            r.Ok? && Escape.FormDecode(Escape.HtmlUnescape(r.value)) == scopes[i][x].s
  {
    var val := scopes[i][x];
    PipePrints(sys, lib, level, scopes, x, i, ["urlescape", "escape"]);
    assert ["urlescape", "escape"] == ["urlescape"] + ["escape"];
    StagesInOrder(sys, ["urlescape"], "escape", val);
    StageAlone(sys, "urlescape", val);
    StageAlone(sys, "escape", Str(Escape.UrlEscape(val.s)));
    hide RenderPage, ApplyStages;
    Escape.UrlRoundTrip(val.s);
    Escape.HtmlRoundTrip(Escape.UrlEscape(val.s));
  }

  /** The stages that format a time, and any other name, which does nothing. */
  lemma TimesPrint(sys: Sys, lib: Library, level: nat, scopes: seq<Scope>, x: string, i: nat, stage: string)
    requires Ranked(lib) && Innermost(scopes, x, i) && scopes[i][x].Int?
    ensures AllBelow(lib, [Pipe(x, [stage])], level)
    ensures var t := scopes[i][x].i;
            var r := RenderPage(sys, lib, level, scopes, [Pipe(x, [stage])]);
            if stage == "time" then r == Ok(sys.strftime("%H:%M", t))
            else if stage == "date" then r == Ok(sys.strftime("%B %e, %Y", t))
            else if stage == "zulu" then r == Ok(sys.strftime("%Y-%m-%dT%H:%M:%SZ", t))
            else if stage == "rfc822" then r == Ok(sys.strftime("%a, %d %b %Y %H:%M:%S +0000", t))
            else if stage == "escape" || stage == "urlescape" then r == Panic(BadStageInput)
            else r.Ok? && Value(r.value) == t
  {
    PipePrints(sys, lib, level, scopes, x, i, [stage]);
    StageAlone(sys, stage, scopes[i][x]);
    DecimalValue(scopes[i][x].i);
    hide RenderPage, ApplyStages;
  }
}
