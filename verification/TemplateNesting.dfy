/**
 Which flat pages are well nested, and how deep: the pages to which the
 refinement theorem of TemplateTree applies, and the pages the fixed-size
 condition stack can hold.
 */
module TemplateNesting {
  import opened Basics
  import opened Vars
  import opened Parse
  import opened Template
  import opened TemplateTree

  /** A scan that only counts open `if`s. */
  predicate WellNested(items: seq<Item>, depth: nat)
  {
    if items == [] then depth == 0
    else if IsTest(items[0]) then WellNested(items[1..], depth + 1)
    else if IsElse(items[0]) then depth > 0 && WellNested(items[1..], depth)
    else if IsEndif(items[0]) then depth > 0 && WellNested(items[1..], depth - 1)
    else WellNested(items[1..], depth)
  }

  /** The well-nested pages are exactly the flattened trees. */
  lemma WellNestedIffTree(items: seq<Item>)
    ensures WellNested(items, 0) <==> exists f :: Proper(f) && Flatten(f) == items
  {
    if WellNested(items, 0) {
      var f, rest := ParseForest(items, 0);
      assert Flatten(f) + [] == Flatten(f);
    }
    if f :| Proper(f) && Flatten(f) == items {
      ScanForest(f, [], 0);
      assert Flatten(f) + [] == Flatten(f);
    }
  }

  lemma {:induction false} ParseForest(items: seq<Item>, depth: nat) returns (f: Forest, rest: seq<Item>)
    requires WellNested(items, depth)
    ensures Proper(f) && items == Flatten(f) + rest && WellNested(rest, depth)
    ensures if depth == 0 then rest == [] else rest != [] && (IsElse(rest[0]) || IsEndif(rest[0]))
    decreases |items|, 0
  {
    if items == [] || IsElse(items[0]) || IsEndif(items[0]) {
      return Nil, items;
    }
    assert items == [items[0]] + items[1..];
    var tail;
    if IsTest(items[0]) {
      var arms, after := ParseArms(items[1..], depth + 1);
      tail, rest := ParseForest(after, depth);
      f := If(items[0], arms, tail);
      assert Flatten(f) + rest == [items[0]] + (FlattenArms(arms) + (Flatten(tail) + rest));
    } else {
      tail, rest := ParseForest(items[1..], depth);
      f := Leaf(items[0], tail);
      assert Flatten(f) + rest == [items[0]] + (Flatten(tail) + rest);
    }
  }

  lemma {:induction false} ParseArms(items: seq<Item>, depth: nat) returns (arms: Arms, rest: seq<Item>)
    requires depth > 0 && WellNested(items, depth)
    ensures ProperArms(arms) && items == FlattenArms(arms) + rest && WellNested(rest, depth - 1)
    ensures |rest| < |items|
    decreases |items|, 1
  {
    var body, after := ParseForest(items, depth);
    assert after == [after[0]] + after[1..];
    if IsEndif(after[0]) {
      arms, rest := Closing(body, after[0]), after[1..];
      assert FlattenArms(arms) + rest == Flatten(body) + ([after[0]] + rest);
    } else {
      var more;
      more, rest := ParseArms(after[1..], depth);
      arms := Alternative(body, after[0], more);
      assert FlattenArms(arms) + rest == Flatten(body) + ([after[0]] + (FlattenArms(more) + rest));
    }
  }

  lemma {:induction false} ScanForest(f: Forest, items: seq<Item>, depth: nat)
    requires Proper(f)
    ensures WellNested(Flatten(f) + items, depth) <==> WellNested(items, depth)
  {
    var all := Flatten(f) + items;
    match f
    case Nil =>
      assert all == items;
    case Leaf(item, rest) =>
      assert all[1..] == Flatten(rest) + items;
      ScanForest(rest, items, depth);
    case If(test, arms, rest) =>
      assert all[1..] == FlattenArms(arms) + (Flatten(rest) + items);
      ScanArms(arms, Flatten(rest) + items, depth + 1);
      ScanForest(rest, items, depth);
  }

  lemma {:induction false} ScanArms(arms: Arms, items: seq<Item>, depth: nat)
    requires ProperArms(arms) && depth > 0
    ensures WellNested(FlattenArms(arms) + items, depth) <==> WellNested(items, depth - 1)
  {
    var all := FlattenArms(arms) + items;
    match arms
    case Closing(body, endif) =>
      var after := [endif] + items;
      assert all == Flatten(body) + after && after[1..] == items;
      ScanForest(body, after, depth);
    case Alternative(body, els, more) =>
      var after := [els] + (FlattenArms(more) + items);
      assert all == Flatten(body) + after && after[1..] == FlattenArms(more) + items;
      ScanForest(body, after, depth);
      ScanArms(more, items, depth);
  }

  // ----- Depth --------------------------------------------------------------------

  /** No `if` is opened while `limit` or more are open. */
  predicate Fits(items: seq<Item>, depth: nat, limit: nat)
  {
    items == []
    || (if IsTest(items[0]) then depth < limit && Fits(items[1..], depth + 1, limit)
        else if IsEndif(items[0]) then depth > 0 ==> Fits(items[1..], depth - 1, limit)
        else Fits(items[1..], depth, limit))
  }

  /** The largest number of `if`s open at once, up to an unmatched endif. */
  function MaxDepth(items: seq<Item>, depth: nat): (m: nat)
    ensures m >= depth
  {
    if items == [] then depth
    else if IsTest(items[0]) then MaxDepth(items[1..], depth + 1)
    else if !IsEndif(items[0]) then MaxDepth(items[1..], depth)
    else if depth == 0 then 0
    else
      var m := MaxDepth(items[1..], depth - 1);
      if m < depth then depth else m
  }

  lemma {:induction false} FitsIffMaxDepth(items: seq<Item>, depth: nat, limit: nat)
    requires depth <= limit
    ensures Fits(items, depth, limit) <==> MaxDepth(items, depth) <= limit
  {
    if items != [] {
      if IsTest(items[0]) {
        if depth < limit {
          FitsIffMaxDepth(items[1..], depth + 1, limit);
        }
      } else if !IsEndif(items[0]) {
        FitsIffMaxDepth(items[1..], depth, limit);
      } else if depth > 0 {
        FitsIffMaxDepth(items[1..], depth - 1, limit);
      }
    }
  }

  /** No template opens more conditions than the stack holds. */
  ghost predicate StacksFit(lib: Library)
  {
    forall tmpl :: tmpl in lib.pages ==> Fits(lib.pages[tmpl], 0, COND_STACK_DEPTH)
  }
}
