/** MapCssVisitor: the walk over the parse tree of a MapCSS stylesheet. Every RULE child of the
    root becomes a style; a style collects the selectors of its SIMPLE_SELECTOR children and the
    declarations of its "{" child, and the selectors and declarations themselves are built by
    the first sub-visitor that returns one.

    A tree node's Children list is null in the parse-tree library when the node has no children,
    so the walk raises where it reads the Children of a leaf; those cases are None here. */
module MapCssVisiting {
  import opened Wrappers

  /** A node of the parse tree: its text and its children (none for a leaf). */
  datatype Tree = Tree(text: string, children: seq<Tree>)

  /** A sub-visitor: the selector and the declaration it builds for a subtree, or None for a
      subtree it does not handle. S and D are the selector and declaration objects. */
  datatype SubVisitor<S, D> = SubVisitor(visitSelector: (Tree, string) -> Option<S>, visitDeclaration: Tree -> Option<D>)

  /** An entry of Style.Selectors: the canvas selector, or what VisitSelector returned (None
      is a null the source adds to the list). */
  datatype SelectorEntry<S> = CanvasSelector | Visited(selector: Option<S>)

  datatype Style<S, D> = Style(selectors: seq<SelectorEntry<S>>, declarations: seq<Option<D>>, matchAll: bool)

  // ----- First non-null dispatch -----

  /** The first present value of the list, or None when every entry is None. */
  function FirstNonNull<T>(results: seq<Option<T>>): (r: Option<T>)
    ensures r.Some? <==> exists i :: 0 <= i < |results| && results[i].Some?
    ensures r.Some? ==> exists i :: 0 <= i < |results| && results[i] == r
                                    && forall j :: 0 <= j < i ==> results[j].None?
    decreases |results|
  {
    if |results| == 0 then None
    else if results[0].Some? then results[0]
    else
      var rest := FirstNonNull(results[1..]);
      assert forall i :: 1 <= i < |results| ==> results[i] == results[1..][i - 1];
      rest
  }

  /** VisitSelector: the selector of the first sub-visitor that builds one. */
  function VisitSelector<S, D>(visitors: seq<SubVisitor<S, D>>, selectorTree: Tree, selectorType: string): Option<S> {
    FirstNonNull(seq(|visitors|, i requires 0 <= i < |visitors| => visitors[i].visitSelector(selectorTree, selectorType)))
  }

  /** VisitSelector returns the selector of the first sub-visitor that builds one, and null when
      none does. */
  lemma VisitSelectorFirst<S, D>(visitors: seq<SubVisitor<S, D>>, selectorTree: Tree, selectorType: string)
    ensures VisitSelector(visitors, selectorTree, selectorType).Some? <==>
              exists i :: 0 <= i < |visitors| && visitors[i].visitSelector(selectorTree, selectorType).Some?
    ensures VisitSelector(visitors, selectorTree, selectorType).Some? ==>
              exists i :: 0 <= i < |visitors|
                          && visitors[i].visitSelector(selectorTree, selectorType) == VisitSelector(visitors, selectorTree, selectorType)
                          && forall j :: 0 <= j < i ==> visitors[j].visitSelector(selectorTree, selectorType).None?
  {
    var results := seq(|visitors|, i requires 0 <= i < |visitors| => visitors[i].visitSelector(selectorTree, selectorType));
    assert forall i :: 0 <= i < |visitors| ==> results[i] == visitors[i].visitSelector(selectorTree, selectorType);
    assert VisitSelector(visitors, selectorTree, selectorType) == FirstNonNull(results);
  }

  /** VisitDeclaration: the declaration of the first sub-visitor that builds one. */
  function VisitDeclaration<S, D>(visitors: seq<SubVisitor<S, D>>, declarationTree: Tree): Option<D> {
    FirstNonNull(seq(|visitors|, i requires 0 <= i < |visitors| => visitors[i].visitDeclaration(declarationTree)))
  }

  /** VisitDeclaration returns the declaration of the first sub-visitor that builds one, and
      null when none does. */
  lemma VisitDeclarationFirst<S, D>(visitors: seq<SubVisitor<S, D>>, declarationTree: Tree)
    ensures VisitDeclaration(visitors, declarationTree).Some? <==>
              exists i :: 0 <= i < |visitors| && visitors[i].visitDeclaration(declarationTree).Some?
    ensures VisitDeclaration(visitors, declarationTree).Some? ==>
              exists i :: 0 <= i < |visitors|
                          && visitors[i].visitDeclaration(declarationTree) == VisitDeclaration(visitors, declarationTree)
                          && forall j :: 0 <= j < i ==> visitors[j].visitDeclaration(declarationTree).None?
  {
    var results := seq(|visitors|, i requires 0 <= i < |visitors| => visitors[i].visitDeclaration(declarationTree));
    assert forall i :: 0 <= i < |visitors| ==> results[i] == visitors[i].visitDeclaration(declarationTree);
    assert VisitDeclaration(visitors, declarationTree) == FirstNonNull(results);
  }

  // ----- One style -----

  /** The selectors of a SIMPLE_SELECTOR subtree: the canvas selector alone when its first child
      is "canvas", otherwise one entry per child from index 1 on, built with the first child's
      text as selector type. */
  function SelectorsOf<S, D>(visitors: seq<SubVisitor<S, D>>, tree: Tree): (r: seq<SelectorEntry<S>>)
    requires |tree.children| > 0
    ensures tree.children[0].text == "canvas" ==> r == [CanvasSelector]
    ensures tree.children[0].text != "canvas" ==>
              |r| == |tree.children| - 1
              && forall k :: 1 <= k < |tree.children| ==>
                   r[k - 1] == Visited(VisitSelector(visitors, tree.children[k], tree.children[0].text))
  {
    var selectorType := tree.children[0].text;
    if selectorType == "canvas" then [CanvasSelector]
    else seq(|tree.children| - 1, k requires 0 <= k < |tree.children| - 1 =>
               Visited(VisitSelector(visitors, tree.children[k + 1], selectorType)))
  }

  /** The number of leading DECLARATION children. */
  function DeclarationCount(children: seq<Tree>): (n: nat)
    ensures n <= |children|
    ensures forall k :: 0 <= k < n ==> children[k].text == "DECLARATION"
    ensures n < |children| ==> children[n].text != "DECLARATION"
    decreases |children|
  {
    if |children| == 0 || children[0].text != "DECLARATION" then 0
    else
      var rest := DeclarationCount(children[1..]);
      assert forall k :: 1 <= k < |children| ==> children[k] == children[1..][k - 1];
      1 + rest
  }

  /** The declarations of a non-selector child: for a "{" subtree one per leading DECLARATION
      child, in order; none for any other subtree. */
  function DeclarationsOf<S, D>(visitors: seq<SubVisitor<S, D>>, tree: Tree): (r: seq<Option<D>>)
    ensures tree.text != "{" ==> r == []
    ensures tree.text == "{" ==>
              |r| == DeclarationCount(tree.children)
              && forall k :: 0 <= k < |r| ==> r[k] == VisitDeclaration(visitors, tree.children[k])
  {
    if tree.text != "{" then []
    else seq(DeclarationCount(tree.children), k requires 0 <= k < DeclarationCount(tree.children) =>
               VisitDeclaration(visitors, tree.children[k]))
  }

  /** A SIMPLE_SELECTOR leaf: reading its Children[0] raises. */
  predicate IsSelectorLeaf(t: Tree) {
    t.text == "SIMPLE_SELECTOR" && |t.children| == 0
  }

  /** None of the first n children is a SIMPLE_SELECTOR leaf. */
  predicate LeafFree(children: seq<Tree>, n: nat)
    requires n <= |children|
  {
    n == 0 || (LeafFree(children, n - 1) && !IsSelectorLeaf(children[n - 1]))
  }

  lemma {:induction false} LeafFreeIff(children: seq<Tree>, n: nat)
    requires n <= |children|
    ensures LeafFree(children, n) <==> forall k :: 0 <= k < n ==> !IsSelectorLeaf(children[k])
  {
    if n > 0 {
      LeafFreeIff(children, n - 1);
    }
  }

  /** The selectors contributed by the first n children of a rule: those of its SIMPLE_SELECTOR
      children, in order. */
  function SelectorsUpTo<S, D>(visitors: seq<SubVisitor<S, D>>, children: seq<Tree>, n: nat): seq<SelectorEntry<S>>
    requires n <= |children|
  {
    if n == 0 then []
    else
      var child := children[n - 1];
      SelectorsUpTo(visitors, children, n - 1)
      + (if child.text == "SIMPLE_SELECTOR" && |child.children| > 0 then SelectorsOf(visitors, child) else [])
  }

  /** The declarations contributed by the first n children: those of its "{" children. */
  function DeclarationsUpTo<S, D>(visitors: seq<SubVisitor<S, D>>, children: seq<Tree>, n: nat): seq<Option<D>>
    requires n <= |children|
  {
    if n == 0 then []
    else
      var child := children[n - 1];
      DeclarationsUpTo(visitors, children, n - 1)
      + (if child.text != "SIMPLE_SELECTOR" then DeclarationsOf(visitors, child) else [])
  }

  /** MatchAll after the first n children: every child that is not a SIMPLE_SELECTOR sets it to
      whether its own index is 1; initially false. */
  function MatchAllUpTo(children: seq<Tree>, n: nat): bool
    requires n <= |children|
  {
    if n == 0 then false
    else if children[n - 1].text != "SIMPLE_SELECTOR" then n - 1 == 1
    else MatchAllUpTo(children, n - 1)
  }

  /** VisitStyle; None where the walk raises (a leaf rule or a SIMPLE_SELECTOR leaf). */
  function StyleOf<S, D>(visitors: seq<SubVisitor<S, D>>, rule: Tree): Option<Style<S, D>> {
    var children := rule.children;
    if |children| == 0 || !LeafFree(children, |children|) then None
    else Some(Style(SelectorsUpTo(visitors, children, |children|), DeclarationsUpTo(visitors, children, |children|),
                    MatchAllUpTo(children, |children|)))
  }

  /** The last child among the first n that is not a SIMPLE_SELECTOR. */
  function LastOther(children: seq<Tree>, n: nat): (r: Option<nat>)
    requires n <= |children|
    ensures r.Some? ==> r.value < n && children[r.value].text != "SIMPLE_SELECTOR"
                        && forall k :: r.value < k < n ==> children[k].text == "SIMPLE_SELECTOR"
    ensures r.None? ==> forall k :: 0 <= k < n ==> children[k].text == "SIMPLE_SELECTOR"
  {
    if n == 0 then None
    else if children[n - 1].text != "SIMPLE_SELECTOR" then Some(n - 1)
    else LastOther(children, n - 1)
  }

  /** MatchAll is overwritten at every non-selector child, so it ends true exactly when the last
      such child is child 1. */
  lemma {:induction false} MatchAllFromLastOther(children: seq<Tree>, n: nat)
    requires n <= |children|
    ensures MatchAllUpTo(children, n) <==> LastOther(children, n) == Some(1)
  {
    if n > 0 && children[n - 1].text == "SIMPLE_SELECTOR" {
      MatchAllFromLastOther(children, n - 1);
    }
  }

  /** A style with a canvas selector child and a "{" child gets the canvas selector alone and
      the declarations of the "{" child; MatchAll holds exactly when the "{" child is child 1. */
  lemma CanvasRule<S, D>(visitors: seq<SubVisitor<S, D>>, selector: Tree, block: Tree)
    requires |selector.children| > 0 && selector.text == "SIMPLE_SELECTOR" && selector.children[0].text == "canvas"
    requires block.text == "{"
    ensures StyleOf(visitors, Tree("RULE", [selector, block]))
            == Some(Style([CanvasSelector], DeclarationsOf(visitors, block), true))
  {
    var children := [selector, block];
    assert LeafFree(children, 0);
    assert !IsSelectorLeaf(children[0]) && !IsSelectorLeaf(children[1]);
    assert LeafFree(children, 1);
    assert LeafFree(children, 2);
    assert SelectorsUpTo(visitors, children, 1) == [CanvasSelector];
    assert SelectorsUpTo(visitors, children, 2) == [CanvasSelector];
    assert DeclarationsUpTo(visitors, children, 1) == [];
    assert DeclarationsUpTo(visitors, children, 2) == DeclarationsOf(visitors, block);
    assert MatchAllUpTo(children, 2);
  }

  // ----- The whole stylesheet -----

  /** The RULE children, in order. */
  function Rules(children: seq<Tree>): seq<Tree>
    decreases |children|
  {
    if |children| == 0 then []
    else
      var last := children[|children| - 1];
      Rules(children[..|children| - 1]) + (if last.text == "RULE" then [last] else [])
  }

  /** Rules keeps every RULE child and nothing else. */
  lemma {:induction false} RulesAreRuleChildren(children: seq<Tree>)
    ensures |Rules(children)| <= |children|
    ensures forall k :: 0 <= k < |Rules(children)| ==> Rules(children)[k].text == "RULE"
    ensures forall k :: 0 <= k < |children| && children[k].text == "RULE" ==> children[k] in Rules(children)
    decreases |children|
  {
    if |children| > 0 {
      var init := children[..|children| - 1];
      RulesAreRuleChildren(init);
      assert forall k :: 0 <= k < |children| - 1 ==> children[k] == init[k];
    }
  }

  lemma {:induction false} RulesAppend(a: seq<Tree>, b: seq<Tree>)
    ensures Rules(a + b) == Rules(a) + Rules(b)
    decreases |b|
  {
    if |b| == 0 {
      assert a + b == a;
    } else {
      var init := b[..|b| - 1];
      assert (a + b)[..|a + b| - 1] == a + init;
      RulesAppend(a, init);
    }
  }

  /** f applied to every element in order; None as soon as one application is None (the
      exception that ends the loop). */
  function CollectAll<T, R>(f: T -> Option<R>, xs: seq<T>): (r: Option<seq<R>>)
    ensures r.Some? <==> forall k :: 0 <= k < |xs| ==> f(xs[k]).Some?
    ensures r.Some? ==> |r.value| == |xs| && forall k :: 0 <= k < |xs| ==> f(xs[k]) == Some(r.value[k])
    decreases |xs|
  {
    if |xs| == 0 then Some([])
    else
      var init := xs[..|xs| - 1];
      assert forall k :: 0 <= k < |xs| - 1 ==> xs[k] == init[k];
      match CollectAll(f, init)
      case None => None
      case Some(rs) =>
        match f(xs[|xs| - 1])
        case None => None
        case Some(x) => Some(rs + [x])
  }

  lemma CollectAllSnoc<T, R>(f: T -> Option<R>, xs: seq<T>, x: T)
    requires CollectAll(f, xs).Some? && f(x).Some?
    ensures CollectAll(f, xs + [x]) == Some(CollectAll(f, xs).value + [f(x).value])
  {
    assert (xs + [x])[..|xs|] == xs;
  }

  /** VisitStyle as a function value, for the walk over the rules. */
  function StyleFunction<S, D>(visitors: seq<SubVisitor<S, D>>): (f: Tree -> Option<Style<S, D>>)
    ensures forall rule :: f(rule) == StyleOf(visitors, rule)
  {
    rule => StyleOf(visitors, rule)
  }

  /** Visit: one style per RULE child of the root, in child order, every other child ignored;
      None where the walk raises (a leaf root, or a rule that raises). */
  function VisitTree<S, D>(visitors: seq<SubVisitor<S, D>>, tree: Tree): Option<seq<Style<S, D>>>
  {
    if |tree.children| == 0 then None else CollectAll(StyleFunction(visitors), Rules(tree.children))
  }

  /** Collecting the styles of a list of rules succeeds exactly when every rule's own walk does,
      and then yields those styles in order. */
  lemma StylesOfRules<S, D>(visitors: seq<SubVisitor<S, D>>, rules: seq<Tree>)
    ensures CollectAll(StyleFunction(visitors), rules).Some? <==>
              forall k :: 0 <= k < |rules| ==> StyleOf(visitors, rules[k]).Some?
    ensures CollectAll(StyleFunction(visitors), rules).Some? ==>
              var r := CollectAll(StyleFunction(visitors), rules).value;
              |r| == |rules| && forall k :: 0 <= k < |rules| ==> StyleOf(visitors, rules[k]) == Some(r[k])
  {
    var f := StyleFunction(visitors);
    assert forall k :: 0 <= k < |rules| ==> f(rules[k]) == StyleOf(visitors, rules[k]);
  }

  /** A successful walk holds exactly one style per rule, the rule's own, in order. */
  lemma VisitTreeStyles<S, D>(visitors: seq<SubVisitor<S, D>>, tree: Tree)
    ensures VisitTree(visitors, tree).Some? <==>
              |tree.children| > 0 && forall k :: 0 <= k < |Rules(tree.children)| ==> StyleOf(visitors, Rules(tree.children)[k]).Some?
    ensures VisitTree(visitors, tree).Some? ==>
              var r := VisitTree(visitors, tree).value;
              |r| == |Rules(tree.children)|
              && forall k :: 0 <= k < |r| ==> StyleOf(visitors, Rules(tree.children)[k]) == Some(r[k])
  {
    if |tree.children| > 0 {
      var rules := Rules(tree.children);
      StylesOfRules(visitors, rules);
      assert VisitTree(visitors, tree) == CollectAll(StyleFunction(visitors), rules);
      if forall k :: 0 <= k < |rules| ==> StyleOf(visitors, rules[k]).Some? {
        assert VisitTree(visitors, tree).Some?;
      } else {
        var k :| 0 <= k < |rules| && StyleOf(visitors, rules[k]).None?;
        assert StyleOf(visitors, Rules(tree.children)[k]).None?;
        assert VisitTree(visitors, tree).None?;
      }
    }
  }

  /** The walk of Visit's loop over the first n children: a RULE child appends its style, any
      other child is skipped, and the walk stops at the first rule that raises. */
  function WalkUpTo<S, D>(visitors: seq<SubVisitor<S, D>>, children: seq<Tree>, n: nat): Option<seq<Style<S, D>>>
    requires n <= |children|
  {
    if n == 0 then Some([])
    else
      match WalkUpTo(visitors, children, n - 1)
      case None => None
      case Some(list) =>
        if children[n - 1].text != "RULE" then Some(list)
        else
          match StyleOf(visitors, children[n - 1])
          case None => None
          case Some(style) => Some(list + [style])
  }

  lemma {:induction false} WalkStaysFailed<S, D>(visitors: seq<SubVisitor<S, D>>, children: seq<Tree>, i: nat, n: nat)
    requires i <= n <= |children|
    requires WalkUpTo(visitors, children, i).None?
    ensures WalkUpTo(visitors, children, n).None?
    decreases n
  {
    if n > i {
      WalkStaysFailed(visitors, children, i, n - 1);
    }
  }

  /** The loop's walk agrees with the declarative definition: the styles of the RULE children,
      collected in order. */
  lemma {:induction false} WalkAgreesWithRules<S, D>(visitors: seq<SubVisitor<S, D>>, children: seq<Tree>, n: nat)
    requires n <= |children|
    ensures WalkUpTo(visitors, children, n) == CollectAll(StyleFunction(visitors), Rules(children[..n]))
  {
    if n == 0 {
      assert children[..0] == [];
    } else {
      var f := StyleFunction(visitors);
      var child := children[n - 1];
      var pre := children[..n - 1];
      var whole := children[..n];
      assert whole == pre + [child];
      var before := Rules(pre);
      WalkAgreesWithRules(visitors, children, n - 1);
      RulesAppend(pre, [child]);
      assert Rules([child]) == if child.text == "RULE" then [child] else [];
      if child.text != "RULE" {
        assert Rules(whole) == before;
        assert WalkUpTo(visitors, children, n) == WalkUpTo(visitors, children, n - 1);
      } else {
        assert Rules(whole) == before + [child];
        if CollectAll(f, before).Some? && StyleOf(visitors, child).Some? {
          CollectAllSnoc(f, before, child);
        } else {
          assert (before + [child])[..|before|] == before;
          assert CollectAll(f, before + [child]).None?;
          assert WalkUpTo(visitors, children, n).None?;
        }
      }
    }
  }

  /** The walk fails on a rule exactly when that rule's own walk does. */
  lemma VisitFaultsOnFaultyRule<S, D>(visitors: seq<SubVisitor<S, D>>, tree: Tree, k: nat)
    requires k < |tree.children| && tree.children[k].text == "RULE"
    requires StyleOf(visitors, tree.children[k]).None?
    ensures VisitTree(visitors, tree).None?
  {
    var rules := Rules(tree.children);
    RulesAreRuleChildren(tree.children);
    assert tree.children[k] in rules;
    var j :| 0 <= j < |rules| && rules[j] == tree.children[k];
  }

  // ----- The source's loops -----

  /** The SIMPLE_SELECTOR branch of VisitStyle, with its selectorIdx loop. */
  method VisitSimpleSelector<S, D>(visitors: seq<SubVisitor<S, D>>, tree: Tree) returns (selectors: seq<SelectorEntry<S>>)
    requires |tree.children| > 0
    ensures selectors == SelectorsOf(visitors, tree)
  {
    var selectorType := tree.children[0].text;
    if selectorType != "canvas" {
      selectors := [];
      var selectorIdx := 1;
      while |tree.children| > selectorIdx
        invariant 1 <= selectorIdx <= |tree.children|
        invariant |selectors| == selectorIdx - 1
        invariant forall k :: 1 <= k < selectorIdx ==>
                    selectors[k - 1] == Visited(VisitSelector(visitors, tree.children[k], selectorType))
      {
        var selectorTree := tree.children[selectorIdx];
        selectors := selectors + [Visited(VisitSelector(visitors, selectorTree, selectorType))];
        selectorIdx := selectorIdx + 1;
      }
    } else {
      selectors := [CanvasSelector];
    }
  }

  /** The declaration branch of VisitStyle, with its declarationSelectorIdx loop. */
  method VisitDeclarations<S, D>(visitors: seq<SubVisitor<S, D>>, tree: Tree) returns (declarations: seq<Option<D>>)
    ensures declarations == DeclarationsOf(visitors, tree)
  {
    declarations := [];
    if tree.text == "{" {
      var declarationSelectorIdx := 0;
      while |tree.children| > declarationSelectorIdx && tree.children[declarationSelectorIdx].text == "DECLARATION"
        invariant 0 <= declarationSelectorIdx <= DeclarationCount(tree.children)
        invariant |declarations| == declarationSelectorIdx
        invariant forall k :: 0 <= k < declarationSelectorIdx ==> declarations[k] == VisitDeclaration(visitors, tree.children[k])
      {
        var declarationTree := tree.children[declarationSelectorIdx];
        declarations := declarations + [VisitDeclaration(visitors, declarationTree)];
        declarationSelectorIdx := declarationSelectorIdx + 1;
      }
    }
  }

  /** VisitStyle: the children of a rule in order. */
  method VisitStyle<S, D>(visitors: seq<SubVisitor<S, D>>, ruleTree: Tree) returns (style: Option<Style<S, D>>)
    ensures style == StyleOf(visitors, ruleTree)
  {
    var children := ruleTree.children;
    if |children| == 0 {
      return None;
    }
    var current: Style<S, D> := Style([], [], false);
    for i := 0 to |children|
      invariant LeafFree(children, i)
      invariant current.selectors == SelectorsUpTo(visitors, children, i)
      invariant current.declarations == DeclarationsUpTo(visitors, children, i)
      invariant current.matchAll == MatchAllUpTo(children, i)
    {
      var tree := children[i];
      if tree.text == "SIMPLE_SELECTOR" {
        if |tree.children| == 0 {
          assert IsSelectorLeaf(children[i]);
          LeafFreeIff(children, |children|);
          return None;
        }
        var added := VisitSimpleSelector(visitors, tree);
        current := current.(selectors := current.selectors + added);
      } else {
        current := current.(matchAll := i == 1);
        var added := VisitDeclarations(visitors, tree);
        current := current.(declarations := current.declarations + added);
      }
    }
    style := Some(current);
  }

  /** Visit: the children of the root in order, a style for each RULE. */
  method Visit<S, D>(visitors: seq<SubVisitor<S, D>>, tree: Tree) returns (styles: Option<seq<Style<S, D>>>)
    ensures styles == VisitTree(visitors, tree)
  {
    var children := tree.children;
    if |children| == 0 {
      return None;
    }
    var list: seq<Style<S, D>> := [];
    for i := 0 to |children|
      invariant WalkUpTo(visitors, children, i) == Some(list)
    {
      var child := children[i];
      if child.text == "RULE" {
        var rule := VisitStyle(visitors, child);
        if rule.None? {
          WalkStaysFailed(visitors, children, i + 1, |children|);
          WalkAgreesWithRules(visitors, children, |children|);
          assert children[..|children|] == children;
          return None;
        }
        list := list + [rule.value];
      }
    }
    WalkAgreesWithRules(visitors, children, |children|);
    assert children[..|children|] == children;
    styles := Some(list);
  }
}
