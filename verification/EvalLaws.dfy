/** What each form of expression evaluates to, from the values of its parts (workflow_template.py). */
module EvalLaws {
  import opened Prelude
  import opened S = SafeEval

  /** The expression has the value v. */
  predicate Gives<V(==)>(h: Host<V>, ns: Namespace<V>, max: nat, n: Node<V>, depth: nat, v: V) {
    Eval(h, ns, max, n, depth) == Ok(v)
  }

  /** The expression has a value, and that value counts as b. */
  predicate CountsAs<V>(h: Host<V>, ns: Namespace<V>, max: nat, n: Node<V>, depth: nat, b: bool) {
    var r := Eval(h, ns, max, n, depth);
    r.Ok? && h.truth(r.value) == Ok(b)
  }

  // ---------------------------------------------------------------- names

  predicate Literal(id: string) { id == "True" || id == "False" || id == "None" }

  predicate Callable(id: string) {
    || id == "len" || id == "str" || id == "int" || id == "float" || id == "bool" || id == "list" || id == "dict"
    || id == "tuple" || id == "set" || id == "min" || id == "max" || id == "abs" || id == "round"
    || id == "isinstance" || id == "sorted" || id == "enumerate"
  }

  /** A name is a literal if it is one, else the variable of that name, else the function, else refused:
      no variable hides a literal, and no function a variable. */
  lemma NameMeaning<V>(h: Host<V>, ns: Namespace<V>, max: nat, id: string, depth: nat)
    requires depth <= max
    ensures var r := Eval(h, ns, max, Name(id), depth);
      && (id == "True" ==> r == Ok(h.boolean(true)))
      && (id == "False" ==> r == Ok(h.boolean(false)))
      && (id == "None" ==> r == Ok(h.none))
      && (!Literal(id) && id in ns ==> r == Ok(ns[id]))
      && (!Literal(id) && id !in ns && Callable(id) ==> r == Ok(h.function_(id)))
      && (!Literal(id) && id !in ns && !Callable(id) ==> r == NotAllowed)
  {}

  // ---------------------------------------------------------------- conditionals and connectives

  /** A conditional has the value of its body when the test counts as true and of its alternative when
      it counts as false; the other branch does not matter. */
  lemma ChoiceMeaning<V>(h: Host<V>, ns: Namespace<V>, max: nat, test: Node<V>, body: Node<V>, orelse: Node<V>,
                         other: Node<V>, depth: nat)
    requires depth <= max
    ensures var r, d := Eval(h, ns, max, IfExp(test, body, orelse), depth), depth + 1;
      && (CountsAs(h, ns, max, test, d, true) ==>
            r == Eval(h, ns, max, body, d) == Eval(h, ns, max, IfExp(test, body, other), depth))
      && (CountsAs(h, ns, max, test, d, false) ==>
            r == Eval(h, ns, max, orelse, d) == Eval(h, ns, max, IfExp(test, other, orelse), depth))
      && (!Eval(h, ns, max, test, d).Ok? ==> r == Eval(h, ns, max, test, d))
      && (r.Ok? ==> CountsAs(h, ns, max, test, d, true) || CountsAs(h, ns, max, test, d, false))
  {}

  /** Operand k decides a connective of operands that must all count as `expected`: those before it do,
      and it is the first that does not. */
  ghost predicate Decides<V(!new)>(h: Host<V>, ns: Namespace<V>, max: nat, es: seq<Node<V>>, depth: nat, expected: bool,
                                   k: nat)
    requires k <= |es|
  {
    && (forall i :: 0 <= i < k ==> CountsAs(h, ns, max, es[i], depth, expected))
    && (k < |es| ==> !CountsAs(h, ns, max, es[k], depth, expected))
  }

  lemma {:induction false} BoolMeaning<V(!new)>(h: Host<V>, ns: Namespace<V>, max: nat, es: seq<Node<V>>, depth: nat,
                                                expected: bool) returns (k: nat)
    ensures k <= |es| && Decides(h, ns, max, es, depth, expected, k)
    ensures var r := EvalBool(h, ns, max, es, depth, expected);
      && (k == |es| ==> r == Ok(h.boolean(expected)))
      && (k < |es| && CountsAs(h, ns, max, es[k], depth, !expected) ==> r == Ok(h.boolean(!expected)))
      && (k < |es| && !CountsAs(h, ns, max, es[k], depth, !expected) ==> !r.Ok?)
      && (k < |es| && !Eval(h, ns, max, es[k], depth).Ok? ==> r == Eval(h, ns, max, es[k], depth))
  {
    k := 0;
    if es != [] && CountsAs(h, ns, max, es[0], depth, expected) {
      var rest := es[1..];
      var j := BoolMeaning(h, ns, max, rest, depth, expected);
      k := j + 1;
      assert forall i :: 0 <= i < |rest| ==> rest[i] == es[i + 1];
      if k < |es| { assert rest[j] == es[k]; }
    }
  }

  /** A conjunction is true when every operand counts as true; otherwise the first that does not decides
      it alone: false if that one counts as false, and its failure if it has no truth. */
  lemma AllMeaning<V(!new)>(h: Host<V>, ns: Namespace<V>, max: nat, es: seq<Node<V>>, depth: nat) returns (k: nat)
    requires depth <= max
    ensures k <= |es| && Decides(h, ns, max, es, depth + 1, true, k)
    ensures var r := Eval(h, ns, max, All(es), depth);
      && (k == |es| ==> r == Ok(h.boolean(true)))
      && (k < |es| && CountsAs(h, ns, max, es[k], depth + 1, false) ==> r == Ok(h.boolean(false)))
      && (k < |es| && !CountsAs(h, ns, max, es[k], depth + 1, false) ==> !r.Ok?)
  {
    k := BoolMeaning(h, ns, max, es, depth + 1, true);
  }

  /** A disjunction is false when every operand counts as false; otherwise the first that does not
      decides it. */
  lemma AnyMeaning<V(!new)>(h: Host<V>, ns: Namespace<V>, max: nat, es: seq<Node<V>>, depth: nat) returns (k: nat)
    requires depth <= max
    ensures k <= |es| && Decides(h, ns, max, es, depth + 1, false, k)
    ensures var r := Eval(h, ns, max, Any(es), depth);
      && (k == |es| ==> r == Ok(h.boolean(false)))
      && (k < |es| && CountsAs(h, ns, max, es[k], depth + 1, true) ==> r == Ok(h.boolean(true)))
      && (k < |es| && !CountsAs(h, ns, max, es[k], depth + 1, true) ==> !r.Ok?)
  {
    k := BoolMeaning(h, ns, max, es, depth + 1, false);
  }

  /** What follows the deciding operand is never looked at. */
  lemma {:induction false} RestIsIgnored<V(!new)>(h: Host<V>, ns: Namespace<V>, max: nat, es: seq<Node<V>>,
      more: seq<Node<V>>, depth: nat, expected: bool, k: nat)
    requires k < |es| && Decides(h, ns, max, es, depth, expected, k)
    ensures EvalBool(h, ns, max, es + more, depth, expected) == EvalBool(h, ns, max, es, depth, expected)
  {
    assert (es + more)[0] == es[0] && (es + more)[1..] == es[1..] + more;
    if k > 0 {
      assert forall i :: 0 <= i < |es| - 1 ==> es[1..][i] == es[i + 1];
      RestIsIgnored(h, ns, max, es[1..], more, depth, expected, k - 1);
    }
  }

  // ---------------------------------------------------------------- comparisons

  /** The comparison of two values holds. */
  predicate Holds<V>(h: Host<V>, op: CompareOp, a: V, b: V) {
    var r := h.compare(op, a, b);
    r.Ok? && h.truth(r.value) == Ok(true)
  }

  predicate FailsToHold<V>(h: Host<V>, op: CompareOp, a: V, b: V) {
    var r := h.compare(op, a, b);
    r.Ok? && h.truth(r.value) == Ok(false)
  }

  /** The first k links of a chain that starts with vs[0] hold, each between neighbouring values. */
  ghost predicate HoldUpTo<V(!new)>(h: Host<V>, ns: Namespace<V>, max: nat, links: seq<Link<V>>, depth: nat, vs: seq<V>,
                                    k: nat)
    requires k <= |links| && |vs| == k + 1
  {
    forall i :: 0 <= i < k ==>
      Gives(h, ns, max, links[i].comparator, depth, vs[i + 1]) && Holds(h, links[i].op, vs[i], vs[i + 1])
  }

  lemma {:induction false} ChainMeaning<V(!new)>(h: Host<V>, ns: Namespace<V>, max: nat, left: V, links: seq<Link<V>>,
                                                 depth: nat) returns (k: nat, vs: seq<V>)
    ensures k <= |links| && |vs| == k + 1 && vs[0] == left && HoldUpTo(h, ns, max, links, depth, vs, k)
    ensures var r := EvalChain(h, ns, max, left, links, depth);
      && (k == |links| ==> r == Ok(h.boolean(true)))
      && (k < |links| ==>
            var next := Eval(h, ns, max, links[k].comparator, depth);
            && (!next.Ok? ==> r == next)
            && (next.Ok? ==> !Holds(h, links[k].op, vs[k], next.value)
                             && (FailsToHold(h, links[k].op, vs[k], next.value) ==> r == Ok(h.boolean(false)))
                             && (!FailsToHold(h, links[k].op, vs[k], next.value) ==> !r.Ok?)))
  {
    k, vs := 0, [left];
    if links != [] {
      var right := EvalLink(h, ns, max, links[0], depth);
      if right.Ok? && Holds(h, links[0].op, left, right.value) {
        var rest := links[1..];
        var j, ws := ChainMeaning(h, ns, max, right.value, rest, depth);
        k, vs := j + 1, [left] + ws;
        ChainCons(h, ns, max, left, links, depth, ws, j);
      }
    }
  }

  lemma ChainCons<V(!new)>(h: Host<V>, ns: Namespace<V>, max: nat, left: V, links: seq<Link<V>>, depth: nat, ws: seq<V>,
                           j: nat)
    requires links != [] && j < |links| && |ws| == j + 1
    requires Gives(h, ns, max, links[0].comparator, depth, ws[0]) && Holds(h, links[0].op, left, ws[0])
    requires HoldUpTo(h, ns, max, links[1..], depth, ws, j)
    ensures HoldUpTo(h, ns, max, links, depth, [left] + ws, j + 1)
  {
    var vs := [left] + ws;
    forall i | 0 <= i < j + 1
      ensures Gives(h, ns, max, links[i].comparator, depth, vs[i + 1]) && Holds(h, links[i].op, vs[i], vs[i + 1])
    {
      if i > 0 { assert links[1..][i - 1] == links[i]; }
    }
  }

  /** A chained comparison is true when every link holds between neighbouring values; the first link
      that does not decides it, and no comparator after it is evaluated. */
  lemma CompareMeaning<V(!new)>(h: Host<V>, ns: Namespace<V>, max: nat, left: Node<V>, links: seq<Link<V>>, depth: nat)
    returns (k: nat, vs: seq<V>)
    requires depth <= max && Eval(h, ns, max, left, depth + 1).Ok?
    ensures k <= |links| && |vs| == k + 1 && Gives(h, ns, max, left, depth + 1, vs[0])
    ensures HoldUpTo(h, ns, max, links, depth + 1, vs, k)
    ensures var r := Eval(h, ns, max, Compare(left, links), depth);
      && (k == |links| ==> r == Ok(h.boolean(true)))
      && (k < |links| ==>
            var next := Eval(h, ns, max, links[k].comparator, depth + 1);
            && (!next.Ok? ==> r == next)
            && (next.Ok? ==> !Holds(h, links[k].op, vs[k], next.value)
                             && (FailsToHold(h, links[k].op, vs[k], next.value) ==> r == Ok(h.boolean(false)))
                             && (!FailsToHold(h, links[k].op, vs[k], next.value) ==> !r.Ok?)))
  {
    k, vs := ChainMeaning(h, ns, max, Eval(h, ns, max, left, depth + 1).value, links, depth + 1);
  }

  lemma {:induction false} ChainSplits<V(!new)>(h: Host<V>, ns: Namespace<V>, max: nat, left: V, first: seq<Link<V>>,
                                                rest: seq<Link<V>>, depth: nat)
    requires first != [] && h.boolean(true) != h.boolean(false)
    ensures var r := EvalChain(h, ns, max, left, first, depth);
            var middle := EvalLink(h, ns, max, first[|first| - 1], depth);
      && (r == Ok(h.boolean(true)) ==> middle.Ok?)
      && EvalChain(h, ns, max, left, first + rest, depth)
         == if r == Ok(h.boolean(true)) then EvalChain(h, ns, max, middle.value, rest, depth) else r
  {
    var all := first + rest;
    assert all[0] == first[0] && all[1..] == first[1..] + rest;
    var right := EvalLink(h, ns, max, first[0], depth);
    if right.Ok? && Holds(h, first[0].op, left, right.value) {
      if |first| == 1 {
        assert first[1..] + rest == rest;
      } else {
        ChainSplits(h, ns, max, right.value, first[1..], rest, depth);
      }
    }
  }

  /** A chain is the conjunction of its parts, cut at any comparator, which both parts share: a < b < c
      is a < b and b < c. */
  lemma ChainIsConjunction<V(!new)>(h: Host<V>, ns: Namespace<V>, max: nat, left: Node<V>, first: seq<Link<V>>,
                                    rest: seq<Link<V>>, depth: nat)
    requires first != [] && depth <= max && h.boolean(true) != h.boolean(false)
    ensures var r := Eval(h, ns, max, Compare(left, first), depth);
      Eval(h, ns, max, Compare(left, first + rest), depth)
      == if r == Ok(h.boolean(true)) then Eval(h, ns, max, Compare(first[|first| - 1].comparator, rest), depth) else r
  {
    var a := Eval(h, ns, max, left, depth + 1);
    if a.Ok? { ChainSplits(h, ns, max, a.value, first, rest, depth + 1); }
  }

  // ---------------------------------------------------------------- operators, access and displays

  /** Binary operators take the two values in source order, and only six of them are allowed. */
  lemma BinaryMeaning<V(!new)>(h: Host<V>, ns: Namespace<V>, max: nat, op: BinaryOp, left: Node<V>, right: Node<V>,
                               depth: nat, v: V)
    requires depth <= max
    ensures Gives(h, ns, max, Binary(op, left, right), depth, v)
       <==> (op == Add || op == Sub || op == Mult || op == Div || op == FloorDiv || op == Mod)
            && exists a, b :: Gives(h, ns, max, left, depth + 1, a) && Gives(h, ns, max, right, depth + 1, b)
                              && h.binary(op, a, b) == Ok(v)
    ensures !BinaryAllowed(op) ==> Eval(h, ns, max, Binary(op, left, right), depth) == NotAllowed
    ensures BinaryAllowed(op) && !Eval(h, ns, max, left, depth + 1).Ok? ==>
      Eval(h, ns, max, Binary(op, left, right), depth) == Eval(h, ns, max, left, depth + 1)
  {
    var a, b := Eval(h, ns, max, left, depth + 1), Eval(h, ns, max, right, depth + 1);
    if a.Ok? && b.Ok? {
      assert Gives(h, ns, max, left, depth + 1, a.value) && Gives(h, ns, max, right, depth + 1, b.value);
    }
  }

  /** Unary operators: not, minus and plus. */
  lemma UnaryMeaning<V(!new)>(h: Host<V>, ns: Namespace<V>, max: nat, op: UnaryOp, operand: Node<V>, depth: nat, v: V)
    requires depth <= max
    ensures Gives(h, ns, max, Unary(op, operand), depth, v)
       <==> (op == Not || op == USub || op == UAdd)
            && exists a :: Gives(h, ns, max, operand, depth + 1, a) && h.unary(op, a) == Ok(v)
    ensures op == Invert ==> Eval(h, ns, max, Unary(op, operand), depth) == NotAllowed
  {
    var a := Eval(h, ns, max, operand, depth + 1);
    if a.Ok? { assert Gives(h, ns, max, operand, depth + 1, a.value); }
  }

  /** A subscript looks its index up in its target. */
  lemma SubscriptMeaning<V(!new)>(h: Host<V>, ns: Namespace<V>, max: nat, target: Node<V>, index: Node<V>, depth: nat,
                                  v: V)
    requires depth <= max
    ensures Gives(h, ns, max, Subscript(target, index), depth, v)
       <==> exists a, b :: Gives(h, ns, max, target, depth + 1, a) && Gives(h, ns, max, index, depth + 1, b)
                           && h.item(a, b) == Ok(v)
    ensures !Eval(h, ns, max, target, depth + 1).Ok? ==>
      Eval(h, ns, max, Subscript(target, index), depth) == Eval(h, ns, max, target, depth + 1)
  {
    var a, b := Eval(h, ns, max, target, depth + 1), Eval(h, ns, max, index, depth + 1);
    if a.Ok? && b.Ok? {
      assert Gives(h, ns, max, target, depth + 1, a.value) && Gives(h, ns, max, index, depth + 1, b.value);
    }
  }

  /** No attribute that starts with two underscores is ever read, whatever its target. */
  lemma AttributeMeaning<V(!new)>(h: Host<V>, ns: Namespace<V>, max: nat, target: Node<V>, attr: string, depth: nat,
                                  v: V)
    requires depth <= max
    ensures |attr| >= 2 && attr[0] == '_' && attr[1] == '_' ==>
      Eval(h, ns, max, Attribute(target, attr), depth) == NotAllowed
    ensures !(|attr| >= 2 && attr[0] == '_' && attr[1] == '_') ==>
      (Gives(h, ns, max, Attribute(target, attr), depth, v)
       <==> exists a :: Gives(h, ns, max, target, depth + 1, a) && h.attribute(a, attr) == Ok(v))
  {
    var a := Eval(h, ns, max, target, depth + 1);
    if a.Ok? { assert Gives(h, ns, max, target, depth + 1, a.value); }
  }

  /** The bound of a slice: its value, or none. */
  predicate BoundGives<V(==)>(h: Host<V>, ns: Namespace<V>, max: nat, n: Option<Node<V>>, depth: nat, v: V) {
    if n.None? then v == h.none else Gives(h, ns, max, n.value, depth, v)
  }

  lemma SliceMeaning<V(!new)>(h: Host<V>, ns: Namespace<V>, max: nat, lower: Option<Node<V>>, upper: Option<Node<V>>,
                              step: Option<Node<V>>, depth: nat, v: V)
    requires depth <= max
    ensures Gives(h, ns, max, Slice(lower, upper, step), depth, v)
       <==> exists a, b, c :: BoundGives(h, ns, max, lower, depth + 1, a) && BoundGives(h, ns, max, upper, depth + 1, b)
                              && BoundGives(h, ns, max, step, depth + 1, c) && h.slice(a, b, c) == Ok(v)
  {
    var a, b := EvalOptional(h, ns, max, lower, depth + 1), EvalOptional(h, ns, max, upper, depth + 1);
    var c := EvalOptional(h, ns, max, step, depth + 1);
    if a.Ok? && b.Ok? && c.Ok? {
      assert BoundGives(h, ns, max, lower, depth + 1, a.value) && BoundGives(h, ns, max, upper, depth + 1, b.value);
      assert BoundGives(h, ns, max, step, depth + 1, c.value);
    }
  }

  /** vs holds the values of the expressions, in order. */
  ghost predicate EachGives<V(!new)>(h: Host<V>, ns: Namespace<V>, max: nat, es: seq<Node<V>>, depth: nat, vs: seq<V>) {
    |vs| == |es| && forall i :: 0 <= i < |es| ==> Gives(h, ns, max, es[i], depth, vs[i])
  }

  lemma {:induction false} EachMeaning<V(!new)>(h: Host<V>, ns: Namespace<V>, max: nat, es: seq<Node<V>>, depth: nat,
                                                vs: seq<V>)
    ensures EvalEach(h, ns, max, es, depth) == Ok(vs) <==> EachGives(h, ns, max, es, depth, vs)
  {
    if es != [] {
      assert forall i :: 0 <= i < |es| - 1 ==> es[1..][i] == es[i + 1];
      if vs != [] {
        EachMeaning(h, ns, max, es[1..], depth, vs[1..]);
        assert vs == [vs[0]] + vs[1..];
        assert forall i :: 0 <= i < |vs| - 1 ==> vs[1..][i] == vs[i + 1];
      }
      var r := EvalEach(h, ns, max, es, depth);
      if r == Ok(vs) { assert vs[0] == Eval(h, ns, max, es[0], depth).value; }
      if EachGives(h, ns, max, es, depth, vs) { assert Gives(h, ns, max, es[0], depth, vs[0]); }
    }
  }

  /** A list display collects the values of its elements, in order, and so does a tuple. */
  lemma ListMeaning<V(!new)>(h: Host<V>, ns: Namespace<V>, max: nat, es: seq<Node<V>>, depth: nat, vs: seq<V>)
    requires depth <= max && EachGives(h, ns, max, es, depth + 1, vs)
    ensures Eval(h, ns, max, List(es), depth) == Ok(h.list(vs))
    ensures Eval(h, ns, max, Tuple(es), depth) == Ok(h.tuple(vs))
  {
    EachMeaning(h, ns, max, es, depth + 1, vs);
  }

  /** Its first element without a value decides how a display fails. */
  lemma {:induction false} FirstFailure<V(!new)>(h: Host<V>, ns: Namespace<V>, max: nat, es: seq<Node<V>>, depth: nat,
                                                 k: nat)
    requires k < |es| && !Eval(h, ns, max, es[k], depth).Ok?
    requires forall i :: 0 <= i < k ==> Eval(h, ns, max, es[i], depth).Ok?
    ensures EvalEach(h, ns, max, es, depth) == Fail(Eval(h, ns, max, es[k], depth))
  {
    if k > 0 {
      assert forall i :: 0 <= i < |es| - 1 ==> es[1..][i] == es[i + 1];
      FirstFailure(h, ns, max, es[1..], depth, k - 1);
    }
  }

  /** The named keywords, in order. */
  function Named<V>(): Keyword<V> -> bool { (k: Keyword<V>) => k.name.Some? }

  ghost predicate KeywordsGive<V(!new)>(h: Host<V>, ns: Namespace<V>, max: nat, ks: seq<Keyword<V>>, depth: nat,
                                        vs: seq<(string, V)>)
  {
    |vs| == |ks| && forall i :: 0 <= i < |ks| ==>
      ks[i].name == Some(vs[i].0) && Gives(h, ns, max, ks[i].value, depth, vs[i].1)
  }

  lemma OtherKeywords<V(!new)>(h: Host<V>, ns: Namespace<V>, max: nat, ks: seq<Keyword<V>>, depth: nat,
                               vs: seq<(string, V)>)
    requires ks != [] && KeywordsGive(h, ns, max, ks, depth, vs)
    ensures KeywordsGive(h, ns, max, ks[1..], depth, vs[1..])
    ensures EvalKeyword(h, ns, max, ks[0], depth) == Ok([vs[0]])
  {
    assert Gives(h, ns, max, ks[0].value, depth, vs[0].1);
    forall i | 0 <= i < |ks| - 1
      ensures ks[1..][i].name == Some(vs[1..][i].0) && Gives(h, ns, max, ks[1..][i].value, depth, vs[1..][i].1)
    {
      assert ks[1..][i] == ks[i + 1] && vs[1..][i] == vs[i + 1];
    }
  }

  lemma KeptKeywords<V>(ks: seq<Keyword<V>>)
    requires ks != []
    ensures var kept, rest := Keep(ks, Named()), Keep(ks[1..], Named());
      if ks[0].name.Some? then kept != [] && kept[0] == ks[0] && kept[1..] == rest else kept == rest
  {
    assert ks == [ks[0]] + ks[1..];
    KeepCons(ks[0], ks[1..], Named());
  }

  lemma KeywordsCons<V(!new)>(h: Host<V>, ns: Namespace<V>, max: nat, ks: seq<Keyword<V>>, depth: nat,
                              first: seq<(string, V)>, rest: seq<(string, V)>)
    requires ks != [] && EvalKeyword(h, ns, max, ks[0], depth) == Ok(first)
    requires EvalKeywords(h, ns, max, ks[1..], depth) == Ok(rest)
    ensures EvalKeywords(h, ns, max, ks, depth) == Ok(first + rest)
  {}

  lemma {:induction false} KeywordsMeaning<V(!new)>(h: Host<V>, ns: Namespace<V>, max: nat, ks: seq<Keyword<V>>,
                                                    depth: nat, vs: seq<(string, V)>)
    requires KeywordsGive(h, ns, max, Keep(ks, Named()), depth, vs)
    ensures EvalKeywords(h, ns, max, ks, depth) == Ok(vs)
  {
    if ks != [] {
      KeptKeywords(ks);
      if ks[0].name.Some? {
        OtherKeywords(h, ns, max, Keep(ks, Named()), depth, vs);
        KeywordsMeaning(h, ns, max, ks[1..], depth, vs[1..]);
        KeywordsCons(h, ns, max, ks, depth, [vs[0]], vs[1..]);
        assert vs == [vs[0]] + vs[1..];
      } else {
        KeywordsMeaning(h, ns, max, ks[1..], depth, vs);
        KeywordsCons(h, ns, max, ks, depth, [], vs);
        assert [] + vs == vs;
      }
    }
  }

  /** A call hands one of the listed functions its positional and its named arguments in source order;
      anything else in the place of the function is refused. */
  lemma CallMeaning<V(!new)>(h: Host<V>, ns: Namespace<V>, max: nat, f: Node<V>, args: seq<Node<V>>,
                             ks: seq<Keyword<V>>, depth: nat, vs: seq<V>, kvs: seq<(string, V)>)
    requires depth <= max
    requires EachGives(h, ns, max, args, depth + 1, vs)
    requires KeywordsGive(h, ns, max, Keep(ks, Named()), depth + 1, kvs)
    ensures Eval(h, ns, max, Call(f, args, ks), depth)
         == if f.Name? && Callable(f.id) then h.call(f.id, vs, kvs) else NotAllowed
  {
    EachMeaning(h, ns, max, args, depth + 1, vs);
    KeywordsMeaning(h, ns, max, ks, depth + 1, kvs);
  }

  /** A failing positional argument decides how a call fails, and a failing left side how a comparison
      does, whatever follows. */
  lemma EarlierPartsFailFirst<V(!new)>(h: Host<V>, ns: Namespace<V>, max: nat, f: string, args: seq<Node<V>>,
                                       ks: seq<Keyword<V>>, left: Node<V>, links: seq<Link<V>>, depth: nat)
    requires depth <= max && Callable(f)
    ensures !EvalEach(h, ns, max, args, depth + 1).Ok? ==>
      Eval(h, ns, max, Call(Name(f), args, ks), depth) == Fail(EvalEach(h, ns, max, args, depth + 1))
    ensures !Eval(h, ns, max, left, depth + 1).Ok? ==>
      Eval(h, ns, max, Compare(left, links), depth) == Eval(h, ns, max, left, depth + 1)
  {}

  /** A keyed entry puts its value under its key, a keyless one nothing. */
  ghost predicate PutsEntry<V(!new)>(h: Host<V>, ns: Namespace<V>, max: nat, e: Item<V>, depth: nat,
                                     before: seq<(V, V)>, after: seq<(V, V)>)
  {
    if e.key.None? then after == before
    else
      exists k, v :: Gives(h, ns, max, e.key.value, depth, k) && Gives(h, ns, max, e.value, depth, v)
                     && h.put(before, k, v) == Ok(after)
  }

  /** outs are the contents of a dict after each of its entries. */
  ghost predicate Puts<V(!new)>(h: Host<V>, ns: Namespace<V>, max: nat, es: seq<Item<V>>, depth: nat,
                                outs: seq<seq<(V, V)>>)
  {
    |outs| == |es| + 1 && forall i :: 0 <= i < |es| ==> PutsEntry(h, ns, max, es[i], depth, outs[i], outs[i + 1])
  }

  lemma {:induction false} ItemsMeaning<V(!new)>(h: Host<V>, ns: Namespace<V>, max: nat, es: seq<Item<V>>, depth: nat,
                                                 outs: seq<seq<(V, V)>>)
    requires Puts(h, ns, max, es, depth, outs)
    ensures EvalItems(h, ns, max, es, depth, outs[0]) == Ok(outs[|es|])
  {
    if es != [] {
      OneItem(h, ns, max, es[0], depth, outs[0], outs[1]);
      assert forall i :: 0 <= i < |es| - 1 ==> es[1..][i] == es[i + 1];
      assert forall i :: 0 <= i < |es| ==> outs[1..][i] == outs[i + 1];
      ItemsMeaning(h, ns, max, es[1..], depth, outs[1..]);
    }
  }

  lemma OneItem<V(!new)>(h: Host<V>, ns: Namespace<V>, max: nat, e: Item<V>, depth: nat, before: seq<(V, V)>,
                         after: seq<(V, V)>)
    requires PutsEntry(h, ns, max, e, depth, before, after)
    ensures EvalItem(h, ns, max, e, depth, before) == Ok(after)
  {
    if e.key.Some? {
      var k, v :| Gives(h, ns, max, e.key.value, depth, k) && Gives(h, ns, max, e.value, depth, v)
                  && h.put(before, k, v) == Ok(after);
    }
  }

  /** A dict display puts its entries in, one after the other, starting from nothing. */
  lemma DictMeaning<V(!new)>(h: Host<V>, ns: Namespace<V>, max: nat, es: seq<Item<V>>, depth: nat,
                             outs: seq<seq<(V, V)>>)
    requires depth <= max && Puts(h, ns, max, es, depth + 1, outs) && outs[0] == []
    ensures Eval(h, ns, max, Dict(es), depth) == Ok(h.dict(outs[|es|]))
  {
    ItemsMeaning(h, ns, max, es, depth + 1, outs);
  }

  /** An entry evaluates its value before its key: a failing value decides, even beside a failing key. */
  lemma ValueBeforeKey<V(!new)>(h: Host<V>, ns: Namespace<V>, max: nat, es: seq<Item<V>>, depth: nat)
    requires depth <= max && es != [] && es[0].key.Some? && !Eval(h, ns, max, es[0].value, depth + 1).Ok?
    ensures Eval(h, ns, max, Dict(es), depth) == Eval(h, ns, max, es[0].value, depth + 1)
  {
    var v := Eval(h, ns, max, es[0].value, depth + 1);
    var item := EvalItem(h, ns, max, es[0], depth + 1, []);
    assert item == Fail(v);
    assert EvalItems(h, ns, max, es, depth + 1, []) == item;
  }

  // ---------------------------------------------------------------- the depth limit

  /** A value inside n pairs of brackets. */
  function Nested<V>(v: V, n: nat): Node<V> { if n == 0 then Constant(v) else List([Nested(v, n - 1)]) }

  lemma {:induction false} NestedDepth<V(!new)>(h: Host<V>, ns: Namespace<V>, max: nat, v: V, n: nat, depth: nat)
    ensures Eval(h, ns, max, Nested(v, n), depth).TooDeep? <==> depth + n > max
    ensures depth + n <= max ==> Eval(h, ns, max, Nested(v, n), depth).Ok?
    decreases n
  {
    if n > 0 && depth <= max {
      var es := [Nested(v, n - 1)];
      NestedDepth(h, ns, max, v, n - 1, depth + 1);
      assert EvalEach(h, ns, max, es[1..], depth + 1) == Ok([]);
    }
  }

  /** The evaluator accepts 39 nested brackets and refuses 40: the whole expression counts as a level. */
  lemma DepthLimit<V(!new)>(h: Host<V>, ns: Namespace<V>, v: V, n: nat)
    ensures SafeEval(h, ns, Nested(v, n)).TooDeep? <==> n >= 40
    ensures SafeEval(h, ns, Nested(v, n)).Ok? <==> n <= 39
  {
    NestedDepth(h, ns, MAX_DEPTH, v, n, 1);
  }
}
