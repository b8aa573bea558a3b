/** The template expression evaluator: a walk over the parsed expression with a depth limit, a fixed
    set of operators and callable names, and no dunder attributes (workflow_template.py). */
module SafeEval {
  import opened Prelude

  /** A value, or the exception that stopped the evaluation. */
  datatype Result<V> = Ok(value: V) | NotAllowed | Raised(exception: string) | TooDeep

  const MAX_DEPTH: nat := 40

  const SAFE_FUNCTIONS: set<string> := {
    "len", "str", "int", "float", "bool", "list", "dict", "tuple", "set", "min", "max", "abs", "round",
    "isinstance", "sorted", "enumerate"}

  datatype UnaryOp = Not | USub | UAdd | Invert
  datatype BinaryOp =
    | Add | Sub | Mult | Div | FloorDiv | Mod
    | Pow | LShift | RShift | BitOr | BitXor | BitAnd | MatMult
  datatype CompareOp = Eq | NotEq | Lt | LtE | Gt | GtE | Is | IsNot | In | NotIn

  predicate UnaryAllowed(op: UnaryOp) { !op.Invert? }

  predicate BinaryAllowed(op: BinaryOp) {
    op.Add? || op.Sub? || op.Mult? || op.Div? || op.FloorDiv? || op.Mod?
  }

  datatype Node<V> =
    | Constant(value: V)
    | Name(id: string)
    | Subscript(target: Node<V>, index: Node<V>)
    | Slice(lower: Option<Node<V>>, upper: Option<Node<V>>, step: Option<Node<V>>)
    | Attribute(target: Node<V>, attr: string)
    | Unary(uop: UnaryOp, operand: Node<V>)
    | All(operands: seq<Node<V>>)
    | Any(operands: seq<Node<V>>)
    | Binary(bop: BinaryOp, left: Node<V>, right: Node<V>)
    | Compare(left: Node<V>, links: seq<Link<V>>)
    | Call(func: Node<V>, args: seq<Node<V>>, keywords: seq<Keyword<V>>)
    | IfExp(test: Node<V>, body: Node<V>, orelse: Node<V>)
    | List(elts: seq<Node<V>>)
    | Tuple(elts: seq<Node<V>>)
    | Dict(entries: seq<Item<V>>)
    | Forbidden

  /** One `op comparator` of a chained comparison. */
  datatype Link<V> = Link(op: CompareOp, comparator: Node<V>)

  /** A keyword argument; `**mapping` has no name. */
  datatype Keyword<V> = Keyword(name: Option<string>, value: Node<V>)

  /** A dict entry; `**mapping` has no key. */
  datatype Item<V> = Item(key: Option<Node<V>>, value: Node<V>)

  /** What Python's values do: every operation the walker hands over to the host language. */
  datatype Host<!V> = Host(
    none: V,
    boolean: bool -> V,
    function_: string -> V,
    truth: V -> Result<bool>,
    item: (V, V) -> Result<V>,
    slice: (V, V, V) -> Result<V>,
    attribute: (V, string) -> Result<V>,
    unary: (UnaryOp, V) -> Result<V>,
    binary: (BinaryOp, V, V) -> Result<V>,
    compare: (CompareOp, V, V) -> Result<V>,
    call: (string, seq<V>, seq<(string, V)>) -> Result<V>,
    list: seq<V> -> V,
    tuple: seq<V> -> V,
    put: (seq<(V, V)>, V, V) -> Result<seq<(V, V)>>,
    dict: seq<(V, V)> -> V)

  type Namespace<V> = map<string, V>

  predicate Dunder(attr: string) { "__" <= attr }

  function Fail<V, W>(r: Result<V>): Result<W>
    requires !r.Ok?
  {
    match r { case NotAllowed => NotAllowed case Raised(e) => Raised(e) case TooDeep => TooDeep }
  }

  /** A name means a literal, then a variable, then a function, in that order. */
  function Lookup<V>(h: Host<V>, ns: Namespace<V>, id: string): Result<V> {
    if id == "True" then Ok(h.boolean(true))
    else if id == "False" then Ok(h.boolean(false))
    else if id == "None" then Ok(h.none)
    else if id in ns then Ok(ns[id])
    else if id in SAFE_FUNCTIONS then Ok(h.function_(id))
    else NotAllowed
  }

  // ---------------------------------------------------------------- the walk

  function Eval<V>(h: Host<V>, ns: Namespace<V>, max: nat, n: Node<V>, depth: nat): Result<V>
    decreases n, 1
  {
    if depth > max then TooDeep
    else match n
      case Constant(v) => Ok(v)
      case Name(id) => Lookup(h, ns, id)
      case Subscript(target, index) =>
        var v := Eval(h, ns, max, target, depth + 1);
        if !v.Ok? then v else
        var i := Eval(h, ns, max, index, depth + 1);
        if !i.Ok? then i else h.item(v.value, i.value)
      case Slice(lower, upper, step) =>
        var a := EvalOptional(h, ns, max, lower, depth + 1);
        if !a.Ok? then a else
        var b := EvalOptional(h, ns, max, upper, depth + 1);
        if !b.Ok? then b else
        var c := EvalOptional(h, ns, max, step, depth + 1);
        if !c.Ok? then c else h.slice(a.value, b.value, c.value)
      case Attribute(target, attr) =>
        if Dunder(attr) then NotAllowed else
        var v := Eval(h, ns, max, target, depth + 1);
        if !v.Ok? then v else h.attribute(v.value, attr)
      case Unary(op, operand) =>
        if !UnaryAllowed(op) then NotAllowed else
        var v := Eval(h, ns, max, operand, depth + 1);
        if !v.Ok? then v else h.unary(op, v.value)
      case All(operands) => EvalBool(h, ns, max, operands, depth + 1, true)
      case Any(operands) => EvalBool(h, ns, max, operands, depth + 1, false)
      case Binary(op, left, right) =>
        if !BinaryAllowed(op) then NotAllowed else
        var a := Eval(h, ns, max, left, depth + 1);
        if !a.Ok? then a else
        var b := Eval(h, ns, max, right, depth + 1);
        if !b.Ok? then b else h.binary(op, a.value, b.value)
      case Compare(left, links) =>
        var a := Eval(h, ns, max, left, depth + 1);
        if !a.Ok? then a else EvalChain(h, ns, max, a.value, links, depth + 1)
      case Call(func, args, keywords) =>
        if !(func.Name? && func.id in SAFE_FUNCTIONS) then NotAllowed else
        var vs := EvalEach(h, ns, max, args, depth + 1);
        if !vs.Ok? then Fail(vs) else
        var ks := EvalKeywords(h, ns, max, keywords, depth + 1);
        if !ks.Ok? then Fail(ks) else h.call(func.id, vs.value, ks.value)
      case IfExp(test, body, orelse) =>
        var c := Eval(h, ns, max, test, depth + 1);
        if !c.Ok? then c else
        var b := h.truth(c.value);
        if !b.Ok? then Fail(b) else Eval(h, ns, max, if b.value then body else orelse, depth + 1)
      case List(elts) =>
        var vs := EvalEach(h, ns, max, elts, depth + 1);
        if !vs.Ok? then Fail(vs) else Ok(h.list(vs.value))
      case Tuple(elts) =>
        var vs := EvalEach(h, ns, max, elts, depth + 1);
        if !vs.Ok? then Fail(vs) else Ok(h.tuple(vs.value))
      case Dict(entries) =>
        var d := EvalItems(h, ns, max, entries, depth + 1, []);
        if !d.Ok? then Fail(d) else Ok(h.dict(d.value))
      case Forbidden => NotAllowed
  }

  function EvalOptional<V>(h: Host<V>, ns: Namespace<V>, max: nat, n: Option<Node<V>>, depth: nat): Result<V>
    decreases n, 0
  {
    if n.None? then Ok(h.none) else Eval(h, ns, max, n.value, depth)
  }

  /** all(…) when `expected`, any(…) otherwise: stops at the first operand that decides. */
  function EvalBool<V>(h: Host<V>, ns: Namespace<V>, max: nat, operands: seq<Node<V>>, depth: nat,
      expected: bool): Result<V>
    decreases operands, 0
  {
    if operands == [] then Ok(h.boolean(expected))
    else
      var v := Eval(h, ns, max, operands[0], depth);
      if !v.Ok? then v else
      var b := h.truth(v.value);
      if !b.Ok? then Fail(b)
      else if b.value != expected then Ok(h.boolean(!expected))
      else EvalBool(h, ns, max, operands[1..], depth, expected)
  }

  function EvalChain<V>(h: Host<V>, ns: Namespace<V>, max: nat, left: V, links: seq<Link<V>>, depth: nat): Result<V>
    decreases links, 0
  {
    if links == [] then Ok(h.boolean(true))
    else
      var right := EvalLink(h, ns, max, links[0], depth);
      if !right.Ok? then right else
      var holds := h.compare(links[0].op, left, right.value);
      if !holds.Ok? then holds else
      var b := h.truth(holds.value);
      if !b.Ok? then Fail(b)
      else if !b.value then Ok(h.boolean(false))
      else EvalChain(h, ns, max, right.value, links[1..], depth)
  }

  function EvalEach<V>(h: Host<V>, ns: Namespace<V>, max: nat, es: seq<Node<V>>, depth: nat): Result<seq<V>>
    decreases es, 0
  {
    if es == [] then Ok([])
    else
      var v := Eval(h, ns, max, es[0], depth);
      if !v.Ok? then Fail(v) else
      var rest := EvalEach(h, ns, max, es[1..], depth);
      if !rest.Ok? then rest else Ok([v.value] + rest.value)
  }

  function EvalLink<V>(h: Host<V>, ns: Namespace<V>, max: nat, link: Link<V>, depth: nat): Result<V>
    decreases link, 0
  {
    Eval(h, ns, max, link.comparator, depth)
  }

  /** An unnamed keyword is skipped without being evaluated. */
  function EvalKeyword<V>(h: Host<V>, ns: Namespace<V>, max: nat, k: Keyword<V>, depth: nat): Result<seq<(string, V)>>
    decreases k, 0
  {
    if k.name.None? then Ok([])
    else
      var v := Eval(h, ns, max, k.value, depth);
      if !v.Ok? then Fail(v) else Ok([(k.name.value, v.value)])
  }

  function EvalKeywords<V>(h: Host<V>, ns: Namespace<V>, max: nat, ks: seq<Keyword<V>>,
      depth: nat): Result<seq<(string, V)>>
    decreases ks, 0
  {
    if ks == [] then Ok([])
    else
      var v := EvalKeyword(h, ns, max, ks[0], depth);
      if !v.Ok? then Fail(v) else
      var rest := EvalKeywords(h, ns, max, ks[1..], depth);
      if !rest.Ok? then rest else Ok(v.value + rest.value)
  }

  /** An entry evaluates its value before its key; a keyless one is skipped. */
  function EvalItem<V>(h: Host<V>, ns: Namespace<V>, max: nat, e: Item<V>, depth: nat,
                       out: seq<(V, V)>): Result<seq<(V, V)>>
    decreases e, 0
  {
    if e.key.None? then Ok(out)
    else
      var v := Eval(h, ns, max, e.value, depth);
      if !v.Ok? then Fail(v) else
      var k := EvalOptional(h, ns, max, e.key, depth);
      if !k.Ok? then Fail(k) else h.put(out, k.value, v.value)
  }

  function EvalItems<V>(h: Host<V>, ns: Namespace<V>, max: nat, es: seq<Item<V>>, depth: nat,
                        out: seq<(V, V)>): Result<seq<(V, V)>>
    decreases es, 0
  {
    if es == [] then Ok(out)
    else
      var more := EvalItem(h, ns, max, es[0], depth, out);
      if !more.Ok? then more else EvalItems(h, ns, max, es[1..], depth, more.value)
  }

  /** The evaluator: the root expression node stands above the expression itself. */
  function SafeEval<V>(h: Host<V>, ns: Namespace<V>, body: Node<V>): Result<V> {
    Eval(h, ns, MAX_DEPTH, body, 1)
  }

  // ---------------------------------------------------------------- the limit and the sandbox

  /** Hosts that differ at most in what the sandbox forbids: dunder attributes, operators outside the
      fixed set, and functions outside the fixed list. */
  ghost predicate SameInside<V(!new)>(h: Host<V>, g: Host<V>) {
    && h == g.(attribute := h.attribute, unary := h.unary, binary := h.binary, call := h.call)
    && (forall v, a :: !Dunder(a) ==> h.attribute(v, a) == g.attribute(v, a))
    && (forall op, v :: UnaryAllowed(op) ==> h.unary(op, v) == g.unary(op, v))
    && (forall op, v, w :: BinaryAllowed(op) ==> h.binary(op, v, w) == g.binary(op, v, w))
    && (forall f, vs, ks :: f in SAFE_FUNCTIONS ==> h.call(f, vs, ks) == g.call(f, vs, ks))
  }

  /** A result that a different limit may not change: any but the depth error, unless the limits are
      the same anyway. */
  predicate Settled<V>(r: Result<V>, max: nat, max': nat) {
    max == max' || (max < max' && !r.TooDeep?)
  }

  /** The main result: an evaluation that does not run into its depth limit has the same outcome,
      value or exception, under any larger limit, and none depends on anything the sandbox forbids. */
  lemma {:induction false} EvalIsSettled<V(!new)>(h: Host<V>, g: Host<V>, ns: Namespace<V>, max: nat, max': nat,
      n: Node<V>, depth: nat)
    requires SameInside(h, g) && Settled(Eval(h, ns, max, n, depth), max, max')
    ensures Eval(g, ns, max', n, depth) == Eval(h, ns, max, n, depth)
    decreases n, 1
  {
    if depth <= max {
      match n
      case Subscript(_, _) => AccessIsSettled(h, g, ns, max, max', n, depth);
      case Slice(_, _, _) => SliceIsSettled(h, g, ns, max, max', n, depth);
      case Attribute(_, _) => AccessIsSettled(h, g, ns, max, max', n, depth);
      case Unary(_, _) => OperatorIsSettled(h, g, ns, max, max', n, depth);
      case Binary(_, _, _) => OperatorIsSettled(h, g, ns, max, max', n, depth);
      case Compare(_, _) => CompareIsSettled(h, g, ns, max, max', n, depth);
      case Call(_, _, _) => CallIsSettled(h, g, ns, max, max', n, depth);
      case IfExp(_, _, _) => ChoiceIsSettled(h, g, ns, max, max', n, depth);
      case All(operands) => BoolIsSettled(h, g, ns, max, max', operands, depth + 1, true);
      case Any(operands) => BoolIsSettled(h, g, ns, max, max', operands, depth + 1, false);
      case List(_) => DisplayIsSettled(h, g, ns, max, max', n, depth);
      case Tuple(_) => DisplayIsSettled(h, g, ns, max, max', n, depth);
      case Dict(_) => DisplayIsSettled(h, g, ns, max, max', n, depth);
      case _ =>
    }
  }

  lemma {:induction false} CompareIsSettled<V(!new)>(h: Host<V>, g: Host<V>, ns: Namespace<V>, max: nat, max': nat,
      n: Node<V>, depth: nat)
    requires SameInside(h, g) && n.Compare? && depth <= max && Settled(Eval(h, ns, max, n, depth), max, max')
    ensures Eval(g, ns, max', n, depth) == Eval(h, ns, max, n, depth)
    decreases n, 0
  {
    EvalIsSettled(h, g, ns, max, max', n.left, depth + 1);
    var a := Eval(h, ns, max, n.left, depth + 1);
    if a.Ok? { ChainIsSettled(h, g, ns, max, max', a.value, n.links, depth + 1); }
  }

  lemma {:induction false} DisplayIsSettled<V(!new)>(h: Host<V>, g: Host<V>, ns: Namespace<V>, max: nat, max': nat,
      n: Node<V>, depth: nat)
    requires SameInside(h, g) && (n.List? || n.Tuple? || n.Dict?) && depth <= max
    requires Settled(Eval(h, ns, max, n, depth), max, max')
    ensures Eval(g, ns, max', n, depth) == Eval(h, ns, max, n, depth)
    decreases n, 0
  {
    if n.Dict? {
      ItemsAreSettled(h, g, ns, max, max', n.entries, depth + 1, []);
    } else {
      EachIsSettled(h, g, ns, max, max', n.elts, depth + 1);
    }
  }

  lemma {:induction false} AccessIsSettled<V(!new)>(h: Host<V>, g: Host<V>, ns: Namespace<V>, max: nat, max': nat,
      n: Node<V>, depth: nat)
    requires SameInside(h, g) && (n.Subscript? || n.Attribute?) && depth <= max
    requires Settled(Eval(h, ns, max, n, depth), max, max')
    ensures Eval(g, ns, max', n, depth) == Eval(h, ns, max, n, depth)
    decreases n, 0
  {
    if n.Subscript? {
      EvalIsSettled(h, g, ns, max, max', n.target, depth + 1);
      if Eval(h, ns, max, n.target, depth + 1).Ok? { EvalIsSettled(h, g, ns, max, max', n.index, depth + 1); }
    } else if !Dunder(n.attr) {
      EvalIsSettled(h, g, ns, max, max', n.target, depth + 1);
    }
  }

  lemma {:induction false} OperatorIsSettled<V(!new)>(h: Host<V>, g: Host<V>, ns: Namespace<V>, max: nat,
      max': nat, n: Node<V>, depth: nat)
    requires SameInside(h, g) && (n.Unary? || n.Binary?) && depth <= max
    requires Settled(Eval(h, ns, max, n, depth), max, max')
    ensures Eval(g, ns, max', n, depth) == Eval(h, ns, max, n, depth)
    decreases n, 0
  {
    if n.Unary? {
      if UnaryAllowed(n.uop) { EvalIsSettled(h, g, ns, max, max', n.operand, depth + 1); }
    } else if BinaryAllowed(n.bop) {
      EvalIsSettled(h, g, ns, max, max', n.left, depth + 1);
      if Eval(h, ns, max, n.left, depth + 1).Ok? { EvalIsSettled(h, g, ns, max, max', n.right, depth + 1); }
    }
  }

  lemma {:induction false} CallIsSettled<V(!new)>(h: Host<V>, g: Host<V>, ns: Namespace<V>, max: nat, max': nat,
      n: Node<V>, depth: nat)
    requires SameInside(h, g) && n.Call? && depth <= max && Settled(Eval(h, ns, max, n, depth), max, max')
    ensures Eval(g, ns, max', n, depth) == Eval(h, ns, max, n, depth)
    decreases n, 0
  {
    if n.func.Name? && n.func.id in SAFE_FUNCTIONS {
      EachIsSettled(h, g, ns, max, max', n.args, depth + 1);
      if EvalEach(h, ns, max, n.args, depth + 1).Ok? { KeywordsAreSettled(h, g, ns, max, max', n.keywords, depth + 1); }
    }
  }

  lemma {:induction false} ChoiceIsSettled<V(!new)>(h: Host<V>, g: Host<V>, ns: Namespace<V>, max: nat, max': nat,
      n: Node<V>, depth: nat)
    requires SameInside(h, g) && n.IfExp? && depth <= max && Settled(Eval(h, ns, max, n, depth), max, max')
    ensures Eval(g, ns, max', n, depth) == Eval(h, ns, max, n, depth)
    decreases n, 0
  {
    EvalIsSettled(h, g, ns, max, max', n.test, depth + 1);
    var c := Eval(h, ns, max, n.test, depth + 1);
    if c.Ok? && h.truth(c.value).Ok? {
      if h.truth(c.value).value {
        EvalIsSettled(h, g, ns, max, max', n.body, depth + 1);
      } else {
        EvalIsSettled(h, g, ns, max, max', n.orelse, depth + 1);
      }
    }
  }

  lemma {:induction false} OptionalIsSettled<V(!new)>(h: Host<V>, g: Host<V>, ns: Namespace<V>, max: nat,
      max': nat, n: Option<Node<V>>, depth: nat)
    requires SameInside(h, g) && Settled(EvalOptional(h, ns, max, n, depth), max, max')
    ensures EvalOptional(g, ns, max', n, depth) == EvalOptional(h, ns, max, n, depth)
    decreases n, 0
  {
    if n.Some? { EvalIsSettled(h, g, ns, max, max', n.value, depth); }
  }

  lemma {:induction false} SliceIsSettled<V(!new)>(h: Host<V>, g: Host<V>, ns: Namespace<V>, max: nat, max': nat,
      n: Node<V>, depth: nat)
    requires SameInside(h, g) && n.Slice? && depth <= max && Settled(Eval(h, ns, max, n, depth), max, max')
    ensures Eval(g, ns, max', n, depth) == Eval(h, ns, max, n, depth)
    decreases n, 0
  {
    var d := depth + 1;
    OptionalIsSettled(h, g, ns, max, max', n.lower, d);
    if EvalOptional(h, ns, max, n.lower, d).Ok? {
      OptionalIsSettled(h, g, ns, max, max', n.upper, d);
      if EvalOptional(h, ns, max, n.upper, d).Ok? { OptionalIsSettled(h, g, ns, max, max', n.step, d); }
    }
  }

  lemma {:induction false} BoolIsSettled<V(!new)>(h: Host<V>, g: Host<V>, ns: Namespace<V>, max: nat, max': nat,
      operands: seq<Node<V>>, depth: nat, expected: bool)
    requires SameInside(h, g) && Settled(EvalBool(h, ns, max, operands, depth, expected), max, max')
    ensures EvalBool(g, ns, max', operands, depth, expected) == EvalBool(h, ns, max, operands, depth, expected)
    decreases operands, 0
  {
    if operands != [] {
      EvalIsSettled(h, g, ns, max, max', operands[0], depth);
      var v := Eval(h, ns, max, operands[0], depth);
      if v.Ok? && h.truth(v.value) == Ok(expected) {
        BoolIsSettled(h, g, ns, max, max', operands[1..], depth, expected);
      }
    }
  }

  lemma {:induction false} LinkIsSettled<V(!new)>(h: Host<V>, g: Host<V>, ns: Namespace<V>, max: nat, max': nat,
      link: Link<V>, depth: nat)
    requires SameInside(h, g) && Settled(EvalLink(h, ns, max, link, depth), max, max')
    ensures EvalLink(g, ns, max', link, depth) == EvalLink(h, ns, max, link, depth)
    decreases link, 0
  {
    EvalIsSettled(h, g, ns, max, max', link.comparator, depth);
  }

  lemma {:induction false} ChainIsSettled<V(!new)>(h: Host<V>, g: Host<V>, ns: Namespace<V>, max: nat, max': nat,
      left: V, links: seq<Link<V>>, depth: nat)
    requires SameInside(h, g) && Settled(EvalChain(h, ns, max, left, links, depth), max, max')
    ensures EvalChain(g, ns, max', left, links, depth) == EvalChain(h, ns, max, left, links, depth)
    decreases links, 0
  {
    if links != [] {
      LinkIsSettled(h, g, ns, max, max', links[0], depth);
      var right := EvalLink(h, ns, max, links[0], depth);
      if right.Ok? {
        var holds := h.compare(links[0].op, left, right.value);
        if holds.Ok? && h.truth(holds.value) == Ok(true) {
          ChainIsSettled(h, g, ns, max, max', right.value, links[1..], depth);
        }
      }
    }
  }

  lemma {:induction false} EachIsSettled<V(!new)>(h: Host<V>, g: Host<V>, ns: Namespace<V>, max: nat, max': nat,
      es: seq<Node<V>>, depth: nat)
    requires SameInside(h, g) && Settled(EvalEach(h, ns, max, es, depth), max, max')
    ensures EvalEach(g, ns, max', es, depth) == EvalEach(h, ns, max, es, depth)
    decreases es, 0
  {
    if es != [] {
      EvalIsSettled(h, g, ns, max, max', es[0], depth);
      if Eval(h, ns, max, es[0], depth).Ok? { EachIsSettled(h, g, ns, max, max', es[1..], depth); }
    }
  }

  lemma {:induction false} KeywordIsSettled<V(!new)>(h: Host<V>, g: Host<V>, ns: Namespace<V>, max: nat, max': nat,
      k: Keyword<V>, depth: nat)
    requires SameInside(h, g) && Settled(EvalKeyword(h, ns, max, k, depth), max, max')
    ensures EvalKeyword(g, ns, max', k, depth) == EvalKeyword(h, ns, max, k, depth)
    decreases k, 0
  {
    if k.name.Some? { EvalIsSettled(h, g, ns, max, max', k.value, depth); }
  }

  lemma {:induction false} KeywordsAreSettled<V(!new)>(h: Host<V>, g: Host<V>, ns: Namespace<V>, max: nat,
      max': nat, ks: seq<Keyword<V>>, depth: nat)
    requires SameInside(h, g) && Settled(EvalKeywords(h, ns, max, ks, depth), max, max')
    ensures EvalKeywords(g, ns, max', ks, depth) == EvalKeywords(h, ns, max, ks, depth)
    decreases ks, 0
  {
    if ks != [] {
      KeywordIsSettled(h, g, ns, max, max', ks[0], depth);
      if EvalKeyword(h, ns, max, ks[0], depth).Ok? { KeywordsAreSettled(h, g, ns, max, max', ks[1..], depth); }
    }
  }

  lemma {:induction false} ItemIsSettled<V(!new)>(h: Host<V>, g: Host<V>, ns: Namespace<V>, max: nat, max': nat,
      e: Item<V>, depth: nat, out: seq<(V, V)>)
    requires SameInside(h, g) && Settled(EvalItem(h, ns, max, e, depth, out), max, max')
    ensures EvalItem(g, ns, max', e, depth, out) == EvalItem(h, ns, max, e, depth, out)
    decreases e, 0
  {
    if e.key.Some? {
      EvalIsSettled(h, g, ns, max, max', e.value, depth);
      if Eval(h, ns, max, e.value, depth).Ok? { OptionalIsSettled(h, g, ns, max, max', e.key, depth); }
    }
  }

  lemma {:induction false} ItemsAreSettled<V(!new)>(h: Host<V>, g: Host<V>, ns: Namespace<V>, max: nat, max': nat,
      es: seq<Item<V>>, depth: nat, out: seq<(V, V)>)
    requires SameInside(h, g) && Settled(EvalItems(h, ns, max, es, depth, out), max, max')
    ensures EvalItems(g, ns, max', es, depth, out) == EvalItems(h, ns, max, es, depth, out)
    decreases es, 0
  {
    if es != [] {
      ItemIsSettled(h, g, ns, max, max', es[0], depth, out);
      var more := EvalItem(h, ns, max, es[0], depth, out);
      if more.Ok? { ItemsAreSettled(h, g, ns, max, max', es[1..], depth, more.value); }
    }
  }
}
