/**
 * The fragment of PromQL the correlator relies on: label matchers, selector nodes and an
 * abstract expression tree with the pre-order walk of the Prometheus parser (`parser.Inspect`)
 * and `parser.ExtractSelectors` defined on it. The parser itself is not part of this model:
 * callers receive it as a function from expression text to a tree.
 */
module PromQL {
  import opened Wrappers

  /** A label set (`model.LabelSet`, `labels.Labels`). */
  type Labels = map<string, string>

  /** Indexing a Go map: the value under `key`, or the empty string when the key is absent. */
  function LabelValue(ls: Labels, key: string): string {
    if key in ls then ls[key] else ""
  }

  datatype MatchType = MatchEqual | MatchNotEqual | MatchRegexp | MatchNotRegexp

  datatype Matcher = Matcher(kind: MatchType, name: string, value: string)

  /**
   * labels.Matcher.Matches. Equality and inequality are concrete; the regular-expression engine
   * is the parameter `regex(pattern, value)`.
   */
  function Matches(m: Matcher, s: string, regex: (string, string) -> bool): bool {
    match m.kind
    case MatchEqual => s == m.value
    case MatchNotEqual => s != m.value
    case MatchRegexp => regex(m.value, s)
    case MatchNotRegexp => !regex(m.value, s)
  }

  /** The negated operators accept exactly the values the positive ones reject. */
  lemma NegatedMatchers(name: string, value: string, s: string, regex: (string, string) -> bool)
    ensures Matches(Matcher(MatchNotEqual, name, value), s, regex) == !Matches(Matcher(MatchEqual, name, value), s, regex)
    ensures Matches(Matcher(MatchNotRegexp, name, value), s, regex) == !Matches(Matcher(MatchRegexp, name, value), s, regex)
    ensures Matches(Matcher(MatchEqual, name, value), s, regex) <==> s == value
  {
  }

  /** `parser.START` / `parser.END` of an `@ start()` / `@ end()` modifier. */
  datatype AtEdge = NoEdge | Start | End

  /** The fields of a `parser.VectorSelector` that the core reads. */
  datatype Selector = Selector(matchers: seq<Matcher>, originalOffset: int, timestamp: Option<int>, startOrEnd: AtEdge)

  /**
   * An abstract PromQL syntax tree: selector nodes, and every other node kind (calls,
   * aggregations, binary and unary operators, literals, subqueries) as an `Operation` with its
   * child expressions in the order `parser.Children` lists them (for an aggregation, the
   * aggregated expression comes before the parameter).
   */
  datatype Expr =
    | VectorSelector(sel: Selector)
    | MatrixSelector(sel: Selector, range: nat)
    | Operation(kind: string, args: seq<Expr>)

  /**
   * The nodes in the order `parser.Inspect` visits them: a node before its children, children in
   * `parser.Children` order. The child of a matrix selector is its inner vector selector.
   */
  function PreOrder(e: Expr): (nodes: seq<Expr>)
    decreases e
    ensures |nodes| > 0 && nodes[0] == e
  {
    match e
    case VectorSelector(_) => [e]
    case MatrixSelector(s, _) => [e, VectorSelector(s)]
    case Operation(_, args) => [e] + PreOrderAll(args)
  }

  function PreOrderAll(es: seq<Expr>): seq<Expr>
    decreases es
  {
    if es == [] then [] else PreOrder(es[0]) + PreOrderAll(es[1..])
  }

  /** The matcher groups of the vector-selector nodes among `nodes`, in order. */
  function VectorMatchers(nodes: seq<Expr>): seq<seq<Matcher>> {
    if nodes == [] then []
    else
      var last := nodes[|nodes| - 1];
      VectorMatchers(nodes[..|nodes| - 1]) + (if last.VectorSelector? then [last.sel.matchers] else [])
  }

  /** parser.ExtractSelectors: one matcher group per vector selector, in pre-order. */
  function ExtractSelectors(e: Expr): seq<seq<Matcher>> {
    VectorMatchers(PreOrder(e))
  }

  lemma {:induction false} VectorMatchersAppend(a: seq<Expr>, b: seq<Expr>)
    ensures VectorMatchers(a + b) == VectorMatchers(a) + VectorMatchers(b)
    decreases |b|
  {
    if b == [] {
      assert a + b == a;
    } else {
      var b' := b[..|b| - 1];
      assert (a + b)[..|a + b| - 1] == a + b';
      assert (a + b)[|a + b| - 1] == b[|b| - 1];
      VectorMatchersAppend(a, b');
    }
  }

  /** A range vector such as `rate(x[1m])`'s argument yields the matchers of its inner selector. */
  lemma MatrixSelectorGroups(s: Selector, range: nat)
    ensures ExtractSelectors(MatrixSelector(s, range)) == [s.matchers]
  {
    var nodes := [MatrixSelector(s, range), VectorSelector(s)];
    assert PreOrder(MatrixSelector(s, range)) == nodes;
    assert nodes[..1] == [MatrixSelector(s, range)];
    assert nodes[..1][..0] == [];
    assert VectorMatchers(nodes[..1]) == [];
    assert VectorMatchers(nodes) == VectorMatchers(nodes[..1]) + [s.matchers];
  }

  /** The same tree with every `offset` and `@` modifier removed. */
  function StripSelector(s: Selector): Selector {
    s.(originalOffset := 0, timestamp := None, startOrEnd := NoEdge)
  }

  function StripModifiers(e: Expr): (r: Expr)
    decreases e
  {
    match e
    case VectorSelector(s) => VectorSelector(StripSelector(s))
    case MatrixSelector(s, range) => MatrixSelector(StripSelector(s), range)
    case Operation(kind, args) => Operation(kind, StripAll(args))
  }

  /** StripModifiers applied to each element. */
  function StripAll(es: seq<Expr>): (r: seq<Expr>)
    decreases es
    ensures |r| == |es|
  {
    if es == [] then [] else [StripModifiers(es[0])] + StripAll(es[1..])
  }

  lemma {:induction false} StripAllAppend(a: seq<Expr>, b: seq<Expr>)
    ensures StripAll(a + b) == StripAll(a) + StripAll(b)
    decreases |a|
  {
    if a == [] {
      assert a + b == b;
    } else {
      assert (a + b)[1..] == a[1..] + b;
      StripAllAppend(a[1..], b);
    }
  }

  /** Removing modifiers commutes with the walk: the walk of the stripped tree is the stripped walk. */
  lemma {:induction false} PreOrderStrip(e: Expr)
    decreases e
    ensures PreOrder(StripModifiers(e)) == StripAll(PreOrder(e))
  {
    match e
    case VectorSelector(_) =>
    case MatrixSelector(s, range) =>
      var nodes := [MatrixSelector(s, range), VectorSelector(s)];
      var s' := StripSelector(s);
      assert PreOrder(e) == nodes;
      assert PreOrder(StripModifiers(e)) == [MatrixSelector(s', range), VectorSelector(s')];
      assert nodes[1..] == [VectorSelector(s)];
      assert nodes[1..][1..] == [];
      assert StripAll(nodes[1..]) == [VectorSelector(s')] + StripAll([]);
    case Operation(kind, args) =>
      PreOrderAllStrip(args);
      StripAllAppend([e], PreOrderAll(args));
  }

  lemma {:induction false} PreOrderAllStrip(es: seq<Expr>)
    decreases es
    ensures PreOrderAll(StripAll(es)) == StripAll(PreOrderAll(es))
  {
    if es != [] {
      var r := StripAll(es);
      assert r[0] == StripModifiers(es[0]) && r[1..] == StripAll(es[1..]);
      PreOrderStrip(es[0]);
      PreOrderAllStrip(es[1..]);
      StripAllAppend(PreOrder(es[0]), PreOrderAll(es[1..]));
    }
  }
}
