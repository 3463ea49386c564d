/** A module's syntax tree, reduced to what the increment codemod touches: its
    integer literal tokens, in source order, and everything else as opaque
    tokens that must come back untouched. */
module Cst {
  import opened Literals

  datatype Node = Integer(value: string) | Other(text: string)

  type Module = seq<Node>

  datatype Replaced = Done(tree: Module) | InvalidLiteral(value: string)

  predicate HasInteger(m: Module) {
    exists i :: 0 <= i < |m| && m[i].Integer?
  }

  /** Every integer literal of `m` is one that `int()` accepts. */
  predicate Convertible(m: Module) {
    forall i :: 0 <= i < |m| && m[i].Integer? ==> Parse(m[i].value).Some?
  }

  /** `b` is `a` with its literal, if it is one, raised by `k` and written by `str`. */
  predicate Shifted(a: Node, b: Node, k: nat) {
    match a
    case Other(_) => b == a
    case Integer(v) => Parse(v).Some? && b == Integer(Show(Parse(v).value + k))
  }

  /** `after` is `before` with every integer literal raised by `k`, and every
      other token, and the order of all tokens, unchanged. */
  predicate ShiftedBy(before: Module, after: Module, k: nat) {
    |after| == |before| &&
    forall i :: 0 <= i < |before| ==> Shifted(before[i], after[i], k)
  }

  /** `str(int(value) + 1)`, the replacement rule applied to each literal. */
  function IncrementLiteral(value: string): (r: Option<string>)
    ensures r.Some? <==> IsDecimal(value)
    ensures r.Some? ==> Parse(r.value) == Some(Parse(value).value + 1) && r.value != value
  {
    match Parse(value)
    case None => None
    case Some(n) =>
      ParseShow(n + 1);
      Some(Show(n + 1))
  }

  /** `v` is the text of the first integer literal of `m` that `int()` rejects. */
  predicate FirstInvalid(m: Module, v: string) {
    exists i :: 0 <= i < |m| && m[i] == Integer(v) && Parse(v).None? && Convertible(m[..i])
  }

  /** `m.replace(tree, m.Integer(), rule)`: a walk over the tokens in order that
      rewrites each integer literal by `IncrementLiteral`; the first literal
      `int()` rejects ends the walk with that literal's text. */
  function ReplaceIntegers(m: Module): (r: Replaced)
    ensures r.Done? <==> Convertible(m)
    ensures r.Done? ==> ShiftedBy(m, r.tree, 1)
    ensures r.InvalidLiteral? ==> FirstInvalid(m, r.value)
  {
    if m == [] then Done([])
    else
      var rest := ReplaceIntegers(m[1..]);
      match m[0]
      case Other(_) =>
        (match rest
         case Done(t) => Done([m[0]] + t)
         case InvalidLiteral(v) => FirstInvalidAfterHead(m, v); rest)
      case Integer(v) =>
        match IncrementLiteral(v)
        case None =>
          assert m[..0] == [];
          InvalidLiteral(v)
        case Some(w) =>
          (match rest
           case Done(t) => Done([Integer(w)] + t)
           case InvalidLiteral(u) => FirstInvalidAfterHead(m, u); rest)
  }

  lemma FirstInvalidAfterHead(m: Module, v: string)
    requires |m| > 0 && (m[0].Integer? ==> Parse(m[0].value).Some?)
    requires FirstInvalid(m[1..], v)
    ensures FirstInvalid(m, v)
  {
    var i :| 0 <= i < |m[1..]| && m[1..][i] == Integer(v) && Parse(v).None? && Convertible(m[1..][..i]);
    assert m[..i + 1] == [m[0]] + m[1..][..i];
    assert m[i + 1] == Integer(v);
  }

  /** Shifting by `j` and then by `k` is shifting by `j + k`. */
  lemma ShiftedByCompose(a: Module, b: Module, c: Module, j: nat, k: nat)
    requires ShiftedBy(a, b, j) && ShiftedBy(b, c, k)
    ensures ShiftedBy(a, c, j + k)
  {
    forall i | 0 <= i < |a| ensures Shifted(a[i], c[i], j + k) {
      assert Shifted(a[i], b[i], j) && Shifted(b[i], c[i], k);
      if a[i].Integer? {
        var n := Parse(a[i].value).value;
        ParseShow(n + j);
        assert b[i] == Integer(Show(n + j));
        assert Parse(b[i].value) == Some(n + j);
        assert c[i] == Integer(Show(n + j + k));
      }
    }
  }

  /** A shift leaves every literal convertible and keeps the literals where they were. */
  lemma ShiftedByConvertible(a: Module, b: Module, k: nat)
    requires ShiftedBy(a, b, k)
    ensures Convertible(b)
    ensures HasInteger(b) <==> HasInteger(a)
  {
  }

  /** A positive shift changes a module exactly when it has an integer literal. */
  lemma ShiftedByChanges(a: Module, b: Module, k: nat)
    requires ShiftedBy(a, b, k) && k > 0
    ensures b != a <==> HasInteger(a)
  {
    if HasInteger(a) {
      var i :| 0 <= i < |a| && a[i].Integer?;
      var n := Parse(a[i].value).value;
      ParseShow(n + k);
      assert Parse(b[i].value) != Parse(a[i].value);
    } else {
      assert forall i :: 0 <= i < |a| ==> b[i] == a[i];
    }
  }
}
