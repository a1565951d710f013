/** The condition-expression builder: a tree of predicates combined with
    NOT, AND and OR, rendered to expression text together with the alias
    table of every attribute it names and the table of every literal it
    binds. */
module Condition {
  import A = Attribute
  import opened Placeholders

  /** The store's attribute type codes, as used by `attribute_type`. */
  datatype AttributeType = S | SS | N | NS | B | BS | BOOL | NULL | L | M

  function TypeCode(t: AttributeType): string
  {
    match t
    case S => "S"
    case SS => "SS"
    case N => "N"
    case NS => "NS"
    case B => "B"
    case BS => "BS"
    case BOOL => "BOOL"
    case NULL => "NULL"
    case L => "L"
    case M => "M"
  }

  /** The literal placeholder of an `attribute_type` test: fixed by the type,
      so every test of the same type shares it. */
  function TypePlaceholder(t: AttributeType): string
  {
    ":type" + TypeCode(t)
  }

  /** Distinct types have distinct placeholders. */
  lemma TypePlaceholderInjective(t: AttributeType, u: AttributeType)
    ensures TypePlaceholder(t) == TypePlaceholder(u) <==> t == u
  {
    if TypePlaceholder(t) == TypePlaceholder(u) {
      assert TypeCode(t) == TypePlaceholder(t)[5..];
      assert TypeCode(u) == TypePlaceholder(u)[5..];
    }
  }

  /** The code of one character in a digest: its code point in decimal,
      closed by an `x`. */
  function CodePoint(c: char): string
  {
    NatToString(c as nat) + "x"
  }

  /** A deterministic, collision-free stand-in for the digest of a prefix
      (the code points of its characters, each closed by an `x`). */
  function Digest(s: string): string
  {
    if s == [] then "" else CodePoint(s[0]) + Digest(s[1..])
  }

  /** The first `x` after a code point's digits is the one closing it. */
  lemma CodePointEnd(c: char, rest: string)
    ensures forall i :: 0 <= i < |NatToString(c as nat)| ==> (CodePoint(c) + rest)[i] != 'x'
    ensures (CodePoint(c) + rest)[|NatToString(c as nat)|] == 'x'
  {
  }

  /** A concatenation splits back into its two parts. */
  lemma SplitAt(u: string, v: string)
    ensures (u + v)[..|u|] == u && (u + v)[|u|..] == v
  {
  }

  /** A code can be split off the front of a digest in only one way. */
  lemma CodePointPrefix(a: char, b: char, r1: string, r2: string)
    requires CodePoint(a) + r1 == CodePoint(b) + r2
    ensures a == b && r1 == r2
  {
    var da, db := NatToString(a as nat), NatToString(b as nat);
    var w := CodePoint(a) + r1;
    CodePointEnd(a, r1);
    CodePointEnd(b, r2);
    assert |da| == |db|;
    assert w == da + ("x" + r1) && w == db + ("x" + r2);
    assert da == w[..|da|] by {
      SplitAt(da, "x" + r1);
    }
    assert db == w[..|db|] by {
      SplitAt(db, "x" + r2);
    }
    ParseNatToString(a as nat);
    ParseNatToString(b as nat);
    assert r1 == w[|da| + 1..] == r2;
  }

  /** Different prefixes never share a digest. */
  lemma {:induction false} DigestInjective(p: string, q: string)
    ensures Digest(p) == Digest(q) ==> p == q
  {
    if Digest(p) == Digest(q) && p != [] && q != [] {
      CodePointPrefix(p[0], q[0], Digest(p[1..]), Digest(q[1..]));
      DigestInjective(p[1..], q[1..]);
      assert p == [p[0]] + p[1..];
      assert q == [q[0]] + q[1..];
    }
  }

  /** The literal placeholder of a `begins_with` test: fixed by the prefix. */
  function BeginsWithPlaceholder(prefix: string): string
  {
    ":begins_with_" + Digest(prefix)
  }

  /** Equal prefixes share a placeholder and different prefixes never
      collide. */
  lemma BeginsWithPlaceholderInjective(p: string, q: string)
    ensures BeginsWithPlaceholder(p) == BeginsWithPlaceholder(q) <==> p == q
  {
    if BeginsWithPlaceholder(p) == BeginsWithPlaceholder(q) {
      assert Digest(p) == BeginsWithPlaceholder(p)[13..];
      assert Digest(q) == BeginsWithPlaceholder(q)[13..];
      DigestInjective(p, q);
    }
  }

  /** The three kinds of literal placeholder never collide with one another:
      they differ in their second character. */
  lemma PlaceholderKindsDiffer(id: nat, t: AttributeType, prefix: string)
    ensures ValuePlaceholder(id) != TypePlaceholder(t)
    ensures ValuePlaceholder(id) != BeginsWithPlaceholder(prefix)
    ensures TypePlaceholder(t) != BeginsWithPlaceholder(prefix)
  {
    assert ValuePlaceholder(id)[1] == 'v';
    assert TypePlaceholder(t)[1] == 't';
    assert BeginsWithPlaceholder(prefix)[1] == 'b';
  }

  /** An operand of a comparison: an attribute, or a literal whose
      `:value<id>` placeholder was taken from the counter when the literal
      was supplied. */
  datatype Operand = AttrRef(name: string) | Literal(value: A.AttributeValue, id: nat)

  datatype Comparator = Eq | Ne | Lt | Le | Gt | Ge

  function Symbol(op: Comparator): string
  {
    match op
    case Eq => "="
    case Ne => "<>"
    case Lt => "<"
    case Le => "<="
    case Gt => ">"
    case Ge => ">="
  }

  datatype Predicate =
    | AttrExists(name: string)
    | AttrNotExists(name: string)
    | AttrType(name: string, t: AttributeType)
    | BeginsWith(name: string, prefix: string)
    | Compare(lhs: Operand, op: Comparator, rhs: Operand)

  datatype Cond = Leaf(p: Predicate) | Not(c: Cond) | And(l: Cond, r: Cond) | Or(l: Cond, r: Cond)

  /** The triple `build()` returns. */
  datatype Built = Built(expression: string, names: map<string, string>, values: map<string, A.AttributeValue>)

  function OperandText(o: Operand): string
  {
    match o
    case AttrRef(n) => Alias(n)
    case Literal(_, id) => ValuePlaceholder(id)
  }

  function OperandBuilt(o: Operand): Built
  {
    match o
    case AttrRef(n) => Built(Alias(n), map[Alias(n) := n], map[])
    case Literal(v, id) => Built(ValuePlaceholder(id), map[], map[ValuePlaceholder(id) := v])
  }

  function RenderPredicate(p: Predicate): Built
  {
    match p
    case AttrExists(n) => Built("attribute_exists(" + Alias(n) + ")", map[Alias(n) := n], map[])
    case AttrNotExists(n) => Built("attribute_not_exists(" + Alias(n) + ")", map[Alias(n) := n], map[])
    case AttrType(n, t) =>
      Built("attribute_type(" + Alias(n) + ", " + TypePlaceholder(t) + ")", map[Alias(n) := n],
            map[TypePlaceholder(t) := A.S(TypeCode(t))])
    case BeginsWith(n, prefix) =>
      Built("begins_with(" + Alias(n) + ", " + BeginsWithPlaceholder(prefix) + ")", map[Alias(n) := n],
            map[BeginsWithPlaceholder(prefix) := A.S(prefix)])
    case Compare(lhs, op, rhs) =>
      var l, r := OperandBuilt(lhs), OperandBuilt(rhs);
      Built(l.expression + " " + Symbol(op) + " " + r.expression, l.names + r.names, l.values + r.values)
  }

  /** Joins two rendered subtrees under a keyword; the right one is
      parenthesised and the tables are merged. */
  function Combine(l: Built, keyword: string, r: Built): Built
  {
    Built(l.expression + " " + keyword + " (" + r.expression + ")", l.names + r.names, l.values + r.values)
  }

  function Render(c: Cond): Built
  {
    match c
    case Leaf(p) => RenderPredicate(p)
    case Not(inner) =>
      var b := Render(inner);
      Built("NOT (" + b.expression + ")", b.names, b.values)
    case And(l, r) => Combine(Render(l), "AND", Render(r))
    case Or(l, r) => Combine(Render(l), "OR", Render(r))
  }

  /** The attribute names a condition refers to. */
  function Fields(c: Cond): set<string>
  {
    match c
    case Leaf(p) =>
      (match p
       case AttrExists(n) => {n}
       case AttrNotExists(n) => {n}
       case AttrType(n, _) => {n}
       case BeginsWith(n, _) => {n}
       case Compare(lhs, _, rhs) =>
         (if lhs.AttrRef? then {lhs.name} else {}) + (if rhs.AttrRef? then {rhs.name} else {}))
    case Not(inner) => Fields(inner)
    case And(l, r) => Fields(l) + Fields(r)
    case Or(l, r) => Fields(l) + Fields(r)
  }

  lemma AliasMapSingle(n: string)
    ensures AliasMap({n}) == map[Alias(n) := n]
  {
  }

  /** A predicate registers the alias of each attribute it names. */
  lemma PredicateNames(p: Predicate)
    ensures RenderPredicate(p).names == AliasMap(Fields(Leaf(p)))
  {
    match p
    case AttrExists(n) => AliasMapSingle(n);
    case AttrNotExists(n) => AliasMapSingle(n);
    case AttrType(n, _) => AliasMapSingle(n);
    case BeginsWith(n, _) => AliasMapSingle(n);
    case Compare(lhs, _, rhs) =>
      var lf := if lhs.AttrRef? then {lhs.name} else {};
      var rf := if rhs.AttrRef? then {rhs.name} else {};
      assert OperandBuilt(lhs).names == AliasMap(lf) by {
        if lhs.AttrRef? { AliasMapSingle(lhs.name); } else { AliasMapEmpty(); }
      }
      assert OperandBuilt(rhs).names == AliasMap(rf) by {
        if rhs.AttrRef? { AliasMapSingle(rhs.name); } else { AliasMapEmpty(); }
      }
      AliasMapUnion(lf, rf);
  }

  /** The alias table of a rendered condition is the union of its parts'
      tables: one entry `#n -> n` per attribute name the condition refers
      to. */
  lemma {:induction false} RenderNames(c: Cond)
    ensures Render(c).names == AliasMap(Fields(c))
  {
    match c
    case Leaf(p) =>
      PredicateNames(p);
    case Not(inner) =>
      RenderNames(inner);
    case And(l, r) =>
      RenderNames(l);
      RenderNames(r);
      AliasMapUnion(Fields(l), Fields(r));
    case Or(l, r) =>
      RenderNames(l);
      RenderNames(r);
      AliasMapUnion(Fields(l), Fields(r));
  }

  /** A field referred to any number of times has a single alias entry. */
  lemma RenderNamesCount(c: Cond)
    ensures |Render(c).names| == |Fields(c)|
  {
    RenderNames(c);
    AliasMapSize(Fields(c));
  }

  /** The literals supplied through `value(...)` in a condition, each with
      the id it took from the counter. */
  function Literals(c: Cond): set<(A.AttributeValue, nat)>
  {
    match c
    case Leaf(p) =>
      (match p
       case Compare(lhs, _, rhs) =>
         (if lhs.Literal? then {(lhs.value, lhs.id)} else {}) + (if rhs.Literal? then {(rhs.value, rhs.id)} else {})
       case _ => {})
    case Not(inner) => Literals(inner)
    case And(l, r) => Literals(l) + Literals(r)
    case Or(l, r) => Literals(l) + Literals(r)
  }

  /** The placeholders a condition binds: one per type tested, one per
      prefix tested and one per counter-allocated literal. */
  function LiteralKeys(c: Cond): set<string>
  {
    match c
    case Leaf(p) =>
      (match p
       case AttrType(_, t) => {TypePlaceholder(t)}
       case BeginsWith(_, prefix) => {BeginsWithPlaceholder(prefix)}
       case Compare(lhs, _, rhs) =>
         (if lhs.Literal? then {ValuePlaceholder(lhs.id)} else {})
         + (if rhs.Literal? then {ValuePlaceholder(rhs.id)} else {})
       case _ => {})
    case Not(inner) => LiteralKeys(inner)
    case And(l, r) => LiteralKeys(l) + LiteralKeys(r)
    case Or(l, r) => LiteralKeys(l) + LiteralKeys(r)
  }

  /** Every fixed placeholder in a value table maps to the literal it names:
      `:type<T>` to the type code, `:begins_with_<digest>` to the prefix. */
  ghost predicate FixedLiteralsAgree(values: map<string, A.AttributeValue>)
  {
    && (forall t :: TypePlaceholder(t) in values ==> values[TypePlaceholder(t)] == A.S(TypeCode(t)))
    && (forall prefix :: BeginsWithPlaceholder(prefix) in values ==> values[BeginsWithPlaceholder(prefix)] == A.S(prefix))
  }

  /** Merging two tables that agree on the fixed placeholders keeps them in
      agreement. */
  lemma MergeAgrees(a: map<string, A.AttributeValue>, b: map<string, A.AttributeValue>)
    requires FixedLiteralsAgree(a) && FixedLiteralsAgree(b)
    ensures FixedLiteralsAgree(a + b)
  {
  }

  lemma OperandAgrees(o: Operand)
    ensures FixedLiteralsAgree(OperandBuilt(o).values)
  {
    if o.Literal? {
      forall t: AttributeType
        ensures TypePlaceholder(t) !in OperandBuilt(o).values
      {
        PlaceholderKindsDiffer(o.id, t, "");
      }
      forall prefix: string
        ensures BeginsWithPlaceholder(prefix) !in OperandBuilt(o).values
      {
        PlaceholderKindsDiffer(o.id, S, prefix);
      }
    }
  }

  lemma PredicateAgrees(p: Predicate)
    ensures FixedLiteralsAgree(RenderPredicate(p).values)
  {
    var values := RenderPredicate(p).values;
    match p
    case AttrExists(_) =>
    case AttrNotExists(_) =>
    case AttrType(_, u) =>
      forall t | TypePlaceholder(t) in values
        ensures values[TypePlaceholder(t)] == A.S(TypeCode(t))
      {
        TypePlaceholderInjective(t, u);
      }
      forall prefix
        ensures BeginsWithPlaceholder(prefix) !in values
      {
        PlaceholderKindsDiffer(0, u, prefix);
      }
    case BeginsWith(_, q) =>
      forall t
        ensures TypePlaceholder(t) !in values
      {
        PlaceholderKindsDiffer(0, t, q);
      }
      forall prefix | BeginsWithPlaceholder(prefix) in values
        ensures values[BeginsWithPlaceholder(prefix)] == A.S(prefix)
      {
        BeginsWithPlaceholderInjective(prefix, q);
      }
    case Compare(lhs, _, rhs) =>
      OperandAgrees(lhs);
      OperandAgrees(rhs);
      MergeAgrees(OperandBuilt(lhs).values, OperandBuilt(rhs).values);
  }

  /** The value table of a rendered condition binds exactly the condition's
      placeholders, and every `:type<T>` and `:begins_with_<digest>` entry
      holds the literal its name stands for, so repeated tests of one type
      or one prefix share a single entry. */
  lemma {:induction false} RenderValues(c: Cond)
    ensures Render(c).values.Keys == LiteralKeys(c)
    ensures FixedLiteralsAgree(Render(c).values)
  {
    match c
    case Leaf(p) =>
      PredicateAgrees(p);
    case Not(inner) =>
      RenderValues(inner);
    case And(l, r) =>
      RenderValues(l);
      RenderValues(r);
      MergeAgrees(Render(l).values, Render(r).values);
    case Or(l, r) =>
      RenderValues(l);
      RenderValues(r);
      MergeAgrees(Render(l).values, Render(r).values);
  }

  /** No two literals of a condition share an id: what drawing every id from
      one counter guarantees. */
  ghost predicate DistinctIds(c: Cond)
  {
    forall x, y :: x in Literals(c) && y in Literals(c) && x.1 == y.1 ==> x == y
  }

  /** With distinct ids, each literal supplied through `value(...)` is bound
      under its own `:value<id>` placeholder. */
  lemma {:induction false} RenderLiterals(c: Cond)
    requires DistinctIds(c)
    ensures forall x :: x in Literals(c) ==>
              ValuePlaceholder(x.1) in Render(c).values && Render(c).values[ValuePlaceholder(x.1)] == x.0
  {
    match c
    case Leaf(p) =>
      if p.Compare? && p.lhs.Literal? && p.rhs.Literal? {
        ValuePlaceholderInjective(p.lhs.id, p.rhs.id);
      }
    case Not(inner) =>
      RenderLiterals(inner);
    case And(l, r) =>
      RenderLiterals(l);
      RenderLiterals(r);
      MergedLiterals(l, r);
    case Or(l, r) =>
      RenderLiterals(l);
      RenderLiterals(r);
      MergedLiterals(l, r);
  }

  /** The step of `RenderLiterals` for a combined condition: a literal of the
      left side is not overwritten by the right side. */
  lemma MergedLiterals(l: Cond, r: Cond)
    requires DistinctIds(l) && DistinctIds(r)
    requires forall x, y :: x in Literals(l) && y in Literals(r) && x.1 == y.1 ==> x == y
    requires forall x :: x in Literals(l) ==>
               ValuePlaceholder(x.1) in Render(l).values && Render(l).values[ValuePlaceholder(x.1)] == x.0
    requires forall x :: x in Literals(r) ==>
               ValuePlaceholder(x.1) in Render(r).values && Render(r).values[ValuePlaceholder(x.1)] == x.0
    ensures forall x :: x in Literals(l) + Literals(r) ==>
              ValuePlaceholder(x.1) in (Render(l).values + Render(r).values)
              && (Render(l).values + Render(r).values)[ValuePlaceholder(x.1)] == x.0
  {
    RightAgrees(l, r);
  }

  /** Where the right subtree also binds a left literal's placeholder, it
      binds the same value: ids are distinct across the two sides. */
  lemma RightAgrees(l: Cond, r: Cond)
    requires forall x, y :: x in Literals(l) && y in Literals(r) && x.1 == y.1 ==> x == y
    requires forall x :: x in Literals(r) ==>
               ValuePlaceholder(x.1) in Render(r).values && Render(r).values[ValuePlaceholder(x.1)] == x.0
    ensures forall x :: x in Literals(l) && ValuePlaceholder(x.1) in Render(r).values ==>
              Render(r).values[ValuePlaceholder(x.1)] == x.0
  {
    RenderValues(r);
    forall x | x in Literals(l) && ValuePlaceholder(x.1) in Render(r).values
      ensures Render(r).values[ValuePlaceholder(x.1)] == x.0
    {
      LiteralKeyOrigin(r, x.1);
      var y :| y in Literals(r) && y.1 == x.1;
      assert x == y;
    }
  }

  /** A `:value<id>` key of a rendered condition comes from one of its
      literals. */
  lemma {:induction false} LiteralKeyOrigin(c: Cond, id: nat)
    requires ValuePlaceholder(id) in LiteralKeys(c)
    ensures exists x :: x in Literals(c) && x.1 == id
  {
    match c
    case Leaf(p) =>
      match p {
        case AttrType(_, t) => PlaceholderKindsDiffer(id, t, "");
        case BeginsWith(_, prefix) => PlaceholderKindsDiffer(id, S, prefix);
        case Compare(lhs, _, rhs) =>
          if lhs.Literal? && ValuePlaceholder(id) == ValuePlaceholder(lhs.id) {
            ValuePlaceholderInjective(id, lhs.id);
            assert (lhs.value, lhs.id) in Literals(c);
          } else {
            ValuePlaceholderInjective(id, rhs.id);
            assert (rhs.value, rhs.id) in Literals(c);
          }
        case AttrExists(_) =>
        case AttrNotExists(_) =>
      }
    case Not(inner) =>
      LiteralKeyOrigin(inner, id);
    case And(l, r) =>
      if ValuePlaceholder(id) in LiteralKeys(l) { LiteralKeyOrigin(l, id); } else { LiteralKeyOrigin(r, id); }
    case Or(l, r) =>
      if ValuePlaceholder(id) in LiteralKeys(l) { LiteralKeyOrigin(l, id); } else { LiteralKeyOrigin(r, id); }
  }

  /** `value(...)`: takes the next id from the counter for the literal. */
  method ValueOperand(counter: ValueIdCounter, v: A.AttributeValue) returns (o: Operand)
    modifies counter
    ensures o == Literal(v, old(counter.next))
    ensures counter.next == old(counter.next) + 1
  {
    var id := counter.Generate();
    o := Literal(v, id);
  }

  /** `c1.and(c2.and(... cn))`: the right-nested conjunction of a chain. */
  function AndChain(cs: seq<Cond>): Cond
    requires |cs| >= 1
  {
    if |cs| == 1 then cs[0] else And(cs[0], AndChain(cs[1..]))
  }

  /** The rendered parts of a chain joined by ` AND (`, before any closing
      parenthesis. */
  function OpenChain(cs: seq<Cond>): string
    requires |cs| >= 1
  {
    if |cs| == 1 then Render(cs[0]).expression
    else Render(cs[0]).expression + " AND (" + OpenChain(cs[1..])
  }

  function ClosingParens(n: nat): string
  {
    if n == 0 then "" else ClosingParens(n - 1) + ")"
  }

  /** A chain of n conjuncts renders as its parts joined by ` AND (` and
      closed by n - 1 parentheses at the very end. */
  lemma {:induction false} AndChainRender(cs: seq<Cond>)
    requires |cs| >= 1
    ensures Render(AndChain(cs)).expression == OpenChain(cs) + ClosingParens(|cs| - 1)
  {
    if |cs| > 1 {
      var head, open, close := Render(cs[0]).expression, OpenChain(cs[1..]), ClosingParens(|cs| - 2);
      AndChainRender(cs[1..]);
      assert head + " AND (" + (open + close) + ")" == (head + " AND (" + open) + (close + ")");
    }
  }

  /** An `attr_exists` leaf: its alias in the text and in the name table. */
  lemma ExistsLeaf(n: string)
    ensures Render(Leaf(AttrExists(n))) == Built("attribute_exists(" + Alias(n) + ")", map[Alias(n) := n], map[])
  {
  }

  /** An `attr_not_exists` leaf: its alias in the text and in the name table. */
  lemma NotExistsLeaf(n: string)
    ensures Render(Leaf(AttrNotExists(n))) == Built("attribute_not_exists(" + Alias(n) + ")", map[Alias(n) := n], map[])
  {
  }

  /** `attr_exists(Name)` alone. */
  lemma AttrExistsExample()
    ensures Render(Leaf(AttrExists("name"))) == Built("attribute_exists(#name)", map["#name" := "name"], map[])
  {
    ExistsLeaf("name");
    assert Alias("name") == "#name";
  }

  /** The text of a negated `attribute_exists(#name)`, piece by piece. */
  lemma NotText()
    ensures "NOT (" + "attribute_exists(#name)" + ")" == "NOT (attribute_exists(#name))"
  {
    var a, b, c, whole := "NOT (", "attribute_exists(#name)", ")", "NOT (attribute_exists(#name))";
    assert forall i :: 0 <= i < |a| ==> a[i] == whole[i];
    assert forall i :: 0 <= i < |b| ==> b[i] == whole[|a| + i];
    assert forall i :: 0 <= i < |c| ==> c[i] == whole[|a| + |b| + i];
  }

  /** `not().attr_exists(Name)`. */
  lemma NotAttrExistsExample()
    ensures Render(Not(Leaf(AttrExists("name"))))
            == Built("NOT (attribute_exists(#name))", map["#name" := "name"], map[])
  {
    AttrExistsExample();
    NotText();
  }

  /** `attr_not_exists(Name)` alone. */
  lemma AttrNotExistsExample()
    ensures Render(Leaf(AttrNotExists("name"))) == Built("attribute_not_exists(#name)", map["#name" := "name"], map[])
  {
    NotExistsLeaf("name");
    assert Alias("name") == "#name";
  }

  /** The `Id` instances of `ExistsLeaf` and `NotExistsLeaf` that the
      conjunction examples are built from, as literal text. */
  lemma IdExistsLeaf()
    ensures Render(Leaf(AttrExists("id"))) == Built("attribute_exists(#id)", map["#id" := "id"], map[])
  {
    ExistsLeaf("id");
    assert Alias("id") == "#id";
  }

  lemma IdNotExistsLeaf()
    ensures Render(Leaf(AttrNotExists("id"))) == Built("attribute_not_exists(#id)", map["#id" := "id"], map[])
  {
    NotExistsLeaf("id");
    assert Alias("id") == "#id";
  }

  /** The two names of the conjunction examples, merged. */
  lemma NameIdNames()
    ensures map["#name" := "name"] + map["#id" := "id"] == map["#name" := "name", "#id" := "id"]
  {
  }

  /** `attr_not_exists(Name).and(attr_not_exists(Id))`. */
  lemma NotExistsAndExample()
    ensures Render(And(Leaf(AttrNotExists("name")), Leaf(AttrNotExists("id"))))
            == Built("attribute_not_exists(#name)" + " AND (" + "attribute_not_exists(#id)" + ")",
                     map["#name" := "name", "#id" := "id"], map[])
  {
    AttrNotExistsExample();
    IdNotExistsLeaf();
    NameIdNames();
  }

  /** `attr_type(Id, S)`: the literal is the type code under `:typeS`. */
  lemma AttrTypeExample()
    ensures Render(Leaf(AttrType("id", S)))
            == Built("attribute_type(#id, :typeS)", map["#id" := "id"], map[":typeS" := A.S("S")])
  {
    assert Alias("id") == "#id";
    assert TypePlaceholder(S) == ":typeS";
  }

  /** `begins_with(Name, "boku")`: the prefix is bound under its digest
      placeholder. */
  lemma BeginsWithExample()
    ensures Render(Leaf(BeginsWith("name", "boku")))
            == Built("begins_with(#name, " + BeginsWithPlaceholder("boku") + ")", map["#name" := "name"],
                     map[BeginsWithPlaceholder("boku") := A.S("boku")])
  {
    var placeholder := BeginsWithPlaceholder("boku");
    assert Render(Leaf(BeginsWith("name", "boku")))
        == Built("begins_with(" + Alias("name") + ", " + placeholder + ")", map[Alias("name") := "name"],
                 map[placeholder := A.S("boku")]);
    assert Alias("name") == "#name";
    assert "begins_with(" + "#name" + ", " == "begins_with(#name, ";
  }

  /** `attr_exists(Name).and(attr_exists(Id))`. */
  lemma AndExample()
    ensures Render(And(Leaf(AttrExists("name")), Leaf(AttrExists("id"))))
            == Built("attribute_exists(#name)" + " AND (" + "attribute_exists(#id)" + ")",
                     map["#name" := "name", "#id" := "id"], map[])
  {
    AttrExistsExample();
    IdExistsLeaf();
    NameIdNames();
  }

  /** The chain `Name and (Id and (Id and Id))` of the three-`and` example. */
  function ThreeAnd(): Cond
  {
    AndChain([Leaf(AttrExists("name")), Leaf(AttrExists("id")), Leaf(AttrExists("id")), Leaf(AttrExists("id"))])
  }

  lemma ThreeAndShape()
    ensures ThreeAnd() == And(Leaf(AttrExists("name")), And(Leaf(AttrExists("id")), And(Leaf(AttrExists("id")), Leaf(AttrExists("id")))))
  {
    var name, id := Leaf(AttrExists("name")), Leaf(AttrExists("id"));
    var cs := [name, id, id, id];
    assert cs[1..] == [id, id, id] && cs[1..][1..] == [id, id] && cs[1..][1..][1..] == [id];
  }

  lemma ThreeAndText()
    ensures Render(ThreeAnd()).expression
            == "attribute_exists(#name)" + " AND (" + "attribute_exists(#id)" + " AND (" + "attribute_exists(#id)"
               + " AND (" + "attribute_exists(#id)" + ")))"
  {
    var name, id := Leaf(AttrExists("name")), Leaf(AttrExists("id"));
    var cs := [name, id, id, id];
    AttrExistsExample();
    IdExistsLeaf();
    assert cs[1..] == [id, id, id] && cs[1..][1..] == [id, id] && cs[1..][1..][1..] == [id];
    AndChainRender(cs);
    assert ClosingParens(3) == ")))";
  }

  /** Three nested `and`s over Name, Id, Id, Id: right-nested text, one
      alias per distinct name, no values. */
  lemma ThreeAndExample()
    ensures Render(ThreeAnd())
            == Built("attribute_exists(#name)" + " AND (" + "attribute_exists(#id)" + " AND (" + "attribute_exists(#id)"
                     + " AND (" + "attribute_exists(#id)" + ")))",
                     map["#name" := "name", "#id" := "id"], map[])
  {
    ThreeAndText();
    ThreeAndShape();
    AttrExistsExample();
    IdExistsLeaf();
    assert map["#id" := "id"] + (map["#id" := "id"] + map["#id" := "id"]) == map["#id" := "id"];
    NameIdNames();
  }

  /** `attr(Name).eq_attr(Name)`: one alias entry for both sides. */
  lemma AttrEqAttrExample()
    ensures Render(Leaf(Compare(AttrRef("name"), Eq, AttrRef("name"))))
            == Built("#name = #name", map["#name" := "name"], map[])
  {
    assert Alias("name") == "#name";
  }

  /** The comparison `:value0 = #name` of a literal under id 0 against `Name`. */
  lemma ValueEqAttrText()
    ensures Render(Leaf(Compare(Literal(A.S("bokuweb"), 0), Eq, AttrRef("name"))))
            == Built(":value0 = #name", map["#name" := "name"], map[":value0" := A.S("bokuweb")])
  {
    assert DigitChar(0) == '0';
    assert NatToString(0) == "0";
    assert ValuePlaceholder(0) == ":value0";
    assert Alias("name") == "#name";
  }

  /** `reset_value_id()` then `value("bokuweb").eq_attr(Name)`: the literal
      takes id 0 and stays on the left. */
  method ValueEqAttrExample(counter: ValueIdCounter) returns (built: Built)
    modifies counter
    ensures built == Built(":value0 = #name", map["#name" := "name"], map[":value0" := A.S("bokuweb")])
    ensures counter.next == 1
  {
    counter.Reset();
    var value := ValueOperand(counter, A.S("bokuweb"));
    built := Render(Leaf(Compare(value, Eq, AttrRef("name"))));
    ValueEqAttrText();
  }
}
