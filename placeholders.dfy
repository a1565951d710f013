/** Expression placeholders: the `#name` alias of an attribute name, the
    `:valueN` placeholder of a counter-allocated literal, and the process-wide
    counter behind the latter. */
module Placeholders {

  /** The name placeholder registered for an attribute name. */
  function Alias(name: string): string
  {
    "#" + name
  }

  /** Distinct names get distinct aliases. */
  lemma AliasInjective()
    ensures forall a, b :: Alias(a) == Alias(b) ==> a == b
  {
    forall a, b | Alias(a) == Alias(b)
      ensures a == b
    {
      assert a == Alias(a)[1..];
    }
  }

  /** The alias table for a set of referenced attribute names. */
  function AliasMap(fields: set<string>): (m: map<string, string>)
    ensures m.Keys == set f | f in fields :: Alias(f)
    ensures forall f :: f in fields ==> m[Alias(f)] == f
  {
    AliasInjective();
    map f | f in fields :: Alias(f) := f
  }

  /** One alias per distinct attribute name, however often it is referenced. */
  lemma {:induction false} AliasMapSize(fields: set<string>)
    ensures |AliasMap(fields)| == |fields|
    decreases fields
  {
    if fields != {} {
      var f :| f in fields;
      var rest := fields - {f};
      AliasMapSize(rest);
      assert Alias(f) !in AliasMap(rest) by {
        AliasInjective();
      }
      assert AliasMap(fields) == AliasMap(rest)[Alias(f) := f];
    }
  }

  lemma AliasMapEmpty()
    ensures AliasMap({}) == map[]
  {
  }

  /** Registering one more name extends the alias table by its alias. */
  lemma AliasMapInsert(fields: set<string>, f: string)
    ensures AliasMap(fields)[Alias(f) := f] == AliasMap(fields + {f})
  {
  }

  /** Tables merge as a union; alias tables of two name sets merge into the
      alias table of the union. */
  lemma AliasMapUnion(a: set<string>, b: set<string>)
    ensures AliasMap(a) + AliasMap(b) == AliasMap(a + b)
  {
  }

  /** The decimal digit for `d`. */
  function DigitChar(d: nat): (c: char)
    requires d < 10
    ensures '0' <= c <= '9'
  {
    (48 + d) as char
  }

  /** The value of a decimal digit character; 0 for anything else. */
  function DigitValue(c: char): nat
  {
    if '0' <= c <= '9' then c as int - 48 else 0
  }

  /** Decimal text of `n` without leading zeros, as Rust's `format!("{}", n)`. */
  function NatToString(n: nat): (s: string)
    ensures |s| >= 1
    ensures forall i :: 0 <= i < |s| ==> '0' <= s[i] <= '9'
    ensures |s| > 1 ==> s[0] != '0'
    decreases n
  {
    if n < 10 then [DigitChar(n)] else NatToString(n / 10) + [DigitChar(n % 10)]
  }

  /** Reads a string of decimal digits back into a number. */
  function ParseDecimal(s: string): nat
  {
    if s == [] then 0 else ParseDecimal(s[..|s| - 1]) * 10 + DigitValue(s[|s| - 1])
  }

  /** Decimal rendering is undone by parsing, so no two ids share a text. */
  lemma {:induction false} ParseNatToString(n: nat)
    ensures ParseDecimal(NatToString(n)) == n
    decreases n
  {
    var s := NatToString(n);
    if n < 10 {
      assert s[..|s| - 1] == [];
    } else {
      assert s[..|s| - 1] == NatToString(n / 10);
      ParseNatToString(n / 10);
    }
  }

  /** The placeholder `:value<id>` allocated for a counter-based literal. */
  function ValuePlaceholder(id: nat): string
  {
    ":value" + NatToString(id)
  }

  /** Distinct ids give distinct placeholders. */
  lemma ValuePlaceholderInjective(a: nat, b: nat)
    ensures ValuePlaceholder(a) == ValuePlaceholder(b) <==> a == b
  {
    if ValuePlaceholder(a) == ValuePlaceholder(b) {
      assert NatToString(a) == ValuePlaceholder(a)[6..];
      assert NatToString(b) == ValuePlaceholder(b)[6..];
      ParseNatToString(a);
      ParseNatToString(b);
    }
  }

  /** Distinct ids give distinct placeholders, for all pairs at once. */
  lemma ValuePlaceholdersDistinct()
    ensures forall a: nat, b: nat :: ValuePlaceholder(a) == ValuePlaceholder(b) ==> a == b
  {
    forall a: nat, b: nat | ValuePlaceholder(a) == ValuePlaceholder(b)
      ensures a == b
    {
      ValuePlaceholderInjective(a, b);
    }
  }

  /** The placeholders of the `n` consecutive ids starting at `start`. */
  function PlaceholderRange(start: nat, n: nat): set<string>
  {
    set id: nat | start <= id < start + n :: ValuePlaceholder(id)
  }

  /** A range grows by the placeholder of its next id. */
  lemma PlaceholderRangeSnoc(start: nat, n: nat)
    ensures PlaceholderRange(start, n + 1) == PlaceholderRange(start, n) + {ValuePlaceholder(start + n)}
  {
    var whole, init := PlaceholderRange(start, n + 1), PlaceholderRange(start, n);
    forall k | k in whole
      ensures k in init + {ValuePlaceholder(start + n)}
    {
      var id: nat :| start <= id < start + n + 1 && k == ValuePlaceholder(id);
      if id < start + n {
        assert k in init;
      }
    }
    forall k | k in init
      ensures k in whole
    {
      var id: nat :| start <= id < start + n && k == ValuePlaceholder(id);
      assert start <= id < start + n + 1;
    }
  }

  /** A range of `n` ids has `n` distinct placeholders. */
  lemma {:induction false} PlaceholderRangeSize(start: nat, n: nat)
    ensures |PlaceholderRange(start, n)| == n
  {
    if n > 0 {
      PlaceholderRangeSize(start, n - 1);
      PlaceholderRangeSnoc(start, n - 1);
      InPlaceholderRange(start, n - 1, start + n - 1);
    }
  }

  /** An id's placeholder lies in a range exactly when the id does. */
  lemma InPlaceholderRange(start: nat, n: nat, id: nat)
    ensures ValuePlaceholder(id) in PlaceholderRange(start, n) <==> start <= id < start + n
  {
    ValuePlaceholdersDistinct();
  }

  /** The global monotonic id source (`generate_value_id` / `reset_value_id`).
      It is passed explicitly; atomicity is not modelled. */
  class ValueIdCounter {
    var next: nat

    constructor ()
      ensures next == 0
    {
      next := 0;
    }

    /** Hands out the current id and advances the counter by one. */
    method Generate() returns (id: nat)
      modifies this
      ensures id == old(next)
      ensures next == old(next) + 1
    {
      id := next;
      next := next + 1;
    }

    /** Test-only reset: the next id handed out is 0. */
    method Reset()
      modifies this
      ensures next == 0
    {
      next := 0;
    }
  }
}
