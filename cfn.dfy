/** CloudFormation template values as the assembler's cfndsl calls build them.
    The DSL functions (`Ref`, `FnJoin`, `FnSub`, `FnIf`, ...) are recorded as
    constructors; how the DSL serialises them is not modelled. */
module Cfn {

  datatype Value =
    | Null                                        // Ruby nil
    | Bool(b: bool)
    | Num(n: int)
    | Str(s: string)
    | Ref(name: string)                           // Ref('X')
    | GetAtt(resource: string, attribute: string) // FnGetAtt('X', 'Attr')
    | Join(separator: string, parts: seq<Value>)  // FnJoin(sep, [...])
    | Sub(template: string)                       // FnSub("...")
    | If(condition: string, whenTrue: Value, whenFalse: Value) // FnIf(...)
    | Equals(left: Value, right: Value)           // FnEquals(...)
    | Not(operand: Value)                         // FnNot(...)
    | Base64(operand: Value)                      // FnBase64(...)
    | List(items: seq<Value>)                     // a Ruby array literal
    | Hash(entries: seq<(string, Value)>)         // a Ruby hash literal, in written order
    | Interp(parts: seq<Value>)                   // a Ruby string "...#{v}..."
    | Call(helper: string, args: seq<Value>)      // a helper defined outside the template file

  /** Ruby truthiness: everything except nil and false. */
  predicate Truthy(v: Value)
  {
    v != Null && v != Bool(false)
  }

  /** Ruby's `v || default`. */
  function Or(v: Value, default: Value): Value
  {
    if Truthy(v) then v else default
  }

  /** Ruby's `hash[key]` on a configuration hash: nil when the key is missing. */
  function Fetch(h: map<string, Value>, key: string): Value
  {
    if key in h then h[key] else Null
  }

  /** The logical names a value refers to, through `Ref` or `FnGetAtt`. */
  function Refs(v: Value): set<string>
    decreases v, 1
  {
    match v
    case Ref(n) => {n}
    case GetAtt(r, _) => {r}
    case Join(_, ps) => RefsOfSeq(ps)
    case If(_, t, f) => Refs(t) + Refs(f)
    case Equals(l, r) => Refs(l) + Refs(r)
    case Not(o) => Refs(o)
    case Base64(o) => Refs(o)
    case List(items) => RefsOfSeq(items)
    case Hash(entries) => RefsOfEntries(entries)
    case Interp(ps) => RefsOfSeq(ps)
    case Call(_, args) => RefsOfSeq(args)
    case _ => {}
  }

  function RefsOfSeq(vs: seq<Value>): set<string>
    decreases vs, 0
  {
    if vs == [] then {} else Refs(vs[0]) + RefsOfSeq(vs[1..])
  }

  function RefsOfEntries(es: seq<(string, Value)>): set<string>
    decreases es, 0
  {
    if es == [] then {} else
      var (_, v) := es[0];
      assert v < es[0];
      Refs(v) + RefsOfEntries(es[1..])
  }

  lemma {:induction false} RefsOfSeqAppend(a: seq<Value>, b: seq<Value>)
    ensures RefsOfSeq(a + b) == RefsOfSeq(a) + RefsOfSeq(b)
  {
    if a == [] {
      assert a + b == b;
    } else {
      assert (a + b)[1..] == a[1..] + b;
      RefsOfSeqAppend(a[1..], b);
    }
  }

  /** A value's references are bounded by those of the elements it was built from. */
  lemma {:induction false} RefsOfSeqMember(vs: seq<Value>, i: nat)
    requires i < |vs|
    ensures Refs(vs[i]) <= RefsOfSeq(vs)
  {
    if i > 0 {
      RefsOfSeqMember(vs[1..], i - 1);
    }
  }

  lemma {:induction false} RefsOfSeqBound(vs: seq<Value>, allowed: set<string>)
    requires forall i :: 0 <= i < |vs| ==> Refs(vs[i]) <= allowed
    ensures RefsOfSeq(vs) <= allowed
  {
    if vs != [] {
      RefsOfSeqBound(vs[1..], allowed);
    }
  }

  lemma {:induction false} RefsOfEntriesMember(es: seq<(string, Value)>, i: nat)
    requires i < |es|
    ensures Refs(es[i].1) <= RefsOfEntries(es)
  {
    if i > 0 {
      RefsOfEntriesMember(es[1..], i - 1);
    }
  }

  lemma RefsOfOne(a: Value)
    ensures RefsOfSeq([a]) == Refs(a)
  {
    assert [a][1..] == [];
  }

  lemma RefsOfTwo(a: Value, b: Value)
    ensures RefsOfSeq([a, b]) == Refs(a) + Refs(b)
  {
    assert [a, b][1..] == [b];
    RefsOfOne(b);
  }

  lemma RefsOfThree(a: Value, b: Value, c: Value)
    ensures RefsOfSeq([a, b, c]) == Refs(a) + Refs(b) + Refs(c)
  {
    assert [a, b, c][1..] == [b, c];
    RefsOfTwo(b, c);
  }

  lemma RefsOfOneEntry(a: (string, Value))
    ensures RefsOfEntries([a]) == Refs(a.1)
  {
    assert [a][1..] == [];
  }

  lemma RefsOfTwoEntries(a: (string, Value), b: (string, Value))
    ensures RefsOfEntries([a, b]) == Refs(a.1) + Refs(b.1)
  {
    assert [a, b][1..] == [b];
    RefsOfOneEntry(b);
  }

  lemma RefsOfThreeEntries(a: (string, Value), b: (string, Value), c: (string, Value))
    ensures RefsOfEntries([a, b, c]) == Refs(a.1) + Refs(b.1) + Refs(c.1)
  {
    assert [a, b, c][1..] == [b, c];
    RefsOfTwoEntries(b, c);
  }
}
