/** JSON trees, the length of their ASCII encoding, and how dictionaries are updated. */
module JsonSize {
  import opened Prelude

  /** A tree as json.dumps sees it.  An atom is anything but a string, count, list or object (true,
      false, null, a foreign value); only the length of its encoding matters here. */
  datatype Json =
    | Str(s: string)
    | Num(n: nat)
    | Atom(size: nat)
    | Arr(items: seq<Json>)
    | Obj(fields: seq<Field>)
  datatype Field = Field(key: string, value: Json)

  const TRUE := Atom(4)
  const NULL := Atom(4)

  function Digits(n: nat): nat { if n < 10 then 1 else 1 + Digits(n / 10) }

  /** What one character costs: itself, a two-character escape, or one or two \uXXXX escapes. */
  function Cost(c: char): nat {
    if c == '\"' || c == '\\' || c == '\n' || c == '\r' || c == '\t' || c == '\U{8}' || c == '\U{C}' then 2
    else if ' ' <= c <= '~' then 1
    else if c <= '\U{FFFF}' then 6
    else 12
  }

  function Chars(s: string): nat { if s == [] then 0 else Cost(s[0]) + Chars(s[1..]) }

  function Size(j: Json): nat
    decreases j, 1
  {
    match j
    case Str(s) => 2 + Chars(s)
    case Num(n) => Digits(n)
    case Atom(size) => size
    case Arr(items) => 2 + ItemSum(items) + Separators(|items|)
    case Obj(fields) => 2 + FieldSum(fields) + Separators(|fields|)
  }

  function Separators(n: nat): nat { if n == 0 then 0 else 2 * (n - 1) }

  function ItemSum(items: seq<Json>): nat
    decreases items, 0
  {
    if items == [] then 0 else Size(items[0]) + ItemSum(items[1..])
  }

  function EntrySize(f: Field): nat
    decreases f, 2
  {
    Chars(f.key) + 4 + Size(f.value)
  }

  function FieldSum(fields: seq<Field>): nat
    decreases fields, 0
  {
    if fields == [] then 0 else EntrySize(fields[0]) + FieldSum(fields[1..])
  }

  lemma {:induction false} CharsConcat(a: string, b: string)
    ensures Chars(a + b) == Chars(a) + Chars(b)
  {
    if a == [] {
      assert a + b == b;
    } else {
      assert (a + b)[1..] == a[1..] + b;
      CharsConcat(a[1..], b);
    }
  }

  /** Every character costs at least one, so a longer prefix costs at least as many more. */
  lemma {:induction false} CharsAtLeastLength(s: string)
    ensures Chars(s) >= |s|
  {
    if s != [] { CharsAtLeastLength(s[1..]); }
  }

  lemma PrefixCosts(s: string, n: nat, m: nat)
    requires n <= m <= |s|
    ensures Chars(s[..n]) + (m - n) <= Chars(s[..m])
  {
    assert s[..m] == s[..n] + s[n..m];
    CharsConcat(s[..n], s[n..m]);
    CharsAtLeastLength(s[n..m]);
  }

  lemma {:induction false} DigitsMonotone(n: nat, m: nat)
    requires n <= m
    ensures Digits(n) <= Digits(m)
  {
    if n >= 10 { DigitsMonotone(n / 10, m / 10); }
  }

  // ------------------------------------------------------------------
  // Dictionaries
  // ------------------------------------------------------------------

  /** d[k] = v: in place when the key is there, at the end otherwise. */
  function Put(fields: seq<Field>, k: string, v: Json): seq<Field> {
    if fields == [] then [Field(k, v)]
    else if fields[0].key == k then [Field(k, v)] + fields[1..]
    else [fields[0]] + Put(fields[1..], k, v)
  }

  function Get(fields: seq<Field>, k: string): Option<Json> {
    if fields == [] then None else if fields[0].key == k then Some(fields[0].value) else Get(fields[1..], k)
  }

  /** {**a, **b} */
  function Merge(a: seq<Field>, b: seq<Field>): seq<Field>
    decreases b
  {
    if b == [] then a else Merge(Put(a, b[0].key, b[0].value), b[1..])
  }

  ghost predicate DistinctKeys(fields: seq<Field>) {
    forall i, j :: 0 <= i < j < |fields| ==> fields[i].key != fields[j].key
  }

  lemma {:induction false} PutGet(fields: seq<Field>, k: string, v: Json, q: string)
    ensures Get(Put(fields, k, v), q) == if q == k then Some(v) else Get(fields, q)
  {
    if fields != [] && fields[0].key != k { PutGet(fields[1..], k, v, q); }
  }

  lemma {:induction false} PutSize(fields: seq<Field>, k: string, v: Json)
    ensures match Get(fields, k)
            case Some(was) =>
              FieldSum(Put(fields, k, v)) + Size(was) == FieldSum(fields) + Size(v) && |Put(fields, k, v)| == |fields|
            case None =>
              FieldSum(Put(fields, k, v)) == FieldSum(fields) + EntrySize(Field(k, v))
                && |Put(fields, k, v)| == |fields| + 1
  {
    if fields != [] && fields[0].key != k {
      PutSize(fields[1..], k, v);
    }
  }

  lemma {:induction false} GetAmong(fields: seq<Field>, k: string)
    ensures Get(fields, k) == None <==> forall i :: 0 <= i < |fields| ==> fields[i].key != k
    ensures Get(fields, k).Some? ==> Field(k, Get(fields, k).value) in fields
  {
    if fields != [] {
      GetAmong(fields[1..], k);
      assert fields == [fields[0]] + fields[1..];
    }
  }

  /** In {**a, **b} every key of b has b's value, and every other key has a's. */
  lemma {:induction false} MergeGet(a: seq<Field>, b: seq<Field>, k: string)
    requires DistinctKeys(b)
    ensures Get(Merge(a, b), k) == if Get(b, k).Some? then Get(b, k) else Get(a, k)
    decreases b
  {
    if b != [] {
      assert DistinctKeys(b[1..]);
      MergeGet(Put(a, b[0].key, b[0].value), b[1..], k);
      PutGet(a, b[0].key, b[0].value, k);
      GetAmong(b[1..], b[0].key);
    }
  }

  lemma {:induction false} MergeSums(a: seq<Field>, b: seq<Field>)
    ensures FieldSum(Merge(a, b)) <= FieldSum(a) + FieldSum(b) && |Merge(a, b)| <= |a| + |b|
    ensures |a| <= |Merge(a, b)|
    decreases b
  {
    if b != [] {
      PutSize(a, b[0].key, b[0].value);
      MergeSums(Put(a, b[0].key, b[0].value), b[1..]);
    }
  }

  lemma {:induction false} DisjointMergeSums(a: seq<Field>, b: seq<Field>)
    requires DistinctKeys(b) && forall f :: f in b ==> Get(a, f.key) == None
    ensures FieldSum(Merge(a, b)) == FieldSum(a) + FieldSum(b) && |Merge(a, b)| == |a| + |b|
    decreases b
  {
    if b != [] {
      var a' := Put(a, b[0].key, b[0].value);
      PutSize(a, b[0].key, b[0].value);
      forall f | f in b[1..] ensures Get(a', f.key) == None {
        PutGet(a, b[0].key, b[0].value, f.key);
        assert f in b;
      }
      DisjointMergeSums(a', b[1..]);
    }
  }

  /** Merging two objects never costs more than the two apart, and exactly as much when they are
      nonempty and share no key. */
  lemma MergeSize(a: seq<Field>, b: seq<Field>)
    ensures Size(Obj(Merge(a, b))) <= Size(Obj(a)) + Size(Obj(b))
    ensures a != [] && b != [] && DistinctKeys(b) && (forall f :: f in b ==> Get(a, f.key) == None) ==>
              Size(Obj(Merge(a, b))) == Size(Obj(a)) + Size(Obj(b))
  {
    MergeSums(a, b);
    if a != [] && b != [] && DistinctKeys(b) && forall f :: f in b ==> Get(a, f.key) == None {
      DisjointMergeSums(a, b);
    }
  }
}
