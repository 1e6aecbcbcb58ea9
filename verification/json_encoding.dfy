/** The encoding that sizes are measured on: json.dumps with its defaults, in ASCII. */
module JsonEncoding {
  import opened Prelude
  import opened JsonSize

  // ------------------------------------------------------------------
  // Strings
  // ------------------------------------------------------------------

  const HEX: string := "0123456789abcdef"

  function Hex4(n: nat): (s: string)
    requires n < 0x10000
    ensures |s| == 4
  {
    var (high, low) := (n / 256, n % 256);
    [HEX[high / 16], HEX[high % 16], HEX[low / 16], HEX[low % 16]]
  }

  /** The letter of a two-character escape. */
  function Letter(c: char): Option<char> {
    if c == '\"' || c == '\\' then Some(c)
    else if c == '\n' then Some('n')
    else if c == '\r' then Some('r')
    else if c == '\t' then Some('t')
    else if c == '\U{8}' then Some('b')
    else if c == '\U{C}' then Some('f')
    else None
  }

  function Unit(n: nat): (s: string)
    requires n < 0x10000
    ensures |s| == 6
  {
    "\\u" + Hex4(n)
  }

  /** A character as it stands in an encoded string; beyond the basic plane it is a pair of surrogates. */
  function Spelled(c: char): string {
    var n := c as int;
    if Letter(c).Some? then ['\\', Letter(c).value]
    else if ' ' <= c <= '~' then [c]
    else if n < 0x10000 then Unit(n)
    else Unit(0xD800 + (n - 0x10000) / 1024) + Unit(0xDC00 + (n - 0x10000) % 1024)
  }

  function SpelledAll(s: string): string { if s == "" then "" else Spelled(s[0]) + SpelledAll(s[1..]) }

  lemma {:induction false} CharsIsLength(s: string)
    ensures |SpelledAll(s)| == Chars(s)
  {
    if s != "" { CharsIsLength(s[1..]); }
  }

  // What reads it back.

  function Nibble(c: char): nat {
    if '0' <= c <= '9' then c as int - '0' as int else if 'a' <= c <= 'f' then 10 + c as int - 'a' as int else 0
  }

  function Value4(s: string): nat
    requires |s| >= 4
  {
    4096 * Nibble(s[0]) + 256 * Nibble(s[1]) + 16 * Nibble(s[2]) + Nibble(s[3])
  }

  predicate IsUnit(s: string) { |s| >= 6 && s[0] == '\\' && s[1] == 'u' }

  function Scalar(n: int): char { if 0 <= n < 0xD800 || 0xE000 <= n < 0x110000 then n as char else '?' }

  function Unlettered(c: char): char {
    if c == 'n' then '\n' else if c == 'r' then '\r' else if c == 't' then '\t'
    else if c == 'b' then '\U{8}' else if c == 'f' then '\U{C}' else c
  }

  /** The first character that an encoded string stands for, and how much of the string spells it. */
  function First(s: string): (r: (char, nat))
    requires s != ""
    ensures 0 < r.1 <= |s|
  {
    if s[0] != '\\' || |s| == 1 then (s[0], 1)
    else if !IsUnit(s) then (Unlettered(s[1]), 2)
    else
      var n := Value4(s[2..]);
      if 0xD800 <= n < 0xDC00 && IsUnit(s[6..])
      then (Scalar(0x10000 + 1024 * (n - 0xD800) + (Value4(s[8..]) - 0xDC00)), 12)
      else (Scalar(n), 6)
  }

  function Read(s: string): string
    decreases |s|
  {
    if s == "" then "" else var (c, n) := First(s); [c] + Read(s[n..])
  }

  lemma NibbleOf(d: nat)
    requires d < 16
    ensures Nibble(HEX[d]) == d
  {
  }

  lemma HexValue(n: nat, rest: string)
    requires n < 0x10000
    ensures Value4(Hex4(n) + rest) == n
  {
    hide Nibble;
    var high, low := n / 256, n % 256;
    NibbleOf(high / 16);
    NibbleOf(high % 16);
    NibbleOf(low / 16);
    NibbleOf(low % 16);
    assert high == 16 * (high / 16) + high % 16 && low == 16 * (low / 16) + low % 16;
  }

  lemma UnitReads(n: nat, rest: string)
    requires n < 0x10000
    ensures IsUnit(Unit(n) + rest) && Value4((Unit(n) + rest)[2..]) == n && (Unit(n) + rest)[6..] == rest
  {
    assert (Unit(n) + rest)[2..] == Hex4(n) + rest;
    HexValue(n, rest);
  }

  lemma FirstIs(c: char, rest: string)
    ensures Spelled(c) != "" && First(Spelled(c) + rest) == (c, |Spelled(c)|)
  {
    hide Unit, Value4;
    var n := c as int;
    if Letter(c).Some? || ' ' <= c <= '~' {
    } else if n < 0x10000 {
      UnitReads(n, rest);
    } else {
      var high, low := 0xD800 + (n - 0x10000) / 1024, 0xDC00 + (n - 0x10000) % 1024;
      var s := Spelled(c) + rest;
      assert s == Unit(high) + (Unit(low) + rest);
      UnitReads(high, Unit(low) + rest);
      UnitReads(low, rest);
      assert s[8..] == (Unit(low) + rest)[2..];
    }
  }

  /** An encoded string reads back as the string. */
  lemma {:induction false} SpellingRoundTrip(s: string)
    ensures Read(SpelledAll(s)) == s
  {
    hide Spelled, First;
    if s != "" {
      FirstIs(s[0], SpelledAll(s[1..]));
      SpellingRoundTrip(s[1..]);
      assert SpelledAll(s)[|Spelled(s[0])|..] == SpelledAll(s[1..]);
    }
  }

  // ------------------------------------------------------------------
  // Trees
  // ------------------------------------------------------------------

  function Decimal(n: nat): string { (if n < 10 then "" else Decimal(n / 10)) + [HEX[n % 10]] }

  function Quoted(s: string): string { "\"" + SpelledAll(s) + "\"" }

  /** spell gives the text of an atom, of which only the length is known. */
  function Encode(j: Json, spell: nat -> string): string
    decreases j, 1
  {
    match j
    case Str(s) => Quoted(s)
    case Num(n) => Decimal(n)
    case Atom(size) => spell(size)
    case Arr(items) => "[" + Items(items, spell) + "]"
    case Obj(fields) => "{" + Fields(fields, spell) + "}"
  }

  function Items(items: seq<Json>, spell: nat -> string): string
    decreases items, 0
  {
    if items == [] then ""
    else Encode(items[0], spell) + (if |items| == 1 then "" else ", ") + Items(items[1..], spell)
  }

  function Entry(f: Field, spell: nat -> string): string
    decreases f, 2
  {
    Quoted(f.key) + ": " + Encode(f.value, spell)
  }

  function Fields(fields: seq<Field>, spell: nat -> string): string
    decreases fields, 0
  {
    if fields == [] then ""
    else Entry(fields[0], spell) + (if |fields| == 1 then "" else ", ") + Fields(fields[1..], spell)
  }

  lemma {:induction false} DigitsIsLength(n: nat)
    ensures |Decimal(n)| == Digits(n)
  {
    if n >= 10 { DigitsIsLength(n / 10); }
  }

  /** The size of a tree is the length of its encoding. */
  lemma {:induction false} SizeIsLength(j: Json, spell: nat -> string)
    requires forall n :: |spell(n)| == n
    ensures |Encode(j, spell)| == Size(j)
    decreases j, 1
  {
    match j
    case Str(s) => CharsIsLength(s);
    case Num(n) => DigitsIsLength(n);
    case Atom(_) =>
    case Arr(items) => ItemsLength(items, spell);
    case Obj(fields) => FieldsLength(fields, spell);
  }

  lemma {:induction false} ItemsLength(items: seq<Json>, spell: nat -> string)
    requires forall n :: |spell(n)| == n
    ensures |Items(items, spell)| == ItemSum(items) + Separators(|items|)
    decreases items, 0
  {
    if items != [] {
      SizeIsLength(items[0], spell);
      ItemsLength(items[1..], spell);
    }
  }

  lemma {:induction false} FieldsLength(fields: seq<Field>, spell: nat -> string)
    requires forall n :: |spell(n)| == n
    ensures |Fields(fields, spell)| == FieldSum(fields) + Separators(|fields|)
    decreases fields, 0
  {
    if fields != [] {
      CharsIsLength(fields[0].key);
      SizeIsLength(fields[0].value, spell);
      FieldsLength(fields[1..], spell);
    }
  }
}
