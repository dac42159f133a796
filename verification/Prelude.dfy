/** Values shared by every module: optional results, keyed tables that remember
    insertion order, and the string trimming the services apply to their inputs. */
module Prelude {

  datatype Option<+T> = None | Some(value: T)

  /** An insertion-ordered keyed store: the in-memory repositories keep their rows in
      a `Map`, whose scans visit keys in the order they were first set. */
  datatype Table<V> = Table(keys: seq<string>, rows: map<string, V>) {
    ghost predicate Valid() {
      forall k :: k in keys <==> k in rows
    }

    function Get(k: string): Option<V> {
      if k in rows then Some(rows[k]) else None
    }

    /** Set a row: a known key keeps its place in the order, a new one goes last. */
    function Put(k: string, v: V): (t: Table<V>)
      ensures t.rows == rows[k := v]
      ensures Valid() ==> t.Valid()
    {
      Table(if k in rows then keys else keys + [k], rows[k := v])
    }

    /** The first row, in insertion order, that satisfies `p`. */
    function Find(p: V -> bool): (r: Option<V>)
      ensures r.Some? ==> p(r.value) && exists k :: k in rows && rows[k] == r.value
      ensures r.None? && Valid() ==> forall k :: k in rows ==> !p(rows[k])
    {
      FindFrom(p, 0)
    }

    function FindFrom(p: V -> bool, i: nat): (r: Option<V>)
      requires i <= |keys|
      ensures r.Some? ==> p(r.value) && exists k :: k in rows && rows[k] == r.value
      ensures r.None? ==> forall j :: i <= j < |keys| && keys[j] in rows ==> !p(rows[keys[j]])
      decreases |keys| - i
    {
      if i == |keys| then None
      else if keys[i] in rows && p(rows[keys[i]]) then Some(rows[keys[i]])
      else FindFrom(p, i + 1)
    }

    /** Every row that satisfies `p`, in insertion order. */
    function Filter(p: V -> bool): (r: seq<V>)
      ensures forall v :: v in r ==> p(v) && exists k :: k in rows && rows[k] == v
      ensures Valid() ==> forall k :: k in rows && p(rows[k]) ==> rows[k] in r
    {
      FilterFrom(p, 0)
    }

    function FilterFrom(p: V -> bool, i: nat): (r: seq<V>)
      requires i <= |keys|
      ensures forall v :: v in r ==> p(v) && exists k :: k in rows && rows[k] == v
      ensures forall j :: i <= j < |keys| && keys[j] in rows && p(rows[keys[j]]) ==> rows[keys[j]] in r
      decreases |keys| - i
    {
      if i == |keys| then []
      else (if keys[i] in rows && p(rows[keys[i]]) then [rows[keys[i]]] else []) + FilterFrom(p, i + 1)
    }
  }

  function EmptyTable<V>(): Table<V> {
    Table([], map[])
  }

  /** White space and line terminators, as String.prototype.trim defines them
      (ECMA-262, sections 12.2 and 12.3). */
  predicate IsSpace(c: char) {
    var u := c as int;
    || 0x09 <= u <= 0x0D || u == 0x20 || u == 0xA0 || u == 0x1680
    || 0x2000 <= u <= 0x200A || u == 0x2028 || u == 0x2029 || u == 0x202F
    || u == 0x205F || u == 0x3000 || u == 0xFEFF
  }

  function TrimStart(s: string): string {
    if s != "" && IsSpace(s[0]) then TrimStart(s[1..]) else s
  }

  function TrimEnd(s: string): string {
    if s != "" && IsSpace(s[|s| - 1]) then TrimEnd(s[..|s| - 1]) else s
  }

  function Trim(s: string): string {
    TrimEnd(TrimStart(s))
  }

  /** A key that trimming leaves alone and that is not blank. */
  predicate Canonical(s: string) {
    s != "" && Trim(s) == s
  }

  predicate Blank(s: string) {
    Trim(s) == ""
  }

  /** Lower case, of ASCII letters only. */
  function LowerChar(c: char): char {
    if 'A' <= c <= 'Z' then (c as int + 32) as char else c
  }

  function Lower(s: string): string {
    seq(|s|, i requires 0 <= i < |s| => LowerChar(s[i]))
  }

  /** An argument of unknown type. */
  datatype Arg = Absent | NotText | Text(text: string)

  /** A required text: trimmed, and not blank. */
  function Required(a: Arg): Option<string> {
    if a.Text? && !Blank(a.text) then Some(Trim(a.text)) else None
  }

  /** String(n), in decimal. */
  function Digit(n: nat): char
    requires n < 10
  {
    ('0' as int + n) as char
  }

  function Decimal(n: nat): (s: string)
    ensures s != ""
  {
    if n < 10 then [Digit(n)] else Decimal(n / 10) + [Digit(n % 10)]
  }

  predicate AllSpace(s: string) {
    forall i :: 0 <= i < |s| ==> IsSpace(s[i])
  }

  /** Trimming takes white space from both ends, all of it, and nothing else. */
  lemma TrimExactly(s: string) returns (front: string, back: string)
    ensures s == front + Trim(s) + back && AllSpace(front) && AllSpace(back)
    ensures Trim(s) != "" ==> !IsSpace(Trim(s)[0]) && !IsSpace(Trim(s)[|Trim(s)| - 1])
  {
    hide IsSpace;
    front := StartTrimmed(s);
    back := EndTrimmed(TrimStart(s));
  }

  lemma {:induction false} StartTrimmed(s: string) returns (front: string)
    ensures s == front + TrimStart(s) && AllSpace(front) && (TrimStart(s) != "" ==> !IsSpace(TrimStart(s)[0]))
    decreases |s|
  {
    hide IsSpace;
    front := "";
    if s != "" && IsSpace(s[0]) {
      var rest := StartTrimmed(s[1..]);
      front := [s[0]] + rest;
      assert s == [s[0]] + s[1..];
    }
  }

  lemma {:induction false} EndTrimmed(s: string) returns (back: string)
    ensures s == TrimEnd(s) + back && AllSpace(back) && (TrimEnd(s) != "" ==> !IsSpace(TrimEnd(s)[|TrimEnd(s)| - 1]))
    ensures TrimEnd(s) != "" ==> TrimEnd(s)[0] == s[0]
    decreases |s|
  {
    hide IsSpace;
    back := "";
    if s != "" && IsSpace(s[|s| - 1]) {
      var rest := EndTrimmed(s[..|s| - 1]);
      back := rest + [s[|s| - 1]];
      assert s == s[..|s| - 1] + [s[|s| - 1]];
    }
  }

  /** The number a run of decimal digits stands for. */
  function ValueOf(s: string): nat
    requires forall i :: 0 <= i < |s| ==> '0' <= s[i] <= '9'
  {
    if s == "" then 0 else 10 * ValueOf(s[..|s| - 1]) + (s[|s| - 1] as int - '0' as int)
  }

  /** String(n) is a numeral of n, without a leading zero, so no two numbers share one. */
  lemma {:induction false} DecimalExactly(n: nat)
    ensures forall i :: 0 <= i < |Decimal(n)| ==> '0' <= Decimal(n)[i] <= '9'
    ensures ValueOf(Decimal(n)) == n && (n > 0 ==> Decimal(n)[0] != '0')
    decreases n
  {
    if n >= 10 {
      DecimalExactly(n / 10);
      assert Decimal(n)[..|Decimal(n)| - 1] == Decimal(n / 10);
    }
  }
}
