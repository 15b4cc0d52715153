/**
 * The string primitives the core relies on, stated once: JavaScript's
 * `split` with a one-character separator, `substring(0, n)`, `trim` and
 * `Number` on decimal text, and the ordering SQLite applies to TEXT columns.
 */
module Texte {
  import opened Wrappers

  // ---------------------------------------------------------------- split

  /** `s.split(c)`: the pieces of `s` between the occurrences of `c`. */
  function Split(s: string, c: char): (parts: seq<string>)
    ensures |parts| >= 1
    ensures forall i :: 0 <= i < |parts| ==> c !in parts[i]
    ensures (|parts| == 1) == (c !in s)
    ensures Join(parts, c) == s
    decreases |s|
  {
    if s == [] then [""]
    else
      var rest := Split(s[1..], c);
      assert s == [s[0]] + s[1..];
      if s[0] == c then [""] + rest
      else
        var parts := [[s[0]] + rest[0]] + rest[1..];
        JoinHead(rest, [s[0]], c);
        parts
  }

  /** `parts.join(c)`. */
  function Join(parts: seq<string>, c: char): string
    requires |parts| >= 1
  {
    if |parts| == 1 then parts[0] else parts[0] + [c] + Join(parts[1..], c)
  }

  /** Prefixing the first piece prefixes the joined string. */
  lemma JoinHead(parts: seq<string>, x: string, c: char)
    requires |parts| >= 1
    ensures Join([x + parts[0]] + parts[1..], c) == x + Join(parts, c)
  {
    var q := [x + parts[0]] + parts[1..];
    if |parts| > 1 {
      assert q[1..] == parts[1..];
    }
  }

  /** A string without the separator splits into itself alone. */
  lemma {:induction false} SplitWithout(s: string, c: char)
    requires c !in s
    ensures Split(s, c) == [s]
  {
  }

  /** Splitting at the first separator: the text before it is the first piece. */
  lemma {:induction false} SplitAt(d: string, c: char, t: string)
    requires c !in d
    ensures Split(d + [c] + t, c) == [d] + Split(t, c)
    decreases |d|
  {
    var s := d + [c] + t;
    if d == [] {
      assert s[1..] == t;
    } else {
      assert s[1..] == d[1..] + [c] + t;
      SplitAt(d[1..], c, t);
      var rest := Split(s[1..], c);
      assert s[0] == d[0] && s[0] != c;
      assert Split(s, c) == [[s[0]] + rest[0]] + rest[1..];
      assert rest[0] == d[1..] && rest[1..] == Split(t, c);
      assert [d[0]] + d[1..] == d;
    }
  }

  /** `split` inverts `join` of separator-free pieces. */
  lemma {:induction false} SplitJoin(parts: seq<string>, c: char)
    requires |parts| >= 1
    requires forall i :: 0 <= i < |parts| ==> c !in parts[i]
    ensures Split(Join(parts, c), c) == parts
  {
    if |parts| == 1 {
      SplitWithout(parts[0], c);
    } else {
      SplitJoin(parts[1..], c);
      SplitAt(parts[0], c, Join(parts[1..], c));
    }
  }

  /** `s.substring(0, n)` for `n >= 0`. */
  function Prefix(s: string, n: nat): (r: string)
    ensures |r| <= n && r <= s
    ensures |s| >= n ==> |r| == n
  {
    if |s| <= n then s else s[..n]
  }

  // ----------------------------------------------------------------- trim

  /** ECMAScript WhiteSpace and LineTerminator characters outside the U+2000..U+200A block. */
  const ESPACES: set<char> := {
    ' ', '\t', '\n', '\r', '\U{B}', '\U{C}', '\U{A0}', '\U{1680}',
    '\U{2028}', '\U{2029}', '\U{202F}', '\U{205F}', '\U{3000}', '\U{FEFF}'
  }

  /** The characters `trim` removes. */
  predicate IsSpace(ch: char) {
    ch in ESPACES || '\U{2000}' <= ch <= '\U{200A}'
  }

  predicate Blank(s: string) {
    forall i :: 0 <= i < |s| ==> IsSpace(s[i])
  }

  /** How many white-space characters `s` starts with. */
  function EspacesDebut(s: string): (k: nat)
    ensures k <= |s| && forall i :: 0 <= i < k ==> IsSpace(s[i])
    ensures k < |s| ==> !IsSpace(s[k])
  {
    if s != [] && IsSpace(s[0]) then EspacesDebut(s[1..]) + 1 else 0
  }

  /** How many white-space characters `s` ends with. */
  function EspacesFin(s: string): (k: nat)
    ensures k <= |s| && forall i :: |s| - k <= i < |s| ==> IsSpace(s[i])
    ensures k < |s| ==> !IsSpace(s[|s| - k - 1])
  {
    if s != [] && IsSpace(s[|s| - 1]) then EspacesFin(s[..|s| - 1]) + 1 else 0
  }

  /** `s.trim()`: empty exactly when `s` is nothing but white space. */
  function Trim(s: string): (r: string)
    ensures r == "" <==> Blank(s)
    ensures r != "" ==> !IsSpace(r[0]) && !IsSpace(r[|r| - 1])
  {
    var t := s[EspacesDebut(s)..];
    TrimBlank(s);
    t[..|t| - EspacesFin(t)]
  }

  lemma TrimBlank(s: string)
    ensures var t := s[EspacesDebut(s)..]; t[..|t| - EspacesFin(t)] == "" <==> Blank(s)
  {
    var k := EspacesDebut(s);
    var t := s[k..];
    var f := EspacesFin(t);
    if t[..|t| - f] == "" {
      assert t[|t| - f..] == t;
      BlankConcat(s[..k], t);
      assert s[..k] + t == s;
    } else {
      assert s[k] == t[0];
    }
  }

  lemma BlankConcat(a: string, b: string)
    requires Blank(a) && Blank(b)
    ensures Blank(a + b)
  {
    forall i | 0 <= i < |a + b| ensures IsSpace((a + b)[i]) {
      if i < |a| { assert (a + b)[i] == a[i]; } else { assert (a + b)[i] == b[i - |a|]; }
    }
  }

  // --------------------------------------------------------------- Number

  predicate IsDigit(ch: char) { '0' <= ch <= '9' }

  predicate AllDigits(s: string) { forall i :: 0 <= i < |s| ==> IsDigit(s[i]) }

  /** The value of a string of decimal digits, most significant first. */
  function DigitsValue(s: string): nat
    requires AllDigits(s)
  {
    if s == [] then 0 else 10 * DigitsValue(s[..|s| - 1]) + (s[|s| - 1] as int - '0' as int)
  }

  /** The decimal text of `n`, without leading zeros: read back, it is `n`. */
  function Digits(n: nat): (s: string)
    ensures |s| >= 1 && AllDigits(s)
    ensures DigitsValue(s) == n
  {
    var last := ['0' + (n % 10) as char];
    if n < 10 then last
    else
      var s := Digits(n / 10) + last;
      assert s[..|s| - 1] == Digits(n / 10);
      s
  }

  /**
   * JavaScript `Number(s)` restricted to decimal text: blank text reads as 0,
   * digits (around white space) as their value, anything else as NaN (`None`).
   */
  function Number(s: string): (r: Option<nat>)
    ensures Blank(s) ==> r == Some(0)
    ensures r.Some? && !Blank(s) ==> AllDigits(Trim(s)) && r.value == DigitsValue(Trim(s))
  {
    var t := Trim(s);
    if t == "" then Some(0)
    else if AllDigits(t) then Some(DigitsValue(t))
    else None
  }

  /** Any string of decimal digits, leading zeros included, reads as its value; "" reads as 0. */
  lemma NumberAllDigits(s: string)
    requires AllDigits(s)
    ensures Number(s) == Some(DigitsValue(s))
  {
    if s != [] {
      ChiffreNonEspace(s[0]);
      ChiffreNonEspace(s[|s| - 1]);
      assert EspacesDebut(s) == 0 && s[0..] == s;
      assert EspacesFin(s) == 0 && s[..|s|] == s;
      assert Trim(s) == s;
    }
  }

  /** The text `Digits(n)` produces reads back as `n`. */
  lemma NumberDigits(n: nat)
    ensures Number(Digits(n)) == Some(n)
  {
    NumberAllDigits(Digits(n));
  }

  lemma ChiffreNonEspace(ch: char)
    requires IsDigit(ch)
    ensures !IsSpace(ch)
  {
  }

  // ------------------------------------------------ TEXT ordering (SQLite)

  /**
   * SQLite's BINARY collation on TEXT: lexicographic order, character by
   * character, a proper prefix first (UTF-8 byte order is code-point order).
   */
  predicate TextLe(a: string, b: string) {
    a == [] || (b != [] && (a[0] < b[0] || (a[0] == b[0] && TextLe(a[1..], b[1..]))))
  }

  lemma {:induction false} TextLeTotal(a: string, b: string)
    ensures TextLe(a, b) || TextLe(b, a)
  {
    if a != [] && b != [] && a[0] == b[0] {
      TextLeTotal(a[1..], b[1..]);
    }
  }

  lemma {:induction false} TextLeTrans(a: string, b: string, c: string)
    requires TextLe(a, b) && TextLe(b, c)
    ensures TextLe(a, c)
  {
    if a != [] && a[0] == b[0] && b[0] == c[0] {
      TextLeTrans(a[1..], b[1..], c[1..]);
    }
  }

  lemma {:induction false} TextLeAntisym(a: string, b: string)
    requires TextLe(a, b) && TextLe(b, a)
    ensures a == b
  {
    if a != [] {
      TextLeAntisym(a[1..], b[1..]);
      assert a == [a[0]] + a[1..] && b == [b[0]] + b[1..];
    }
  }
}
