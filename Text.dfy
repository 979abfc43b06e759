/**
 * The few pieces of Python text handling the scripts rely on: `str.isdigit`,
 * `int(...)` of a digit string, `'%d' % n`, `s.split(sep)`, `s.split()`,
 * the `in` test on strings and `os.path.join`.
 */
module Text {

  predicate IsDigit(c: char) {
    '0' <= c <= '9'
  }

  /** `s.isdigit()` on ASCII text: non-empty, every character a decimal digit. */
  predicate IsDigits(s: string) {
    |s| > 0 && forall i :: 0 <= i < |s| ==> IsDigit(s[i])
  }

  /** `int(s)` for a string of digits; leading zeros are accepted. */
  function DigitsValue(s: string): nat
    requires forall i :: 0 <= i < |s| ==> IsDigit(s[i])
  {
    if s == [] then 0
    else
      assert IsDigit(s[|s| - 1]);
      10 * DigitsValue(s[..|s| - 1]) + (s[|s| - 1] as int - '0' as int)
  }

  function DigitChar(d: nat): (c: char)
    requires d < 10
    ensures IsDigit(c) && c as int - '0' as int == d
  {
    ('0' as int + d) as char
  }

  /** `'%d' % n` for a non-negative integer: decimal digits, no leading zero. */
  function Decimal(n: nat): (s: string)
    ensures IsDigits(s)
    ensures (s[0] == '0') == (n == 0)
  {
    if n < 10 then [DigitChar(n)] else Decimal(n / 10) + [DigitChar(n % 10)]
  }

  /** `int('%d' % n) == n`. */
  lemma {:induction false} DecimalValue(n: nat)
    ensures DigitsValue(Decimal(n)) == n
  {
    if n >= 10 {
      DecimalValue(n / 10);
      var s := Decimal(n);
      assert s[..|s| - 1] == Decimal(n / 10);
    }
  }

  /** Two numbers print the same only when they are equal. */
  lemma DecimalInjective(m: nat, n: nat)
    requires Decimal(m) == Decimal(n)
    ensures m == n
  {
    DecimalValue(m);
    DecimalValue(n);
  }

  /** A decimal numeral holds no character other than a digit. */
  lemma DecimalAvoids(n: nat, c: char)
    requires !IsDigit(c)
    ensures c !in Decimal(n)
  {
    var d := Decimal(n);
    forall i | 0 <= i < |d| ensures d[i] != c {
      assert IsDigit(d[i]);
    }
  }

  /** `'%d' % i` for any integer. */
  function SignedDecimal(i: int): string {
    if i < 0 then "-" + Decimal(-i) else Decimal(i)
  }

  /** `sep.join(parts)` */
  function Join(parts: seq<string>, sep: char): string
    requires |parts| > 0
  {
    if |parts| == 1 then parts[0] else parts[0] + [sep] + Join(parts[1..], sep)
  }

  lemma JoinConsHead(c: char, parts: seq<string>, sep: char)
    requires |parts| > 0
    ensures Join([[c] + parts[0]] + parts[1..], sep) == [c] + Join(parts, sep)
  {
    var ps := [[c] + parts[0]] + parts[1..];
    if |parts| > 1 {
      assert ps[1..] == parts[1..];
    }
  }

  /**
   * `s.split(sep)` for a one-character separator: never empty, no piece holds
   * the separator, and joining the pieces gives back `s`.
   */
  function Split(s: string, sep: char): (parts: seq<string>)
    ensures |parts| > 0
    ensures forall i :: 0 <= i < |parts| ==> sep !in parts[i]
    ensures Join(parts, sep) == s
  {
    if s == [] then [[]]
    else
      var rest := Split(s[1..], sep);
      if s[0] == sep then
        assert ([[]] + rest)[1..] == rest;
        [[]] + rest
      else
        JoinConsHead(s[0], rest, sep);
        [[s[0]] + rest[0]] + rest[1..]
  }

  lemma {:induction false} SplitAppend(a: string, t: string, sep: char)
    requires sep !in a
    ensures Split(a + t, sep) == [a + Split(t, sep)[0]] + Split(t, sep)[1..]
  {
    if a != [] {
      var at := a + t;
      var st := Split(t, sep);
      assert at[0] == a[0] && a[0] != sep;
      assert at[1..] == a[1..] + t;
      SplitAppend(a[1..], t, sep);
      var rest := Split(at[1..], sep);
      assert rest == [a[1..] + st[0]] + st[1..];
      assert rest[0] == a[1..] + st[0] && rest[1..] == st[1..];
      assert Split(at, sep) == [[a[0]] + rest[0]] + rest[1..];
      assert [a[0]] + (a[1..] + st[0]) == a + st[0];
    } else {
      var st := Split(t, sep);
      assert a + t == t && a + st[0] == st[0];
      assert st == [st[0]] + st[1..];
    }
  }

  /** Splitting undoes joining when no piece holds the separator. */
  lemma {:induction false} SplitJoin(parts: seq<string>, sep: char)
    requires |parts| > 0
    requires forall i :: 0 <= i < |parts| ==> sep !in parts[i]
    ensures Split(Join(parts, sep), sep) == parts
  {
    if |parts| == 1 {
      SplitAppend(parts[0], [], sep);
      assert parts[0] + [] == parts[0];
    } else {
      var rest := Join(parts[1..], sep);
      var tail := [sep] + rest;
      assert Split(tail, sep) == [[]] + parts[1..] by {
        SplitJoin(parts[1..], sep);
        assert tail[1..] == rest;
      }
      assert Join(parts, sep) == parts[0] + tail;
      SplitAppend(parts[0], tail, sep);
      assert parts[0] + [] == parts[0];
    }
  }

  /** Python's `str.isspace()` for one character. */
  predicate IsSpace(c: char) {
    var k := c as int;
    k == 32 || 9 <= k <= 13 || 28 <= k <= 31 || k == 0x85 || k == 0xA0 || k == 0x1680
    || 0x2000 <= k <= 0x200A || k == 0x2028 || k == 0x2029 || k == 0x202F || k == 0x205F
    || k == 0x3000
  }

  /** `s.split()`: the maximal runs of non-whitespace characters, in order. */
  function Fields(s: string): (fields: seq<string>)
    ensures forall i :: 0 <= i < |fields| ==> |fields[i]| > 0
    ensures forall i, j :: 0 <= i < |fields| && 0 <= j < |fields[i]| ==> !IsSpace(fields[i][j])
    ensures |s| > 0 && !IsSpace(s[0]) ==> |fields| > 0 && fields[0][0] == s[0]
  {
    if s == [] then []
    else
      var rest := Fields(s[1..]);
      if IsSpace(s[0]) then rest
      else if |s| > 1 && !IsSpace(s[1]) then [[s[0]] + rest[0]] + rest[1..]
      else [[s[0]]] + rest
  }

  /** A field `str.split()` can return: non-empty and free of whitespace. */
  predicate IsWord(w: string) {
    |w| > 0 && forall i :: 0 <= i < |w| ==> !IsSpace(w[i])
  }

  /** A word followed by whitespace (or by nothing) is one field, and splitting carries on after it. */
  lemma {:induction false} FieldsWordThen(w: string, s: string)
    requires IsWord(w)
    requires s == [] || IsSpace(s[0])
    ensures Fields(w + s) == [w] + Fields(s)
    decreases |w|
  {
    var t := w + s;
    assert t[0] == w[0] && !IsSpace(t[0]);
    if |w| == 1 {
      assert t[1..] == s;
      assert |t| > 1 ==> t[1] == s[0];
      assert [t[0]] == w;
      assert Fields(t) == [[t[0]]] + Fields(s);
    } else {
      var w' := w[1..];
      assert IsWord(w') by {
        assert forall i :: 0 <= i < |w'| ==> w'[i] == w[i + 1];
      }
      FieldsWordThen(w', s);
      assert t[1..] == w' + s;
      assert t[1] == w[1] && !IsSpace(t[1]);
      var rest := Fields(t[1..]);
      assert rest == [w'] + Fields(s);
      assert [t[0]] + w' == w;
      assert Fields(t) == [[t[0]] + rest[0]] + rest[1..];
      assert rest[1..] == Fields(s);
    }
  }

  /** A single word splits into itself. */
  lemma FieldsWord(w: string)
    requires IsWord(w)
    ensures Fields(w) == [w]
  {
    FieldsWordThen(w, []);
    assert w + [] == w;
  }

  /** Splitting words joined by a whitespace character gives the words back. */
  lemma {:induction false} FieldsJoin(ws: seq<string>, sep: char)
    requires |ws| > 0
    requires forall i :: 0 <= i < |ws| ==> IsWord(ws[i])
    requires IsSpace(sep)
    ensures Fields(Join(ws, sep)) == ws
    decreases |ws|
  {
    if |ws| == 1 {
      FieldsWord(ws[0]);
    } else {
      var tail := Join(ws[1..], sep);
      assert Join(ws, sep) == ws[0] + ([sep] + tail);
      FieldsWordThen(ws[0], [sep] + tail);
      assert ([sep] + tail)[1..] == tail;
      FieldsJoin(ws[1..], sep);
      assert [ws[0]] + ws[1..] == ws;
    }
  }

  /** `str.split()` finds no field exactly when the text is all whitespace. */
  lemma {:induction false} FieldsEmptyIffBlank(s: string)
    ensures Fields(s) == [] <==> forall i :: 0 <= i < |s| ==> IsSpace(s[i])
    decreases |s|
  {
    if s != [] {
      FieldsEmptyIffBlank(s[1..]);
      assert forall i :: 1 <= i < |s| ==> s[i] == s[1..][i - 1];
      if IsSpace(s[0]) {
        assert (forall i :: 0 <= i < |s| ==> IsSpace(s[i])) <==> (forall i :: 0 <= i < |s[1..]| ==> IsSpace(s[1..][i]));
      }
    }
  }

  /** `pat in s` for strings. */
  predicate Contains(s: string, pat: string)
    decreases |s|
  {
    |pat| <= |s| && (s[..|pat|] == pat || Contains(s[1..], pat))
  }

  /** `os.path.join(a, b)` on POSIX. */
  function PathJoin(a: string, b: string): string {
    if |b| > 0 && b[0] == '/' then b
    else if a == [] || a[|a| - 1] == '/' then a + b
    else a + "/" + b
  }
}
