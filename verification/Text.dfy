/** Splitting, joining and trimming strings, and decimal numbers. */
module Text {
  import opened Values

  // `strings.Split` for a separator of one character: there is always at least one part.
  function Split(s: string, sep: char): (parts: seq<string>)
    ensures |parts| > 0
  {
    if s == "" then [""]
    else
      var rest := Split(s[1..], sep);
      if s[0] == sep then [""] + rest else [[s[0]] + rest[0]] + rest[1..]
  }

  function Join(parts: seq<string>, sep: char): string {
    if parts == [] then "" else if |parts| == 1 then parts[0] else parts[0] + [sep] + Join(parts[1..], sep)
  }

  predicate Free(s: string, sep: char) { sep !in s }

  lemma {:induction false} SplitFree(s: string, sep: char)
    requires Free(s, sep)
    ensures Split(s, sep) == [s]
  {
    if s != "" {
      SplitFree(s[1..], sep);
      assert s == [s[0]] + s[1..];
    }
  }

  // One more character in front either opens a part of its own or joins the first one.
  function InFront(c: char, parts: seq<string>, sep: char): seq<string>
    requires parts != []
  {
    if c == sep then [""] + parts else [[c] + parts[0]] + parts[1..]
  }

  lemma SplitNext(c: char, s: string, sep: char)
    ensures Split([c] + s, sep) == InFront(c, Split(s, sep), sep)
  {
    assert ([c] + s)[1..] == s;
  }

  lemma InFrontOfMore(c: char, parts: seq<string>, more: seq<string>, sep: char)
    requires parts != []
    ensures InFront(c, parts + more, sep) == InFront(c, parts, sep) + more
  {
    assert (parts + more)[1..] == parts[1..] + more;
  }

  // A separator between two strings separates their parts.
  lemma {:induction false} SplitConcat(a: string, b: string, sep: char)
    ensures Split(a + [sep] + b, sep) == Split(a, sep) + Split(b, sep)
  {
    if a == "" {
      SplitNext(sep, b, sep);
      assert a + [sep] + b == [sep] + b;
    } else {
      var rest := a[1..] + [sep] + b;
      SplitConcat(a[1..], b, sep);
      SplitNext(a[0], rest, sep);
      SplitNext(a[0], a[1..], sep);
      InFrontOfMore(a[0], Split(a[1..], sep), Split(b, sep), sep);
      assert a + [sep] + b == [a[0]] + rest && a == [a[0]] + a[1..];
    }
  }

  lemma {:induction false} SplitJoin(parts: seq<string>, sep: char)
    requires parts != [] && forall i | 0 <= i < |parts| :: Free(parts[i], sep)
    ensures Split(Join(parts, sep), sep) == parts
  {
    SplitFree(parts[0], sep);
    if |parts| == 1 {
      assert parts == [parts[0]];
    } else {
      SplitJoin(parts[1..], sep);
      SplitConcat(parts[0], Join(parts[1..], sep), sep);
      assert parts == [parts[0]] + parts[1..];
    }
  }

  lemma {:induction false} PartsAreFree(s: string, sep: char)
    ensures forall i | 0 <= i < |Split(s, sep)| :: Free(Split(s, sep)[i], sep)
  {
    if s != "" { PartsAreFree(s[1..], sep); }
  }

  /******* White space *******/

  // The characters with Unicode's `White_Space` property.
  predicate IsSpace(c: char) {
    var n := c as int;
    0x9 <= n <= 0xd || n == 0x20 || n == 0x85 || n == 0xa0 || n == 0x1680 || 0x2000 <= n <= 0x200a
    || n == 0x2028 || n == 0x2029 || n == 0x202f || n == 0x205f || n == 0x3000
  }

  function TrimLeft(s: string): string {
    if s != "" && IsSpace(s[0]) then TrimLeft(s[1..]) else s
  }

  function TrimRight(s: string): string {
    if s != "" && IsSpace(s[|s| - 1]) then TrimRight(s[..|s| - 1]) else s
  }

  // `strings.TrimSpace`
  function Trim(s: string): string { TrimRight(TrimLeft(s)) }

  predicate Trimmed(s: string) {
    s != "" ==> !IsSpace(s[0]) && !IsSpace(s[|s| - 1])
  }

  lemma TrimOfTrimmed(s: string)
    requires Trimmed(s)
    ensures Trim(s) == s
  {
  }

  predicate AllSpace(s: string) { forall i | 0 <= i < |s| :: IsSpace(s[i]) }

  lemma {:induction false} TrimLeftDrops(a: string, s: string)
    requires AllSpace(a)
    ensures TrimLeft(a + s) == TrimLeft(s)
  {
    if a == "" {
      assert a + s == s;
    } else {
      assert (a + s)[1..] == a[1..] + s;
      TrimLeftDrops(a[1..], s);
    }
  }

  lemma {:induction false} TrimRightDrops(s: string, b: string)
    requires AllSpace(b)
    ensures TrimRight(s + b) == TrimRight(s)
  {
    if b == "" {
      assert s + b == s;
    } else {
      assert (s + b)[..|s + b| - 1] == s + b[..|b| - 1];
      TrimRightDrops(s, b[..|b| - 1]);
    }
  }

  lemma {:induction false} TrimLeftBefore(s: string, b: string)
    requires AllSpace(b)
    ensures TrimRight(TrimLeft(s + b)) == TrimRight(TrimLeft(s))
  {
    if s == "" {
      assert s + b == b + "";
      TrimLeftDrops(b, "");
    } else if IsSpace(s[0]) {
      assert (s + b)[1..] == s[1..] + b;
      TrimLeftBefore(s[1..], b);
    } else {
      TrimRightDrops(s, b);
    }
  }

  // White space around a text makes no difference, and none is left.
  lemma TrimDropsSpace(a: string, s: string, b: string)
    requires AllSpace(a) && AllSpace(b)
    ensures Trim(a + s + b) == Trim(s) && Trimmed(Trim(s))
  {
    assert a + s + b == a + (s + b);
    TrimLeftDrops(a, s + b);
    TrimLeftBefore(s, b);
    TrimLeftStarts(s);
    TrimRightEnds(TrimLeft(s));
  }

  lemma {:induction false} TrimLeftStarts(s: string)
    ensures TrimLeft(s) != "" ==> !IsSpace(TrimLeft(s)[0])
  {
    if s != "" && IsSpace(s[0]) { TrimLeftStarts(s[1..]); }
  }

  lemma {:induction false} TrimRightEnds(s: string)
    ensures TrimRight(s) <= s && (TrimRight(s) != "" ==> !IsSpace(TrimRight(s)[|TrimRight(s)| - 1]))
  {
    if s != "" && IsSpace(s[|s| - 1]) { TrimRightEnds(s[..|s| - 1]); }
  }

  /******* Decimal numbers *******/

  function Digit(d: int): char
    requires 0 <= d < 10
  {
    ('0' as int + d) as char
  }

  predicate IsDigit(c: char) { '0' <= c <= '9' }

  function DigitValue(c: char): int
    requires IsDigit(c)
  {
    c as int - '0' as int
  }

  function Decimal(n: nat): (s: string)
    ensures s != "" && forall i | 0 <= i < |s| :: IsDigit(s[i])
  {
    if n < 10 then [Digit(n)] else Decimal(n / 10) + [Digit(n % 10)]
  }

  // Reads back what `Decimal` prints, and nothing else: no sign and no leading zero.
  function ParseDecimal(s: string): Option<nat> {
    if s == "" || !IsDigit(s[|s| - 1]) then None
    else
      var d := DigitValue(s[|s| - 1]);
      if |s| == 1 then Some(d)
      else
        var high := ParseDecimal(s[..|s| - 1]);
        if high.None? || high.value == 0 then None else Some(10 * high.value + d)
  }

  lemma DigitIsInTable(d: int)
    requires 0 <= d < 10
    ensures Digit(d) == "0123456789"[d]
  {
    if d < 5 { assert d in {0, 1, 2, 3, 4}; } else { assert d in {5, 6, 7, 8, 9}; }
  }

  lemma {:induction false} ParseUndoesDecimal(n: nat)
    ensures ParseDecimal(Decimal(n)) == Some(n)
  {
    if n >= 10 {
      ParseUndoesDecimal(n / 10);
      var s := Decimal(n);
      assert s[..|s| - 1] == Decimal(n / 10);
    }
  }

  lemma DecimalNext(n: nat, d: int)
    requires n > 0 && 0 <= d < 10
    ensures Decimal(10 * n + d) == Decimal(n) + [Digit(d)]
  {
  }

  lemma {:induction false} DecimalUndoesParse(s: string)
    requires ParseDecimal(s).Some?
    ensures Decimal(ParseDecimal(s).value) == s
  {
    var last := s[|s| - 1];
    if |s| > 1 {
      DecimalUndoesParse(s[..|s| - 1]);
      DecimalNext(ParseDecimal(s[..|s| - 1]).value, DigitValue(last));
      assert s == s[..|s| - 1] + [last];
    } else {
      assert s == [last];
    }
  }
}
