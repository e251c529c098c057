/** The parts of JavaScript's string semantics the monitor relies on:
    `indexOf`, `replace` with a one-character string pattern (which replaces the
    first occurrence only), `split` on a one-character separator, and the
    decimal text a non-negative integer turns into when concatenated to a string. */
module JsString {
  import opened Wrappers

  /** Number of occurrences of `c` in `s`. */
  function CountOf(s: string, c: char): (n: nat)
    ensures n <= |s|
    ensures n == 0 <==> c !in s
  {
    if s == [] then 0 else (if s[0] == c then 1 else 0) + CountOf(s[1..], c)
  }

  /** `s.indexOf(c)`, with "not found" reported as `|s|` instead of -1. */
  function IndexOf(s: string, c: char): (i: nat)
    ensures i <= |s|
    ensures i < |s| <==> c in s
    ensures i < |s| ==> s[i] == c
    ensures c !in s[..i]
  {
    if s == [] then 0
    else if s[0] == c then 0
    else
      var j := IndexOf(s[1..], c);
      assert s[..j + 1] == [s[0]] + s[1..][..j];
      assert s == [s[0]] + s[1..];
      j + 1
  }

  /** `s.replace(c, "")` for a one-character pattern: the first `c`, and only
      that one, is removed. */
  function RemoveFirst(s: string, c: char): (r: string)
    ensures c !in s ==> r == s
    ensures c in s ==> |r| == |s| - 1
  {
    if s == [] then s
    else if s[0] == c then s[1..]
    else [s[0]] + RemoveFirst(s[1..], c)
  }

  /** What `RemoveFirst` removes is the first `c`: the text before it and the
      text after it are kept, in order. */
  lemma {:induction false} RemoveFirstAt(s: string, c: char)
    requires c in s
    ensures RemoveFirst(s, c) == s[..IndexOf(s, c)] + s[IndexOf(s, c) + 1..]
  {
    if s[0] != c {
      var head, t := s[0], s[1..];
      assert s == [head] + t;
      RemoveFirstAt(t, c);
      var j := IndexOf(t, c);
      assert IndexOf(s, c) == j + 1;
      calc {
        RemoveFirst(s, c);
        [head] + RemoveFirst(t, c);
        [head] + (t[..j] + t[j + 1..]);
        ([head] + t[..j]) + t[j + 1..];
        { assert s[..j + 1] == [head] + t[..j]; assert s[j + 2..] == t[j + 1..]; }
        s[..j + 1] + s[j + 2..];
      }
    }
  }

  /** Removing one character leaves the count of every other character alone. */
  lemma {:induction false} RemoveFirstKeepsOthers(s: string, c: char, d: char)
    requires c != d
    ensures CountOf(RemoveFirst(s, c), d) == CountOf(s, d)
  {
    if s != [] && s[0] != c {
      RemoveFirstKeepsOthers(s[1..], c, d);
      assert ([s[0]] + RemoveFirst(s[1..], c))[1..] == RemoveFirst(s[1..], c);
    }
  }

  /** `parts.join(sep)`. */
  function Join(parts: seq<string>, sep: char): string
  {
    if parts == [] then ""
    else if |parts| == 1 then parts[0]
    else parts[0] + [sep] + Join(parts[1..], sep)
  }

  /** Joining a list whose first piece starts with `ch` is `ch` before the join
      of the list with that character dropped. */
  lemma JoinPrepend(ch: char, parts: seq<string>, sep: char)
    requires |parts| >= 1
    ensures Join([[ch] + parts[0]] + parts[1..], sep) == [ch] + Join(parts, sep)
  {
    var r := [[ch] + parts[0]] + parts[1..];
    assert r[1..] == parts[1..];
  }

  /** `s.split(sep)` for a one-character separator: the pieces between the
      separators, always one more piece than there are separators, so that the
      empty string splits into one empty piece. */
  function Split(s: string, sep: char): (r: seq<string>)
    ensures |r| == CountOf(s, sep) + 1
    ensures forall i :: 0 <= i < |r| ==> sep !in r[i]
    ensures Join(r, sep) == s
  {
    if s == [] then [""]
    else
      var rest := Split(s[1..], sep);
      assert s == [s[0]] + s[1..];
      if s[0] == sep then
        assert ([""] + rest)[1..] == rest;
        [""] + rest
      else
        JoinPrepend(s[0], rest, sep);
        [[s[0]] + rest[0]] + rest[1..]
  }

  /** A string without the separator splits into itself alone. */
  lemma {:induction false} SplitWithoutSeparator(a: string, sep: char)
    requires sep !in a
    ensures Split(a, sep) == [a]
  {
    if a != [] {
      SplitWithoutSeparator(a[1..], sep);
      assert [a[0]] + a[1..] == a;
    }
  }

  /** The text before the first separator is the first piece. */
  lemma {:induction false} SplitAfterPiece(a: string, t: string, sep: char)
    requires sep !in a
    ensures Split(a + [sep] + t, sep) == [a] + Split(t, sep)
  {
    if a == [] {
      SplitCons(sep, t, sep);
      assert a + [sep] + t == [sep] + t;
    } else {
      var head, rest := a[0], a[1..];
      assert a == [head] + rest;
      var tail := rest + [sep] + t;
      assert a + [sep] + t == [head] + tail;
      assert sep !in rest && head != sep;
      SplitAfterPiece(rest, t, sep);
      SplitCons(head, tail, sep);
      var pieces := Split(tail, sep);
      assert pieces == [rest] + Split(t, sep);
      assert pieces[0] == rest && pieces[1..] == Split(t, sep);
    }
  }

  /** One step of `Split`, on a string with a known first character. */
  lemma SplitCons(ch: char, t: string, sep: char)
    ensures Split([ch] + t, sep)
            == if ch == sep then [""] + Split(t, sep) else [[ch] + Split(t, sep)[0]] + Split(t, sep)[1..]
  {
    assert ([ch] + t)[1..] == t;
  }

  /** `split` undoes `join` for pieces that do not contain the separator. */
  lemma {:induction false} SplitJoin(parts: seq<string>, sep: char)
    requires |parts| >= 1
    requires forall i :: 0 <= i < |parts| ==> sep !in parts[i]
    ensures Split(Join(parts, sep), sep) == parts
  {
    if |parts| == 1 {
      SplitWithoutSeparator(parts[0], sep);
    } else {
      assert forall i :: 0 <= i < |parts| - 1 ==> parts[1..][i] == parts[i + 1];
      SplitJoin(parts[1..], sep);
      SplitAfterPiece(parts[0], Join(parts[1..], sep), sep);
      assert [parts[0]] + parts[1..] == parts;
    }
  }

  /** The text before and after the first `c`, or None when `s` has no `c`. */
  function SplitAtFirst(s: string, c: char): (r: Option<(string, string)>)
    ensures r.None? <==> c !in s
    ensures r.Some? ==> s == r.value.0 + [c] + r.value.1 && c !in r.value.0
  {
    var i := IndexOf(s, c);
    if i == |s| then None
    else
      assert s == s[..i] + [c] + s[i + 1..];
      Some((s[..i], s[i + 1..]))
  }

  /** The first `c` is found again after the prefix that lacks it. */
  lemma SplitAtFirstOf(a: string, b: string, c: char)
    requires c !in a
    ensures SplitAtFirst(a + [c] + b, c) == Some((a, b))
  {
    var s := a + [c] + b;
    assert s[|a|] == c;
    var i := IndexOf(s, c);
    assert forall k :: 0 <= k < |a| ==> s[k] == a[k];
    assert i == |a|;
    assert s[..|a|] == a;
    assert s[|a| + 1..] == b;
  }

  predicate IsDigit(c: char) {
    '0' <= c <= '9'
  }

  predicate AllDigits(s: string) {
    forall i :: 0 <= i < |s| ==> IsDigit(s[i])
  }

  function DigitChar(d: nat): (c: char)
    requires d < 10
    ensures IsDigit(c) && c as int - '0' as int == d
  {
    ('0' as int + d) as char
  }

  /** The decimal text of `n`, as JavaScript writes a non-negative integer
      below 10^21 (larger ones switch to exponent form): digits only, and no
      leading zero except in "0" itself. */
  function Decimal(n: nat): (r: string)
    ensures |r| >= 1 && AllDigits(r)
    ensures r[0] == '0' ==> r == "0"
  {
    if n < 10 then [DigitChar(n)] else Decimal(n / 10) + [DigitChar(n % 10)]
  }

  /** The value of a string of decimal digits. */
  function DecimalValue(s: string): (n: nat)
    requires AllDigits(s)
  {
    if s == [] then 0 else 10 * DecimalValue(s[..|s| - 1]) + (s[|s| - 1] as int - '0' as int)
  }

  /** Reading the decimal text back gives the number. */
  lemma {:induction false} DecimalRoundTrip(n: nat)
    ensures DecimalValue(Decimal(n)) == n
  {
    if n >= 10 {
      var r := Decimal(n);
      assert r[..|r| - 1] == Decimal(n / 10);
      DecimalRoundTrip(n / 10);
    }
  }
}
