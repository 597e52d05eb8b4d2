/**
 * The PHP string built-ins the generator relies on: `explode`, `implode`,
 * the pair-destructuring `list($a, $b) = explode(...)`, `ctype_digit`,
 * numeric-string values, integer-to-string conversion and `ucfirst`.
 * Strings are sequences of characters; only ASCII case mapping is modelled.
 */
module PhpStrings {
  import opened Wrappers

  /** `explode(c, s)`: the pieces of `s` between occurrences of `c`, never empty. */
  function Explode(c: char, s: string): (pieces: seq<string>)
    ensures |pieces| >= 1
    ensures forall i :: 0 <= i < |pieces| ==> c !in pieces[i]
    decreases |s|
  {
    if s == [] then [[]]
    else
      var rest := Explode(c, s[1..]);
      if s[0] == c then [[]] + rest
      else [[s[0]] + rest[0]] + rest[1..]
  }

  /** `implode(sep, parts)`: the parts joined by `sep`; the empty list gives "". */
  function Implode(sep: string, parts: seq<string>): string
    decreases |parts|
  {
    if |parts| == 0 then []
    else if |parts| == 1 then parts[0]
    else parts[0] + sep + Implode(sep, parts[1..])
  }

  /** `@list($first, $second) = explode(c, s)`: the first piece, and the second one or
      `null` when there is none; further pieces are dropped. */
  function First(pieces: seq<string>): string
    requires |pieces| >= 1
  {
    pieces[0]
  }

  function Second(pieces: seq<string>): (second: Option<string>)
    ensures second.None? <==> |pieces| < 2
  {
    if |pieces| >= 2 then Some(pieces[1]) else None
  }

  predicate IsDigit(ch: char) { '0' <= ch <= '9' }

  predicate AllDigits(s: string) { forall i :: 0 <= i < |s| ==> IsDigit(s[i]) }

  /** `ctype_digit($s)` on a string: non-empty and every character is 0-9. */
  predicate CtypeDigit(s: string)
    ensures CtypeDigit(s) ==> ':' !in s && '-' !in s && '*' !in s
  {
    |s| > 0 && AllDigits(s)
  }

  /** As `ctype_digit`, extended to PHP's `null`, for which it is false. */
  predicate CtypeDigitOpt(s: Option<string>) { s.Some? && CtypeDigit(s.value) }

  /** The integer a digit string denotes when PHP compares or converts it (leading zeros ignored). */
  function DigitsValue(s: string): (v: nat)
    requires AllDigits(s)
    ensures |s| > 0 && s[0] == '0' ==> v == DigitsValue(s[1..])
  {
    if s == [] then 0
    else
      assert |s| > 1 && s[0] == '0' ==> s[..|s| - 1][1..] == s[1..][..|s| - 2];
      DigitsValue(s[..|s| - 1]) * 10 + (s[|s| - 1] as int - '0' as int)
  }

  /** The decimal text PHP produces for a non-negative integer (`"$n"`). */
  function NatToString(n: nat): (s: string)
    ensures CtypeDigit(s)
    ensures s[0] == '0' ==> n == 0
  {
    if n < 10 then [('0' as int + n) as char]
    else NatToString(n / 10) + [('0' as int + n % 10) as char]
  }

  predicate IsLower(ch: char) { 'a' <= ch <= 'z' }

  predicate IsUpper(ch: char) { 'A' <= ch <= 'Z' }

  function ToUpper(ch: char): (up: char)
    ensures IsLower(ch) ==> IsUpper(up)
    ensures !IsLower(ch) ==> up == ch
  {
    if IsLower(ch) then (ch as int - 'a' as int + 'A' as int) as char else ch
  }

  /** `ucfirst($s)`: the first character upper-cased, the rest untouched. */
  function UcFirst(s: string): (t: string)
    ensures |t| == |s|
  {
    if s == [] then [] else [ToUpper(s[0])] + s[1..]
  }

  /** The number of occurrences of `c` in `s`. */
  function CountChar(c: char, s: string): nat
  {
    if s == [] then 0 else (if s[0] == c then 1 else 0) + CountChar(c, s[1..])
  }

  /** Splitting a text on `c` and joining the pieces with `c` gives the text back. */
  lemma {:induction false} ImplodeExplode(c: char, s: string)
    ensures Implode([c], Explode(c, s)) == s
    decreases |s|
  {
    if s != [] {
      var rest := Explode(c, s[1..]);
      ImplodeExplode(c, s[1..]);
      if s[0] == c {
        assert Explode(c, s) == [[]] + rest;
        assert Implode([c], [[]] + rest) == [] + [c] + Implode([c], rest);
      } else if |rest| == 1 {
        assert Explode(c, s) == [[s[0]] + rest[0]];
        assert s == [s[0]] + s[1..];
      } else {
        var pieces := [[s[0]] + rest[0]] + rest[1..];
        assert Explode(c, s) == pieces;
        assert pieces[1..] == rest[1..];
        assert Implode([c], rest) == rest[0] + [c] + Implode([c], rest[1..]);
        assert Implode([c], pieces) == [s[0]] + rest[0] + [c] + Implode([c], rest[1..]);
        assert s == [s[0]] + s[1..];
      }
    }
  }

  /** A text without `c` explodes into itself alone. */
  lemma {:induction false} ExplodeNoSeparator(c: char, s: string)
    requires c !in s
    ensures Explode(c, s) == [s]
    decreases |s|
  {
    if s != [] {
      ExplodeNoSeparator(c, s[1..]);
      assert s == [s[0]] + s[1..];
    }
  }

  /** Exploding at one occurrence of `c` splits the pieces there. */
  lemma {:induction false} ExplodeAppend(c: char, x: string, y: string)
    ensures Explode(c, x + [c] + y) == Explode(c, x) + Explode(c, y)
    decreases |x|
  {
    if x == [] {
      assert (x + [c] + y)[1..] == y;
    } else {
      var h, t := x[0], x[1..];
      ExplodeAppend(c, t, y);
      assert x == [h] + t;
      assert x + [c] + y == [h] + (t + [c] + y);
      if h == c {
        ExplodeAppendAtSeparator(c, t, y);
      } else {
        ExplodeAppendAtChar(c, h, t, y);
      }
    }
  }

  /** The step of `ExplodeAppend` for a text starting with the separator. */
  lemma ExplodeAppendAtSeparator(c: char, t: string, y: string)
    requires Explode(c, t + [c] + y) == Explode(c, t) + Explode(c, y)
    ensures Explode(c, [c] + (t + [c] + y)) == Explode(c, [c] + t) + Explode(c, y)
  {
    ExplodeSeparatorCons(c, t + [c] + y);
    ExplodeSeparatorCons(c, t);
  }

  /** The step of `ExplodeAppend` for a text starting with another character. */
  lemma ExplodeAppendAtChar(c: char, h: char, t: string, y: string)
    requires h != c
    requires Explode(c, t + [c] + y) == Explode(c, t) + Explode(c, y)
    ensures Explode(c, [h] + (t + [c] + y)) == Explode(c, [h] + t) + Explode(c, y)
  {
    var p, q := Explode(c, t), Explode(c, y);
    ExplodeCons(c, h, t + [c] + y);
    ExplodeCons(c, h, t);
    assert (p + q)[0] == p[0];
    ShiftFirst([h] + p[0], p, q);
  }

  /** Replacing the first element of `p + q` replaces the first element of `p`. */
  lemma ShiftFirst<T>(x: T, p: seq<T>, q: seq<T>)
    requires |p| >= 1
    ensures [x] + (p + q)[1..] == ([x] + p[1..]) + q
  {
    assert (p + q)[1..] == p[1..] + q;
  }

  /** Prepending the separator adds an empty first piece. */
  lemma ExplodeSeparatorCons(c: char, s: string)
    ensures Explode(c, [c] + s) == [[]] + Explode(c, s)
  {
    assert ([c] + s)[1..] == s;
  }

  /** Prepending a character other than `c` extends the first piece. */
  lemma ExplodeCons(c: char, ch: char, s: string)
    requires ch != c
    ensures Explode(c, [ch] + s) == [[ch] + Explode(c, s)[0]] + Explode(c, s)[1..]
  {
    assert ([ch] + s)[1..] == s;
  }

  /** A character absent from the separator and from every part is absent from the join. */
  lemma {:induction false} ImplodeAvoids(c: char, sep: string, parts: seq<string>)
    requires c !in sep
    requires forall i :: 0 <= i < |parts| ==> c !in parts[i]
    ensures c !in Implode(sep, parts)
    decreases |parts|
  {
    if |parts| > 1 {
      ImplodeAvoids(c, sep, parts[1..]);
    }
  }

  /** Joining pieces that do not contain `c` with `c` and exploding on `c` gives the pieces back. */
  lemma {:induction false} ExplodeImplode(c: char, parts: seq<string>)
    requires |parts| >= 1
    requires forall i :: 0 <= i < |parts| ==> c !in parts[i]
    ensures Explode(c, Implode([c], parts)) == parts
    decreases |parts|
  {
    if |parts| == 1 {
      ExplodeNoSeparator(c, parts[0]);
    } else {
      ExplodeImplode(c, parts[1..]);
      ExplodeNoSeparator(c, parts[0]);
      ExplodeAppend(c, parts[0], Implode([c], parts[1..]));
      assert parts == [parts[0]] + parts[1..];
    }
  }

  /** `s` is `a`, `c`, `b` and then nothing or a further `c` and anything: the split that
      `list($a, $b) = explode(c, s)` reads, when neither `a` nor `b` holds `c`. */
  predicate SplitsAt(c: char, s: string, a: string, b: string, rest: string)
  {
    s == a + [c] + b + rest && (rest == [] || rest[0] == c)
  }

  /** What follows the second piece of `explode(c, s)`: empty when there are only two
      pieces, otherwise `c` and the remaining pieces joined by `c`. */
  function Remainder(c: char, pieces: seq<string>): string
    requires |pieces| >= 2
  {
    if |pieces| == 2 then [] else [c] + Implode([c], pieces[2..])
  }

  /** A text with at least two pieces is its first piece, `c`, its second piece and a
      remainder that is empty or starts with `c`. */
  lemma ExplodeFirstTwo(c: char, s: string)
    requires |Explode(c, s)| >= 2
    ensures var p := Explode(c, s);
      && s == p[0] + [c] + p[1] + Remainder(c, p)
      && (Remainder(c, p) == [] || Remainder(c, p)[0] == c)
  {
    var p := Explode(c, s);
    ImplodeExplode(c, s);
    assert p[1..][1..] == p[2..];
  }

  /** A text that explodes into one piece is that piece. */
  lemma ExplodeOnePiece(c: char, s: string)
    requires |Explode(c, s)| == 1
    ensures Explode(c, s) == [s]
  {
    ImplodeExplode(c, s);
  }

  /** The pieces of `a`, `c`, `b` and a remainder that is empty or starts with `c` begin
      with `a` and `b` when neither holds `c`. */
  lemma ExplodePair(c: char, a: string, b: string, rest: string)
    requires c !in a && c !in b
    requires rest == [] || rest[0] == c
    ensures var p := Explode(c, a + [c] + b + rest);
      |p| >= 2 && p[0] == a && p[1] == b && (|p| == 2 <==> rest == [])
  {
    ExplodeNoSeparator(c, a);
    ExplodeNoSeparator(c, b);
    assert a + [c] + b + rest == a + [c] + (b + rest);
    ExplodeAppend(c, a, b + rest);
    if rest != [] {
      assert b + rest == b + [c] + rest[1..];
      ExplodeAppend(c, b, rest[1..]);
      assert Explode(c, b + rest) == [b] + Explode(c, rest[1..]);
    } else {
      assert b + rest == b;
    }
    assert Explode(c, a + [c] + b + rest) == [a] + Explode(c, b + rest);
  }

  /** Reading back the decimal text of `n` gives `n`. */
  lemma {:induction false} NatToStringValue(n: nat)
    ensures DigitsValue(NatToString(n)) == n
    decreases n
  {
    if n >= 10 {
      NatToStringValue(n / 10);
      var s := NatToString(n);
      assert s[..|s| - 1] == NatToString(n / 10);
    }
  }
}
