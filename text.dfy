/**
 * The few JavaScript string operations the bridge relies on: `String.prototype.split` and
 * `Array.prototype.join` on a one-character separator, `String.prototype.includes`, and the
 * decimal rendering of a non-negative integer (`Number.prototype.toString`).
 */
module Text {
  import opened Wrappers

  /** `s.split(sep)`: the pieces between separators; never empty, and no piece holds `sep`. */
  function Split(s: string, sep: char): (pieces: seq<string>)
    ensures |pieces| >= 1
    ensures forall i :: 0 <= i < |pieces| ==> sep !in pieces[i]
  {
    if |s| == 0 then [""]
    else
      var rest := Split(s[1..], sep);
      if s[0] == sep then [""] + rest
      else [[s[0]] + rest[0]] + rest[1..]
  }

  /** `pieces.join(sep)`. */
  function Join(pieces: seq<string>, sep: char): string
  {
    if |pieces| == 0 then ""
    else if |pieces| == 1 then pieces[0]
    else pieces[0] + [sep] + Join(pieces[1..], sep)
  }

  lemma JoinCons(pieces: seq<string>, sep: char)
    requires |pieces| >= 2
    ensures Join(pieces, sep) == pieces[0] + [sep] + Join(pieces[1..], sep)
  {
  }

  /** Joining the last piece on separately: `join(ps) == join(ps[..n-1]) + sep + ps[n-1]`. */
  lemma {:induction false} JoinSnoc(pieces: seq<string>, sep: char)
    requires |pieces| >= 2
    ensures Join(pieces, sep) == Join(pieces[..|pieces| - 1], sep) + [sep] + pieces[|pieces| - 1]
  {
    if |pieces| > 2 {
      var tail := pieces[1..];
      JoinSnoc(tail, sep);
      assert tail[..|tail| - 1] == pieces[..|pieces| - 1][1..];
      assert tail[|tail| - 1] == pieces[|pieces| - 1];
    } else {
      assert pieces[..1] == [pieces[0]];
    }
  }

  /**
   * The last piece of a split is what follows the last separator: with a separator present, the
   * other pieces joined, the separator and the last piece give the string back; without one, the
   * string is its only piece.
   */
  lemma SplitLast(s: string, sep: char)
    ensures var pieces := Split(s, sep);
      && (sep in s ==> |pieces| >= 2 && Join(pieces[..|pieces| - 1], sep) + [sep] + pieces[|pieces| - 1] == s)
      && (sep !in s ==> pieces == [s])
  {
    var pieces := Split(s, sep);
    JoinSplit(s, sep);
    if |pieces| >= 2 {
      JoinSnoc(pieces, sep);
      assert s[|Join(pieces[..|pieces| - 1], sep)|] == sep;
    } else {
      assert s == pieces[0];
    }
  }

  /** Joining what was split gives the string back. */
  lemma {:induction false} JoinSplit(s: string, sep: char)
    ensures Join(Split(s, sep), sep) == s
  {
    if |s| > 0 {
      var rest := Split(s[1..], sep);
      JoinSplit(s[1..], sep);
      if s[0] == sep {
        JoinCons([""] + rest, sep);
        assert ([""] + rest)[1..] == rest;
      } else if |rest| == 1 {
        assert Join(rest, sep) == rest[0];
      } else {
        var first := [s[0]] + rest[0];
        JoinCons(rest, sep);
        JoinCons([first] + rest[1..], sep);
        assert ([first] + rest[1..])[1..] == rest[1..];
      }
    }
  }

  /** Splitting a string that starts with a separator-free piece `a` keeps `a` at the front. */
  lemma {:induction false} SplitPrefix(a: string, tail: string, sep: char)
    requires sep !in a
    ensures Split(a + tail, sep) == [a + Split(tail, sep)[0]] + Split(tail, sep)[1..]
  {
    if |a| > 0 {
      SplitPrefix(a[1..], tail, sep);
      assert (a + tail)[1..] == a[1..] + tail;
      assert [a[0]] + (a[1..] + Split(tail, sep)[0]) == a + Split(tail, sep)[0];
    } else {
      var pieces := Split(tail, sep);
      assert a + tail == tail && a + pieces[0] == pieces[0];
      assert pieces == [pieces[0]] + pieces[1..];
    }
  }

  /** Splitting what was joined gives the pieces back, provided none of them holds the separator. */
  lemma {:induction false} SplitJoin(pieces: seq<string>, sep: char)
    requires |pieces| >= 1
    requires forall i :: 0 <= i < |pieces| ==> sep !in pieces[i]
    ensures Split(Join(pieces, sep), sep) == pieces
  {
    if |pieces| == 1 {
      SplitPrefix(pieces[0], "", sep);
      assert pieces[0] + "" == pieces[0];
    } else {
      var rest := pieces[1..];
      SplitJoin(rest, sep);
      var tail := [sep] + Join(rest, sep);
      assert Split(tail, sep) == [""] + rest by {
        assert tail[0] == sep && tail[1..] == Join(rest, sep);
      }
      SplitPrefix(pieces[0], tail, sep);
      assert pieces[0] + tail == pieces[0] + [sep] + Join(rest, sep);
      assert pieces[0] + "" == pieces[0];
    }
  }

  /** A separator just before a separator-free last piece `b` ends the split with `b`. */
  lemma {:induction false} SplitSuffix(x: string, b: string, sep: char)
    requires sep !in b
    ensures Split(x + [sep] + b, sep) == Split(x, sep) + [b]
  {
    if |x| == 0 {
      assert x + [sep] + b == [sep] + b;
      assert ([sep] + b)[1..] == b;
      SplitPrefix(b, "", sep);
      assert b + "" == b;
    } else {
      SplitSuffix(x[1..], b, sep);
      assert (x + [sep] + b)[1..] == x[1..] + [sep] + b;
    }
  }

  /** `s.includes(sub)`, scanning from the left. */
  predicate Includes(s: string, sub: string)
  {
    if |sub| > |s| then false
    else if s[..|sub|] == sub then true
    else Includes(s[1..], sub)
  }

  /** `sub` occurs in `s` at some position: the reference definition of `includes`. */
  ghost predicate IsInfix(s: string, sub: string)
  {
    exists i :: 0 <= i <= |s| - |sub| && s[i..][..|sub|] == sub
  }

  lemma {:induction false} IncludesIsInfix(s: string, sub: string)
    ensures Includes(s, sub) <==> IsInfix(s, sub)
  {
    if |sub| <= |s| {
      if s[..|sub|] == sub {
        assert s[0..][..|sub|] == sub;
      } else {
        IncludesIsInfix(s[1..], sub);
        if IsInfix(s, sub) {
          var i :| 0 <= i <= |s| - |sub| && s[i..][..|sub|] == sub;
          assert i != 0;
          assert s[1..][i - 1..] == s[i..];
        }
        if IsInfix(s[1..], sub) {
          var j :| 0 <= j <= |s| - 1 - |sub| && s[1..][j..][..|sub|] == sub;
          assert s[1..][j..] == s[j + 1..];
        }
      }
    }
  }

  // ---- decimal numerals ----

  predicate IsDigit(c: char) { '0' <= c <= '9' }

  predicate AllDigits(s: string) { forall i :: 0 <= i < |s| ==> IsDigit(s[i]) }

  function DigitChar(d: nat): (c: char)
    requires d < 10
    ensures IsDigit(c)
  {
    (48 + d) as char
  }

  function DigitValue(c: char): nat
    requires IsDigit(c)
  {
    (c as int) - 48
  }

  /** The value of a string of decimal digits, most significant first. */
  function DigitsValue(s: string): nat
    requires AllDigits(s)
  {
    if |s| == 0 then 0 else 10 * DigitsValue(s[..|s| - 1]) + DigitValue(s[|s| - 1])
  }

  /** `String(n)` for a non-negative integer: its decimal numeral. */
  function NatToString(n: nat): (s: string)
    ensures |s| >= 1 && AllDigits(s)
  {
    if n < 10 then [DigitChar(n)] else NatToString(n / 10) + [DigitChar(n % 10)]
  }

  /** Reading back the numeral `NatToString` writes gives the number. */
  lemma {:induction false} NatToStringValue(n: nat)
    ensures DigitsValue(NatToString(n)) == n
  {
    var s := NatToString(n);
    if n >= 10 {
      NatToStringValue(n / 10);
      assert s[..|s| - 1] == NatToString(n / 10);
    }
  }

  /** The numeral has no leading zero: it starts with `0` only for zero itself. */
  lemma {:induction false} NatToStringCanonical(n: nat)
    ensures NatToString(n)[0] == '0' <==> n == 0
  {
    if n >= 10 {
      NatToStringCanonical(n / 10);
      assert NatToString(n)[0] == NatToString(n / 10)[0];
    }
  }

  /** Reads a decimal numeral back, `None` for anything else: the inverse the printer is checked against. */
  function ParseNat(s: string): (r: Option<nat>)
    ensures r.Some? <==> |s| >= 1 && AllDigits(s)
  {
    if |s| >= 1 && AllDigits(s) then Some(DigitsValue(s)) else None
  }

  lemma ParseNatToString(n: nat)
    ensures ParseNat(NatToString(n)) == Some(n)
  {
    NatToStringValue(n);
  }

}
