/*
 * The few C string primitives the rule engine relies on, over Dafny strings.
 * A C string is modelled by the characters before its terminating NUL, so a
 * string here never contains '\0'; the end of the sequence plays the NUL.
 */
module CString {

  /** `p` is a prefix of `s`. */
  predicate IsPrefix(p: string, s: string)
  {
    |p| <= |s| && s[..|p|] == p
  }

  /**
   * strncmp(a, b, n) == 0: the two strings agree on their first n
   * characters, where comparison stops early once both have ended.
   */
  predicate StrnEq(a: string, b: string, n: nat)
    decreases n
  {
    if n == 0 then true
    else if |a| == 0 || |b| == 0 then |a| == 0 && |b| == 0
    else a[0] == b[0] && StrnEq(a[1..], b[1..], n - 1)
  }

  /** Comparing a string against `p` over exactly strlen(p) characters is a prefix test. */
  lemma {:induction false} StrnEqIsPrefix(s: string, p: string)
    ensures StrnEq(s, p, |p|) <==> IsPrefix(p, s)
    decreases |p|
  {
    if |p| != 0 && |s| != 0 {
      StrnEqIsPrefix(s[1..], p[1..]);
      assert IsPrefix(p, s) <==> s[0] == p[0] && IsPrefix(p[1..], s[1..]) by {
        if |p| <= |s| {
          assert s[..|p|] == [s[0]] + s[1..][..|p| - 1];
          assert p == [p[0]] + p[1..];
        }
      }
    }
  }

  /**
   * strchr(s, c) as an index: the position of the first `c` in `s`, or |s|
   * when there is none (strchr's NULL).
   */
  function IndexOf(s: string, c: char): (r: nat)
    ensures r <= |s|
    ensures r < |s| ==> s[r] == c
    ensures forall k :: 0 <= k < r ==> s[k] != c
  {
    if |s| == 0 then 0
    else if s[0] == c then 0
    else 1 + IndexOf(s[1..], c)
  }

  /** In `name=value` with no '=' in the name, strchr finds the '=' right after the name. */
  lemma {:induction false} IndexOfField(name: string, value: string)
    requires '=' !in name
    ensures IndexOf(name + "=" + value, '=') == |name|
    ensures (name + "=" + value)[..|name|] == name
    ensures (name + "=" + value)[|name| + 1..] == value
    decreases |name|
  {
    var s := name + "=" + value;
    if |name| > 0 {
      IndexOfField(name[1..], value);
      assert s[1..] == name[1..] + "=" + value;
    }
  }

  /**
   * The tokens strtok(buf, " ") hands out one after another: the maximal runs
   * of characters other than ' ', in order; empty tokens never appear.
   */
  function Tokens(s: string): (toks: seq<string>)
    ensures forall k :: 0 <= k < |toks| ==> |toks[k]| > 0 && ' ' !in toks[k]
    decreases |s|
  {
    if |s| == 0 then []
    else if s[0] == ' ' then Tokens(s[1..])
    else
      var n := IndexOf(s, ' ');
      [s[..n]] + Tokens(s[n..])
  }

  /** The words `ws` written out with one blank between neighbours. */
  function Join(ws: seq<string>): string
  {
    if |ws| == 0 then ""
    else if |ws| == 1 then ws[0]
    else ws[0] + " " + Join(ws[1..])
  }

  /** Splitting a blank-separated line gives back the words it was made of. */
  lemma {:induction false} TokensOfJoin(ws: seq<string>)
    requires forall k :: 0 <= k < |ws| ==> |ws[k]| > 0 && ' ' !in ws[k]
    ensures Tokens(Join(ws)) == ws
    decreases |ws|
  {
    if |ws| == 1 {
      TokensOfWord(ws[0], "");
      assert ws[0] + "" == ws[0];
    } else if |ws| > 1 {
      var rest := " " + Join(ws[1..]);
      assert Join(ws) == ws[0] + rest;
      TokensOfWord(ws[0], rest);
      assert Tokens(rest) == Tokens(Join(ws[1..])) by {
        assert rest[0] == ' ' && rest[1..] == Join(ws[1..]);
      }
      TokensOfJoin(ws[1..]);
    }
  }

  /** A character of one of the words is a character of the joined line. */
  lemma {:induction false} InJoin(ws: seq<string>, k: nat, c: char)
    requires k < |ws| && c in ws[k]
    ensures c in Join(ws)
    decreases k
  {
    if k == 0 {
      if |ws| > 1 {
        assert Join(ws) == ws[0] + (" " + Join(ws[1..]));
        var i :| 0 <= i < |ws[0]| && ws[0][i] == c;
        assert Join(ws)[i] == c;
      }
    } else {
      InJoin(ws[1..], k - 1, c);
      assert Join(ws) == (ws[0] + " ") + Join(ws[1..]);
      var i :| 0 <= i < |Join(ws[1..])| && Join(ws[1..])[i] == c;
      assert Join(ws)[|ws[0]| + 1 + i] == c;
    }
  }

  /** A character other than the blank that no word contains is not in the joined line. */
  lemma {:induction false} NotInJoin(ws: seq<string>, c: char)
    requires c != ' '
    requires forall k :: 0 <= k < |ws| ==> c !in ws[k]
    ensures c !in Join(ws)
    decreases |ws|
  {
    if |ws| > 1 {
      NotInJoin(ws[1..], c);
      assert Join(ws) == ws[0] + " " + Join(ws[1..]);
    }
  }

  /** A word followed by text starting with a blank (or by nothing) is the first token. */
  lemma TokensOfWord(w: string, rest: string)
    requires |w| > 0 && ' ' !in w
    requires |rest| == 0 || rest[0] == ' '
    ensures Tokens(w + rest) == [w] + Tokens(rest)
  {
    var s := w + rest;
    assert s[0] == w[0];
    var n := IndexOf(s, ' ');
    assert forall k :: 0 <= k < |w| ==> s[k] == w[k];
    assert |rest| > 0 ==> s[|w|] == ' ';
    assert n == |w|;
    assert s[..n] == w && s[n..] == rest;
  }

  predicate IsDigit(c: char)
  {
    '0' <= c <= '9'
  }

  /** Number of leading decimal digits of `s`. */
  function DigitRun(s: string): (n: nat)
    ensures n <= |s|
    ensures forall k :: 0 <= k < n ==> IsDigit(s[k])
    ensures n < |s| ==> !IsDigit(s[n])
  {
    if |s| == 0 || !IsDigit(s[0]) then 0 else 1 + DigitRun(s[1..])
  }

  /** Value of a string of decimal digits. */
  function Decimal(ds: string): nat
    requires forall k :: 0 <= k < |ds| ==> IsDigit(ds[k])
  {
    if |ds| == 0 then 0
    else
      var last := ds[|ds| - 1];
      assert IsDigit(last);
      Decimal(ds[..|ds| - 1]) * 10 + (last as int - '0' as int)
  }

  /**
   * strtol(s, NULL, 10) for a string whose first character is a digit: the
   * value of the leading run of digits (before any range check).
   */
  function StrToL(s: string): (v: nat)
    ensures (forall k :: 0 <= k < |s| ==> IsDigit(s[k])) ==> v == Decimal(s)
  {
    var n := DigitRun(s);
    assert n == |s| ==> s[..n] == s;
    Decimal(s[..n])
  }
}
