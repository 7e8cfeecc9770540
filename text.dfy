/**
 * The string operations the message handler relies on: `String.prototype.split(' ')`,
 * `String.prototype.includes`, and the `+s` / `isNaN` number test, restricted to
 * optionally signed decimal-digit strings.
 */
module Text {
  import opened Wrappers

  // ---------------------------------------------------------------------------
  // split(' ')
  // ---------------------------------------------------------------------------

  /** `s.split(' ')`: cut at every single space; adjacent spaces give empty tokens. */
  function Split(s: string): (r: seq<string>)
    ensures |r| >= 1
    ensures forall i :: 0 <= i < |r| ==> ' ' !in r[i]
  {
    if s == [] then [""]
    else
      var rest := Split(s[1..]);
      if s[0] == ' ' then [""] + rest
      else [[s[0]] + rest[0]] + rest[1..]
  }

  /** `tokens.join(' ')`, the inverse of Split. */
  function Join(tokens: seq<string>): string
    requires |tokens| >= 1
  {
    if |tokens| == 1 then tokens[0]
    else tokens[0] + " " + Join(tokens[1..])
  }

  /** `msgArray[i]`: the i-th token, or `undefined` past the end. */
  function TokenAt(tokens: seq<string>, i: nat): Option<string> {
    if i < |tokens| then Some(tokens[i]) else None
  }

  /** `msgArray[1]` of `s.split(' ')` is defined exactly when the text has a space. */
  lemma {:induction false} SecondTokenIffSpace(s: string)
    ensures TokenAt(Split(s), 1).Some? <==> ' ' in s
  {
    if s != [] {
      SecondTokenIffSpace(s[1..]);
      assert s == [s[0]] + s[1..];
      assert ' ' in s <==> s[0] == ' ' || ' ' in s[1..];
    }
  }

  /** Gluing a word onto the first token glues it onto the front of the joined text. */
  lemma {:induction false} JoinGlueFirst(w: string, tokens: seq<string>)
    requires |tokens| >= 1
    ensures Join([w + tokens[0]] + tokens[1..]) == w + Join(tokens)
  {
    var glued := [w + tokens[0]] + tokens[1..];
    if |tokens| > 1 {
      assert glued[1..] == tokens[1..];
      assert Join(glued) == (w + tokens[0]) + " " + Join(tokens[1..]);
      assert Join(tokens) == tokens[0] + " " + Join(tokens[1..]);
    }
  }

  /** Joining the tokens back with single spaces gives the original text. */
  lemma {:induction false} JoinSplit(s: string)
    ensures Join(Split(s)) == s
  {
    if s != [] {
      var rest := Split(s[1..]);
      JoinSplit(s[1..]);
      assert s == [s[0]] + s[1..];
      if s[0] == ' ' {
        var r := [""] + rest;
        assert r[1..] == rest;
        assert Join(r) == "" + " " + Join(rest);
      } else {
        JoinGlueFirst([s[0]], rest);
      }
    }
  }

  /** Splitting text that starts with a space-free word glues the word onto the first token. */
  lemma {:induction false} SplitWordPrefix(w: string, s: string)
    requires ' ' !in w
    ensures Split(w + s) == [w + Split(s)[0]] + Split(s)[1..]
  {
    if w != [] {
      SplitWordPrefix(w[1..], s);
      var rest := Split(w[1..] + s);
      assert (w + s)[1..] == w[1..] + s;
      assert (w + s)[0] == w[0] && w[0] != ' ';
      assert Split(w + s) == [[w[0]] + rest[0]] + rest[1..];
      assert rest[0] == w[1..] + Split(s)[0];
      assert rest[1..] == Split(s)[1..];
      assert [w[0]] + (w[1..] + Split(s)[0]) == w + Split(s)[0];
    } else {
      assert w + s == s;
      assert w + Split(s)[0] == Split(s)[0];
      assert Split(s) == [Split(s)[0]] + Split(s)[1..];
    }
  }

  /** Splitting space-free tokens joined by single spaces gives the tokens back. */
  lemma {:induction false} SplitJoin(tokens: seq<string>)
    requires |tokens| >= 1
    requires forall i :: 0 <= i < |tokens| ==> ' ' !in tokens[i]
    ensures Split(Join(tokens)) == tokens
  {
    if |tokens| == 1 {
      SplitWordPrefix(tokens[0], "");
      assert tokens[0] + "" == tokens[0];
    } else {
      var rest := Join(tokens[1..]);
      SplitJoin(tokens[1..]);
      assert Join(tokens) == tokens[0] + (" " + rest);
      SplitWordPrefix(tokens[0], " " + rest);
      assert (" " + rest)[1..] == rest;
      assert Split(" " + rest) == [""] + tokens[1..];
      assert Split(Join(tokens)) == [tokens[0] + ""] + tokens[1..];
      assert tokens[0] + "" == tokens[0];
      assert tokens == [tokens[0]] + tokens[1..];
    }
  }

  // ---------------------------------------------------------------------------
  // includes
  // ---------------------------------------------------------------------------

  predicate IsPrefix(p: string, s: string) {
    |p| <= |s| && s[..|p|] == p
  }

  /** `s.includes(t)`. */
  predicate Contains(s: string, t: string) {
    IsPrefix(t, s) || (s != [] && Contains(s[1..], t))
  }

  ghost predicate OccursAt(s: string, t: string, i: int) {
    0 <= i && i + |t| <= |s| && s[i..i + |t|] == t
  }

  /** Contains means: t is found at some position of s. */
  lemma {:induction false} ContainsIffOccurs(s: string, t: string)
    ensures Contains(s, t) <==> exists i :: OccursAt(s, t, i)
  {
    if Contains(s, t) {
      if IsPrefix(t, s) {
        assert OccursAt(s, t, 0);
      } else {
        ContainsIffOccurs(s[1..], t);
        var i :| OccursAt(s[1..], t, i);
        assert s[1..][i..i + |t|] == s[i + 1..i + 1 + |t|];
        assert OccursAt(s, t, i + 1);
      }
    }
    if exists i :: OccursAt(s, t, i) {
      var i :| OccursAt(s, t, i);
      if i == 0 {
        assert IsPrefix(t, s);
      } else {
        assert s[1..][i - 1..i - 1 + |t|] == s[i..i + |t|];
        assert OccursAt(s[1..], t, i - 1);
        ContainsIffOccurs(s[1..], t);
      }
    }
  }

  /** A text only contains strings no longer than itself, and of its own length only itself. */
  lemma {:induction false} ContainsLength(s: string, t: string)
    requires Contains(s, t)
    ensures |t| <= |s|
    ensures |t| == |s| ==> s == t
  {
    if !IsPrefix(t, s) {
      ContainsLength(s[1..], t);
    } else {
      assert |t| == |s| ==> s[..|t|] == s;
    }
  }

  /** A text contains whatever it starts with. */
  lemma {:induction false} ContainsPrefixOf(p: string, s: string)
    ensures Contains(p + s, p)
  {
    assert (p + s)[..|p|] == p;
  }

  // ---------------------------------------------------------------------------
  // Numbers: `!isNaN(+s) ? +s : default`
  // ---------------------------------------------------------------------------

  predicate IsDigit(c: char) {
    '0' <= c <= '9'
  }

  /** One or more decimal digits. */
  predicate IsDigits(s: string) {
    |s| > 0 && forall i :: 0 <= i < |s| ==> IsDigit(s[i])
  }

  /** Value of a string of decimal digits, most significant first. */
  function DigitsValue(s: string): nat
    requires forall i :: 0 <= i < |s| ==> IsDigit(s[i])
  {
    if s == [] then 0
    else DigitsValue(s[..|s| - 1]) * 10 + DigitOf(s[|s| - 1])
  }

  function DigitOf(c: char): nat
    requires IsDigit(c)
  {
    c as int - '0' as int
  }

  function DigitChar(d: nat): (c: char)
    requires d < 10
    ensures IsDigit(c) && DigitOf(c) == d
  {
    ('0' as int + d) as char
  }

  /** Decimal notation of a natural number, without leading zeros. */
  function NatToDigits(n: nat): (r: string)
    ensures IsDigits(r)
  {
    if n < 10 then [DigitChar(n)] else NatToDigits(n / 10) + [DigitChar(n % 10)]
  }

  /** Decimal notation of an integer, as JavaScript prints a whole number. */
  function FormatInt(n: int): string {
    if n < 0 then "-" + NatToDigits(-n) else NatToDigits(n)
  }

  /**
   * `+s` when it is a whole number: an optional sign followed by decimal digits.
   * None stands for NaN.
   */
  function ParseNum(s: string): Option<int> {
    if |s| > 0 && (s[0] == '-' || s[0] == '+') && IsDigits(s[1..]) then
      Some(if s[0] == '-' then 0 - DigitsValue(s[1..]) else DigitsValue(s[1..]))
    else if IsDigits(s) then Some(DigitsValue(s))
    else None
  }

  /**
   * `tok && !isNaN(+tok) ? +tok : default`: a missing or empty token, or one that
   * is not a number, gives the default.
   */
  function NumberOr(tok: Option<string>, default: int): int {
    if Truthy(tok) && ParseNum(tok.value).Some? then ParseNum(tok.value).value else default
  }

  lemma {:induction false} DigitsRoundTrip(n: nat)
    ensures DigitsValue(NatToDigits(n)) == n
  {
    if n >= 10 {
      DigitsRoundTrip(n / 10);
      var r := NatToDigits(n);
      assert r[..|r| - 1] == NatToDigits(n / 10);
    }
  }

  /** A number printed in decimal reads back as the same number. */
  lemma {:induction false} ParseFormat(n: int)
    ensures ParseNum(FormatInt(n)) == Some(n)
  {
    if n < 0 {
      var r := FormatInt(n);
      assert r[1..] == NatToDigits(-n);
      DigitsRoundTrip(-n);
    } else {
      DigitsRoundTrip(n);
    }
  }

  /** The printed number is a non-empty token without spaces. */
  lemma {:induction false} FormatIntIsToken(n: int)
    ensures FormatInt(n) != "" && ' ' !in FormatInt(n)
  {
    var r := NatToDigits(if n < 0 then -n else n);
    assert forall i :: 0 <= i < |r| ==> r[i] != ' ';
    if n < 0 {
      assert FormatInt(n) == ['-'] + r;
      assert forall i :: 0 <= i < |FormatInt(n)| ==> FormatInt(n)[i] != ' ' by {
        forall i | 0 <= i < |FormatInt(n)| ensures FormatInt(n)[i] != ' ' {
          if i > 0 { assert FormatInt(n)[i] == r[i - 1]; }
        }
      }
    }
  }

  /** A printed number yields itself, whatever the default. */
  lemma {:induction false} NumberOrFormatted(n: int, default: int)
    ensures NumberOr(Some(FormatInt(n)), default) == n
  {
    ParseFormat(n);
    FormatIntIsToken(n);
  }
}
