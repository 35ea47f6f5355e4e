/**
 * The java.lang.String operations the add-on relies on, over text taken as
 * ASCII: trim, toLowerCase, startsWith, endsWith and replace(char, char).
 */
module JavaText {

  /** String.trim removes every leading and trailing character up to U+0020. */
  predicate IsTrimSpace(c: char) {
    c <= ' '
  }

  predicate AllTrimSpace(s: string) {
    forall i :: 0 <= i < |s| ==> IsTrimSpace(s[i])
  }

  /** `r` is `s[i..j]`, and only trim spaces lie before `i` and from `j` on. */
  predicate TrimmedSlice(s: string, i: int, j: int, r: string) {
    0 <= i <= j <= |s| && r == s[i..j] && AllTrimSpace(s[..i]) && AllTrimSpace(s[j..])
  }

  function TrimStart(s: string): (r: string)
    ensures |r| <= |s| && r == s[|s| - |r|..]
    ensures r == [] || !IsTrimSpace(r[0])
    ensures AllTrimSpace(s[..|s| - |r|])
    decreases |s|
  {
    if s != [] && IsTrimSpace(s[0]) then
      var r := TrimStart(s[1..]);
      TrimStartStep(s, r);
      r
    else s
  }

  function TrimEnd(s: string): (r: string)
    ensures |r| <= |s| && r == s[..|r|]
    ensures r == [] || !IsTrimSpace(r[|r| - 1])
    ensures AllTrimSpace(s[|r|..])
    decreases |s|
  {
    if s != [] && IsTrimSpace(s[|s| - 1]) then
      var r := TrimEnd(s[..|s| - 1]);
      TrimEndStep(s, r);
      r
    else s
  }

  /** Dropping one more leading trim space keeps the dropped part all trim spaces. */
  lemma TrimStartStep(s: string, r: string)
    requires s != [] && IsTrimSpace(s[0])
    requires |r| <= |s| - 1 && r == s[1..][|s| - 1 - |r|..] && AllTrimSpace(s[1..][..|s| - 1 - |r|])
    ensures r == s[|s| - |r|..] && AllTrimSpace(s[..|s| - |r|])
  {
    assert s[..|s| - |r|] == [s[0]] + s[1..][..|s| - 1 - |r|];
  }

  /** Dropping one more trailing trim space keeps the dropped part all trim spaces. */
  lemma TrimEndStep(s: string, r: string)
    requires s != [] && IsTrimSpace(s[|s| - 1])
    requires |r| <= |s| - 1 && r == s[..|s| - 1][..|r|] && AllTrimSpace(s[..|s| - 1][|r|..])
    ensures r == s[..|r|] && AllTrimSpace(s[|r|..])
  {
    assert s[|r|..] == s[..|s| - 1][|r|..] + [s[|s| - 1]];
  }

  /**
   * String.trim: TrimStart, then TrimEnd. Neither end of the result is a
   * trim space, and nothing is left exactly when the text holds only trim
   * spaces.
   */
  function Trim(s: string): (r: string)
    ensures exists i, j :: TrimmedSlice(s, i, j, r)
    ensures r == [] || (!IsTrimSpace(r[0]) && !IsTrimSpace(r[|r| - 1]))
    ensures r == [] <==> AllTrimSpace(s)
  {
    var t := TrimStart(s);
    MiddleSlice(s, t, TrimEnd(t));
    TrimEnds(s);
    TrimEmpty(s);
    TrimEnd(t)
  }

  /** A prefix `r` of a suffix `t` of `s`, with only trim spaces cut at each step, is a middle slice of `s`. */
  lemma MiddleSlice(s: string, t: string, r: string)
    requires |t| <= |s| && t == s[|s| - |t|..] && AllTrimSpace(s[..|s| - |t|])
    requires |r| <= |t| && r == t[..|r|] && AllTrimSpace(t[|r|..])
    ensures exists i, j :: TrimmedSlice(s, i, j, r)
  {
    var i := |s| - |t|;
    var j := i + |r|;
    assert r == s[i..j];
    assert t[|r|..] == s[j..];
    assert TrimmedSlice(s, i, j, r);
  }

  /** After both halves of trim, neither end of what is left is a trim space. */
  lemma TrimEnds(s: string)
    ensures var r := TrimEnd(TrimStart(s));
            |r| <= |s| && (r == [] || (!IsTrimSpace(r[0]) && !IsTrimSpace(r[|r| - 1])))
  {
    var t := TrimStart(s);
    var r := TrimEnd(t);
    assert r != [] ==> r[0] == t[..|r|][0];
  }

  lemma TrimEmpty(s: string)
    ensures TrimEnd(TrimStart(s)) == [] <==> AllTrimSpace(s)
  {
    var t := TrimStart(s);
    var k := |s| - |t|;
    if TrimEnd(t) == [] {
      assert t[0..] == t;
      AllTrimSpaceJoin(s, k);
    } else {
      assert s[k] == t[0];
    }
  }

  /** A text whose two halves hold only trim spaces holds only trim spaces. */
  lemma AllTrimSpaceJoin(s: string, k: nat)
    requires k <= |s| && AllTrimSpace(s[..k]) && AllTrimSpace(s[k..])
    ensures AllTrimSpace(s)
  {
    forall i | 0 <= i < |s|
      ensures IsTrimSpace(s[i])
    {
      if i < k {
        assert s[i] == s[..k][i];
      } else {
        assert s[i] == s[k..][i - k];
      }
    }
  }

  /**
   * String.length counts UTF-16 code units: a character beyond U+FFFF is
   * stored as a surrogate pair and counts twice.
   */
  function Utf16Units(c: char): (n: nat)
    ensures n == 1 <==> c as int <= 0xFFFF
    ensures 1 <= n <= 2
  {
    if c as int > 0xFFFF then 2 else 1
  }

  function Utf16Length(s: string): (n: nat)
    ensures |s| <= n <= 2 * |s|
    ensures n == 1 <==> |s| == 1 && s[0] as int <= 0xFFFF
    decreases |s|
  {
    if s == [] then 0 else Utf16Units(s[0]) + Utf16Length(s[1..])
  }

  /** Character.toLowerCase restricted to ASCII letters. */
  function LowerChar(c: char): char {
    if 'A' <= c <= 'Z' then (c as int + ('a' as int - 'A' as int)) as char else c
  }

  function ToLower(s: string): (r: string)
    ensures |r| == |s|
    ensures forall i :: 0 <= i < |s| ==> r[i] == LowerChar(s[i])
  {
    seq(|s|, i requires 0 <= i < |s| => LowerChar(s[i]))
  }

  /** String.startsWith: the text begins, character by character, with `prefix`. */
  predicate StartsWith(s: string, prefix: string)
    ensures StartsWith(s, prefix) <==> |prefix| <= |s| && forall i :: 0 <= i < |prefix| ==> s[i] == prefix[i]
  {
    |prefix| <= |s| && s[..|prefix|] == prefix
  }

  /** String.endsWith: the text ends, character by character, with `suffix`. */
  predicate EndsWith(s: string, suffix: string)
    ensures EndsWith(s, suffix) <==>
              |suffix| <= |s| && forall i :: 0 <= i < |suffix| ==> s[|s| - |suffix| + i] == suffix[i]
  {
    |suffix| <= |s| && s[|s| - |suffix|..] == suffix
  }

  /** String.replace(char, char): every `from` becomes `to`, nothing else moves. */
  function ReplaceChar(s: string, from: char, to: char): (r: string)
    ensures |r| == |s|
    ensures forall i :: 0 <= i < |s| ==> r[i] == if s[i] == from then to else s[i]
    ensures from != to ==> from !in r
  {
    seq(|s|, i requires 0 <= i < |s| => if s[i] == from then to else s[i])
  }

  /** Leading trim spaces never survive TrimStart, whatever follows them. */
  lemma {:induction false} TrimStartSkipsSpace(pad: string, s: string)
    requires AllTrimSpace(pad)
    ensures TrimStart(pad + s) == TrimStart(s)
    decreases |pad|
  {
    if pad != [] {
      assert (pad + s)[0] == pad[0] && (pad + s)[1..] == pad[1..] + s;
      TrimStartSkipsSpace(pad[1..], s);
    } else {
      assert pad + s == s;
    }
  }

  /** Trailing trim spaces never survive TrimEnd, whatever precedes them. */
  lemma {:induction false} TrimEndSkipsSpace(s: string, pad: string)
    requires AllTrimSpace(pad)
    ensures TrimEnd(s + pad) == TrimEnd(s)
    decreases |pad|
  {
    if pad != [] {
      var n := |pad| - 1;
      assert (s + pad)[|s + pad| - 1] == pad[n] && (s + pad)[..|s + pad| - 1] == s + pad[..n];
      TrimEndSkipsSpace(s, pad[..n]);
    } else {
      assert s + pad == s;
    }
  }

  /** Once TrimStart stops at a visible character, what follows is kept whole. */
  lemma {:induction false} TrimStartAppend(s: string, t: string)
    requires TrimStart(s) != []
    ensures TrimStart(s + t) == TrimStart(s) + t
    decreases |s|
  {
    assert (s + t)[0] == s[0];
    if IsTrimSpace(s[0]) {
      assert (s + t)[1..] == s[1..] + t;
      assert TrimStart(s + t) == TrimStart(s[1..] + t);
      TrimStartAppend(s[1..], t);
    }
  }

  /** Text made only of trim spaces trims away to nothing. */
  lemma {:induction false} TrimStartAllSpace(s: string)
    requires AllTrimSpace(s)
    ensures TrimStart(s) == []
    decreases |s|
  {
    if s != [] {
      TrimStartAllSpace(s[1..]);
    }
  }

  /** Padding with trim spaces on either side does not change String.trim. */
  lemma TrimIgnoresPadding(left: string, s: string, right: string)
    requires AllTrimSpace(left) && AllTrimSpace(right)
    ensures Trim(left + s + right) == Trim(s)
  {
    assert left + s + right == left + (s + right);
    TrimStartSkipsSpace(left, s + right);
    if TrimStart(s) != [] {
      TrimStartAppend(s, right);
      TrimEndSkipsSpace(TrimStart(s), right);
    } else {
      assert AllTrimSpace(s + right) by {
        assert AllTrimSpace(s[..|s|]);
        assert s[..|s|] == s;
      }
      TrimStartAllSpace(s + right);
    }
  }

  /**
   * TrimEnd keeps a prefix of its input whose last character is visible:
   * it only removes characters after the last visible one.
   */
  lemma {:induction false} TrimEndKeepsVisiblePrefix(s: string, k: nat)
    requires 0 < k <= |s| && !IsTrimSpace(s[k - 1])
    ensures k <= |TrimEnd(s)| && TrimEnd(s)[..k] == s[..k]
    decreases |s|
  {
    if k < |s| && IsTrimSpace(s[|s| - 1]) {
      var t := s[..|s| - 1];
      assert t[k - 1] == s[k - 1] && t[..k] == s[..k];
      TrimEndKeepsVisiblePrefix(t, k);
    }
  }

  /** Both ends of a trimmed string are visible, so trimming twice changes nothing. */
  lemma TrimIdempotent(s: string)
    ensures Trim(Trim(s)) == Trim(s)
  {
    var r := Trim(s);
    if r != [] {
      assert TrimStart(r) == r;
      assert TrimEnd(r) == r;
    }
  }

  /** Lower-casing never turns a visible character into a trim space or back. */
  lemma LowerKeepsTrimSpace(c: char)
    ensures IsTrimSpace(LowerChar(c)) <==> IsTrimSpace(c)
  {
  }

  lemma {:induction false} TrimStartCommutesWithLower(s: string)
    ensures TrimStart(ToLower(s)) == ToLower(TrimStart(s))
    decreases |s|
  {
    if s != [] {
      LowerKeepsTrimSpace(s[0]);
      if IsTrimSpace(s[0]) {
        assert ToLower(s)[1..] == ToLower(s[1..]);
        TrimStartCommutesWithLower(s[1..]);
      }
    }
  }

  lemma {:induction false} TrimEndCommutesWithLower(s: string)
    ensures TrimEnd(ToLower(s)) == ToLower(TrimEnd(s))
    decreases |s|
  {
    if s != [] {
      LowerKeepsTrimSpace(s[|s| - 1]);
      if IsTrimSpace(s[|s| - 1]) {
        assert ToLower(s)[..|s| - 1] == ToLower(s[..|s| - 1]);
        TrimEndCommutesWithLower(s[..|s| - 1]);
      }
    }
  }

  /** Trimming and lower-casing can be done in either order. */
  lemma TrimCommutesWithLower(s: string)
    ensures Trim(ToLower(s)) == ToLower(Trim(s))
  {
    TrimStartCommutesWithLower(s);
    TrimEndCommutesWithLower(TrimStart(s));
  }

  lemma ToLowerPrefix(s: string, k: nat)
    requires k <= |s|
    ensures ToLower(s)[..k] == ToLower(s[..k])
  {
  }
}
