/**
 * The pieces of JavaScript string and number behaviour that the panel and the
 * alert service depend on: `indexOf`, `String.prototype.replace` with a string
 * pattern (first occurrence only, with the `$` replacement patterns), an
 * ASCII case-insensitive search for `\.ext($|\?)`, `Math.round` of a duration
 * given in milliseconds, and the decimal rendering of an integer.
 */
module JsText {
  import opened Wrappers

  // ---------------------------------------------------------------------------
  // indexOf
  // ---------------------------------------------------------------------------

  /** `p` occurs in `s` starting at index `i`. */
  predicate OccursAt(s: string, p: string, i: nat) {
    i + |p| <= |s| && s[i..i + |p|] == p
  }

  /** `s.indexOf(p, k)`: the first index at or after `k` where `p` occurs. */
  function IndexOfFrom(s: string, p: string, k: nat): (r: Option<nat>)
    requires k <= |s|
    ensures r.Some? ==> k <= r.value && OccursAt(s, p, r.value)
    ensures r.Some? ==> forall j :: k <= j < r.value ==> !OccursAt(s, p, j)
    ensures r.None? ==> forall j :: k <= j <= |s| ==> !OccursAt(s, p, j)
    decreases |s| - k
  {
    if OccursAt(s, p, k) then Some(k)
    else if k == |s| then None
    else IndexOfFrom(s, p, k + 1)
  }

  function IndexOf(s: string, p: string): Option<nat> {
    IndexOfFrom(s, p, 0)
  }

  /** The first occurrence is unique: any occurrence with none before it is the one `indexOf` finds. */
  lemma IndexOfIsFirst(s: string, p: string, i: nat)
    requires OccursAt(s, p, i)
    requires forall j :: 0 <= j < i ==> !OccursAt(s, p, j)
    ensures IndexOf(s, p) == Some(i)
  {
  }

  // ---------------------------------------------------------------------------
  // String.prototype.replace(pattern: string, replacement: string)
  // ---------------------------------------------------------------------------

  /**
   * The replacement text ECMAScript's GetSubstitution produces for a string
   * pattern (no capture groups): `$$` is `$`, `$&` the matched text, `` $` ``
   * the text before the match, `$'` the text after it; every other `$` is kept.
   */
  function Substitution(replacement: string, matched: string, before: string, after: string): string
    decreases |replacement|
  {
    if replacement == [] then []
    else if replacement[0] == '$' && |replacement| >= 2 then
      var rest := Substitution(replacement[2..], matched, before, after);
      match replacement[1]
      case '$' => "$" + rest
      case '&' => matched + rest
      case '`' => before + rest
      case '\'' => after + rest
      case _ => "$" + Substitution(replacement[1..], matched, before, after)
    else [replacement[0]] + Substitution(replacement[1..], matched, before, after)
  }

  /** `s.replace(p, replacement)`: only the first occurrence of `p` is replaced. */
  function Replace(s: string, p: string, replacement: string): string {
    match IndexOf(s, p)
    case None => s
    case Some(i) => s[..i] + Substitution(replacement, p, s[..i], s[i + |p|..]) + s[i + |p|..]
  }

  /** Plain splicing of `replacement` in place of the first occurrence of `p`. */
  function Splice(s: string, p: string, replacement: string): string {
    match IndexOf(s, p)
    case None => s
    case Some(i) => s[..i] + replacement + s[i + |p|..]
  }

  /** A replacement without `$` is inserted verbatim. */
  lemma {:induction false} SubstitutionLiteral(replacement: string, matched: string, before: string, after: string)
    requires '$' !in replacement
    ensures Substitution(replacement, matched, before, after) == replacement
    decreases |replacement|
  {
    if replacement != [] {
      assert replacement[0] != '$';
      assert '$' !in replacement[1..] by {
        forall k | 0 <= k < |replacement[1..]| ensures replacement[1..][k] != '$' {
          assert replacement[1..][k] == replacement[k + 1];
        }
      }
      SubstitutionLiteral(replacement[1..], matched, before, after);
      assert replacement == [replacement[0]] + replacement[1..];
    }
  }

  /** Without `$` in the replacement, `replace` is plain splicing at the first occurrence. */
  lemma ReplaceLiteral(s: string, p: string, replacement: string)
    requires '$' !in replacement
    ensures Replace(s, p, replacement) == Splice(s, p, replacement)
  {
    match IndexOf(s, p)
    case None =>
    case Some(i) => SubstitutionLiteral(replacement, p, s[..i], s[i + |p|..]);
  }

  /**
   * Replacing at the first occurrence `i`: the text before it and everything after
   * the matched text, later occurrences of `p` included, are left as they were.
   */
  lemma ReplaceAtFirstOccurrence(s: string, p: string, replacement: string, i: nat)
    requires OccursAt(s, p, i)
    requires forall j :: 0 <= j < i ==> !OccursAt(s, p, j)
    requires '$' !in replacement
    ensures Replace(s, p, replacement) == s[..i] + replacement + s[i + |p|..]
  {
    IndexOfIsFirst(s, p, i);
    ReplaceLiteral(s, p, replacement);
  }

  /** Where `p` does not occur, `replace` returns its input. */
  lemma ReplaceWithoutOccurrence(s: string, p: string, replacement: string)
    requires forall j :: 0 <= j <= |s| ==> !OccursAt(s, p, j)
    ensures Replace(s, p, replacement) == s
  {
  }

  /** The `$` patterns are live even though the pattern is a plain string: `$&` is the matched text. */
  lemma MatchedTextPattern(s: string, p: string)
    ensures Replace(s, p, "$&") == s
  {
    match IndexOf(s, p)
    case None =>
    case Some(i) =>
      assert Substitution("$&", p, s[..i], s[i + |p|..]) == p by {
        assert "$&"[2..] == [];
      }
      assert s[i..i + |p|] == p;
      assert s == s[..i] + s[i..i + |p|] + s[i + |p|..];
  }

  /** What the two-character pattern `$c` stands for in a replacement string. */
  function PatternValue(c: char, matched: string, before: string, after: string): string {
    match c
    case '$' => "$"
    case '&' => matched
    case '`' => before
    case '\'' => after
    case _ => ['$', c]
  }

  /** A replacement string is expanded left to right, one `$c` pattern at a time. */
  lemma DollarPatternStep(c: char, rest: string, matched: string, before: string, after: string)
    ensures Substitution(['$', c] + rest, matched, before, after)
         == PatternValue(c, matched, before, after) + Substitution(rest, matched, before, after)
  {
    var r := ['$', c] + rest;
    assert r[2..] == rest;
    if c !in "$&`'" {
      assert r[1..] == [c] + rest;
      assert ([c] + rest)[1..] == rest;
    }
  }

  /** `` $` `` and `$'` are the text before and after the match. */
  lemma SurroundingTextPatterns(s: string, p: string, i: nat)
    requires IndexOf(s, p) == Some(i)
    ensures Replace(s, p, "$`$'") == s[..i] + s[..i] + s[i + |p|..] + s[i + |p|..]
  {
    var before, after := s[..i], s[i + |p|..];
    DollarPatternStep('\'', [], p, before, after);
    assert "$'" == ['$', '\''] + [];
    DollarPatternStep('`', "$'", p, before, after);
    assert "$`$'" == ['$', '`'] + "$'";
  }

  /** `$$` is a single `$`. */
  lemma EscapedDollarPattern(s: string, p: string)
    ensures Replace(s, p, "$$") == Splice(s, p, "$")
  {
    match IndexOf(s, p)
    case None =>
    case Some(i) =>
      assert Substitution("$$", p, s[..i], s[i + |p|..]) == "$" by {
        assert "$$"[2..] == [];
      }
  }

  // ---------------------------------------------------------------------------
  // The regular expressions /\.m3u8($|\?)/i and /\.flv($|\?)/i
  // ---------------------------------------------------------------------------

  /** Lower-casing of ASCII letters, which is all the `i` flag does to these patterns. */
  function AsciiLower(c: char): char {
    if 'A' <= c <= 'Z' then (c as int + 32) as char else c
  }

  /**
   * At index `i` of `s` stands `token` (given in lower case) up to ASCII case,
   * followed by the end of `s` or by `?`.
   */
  predicate TokenAt(s: string, token: string, i: nat) {
    && i + |token| <= |s|
    && (forall k :: 0 <= k < |token| ==> AsciiLower(s[i + k]) == token[k])
    && (i + |token| == |s| || s[i + |token|] == '?')
  }

  /** What `/<token>($|\?)/i.test(s)` means: the token matches somewhere in `s`. */
  ghost predicate MatchesToken(s: string, token: string) {
    exists i: nat :: i <= |s| && TokenAt(s, token, i)
  }

  /** The regular-expression search, scanning the start positions from `k` on. */
  function SearchToken(s: string, token: string, k: nat): (found: bool)
    requires k <= |s|
    ensures found <==> exists i: nat :: k <= i <= |s| && TokenAt(s, token, i)
    decreases |s| - k
  {
    if TokenAt(s, token, k) then true
    else if k == |s| then false
    else SearchToken(s, token, k + 1)
  }

  function TestToken(s: string, token: string): (found: bool)
    ensures found <==> MatchesToken(s, token)
  {
    SearchToken(s, token, 0)
  }

  /** `s.startsWith(prefix)`. */
  predicate StartsWith(s: string, prefix: string) {
    prefix <= s
  }

  // ---------------------------------------------------------------------------
  // Numbers
  // ---------------------------------------------------------------------------

  /** `Math.round(ms / 1000)`: the nearest whole second, halves rounded up. */
  function RoundedSeconds(ms: int): (r: int)
    ensures r * 1000 - 500 <= ms < r * 1000 + 500
  {
    (ms + 500) / 1000
  }

  function DigitChar(d: nat): (c: char)
    requires d < 10
    ensures '0' <= c <= '9' && c as int - '0' as int == d
  {
    (d + '0' as int) as char
  }

  /** The decimal digits of `n`, as a template literal renders a non-negative integer. */
  function NatToString(n: nat): (r: string)
    ensures |r| >= 1
    ensures forall k :: 0 <= k < |r| ==> '0' <= r[k] <= '9'
    ensures n >= 10 <==> |r| >= 2
    ensures |r| >= 2 ==> r[0] != '0'
  {
    if n < 10 then [DigitChar(n)] else NatToString(n / 10) + [DigitChar(n % 10)]
  }

  /** The number a string of decimal digits denotes. */
  function DecimalValue(s: string): nat
    requires forall k :: 0 <= k < |s| ==> '0' <= s[k] <= '9'
  {
    if s == [] then 0 else DecimalValue(s[..|s| - 1]) * 10 + (s[|s| - 1] as int - '0' as int)
  }

  /** Rendering loses nothing: the digits read back as the number. */
  lemma {:induction false} NatToStringRoundTrip(n: nat)
    ensures DecimalValue(NatToString(n)) == n
  {
    if n >= 10 {
      NatToStringRoundTrip(n / 10);
      var s := NatToString(n);
      assert s[..|s| - 1] == NatToString(n / 10);
    }
  }

  /** `${n}` for an integer-valued number: a minus sign for a negative one, then the digits of its magnitude. */
  function IntToString(n: int): (r: string)
    ensures |r| >= 1
    ensures (r[0] == '-') <==> n < 0
  {
    if n < 0 then "-" + NatToString(-n) else NatToString(n)
  }

  /** Rendering an integer loses nothing: after the sign, the digits read back as its magnitude. */
  lemma IntToStringRoundTrip(n: int)
    ensures var r := IntToString(n);
      if n < 0 then
        |r| >= 2 && (forall k :: 1 <= k < |r| ==> '0' <= r[k] <= '9') && DecimalValue(r[1..]) == -n
      else
        (forall k :: 0 <= k < |r| ==> '0' <= r[k] <= '9') && DecimalValue(r) == n
  {
    if n < 0 {
      NatToStringRoundTrip(-n);
      assert IntToString(n)[1..] == NatToString(-n);
    } else {
      NatToStringRoundTrip(n);
    }
  }
}
