/**
 * `sanitize_search` (backend/helpers.py): escapes the SQL LIKE wildcards
 * `%` and `_` and the escape character `\` itself, by three successive
 * `str.replace` calls, backslash first.
 */
module SearchSanitizer {

  predicate IsLikeSpecial(c: char) {
    c == '\\' || c == '%' || c == '_'
  }

  /** Python's `s.replace(c, rep)` for a one-character pattern. */
  function ReplaceChar(s: string, c: char, rep: string): string {
    if s == [] then []
    else (if s[0] == c then rep else [s[0]]) + ReplaceChar(s[1..], c, rep)
  }

  /** The handler-facing function, written as the chain of replacements it is. */
  function SanitizeSearch(term: string): string {
    ReplaceChar(ReplaceChar(ReplaceChar(term, '\\', "\\\\"), '%', "\\%"), '_', "\\_")
  }

  /** The ILIKE pattern the list routes build from a search term: `f"%{safe}%"`. */
  function SearchPattern(term: string): string {
    "%" + SanitizeSearch(term) + "%"
  }

  /** One character as it appears after escaping. */
  function EscapeChar(c: char): string {
    if IsLikeSpecial(c) then ['\\', c] else [c]
  }

  /** Reference definition: escape every character independently. */
  function EscapeEach(s: string): string {
    if s == [] then [] else EscapeChar(s[0]) + EscapeEach(s[1..])
  }

  /** Number of characters `\`, `%`, `_` in `s`. */
  function CountSpecial(s: string): nat {
    if s == [] then 0 else (if IsLikeSpecial(s[0]) then 1 else 0) + CountSpecial(s[1..])
  }

  /**
   * The literal text a LIKE pattern with escape character `\` stands for,
   * provided it holds no unescaped wildcard (see LiteralPattern).
   */
  function Unescape(p: string): string {
    if p == [] then []
    else if p[0] == '\\' && |p| >= 2 then [p[1]] + Unescape(p[2..])
    else [p[0]] + Unescape(p[1..])
  }

  /** A LIKE pattern (escape `\`) in which every `%` and `_` is escaped and no `\` dangles. */
  predicate LiteralPattern(p: string) {
    if p == [] then true
    else if p[0] == '\\' then |p| >= 2 && LiteralPattern(p[2..])
    else p[0] != '%' && p[0] != '_' && LiteralPattern(p[1..])
  }

  lemma {:induction false} ReplaceCharAppend(a: string, b: string, c: char, rep: string)
    ensures ReplaceChar(a + b, c, rep) == ReplaceChar(a, c, rep) + ReplaceChar(b, c, rep)
  {
    if a == [] {
      assert a + b == b;
    } else {
      assert (a + b)[1..] == a[1..] + b;
      ReplaceCharAppend(a[1..], b, c, rep);
    }
  }

  /** The replacement chain escapes each character exactly once: backslashes it inserts are never re-escaped. */
  lemma {:induction false} SanitizeIsEscapeEach(s: string)
    ensures SanitizeSearch(s) == EscapeEach(s)
  {
    if s != [] {
      var c, rest := s[0], s[1..];
      assert s == [c] + rest;
      var r1 := ReplaceChar(s, '\\', "\\\\");
      ReplaceCharAppend([c], rest, '\\', "\\\\");
      var h1 := ReplaceChar([c], '\\', "\\\\");
      var t1 := ReplaceChar(rest, '\\', "\\\\");
      ReplaceCharAppend(h1, t1, '%', "\\%");
      var h2 := ReplaceChar(h1, '%', "\\%");
      var t2 := ReplaceChar(t1, '%', "\\%");
      ReplaceCharAppend(h2, t2, '_', "\\_");
      assert ReplaceChar(ReplaceChar(h1, '%', "\\%"), '_', "\\_") == EscapeChar(c);
      SanitizeIsEscapeEach(rest);
    }
  }

  /** A term without `\`, `%` or `_` is returned unchanged. */
  lemma {:induction false} SanitizeUnchangedWithoutSpecials(s: string)
    requires forall i :: 0 <= i < |s| ==> !IsLikeSpecial(s[i])
    ensures SanitizeSearch(s) == s
  {
    SanitizeIsEscapeEach(s);
    EscapeEachUnchanged(s);
  }

  lemma {:induction false} EscapeEachUnchanged(s: string)
    requires forall i :: 0 <= i < |s| ==> !IsLikeSpecial(s[i])
    ensures EscapeEach(s) == s
  {
    if s != [] {
      EscapeEachUnchanged(s[1..]);
    }
  }

  /** Output length is input length plus one per escaped character. */
  lemma {:induction false} SanitizeLength(s: string)
    ensures |SanitizeSearch(s)| == |s| + CountSpecial(s)
  {
    SanitizeIsEscapeEach(s);
    EscapeEachLength(s);
  }

  lemma {:induction false} EscapeEachLength(s: string)
    ensures |EscapeEach(s)| == |s| + CountSpecial(s)
  {
    if s != [] {
      EscapeEachLength(s[1..]);
    }
  }

  lemma {:induction false} EscapeEachLiteral(s: string)
    ensures LiteralPattern(EscapeEach(s)) && Unescape(EscapeEach(s)) == s
  {
    if s != [] {
      EscapeEachLiteral(s[1..]);
      var e := EscapeEach(s);
      var t := EscapeEach(s[1..]);
      if IsLikeSpecial(s[0]) {
        assert e == ['\\', s[0]] + t && e[2..] == t;
      } else {
        assert e == [s[0]] + t && e[1..] == t;
      }
    }
  }

  /**
   * The sanitised term is a LIKE pattern with no live wildcard, and
   * dropping the escaping backslashes gives back the search term.
   */
  lemma SanitizeRoundTrip(s: string)
    ensures LiteralPattern(SanitizeSearch(s))
    ensures Unescape(SanitizeSearch(s)) == s
  {
    SanitizeIsEscapeEach(s);
    EscapeEachLiteral(s);
  }

  /** Distinct search terms never collapse to the same pattern. */
  lemma SanitizeInjective(s: string, t: string)
    requires SanitizeSearch(s) == SanitizeSearch(t)
    ensures s == t
  {
    SanitizeRoundTrip(s);
    SanitizeRoundTrip(t);
  }

  /** In a literal pattern each `%` and `_` sits right after an escaping backslash. */
  lemma {:induction false} LiteralPatternWildcardsEscaped(p: string, i: nat)
    requires LiteralPattern(p)
    requires i < |p| && (p[i] == '%' || p[i] == '_')
    ensures i > 0 && p[i - 1] == '\\'
  {
    if p[0] == '\\' {
      if i >= 2 {
        LiteralPatternWildcardsEscaped(p[2..], i - 2);
      }
    } else {
      LiteralPatternWildcardsEscaped(p[1..], i - 1);
    }
  }
}
