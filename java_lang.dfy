/**
  What the gate relies on from the Java platform: references that may be
  null, String.startsWith, and the case-insensitive matching that
  java.util.regex performs for a pattern compiled with (?i) but without
  UNICODE_CASE. Strings are sequences of characters; every literal the gate
  compares against is ASCII.
 */
module JavaLang {

  /** A Java reference of type T, which may be null. */
  datatype Nullable<+T> = Null | NonNull(value: T)

  /** String.startsWith: a case-sensitive comparison of raw characters. */
  predicate StartsWith(s: string, prefix: string)
  {
    |prefix| <= |s| && s[..|prefix|] == prefix
  }

  /** The folding java.util.regex uses under (?i) without UNICODE_CASE:
      only 'A' to 'Z' change, to 'a' to 'z'; every other character stays. */
  function AsciiLower(c: char): (r: char)
    ensures !('A' <= r <= 'Z')
    ensures r != c ==> 'A' <= c <= 'Z' && r as int - c as int == 32
  {
    if 'A' <= c <= 'Z' then (c as int + 32) as char else c
  }

  /** A string with every character folded by AsciiLower. */
  function LowerAscii(s: string): string
  {
    if s == [] then [] else [AsciiLower(s[0])] + LowerAscii(s[1..])
  }

  /** The text begins with the pattern when both are folded character by
      character: how the regex engine matches a literal run of a (?i)
      pattern at the start of the input. */
  predicate PrefixMatchesIgnoreCase(text: string, pattern: string)
    decreases |pattern|
  {
    if pattern == [] then true
    else
      && text != []
      && AsciiLower(text[0]) == AsciiLower(pattern[0])
      && PrefixMatchesIgnoreCase(text[1..], pattern[1..])
  }

  lemma {:induction false} LowerAsciiLength(s: string)
    ensures |LowerAscii(s)| == |s|
  {
    if s != [] {
      LowerAsciiLength(s[1..]);
    }
  }

  /** Folding works character by character. */
  lemma {:induction false} LowerAsciiAt(s: string, i: nat)
    requires i < |s|
    ensures |LowerAscii(s)| == |s| && LowerAscii(s)[i] == AsciiLower(s[i])
  {
    LowerAsciiLength(s);
    if i > 0 {
      LowerAsciiAt(s[1..], i - 1);
    }
  }

  /** The character-by-character matcher agrees with the reference reading
      "the first |pattern| characters of the text equal the pattern once both
      are folded". */
  lemma {:induction false} PrefixMatchesIgnoreCaseIsFolding(text: string, pattern: string)
    ensures PrefixMatchesIgnoreCase(text, pattern)
        <==> |pattern| <= |text| && LowerAscii(text[..|pattern|]) == LowerAscii(pattern)
    decreases |pattern|
  {
    if pattern != [] && text != [] {
      var n := |pattern|;
      PrefixMatchesIgnoreCaseIsFolding(text[1..], pattern[1..]);
      if n <= |text| {
        var head := text[..n];
        assert head[1..] == text[1..][..n - 1];
        assert head[0] == text[0];
        calc {
          LowerAscii(head) == LowerAscii(pattern);
        <==>
          [AsciiLower(text[0])] + LowerAscii(text[1..][..n - 1])
            == [AsciiLower(pattern[0])] + LowerAscii(pattern[1..]);
        <==> { SplitHead(AsciiLower(text[0]), LowerAscii(text[1..][..n - 1]),
                         AsciiLower(pattern[0]), LowerAscii(pattern[1..])); }
          AsciiLower(text[0]) == AsciiLower(pattern[0])
            && LowerAscii(text[1..][..n - 1]) == LowerAscii(pattern[1..]);
        }
      }
    } else if pattern != [] {
      assert |pattern| > |text|;
    }
  }

  /** Two non-empty sequences are equal exactly when their heads and their
      tails are. */
  lemma SplitHead<T>(a: T, s: seq<T>, b: T, t: seq<T>)
    ensures [a] + s == [b] + t <==> a == b && s == t
  {
    if [a] + s == [b] + t {
      assert ([a] + s)[0] == a && ([b] + t)[0] == b;
      assert ([a] + s)[1..] == s && ([b] + t)[1..] == t;
    }
  }

  /** A case-sensitive prefix is also a case-insensitive one. */
  lemma {:induction false} StartsWithImpliesPrefixMatchesIgnoreCase(text: string, pattern: string)
    requires StartsWith(text, pattern)
    ensures PrefixMatchesIgnoreCase(text, pattern)
  {
    PrefixMatchesIgnoreCaseIsFolding(text, pattern);
  }
}
