/**
 * The address bar's submit-time URL normaliser: raw text gets `http://` in
 * front unless it already starts with a scheme, and is then lower-cased.
 */
module Url {

  // ---------------------------------------------------------------------------
  // Lower-casing
  // ---------------------------------------------------------------------------

  predicate IsUpper(c: char) {
    'A' <= c <= 'Z'
  }

  /** ASCII case mapping: `A`..`Z` become `a`..`z`, every other character is kept. */
  function LowerChar(c: char): (d: char)
    ensures !IsUpper(d)
    ensures d == ':' <==> c == ':'
    ensures !IsUpper(c) ==> d == c
    ensures IsUpper(c) ==> 'a' <= d <= 'z' && d as int - 'a' as int == c as int - 'A' as int
  {
    if IsUpper(c) then (c as int + 32) as char else c
  }

  /** Lower-cases a whole string, character by character. */
  function ToLower(s: string): (r: string)
    ensures |r| == |s|
    ensures forall i :: 0 <= i < |s| ==> r[i] == LowerChar(s[i])
  {
    if s == [] then [] else [LowerChar(s[0])] + ToLower(s[1..])
  }

  predicate IsLowerCase(s: string) {
    forall i :: 0 <= i < |s| ==> !IsUpper(s[i])
  }

  lemma ToLowerIsLowerCase(s: string)
    ensures IsLowerCase(ToLower(s))
  {
  }

  /** Lower-casing a string without upper-case letters changes nothing. */
  lemma ToLowerOfLowerCase(s: string)
    requires IsLowerCase(s)
    ensures ToLower(s) == s
  {
  }

  lemma ToLowerConcat(a: string, b: string)
    ensures ToLower(a + b) == ToLower(a) + ToLower(b)
  {
  }

  // ---------------------------------------------------------------------------
  // The scheme test
  // ---------------------------------------------------------------------------

  /**
   * `s[..k]` is a non-empty run of characters other than `:` and `s[k..]`
   * starts with `://`: one way the anchored pattern `^[^:]+(?=://)` can match.
   */
  predicate SchemeEndsAt(s: string, k: nat) {
    0 < k && k + 3 <= |s| && s[k..k + 3] == "://" &&
    forall j :: 0 <= j < k ==> s[j] != ':'
  }

  /**
   * The pattern `^[^:]+(?=://)` matches at position 0 of `s`. A match needs
   * a colon and at least four characters (one of scheme, then `://`).
   */
  function HasSchemePrefix(s: string): (b: bool)
    ensures b ==> ':' in s && |s| >= 4
  {
    var b := exists k: nat :: k < |s| && SchemeEndsAt(s, k);
    assert b ==> ':' in s by {
      if b {
        var k: nat :| k < |s| && SchemeEndsAt(s, k);
        assert s[k..k + 3][0] == s[k];
      }
    }
    b
  }

  /** The scheme test can only succeed at the first colon of the string. */
  lemma SchemeEndsAtFirstColon(s: string, k: nat)
    requires SchemeEndsAt(s, k)
    ensures ':' in s && k == IndexOfColon(s)
  {
    assert s[k] == ':';
  }

  /** Position of the first `:` in `s`. */
  function IndexOfColon(s: string): (i: nat)
    requires ':' in s
    ensures i < |s| && s[i] == ':'
    ensures forall j :: 0 <= j < i ==> s[j] != ':'
  {
    if s[0] == ':' then 0 else 1 + IndexOfColon(s[1..])
  }

  /**
   * A scanning form of the same test: find the first colon, then look for
   * `//` right after it. The pattern holds exactly when this scan succeeds.
   */
  lemma HasSchemePrefixByScan(s: string)
    ensures HasSchemePrefix(s) <==>
            ':' in s && 0 < IndexOfColon(s) && IndexOfColon(s) + 3 <= |s| &&
            s[IndexOfColon(s)..IndexOfColon(s) + 3] == "://"
  {
    if HasSchemePrefix(s) {
      var k: nat :| k < |s| && SchemeEndsAt(s, k);
      SchemeEndsAtFirstColon(s, k);
    } else if ':' in s {
      var k := IndexOfColon(s);
      if 0 < k && k + 3 <= |s| && s[k..k + 3] == "://" {
        assert SchemeEndsAt(s, k);
      }
    }
  }

  /** Lower-casing neither creates nor destroys a scheme prefix. */
  lemma ToLowerKeepsScheme(s: string)
    ensures HasSchemePrefix(ToLower(s)) <==> HasSchemePrefix(s)
  {
    var t := ToLower(s);
    if HasSchemePrefix(s) {
      var k: nat :| k < |s| && SchemeEndsAt(s, k);
      assert t[k..k + 3] == "://" by {
        assert s[k..k + 3][0] == ':' && s[k..k + 3][1] == '/' && s[k..k + 3][2] == '/';
      }
      assert SchemeEndsAt(t, k);
    }
    if HasSchemePrefix(t) {
      var k: nat :| k < |t| && SchemeEndsAt(t, k);
      assert s[k..k + 3] == "://" by {
        assert t[k..k + 3][0] == ':' && t[k..k + 3][1] == '/' && t[k..k + 3][2] == '/';
        assert LowerChar(s[k + 1]) == '/' && LowerChar(s[k + 2]) == '/';
      }
      assert SchemeEndsAt(s, k);
    }
  }

  // ---------------------------------------------------------------------------
  // The normaliser
  // ---------------------------------------------------------------------------

  const DefaultScheme: string := "http://"

  lemma DefaultSchemeIsScheme(s: string)
    ensures HasSchemePrefix(DefaultScheme + s)
  {
    assert SchemeEndsAt(DefaultScheme + s, 4);
  }

  /**
   * The submit handler's rewrite of the address-bar text before it is
   * loaded. Whatever the input, the URL that is loaded starts with a scheme.
   */
  function Normalize(s: string): (r: string)
    ensures HasSchemePrefix(r)
  {
    var t := if HasSchemePrefix(s) then s else DefaultScheme + s;
    DefaultSchemeIsScheme(s);
    ToLowerKeepsScheme(t);
    ToLower(t)
  }

  /** Text with a scheme is only lower-cased; other text gets `http://` in front. */
  lemma NormalizeCases(s: string)
    ensures HasSchemePrefix(s) ==> Normalize(s) == ToLower(s)
    ensures !HasSchemePrefix(s) ==> Normalize(s) == "http://" + ToLower(s)
  {
    ToLowerConcat(DefaultScheme, s);
    ToLowerOfLowerCase(DefaultScheme);
  }

  /** The URL that is loaded has no upper-case letters. */
  lemma NormalizeIsLowerCase(s: string)
    ensures IsLowerCase(Normalize(s))
  {
    ToLowerIsLowerCase(if HasSchemePrefix(s) then s else DefaultScheme + s);
  }

  /** Normalising twice is normalising once. */
  lemma NormalizeIdempotent(s: string)
    ensures Normalize(Normalize(s)) == Normalize(s)
  {
    var n := Normalize(s);
    NormalizeIsLowerCase(s);
    ToLowerOfLowerCase(n);
  }

  /** The input survives, lower-cased, at the end of the result. */
  lemma NormalizeEndsWithInput(s: string)
    ensures |Normalize(s)| == |s| || |Normalize(s)| == |s| + 7
    ensures Normalize(s)[|Normalize(s)| - |s|..] == ToLower(s)
  {
    NormalizeCases(s);
  }

  /** Text without a colon never has a scheme. */
  lemma NoSchemeWithoutColon(s: string)
    requires ':' !in s
    ensures !HasSchemePrefix(s)
  {
  }

  /** The result when `s` has no scheme and no upper-case letters. */
  lemma NormalizeLowerCaseWithoutScheme(s: string)
    requires !HasSchemePrefix(s) && IsLowerCase(s)
    ensures Normalize(s) == "http://" + s
  {
    NormalizeCases(s);
    ToLowerOfLowerCase(s);
  }

  // Worked inputs.

  lemma NormalizeBareHost(s: string)
    requires s == "example.com"
    ensures Normalize(s) == "http://example.com"
  {
    assert ':' !in s;
    NoSchemeWithoutColon(s);
    assert IsLowerCase(s);
    NormalizeLowerCaseWithoutScheme(s);
  }

  /** Text after a scheme prefix does not disturb it. */
  lemma SchemePrefixExtends(a: string, c: string)
    requires HasSchemePrefix(a)
    ensures HasSchemePrefix(a + c)
  {
    var k: nat :| k < |a| && SchemeEndsAt(a, k);
    assert (a + c)[k..k + 3] == a[k..k + 3];
    assert SchemeEndsAt(a + c, k);
  }

  /** Text that starts with a scheme is lower-cased piece by piece. */
  lemma NormalizeWithScheme(a: string, c: string)
    requires HasSchemePrefix(a)
    ensures Normalize(a + c) == ToLower(a) + ToLower(c)
  {
    SchemePrefixExtends(a, c);
    ToLowerConcat(a, c);
    NormalizeCases(a + c);
  }

  lemma LowerUpperScheme(scheme: string)
    requires scheme == "HTTPS://"
    ensures HasSchemePrefix(scheme) && ToLower(scheme) == "https://"
  {
    assert SchemeEndsAt(scheme, 5);
    assert forall i :: 0 <= i < |scheme| ==> ToLower(scheme)[i] == "https://"[i];
  }

  lemma LowerCapitalHost(host: string)
    requires host == "Example.com"
    ensures ToLower(host) == "example.com"
  {
    assert forall i :: 0 <= i < |host| ==> ToLower(host)[i] == "example.com"[i];
  }

  lemma LowerSchemeAndHost(scheme: string, host: string)
    requires scheme == "HTTPS://" && host == "Example.com"
    ensures ToLower(scheme) + ToLower(host) == "https://example.com"
  {
    LowerUpperScheme(scheme);
    LowerCapitalHost(host);
  }

  /** An upper-case scheme is kept and lower-cased with the rest. */
  lemma NormalizeKeepsScheme(s: string)
    requires s == "HTTPS://Example.com"
    ensures Normalize(s) == "https://example.com"
  {
    var scheme, host := "HTTPS://", "Example.com";
    assert s == scheme + host;
    LowerUpperScheme(scheme);
    NormalizeWithScheme(scheme, host);
    LowerSchemeAndHost(scheme, host);
  }

  /** The colon before `://` stops the match: `a:b://c` is not taken to have a scheme. */
  lemma NormalizeColonBeforeScheme(s: string)
    requires s == "a:b://c"
    ensures Normalize(s) == "http://a:b://c"
  {
    assert !HasSchemePrefix(s) by {
      assert s[0] == 'a' && s[1] == ':';
      assert IndexOfColon(s) == 1;
      assert s[1..4][1] == 'b';
      HasSchemePrefixByScan(s);
    }
    assert IsLowerCase(s);
    NormalizeLowerCaseWithoutScheme(s);
  }

  /** The scheme must be non-empty: `://x` is not taken to have one. */
  lemma NormalizeEmptyScheme(s: string)
    requires s == "://x"
    ensures Normalize(s) == "http://://x"
  {
    assert !HasSchemePrefix(s) by {
      assert IndexOfColon(s) == 0;
      HasSchemePrefixByScan(s);
    }
    assert IsLowerCase(s);
    NormalizeLowerCaseWithoutScheme(s);
  }
}
