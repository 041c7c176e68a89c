/** The PKCE code challenge of section 4.2 of RFC 7636 (method S256): the
    standard base64 text of the SHA-256 digest of the verifier, rewritten into
    unpadded base64url (section 5 of RFC 4648) by three global replacements. */
module Base64Url {

  /** Every occurrence of `c` removed from `s`. */
  function RemoveAll(s: string, c: char): (r: string)
    ensures c !in r
    ensures |r| == |s| - Count(s, c)
    decreases |s|
  {
    if s == [] then []
    else (if s[0] == c then [] else [s[0]]) + RemoveAll(s[1..], c)
  }

  /** Every occurrence of `c` in `s` replaced by `d`. */
  function ReplaceAll(s: string, c: char, d: char): (r: string)
    ensures |r| == |s|
    ensures forall i :: 0 <= i < |s| ==> r[i] == (if s[i] == c then d else s[i])
    decreases |s|
  {
    if s == [] then []
    else [if s[0] == c then d else s[0]] + ReplaceAll(s[1..], c, d)
  }

  /** Number of occurrences of `c` in `s`. */
  function Count(s: string, c: char): nat
    decreases |s|
  {
    if s == [] then 0 else (if s[0] == c then 1 else 0) + Count(s[1..], c)
  }

  /** The transform applied to the digest text: drop `=`, `+` to `-`, `/` to `_`. */
  function ToBase64Url(b64: string): (r: string)
    ensures |r| == |b64| - Count(b64, '=')
  {
    ReplaceAll(ReplaceAll(RemoveAll(b64, '='), '+', '-'), '/', '_')
  }

  /** The code challenge, given the base64 text of SHA-256 (a foreign primitive). */
  function CodeChallenge(sha256Base64: string -> string, codeVerifier: string): (r: string)
    ensures '=' !in r && '+' !in r && '/' !in r
    ensures |r| == |sha256Base64(codeVerifier)| - Count(sha256Base64(codeVerifier), '=')
  {
    NoPaddingOrStdChars(sha256Base64(codeVerifier));
    ToBase64Url(sha256Base64(codeVerifier))
  }

  /** The character-wise rewriting of the standard alphabet into the URL-safe one. */
  function UrlSafe(c: char): char {
    if c == '+' then '-' else if c == '/' then '_' else c
  }

  /** Reference definition in one pass: every character except `=` is kept, in
      order, with `+` and `/` rewritten. */
  function Converted(s: string): string
    decreases |s|
  {
    if s == [] then []
    else (if s[0] == '=' then [] else [UrlSafe(s[0])]) + Converted(s[1..])
  }

  /** The inverse rewriting, from the URL-safe alphabet back to the standard one. */
  function FromBase64Url(u: string): string
    decreases |u|
  {
    if u == [] then []
    else [if u[0] == '-' then '+' else if u[0] == '_' then '/' else u[0]] + FromBase64Url(u[1..])
  }

  predicate IsStdChar(c: char) {
    ('A' <= c <= 'Z') || ('a' <= c <= 'z') || ('0' <= c <= '9') || c == '+' || c == '/'
  }

  predicate IsUrlChar(c: char) {
    ('A' <= c <= 'Z') || ('a' <= c <= 'z') || ('0' <= c <= '9') || c == '-' || c == '_'
  }

  lemma {:induction false} ReplaceAllAppend(a: string, b: string, c: char, d: char)
    ensures ReplaceAll(a + b, c, d) == ReplaceAll(a, c, d) + ReplaceAll(b, c, d)
  {
    var l, r := ReplaceAll(a + b, c, d), ReplaceAll(a, c, d) + ReplaceAll(b, c, d);
    assert |l| == |r|;
    forall i | 0 <= i < |l| ensures l[i] == r[i] {
      if i < |a| { assert (a + b)[i] == a[i]; } else { assert (a + b)[i] == b[i - |a|]; }
    }
  }

  /** The three chained replacements are the one-pass rewriting. */
  lemma {:induction false} ToBase64UrlIsConverted(s: string)
    ensures ToBase64Url(s) == Converted(s)
    decreases |s|
  {
    if s != [] {
      ToBase64UrlIsConverted(s[1..]);
      var head := if s[0] == '=' then [] else [s[0]];
      assert RemoveAll(s, '=') == head + RemoveAll(s[1..], '=');
      ReplaceAllAppend(head, RemoveAll(s[1..], '='), '+', '-');
      ReplaceAllAppend(ReplaceAll(head, '+', '-'), ReplaceAll(RemoveAll(s[1..], '='), '+', '-'), '/', '_');
      assert ReplaceAll(ReplaceAll(head, '+', '-'), '/', '_') == (if s[0] == '=' then [] else [UrlSafe(s[0])]);
    }
  }

  /** The transform distributes over concatenation: characters keep their order. */
  lemma {:induction false} ConvertedAppend(a: string, b: string)
    ensures Converted(a + b) == Converted(a) + Converted(b)
    decreases |a|
  {
    if a != [] {
      assert (a + b)[0] == a[0];
      assert (a + b)[1..] == a[1..] + b;
      ConvertedAppend(a[1..], b);
      var head := if a[0] == '=' then [] else [UrlSafe(a[0])];
      assert Converted(a + b) == head + Converted(a[1..] + b);
      assert Converted(a) == head + Converted(a[1..]);
    } else {
      assert a + b == b;
    }
  }

  /** The code challenge never contains `=`, `+` or `/`. */
  lemma NoPaddingOrStdChars(s: string)
    ensures '=' !in ToBase64Url(s) && '+' !in ToBase64Url(s) && '/' !in ToBase64Url(s)
  {
    var r0 := RemoveAll(s, '=');
    var r1 := ReplaceAll(r0, '+', '-');
    var r2 := ReplaceAll(r1, '/', '_');
    assert forall i :: 0 <= i < |r2| ==> r2[i] != '=' && r2[i] != '+' && r2[i] != '/' by {
      forall i | 0 <= i < |r2| ensures r2[i] != '=' && r2[i] != '+' && r2[i] != '/' {
        assert r0[i] in r0;
      }
    }
  }

  /** Base64 text in the standard alphabet becomes text in the URL-safe alphabet. */
  lemma {:induction false} StdAlphabetBecomesUrlAlphabet(s: string)
    requires forall i :: 0 <= i < |s| ==> IsStdChar(s[i]) || s[i] == '='
    ensures forall i :: 0 <= i < |ToBase64Url(s)| ==> IsUrlChar(ToBase64Url(s)[i])
    decreases |s|
  {
    ToBase64UrlIsConverted(s);
    if s != [] {
      StdAlphabetBecomesUrlAlphabet(s[1..]);
      ToBase64UrlIsConverted(s[1..]);
    }
  }

  /** Mapping `-` and `_` back recovers the standard text without its padding,
      provided the input was standard base64 (it has no `-` or `_`). */
  lemma {:induction false} RoundTrip(s: string)
    requires '-' !in s && '_' !in s
    ensures FromBase64Url(ToBase64Url(s)) == RemoveAll(s, '=')
    decreases |s|
  {
    ToBase64UrlIsConverted(s);
    if s != [] {
      assert s[0] != '-' && s[0] != '_';
      assert '-' !in s[1..] && '_' !in s[1..] by {
        forall i | 0 <= i < |s[1..]| ensures s[1..][i] != '-' && s[1..][i] != '_' { assert s[1..][i] in s; }
      }
      RoundTrip(s[1..]);
      ToBase64UrlIsConverted(s[1..]);
      var head := if s[0] == '=' then [] else [UrlSafe(s[0])];
      assert FromBase64Url(head + Converted(s[1..])) == FromBase64Url(head) + FromBase64Url(Converted(s[1..])) by {
        if head != [] { assert (head + Converted(s[1..]))[1..] == Converted(s[1..]); }
        else { assert head + Converted(s[1..]) == Converted(s[1..]); }
      }
    }
  }

  /** A SHA-256 digest is 32 bytes, whose base64 text is 44 characters ending
      in one `=`; its code challenge is then 43 characters long, the length of
      every S256 challenge of section 4.2 of RFC 7636. */
  lemma DigestChallengeLength(s: string)
    requires |s| == 44 && s[43] == '=' && forall i :: 0 <= i < 43 ==> s[i] != '='
    ensures |ToBase64Url(s)| == 43
  {
    assert s == s[..43] + [s[43]];
    CountAppend(s[..43], [s[43]], '=');
    CountAbsent(s[..43], '=');
  }

  lemma {:induction false} CountAppend(a: string, b: string, c: char)
    ensures Count(a + b, c) == Count(a, c) + Count(b, c)
    decreases |a|
  {
    if a != [] {
      assert (a + b)[0] == a[0];
      assert (a + b)[1..] == a[1..] + b;
      CountAppend(a[1..], b, c);
      assert Count(a + b, c) == (if a[0] == c then 1 else 0) + Count(a[1..] + b, c);
    } else {
      assert a + b == b;
    }
  }

  lemma {:induction false} CountAbsent(s: string, c: char)
    requires forall i :: 0 <= i < |s| ==> s[i] != c
    ensures Count(s, c) == 0
    decreases |s|
  {
    if s != [] { CountAbsent(s[1..], c); }
  }
}
