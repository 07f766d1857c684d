/** The form validators of the browser script (web/static/js/main.js):
    bucket names, access keys and secret keys. The two regular expressions
    are modelled by a small anchored matcher over character classes with
    repetition bounds; each validator is proved equal to the plain
    description of the names it accepts. */
module WebValidation {
  import opened Common

  // ---------------------------------------------------------------------------
  // Anchored regular expressions: a sequence of character classes, each
  // repeated between `min` and `max` times (no `max` for `+`).

  /** A character class, as a list of inclusive ranges. */
  type Class = seq<(char, char)>

  predicate InClass(c: char, cls: Class)
  {
    cls != [] && ((cls[0].0 <= c <= cls[0].1) || InClass(c, cls[1..]))
  }

  datatype Atom = Atom(cls: Class, min: nat, max: Option<nat>)

  predicate Within(max: Option<nat>, n: nat)
  {
    max.None? || n <= max.value
  }

  /** `s` is consumed exactly by `pattern`, where `n` characters have already
      been matched by the first atom (the test of a regex wrapped in ^…$). */
  predicate Matches(pattern: seq<Atom>, s: string, n: nat)
    decreases |pattern|, |s|
  {
    if pattern == [] then s == []
    else
      (n >= pattern[0].min && Matches(pattern[1..], s, 0))
      || (s != [] && Within(pattern[0].max, n + 1) && InClass(s[0], pattern[0].cls)
          && Matches(pattern, s[1..], n + 1))
  }

  predicate AllIn(s: string, cls: Class)
  {
    forall i | 0 <= i < |s| :: InClass(s[i], cls)
  }

  /** A lone atom matches the rest exactly when the count stays within its
      bounds and every character is in its class. */
  lemma {:induction false} SingleAtom(a: Atom, s: string, n: nat)
    requires Within(a.max, n)
    ensures Matches([a], s, n) <==> a.min <= n + |s| && Within(a.max, n + |s|) && AllIn(s, a.cls)
    decreases |s|
  {
    assert [a][1..] == [];
    if s != [] {
      assert forall i | 0 <= i < |s[1..]| :: s[1..][i] == s[i + 1];
      if Within(a.max, n + 1) {
        SingleAtom(a, s[1..], n + 1);
      }
    }
  }

  /** An atom followed by exactly one character of class `c`: the last
      character is in `c` and the atom matches everything before it. */
  lemma {:induction false} LastAtom(a: Atom, c: Class, s: string, n: nat)
    ensures (Matches([a, Atom(c, 1, Some(1))], s, n))
              <==> s != [] && InClass(s[|s| - 1], c) && Matches([a], s[..|s| - 1], n)
    decreases |s|
  {
    var b := Atom(c, 1, Some(1));
    assert [a, b][1..] == [b] && [b][1..] == [] && [a][1..] == [];
    if s != [] {
      SingleAtom(b, s, 0);
      LastAtom(a, c, s[1..], n + 1);
      if |s| > 1 {
        assert s[..|s| - 1][1..] == s[1..][..|s[1..]| - 1];
        assert s[1..][|s[1..]| - 1] == s[|s| - 1];
      }
    }
  }

  /** A first atom of exactly one character of class `c`. */
  lemma FirstAtom(c: Class, rest: seq<Atom>, s: string)
    ensures Matches([Atom(c, 1, Some(1))] + rest, s, 0) <==> s != [] && InClass(s[0], c) && Matches(rest, s[1..], 0)
  {
    var p := [Atom(c, 1, Some(1))] + rest;
    assert p[1..] == rest;
    if s != [] {
      assert Matches(p, s[1..], 1) <==> Matches(rest, s[1..], 0);
    }
  }

  // ---------------------------------------------------------------------------
  // Character classes of the two expressions

  const LowerAlnum: Class := [('a', 'z'), ('0', '9')]
  const LowerAlnumHyphen: Class := [('a', 'z'), ('0', '9'), ('-', '-')]
  const Alnum: Class := [('a', 'z'), ('A', 'Z'), ('0', '9')]

  predicate IsLowerAlnum(c: char) { ('a' <= c <= 'z') || ('0' <= c <= '9') }
  predicate IsBucketChar(c: char) { IsLowerAlnum(c) || c == '-' }
  predicate IsAsciiAlnum(c: char) { ('a' <= c <= 'z') || ('A' <= c <= 'Z') || ('0' <= c <= '9') }

  lemma ClassesMeanWhatTheySay(c: char)
    ensures InClass(c, LowerAlnum) <==> IsLowerAlnum(c)
    ensures InClass(c, LowerAlnumHyphen) <==> IsBucketChar(c)
    ensures InClass(c, Alnum) <==> IsAsciiAlnum(c)
  {
    var digits: Class := [('0', '9')];
    var hyphen: Class := [('-', '-')];
    assert digits[1..] == [] && hyphen[1..] == [];
    assert InClass(c, digits) <==> '0' <= c <= '9';
    assert InClass(c, hyphen) <==> c == '-';
    assert LowerAlnum[1..] == digits;
    assert LowerAlnumHyphen[1..] == [('0', '9'), ('-', '-')] && LowerAlnumHyphen[1..][1..] == hyphen;
    assert InClass(c, LowerAlnumHyphen[1..]) <==> '0' <= c <= '9' || c == '-';
    assert Alnum[1..] == [('A', 'Z'), ('0', '9')] && Alnum[1..][1..] == [('0', '9')] && Alnum[1..][1..][1..] == [];
  }

  // ---------------------------------------------------------------------------
  // validateBucketName

  /** /^[a-z0-9][a-z0-9\-]{1,61}[a-z0-9]$/ */
  const BucketNamePattern: seq<Atom> :=
    [Atom(LowerAlnum, 1, Some(1)), Atom(LowerAlnumHyphen, 1, Some(61)), Atom(LowerAlnum, 1, Some(1))]

  /** The bucket names the form accepts: 3 to 63 characters, lower-case
      letters, digits and hyphens, starting and ending with a letter or digit. */
  predicate ValidBucketName(name: string)
  {
    3 <= |name| <= 63
    && IsLowerAlnum(name[0]) && IsLowerAlnum(name[|name| - 1])
    && forall i | 0 < i < |name| - 1 :: IsBucketChar(name[i])
  }

  /** validateBucketName: the regular expression accepts exactly the names
      described by ValidBucketName. */
  function ValidateBucketName(name: string): (ok: bool)
    ensures ok <==> ValidBucketName(name)
  {
    BucketNameMatches(name);
    Matches(BucketNamePattern, name, 0)
  }

  lemma BucketNameMatches(name: string)
    ensures Matches(BucketNamePattern, name, 0) <==> ValidBucketName(name)
  {
    var first := Atom(LowerAlnum, 1, Some(1));
    var middle := Atom(LowerAlnumHyphen, 1, Some(61));
    assert BucketNamePattern == [first] + [middle, Atom(LowerAlnum, 1, Some(1))];
    FirstAtom(LowerAlnum, [middle, Atom(LowerAlnum, 1, Some(1))], name);
    if name != [] {
      var t := name[1..];
      LastAtom(middle, LowerAlnum, t, 0);
      if t != [] {
        var inner := t[..|t| - 1];
        SingleAtom(middle, inner, 0);
        assert t[|t| - 1] == name[|name| - 1];
        ClassesMeanWhatTheySay(name[0]);
        ClassesMeanWhatTheySay(name[|name| - 1]);
        forall i | 0 <= i < |inner| ensures inner[i] == name[i + 1] && (InClass(inner[i], LowerAlnumHyphen) <==> IsBucketChar(inner[i])) {
          ClassesMeanWhatTheySay(inner[i]);
        }
        if ValidBucketName(name) {
          forall i | 0 <= i < |inner| ensures InClass(inner[i], LowerAlnumHyphen) {
            assert IsBucketChar(name[i + 1]);
          }
        }
      }
    }
  }

  /** Upper-case letters, dots and underscores anywhere, and a hyphen at
      either end, make a bucket name invalid. */
  lemma RejectedBucketNames(name: string, i: nat)
    requires i < |name|
    requires ('A' <= name[i] <= 'Z') || name[i] == '.' || name[i] == '_'
             || (name[i] == '-' && (i == 0 || i == |name| - 1))
    ensures !ValidateBucketName(name)
  {
  }

  /** The cases listed in the repository's validation test. */
  lemma BucketNameTestCases()
    ensures ValidateBucketName("test-bucket")
    ensures ValidateBucketName("bucket123")
    ensures !ValidateBucketName("Test-Bucket")
    ensures !ValidateBucketName("ab")
  {
    assert !IsLowerAlnum("Test-Bucket"[0]);
  }

  // ---------------------------------------------------------------------------
  // String length as JavaScript counts it

  /** `.length` of a JavaScript string: UTF-16 code units, two for a
      character outside the Basic Multilingual Plane. */
  function JsLength(s: string): (n: nat)
    ensures |s| <= n <= 2 * |s|
    ensures n == |s| <==> forall i | 0 <= i < |s| :: s[i] as int < 0x10000
  {
    if s == [] then 0
    else
      var init := s[..|s| - 1];
      assert forall i | 0 <= i < |init| :: init[i] == s[i];
      JsLength(init) + (if s[|s| - 1] as int < 0x10000 then 1 else 2)
  }

  // ---------------------------------------------------------------------------
  // validateAccessKey and validateSecretKey

  /** /^[a-zA-Z0-9]+$/ */
  const AlnumPattern: seq<Atom> := [Atom(Alnum, 1, None)]

  /** validateAccessKey: 3 to 20 characters, all ASCII letters or digits. */
  function ValidateAccessKey(accessKey: string): (ok: bool)
    ensures ok <==> 3 <= |accessKey| <= 20 && forall i | 0 <= i < |accessKey| :: IsAsciiAlnum(accessKey[i])
  {
    SingleAtom(AlnumPattern[0], accessKey, 0);
    forall i | 0 <= i < |accessKey| ensures InClass(accessKey[i], Alnum) <==> IsAsciiAlnum(accessKey[i]) {
      ClassesMeanWhatTheySay(accessKey[i]);
    }
    JsLength(accessKey) >= 3 && JsLength(accessKey) <= 20 && Matches(AlnumPattern, accessKey, 0)
  }

  /** validateSecretKey: at least 8 UTF-16 code units. Eight characters always
      suffice, four never do, and for text within the Basic Multilingual Plane
      the bound is exactly eight characters. */
  function ValidateSecretKey(secretKey: string): (ok: bool)
    ensures |secretKey| >= 8 ==> ok
    ensures ok ==> |secretKey| >= 4
    ensures (forall i | 0 <= i < |secretKey| :: secretKey[i] as int < 0x10000) ==> (ok <==> |secretKey| >= 8)
  {
    JsLength(secretKey) >= 8
  }
}
