/** The name a visitor types before planting the seed: trimming, the emptiness
    check that decides whether planting happens, and the sanitiser that caps the
    length and removes the markup characters `<` and `>`. */
module NameInput {

  /** Longest name kept by the sanitiser (the `slice(0, 20)` of script.js). */
  const MaxNameLength: nat := 20

  /** A character that `String.prototype.trim` removes: the ECMAScript
      WhiteSpace code points (TAB, VT, FF, ZWNBSP and every space separator of
      category Zs) and the LineTerminator code points (LF, CR, LS, PS). */
  predicate IsTrimmable(c: char)
  {
    c == '\t' || c == '\U{000B}' || c == '\U{000C}' || c == '\U{FEFF}'
    || c == '\n' || c == '\r' || c == '\U{2028}' || c == '\U{2029}'
    || c == ' ' || c == '\U{00A0}' || c == '\U{1680}'
    || ('\U{2000}' <= c <= '\U{200A}')
    || c == '\U{202F}' || c == '\U{205F}' || c == '\U{3000}'
  }

  predicate AllTrimmable(s: string)
  {
    forall i | 0 <= i < |s| :: IsTrimmable(s[i])
  }

  /** Drops the leading trimmable characters: what is left is a suffix of `s`,
      everything dropped was trimmable, and the suffix does not start with a
      trimmable character. */
  function TrimStart(s: string): (r: string)
    ensures |r| <= |s| && r == s[|s| - |r|..]
    ensures AllTrimmable(s[..|s| - |r|])
    ensures r == [] || !IsTrimmable(r[0])
  {
    if s != [] && IsTrimmable(s[0]) then TrimStart(s[1..]) else s
  }

  /** Drops the trailing trimmable characters: what is left is a prefix of `s`,
      everything dropped was trimmable, and the prefix does not end with a
      trimmable character. */
  function TrimEnd(s: string): (r: string)
    ensures |r| <= |s| && r == s[..|r|]
    ensures AllTrimmable(s[|r|..])
    ensures r == [] || !IsTrimmable(r[|r| - 1])
  {
    if s != [] && IsTrimmable(s[|s| - 1]) then TrimEnd(s[..|s| - 1]) else s
  }

  /** `String.prototype.trim`. The result is empty exactly when every
      character of the input is trimmable, and otherwise it neither starts
      nor ends with a trimmable character. */
  function Trim(s: string): (r: string)
    ensures r == [] <==> AllTrimmable(s)
    ensures r != [] ==> !IsTrimmable(r[0]) && !IsTrimmable(r[|r| - 1])
  {
    var t := TrimStart(s);
    var r := TrimEnd(t);
    assert r == [] ==> s == s[..|s| - |t|] + t[|r|..];
    r
  }

  /** Trimming removes only an all-trimmable prefix and an all-trimmable
      suffix: the result is the slice of `s` between them. */
  lemma TrimRemovesOnlyEdges(s: string) returns (k: nat)
    ensures k + |Trim(s)| <= |s|
    ensures s[k..k + |Trim(s)|] == Trim(s)
    ensures AllTrimmable(s[..k]) && AllTrimmable(s[k + |Trim(s)|..])
  {
    var t := TrimStart(s);
    var r := TrimEnd(t);
    k := |s| - |t|;
    assert s[k + |r|..] == t[|r|..];
  }

  /** Trimming an already trimmed string changes nothing. */
  lemma TrimIdempotent(s: string)
    ensures Trim(Trim(s)) == Trim(s)
  {
    var r := Trim(s);
    if r != [] {
      assert TrimStart(r) == r;
      assert TrimEnd(r) == r;
    }
  }

  predicate IsAngleBracket(c: char)
  {
    c == '<' || c == '>'
  }

  predicate FreeOfAngleBrackets(s: string)
  {
    forall i | 0 <= i < |s| :: !IsAngleBracket(s[i])
  }

  /** `replace(/[<>]/g, '')`: every `<` and `>` removed, every other character
      kept, in order. The result never holds an angle bracket, holds only
      characters of the input, and a string without angle brackets comes back
      unchanged. */
  function StripAngleBrackets(s: string): (r: string)
    ensures |r| <= |s|
    ensures FreeOfAngleBrackets(r)
    ensures forall c :: c in r ==> c in s
    ensures FreeOfAngleBrackets(s) ==> r == s
  {
    if s == [] then []
    else (if IsAngleBracket(s[0]) then [] else [s[0]]) + StripAngleBrackets(s[1..])
  }

  /** Stripping works character by character: it distributes over
      concatenation, so it keeps the order of the characters it keeps. */
  lemma {:induction false} StripAppend(a: string, b: string)
    ensures StripAngleBrackets(a + b) == StripAngleBrackets(a) + StripAngleBrackets(b)
  {
    if a == [] {
      assert a + b == b;
    } else {
      assert (a + b)[1..] == a[1..] + b;
      StripAppend(a[1..], b);
    }
  }

  /** Stripping keeps every occurrence of every other character: as a
      multiset, the result is the input with all `<` and `>` taken out. */
  lemma {:induction false} StripMultiset(s: string)
    ensures forall c :: multiset(StripAngleBrackets(s))[c] == if IsAngleBracket(c) then 0 else multiset(s)[c]
  {
    if s != [] {
      StripMultiset(s[1..]);
      var head := if IsAngleBracket(s[0]) then [] else [s[0]];
      assert s == [s[0]] + s[1..];
      assert multiset(s) == multiset{s[0]} + multiset(s[1..]);
      assert multiset(StripAngleBrackets(s)) == multiset(head) + multiset(StripAngleBrackets(s[1..]));
    }
  }

  /** Stripping leaves nothing exactly when every character is `<` or `>`. */
  lemma {:induction false} StripEmptyIff(s: string)
    ensures StripAngleBrackets(s) == [] <==> forall i | 0 <= i < |s| :: IsAngleBracket(s[i])
  {
    if s != [] {
      StripEmptyIff(s[1..]);
      assert forall i | 1 <= i < |s| :: s[i] == s[1..][i - 1];
    }
  }

  /** The first `MaxNameLength` characters of `s` (all of `s` when shorter),
      the `slice(0, 20)` of script.js. */
  function NamePrefix(s: string): (r: string)
    ensures |r| == if |s| <= MaxNameLength then |s| else MaxNameLength
    ensures r <= s
  {
    if |s| <= MaxNameLength then s else s[..MaxNameLength]
  }

  /** `sanitizeName`: cut to the first 20 characters, then remove every `<`
      and `>`. The result is at most 20 characters long, holds no angle
      bracket, and holds only characters of the input. */
  function SanitizeName(name: string): (r: string)
    ensures |r| <= MaxNameLength
    ensures FreeOfAngleBrackets(r)
    ensures forall c :: c in r ==> c in name
  {
    StripAngleBrackets(NamePrefix(name))
  }

  /** Sanitising twice is the same as sanitising once. */
  lemma SanitizeIdempotent(name: string)
    ensures SanitizeName(SanitizeName(name)) == SanitizeName(name)
  {
  }

  /** The sanitiser leaves a name unchanged exactly when it is at most 20
      characters long and holds no angle bracket. */
  lemma SanitizeFixedIff(name: string)
    ensures SanitizeName(name) == name <==> |name| <= MaxNameLength && FreeOfAngleBrackets(name)
  {
  }

  /** The sanitised name is empty exactly when the first 20 characters are
      all angle brackets — so a non-empty trimmed input such as `"<>"` still
      yields the empty name. */
  lemma SanitizeEmptyIff(name: string)
    ensures SanitizeName(name) == [] <==>
      forall i | 0 <= i < |NamePrefix(name)| :: IsAngleBracket(name[i])
  {
    var p := NamePrefix(name);
    StripEmptyIff(p);
    assert forall i | 0 <= i < |p| :: p[i] == name[i];
  }

  /** Characters past the twentieth never reach the sanitised name. */
  lemma SanitizeIgnoresTail(name: string, tail: string)
    requires |name| >= MaxNameLength
    ensures SanitizeName(name + tail) == SanitizeName(name)
  {
    assert (name + tail)[..MaxNameLength] == name[..MaxNameLength];
    assert NamePrefix(name + tail) == NamePrefix(name);
  }
}
