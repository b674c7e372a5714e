/**
 * The textual test `validate_keys` uses to decide whether a plain
 * dependency names pip: take the leading token of the spec (everything
 * before the first `<`, `>`, `~`, `=` or whitespace character), split it on
 * `::` and look for a part that is exactly `pip`.
 */
module SpecText {
  import opened Seqs

  /** The characters Python's `\s` matches in a `str` pattern. */
  predicate IsSpace(c: char) {
    ('\U{9}' <= c <= '\U{D}') || ('\U{1C}' <= c <= '\U{20}') ||
    c == '\U{85}' || c == '\U{A0}' || c == '\U{1680}' ||
    ('\U{2000}' <= c <= '\U{200A}') || c == '\U{2028}' || c == '\U{2029}' ||
    c == '\U{202F}' || c == '\U{205F}' || c == '\U{3000}'
  }

  /** The character class `[<>~\s=]`. */
  predicate IsSeparator(c: char) {
    c == '<' || c == '>' || c == '~' || c == '=' || IsSpace(c)
  }

  /** `re.split(r"[<>~\s=]", s)[0]`. */
  function LeadingToken(s: string): (t: string)
    ensures t <= s
    ensures forall i :: 0 <= i < |t| ==> !IsSeparator(t[i])
    ensures |t| < |s| ==> IsSeparator(s[|t|])
  {
    if s == [] || IsSeparator(s[0]) then []
    else [s[0]] + LeadingToken(s[1..])
  }

  /** `s` holds `::` at position `i`. */
  predicate ColonsAt(s: string, i: int) {
    0 <= i && i + 1 < |s| && s[i] == ':' && s[i + 1] == ':'
  }

  /** The inverse of `SplitColons`: the parts joined with `::`. */
  function JoinColons(parts: seq<string>): string
    requires |parts| >= 1
  {
    if |parts| == 1 then parts[0] else parts[0] + "::" + JoinColons(parts[1..])
  }

  /** `s.split("::")`: cut at every non-overlapping `::`, scanning left to right. */
  function SplitColons(s: string): (parts: seq<string>)
    ensures |parts| >= 1
    ensures JoinColons(parts) == s
    ensures forall p, i :: p in parts ==> !ColonsAt(p, i)
    ensures |s| > 0 && s[0] != ':' ==> |parts[0]| > 0 && parts[0][0] == s[0]
  {
    if |s| < 2 then [s]
    else if ColonsAt(s, 0) then [""] + SplitColons(s[2..])
    else
      var rest := SplitColons(s[1..]);
      var first := [s[0]] + rest[0];
      FirstPartFree(s, rest[0]);
      JoinFirst(s[0], rest);
      assert s == [s[0]] + s[1..];
      var parts := [first] + rest[1..];
      assert forall p :: p in parts ==> p == first || p in rest;
      parts
  }

  /** Putting back the character before the first part cannot create a
      `::` when the text did not start with one. */
  lemma FirstPartFree(s: string, r: string)
    requires |s| >= 2 && !ColonsAt(s, 0)
    requires forall i :: !ColonsAt(r, i)
    requires s[1] != ':' ==> |r| > 0 && r[0] == s[1]
    ensures forall i :: !ColonsAt([s[0]] + r, i)
  {
    var first := [s[0]] + r;
    forall i
      ensures !ColonsAt(first, i)
    {
      if i == 0 && |r| > 0 {
        assert first[1] == r[0];
      } else if 0 < i && i + 1 < |first| {
        assert !ColonsAt(r, i - 1);
        assert first[i] == r[i - 1] && first[i + 1] == r[i];
      }
    }
  }

  /** Joining after extending the first part extends the joined text. */
  lemma JoinFirst(c: char, rest: seq<string>)
    requires |rest| >= 1
    ensures JoinColons([[c] + rest[0]] + rest[1..]) == [c] + JoinColons(rest)
  {
    var parts := [[c] + rest[0]] + rest[1..];
    if |rest| > 1 {
      assert parts[1..] == rest[1..];
      var a, j := rest[0], JoinColons(rest[1..]);
      ConcatAssoc([c], a, "::");
      ConcatAssoc([c], a + "::", j);
    }
  }

  /** `is_pip` in `validate_keys`: a spec whose leading token is `pip`
      counts, and a counted spec's leading token is at least as long as
      `pip`. */
  predicate IsPip(dep: string): (b: bool)
    ensures LeadingToken(dep) == "pip" ==> b
    ensures b ==> |LeadingToken(dep)| >= 3
  {
    var parts := SplitColons(LeadingToken(dep));
    SplitWithoutColons("pip");
    if "pip" in parts then PartShorter(parts, "pip"); true else false
  }

  /** No part is longer than the text it was cut from. */
  lemma {:induction false} PartShorter(parts: seq<string>, p: string)
    requires |parts| >= 1 && p in parts
    ensures |p| <= |JoinColons(parts)|
  {
    if |parts| > 1 && p != parts[0] {
      PartShorter(parts[1..], p);
    }
  }

  /** The leading token ends exactly at the first separator. */
  lemma {:induction false} LeadingTokenOf(a: string, b: string)
    requires forall i :: 0 <= i < |a| ==> !IsSeparator(a[i])
    requires b == [] || IsSeparator(b[0])
    ensures LeadingToken(a + b) == a
  {
    if a == [] {
      assert a + b == b;
    } else {
      assert (a + b)[1..] == a[1..] + b;
      LeadingTokenOf(a[1..], b);
    }
  }

  /** Text without a colon is not cut. */
  lemma {:induction false} SplitWithoutColons(a: string)
    requires forall i :: 0 <= i < |a| ==> a[i] != ':'
    ensures SplitColons(a) == [a]
  {
    if |a| >= 2 {
      SplitWithoutColons(a[1..]);
    }
  }

  /** The first `::` after colon-free text ends the first part. */
  lemma {:induction false} SplitAtColons(a: string, b: string)
    requires forall i :: 0 <= i < |a| ==> a[i] != ':'
    ensures SplitColons(a + "::" + b) == [a] + SplitColons(b)
  {
    var s := a + "::" + b;
    if a == [] {
      assert s == "::" + b;
      assert s[2..] == b;
    } else {
      assert s[1..] == a[1..] + "::" + b;
      SplitAtColons(a[1..], b);
      assert !ColonsAt(s, 0);
      var rest := SplitColons(s[1..]);
      assert rest == [a[1..]] + SplitColons(b);
      assert SplitColons(s) == [[s[0]] + rest[0]] + rest[1..];
      assert [s[0]] + a[1..] == a;
    }
  }

  /** `s.split(c)` for a one-character separator. */
  function SplitOn(s: string, c: char): (parts: seq<string>)
    ensures |parts| >= 1
  {
    if s == [] then [""]
    else if s[0] == c then [""] + SplitOn(s[1..], c)
    else
      var rest := SplitOn(s[1..], c);
      [[s[0]] + rest[0]] + rest[1..]
  }

  /** Text without the separator is one part. */
  lemma {:induction false} SplitOnFree(a: string, c: char)
    requires c !in a
    ensures SplitOn(a, c) == [a]
  {
    if a != [] {
      SplitOnFree(a[1..], c);
      assert [a[0]] + a[1..] == a;
    }
  }

  /** The first separator after separator-free text ends the first part. */
  lemma {:induction false} SplitOnAt(a: string, b: string, c: char)
    requires c !in a
    ensures SplitOn(a + [c] + b, c) == [a] + SplitOn(b, c)
  {
    var s := a + [c] + b;
    if a == [] {
      assert s == [c] + b && s[1..] == b;
    } else {
      assert s[1..] == a[1..] + [c] + b;
      SplitOnAt(a[1..], b, c);
      assert [a[0]] + a[1..] == a;
    }
  }
}
