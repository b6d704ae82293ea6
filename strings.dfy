/** String helpers with the meaning of their JavaScript counterparts:
    `includes`, `trim`, `split(' ')`/`join(' ')`, and truthiness of an
    optional string. A JavaScript string is modelled as a `seq<char>`. */
module Strings {
  import opened Wrappers

  /** A JavaScript value that may be a string, `null` or `undefined` is truthy
      exactly when it is a non-empty string. */
  predicate Truthy(o: Option<string>) {
    o.Some? && o.value != ""
  }

  /** `x || null` for an optional string. */
  function OrNull(o: Option<string>): (r: Option<string>)
    ensures r.None? <==> !Truthy(o)
    ensures r.Some? ==> r == o
  {
    if Truthy(o) then o else None
  }

  predicate StartsWith(s: string, prefix: string) {
    |prefix| <= |s| && s[..|prefix|] == prefix
  }

  /** `s.includes(sub)`. */
  predicate Contains(s: string, sub: string)
    decreases |s|
  {
    StartsWith(s, sub) || (|s| > 0 && Contains(s[1..], sub))
  }

  predicate OccursAt(s: string, sub: string, i: int) {
    0 <= i && i + |sub| <= |s| && s[i..i + |sub|] == sub
  }

  /** `includes` holds exactly when `sub` occurs at some position of `s`. */
  lemma {:induction false} ContainsIff(s: string, sub: string)
    ensures Contains(s, sub) <==> exists i :: OccursAt(s, sub, i)
    decreases |s|
  {
    if StartsWith(s, sub) {
      assert OccursAt(s, sub, 0);
    } else if |s| == 0 {
      assert forall i :: !OccursAt(s, sub, i);
    } else {
      ContainsIff(s[1..], sub);
      if Contains(s[1..], sub) {
        var i :| OccursAt(s[1..], sub, i);
        assert s[1..][i..i + |sub|] == s[i + 1..i + 1 + |sub|];
        assert OccursAt(s, sub, i + 1);
      } else {
        forall i | OccursAt(s, sub, i) ensures false {
          assert i != 0;
          assert s[1..][i - 1..i - 1 + |sub|] == s[i..i + |sub|];
          assert OccursAt(s[1..], sub, i - 1);
        }
      }
    }
  }

  /** A pattern with two slashes cannot occur in a path whose only slash is
      its first character. */
  lemma TwoSlashesNotContained(s: string, sub: string, k: nat)
    requires 0 < k < |sub| && sub[0] == '/' && sub[k] == '/'
    requires forall i :: 1 <= i < |s| ==> s[i] != '/'
    ensures !Contains(s, sub)
  {
    ContainsIff(s, sub);
    assert forall i :: !OccursAt(s, sub, i);
  }

  /** ECMAScript WhiteSpace and LineTerminator code points: the characters
      that `String.prototype.trim` removes from both ends. */
  predicate IsJsSpace(c: char) {
    || c == '\t' || c == '\U{000B}' || c == '\U{000C}' || c == ' '
    || c == '\U{00A0}' || c == '\U{FEFF}' || c == '\U{1680}'
    || ('\U{2000}' <= c <= '\U{200A}')
    || c == '\U{202F}' || c == '\U{205F}' || c == '\U{3000}'
    || c == '\n' || c == '\r' || c == '\U{2028}' || c == '\U{2029}'
  }

  /** The first position at or after `i` that does not hold white space
      (`|s|` when there is none). */
  function SkipSpaces(s: string, i: nat): (j: nat)
    requires i <= |s|
    ensures i <= j <= |s|
    decreases |s| - i
  {
    if i < |s| && IsJsSpace(s[i]) then SkipSpaces(s, i + 1) else i
  }

  /** Everything `SkipSpaces` passes over is white space, and it stops at a
      character that is not. */
  lemma {:induction false} SkipSpacesSpec(s: string, i: nat)
    requires i <= |s|
    ensures forall m :: i <= m < SkipSpaces(s, i) ==> IsJsSpace(s[m])
    ensures SkipSpaces(s, i) == |s| || !IsJsSpace(s[SkipSpaces(s, i)])
    decreases |s| - i
  {
    if i < |s| && IsJsSpace(s[i]) {
      SkipSpacesSpec(s, i + 1);
    }
  }

  /** The end of `s[lo..e]` once the white space before `e` is dropped. */
  function BackSpaces(s: string, lo: nat, e: nat): (j: nat)
    requires lo <= e <= |s|
    ensures lo <= j <= e
  {
    if e > lo && IsJsSpace(s[e - 1]) then BackSpaces(s, lo, e - 1) else e
  }

  /** Everything `BackSpaces` drops is white space, and what it keeps does
      not end with white space. */
  lemma {:induction false} BackSpacesSpec(s: string, lo: nat, e: nat)
    requires lo <= e <= |s|
    ensures forall m :: BackSpaces(s, lo, e) <= m < e ==> IsJsSpace(s[m])
    ensures BackSpaces(s, lo, e) == lo || !IsJsSpace(s[BackSpaces(s, lo, e) - 1])
  {
    if e > lo && IsJsSpace(s[e - 1]) {
      BackSpacesSpec(s, lo, e - 1);
    }
  }

  /** `s.trim()`: the slice between the leading and the trailing white space. */
  function Trim(s: string): string {
    var k := SkipSpaces(s, 0);
    s[k..BackSpaces(s, k, |s|)]
  }

  /** `trim` cuts `s` into white space, a core, and white space; `k` is where
      the core starts. */
  lemma TrimShape(s: string) returns (k: nat)
    ensures k + |Trim(s)| <= |s| && Trim(s) == s[k..k + |Trim(s)|]
    ensures forall i :: 0 <= i < k ==> IsJsSpace(s[i])
    ensures forall i :: k + |Trim(s)| <= i < |s| ==> IsJsSpace(s[i])
  {
    k := SkipSpaces(s, 0);
    SkipSpacesSpec(s, 0);
    BackSpacesSpec(s, k, |s|);
  }

  /** The core `trim` keeps neither starts nor ends with white space. */
  lemma TrimEnds(s: string)
    ensures Trim(s) == [] || (!IsJsSpace(Trim(s)[0]) && !IsJsSpace(Trim(s)[|Trim(s)| - 1]))
  {
    var k := SkipSpaces(s, 0);
    var e := BackSpaces(s, k, |s|);
    SkipSpacesSpec(s, 0);
    BackSpacesSpec(s, k, |s|);
    if k < e {
      assert Trim(s)[0] == s[k];
      assert Trim(s)[|Trim(s)| - 1] == s[e - 1];
    }
  }

  /** A trimmed string is empty exactly when every character of the input is white space. */
  lemma TrimEmptyIff(s: string)
    ensures Trim(s) == "" <==> forall i :: 0 <= i < |s| ==> IsJsSpace(s[i])
  {
    var k := TrimShape(s);
    TrimEnds(s);
    if Trim(s) != "" {
      assert !IsJsSpace(s[k]);
    }
  }

  /** Trimming twice is trimming once. */
  lemma TrimIdempotent(s: string)
    ensures Trim(Trim(s)) == Trim(s)
  {
    var t := Trim(s);
    TrimEnds(s);
    assert SkipSpaces(t, 0) == 0;
    assert BackSpaces(t, 0, |t|) == |t|;
  }

  /** `s.split(sep)`: the pieces of `s` between occurrences of `sep`, with an
      empty piece for each empty stretch. */
  function Split(s: string, sep: char): (r: seq<string>)
    ensures |r| >= 1
    ensures forall k :: 0 <= k < |r| ==> sep !in r[k]
  {
    if |s| == 0 then [""]
    else
      var rest := Split(s[1..], sep);
      if s[0] == sep then [""] + rest else [[s[0]] + rest[0]] + rest[1..]
  }

  /** `parts.join(sep)`. */
  function Join(parts: seq<string>, sep: char): string {
    if |parts| == 0 then ""
    else if |parts| == 1 then parts[0]
    else parts[0] + [sep] + Join(parts[1..], sep)
  }

  /** Joining the pieces of a split restores the string. */
  lemma {:induction false} JoinSplit(s: string, sep: char)
    ensures Join(Split(s, sep), sep) == s
  {
    if |s| > 0 {
      var rest := Split(s[1..], sep);
      JoinSplit(s[1..], sep);
      if s[0] == sep {
        assert Split(s, sep) == [""] + rest;
        assert s == [sep] + s[1..];
      } else {
        var parts := [[s[0]] + rest[0]] + rest[1..];
        assert Split(s, sep) == parts;
        if |rest| == 1 {
          assert s == [s[0]] + s[1..];
        } else {
          assert parts[1..] == rest[1..];
          assert Join(rest, sep) == rest[0] + [sep] + Join(rest[1..], sep);
          assert s == [s[0]] + s[1..];
        }
      }
    }
  }

  /** A split has one more piece than `s` has separators. */
  lemma {:induction false} SplitCount(s: string, sep: char)
    ensures |Split(s, sep)| == multiset(s)[sep] + 1
  {
    if |s| > 0 {
      SplitCount(s[1..], sep);
      assert s == [s[0]] + s[1..];
      assert multiset(s) == multiset{s[0]} + multiset(s[1..]);
    }
  }

  /** Joining the first `k` pieces gives a prefix of joining them all. */
  lemma {:induction false} JoinPrefix(parts: seq<string>, sep: char, k: nat)
    requires k <= |parts|
    ensures StartsWith(Join(parts, sep), Join(parts[..k], sep))
  {
    if k == 0 {
    } else if k == 1 {
      if |parts| > 1 {
        assert Join(parts, sep) == parts[0] + ([sep] + Join(parts[1..], sep));
      }
      assert parts[..1] == [parts[0]];
    } else {
      JoinPrefix(parts[1..], sep, k - 1);
      assert parts[..k][1..] == parts[1..][..k - 1];
      var tail := Join(parts[1..], sep);
      var head := Join(parts[1..][..k - 1], sep);
      assert Join(parts[..k], sep) == parts[0] + [sep] + head;
      assert Join(parts, sep) == parts[0] + [sep] + tail;
      assert tail[..|head|] == head;
      assert (parts[0] + [sep] + tail)[..|parts[0]| + 1 + |head|] == parts[0] + [sep] + head;
    }
  }
}
