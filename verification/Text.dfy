/** The parts of Go's `strings` and `bytes` packages that the code relies on. */
module Text {

  /** `strings.Split(s, c)` for a one-character separator: never empty. */
  function Split(s: string, c: char): (parts: seq<string>)
    ensures |parts| >= 1
  {
    if s == [] then [[]]
    else
      var rest := Split(s[1..], c);
      if s[0] == c then [[]] + rest else [[s[0]] + rest[0]] + rest[1..]
  }

  /** `strings.Join(parts, c)`. */
  function Join(parts: seq<string>, c: char): string {
    if parts == [] then []
    else if |parts| == 1 then parts[0]
    else parts[0] + [c] + Join(parts[1..], c)
  }

  /** `bytes.Contains(s, sub)`. */
  predicate Contains(s: string, sub: string) {
    sub <= s || (s != [] && Contains(s[1..], sub))
  }

  /** `bytes.TrimLeft(s, cutset)`: drops leading characters that occur in the cutset. */
  function TrimLeft(s: string, cutset: string): string {
    if s != [] && s[0] in cutset then TrimLeft(s[1..], cutset) else s
  }

  /** No part of a split holds the separator. */
  lemma {:induction false} SplitPartsLackSeparator(s: string, c: char)
    ensures forall part :: part in Split(s, c) ==> c !in part
  {
    if s != [] {
      SplitPartsLackSeparator(s[1..], c);
    }
  }

  lemma {:induction false} JoinInvertsSplit(s: string, c: char)
    ensures Join(Split(s, c), c) == s
  {
    if s != [] {
      JoinInvertsSplit(s[1..], c);
      var rest := Split(s[1..], c);
      if s[0] == c {
        assert ([[]] + rest)[1..] == rest;
      } else if |rest| > 1 {
        assert ([[s[0]] + rest[0]] + rest[1..])[1..] == rest[1..];
        assert s == [s[0]] + s[1..];
      } else {
        assert rest[1..] == [];
      }
    }
  }

  /** Splitting after a separator-free token has been appended finds that token last. */
  lemma {:induction false} SplitAppendToken(s: string, c: char, token: string)
    requires c !in token
    ensures Split(s + [c] + token, c) == Split(s, c) + [token]
  {
    if s == [] {
      SplitToken(token, c);
      assert (s + [c] + token)[1..] == token;
    } else {
      SplitAppendToken(s[1..], c, token);
      assert (s + [c] + token)[1..] == s[1..] + [c] + token;
      assert (s + [c] + token)[0] == s[0];
    }
  }

  lemma {:induction false} SplitToken(token: string, c: char)
    requires c !in token
    ensures Split(token, c) == [token]
  {
    if token != [] {
      SplitToken(token[1..], c);
      assert token == [token[0]] + token[1..];
    }
  }

  ghost predicate AllEmpty(parts: seq<string>) {
    forall i :: 0 <= i < |parts| ==> parts[i] == []
  }

  ghost predicate AllEqual(s: string, c: char) {
    forall i :: 0 <= i < |s| ==> s[i] == c
  }

  /** Every line of a text is empty exactly when the text is nothing but separators. */
  lemma {:induction false} AllPartsEmptyIffOnlySeparators(s: string, c: char)
    ensures AllEmpty(Split(s, c)) <==> AllEqual(s, c)
  {
    if s != [] {
      AllPartsEmptyIffOnlySeparators(s[1..], c);
      var rest, parts := Split(s[1..], c), Split(s, c);
      if s[0] == c {
        assert forall i :: 0 <= i < |rest| ==> rest[i] == parts[i + 1];
        assert AllEqual(s, c) <==> AllEqual(s[1..], c) by {
          assert forall i :: 0 < i < |s| ==> s[i] == s[1..][i - 1];
        }
      } else {
        assert parts[0][0] == s[0];
      }
    }
  }

  /** Text found in a line makes that line non-empty. */
  lemma {:induction false} ContainsNeedsLength(s: string, sub: string)
    requires Contains(s, sub)
    ensures |sub| <= |s|
  {
    if !(sub <= s) {
      ContainsNeedsLength(s[1..], sub);
    }
  }

  /** The text stands in `s` at place `i`. */
  predicate Occurs(s: string, sub: string, i: nat) {
    i + |sub| <= |s| && s[i..i + |sub|] == sub
  }

  lemma {:induction false} ContainsMeansOccurs(s: string, sub: string)
    ensures Contains(s, sub) <==> exists i: nat :: Occurs(s, sub, i)
  {
    if sub <= s {
      assert Occurs(s, sub, 0);
    } else if s == [] {
      forall i: nat ensures !Occurs(s, sub, i) {
      }
    } else {
      ContainsMeansOccurs(s[1..], sub);
      if Contains(s[1..], sub) {
        var i: nat :| Occurs(s[1..], sub, i);
        assert s[1..][i..i + |sub|] == s[i + 1..i + 1 + |sub|];
        assert Occurs(s, sub, i + 1);
      }
      if exists i: nat :: Occurs(s, sub, i) {
        var i: nat :| Occurs(s, sub, i);
        if i > 0 {
          assert s[1..][i - 1..i - 1 + |sub|] == s[i..i + |sub|];
          assert Occurs(s[1..], sub, i - 1);
        }
      }
    }
  }

  lemma {:induction false} FirstPart(s: string, c: char, n: nat)
    requires n <= |s| && c !in s[..n] && (n < |s| ==> s[n] == c)
    ensures Split(s, c)[0] == s[..n]
    decreases |s|
  {
    if n > 0 {
      assert s[0] in s[..n] && s[1..][..n - 1] == s[..n][1..];
      FirstPart(s[1..], c, n - 1);
      assert s[..n] == [s[0]] + s[1..][..n - 1];
    }
  }

  /** What has no separator stands at the beginning of the first part exactly when it stands at the beginning of the text. */
  lemma {:induction false} PrefixOfFirstPart(s: string, c: char, sub: string)
    requires c !in sub
    ensures sub <= s <==> sub <= Split(s, c)[0]
    decreases |s|
  {
    if s != [] && sub != [] && s[0] != c {
      PrefixOfFirstPart(s[1..], c, sub[1..]);
      var rest := Split(s[1..], c);
      assert Split(s, c)[0] == [s[0]] + rest[0];
      assert sub == [sub[0]] + sub[1..] && s == [s[0]] + s[1..];
      assert sub <= s <==> sub[0] == s[0] && sub[1..] <= s[1..];
      assert sub <= [s[0]] + rest[0] <==> sub[0] == s[0] && sub[1..] <= rest[0];
    }
  }

  predicate InSome(parts: seq<string>, sub: string) {
    exists part :: part in parts && Contains(part, sub)
  }

  lemma InFirstOrRest(parts: seq<string>, sub: string)
    requires parts != []
    ensures InSome(parts, sub) <==> Contains(parts[0], sub) || InSome(parts[1..], sub)
  {
    hide Contains;
    assert parts == [parts[0]] + parts[1..];
    if InSome(parts, sub) {
      var part :| part in parts && Contains(part, sub);
      assert part == parts[0] || part in parts[1..];
    }
    if Contains(parts[0], sub) {
      assert parts[0] in parts;
    }
    if InSome(parts[1..], sub) {
      var part :| part in parts[1..] && Contains(part, sub);
      assert part in parts;
    }
  }

  /** A text without the separator stands in `s` exactly when it stands in one of the parts. */
  lemma {:induction false} ContainedInOnePart(s: string, c: char, sub: string)
    requires c !in sub
    ensures Contains(s, sub) <==> InSome(Split(s, c), sub)
  {
    PrefixOfFirstPart(s, c, sub);
    var parts := Split(s, c);
    InFirstOrRest(parts, sub);
    if s == [] {
      assert parts[1..] == [];
    } else {
      ContainedInOnePart(s[1..], c, sub);
      var rest := Split(s[1..], c);
      InFirstOrRest(rest, sub);
      hide InSome;
      if s[0] == c {
        assert parts[0] == [] && parts[1..] == rest;
      } else {
        assert parts[0] == [s[0]] + rest[0] && parts[1..] == rest[1..];
        assert parts[0][1..] == rest[0];
      }
    }
  }

  /** What is cut off consists of the cutset, and what is left does not begin with it. */
  lemma {:induction false} TrimLeftIsExact(s: string, cutset: string) returns (n: nat)
    ensures n <= |s| && TrimLeft(s, cutset) == s[n..] && (forall i :: 0 <= i < n ==> s[i] in cutset)
    ensures n < |s| ==> s[n] !in cutset
  {
    if s != [] && s[0] in cutset {
      var m := TrimLeftIsExact(s[1..], cutset);
      n := m + 1;
      assert s[1..][m..] == s[n..];
      forall i | 0 <= i < n ensures s[i] in cutset {
        assert i > 0 ==> s[i] == s[1..][i - 1];
      }
      assert n < |s| ==> s[n] == s[1..][m];
    } else {
      n := 0;
    }
  }
}
