/**
 * Validation of the domain a validator claims. The source matches
 *   ^((?!-)[a-zA-Z0-9-]{1,63}(?<!-)\.)+[A-Za-z]{2,63}$
 * with a regular-expression engine; here the same language is recognised
 * by splitting on '.', and `DomainCheckMatchesPattern` proves the checker
 * equal to the pattern read as a grammar.
 */
module Domain {
  import opened Wrappers

  const MinDomainLength: nat := 4
  const MaxDomainLength: nat := 128

  predicate IsAsciiLetter(c: char)
  {
    'a' <= c <= 'z' || 'A' <= c <= 'Z'
  }

  predicate IsLabelChar(c: char)
  {
    IsAsciiLetter(c) || '0' <= c <= '9' || c == '-'
  }

  /** `(?!-)[a-zA-Z0-9-]{1,63}(?<!-)`. */
  predicate IsLabel(l: string)
  {
    && 1 <= |l| <= 63
    && (forall i :: 0 <= i < |l| ==> IsLabelChar(l[i]))
    && l[0] != '-' && l[|l| - 1] != '-'
  }

  /** `[A-Za-z]{2,63}`. */
  predicate IsTld(t: string)
  {
    2 <= |t| <= 63 && forall i :: 0 <= i < |t| ==> IsAsciiLetter(t[i])
  }

  /** Each label followed by '.', as the repeated group of the pattern produces. */
  function Dotted(labels: seq<string>): string
  {
    if |labels| == 0 then "" else labels[0] + "." + Dotted(labels[1..])
  }

  /** The pattern as a grammar: one or more labels, each followed by '.', then a TLD. */
  ghost predicate MatchesPattern(d: string)
  {
    exists labels: seq<string>, tld: string ::
      && |labels| >= 1
      && (forall i :: 0 <= i < |labels| ==> IsLabel(labels[i]))
      && IsTld(tld)
      && d == Dotted(labels) + tld
  }

  predicate DotFree(s: string)
  {
    forall i :: 0 <= i < |s| ==> s[i] != '.'
  }

  /** The pieces of `s` between dots; there is always at least one. */
  function Split(s: string): (parts: seq<string>)
    ensures |parts| >= 1
    ensures forall k :: 0 <= k < |parts| ==> DotFree(parts[k])
  {
    if |s| == 0 then [""]
    else
      var rest := Split(s[1..]);
      if s[0] == '.' then [""] + rest
      else [[s[0]] + rest[0]] + rest[1..]
  }

  /** Re-joins pieces with '.' between them. */
  function Join(parts: seq<string>): string
    requires |parts| >= 1
  {
    if |parts| == 1 then parts[0] else parts[0] + "." + Join(parts[1..])
  }

  /** The checker: every piece but the last is a label, and the last is a TLD. */
  predicate DomainCheck(d: string)
  {
    var parts := Split(d);
    && |parts| >= 2
    && (forall k :: 0 <= k < |parts| - 1 ==> IsLabel(parts[k]))
    && IsTld(parts[|parts| - 1])
  }

  lemma {:induction false} JoinSplit(s: string)
    ensures Join(Split(s)) == s
    decreases |s|
  {
    if |s| == 0 {
    } else {
      var rest := Split(s[1..]);
      JoinSplit(s[1..]);
      if s[0] == '.' {
        assert Split(s) == [""] + rest;
        assert Split(s)[1..] == rest;
      } else {
        var parts := Split(s);
        assert parts == [[s[0]] + rest[0]] + rest[1..];
        if |rest| == 1 {
          assert Join(parts) == [s[0]] + rest[0] == [s[0]] + s[1..];
        } else {
          assert parts[1..] == rest[1..];
          assert Join(rest) == rest[0] + "." + Join(rest[1..]);
          assert Join(parts) == [s[0]] + rest[0] + "." + Join(rest[1..]);
        }
        assert s == [s[0]] + s[1..];
      }
    }
  }

  lemma {:induction false} SplitDotFreePrefix(p: string, r: string)
    requires DotFree(p)
    ensures Split(p + r) == [p + Split(r)[0]] + Split(r)[1..]
    decreases |p|
  {
    if |p| == 0 {
      assert p + r == r;
      assert p + Split(r)[0] == Split(r)[0];
      assert Split(r) == [Split(r)[0]] + Split(r)[1..];
    } else {
      SplitDotFreePrefix(p[1..], r);
      assert (p + r)[1..] == p[1..] + r;
      assert (p + r)[0] == p[0];
      var rest := Split(p[1..] + r);
      assert Split(p + r) == [[p[0]] + rest[0]] + rest[1..];
      assert [p[0]] + (p[1..] + Split(r)[0]) == p + Split(r)[0];
    }
  }

  lemma {:induction false} SplitJoin(parts: seq<string>)
    requires |parts| >= 1
    requires forall k :: 0 <= k < |parts| ==> DotFree(parts[k])
    ensures Split(Join(parts)) == parts
    decreases |parts|
  {
    if |parts| == 1 {
      SplitDotFreePrefix(parts[0], "");
      assert parts[0] + "" == parts[0];
    } else {
      var tail := Join(parts[1..]);
      SplitJoin(parts[1..]);
      assert Join(parts) == parts[0] + ("." + tail);
      SplitDotFreePrefix(parts[0], "." + tail);
      assert ("." + tail)[1..] == tail;
      assert Split("." + tail) == [""] + Split(tail);
      assert parts[0] + "" == parts[0];
    }
  }

  lemma {:induction false} DottedJoin(labels: seq<string>, tld: string)
    ensures Dotted(labels) + tld == Join(labels + [tld])
    decreases |labels|
  {
    if |labels| == 0 {
      assert labels + [tld] == [tld];
    } else {
      DottedJoin(labels[1..], tld);
      assert (labels + [tld])[1..] == labels[1..] + [tld];
    }
  }

  /** The split-based checker accepts exactly the strings the pattern matches. */
  lemma DomainCheckMatchesPattern(d: string)
    ensures DomainCheck(d) <==> MatchesPattern(d)
  {
    if DomainCheck(d) {
      var parts := Split(d);
      var labels, tld := parts[..|parts| - 1], parts[|parts| - 1];
      assert labels + [tld] == parts;
      JoinSplit(d);
      DottedJoin(labels, tld);
      assert forall i :: 0 <= i < |labels| ==> IsLabel(labels[i]);
      assert d == Dotted(labels) + tld;
    }
    if MatchesPattern(d) {
      var labels: seq<string>, tld: string :|
        && |labels| >= 1
        && (forall i :: 0 <= i < |labels| ==> IsLabel(labels[i]))
        && IsTld(tld)
        && d == Dotted(labels) + tld;
      var parts := labels + [tld];
      forall k | 0 <= k < |parts|
        ensures DotFree(parts[k])
      {
        if k < |labels| {
          assert IsLabel(labels[k]);
        }
      }
      DottedJoin(labels, tld);
      SplitJoin(parts);
      assert Split(d) == parts;
      assert forall k :: 0 <= k < |parts| - 1 ==> parts[k] == labels[k];
    }
  }

  /** The failures `domain(std::string)` can throw. */
  datatype DomainError = BadLength | BadFormat

  /**
   * `ValidatorKeys::domain(std::string)` without the assignment: the
   * empty string is always accepted; otherwise the length is checked
   * first and the pattern second.
   */
  function ValidateDomain(d: string): (r: Option<DomainError>)
    ensures d == "" ==> r.None?
    ensures d != "" && (|d| < MinDomainLength || |d| > MaxDomainLength) ==> r == Some(BadLength)
    ensures d != "" && MinDomainLength <= |d| <= MaxDomainLength ==>
              (r.None? <==> MatchesPattern(d)) && (r.Some? ==> r == Some(BadFormat))
  {
    DomainCheckMatchesPattern(d);
    if d == "" then None
    else if |d| < MinDomainLength || |d| > MaxDomainLength then Some(BadLength)
    else if !DomainCheck(d) then Some(BadFormat)
    else None
  }
}
