/** String helpers with the semantics of the JavaScript built-ins the application calls:
    `trim`, `split("\n")`, `toLowerCase`, `includes`, and the character classes
    `\d`, `\s` and `.` of its regular expressions. */
module Text {

  /** JavaScript white space and line terminators: what `trim` strips and `\s` matches. */
  predicate IsSpace(c: char) {
    || c == '\t' || c == '\n' || c == '\U{000B}' || c == '\U{000C}' || c == '\r' || c == ' '
    || c == '\U{00A0}' || c == '\U{1680}' || ('\U{2000}' <= c <= '\U{200A}')
    || c == '\U{2028}' || c == '\U{2029}' || c == '\U{202F}' || c == '\U{205F}'
    || c == '\U{3000}' || c == '\U{FEFF}'
  }

  /** The characters that the regular-expression wildcard `.` does not match. */
  predicate IsLineTerminator(c: char) {
    c == '\n' || c == '\r' || c == '\U{2028}' || c == '\U{2029}'
  }

  /** `\d`: the ASCII decimal digits only. */
  predicate IsDigit(c: char) {
    '0' <= c <= '9'
  }

  /** A string that `trim` reduces to the empty string, i.e. one that JavaScript treats as blank. */
  predicate Blank(s: string) {
    forall i :: 0 <= i < |s| ==> IsSpace(s[i])
  }

  /** The length of the run of white space at the front of `s`. */
  function Lead(s: string): (n: nat)
    ensures n <= |s| && Blank(s[..n])
    ensures n < |s| ==> !IsSpace(s[n])
  {
    if s != [] && IsSpace(s[0]) then
      var n := 1 + Lead(s[1..]);
      assert s[..n] == [s[0]] + s[1..][..n - 1];
      n
    else 0
  }

  /** The length of the run of white space at the back of `s`. */
  function Trail(s: string): (n: nat)
    ensures n <= |s| && Blank(s[|s| - n..])
    ensures n < |s| ==> !IsSpace(s[|s| - n - 1])
  {
    if s != [] && IsSpace(s[|s| - 1]) then
      var n := 1 + Trail(s[..|s| - 1]);
      assert s[|s| - n..] == s[..|s| - 1][|s| - n..] + [s[|s| - 1]];
      n
    else 0
  }

  /** `String.prototype.trim`. The result is the slice of `s` that starts and ends with a
      non-space character, with only white space cut off on either side. */
  function Trim(s: string): (r: string)
    ensures Lead(s) + |r| <= |s| && r == s[Lead(s)..Lead(s) + |r|]
    ensures Blank(s[Lead(s) + |r|..])
    ensures r == [] <==> Blank(s)
    ensures r != [] ==> !IsSpace(r[0]) && !IsSpace(r[|r| - 1])
  {
    var a := s[Lead(s)..];
    TrimFacts(s, Lead(s), a, Trail(a));
    a[..|a| - Trail(a)]
  }

  /** What is left between a leading and a trailing run of white space. */
  lemma TrimFacts(s: string, lead: nat, a: string, trail: nat)
    requires lead <= |s| && Blank(s[..lead]) && (lead < |s| ==> !IsSpace(s[lead]))
    requires a == s[lead..]
    requires trail <= |a| && Blank(a[|a| - trail..]) && (trail < |a| ==> !IsSpace(a[|a| - trail - 1]))
    ensures var r := a[..|a| - trail];
      && lead + |r| <= |s| && r == s[lead..lead + |r|] && Blank(s[lead + |r|..])
      && (r == [] <==> Blank(s))
      && (r != [] ==> !IsSpace(r[0]) && !IsSpace(r[|r| - 1]))
  {
    var r := a[..|a| - trail];
    assert s[lead + |r|..] == a[|a| - trail..];
    if r == [] {
      assert a == a[|a| - trail..];
      if lead < |s| {
        assert false;
      }
      assert s == s[..lead];
    } else {
      assert r[0] == s[lead];
      assert r[|r| - 1] == a[|a| - trail - 1];
    }
  }

  /** Trimming twice is trimming once. */
  lemma TrimIdempotent(s: string)
    ensures Trim(Trim(s)) == Trim(s)
  {
    var r := Trim(s);
    if r != [] {
      assert Lead(r) == 0;
      assert r[0..] == r;
      assert Trail(r) == 0;
    } else {
      assert Blank(r);
    }
  }

  /** `toLowerCase` on ASCII letters; other characters are kept. */
  function LowerChar(c: char): char {
    if 'A' <= c <= 'Z' then (c as int + 32) as char else c
  }

  function Lower(s: string): (r: string)
    ensures |r| == |s|
    ensures forall i :: 0 <= i < |s| ==> r[i] == LowerChar(s[i])
  {
    seq(|s|, i requires 0 <= i < |s| => LowerChar(s[i]))
  }

  /** Lower-casing twice is lower-casing once. */
  lemma LowerIdempotent(s: string)
    ensures Lower(Lower(s)) == Lower(s)
  {
  }

  predicate StartsWith(s: string, prefix: string) {
    |prefix| <= |s| && s[..|prefix|] == prefix
  }

  /** `sub` occurs in `s` starting at index `i`. */
  predicate OccursAt(s: string, sub: string, i: int) {
    0 <= i <= |s| - |sub| && s[i..i + |sub|] == sub
  }

  /** `String.prototype.includes`: `sub` occurs somewhere in `s`. */
  predicate Contains(s: string, sub: string) {
    exists i | 0 <= i <= |s| - |sub| :: OccursAt(s, sub, i)
  }

  /** The left-to-right search that `includes` performs. */
  predicate Search(s: string, sub: string)
    decreases |s|
  {
    StartsWith(s, sub) || (s != [] && Search(s[1..], sub))
  }

  /** The left-to-right search finds `sub` exactly when it occurs somewhere in `s`. */
  lemma {:induction false} SearchContains(s: string, sub: string)
    ensures Search(s, sub) <==> Contains(s, sub)
    decreases |s|
  {
    if StartsWith(s, sub) {
      assert OccursAt(s, sub, 0);
    }
    if s != [] {
      SearchContains(s[1..], sub);
      if Contains(s[1..], sub) {
        var i :| 0 <= i <= |s[1..]| - |sub| && OccursAt(s[1..], sub, i);
        assert s[i + 1..i + 1 + |sub|] == s[1..][i..i + |sub|];
        assert OccursAt(s, sub, i + 1);
      }
      if Contains(s, sub) {
        var i :| 0 <= i <= |s| - |sub| && OccursAt(s, sub, i);
        if i > 0 {
          assert s[1..][i - 1..i - 1 + |sub|] == s[i..i + |sub|];
          assert OccursAt(s[1..], sub, i - 1);
        }
      }
    }
  }

  /** A string that lacks some character of `sub` cannot contain it. */
  lemma NotContainsWithout(s: string, sub: string, k: nat)
    requires k < |sub| && sub[k] !in s
    ensures !Contains(s, sub)
  {
    forall i | 0 <= i <= |s| - |sub|
      ensures !OccursAt(s, sub, i)
    {
      assert s[i..i + |sub|][k] == s[i + k];
    }
  }

  /** A string contains itself. */
  lemma ContainsSelf(s: string)
    ensures Contains(s, s)
  {
    assert OccursAt(s, s, 0);
  }

  /** Inverse of `Split`: the pieces glued back together with the separator. */
  function Join(parts: seq<string>, sep: char): string
    decreases |parts|
  {
    if parts == [] then []
    else if |parts| == 1 then parts[0]
    else parts[0] + [sep] + Join(parts[1..], sep)
  }

  /** `s.split(sep)` for a one-character separator: always at least one piece, none of which
      contains the separator, and joining the pieces gives `s` back. */
  function Split(s: string, sep: char): (r: seq<string>)
    ensures |r| >= 1
    ensures |r| <= |s| + 1
    ensures forall k :: 0 <= k < |r| ==> sep !in r[k]
    ensures Join(r, sep) == s
    decreases |s|
  {
    if s == [] then [[]]
    else
      var rest := Split(s[1..], sep);
      if s[0] == sep then
        [[]] + rest
      else
        var r := [[s[0]] + rest[0]] + rest[1..];
        assert r[1..] == rest[1..];
        r
  }

  /** Splitting undoes joining pieces that do not contain the separator. */
  lemma {:induction false} SplitJoin(parts: seq<string>, sep: char)
    requires parts != []
    requires forall k :: 0 <= k < |parts| ==> sep !in parts[k]
    ensures Split(Join(parts, sep), sep) == parts
    decreases |parts|, |parts[0]|
  {
    var p := parts[0];
    var j := Join(parts, sep);
    if p == [] && |parts| > 1 {
      SplitJoin(parts[1..], sep);
      assert j == [sep] + Join(parts[1..], sep);
      assert j[1..] == Join(parts[1..], sep);
      assert Split(j, sep) == [[]] + Split(j[1..], sep);
      assert [p] + parts[1..] == parts;
    } else if p != [] {
      var tail := [p[1..]] + parts[1..];
      assert tail[0] == p[1..] && tail[1..] == parts[1..];
      assert forall k :: 0 <= k < |tail| ==> sep !in tail[k] by {
        forall k | 0 <= k < |tail| ensures sep !in tail[k] {
          if k == 0 { assert sep !in p; } else { assert tail[k] == parts[k]; }
        }
      }
      SplitJoin(tail, sep);
      assert p[0] != sep by { assert p[0] in parts[0]; }
      JoinFirst(parts, tail, sep);
      assert j[0] == p[0] && j[1..] == Join(tail, sep);
      var rest := Split(j[1..], sep);
      assert rest == tail;
      assert Split(j, sep) == [[j[0]] + rest[0]] + rest[1..];
      assert [p[0]] + p[1..] == p;
    }
  }

  /** Joining pieces whose first one is non-empty: the first character comes first and the
      rest is the join with that character removed. */
  lemma JoinFirst(parts: seq<string>, tail: seq<string>, sep: char)
    requires parts != [] && parts[0] != []
    requires tail == [parts[0][1..]] + parts[1..]
    ensures Join(parts, sep) == [parts[0][0]] + Join(tail, sep)
  {
    var p := parts[0];
    assert tail[1..] == parts[1..];
    if |parts| > 1 {
      assert Join(tail, sep) == p[1..] + [sep] + Join(parts[1..], sep);
    }
    assert [p[0]] + p[1..] == p;
  }
}
