/** The two string operations of the site-list pipeline:
    `String.prototype.trim` and `split("\n")`. */
module Text {
  import opened Prelude

  /** The characters `trim` removes: ECMAScript WhiteSpace (tab, vertical
      tab, form feed, space, no-break space, the other Zs space separators
      and the byte order mark) and LineTerminator (LF, CR, LS, PS). */
  predicate IsJsWhitespace(c: char) {
    || c == '\t' || c == '\n' || c == '\U{000B}' || c == '\U{000C}' || c == '\r'
    || c == ' ' || c == '\U{00A0}' || c == '\U{1680}'
    || ('\U{2000}' <= c <= '\U{200A}')
    || c == '\U{2028}' || c == '\U{2029}' || c == '\U{202F}' || c == '\U{205F}'
    || c == '\U{3000}' || c == '\U{FEFF}'
  }

  predicate AllWhitespace(s: string) {
    forall i :: 0 <= i < |s| ==> IsJsWhitespace(s[i])
  }

  /** Neither end of `s` is whitespace. */
  predicate IsTrimmed(s: string) {
    s == [] || (!IsJsWhitespace(s[0]) && !IsJsWhitespace(s[|s| - 1]))
  }

  /** How many whitespace characters `s` starts with. */
  function LeadingSpace(s: string): (n: nat)
    ensures n <= |s|
    ensures forall i :: 0 <= i < n ==> IsJsWhitespace(s[i])
    ensures n < |s| ==> !IsJsWhitespace(s[n])
  {
    if s != [] && IsJsWhitespace(s[0]) then 1 + LeadingSpace(s[1..]) else 0
  }

  /** The length of `s` without its trailing whitespace. */
  function CoreEnd(s: string): (n: nat)
    ensures n <= |s|
    ensures forall i :: n <= i < |s| ==> IsJsWhitespace(s[i])
    ensures n > 0 ==> !IsJsWhitespace(s[n - 1])
  {
    if s != [] && IsJsWhitespace(s[|s| - 1]) then CoreEnd(s[..|s| - 1]) else |s|
  }

  /** `s` without its leading whitespace. */
  function TrimStart(s: string): string {
    s[LeadingSpace(s)..]
  }

  /** `s` without its trailing whitespace. */
  function TrimEnd(s: string): string {
    s[..CoreEnd(s)]
  }

  /** `s.trim()`: `s` without its leading and its trailing whitespace. */
  function Trim(s: string): (r: string)
    ensures IsTrimmed(r)
    ensures |r| <= |s|
  {
    TrimEnd(TrimStart(s))
  }

  /** What `trim` removed is whitespace at the two ends of `s`. */
  lemma TrimDecomposes(s: string) returns (lead: string, trail: string)
    ensures s == lead + Trim(s) + trail
    ensures AllWhitespace(lead) && AllWhitespace(trail)
  {
    var t := TrimStart(s);
    var core := TrimEnd(t);
    lead, trail := s[..LeadingSpace(s)], t[CoreEnd(t)..];
    assert AllWhitespace(trail) by {
      assert forall i :: 0 <= i < |trail| ==> trail[i] == t[CoreEnd(t) + i];
    }
    assert s == lead + t;
    assert t == core + trail;
    AppendAssoc(lead, core, trail);
  }

  lemma {:induction false} LeadingSpaceOf(lead: string, rest: string)
    requires AllWhitespace(lead)
    requires rest == [] || !IsJsWhitespace(rest[0])
    ensures LeadingSpace(lead + rest) == |lead|
  {
    if lead == [] {
      assert lead + rest == rest;
    } else {
      assert (lead + rest)[0] == lead[0];
      assert (lead + rest)[1..] == lead[1..] + rest;
      LeadingSpaceOf(lead[1..], rest);
    }
  }

  lemma {:induction false} CoreEndOf(rest: string, trail: string)
    requires AllWhitespace(trail)
    requires rest == [] || !IsJsWhitespace(rest[|rest| - 1])
    ensures CoreEnd(rest + trail) == |rest|
  {
    if trail == [] {
      assert rest + trail == rest;
    } else {
      var n := |rest + trail|;
      assert (rest + trail)[n - 1] == trail[|trail| - 1];
      assert (rest + trail)[..n - 1] == rest + trail[..|trail| - 1];
      CoreEndOf(rest, trail[..|trail| - 1]);
    }
  }

  /** Conversely, whitespace around a trimmed core is exactly what `trim`
      removes, so `trim` is determined by the two ends alone. */
  lemma TrimUnique(lead: string, core: string, trail: string)
    requires AllWhitespace(lead) && AllWhitespace(trail) && IsTrimmed(core)
    ensures Trim(lead + core + trail) == core
  {
    var s := lead + core + trail;
    if core == [] {
      assert s == lead + trail;
      assert AllWhitespace(s) by {
        forall i | 0 <= i < |s| ensures IsJsWhitespace(s[i]) {
          if i < |lead| { assert s[i] == lead[i]; }
          else { assert s[i] == trail[i - |lead|]; }
        }
      }
      LeadingSpaceOf(s, []);
      assert s + [] == s;
      assert s[|s|..] == [];
    } else {
      assert s == lead + (core + trail);
      LeadingSpaceOf(lead, core + trail);
      assert s[|lead|..] == core + trail;
      CoreEndOf(core, trail);
      assert (core + trail)[..|core|] == core;
    }
  }

  /** `s.split("\n")`: the pieces of `s` between line feeds, in order; an
      empty string gives one empty piece. */
  function SplitLines(s: string): (r: seq<string>)
    ensures |r| >= 1
    ensures forall i :: 0 <= i < |r| ==> '\n' !in r[i]
  {
    if s == [] then [""]
    else
      var rest := SplitLines(s[1..]);
      if s[0] == '\n' then [""] + rest
      else [[s[0]] + rest[0]] + rest[1..]
  }

  /** `lines.join("\n")`, the inverse of `split("\n")`. */
  function JoinLines(lines: seq<string>): string
    requires |lines| >= 1
  {
    if |lines| == 1 then lines[0] else lines[0] + "\n" + JoinLines(lines[1..])
  }

  /** Splitting loses nothing: joining the pieces gives the text back. */
  lemma {:induction false} JoinSplit(s: string)
    ensures JoinLines(SplitLines(s)) == s
  {
    if s != [] {
      var rest := SplitLines(s[1..]);
      JoinSplit(s[1..]);
      if s[0] == '\n' {
        assert ([""] + rest)[1..] == rest;
      } else {
        var r := [[s[0]] + rest[0]] + rest[1..];
        if |rest| == 1 {
          assert JoinLines(r) == [s[0]] + rest[0];
        } else {
          assert r[1..] == rest[1..];
          assert JoinLines(rest) == rest[0] + "\n" + JoinLines(rest[1..]);
        }
      }
    }
  }

  lemma {:induction false} SplitSingleLine(w: string)
    requires '\n' !in w
    ensures SplitLines(w) == [w]
  {
    if w != [] {
      SplitSingleLine(w[1..]);
      assert [w[0]] + w[1..] == w;
    }
  }

  lemma {:induction false} SplitFirstLine(w: string, t: string)
    requires '\n' !in w
    ensures SplitLines(w + "\n" + t) == [w] + SplitLines(t)
  {
    var s := w + "\n" + t;
    if w == [] {
      assert s == "\n" + t;
      assert s[1..] == t;
    } else {
      assert s[0] == w[0];
      assert s[1..] == w[1..] + "\n" + t;
      SplitFirstLine(w[1..], t);
      assert [w[0]] + w[1..] == w;
    }
  }

  /** Joining lines that hold no line feed and splitting again gives the
      same lines. */
  lemma {:induction false} SplitJoin(lines: seq<string>)
    requires |lines| >= 1
    requires forall i :: 0 <= i < |lines| ==> '\n' !in lines[i]
    ensures SplitLines(JoinLines(lines)) == lines
  {
    if |lines| == 1 {
      SplitSingleLine(lines[0]);
    } else {
      SplitJoin(lines[1..]);
      SplitFirstLine(lines[0], JoinLines(lines[1..]));
      assert [lines[0]] + lines[1..] == lines;
    }
  }
}
