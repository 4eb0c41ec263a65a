/**
 * The string operations the services use: `str.lower`, `str.strip`,
 * `str.rstrip(chars)`, `re.sub(r'\s+', ' ', s)`, `str.split(sep)`,
 * `str.startswith`, substring search and the SQL `LIKE '%x%'` test.
 */
module Text {
  import opened Wrappers

  /** Python's `str.isspace`, which is also what `\s` matches in a `str` pattern. */
  predicate IsSpace(c: char) {
    || c == ' ' || '\t' <= c <= '\r' || '\U{1C}' <= c <= '\U{1F}'
    || c == '\U{85}' || c == '\U{A0}' || c == '\U{1680}'
    || '\U{2000}' <= c <= '\U{200A}' || c == '\U{2028}' || c == '\U{2029}'
    || c == '\U{202F}' || c == '\U{205F}' || c == '\U{3000}'
  }

  predicate IsDigit(c: char) { '0' <= c <= '9' }

  predicate IsUpper(c: char) { 'A' <= c <= 'Z' }

  /** No character of `s` is an (ASCII) capital letter. */
  predicate NoUpper(s: string) {
    forall i :: 0 <= i < |s| ==> !IsUpper(s[i])
  }

  /** Neither end of `s` is whitespace. */
  predicate IsStripped(s: string) {
    s == [] || (!IsSpace(s[0]) && !IsSpace(s[|s| - 1]))
  }

  /** Every whitespace character of `s` is a plain space. */
  predicate OnlyPlainSpaces(s: string) {
    forall i :: 0 <= i < |s| ==> IsSpace(s[i]) ==> s[i] == ' '
  }

  /** No two adjacent characters of `s` are both whitespace. */
  predicate NoDoubleSpace(s: string) {
    forall i :: 0 <= i < |s| - 1 ==> !(IsSpace(s[i]) && IsSpace(s[i + 1]))
  }

  /** `s` is unchanged by `re.sub(r'\s+', ' ', s)`. */
  predicate IsCollapsed(s: string) {
    OnlyPlainSpaces(s) && NoDoubleSpace(s)
  }

  function LowerChar(c: char): (r: char)
    ensures !IsUpper(r)
    ensures !IsUpper(c) ==> r == c
    ensures IsSpace(r) <==> IsSpace(c)
  {
    if IsUpper(c) then (c as int + 32) as char else c
  }

  /** `s.lower()`, for the ASCII letters. */
  function Lower(s: string): (r: string)
    ensures |r| == |s| && NoUpper(r)
    ensures forall i :: 0 <= i < |s| ==> r[i] == LowerChar(s[i])
  {
    seq(|s|, i requires 0 <= i < |s| => LowerChar(s[i]))
  }

  lemma LowerOfNoUpper(s: string)
    requires NoUpper(s)
    ensures Lower(s) == s
  {
  }

  /** `s` without its leading whitespace (`s.lstrip()`). */
  function LStrip(s: string): (r: string)
    ensures |r| <= |s| && r == s[|s| - |r|..]
    ensures r == [] || !IsSpace(r[0])
    ensures forall i :: 0 <= i < |s| - |r| ==> IsSpace(s[i])
  {
    if s != [] && IsSpace(s[0]) then LStrip(s[1..]) else s
  }

  /** `r` is the slice of `s` at `i` and everything of `s` around it is whitespace. */
  predicate IsStripOf(s: string, r: string, i: int) {
    && 0 <= i <= |s| - |r| && r == s[i..i + |r|]
    && (forall j :: 0 <= j < i ==> IsSpace(s[j]))
    && (forall j :: i + |r| <= j < |s| ==> IsSpace(s[j]))
  }

  /** `s.strip()`: `s` without its leading and trailing whitespace. */
  function Strip(s: string): (r: string)
    ensures IsStripped(r)
    ensures |r| <= |s|
    decreases |s|
  {
    if s == [] then []
    else if IsSpace(s[0]) then Strip(s[1..])
    else if IsSpace(s[|s| - 1]) then Strip(s[..|s| - 1])
    else s
  }

  /** The stripped string is the slice of `s` between its leading and trailing whitespace. */
  lemma {:induction false} StripIsStripOf(s: string)
    ensures exists i :: IsStripOf(s, Strip(s), i)
    decreases |s|
  {
    var r := Strip(s);
    if s == [] {
      assert IsStripOf(s, r, 0);
    } else if IsSpace(s[0]) {
      StripIsStripOf(s[1..]);
      var i :| IsStripOf(s[1..], r, i);
      StripOfAfterSpace(s, r, i);
    } else if IsSpace(s[|s| - 1]) {
      StripIsStripOf(s[..|s| - 1]);
      var i :| IsStripOf(s[..|s| - 1], r, i);
      StripOfBeforeSpace(s, r, i);
    } else {
      assert IsStripOf(s, r, 0);
    }
  }

  /** A leading whitespace character widens the margin before the slice by one. */
  lemma StripOfAfterSpace(s: string, r: string, i: int)
    requires s != [] && IsSpace(s[0]) && IsStripOf(s[1..], r, i)
    ensures IsStripOf(s, r, i + 1)
  {
    assert s[1..][i..i + |r|] == s[i + 1..i + 1 + |r|];
    assert forall j :: 1 <= j < |s| ==> s[j] == s[1..][j - 1];
  }

  /** A trailing whitespace character widens the margin after the slice by one. */
  lemma StripOfBeforeSpace(s: string, r: string, i: int)
    requires s != [] && IsSpace(s[|s| - 1]) && IsStripOf(s[..|s| - 1], r, i)
    ensures IsStripOf(s, r, i)
  {
    var t := s[..|s| - 1];
    assert t[i..i + |r|] == s[i..i + |r|];
    assert forall j :: 0 <= j < |t| ==> s[j] == t[j];
  }

  lemma StripOfStripped(s: string)
    requires IsStripped(s)
    ensures Strip(s) == s
  {
  }

  /** Characters in `Strip(s)` come from `s`. */
  lemma StripKeepsNoUpper(s: string)
    requires NoUpper(s)
    ensures NoUpper(Strip(s))
  {
    var r := Strip(s);
    StripIsStripOf(s);
    var i :| IsStripOf(s, r, i);
    forall k | 0 <= k < |r| ensures !IsUpper(r[k]) {
      assert r[k] == s[i + k];
    }
  }

  /** `re.sub(r'\s+', ' ', s)`: every run of whitespace becomes one space. */
  function Collapse(s: string): (r: string)
    ensures |r| <= |s|
    ensures s != [] ==> r != [] && r[0] == (if IsSpace(s[0]) then ' ' else s[0])
    decreases |s|
  {
    if s == [] then []
    else if IsSpace(s[0]) then [' '] + Collapse(LStrip(s[1..]))
    else [s[0]] + Collapse(s[1..])
  }

  /** Putting `c` in front keeps a string collapsed unless it starts a run of whitespace. */
  lemma ConsCollapsed(c: char, t: string)
    requires IsCollapsed(t)
    requires IsSpace(c) ==> c == ' ' && (t == [] || !IsSpace(t[0]))
    ensures IsCollapsed([c] + t)
  {
    var r := [c] + t;
    forall i | 0 <= i < |r| - 1 ensures !(IsSpace(r[i]) && IsSpace(r[i + 1])) {
      if i > 0 { assert r[i] == t[i - 1] && r[i + 1] == t[i]; }
    }
    forall i | 0 <= i < |r| && IsSpace(r[i]) ensures r[i] == ' ' {
      if i > 0 { assert r[i] == t[i - 1]; }
    }
  }

  /** The result of `Collapse` has no run of two whitespace characters and no whitespace but ' '. */
  lemma {:induction false} CollapseIsCollapsed(s: string)
    ensures IsCollapsed(Collapse(s))
    decreases |s|
  {
    if s != [] {
      var rest := if IsSpace(s[0]) then LStrip(s[1..]) else s[1..];
      CollapseIsCollapsed(rest);
      var t := Collapse(rest);
      assert Collapse(s) == [Collapse(s)[0]] + t;
      ConsCollapsed(Collapse(s)[0], t);
    }
  }

  lemma {:induction false} CollapseOfCollapsed(s: string)
    requires IsCollapsed(s)
    ensures Collapse(s) == s
    decreases |s|
  {
    if s != [] {
      if |s| > 1 { assert !(IsSpace(s[0]) && IsSpace(s[1])); }
      CollapseOfCollapsed(s[1..]);
    }
  }

  lemma {:induction false} CollapseKeepsNoUpper(s: string)
    requires NoUpper(s)
    ensures NoUpper(Collapse(s))
    decreases |s|
  {
    if s != [] {
      if IsSpace(s[0]) {
        var l := LStrip(s[1..]);
        assert forall k :: 0 <= k < |l| ==> l[k] == s[1..][|s[1..]| - |l| + k];
        CollapseKeepsNoUpper(l);
      } else {
        CollapseKeepsNoUpper(s[1..]);
      }
    }
  }

  lemma {:induction false} CollapseKeepsLastNonSpace(s: string)
    requires s != [] && !IsSpace(s[|s| - 1])
    ensures Collapse(s) != [] && !IsSpace(Collapse(s)[|Collapse(s)| - 1])
    decreases |s|
  {
    if |s| > 1 {
      var rest := if IsSpace(s[0]) then LStrip(s[1..]) else s[1..];
      assert rest != [] && rest[|rest| - 1] == s[|s| - 1];
      CollapseKeepsLastNonSpace(rest);
      assert Collapse(s) == [Collapse(s)[0]] + Collapse(rest);
    }
  }

  /** Collapsing the runs of a stripped string leaves it stripped. */
  lemma CollapseKeepsStripped(s: string)
    requires IsStripped(s)
    ensures IsStripped(Collapse(s))
  {
    if s != [] { CollapseKeepsLastNonSpace(s); }
  }

  /** `s.rstrip(chars)`: `s` without the trailing characters that are in `chars`. */
  function RStripChars(s: string, chars: set<char>): (r: string)
    ensures |r| <= |s| && r == s[..|r|]
    ensures r == [] || r[|r| - 1] !in chars
    ensures forall i :: |r| <= i < |s| ==> s[i] in chars
  {
    if s != [] && s[|s| - 1] in chars then RStripChars(s[..|s| - 1], chars) else s
  }

  predicate StartsWith(s: string, prefix: string) {
    |prefix| <= |s| && s[..|prefix|] == prefix
  }

  /** `needle` occurs in `s` at position `i`. */
  predicate OccursAt(s: string, needle: string, i: int) {
    0 <= i && i + |needle| <= |s| && s[i..i + |needle|] == needle
  }

  /** `needle in s`: the substring test. */
  predicate Contains(s: string, needle: string) {
    exists i :: 0 <= i <= |s| - |needle| && OccursAt(s, needle, i)
  }

  /** The SQL test `s ILIKE '%needle%'` (ASCII case folding on both sides). */
  predicate ILikeContains(s: string, needle: string) {
    Contains(Lower(s), Lower(needle))
  }

  /** A slice in which `needle` starts nowhere does not contain it. */
  lemma NoOccurrenceInSlice(s: string, needle: string, lo: nat, hi: nat)
    requires lo <= hi <= |s|
    requires forall j :: lo <= j && j + |needle| <= hi ==> !OccursAt(s, needle, j)
    ensures !Contains(s[lo..hi], needle)
  {
    var t := s[lo..hi];
    forall p | 0 <= p <= |t| - |needle| ensures !OccursAt(t, needle, p) {
      var a, b := t[p..p + |needle|], s[lo + p..lo + p + |needle|];
      assert forall k :: 0 <= k < |needle| ==> a[k] == b[k];
      assert a == b;
      assert !OccursAt(s, needle, lo + p);
    }
  }

  /** An occurrence in a slice is an occurrence in the whole string. */
  lemma ContainsOfSlice(s: string, needle: string, lo: nat, hi: nat)
    requires lo <= hi <= |s| && Contains(s[lo..hi], needle)
    ensures Contains(s, needle)
  {
    var t := s[lo..hi];
    var p :| 0 <= p <= |t| - |needle| && OccursAt(t, needle, p);
    var a, b := t[p..p + |needle|], s[lo + p..lo + p + |needle|];
    assert forall k :: 0 <= k < |needle| ==> a[k] == b[k];
    assert a == b;
    assert OccursAt(s, needle, lo + p);
  }

  /** `s.find(needle, start)`: the first position at or after `start` where `needle` occurs. */
  function FindFrom(s: string, needle: string, start: nat): (r: Option<nat>)
    ensures r.Some? ==> start <= r.value && OccursAt(s, needle, r.value)
    ensures r.Some? ==> forall j :: start <= j < r.value ==> !OccursAt(s, needle, j)
    ensures r.None? ==> forall j :: start <= j ==> !OccursAt(s, needle, j)
    decreases |s| - start
  {
    if start + |needle| > |s| then None
    else if s[start..start + |needle|] == needle then Some(start)
    else FindFrom(s, needle, start + 1)
  }

  /** `s.index(c)`: the first position of `c` in `s`. */
  function IndexOf(s: string, c: char): (r: Option<nat>)
    ensures r.Some? ==> r.value < |s| && s[r.value] == c && c !in s[..r.value]
    ensures r.None? <==> c !in s
  {
    if s == [] then None
    else if s[0] == c then Some(0)
    else
      var t := IndexOf(s[1..], c);
      if t.None? then None
      else
        assert s[..t.value + 1] == [s[0]] + s[1..][..t.value];
        Some(t.value + 1)
  }

  /** The pieces of `s` between the occurrences of `sep`, as `s.split(sep)` gives them. */
  function SplitOn(s: string, sep: char): (r: seq<string>)
    ensures |r| >= 1
    ensures forall k :: 0 <= k < |r| ==> sep !in r[k]
    decreases |s|
  {
    match IndexOf(s, sep)
    case None => [s]
    case Some(i) => [s[..i]] + SplitOn(s[i + 1..], sep)
  }

  /** Joining the pieces of a split with the separator gives back the string. */
  lemma {:induction false} SplitJoin(s: string, sep: char)
    ensures JoinWith(SplitOn(s, sep), sep) == s
    decreases |s|
  {
    match IndexOf(s, sep)
    case None =>
    case Some(i) =>
      SplitJoin(s[i + 1..], sep);
      var rest := SplitOn(s[i + 1..], sep);
      assert ([s[..i]] + rest)[1..] == rest;
      assert s == s[..i] + [sep] + s[i + 1..];
  }

  /** `sep.join(pieces)`. */
  function JoinWith(pieces: seq<string>, sep: char): string
    requires |pieces| >= 1
  {
    if |pieces| == 1 then pieces[0] else pieces[0] + [sep] + JoinWith(pieces[1..], sep)
  }
}
