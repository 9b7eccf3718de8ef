/** Normalisation of a time zone name typed by the user: "utc" becomes "UTC",
    "america/new york" becomes "America/New_York". Letter case is modelled
    for ASCII letters only. */
module TimezoneInfo {

  /** Python's `str.isspace()` for one character. */
  predicate IsSpace(c: char)
  {
    ('\t' <= c <= '\r') || ('\U{1C}' <= c <= '\U{1F}') || c == ' ' ||
    c == '\U{85}' || c == '\U{A0}' || c == '\U{1680}' ||
    ('\U{2000}' <= c <= '\U{200A}') || c == '\U{2028}' || c == '\U{2029}' ||
    c == '\U{202F}' || c == '\U{205F}' || c == '\U{3000}'
  }

  predicate IsLower(c: char) { 'a' <= c <= 'z' }

  predicate IsUpper(c: char) { 'A' <= c <= 'Z' }

  /** A letter that has an upper and a lower case. */
  predicate IsCased(c: char) { IsLower(c) || IsUpper(c) }

  function UpperChar(c: char): (d: char)
    ensures !IsLower(d)
    ensures IsLower(c) ==> IsUpper(d) && LowerChar(d) == c
    ensures IsCased(d) == IsCased(c)
    ensures !IsLower(c) ==> d == c
  {
    if IsLower(c) then (c as int - 'a' as int + 'A' as int) as char else c
  }

  function LowerChar(c: char): (d: char)
    ensures !IsUpper(d)
    ensures IsUpper(c) ==> IsLower(d)
    ensures IsCased(d) == IsCased(c)
    ensures !IsUpper(c) ==> d == c
  {
    if IsUpper(c) then (c as int - 'A' as int + 'a' as int) as char else c
  }

  /** No whitespace at either end. */
  predicate Trimmed(s: string)
  {
    s == [] || (!IsSpace(s[0]) && !IsSpace(s[|s| - 1]))
  }

  /** Every character of `t` is whitespace. */
  predicate AllSpace(t: string)
  {
    forall k :: 0 <= k < |t| ==> IsSpace(t[k])
  }

  /** `r` is a suffix of `s` that does not start with whitespace, and only
      whitespace was cut off in front of it; nothing is cut off when `s`
      does not start with whitespace. */
  predicate LeadingCut(s: string, r: string)
  {
    |r| <= |s| && r == s[|s| - |r|..] && AllSpace(s[..|s| - |r|]) &&
    (r == [] || !IsSpace(r[0])) && (s == [] || !IsSpace(s[0]) ==> r == s)
  }

  /** `r` is a prefix of `s` that does not end with whitespace, and only
      whitespace was cut off behind it; nothing is cut off when `s` does not
      end with whitespace. */
  predicate TrailingCut(s: string, r: string)
  {
    |r| <= |s| && r == s[..|r|] && AllSpace(s[|r|..]) &&
    (r == [] || !IsSpace(r[|r| - 1])) && (s == [] || !IsSpace(s[|s| - 1]) ==> r == s)
  }

  /** `s` without its leading whitespace. */
  function StripLeading(s: string): (r: string)
    ensures LeadingCut(s, r)
  {
    if s != [] && IsSpace(s[0]) then
      var r := StripLeading(s[1..]);
      SpacePrepended(s, r);
      r
    else s
  }

  /** `s` without its trailing whitespace. */
  function StripTrailing(s: string): (r: string)
    ensures TrailingCut(s, r)
  {
    if s != [] && IsSpace(s[|s| - 1]) then
      var r := StripTrailing(s[..|s| - 1]);
      SpaceAppended(s, |r|);
      r
    else s
  }

  /** Cutting a leading whitespace character and then the whitespace after
      it cuts a run of whitespace from the input. */
  lemma SpacePrepended(s: string, r: string)
    requires s != [] && IsSpace(s[0])
    requires |r| <= |s| - 1 && r == s[1..][|s| - 1 - |r|..]
    requires AllSpace(s[1..][..|s| - 1 - |r|])
    ensures r == s[|s| - |r|..]
    ensures AllSpace(s[..|s| - |r|])
  {
    var n := |s| - |r|;
    assert s[1..][n - 1..] == s[n..];
    forall k | 0 < k < n
      ensures IsSpace(s[..n][k])
    {
      assert s[..n][k] == s[1..][..n - 1][k - 1];
    }
  }

  /** A run of whitespace followed by a whitespace character; also, a prefix
      of the input without its last character is a prefix of the input. */
  lemma SpaceAppended(s: string, n: int)
    requires 0 <= n < |s| && IsSpace(s[|s| - 1]) && AllSpace(s[..|s| - 1][n..])
    ensures AllSpace(s[n..])
    ensures s[..|s| - 1][..n] == s[..n]
  {
    forall k | 0 <= k < |s| - 1 - n
      ensures IsSpace(s[n..][k])
    {
      assert s[n..][k] == s[..|s| - 1][n..][k];
    }
  }

  /** Cutting leading whitespace keeps every other character. */
  lemma {:induction false} StripLeadingKeeps(s: string)
    ensures forall c :: !IsSpace(c) ==> (c in StripLeading(s) <==> c in s)
  {
    if s != [] && IsSpace(s[0]) {
      StripLeadingKeeps(s[1..]);
      assert s == [s[0]] + s[1..];
    }
  }

  /** Cutting trailing whitespace keeps every other character. */
  lemma {:induction false} StripTrailingKeeps(s: string)
    ensures forall c :: !IsSpace(c) ==> (c in StripTrailing(s) <==> c in s)
  {
    if s != [] && IsSpace(s[|s| - 1]) {
      StripTrailingKeeps(s[..|s| - 1]);
      assert s == s[..|s| - 1] + [s[|s| - 1]];
    }
  }

  /** Python's `str.strip()`: the slice of `s` left when whitespace is taken
      off both ends. */
  function Strip(s: string): (r: string)
    ensures Trimmed(r)
    ensures Trimmed(s) ==> r == s
    ensures exists i :: StrippedAt(s, r, i)
  {
    var left := StripLeading(s);
    var r := StripTrailing(left);
    StripFacts(s, left, r);
    r
  }

  /** Stripping keeps every non-whitespace character of the input. */
  lemma StripKeeps(s: string)
    ensures forall c :: !IsSpace(c) ==> (c in Strip(s) <==> c in s)
  {
    StripLeadingKeeps(s);
    StripTrailingKeeps(StripLeading(s));
  }

  /** `r` is the slice of `s` starting at `i`, with only whitespace around it. */
  predicate StrippedAt(s: string, r: string, i: int)
  {
    0 <= i && i + |r| <= |s| && r == s[i..i + |r|] &&
    AllSpace(s[..i]) && AllSpace(s[i + |r|..])
  }

  /** What taking whitespace off the front (`left`) and then off the back
      (`r`) leaves, derived from those two steps' contracts alone. */
  lemma StripFacts(s: string, left: string, r: string)
    requires LeadingCut(s, left) && TrailingCut(left, r)
    ensures Trimmed(r)
    ensures StrippedAt(s, r, |s| - |left|)
    ensures Trimmed(s) ==> r == s
  {
    var i := |s| - |left|;
    SliceOfSuffix(s, i, |r|);
    if r != [] {
      assert r[0] == left[0];
    }
  }

  /** A prefix of a suffix is a middle slice, and a suffix of a suffix is a
      suffix. */
  lemma SliceOfSuffix(s: string, i: int, n: int)
    requires 0 <= i <= |s| && 0 <= n <= |s| - i
    ensures s[i..][..n] == s[i..i + n]
    ensures s[i..][n..] == s[i + n..]
  {
  }

  /** Python's `str.upper()`. */
  function Upper(s: string): (r: string)
    ensures |r| == |s|
    ensures forall i :: 0 <= i < |r| ==> !IsLower(r[i])
    ensures forall i :: 0 <= i < |s| ==> !IsLower(s[i]) ==> r[i] == s[i]
    ensures forall i :: 0 <= i < |s| ==> IsLower(s[i]) ==> IsUpper(r[i]) && LowerChar(r[i]) == s[i]
  {
    seq(|s|, i requires 0 <= i < |s| => UpperChar(s[i]))
  }

  /** Python's `str.replace(" ", "_")`. */
  function ReplaceSpaces(s: string): (r: string)
    ensures |r| == |s|
    ensures ' ' !in r
    ensures forall i :: 0 <= i < |s| ==> s[i] == ' ' ==> r[i] == '_'
    ensures forall i :: 0 <= i < |s| ==> s[i] != ' ' ==> r[i] == s[i]
  {
    seq(|s|, i requires 0 <= i < |s| => if s[i] == ' ' then '_' else s[i])
  }

  /** Python's `str.title()` on the rest of a string whose previous character
      was cased (`previousCased`) or not: a letter after a cased character is
      lowered, any other letter raised. */
  function TitleFrom(s: string, previousCased: bool): (r: string)
    ensures |r| == |s|
    ensures forall i :: 0 <= i < |s| ==> IsCased(r[i]) == IsCased(s[i])
    ensures forall i :: 0 <= i < |s| ==> !IsCased(s[i]) ==> r[i] == s[i]
  {
    if s == [] then []
    else
      var first := if previousCased then LowerChar(s[0]) else UpperChar(s[0]);
      [first] + TitleFrom(s[1..], IsCased(s[0]))
  }

  function Title(s: string): (r: string)
    ensures |r| == |s|
    ensures forall i :: 0 <= i < |s| ==> r[i] == TitleChar(s, false, i)
  {
    forall i | 0 <= i < |s| ensures TitleFrom(s, false)[i] == TitleChar(s, false, i) {
      TitleAt(s, false, i);
    }
    TitleFrom(s, false)
  }

  /** `str.title()` character by character: a letter is lowered exactly
      when the character before it is a letter, and raised otherwise. */
  function TitleChar(s: string, previousCased: bool, i: int): char
    requires 0 <= i < |s|
  {
    if (if i == 0 then previousCased else IsCased(s[i - 1]))
    then LowerChar(s[i]) else UpperChar(s[i])
  }

  /** The left-to-right definition agrees with `TitleChar` everywhere. */
  lemma {:induction false} TitleAt(s: string, previousCased: bool, i: int)
    requires 0 <= i < |s|
    ensures TitleFrom(s, previousCased)[i] == TitleChar(s, previousCased, i)
  {
    if i > 0 {
      TitleAt(s[1..], IsCased(s[0]), i - 1);
    }
  }

  /** Title-casing a title-cased string changes nothing. */
  lemma {:induction false} TitleIdempotent(s: string, previousCased: bool)
    ensures TitleFrom(TitleFrom(s, previousCased), previousCased) == TitleFrom(s, previousCased)
  {
    if s != [] {
      var t := TitleFrom(s, previousCased);
      TitleIdempotent(s[1..], IsCased(s[0]));
      assert t[1..] == TitleFrom(s[1..], IsCased(s[0]));
      assert IsCased(t[0]) == IsCased(s[0]);
    }
  }

  /** The name as the bot looks it up: a single word is stripped and
      upper-cased; a name with a "/" is stripped, its spaces become "_" and it
      is title-cased. */
  function NormalizeTimezone(tz: string): (r: string)
    ensures ('/' in r) <==> ('/' in tz)
    ensures Trimmed(r)
    ensures '/' in tz ==> ' ' !in r
    ensures '/' !in tz ==> forall i :: 0 <= i < |r| ==> !IsLower(r[i])
  {
    var s := Strip(tz);
    assert ('/' in s) <==> ('/' in tz) by {
      StripKeeps(tz);
      assert !IsSpace('/');
    }
    if '/' !in tz then
      UpperKeepsUncased(s);
      Upper(s)
    else
      ReplaceSpacesKeepsSlash(s);
      TitleKeepsUncased(ReplaceSpaces(s));
      Title(ReplaceSpaces(s))
  }

  /** Upper-casing keeps whitespace at the ends and keeps "/" out. */
  lemma UpperKeepsUncased(s: string)
    requires Trimmed(s) && '/' !in s
    ensures Trimmed(Upper(s)) && '/' !in Upper(s)
  {
  }

  /** Replacing spaces keeps the ends free of whitespace and keeps every "/". */
  lemma ReplaceSpacesKeepsSlash(s: string)
    requires Trimmed(s) && '/' in s
    ensures Trimmed(ReplaceSpaces(s)) && '/' in ReplaceSpaces(s)
  {
    var k :| 0 <= k < |s| && s[k] == '/';
    assert ReplaceSpaces(s)[k] == '/';
  }

  /** Title-casing keeps whitespace, spaces and "/" where they were. */
  lemma TitleKeepsUncased(s: string)
    ensures Trimmed(s) ==> Trimmed(TitleFrom(s, false))
    ensures ('/' in s) <==> ('/' in TitleFrom(s, false))
    ensures (' ' in s) <==> (' ' in TitleFrom(s, false))
  {
    var t := TitleFrom(s, false);
    KeepsUncased(s, t, '/');
    KeepsUncased(s, t, ' ');
  }

  /** A string that keeps every uncased character of `s` in place, and puts
      cased characters only where `s` has them, contains an uncased `c`
      exactly when `s` does. */
  lemma KeepsUncased(s: string, t: string, c: char)
    requires |t| == |s| && !IsCased(c)
    requires forall i :: 0 <= i < |s| ==> IsCased(t[i]) == IsCased(s[i])
    requires forall i :: 0 <= i < |s| ==> !IsCased(s[i]) ==> t[i] == s[i]
    ensures (c in s) <==> (c in t)
  {
    if c in s {
      var k :| 0 <= k < |s| && s[k] == c;
      assert t[k] == c;
    }
    if c in t {
      var k :| 0 <= k < |t| && t[k] == c;
      assert s[k] == c;
    }
  }

  /** Upper-casing an upper-cased string changes nothing. */
  lemma UpperIdempotent(s: string)
    ensures Upper(Upper(s)) == Upper(s)
  {
  }

  /** A string without spaces has nothing to replace. */
  lemma ReplaceSpacesNoSpace(s: string)
    requires ' ' !in s
    ensures ReplaceSpaces(s) == s
  {
  }

  /** Normalising a normalised name changes nothing. */
  lemma NormalizeIdempotent(tz: string)
    ensures NormalizeTimezone(NormalizeTimezone(tz)) == NormalizeTimezone(tz)
  {
    var once := NormalizeTimezone(tz);
    if '/' !in tz {
      NormalizeWord(tz);
      NormalizeWord(once);
      UpperIdempotent(Strip(tz));
    } else {
      NormalizeSlashed(tz);
      NormalizeSlashed(once);
      ReplaceSpacesNoSpace(once);
      TitleIdempotent(ReplaceSpaces(Strip(tz)), false);
    }
  }

  /** The branch of a name without "/". */
  lemma NormalizeWord(tz: string)
    requires '/' !in tz
    ensures NormalizeTimezone(tz) == Upper(Strip(tz))
  {
  }

  /** The branch of a name with a "/". */
  lemma NormalizeSlashed(tz: string)
    requires '/' in tz
    ensures NormalizeTimezone(tz) == Title(ReplaceSpaces(Strip(tz)))
  {
  }

  // The examples below. Those about a whole input name it as a parameter
  // fixed by their `requires` rather than as a literal in the `ensures`: the
  // solver then reasons about one term instead of re-expanding the literal
  // at every use, which keeps the proofs cheap.

  lemma UpperUtc()
    ensures Upper("utc") == "UTC"
  {
  }

  lemma SplitUtc(tz: string)
    requires tz == " utc "
    ensures '/' !in tz && tz == [' '] + "utc" + [' ']
  {
  }

  /** A single word is trimmed and upper-cased. */
  lemma NormalizeSingleWord(tz: string)
    requires tz == " utc "
    ensures NormalizeTimezone(tz) == "UTC"
  {
    SplitUtc(tz);
    NormalizeWord(tz);
    StripSurrounding(' ', "utc", ' ');
    UpperUtc();
  }

  /** A string is the title-cased form of `s` when it agrees with
      `TitleChar` at every position. */
  lemma TitleByCharacters(s: string, t: string)
    requires |t| == |s|
    requires forall i :: 0 <= i < |s| ==> t[i] == TitleChar(s, false, i)
    ensures Title(s) == t
  {
    forall i | 0 <= i < |s| ensures Title(s)[i] == t[i] {
      TitleAt(s, false, i);
    }
  }

  /** Stripping takes off one whitespace character at each end of a trimmed
      word. */
  lemma StripSurrounding(c: char, inner: string, d: char)
    requires IsSpace(c) && IsSpace(d) && inner != [] && Trimmed(inner)
    ensures Strip([c] + inner + [d]) == inner
  {
    var right := inner + [d];
    assert [c] + inner + [d] == [c] + right;
    LeadingSpaceDropped(c, right);
    assert right[0] == inner[0];
    TrailingSpaceDropped(inner, d);
  }

  lemma LeadingSpaceDropped(c: char, t: string)
    requires IsSpace(c)
    ensures StripLeading([c] + t) == StripLeading(t)
  {
    assert ([c] + t)[1..] == t;
  }

  lemma TrailingSpaceDropped(t: string, d: char)
    requires IsSpace(d)
    ensures StripTrailing(t + [d]) == StripTrailing(t)
  {
    assert (t + [d])[..|t|] == t;
  }

  lemma TitleNewYork()
    ensures Title("america/new_york") == "America/New_York"
  {
    TitleByCharacters("america/new_york", "America/New_York");
  }

  lemma ReplaceParis()
    ensures ReplaceSpaces("europe / paris") == "europe_/_paris"
  {
  }

  lemma TitleParis()
    ensures Title("europe_/_paris") == "Europe_/_Paris"
  {
    TitleByCharacters("europe_/_paris", "Europe_/_Paris");
  }

  lemma TrimmedNewYork(tz: string)
    requires tz == "america/new york"
    ensures Trimmed(tz) && '/' in tz
  {
    assert tz[7] == '/';
    assert tz[0] == 'a' && tz[|tz| - 1] == 'k';
  }

  lemma ReplaceNewYork()
    ensures ReplaceSpaces("america/new york") == "america/new_york"
  {
  }

  /** A region and city become title case, with "_" for the space. */
  lemma NormalizeRegionAndCity(tz: string)
    requires tz == "america/new york"
    ensures NormalizeTimezone(tz) == "America/New_York"
  {
    TrimmedNewYork(tz);
    NormalizeSlashed(tz);
    ReplaceNewYork();
    TitleNewYork();
  }

  /** Spaces around the "/" are kept, as underscores. */
  lemma NormalizeKeepsSpacesAroundSlash(tz: string)
    requires tz == " europe / paris "
    ensures NormalizeTimezone(tz) == "Europe_/_Paris"
  {
    var inner := "europe / paris";
    assert tz == [' '] + inner + [' '];
    StripSurrounding(' ', inner, ' ');
    ReplaceParis();
    TitleParis();
  }
}
