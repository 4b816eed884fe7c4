/**
  * Headshot URL resolution (Backend/headshots.py): name and school normalisation, the avatar
  * placeholder, the ESPN team-id cache and its lookup order, roster name matching, and the
  * NBA and NCAA resolvers. The network and `nba_api` are oracles passed in as values.
  */
module Headshots {
  import opened Wrappers
  import opened Text
  import opened Seqs

  const NbaCdn := "https://cdn.nba.com/headshots/nba/latest/1040x760"
  const EspnNcaaCdn := "https://a.espncdn.com/i/headshots/mens-college-basketball/players/full"
  const UiAvatars := "https://ui-avatars.com/api"
  const AvatarStyle := "&background=1a1a2e&color=ff6b35&bold=true&size=260"

  // ---------------------------------------------------------------------------
  // _normalize_name
  // ---------------------------------------------------------------------------

  /**
    * Lower-cased, stripped, whitespace runs collapsed to one space; a missing or non-string
    * value (None) and the empty string give "".
    */
  function NormalizeName(name: Option<string>): string {
    if name.None? || name.value == "" then "" else CollapseSpace(Lower(Strip(name.value)), ' ')
  }

  /** A normalised name: no upper case, no outer whitespace, every inner run one space. */
  predicate IsNormalName(s: string) {
    NoUpper(s) && Stripped(s) && Collapsed(s)
  }

  lemma NormalizeNameIsNormal(name: Option<string>)
    ensures IsNormalName(NormalizeName(name))
    ensures name.None? || Strip(name.value) == "" ==> NormalizeName(name) == ""
  {
    if name.Some? && name.value != "" {
      StripIsStripped(name.value);
      LowerCollapseIsNormal(Strip(name.value));
    }
  }

  lemma LowerCollapseIsNormal(t: string)
    requires Stripped(t)
    ensures IsNormalName(CollapseSpace(Lower(t), ' '))
  {
    var l := Lower(t);
    LowerHasNoUpper(t);
    CollapseSpaceIsCollapsed(l);
    CollapseSpaceNoUpper(l, ' ');
    if t != [] {
      LowerKeepsSpaces(t);
      assert !IsSpace(l[0]) && !IsSpace(l[|l| - 1]);
      CollapseSpaceFirst(l, ' ');
      CollapseSpaceLast(l, ' ');
    }
  }

  /** Normalising twice is normalising once. */
  lemma NormalizeNameIdempotent(name: Option<string>)
    ensures NormalizeName(Some(NormalizeName(name))) == NormalizeName(name)
  {
    var s := NormalizeName(name);
    if s != "" {
      NormalizeNameIsNormal(name);
      StripOfStripped(s);
      LowerOfNoUpper(s);
      CollapseSpaceOfCollapsed(s);
    }
  }

  // ---------------------------------------------------------------------------
  // _normalize_school
  // ---------------------------------------------------------------------------

  /** A character `\w` matches (ASCII letters, digits and '_'). */
  predicate IsWordChar(c: char) {
    'a' <= c <= 'z' || 'A' <= c <= 'Z' || IsDigit(c) || c == '_'
  }

  /**
    * `re.sub(r"\b<abbr>\.?\s*$", repl, s)`: a trailing word `abbr`, with or without a period
    * and trailing whitespace, is replaced by `repl`. The word must start at a word boundary.
    */
  predicate IsAbbreviation(abbr: string) {
    abbr != [] && !IsSpace(abbr[|abbr| - 1]) && abbr[|abbr| - 1] != '.'
  }

  /** Where the match of `<abbr>\.?` that ends the (right-trimmed) string `t` starts; -1 for none. */
  function MatchStart(t: string, abbr: string): int {
    if EndsWith(t, abbr + ".") then |t| - |abbr| - 1
    else if EndsWith(t, abbr) then |t| - |abbr|
    else -1
  }

  function RewriteSuffix(s: string, abbr: string, repl: string): string
    requires IsAbbreviation(abbr)
  {
    var t := TrimEnd(s);
    var p := MatchStart(t, abbr);
    if p >= 0 && (p == 0 || !IsWordChar(t[p - 1])) then t[..p] + repl else s
  }

  lemma MatchStartWord(w: string, abbr: string)
    requires IsAbbreviation(abbr)
    ensures MatchStart(w + abbr, abbr) == |w|
  {
    var s1 := w + abbr;
    assert s1[|s1| - 1] == abbr[|abbr| - 1];
    assert s1[|s1| - |abbr|..] == abbr;
  }

  lemma MatchStartWordDot(w: string, abbr: string)
    requires IsAbbreviation(abbr)
    ensures MatchStart(w + abbr + ".", abbr) == |w|
  {
    var s2 := w + abbr + ".";
    assert s2[|s2| - |abbr| - 1..] == abbr + ".";
  }

  /** A trailing separate word `abbr` is rewritten. */
  lemma RewriteSuffixWord(w: string, abbr: string, repl: string)
    requires IsAbbreviation(abbr)
    requires w == [] || !IsWordChar(w[|w| - 1])
    ensures RewriteSuffix(w + abbr, abbr, repl) == w + repl
  {
    var s1 := w + abbr;
    assert s1[|s1| - 1] == abbr[|abbr| - 1];
    assert TrimEnd(s1) == s1;
    MatchStartWord(w, abbr);
    assert s1[..|w|] == w;
    if w != [] {
      assert s1[|w| - 1] == w[|w| - 1];
    }
  }

  /** A trailing separate word `abbr.` is rewritten. */
  lemma RewriteSuffixWordDot(w: string, abbr: string, repl: string)
    requires IsAbbreviation(abbr)
    requires w == [] || !IsWordChar(w[|w| - 1])
    ensures RewriteSuffix(w + abbr + ".", abbr, repl) == w + repl
  {
    var s2 := w + abbr + ".";
    assert s2[|s2| - 1] == '.';
    assert TrimEnd(s2) == s2;
    MatchStartWordDot(w, abbr);
    assert s2[..|w|] == w;
    if w != [] {
      assert s2[|w| - 1] == w[|w| - 1];
    }
  }

  /** A word that merely ends in `abbr` ("east" for "st") is left alone. */
  lemma RewriteSuffixInsideWord(w: string, abbr: string, repl: string)
    requires IsAbbreviation(abbr)
    requires w != [] && IsWordChar(w[|w| - 1])
    ensures RewriteSuffix(w + abbr, abbr, repl) == w + abbr
  {
    var s1 := w + abbr;
    assert s1[|s1| - 1] == abbr[|abbr| - 1];
    assert TrimEnd(s1) == s1;
    MatchStartWord(w, abbr);
    assert s1[|w| - 1] == w[|w| - 1];
  }

  /** Python `s.replace(pat, rep)`: every non-overlapping occurrence, scanning left to right. */
  function ReplaceAll(s: string, pat: string, rep: string): (r: string)
    requires pat != []
    ensures !Contains(s, pat) ==> r == s
    decreases |s|
  {
    if s == [] then []
    else if IsPrefix(pat, s) then rep + ReplaceAll(s[|pat|..], pat, rep)
    else [s[0]] + ReplaceAll(s[1..], pat, rep)
  }

  /** An occurrence at the front is replaced, and the scan resumes after it. */
  lemma ReplaceAllPrefix(v: string, pat: string, rep: string)
    requires pat != []
    ensures ReplaceAll(pat + v, pat, rep) == rep + ReplaceAll(v, pat, rep)
  {
    assert (pat + v)[..|pat|] == pat && (pat + v)[|pat|..] == v;
  }

  /** Text at which no occurrence starts is copied unchanged, and the scan goes on after it. */
  lemma {:induction false} ReplaceAllCopies(s: string, t: string, pat: string, rep: string)
    requires pat != []
    requires forall i :: 0 <= i < |s| ==> !IsPrefix(pat, (s + t)[i..])
    ensures ReplaceAll(s + t, pat, rep) == s + ReplaceAll(t, pat, rep)
  {
    if s == [] {
      assert s + t == t;
    } else {
      assert (s + t)[0..] == s + t;
      assert (s + t)[1..] == s[1..] + t;
      forall i | 0 <= i < |s[1..]|
        ensures !IsPrefix(pat, (s[1..] + t)[i..])
      {
        assert (s[1..] + t)[i..] == (s + t)[i + 1..];
      }
      ReplaceAllCopies(s[1..], t, pat, rep);
    }
  }

  /** A pattern whose second character is a dot never occurs in a dot-free text. */
  lemma DotPatternAbsent(x: string, pat: string, rep: string)
    requires |pat| >= 2 && pat[1] == '.' && '.' !in x
    ensures ReplaceAll(x, pat, rep) == x
  {
    forall i | 0 <= i < |x|
      ensures !IsPrefix(pat, (x + "")[i..])
    {
      assert x + "" == x;
      if i + 1 < |x| {
        assert x[i..][1] == x[i + 1];
      }
    }
    ReplaceAllCopies(x, "", pat, rep);
    assert x + "" == x;
  }

  /** The abbreviation rewrites, in the source's order. */
  function Abbreviations(s: string): string {
    var s1 := RewriteSuffix(s, "st", " state");
    var s2 := RewriteSuffix(s1, "fla", " florida");
    RewriteSuffix(s2, "car", " carolina")
  }

  function NcRewrite(s: string): string {
    ReplaceAll(ReplaceAll(s, "n.c.", "nc "), "n.c ", "nc ")
  }

  /** A leading "n.c." followed by dot-free text becomes "nc ", and the rest is kept. */
  lemma NcRewriteLeading(v: string)
    requires '.' !in v
    ensures NcRewrite("n.c." + v) == "nc " + v
  {
    ReplaceAllPrefix(v, "n.c.", "nc ");
    DotPatternAbsent(v, "n.c.", "nc ");
    DotPatternAbsent("nc " + v, "n.c ", "nc ");
  }

  /** A leading "n.c " (the initials without the last dot) also becomes "nc ", by the second pass. */
  lemma NcRewriteLeadingSpaced(v: string)
    requires '.' !in v
    ensures NcRewrite("n.c " + v) == "nc " + v
  {
    var x := "n.c " + v;
    forall i | 0 <= i < |x|
      ensures !IsPrefix("n.c.", (x + "")[i..])
    {
      assert x + "" == x;
      if i == 0 {
        assert x[..4][3] == ' ';
      } else if i + 1 < |x| {
        assert x[i..][1] == x[i + 1];
        assert i + 1 >= 4 ==> x[i + 1] == v[i - 3];
      }
    }
    ReplaceAllCopies(x, "", "n.c.", "nc ");
    assert x + "" == x;
    ReplaceAllPrefix(v, "n.c ", "nc ");
    DotPatternAbsent(v, "n.c ", "nc ");
  }

  /** A dot-free text ending in "n.c." ends in "nc " after the rewrite, and its start is kept. */
  lemma NcRewriteTrailing(w: string)
    requires '.' !in w
    ensures NcRewrite(w + "n.c.") == w + "nc "
  {
    var x := w + "n.c.";
    forall i | 0 <= i < |w|
      ensures !IsPrefix("n.c.", x[i..])
    {
      assert x[i..][1] == x[i + 1];
      if i + 1 < |w| {
        assert x[i + 1] == w[i + 1];
      }
    }
    ReplaceAllCopies(w, "n.c.", "n.c.", "nc ");
    ReplaceAllPrefix("", "n.c.", "nc ");
    assert "n.c." + "" == "n.c." && "nc " + "" == "nc ";
    assert ReplaceAll(x, "n.c.", "nc ") == w + "nc ";
    assert '.' !in w + "nc ";
    DotPatternAbsent(w + "nc ", "n.c ", "nc ");
  }

  /** The mascot suffixes, in tuple order (" bearcats" is listed twice). */
  const Mascots: seq<string> := [
    " cyclones", " buckeyes", " hawkeyes", " hoosiers", " boilermakers",
    " wolverines", " spartans", " wildcats", " badgers", " gophers",
    " fighting illini", " illini", " cornhuskers", " terrapins",
    " blue devils", " tar heels", " cavaliers", " seminoles", " hurricanes",
    " cardinals", " bearcats", " jayhawks", " sooners", " longhorns",
    " aggies", " tigers", " bulldogs", " crimson tide", " rebels",
    " cougars", " bearcats", " mountaineers", " hokies", " yellow jackets"
  ]

  /** Removes the first suffix, in list order, that `s` ends with, and strips; at most one. */
  function StripMascot(s: string, suffixes: seq<string>): string {
    if suffixes == [] then s
    else if EndsWith(s, suffixes[0]) then Strip(s[..|s| - |suffixes[0]|])
    else StripMascot(s, suffixes[1..])
  }

  /** The steps after name normalisation, up to the mascot loop. */
  function Cleaned(s: string): string {
    Strip(CollapseSpace(NcRewrite(Abbreviations(s)), ' '))
  }

  function NormalizeSchool(school: Option<string>): string {
    var s := NormalizeName(school);
    if s == "" then "" else StripMascot(Cleaned(s), Mascots)
  }

  /** The mascot loop: the first suffix `s` ends with is cut off and the rest stripped, then `break`. */
  method CutFirstSuffix(s: string, suffixes: seq<string>) returns (r: string)
    ensures r == StripMascot(s, suffixes)
  {
    var i := 0;
    while i < |suffixes|
      invariant 0 <= i <= |suffixes|
      invariant StripMascot(s, suffixes[i..]) == StripMascot(s, suffixes)
    {
      assert suffixes[i..][1..] == suffixes[i + 1..];
      if EndsWith(s, suffixes[i]) {
        return Strip(s[..|s| - |suffixes[i]|]);
      }
      i := i + 1;
    }
    return s;
  }

  /** `_normalize_school`, rebinding `s` through the rewrites and then the mascot loop. */
  method NormalizeSchoolSteps(school: Option<string>) returns (s: string)
    ensures s == NormalizeSchool(school)
  {
    s := NormalizeName(school);
    if s == "" {
      return;
    }
    ghost var name := s;
    s := RewriteSuffix(s, "st", " state");
    s := RewriteSuffix(s, "fla", " florida");
    s := RewriteSuffix(s, "car", " carolina");
    assert s == Abbreviations(name);
    s := ReplaceAll(s, "n.c.", "nc ");
    s := ReplaceAll(s, "n.c ", "nc ");
    s := Strip(CollapseSpace(s, ' '));
    assert s == Cleaned(name);
    s := CutFirstSuffix(s, Mascots);
  }

  /** The position in `suffixes` of the first one `s` ends with, or `|suffixes|` for none. */
  function FirstSuffix(s: string, suffixes: seq<string>): (k: nat)
    ensures k <= |suffixes|
    ensures forall j :: 0 <= j < k ==> !EndsWith(s, suffixes[j])
    ensures k < |suffixes| ==> EndsWith(s, suffixes[k])
  {
    if suffixes == [] then 0
    else if EndsWith(s, suffixes[0]) then 0
    else
      var k := FirstSuffix(s, suffixes[1..]);
      assert forall j :: 1 <= j < k + 1 ==> suffixes[j] == suffixes[1..][j - 1];
      k + 1
  }

  /** The result is `s` itself when no suffix applies, else `s` without the first applying one, stripped. */
  lemma {:induction false} StripMascotFirst(s: string, suffixes: seq<string>)
    ensures var k := FirstSuffix(s, suffixes);
      StripMascot(s, suffixes) == if k == |suffixes| then s else Strip(s[..|s| - |suffixes[k]|])
  {
    if suffixes != [] && !EndsWith(s, suffixes[0]) {
      StripMascotFirst(s, suffixes[1..]);
      assert FirstSuffix(s, suffixes) == FirstSuffix(s, suffixes[1..]) + 1;
    }
  }

  /** A slice of a collapsed string is collapsed. */
  lemma CollapsedSlice(s: string, i: int, j: int)
    requires Collapsed(s) && 0 <= i <= j <= |s|
    ensures Collapsed(s[i..j])
  {
    var t := s[i..j];
    forall k | 0 <= k < |t| && IsSpace(t[k]) ensures t[k] == ' ' && (k + 1 < |t| ==> !IsSpace(t[k + 1])) {
      assert t[k] == s[i + k];
      if k + 1 < |t| {
        assert t[k + 1] == s[i + k + 1];
      }
    }
  }

  /** Stripping a collapsed string gives a stripped, collapsed string. */
  lemma StripCollapsed(s: string)
    requires Collapsed(s)
    ensures Collapsed(Strip(s)) && Stripped(Strip(s))
  {
    var t := TrimStart(s);
    CollapsedSlice(s, |s| - |t|, |s|);
    CollapsedSlice(t, 0, |TrimEnd(t)|);
    StripIsStripped(s);
  }

  /** Cutting a suffix off a clean string and stripping leaves it clean. */
  lemma StripMascotClean(c: string, suffixes: seq<string>)
    requires Collapsed(c) && Stripped(c)
    ensures Collapsed(StripMascot(c, suffixes)) && Stripped(StripMascot(c, suffixes))
  {
    StripMascotFirst(c, suffixes);
    var k := FirstSuffix(c, suffixes);
    if k < |suffixes| {
      var t := c[..|c| - |suffixes[k]|];
      assert StripMascot(c, suffixes) == Strip(t);
      CollapsedSlice(c, 0, |t|);
      StripCollapsed(t);
    } else {
      assert StripMascot(c, suffixes) == c;
    }
  }

  lemma CleanedIsClean(s: string)
    ensures Collapsed(Cleaned(s)) && Stripped(Cleaned(s))
  {
    var x := NcRewrite(Abbreviations(s));
    CollapseSpaceIsCollapsed(x);
    StripCollapsed(CollapseSpace(x, ' '));
  }

  /** The normalised school is whitespace-collapsed and stripped. */
  lemma NormalizeSchoolIsClean(school: Option<string>)
    ensures Collapsed(NormalizeSchool(school)) && Stripped(NormalizeSchool(school))
  {
    var s := NormalizeName(school);
    if s != "" {
      CleanedIsClean(s);
      StripMascotClean(Cleaned(s), Mascots);
    }
  }

  /** A text whose k-th character from the end differs from the suffix's does not end with it. */
  lemma NotEndsWithAt(s: string, suffix: string, k: nat)
    requires k < |suffix| && k < |s| && s[|s| - 1 - k] != suffix[|suffix| - 1 - k]
    ensures !EndsWith(s, suffix)
  {
    if |suffix| <= |s| {
      assert s[|s| - |suffix|..][|suffix| - 1 - k] == s[|s| - 1 - k];
    }
  }

  /** A text ending in "c." is left alone by an abbreviation rewrite whose word does not end in 'c'. */
  lemma RewriteSuffixAfterDotC(s: string, abbr: string, repl: string)
    requires IsAbbreviation(abbr) && abbr[|abbr| - 1] != 'c'
    requires |s| >= 2 && s[|s| - 2] == 'c' && s[|s| - 1] == '.'
    ensures RewriteSuffix(s, abbr, repl) == s
  {
    assert TrimEnd(s) == s;
    var d := abbr + ".";
    assert d[|d| - 2] == abbr[|abbr| - 1];
    NotEndsWithAt(s, d, 1);
    NotEndsWithAt(s, abbr, 0);
    assert MatchStart(s, abbr) == -1;
  }

  /** A school whose normalised name ends in "n.c." keeps it through the abbreviation rewrites. */
  lemma AbbreviationsTrailingNc(w: string)
    ensures Abbreviations(w + "n.c.") == w + "n.c."
  {
    var s := w + "n.c.";
    assert s[|s| - 2] == 'c' && s[|s| - 1] == '.';
    RewriteSuffixAfterDotC(s, "st", " state");
    RewriteSuffixAfterDotC(s, "fla", " florida");
    RewriteSuffixAfterDotC(s, "car", " carolina");
  }

  /**
    * `_normalize_school` on a name ending in dotted "n.c." (with no other dot): the initials
    * become "nc ", and collapsing, stripping and the mascot loop follow.
    */
  lemma NormalizeSchoolTrailingNc(school: Option<string>, w: string)
    requires NormalizeName(school) == w + "n.c." && '.' !in w
    ensures NormalizeSchool(school) == StripMascot(Strip(CollapseSpace(w + "nc ", ' ')), Mascots)
  {
    AbbreviationsTrailingNc(w);
    NcRewriteTrailing(w);
  }

  // ---------------------------------------------------------------------------
  // _placeholder_headshot
  // ---------------------------------------------------------------------------

  /** The avatar's name part: `(name or "?").strip()`, "?" when blank, spaces as '+'. */
  function AvatarName(name: Option<string>): string {
    var clean := Strip(if name.None? || name.value == "" then "?" else name.value);
    ReplaceChar(if clean == "" then "?" else clean, ' ', '+')
  }

  function Placeholder(name: Option<string>): (r: string)
    ensures IsPrefix(UiAvatars + "/?name=", r) && EndsWith(r, AvatarStyle)
  {
    ConcatAffixes(UiAvatars + "/?name=", AvatarName(name), AvatarStyle);
    UiAvatars + "/?name=" + AvatarName(name) + AvatarStyle
  }

  /** The name part is never empty and has no space. */
  lemma AvatarNameShape(name: Option<string>)
    ensures AvatarName(name) != [] && ' ' !in AvatarName(name)
  {
    var clean := Strip(if name.None? || name.value == "" then "?" else name.value);
    var c := if clean == "" then "?" else clean;
    var a := ReplaceChar(c, ' ', '+');
    assert a == AvatarName(name);
    assert |a| == |c| > 0;
    assert forall i :: 0 <= i < |a| ==> a[i] != ' ';
  }

  /** A missing or blank name shows "?". */
  lemma AvatarNameBlank(name: Option<string>)
    requires name.None? || Strip(name.value) == ""
    ensures AvatarName(name) == "?"
  {
    StripOfStripped("?");
    if name.Some? && name.value == "" {
      assert Strip(name.value) == "";
    }
  }

  /** The stripped name comes back from the name part by turning '+' into ' ', when it had no '+'. */
  lemma AvatarNameRoundTrip(name: string)
    requires Strip(name) != "" && '+' !in Strip(name)
    ensures ReplaceChar(AvatarName(Some(name)), '+', ' ') == Strip(name)
  {
    var t := Strip(name);
    assert name != "";
    var a := AvatarName(Some(name));
    assert a == ReplaceChar(t, ' ', '+');
    forall i | 0 <= i < |t| ensures ReplaceChar(a, '+', ' ')[i] == t[i] {
      assert t[i] != '+';
    }
  }

  // ---------------------------------------------------------------------------
  // The ESPN team-id cache: an insertion-ordered dict of normalised name -> team id
  // ---------------------------------------------------------------------------

  /** A Python dict from strings to strings: the keys in insertion order and the mapping. */
  datatype Dict = Dict(keys: seq<string>, vals: map<string, string>)

  const EmptyDict := Dict([], map[])

  predicate DictValid(d: Dict) {
    (forall i, j :: 0 <= i < j < |d.keys| ==> d.keys[i] != d.keys[j])
    && d.vals.Keys == Elems(d.keys)
  }

  /** `d[k] = v`: a new key goes to the end, an existing key keeps its place. */
  function Put(d: Dict, k: string, v: string): (r: Dict)
    requires DictValid(d)
    ensures DictValid(r)
    ensures r.vals == d.vals[k := v]
    ensures k in d.vals ==> r.keys == d.keys
    ensures k !in d.vals ==> r.keys == d.keys + [k]
  {
    if k in d.vals then Dict(d.keys, d.vals[k := v]) else Dict(d.keys + [k], d.vals[k := v])
  }

  /** A team entry from the teams listing; `None` for a missing or falsy `team`. */
  datatype EspnTeam = EspnTeam(
    id: string,
    location: Option<string>,
    shortDisplayName: Option<string>,
    displayName: Option<string>,
    abbreviation: Option<string>,
    name: Option<string>)

  /** The keys one team is stored under, in the order they are assigned. */
  function TeamKeys(t: EspnTeam): seq<string> {
    [NormalizeSchool(t.location), NormalizeSchool(t.shortDisplayName), NormalizeSchool(t.displayName),
     NormalizeName(t.abbreviation), NormalizeName(t.name), NormalizeName(t.location)]
  }

  /** Assigns `id` under each non-empty key in turn. */
  function PutKeys(d: Dict, keys: seq<string>, id: string): (r: Dict)
    requires DictValid(d)
    ensures DictValid(r)
    decreases |keys|
  {
    if keys == [] then d
    else
      var d1 := PutKeys(d, keys[..|keys| - 1], id);
      var k := keys[|keys| - 1];
      if k != "" then Put(d1, k, id) else d1
  }

  function AddTeam(d: Dict, e: Option<EspnTeam>): (r: Dict)
    requires DictValid(d)
    ensures DictValid(r)
  {
    if e.None? || e.value.id == "" then d else PutKeys(d, TeamKeys(e.value), e.value.id)
  }

  /** The dict after adding the team entries in order. */
  function AddTeams(d: Dict, es: seq<Option<EspnTeam>>): (r: Dict)
    requires DictValid(d)
    ensures DictValid(r)
    decreases |es|
  {
    if es == [] then d else AddTeam(AddTeams(d, es[..|es| - 1]), es[|es| - 1])
  }

  lemma AddTeamsStep(d: Dict, es: seq<Option<EspnTeam>>, i: nat)
    requires DictValid(d) && i < |es|
    ensures AddTeams(d, es[..i + 1]) == AddTeam(AddTeams(d, es[..i]), es[i])
  {
    assert es[..i + 1][..i] == es[..i];
  }

  /** Every key in the cache is non-empty and every id stored is non-empty. */
  predicate CacheEntriesNonEmpty(d: Dict) {
    (forall k :: k in d.vals ==> k != "" && d.vals[k] != "")
  }

  lemma {:induction false} PutKeysNonEmpty(d: Dict, keys: seq<string>, id: string)
    requires DictValid(d) && CacheEntriesNonEmpty(d) && id != ""
    ensures CacheEntriesNonEmpty(PutKeys(d, keys, id))
    decreases |keys|
  {
    if keys != [] {
      PutKeysNonEmpty(d, keys[..|keys| - 1], id);
    }
  }

  lemma {:induction false} AddTeamsNonEmpty(d: Dict, es: seq<Option<EspnTeam>>)
    requires DictValid(d) && CacheEntriesNonEmpty(d)
    ensures CacheEntriesNonEmpty(AddTeams(d, es))
    decreases |es|
  {
    if es != [] {
      var d1 := AddTeams(d, es[..|es| - 1]);
      AddTeamsNonEmpty(d, es[..|es| - 1]);
      var e := es[|es| - 1];
      if e.Some? && e.value.id != "" {
        PutKeysNonEmpty(d1, TeamKeys(e.value), e.value.id);
      }
    }
  }

  /** The `sports` / `leagues` / `teams` nesting of the listing, read in document order. */
  function TeamEntries(sports: seq<seq<seq<Option<EspnTeam>>>>): seq<Option<EspnTeam>> {
    if sports == [] then [] else Concat(sports[0]) + TeamEntries(sports[1..])
  }

  function Concat(leagues: seq<seq<Option<EspnTeam>>>): seq<Option<EspnTeam>> {
    if leagues == [] then [] else leagues[0] + Concat(leagues[1..])
  }

  predicate Related(k: string, norm: string) {
    Contains(k, norm) || Contains(norm, k)
  }

  function RelatedTo(norm: string): string -> bool {
    (k: string) => Related(k, norm)
  }

  /**
    * The lookup order: the exact key, then the key with its spaces removed, then the first
    * key in insertion order that contains the school or is contained in it.
    */
  function LookupKey(d: Dict, norm: string): Option<string>
    requires DictValid(d)
  {
    if norm in d.vals then Some(d.vals[norm])
    else if RemoveChar(norm, ' ') in d.vals then Some(d.vals[RemoveChar(norm, ' ')])
    else
      match FindFirst(d.keys, RelatedTo(norm))
      case Some(k) => Some(d.vals[k])
      case None => None
  }

  /** The lookup finds nothing exactly when no key equals, matches without spaces, contains or is contained in the school. */
  lemma LookupKeyNone(d: Dict, norm: string)
    requires DictValid(d)
    ensures LookupKey(d, norm).None? <==>
      norm !in d.vals && RemoveChar(norm, ' ') !in d.vals && forall k :: k in d.keys ==> !Related(k, norm)
    ensures LookupKey(d, norm).Some? ==> LookupKey(d, norm).value in d.vals.Values
  {
    var r := FindFirst(d.keys, RelatedTo(norm));
    if r.Some? {
      assert r.value in d.vals;
    }
  }

  /** The lookup is the first related key in insertion order: no earlier key is related. */
  lemma LookupKeyFirst(d: Dict, norm: string, i: nat)
    requires DictValid(d) && norm !in d.vals && RemoveChar(norm, ' ') !in d.vals
    requires i < |d.keys| && Related(d.keys[i], norm)
    requires forall j :: 0 <= j < i ==> !Related(d.keys[j], norm)
    ensures LookupKey(d, norm) == Some(d.vals[d.keys[i]])
  {
    FindFirstIsFirst(d.keys, RelatedTo(norm), i);
  }

  // ---------------------------------------------------------------------------
  // _fetch_espn_headshot_from_roster
  // ---------------------------------------------------------------------------

  /** An athlete entry of a roster; `href` is "" when the headshot or its href is missing. */
  datatype Athlete = Athlete(fullName: Option<string>, displayName: Option<string>, href: string)

  /** The name test: equal normalised full or display name, or the same set of full-name tokens. */
  predicate NameMatches(query: string, a: Athlete) {
    var full := NormalizeName(a.fullName);
    query == full || query == NormalizeName(a.displayName)
      || (Words(query) != [] && Elems(Words(query)) == Elems(Words(full)))
  }

  /** An athlete the loop returns at: a matching name with a headshot href. */
  predicate Hit(query: string, a: Athlete) {
    NameMatches(query, a) && a.href != ""
  }

  function HitFor(query: string): Athlete -> bool {
    (a: Athlete) => Hit(query, a)
  }

  /** The href the roster search returns, if any (`None` also for an unreadable roster). */
  function RosterMatch(roster: Option<seq<Athlete>>, playerName: string): Option<string> {
    var q := NormalizeName(Some(playerName));
    if roster.None? || q == "" then None
    else
      match FindFirst(roster.value, HitFor(q))
      case Some(a) => Some(a.href)
      case None => None
  }

  /** The loop body's two tests together are exactly `Hit`. */
  lemma HitTests(q: string, a: Athlete)
    ensures var full := NormalizeName(a.fullName);
      var partsQ := Elems(Words(q));
      Hit(q, a) <==> ((q == full || q == NormalizeName(a.displayName)) && a.href != "")
                     || (partsQ != {} && partsQ == Elems(Words(full)) && a.href != "")
  {
    if Words(q) != [] {
      assert Words(q)[0] in Elems(Words(q));
    }
  }

  /** The roster loop with its early returns. */
  method RosterHeadshot(roster: Option<seq<Athlete>>, playerName: string) returns (href: Option<string>)
    ensures href == RosterMatch(roster, playerName)
    ensures href.Some? ==> href.value != ""
  {
    if roster.None? {
      return None;
    }
    var q := NormalizeName(Some(playerName));
    if q == "" {
      return None;
    }
    var athletes := roster.value;
    var i := 0;
    while i < |athletes|
      invariant 0 <= i <= |athletes|
      invariant FindFirst(athletes, HitFor(q)) == FindFirst(athletes[i..], HitFor(q))
    {
      assert athletes[i..][1..] == athletes[i + 1..];
      var a := athletes[i];
      HitTests(q, a);
      var full := NormalizeName(a.fullName);
      var display := NormalizeName(a.displayName);
      if q == full || q == display {
        if a.href != "" {
          return Some(a.href);
        }
      }
      var partsQ := Elems(Words(q));
      var partsF := Elems(Words(full));
      if partsQ != {} && partsQ == partsF {
        if a.href != "" {
          return Some(a.href);
        }
      }
      i := i + 1;
    }
    return None;
  }

  /** A returned href belongs to a matching athlete, and no earlier athlete matched with an href. */
  lemma RosterMatchIsFirst(athletes: seq<Athlete>, playerName: string)
    ensures var r := RosterMatch(Some(athletes), playerName);
      r.Some? ==> exists i :: (0 <= i < |athletes| && NameMatches(NormalizeName(Some(playerName)), athletes[i])
        && athletes[i].href == r.value
        && forall j :: 0 <= j < i ==> !Hit(NormalizeName(Some(playerName)), athletes[j]))
  {
    var q := NormalizeName(Some(playerName));
    var f := FindFirst(athletes, HitFor(q));
    if q != "" && f.Some? {
      var i :| 0 <= i < |athletes| && athletes[i] == f.value;
      FirstHitIndex(athletes, HitFor(q));
    }
  }

  lemma {:induction false} FirstHitIndex<T>(s: seq<T>, p: T -> bool)
    requires FindFirst(s, p).Some?
    ensures exists i :: 0 <= i < |s| && s[i] == FindFirst(s, p).value && forall j :: 0 <= j < i ==> !p(s[j])
  {
    if !p(s[0]) {
      FirstHitIndex(s[1..], p);
      var i :| 0 <= i < |s[1..]| && s[1..][i] == FindFirst(s, p).value && forall j :: 0 <= j < i ==> !p(s[1..][j]);
      assert s[i + 1] == FindFirst(s, p).value;
      forall j | 0 <= j < i + 1 ensures !p(s[j]) {
        if j > 0 {
          assert s[j] == s[1..][j - 1];
        }
      }
    }
  }

  // ---------------------------------------------------------------------------
  // get_nba_headshot
  // ---------------------------------------------------------------------------

  /** A player found by `nba_api`: its `id`, `None` when missing. */
  datatype NbaMatch = NbaMatch(id: Option<int>)

  /**
    * `get_nba_headshot`. `find` is `find_players_by_full_name`; `None` is a raised exception,
    * which the resolver turns into the placeholder.
    */
  function NbaHeadshot(playerName: Option<string>, apiAvailable: bool, find: string -> Option<seq<NbaMatch>>): string {
    if playerName.None? || Strip(playerName.value) == "" then Placeholder(Some(playerName.GetOr("?")))
    else
      var id := NbaPersonId(playerName, apiAvailable, find);
      if id.None? then Placeholder(playerName) else NbaImage(id.value)
  }

  /**
    * The id `get_nba_headshot` builds its URL from, `None` for each early return: a blank name,
    * no `nba_api`, a name of fewer than two words, a failed search or a match without an id.
    */
  function NbaPersonId(playerName: Option<string>, apiAvailable: bool, find: string -> Option<seq<NbaMatch>>): Option<int> {
    if playerName.None? || Strip(playerName.value) == "" || !apiAvailable then None
    else
      var name := NormalizeName(playerName);
      var parts := Words(name);
      if name == "" || |parts| < 2 then None else NbaId(playerName.value, parts, find)
  }

  /** `f"{NBA_CDN}/{person_id}.png"`. */
  function NbaImage(id: int): string {
    NbaCdn + "/" + IntText(id) + ".png"
  }

  /** The id of the first match; `None` for a failed search, no match, or a match without an id. */
  function FirstId(matches: Option<seq<NbaMatch>>): (r: Option<int>)
    ensures r.Some? <==> matches.Some? && matches.value != [] && matches.value[0].id.Some?
    ensures r.Some? ==> r == matches.value[0].id
  {
    if matches.None? || matches.value == [] then None else matches.value[0].id
  }

  /** The full-name search, then "<last> <first>" when it found nothing. */
  function NbaId(raw: string, parts: seq<string>, find: string -> Option<seq<NbaMatch>>): Option<int>
    requires |parts| >= 2
  {
    var first := find(Strip(raw));
    if first.None? then None
    else if first.value != [] then FirstId(first)
    else FirstId(find(parts[|parts| - 1] + " " + parts[0]))
  }

  lemma BlankAvatarName(playerName: Option<string>)
    requires playerName.None? || Strip(playerName.value) == ""
    ensures AvatarName(Some(playerName.GetOr("?"))) == AvatarName(None)
  {
  }

  /** A missing or blank name gets the generic placeholder. */
  lemma NbaHeadshotBlank(playerName: Option<string>, apiAvailable: bool, find: string -> Option<seq<NbaMatch>>)
    requires playerName.None? || Strip(playerName.value) == ""
    ensures NbaHeadshot(playerName, apiAvailable, find) == Placeholder(None)
  {
    BlankAvatarName(playerName);
    assert NbaHeadshot(playerName, apiAvailable, find) == Placeholder(Some(playerName.GetOr("?")));
  }

  /** No placeholder is a CDN image: the two URLs differ in their host. */
  lemma PlaceholderIsNotImage(name: Option<string>)
    ensures !IsPrefix(NbaCdn + "/", Placeholder(name))
  {
    var r := Placeholder(name);
    assert r[8] == (UiAvatars + "/?name=")[8] == 'u';
    assert (NbaCdn + "/")[8] == 'c';
  }

  lemma NbaImageIsImage(id: int)
    ensures IsPrefix(NbaCdn + "/", NbaImage(id))
  {
    ConcatAffixes(NbaCdn + "/", IntText(id), ".png");
  }

  /** The resolver answers with a CDN image exactly when it found a person id, and then with that id's image. */
  lemma NbaHeadshotImageIff(playerName: Option<string>, apiAvailable: bool, find: string -> Option<seq<NbaMatch>>)
    ensures IsPrefix(NbaCdn + "/", NbaHeadshot(playerName, apiAvailable, find)) <==> NbaPersonId(playerName, apiAvailable, find).Some?
    ensures NbaPersonId(playerName, apiAvailable, find).Some? ==>
      NbaHeadshot(playerName, apiAvailable, find) == NbaImage(NbaPersonId(playerName, apiAvailable, find).value)
    ensures NbaPersonId(playerName, apiAvailable, find).None? && playerName.Some? && Strip(playerName.value) != "" ==>
      NbaHeadshot(playerName, apiAvailable, find) == Placeholder(playerName)
  {
    var id := NbaPersonId(playerName, apiAvailable, find);
    if playerName.None? || Strip(playerName.value) == "" {
      PlaceholderIsNotImage(Some(playerName.GetOr("?")));
    } else if id.None? {
      PlaceholderIsNotImage(playerName);
    } else {
      NbaImageIsImage(id.value);
    }
  }

  /** Without `nba_api`, or for a name of fewer than two words, there is no lookup and no id. */
  lemma NbaPersonIdNone(playerName: Option<string>, apiAvailable: bool, find: string -> Option<seq<NbaMatch>>)
    ensures !apiAvailable ==> NbaPersonId(playerName, apiAvailable, find).None?
    ensures playerName.Some? && |Words(NormalizeName(playerName))| < 2 ==> NbaPersonId(playerName, apiAvailable, find).None?
  {
  }

  /** When the full-name search finds a player with an id, that id is the answer. */
  lemma NbaPersonIdFirstMatch(playerName: Option<string>, apiAvailable: bool, find: string -> Option<seq<NbaMatch>>)
    requires playerName.Some? && Strip(playerName.value) != "" && apiAvailable
    requires |Words(NormalizeName(playerName))| >= 2
    requires find(Strip(playerName.value)).Some? && find(Strip(playerName.value)).value != []
    ensures NbaPersonId(playerName, apiAvailable, find) == FirstId(find(Strip(playerName.value)))
  {
    WordsOfEmpty(NormalizeName(playerName));
  }

  /** When the full-name search finds nobody, the "<last> <first>" search decides. */
  lemma NbaPersonIdSwapped(playerName: Option<string>, apiAvailable: bool, find: string -> Option<seq<NbaMatch>>)
    requires playerName.Some? && Strip(playerName.value) != "" && apiAvailable
    requires |Words(NormalizeName(playerName))| >= 2
    requires find(Strip(playerName.value)) == Some([])
    ensures var parts := Words(NormalizeName(playerName));
      NbaPersonId(playerName, apiAvailable, find) == FirstId(find(parts[|parts| - 1] + " " + parts[0]))
  {
    WordsOfEmpty(NormalizeName(playerName));
  }

  // ---------------------------------------------------------------------------
  // get_ncaa_headshot and the module cache
  // ---------------------------------------------------------------------------

  /** `espn_id and str(espn_id).isdigit()`. */
  predicate IsDigitId(espnId: Option<string>) {
    espnId.Some? && espnId.value != "" && forall i :: 0 <= i < |espnId.value| ==> IsDigit(espnId.value[i])
  }

  /** The cache after a lookup of a usable school: filled from the listing if it was empty. */
  function CacheAfter(cache: Dict, teams: Option<seq<seq<seq<Option<EspnTeam>>>>>): (r: Dict)
    requires DictValid(cache)
    ensures DictValid(r)
  {
    if cache.keys == [] && teams.Some? then AddTeams(cache, TeamEntries(teams.value)) else cache
  }

  /** `_get_espn_team_id`'s answer for a cache and a teams listing (`None`: the fetch failed). */
  function TeamIdFor(cache: Dict, school: string, teams: Option<seq<seq<seq<Option<EspnTeam>>>>>): Option<string>
    requires DictValid(cache)
  {
    var norm := NormalizeSchool(Some(school));
    if Strip(school) == "" || norm == "" then None
    else if cache.keys == [] && teams.None? then None
    else LookupKey(CacheAfter(cache, teams), norm)
  }

  /** The resolver's module state: the ESPN team cache, filled once from the teams listing. */
  class HeadshotResolver {
    var cache: Dict

    predicate Valid()
      reads this
    {
      DictValid(cache) && CacheEntriesNonEmpty(cache)
    }

    constructor()
      ensures Valid() && cache == EmptyDict
    {
      cache := EmptyDict;
    }

    /** The inner loop: assigns `id` under each non-empty key in turn. */
    method PutEach(keys: seq<string>, id: string)
      requires Valid() && id != ""
      modifies this
      ensures Valid()
      ensures cache == PutKeys(old(cache), keys, id)
    {
      ghost var d0 := cache;
      PutKeysNonEmpty(d0, keys, id);
      var j := 0;
      while j < |keys|
        invariant 0 <= j <= |keys|
        invariant DictValid(cache)
        invariant cache == PutKeys(d0, keys[..j], id)
      {
        assert keys[..j + 1][..j] == keys[..j];
        if keys[j] != "" {
          cache := Put(cache, keys[j], id);
        }
        j := j + 1;
      }
      assert keys[..|keys|] == keys;
    }

    /** The nested loops that fill the empty cache from the listing's team entries. */
    method FillCache(entries: seq<Option<EspnTeam>>)
      requires Valid()
      modifies this
      ensures Valid()
      ensures cache == AddTeams(old(cache), entries)
    {
      ghost var d0 := cache;
      var i := 0;
      while i < |entries|
        invariant 0 <= i <= |entries|
        invariant Valid()
        invariant cache == AddTeams(d0, entries[..i])
      {
        AddTeamsStep(d0, entries, i);
        var e := entries[i];
        if e.Some? && e.value.id != "" {
          var keys := TeamKeys(e.value);
          PutEach(keys, e.value.id);
        }
        i := i + 1;
      }
      assert entries[..|entries|] == entries;
    }

    /** The lookups over a filled cache; the last scan returns at the first related key. */
    method LookupTeam(norm: string) returns (r: Option<string>)
      requires Valid()
      ensures r == LookupKey(cache, norm)
    {
      if norm in cache.vals {
        return Some(cache.vals[norm]);
      }
      var noSpaces := RemoveChar(norm, ' ');
      if noSpaces in cache.vals {
        return Some(cache.vals[noSpaces]);
      }
      var keys := cache.keys;
      var i := 0;
      while i < |keys|
        invariant 0 <= i <= |keys|
        invariant FindFirst(keys, RelatedTo(norm)) == FindFirst(keys[i..], RelatedTo(norm))
      {
        assert keys[i..][1..] == keys[i + 1..];
        if Contains(keys[i], norm) || Contains(norm, keys[i]) {
          return Some(cache.vals[keys[i]]);
        }
        i := i + 1;
      }
      return None;
    }

    /** `_get_espn_team_id`: the listing is fetched and read only while the cache is empty. */
    method GetEspnTeamId(school: string, teams: Option<seq<seq<seq<Option<EspnTeam>>>>>) returns (r: Option<string>)
      requires Valid()
      modifies this
      ensures Valid()
      ensures r == TeamIdFor(old(cache), school, teams)
      ensures cache == (if Strip(school) == "" || NormalizeSchool(Some(school)) == "" then old(cache)
                        else CacheAfter(old(cache), teams))
      ensures r.Some? ==> r.value != ""
    {
      if school == "" || Strip(school) == "" {
        return None;
      }
      var norm := NormalizeSchoolSteps(Some(school));
      if norm == "" {
        return None;
      }
      if cache.keys == [] {
        if teams.None? {
          return None;
        }
        FillCache(TeamEntries(teams.value));
      }
      r := LookupTeam(norm);
      LookupKeyNone(cache, norm);
    }

    /**
      * `get_ncaa_headshot`: a numeric ESPN id gives its CDN image; otherwise, with a name and
      * a school, the team's roster is searched; anything else gives the placeholder.
      */
    method GetNcaaHeadshot(playerName: Option<string>, espnId: Option<string>, school: string,
                           teams: Option<seq<seq<seq<Option<EspnTeam>>>>>,
                           roster: string -> Option<seq<Athlete>>) returns (url: string)
      requires Valid()
      modifies this
      ensures Valid()
      ensures IsDigitId(espnId) ==> url == EspnNcaaCdn + "/" + espnId.value + ".png" && cache == old(cache)
      ensures !IsDigitId(espnId) && (playerName.None? || playerName.value == "" || school == "") ==>
        url == Placeholder(playerName) && cache == old(cache)
      ensures !IsDigitId(espnId) && playerName.Some? && playerName.value != "" && school != "" ==>
        var tid := TeamIdFor(old(cache), school, teams);
        var found := if tid.Some? then RosterMatch(roster(tid.value), playerName.value) else None;
        url == (if found.Some? then found.value else Placeholder(playerName))
      ensures !IsDigitId(espnId) && playerName.Some? && playerName.value != "" && school != "" ==>
        cache == (if Strip(school) == "" || NormalizeSchool(Some(school)) == "" then old(cache)
                  else CacheAfter(old(cache), teams))
    {
      if IsDigitId(espnId) {
        return EspnNcaaCdn + "/" + espnId.value + ".png";
      }
      if playerName.Some? && playerName.value != "" && school != "" {
        var tid := GetEspnTeamId(school, teams);
        if tid.Some? && tid.value != "" {
          var href := RosterHeadshot(roster(tid.value), playerName.value);
          if href.Some? && href.value != "" {
            return href.value;
          }
        }
      }
      return Placeholder(playerName);
    }
  }
}
