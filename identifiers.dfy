/**
 * Campaign identifiers (adpulse/utils/identifiers.py): the slug made from a
 * campaign name, and the campaign ID a connector stores.
 */
module Identifiers {
  import opened Wrappers
  import opened Text

  // ---------------------------------------------------------------------
  // Alphabets
  // ---------------------------------------------------------------------

  /** The alphanumeric characters of `s`, in order. */
  function Alnums(s: string): string {
    if s == [] then []
    else (if IsAlnum(s[0]) then [s[0]] else []) + Alnums(s[1..])
  }

  /** Text made only of characters outside `[a-zA-Z0-9]` has no alphanumerics. */
  lemma {:induction false} NoAlnums(s: string)
    requires forall i :: 0 <= i < |s| ==> !IsAlnum(s[i])
    ensures Alnums(s) == []
  {
    if s != [] {
      NoAlnums(s[1..]);
    }
  }

  /** Lower-casing commutes with picking the alphanumerics. */
  lemma {:induction false} AlnumsLower(s: string)
    ensures Alnums(Lower(s)) == Lower(Alnums(s))
  {
    if s != [] {
      AlnumsLower(s[1..]);
      LowerTail(s);
      var head := if IsAlnum(s[0]) then [s[0]] else [];
      LowerConcat(head, Alnums(s[1..]));
    }
  }

  /** Only alphanumerics and `-`: the alphabet the substitution leaves behind. */
  predicate DashedAlnum(s: string) {
    forall i :: 0 <= i < |s| ==> IsAlnum(s[i]) || s[i] == '-'
  }

  /** Positions `i` and `i + 1` of `r` both hold `-`. */
  predicate DashPairAt(r: string, i: nat)
    requires i + 1 < |r|
  {
    r[i] == '-' && r[i + 1] == '-'
  }

  /** `r` never has two `-` in a row. */
  predicate NoDoubleDash(r: string) {
    forall i: nat :: i + 1 < |r| ==> !DashPairAt(r, i)
  }

  lemma NoDoubleDashCons(c: char, rest: string)
    requires NoDoubleDash(rest)
    requires c != '-' || rest == [] || rest[0] != '-'
    ensures NoDoubleDash([c] + rest)
  {
    var r := [c] + rest;
    forall i: nat | i + 1 < |r| ensures !DashPairAt(r, i) {
      if i > 0 {
        assert !DashPairAt(rest, i - 1);
      }
    }
  }

  // ---------------------------------------------------------------------
  // re.sub(r"[^a-zA-Z0-9]+", "-", value)
  // ---------------------------------------------------------------------

  /** Drops the run of non-alphanumeric characters at the front of `s`. */
  function SkipRun(s: string): (r: string)
    ensures |r| <= |s|
  {
    if s != [] && !IsAlnum(s[0]) then SkipRun(s[1..]) else s
  }

  lemma {:induction false} SkipRunFacts(s: string)
    ensures SkipRun(s) == [] || IsAlnum(SkipRun(s)[0])
    ensures Alnums(SkipRun(s)) == Alnums(s)
  {
    if s != [] && !IsAlnum(s[0]) {
      SkipRunFacts(s[1..]);
    }
  }

  /** A run of other characters in front of alphanumeric text (or of nothing) is skipped whole. */
  lemma {:induction false} SkipRunPrefix(run: string, rest: string)
    requires forall i :: 0 <= i < |run| ==> !IsAlnum(run[i])
    requires rest == [] || IsAlnum(rest[0])
    ensures SkipRun(run + rest) == rest
  {
    if run != [] {
      assert (run + rest)[1..] == run[1..] + rest;
      SkipRunPrefix(run[1..], rest);
    } else {
      assert run + rest == rest;
    }
  }

  /**
   * `re.sub(r"[^a-zA-Z0-9]+", "-", s)`: every maximal run of characters
   * outside `[a-zA-Z0-9]` becomes one `-`.
   */
  function ReplaceRuns(s: string): string
    decreases |s|
  {
    if s == [] then []
    else if IsAlnum(s[0]) then [s[0]] + ReplaceRuns(s[1..])
    else "-" + ReplaceRuns(SkipRun(s[1..]))
  }

  /**
   * The substitution leaves alphanumerics and single `-`s, starts with the
   * first character when that is alphanumeric, and keeps the same
   * alphanumerics in the same order.
   */
  lemma {:induction false} ReplaceRunsShape(s: string)
    ensures DashedAlnum(ReplaceRuns(s)) && NoDoubleDash(ReplaceRuns(s))
    ensures s != [] ==> ReplaceRuns(s) != [] && (IsAlnum(s[0]) ==> ReplaceRuns(s)[0] == s[0])
    ensures Alnums(ReplaceRuns(s)) == Alnums(s)
    decreases |s|
  {
    if s != [] {
      var r := ReplaceRuns(s);
      if IsAlnum(s[0]) {
        var rest := ReplaceRuns(s[1..]);
        ReplaceRunsShape(s[1..]);
        NoDoubleDashCons(s[0], rest);
        assert r == [s[0]] + rest;
        assert r[1..] == rest;
      } else {
        var t := SkipRun(s[1..]);
        var rest := ReplaceRuns(t);
        SkipRunFacts(s[1..]);
        ReplaceRunsShape(t);
        NoDoubleDashCons('-', rest);
        assert r == "-" + rest;
        assert r[1..] == rest;
      }
    }
  }

  /** An alphanumeric prefix is copied through unchanged. */
  lemma {:induction false} ReplaceRunsAlnumPrefix(word: string, rest: string)
    requires forall i :: 0 <= i < |word| ==> IsAlnum(word[i])
    ensures ReplaceRuns(word + rest) == word + ReplaceRuns(rest)
  {
    if word != [] {
      var w := word + rest;
      assert w[0] == word[0];
      assert w[1..] == word[1..] + rest;
      ReplaceRunsAlnumPrefix(word[1..], rest);
      assert word == [word[0]] + word[1..];
    } else {
      assert word + rest == rest;
    }
  }

  /** A whole run of other characters before alphanumeric text (or the end) becomes one `-`. */
  lemma ReplaceRunsRun(run: string, rest: string)
    requires run != []
    requires forall i :: 0 <= i < |run| ==> !IsAlnum(run[i])
    requires rest == [] || IsAlnum(rest[0])
    ensures ReplaceRuns(run + rest) == "-" + ReplaceRuns(rest)
  {
    var w := run + rest;
    assert w[0] == run[0];
    assert w[1..] == run[1..] + rest;
    SkipRunPrefix(run[1..], rest);
  }

  /** Tails of text in the substitution's alphabet stay in it. */
  lemma DashedTail(r: string)
    requires r != [] && DashedAlnum(r) && NoDoubleDash(r)
    ensures DashedAlnum(r[1..]) && NoDoubleDash(r[1..])
  {
    var tail := r[1..];
    forall i: nat | i + 1 < |tail| ensures !DashPairAt(tail, i) {
      assert !DashPairAt(r, i + 1);
    }
  }

  /** Text of alphanumerics and single `-`s, not starting with `-`, is left alone. */
  lemma {:induction false} ReplaceRunsFixed(r: string)
    requires DashedAlnum(r) && NoDoubleDash(r)
    requires r == [] || r[0] != '-'
    ensures ReplaceRuns(r) == r
    decreases |r|
  {
    if r != [] {
      var tail := r[1..];
      DashedTail(r);
      if tail != [] && tail[0] == '-' {
        var after := tail[1..];
        assert !DashPairAt(r, 0);
        if after != [] {
          assert !DashPairAt(tail, 0);
        }
        DashedTail(tail);
        ReplaceRunsFixed(after);
        ReplaceRunsRun("-", after);
        assert tail == "-" + after;
      } else {
        ReplaceRunsFixed(tail);
      }
      ReplaceRunsAlnumPrefix([r[0]], tail);
      assert r == [r[0]] + tail;
    }
  }

  // ---------------------------------------------------------------------
  // slugify_name
  // ---------------------------------------------------------------------

  /** A character a slug may hold: a lower-case ASCII letter, a digit or `-`. */
  predicate IsSlugChar(c: char) {
    ('a' <= c <= 'z') || IsDigit(c) || c == '-'
  }

  /**
   * What `slugify_name` promises: non-empty, only lower-case letters, digits
   * and `-`, no `-` at either end and never two in a row.
   */
  predicate IsSlug(r: string) {
    && r != []
    && (forall i :: 0 <= i < |r| ==> IsSlugChar(r[i]))
    && r[0] != '-' && r[|r| - 1] != '-'
    && NoDoubleDash(r)
  }

  const DefaultSlug := "campaign"

  /** A slice of text in the substitution's alphabet stays in it. */
  lemma DashedSlice(s: string, lo: nat, hi: nat)
    requires lo <= hi <= |s| && DashedAlnum(s) && NoDoubleDash(s)
    ensures DashedAlnum(s[lo..hi]) && NoDoubleDash(s[lo..hi])
  {
    var t := s[lo..hi];
    forall i: nat | i + 1 < |t| ensures !DashPairAt(t, i) {
      assert !DashPairAt(s, lo + i);
    }
  }

  /** Dropping leading characters other than alphanumerics keeps the alphanumerics. */
  lemma {:induction false} AlnumsDropFront(s: string, lo: nat)
    requires lo <= |s|
    requires forall i :: 0 <= i < lo ==> !IsAlnum(s[i])
    ensures Alnums(s[lo..]) == Alnums(s)
  {
    if lo == 0 {
      assert s[lo..] == s;
    } else {
      AlnumsDropFront(s[1..], lo - 1);
      assert s[1..][lo - 1..] == s[lo..];
    }
  }

  /** Dropping trailing characters other than alphanumerics keeps the alphanumerics. */
  lemma {:induction false} AlnumsDropBack(s: string, hi: nat)
    requires hi <= |s|
    requires forall i :: hi <= i < |s| ==> !IsAlnum(s[i])
    ensures Alnums(s[..hi]) == Alnums(s)
  {
    if hi == 0 {
      NoAlnums(s);
      assert s[..hi] == [];
    } else {
      AlnumsDropBack(s[1..], hi - 1);
      var p := s[..hi];
      assert p[0] == s[0] && p[1..] == s[1..][..hi - 1];
    }
  }

  /** Cutting characters other than alphanumerics from both ends keeps the alphanumerics. */
  lemma AlnumsSlice(s: string, lo: nat, hi: nat)
    requires lo <= hi <= |s|
    requires forall i :: 0 <= i < lo ==> !IsAlnum(s[i])
    requires forall i :: hi <= i < |s| ==> !IsAlnum(s[i])
    ensures Alnums(s[lo..hi]) == Alnums(s)
  {
    AlnumsDropFront(s, lo);
    SuffixNoAlnums(s, lo, hi);
    AlnumsDropBack(s[lo..], hi - lo);
    SliceOfSuffix(s, lo, hi);
  }

  lemma SliceOfSuffix(s: string, lo: nat, hi: nat)
    requires lo <= hi <= |s|
    ensures s[lo..][..hi - lo] == s[lo..hi]
  {
  }

  lemma SuffixNoAlnums(s: string, lo: nat, hi: nat)
    requires lo <= hi <= |s|
    requires forall i :: hi <= i < |s| ==> !IsAlnum(s[i])
    ensures forall i :: hi - lo <= i < |s[lo..]| ==> !IsAlnum(s[lo..][i])
  {
    forall i | hi - lo <= i < |s[lo..]| ensures !IsAlnum(s[lo..][i]) {
      assert s[lo..][i] == s[lo + i];
    }
  }

  /** Stripping `-` from text the substitution made keeps its alphanumerics and its alphabet. */
  lemma StrippedRuns(replaced: string)
    requires DashedAlnum(replaced) && NoDoubleDash(replaced)
    ensures DashedAlnum(StripChars(replaced, AnyOf({'-'})))
    ensures NoDoubleDash(StripChars(replaced, AnyOf({'-'})))
    ensures Alnums(StripChars(replaced, AnyOf({'-'}))) == Alnums(replaced)
  {
    var lo, hi := StripCharsSlice(replaced, AnyOf({'-'}));
    DashedSlice(replaced, lo, hi);
    AlnumsSlice(replaced, lo, hi);
  }

  /** Lower-casing alphanumerics and single inner `-`s yields a slug. */
  lemma LowerSlug(t: string)
    requires DashedAlnum(t) && NoDoubleDash(t)
    requires t == [] || (t[0] != '-' && t[|t| - 1] != '-')
    ensures Lower(t) == [] || IsSlug(Lower(t))
  {
    var l := Lower(t);
    forall i: nat | i + 1 < |l| ensures !DashPairAt(l, i) {
      assert !DashPairAt(t, i);
    }
  }

  /**
   * `slugify_name(value)`: runs of other characters become `-`, `-` is
   * stripped from both ends, the rest is lower-cased, and an empty result
   * becomes "campaign".
   */
  function Slugify(value: string): (r: string)
    ensures IsSlug(r)
    ensures Alnums(value) == [] ==> r == DefaultSlug
    ensures Alnums(value) != [] ==> Alnums(r) == Lower(Alnums(value))
  {
    SlugifyFacts(value);
    var lowered := Lower(StripChars(ReplaceRuns(value), AnyOf({'-'})));
    if lowered == [] then DefaultSlug else lowered
  }

  /** The facts `Slugify`'s contract rests on, about the lower-cased, stripped substitution. */
  lemma SlugifyFacts(value: string)
    ensures var l := Lower(StripChars(ReplaceRuns(value), AnyOf({'-'})));
      && (l == [] || IsSlug(l))
      && Alnums(l) == Lower(Alnums(value))
      && IsSlug(DefaultSlug)
  {
    var stripped := StripChars(ReplaceRuns(value), AnyOf({'-'}));
    assert DashedAlnum(stripped) && NoDoubleDash(stripped) && Alnums(stripped) == Alnums(value) by {
      ReplaceRunsShape(value);
      StrippedRuns(ReplaceRuns(value));
    }
    LowerSlug(stripped);
    AlnumsLower(stripped);
    DefaultSlugIsSlug();
  }

  lemma DefaultSlugIsSlug()
    ensures IsSlug(DefaultSlug)
  {
    var d := DefaultSlug;
    assert forall i :: 0 <= i < |d| ==> 'a' <= d[i] <= 'z';
  }

  /** A slug is its own slug. */
  lemma SlugFixed(r: string)
    requires IsSlug(r)
    ensures Slugify(r) == r
  {
    assert DashedAlnum(r);
    ReplaceRunsFixed(r);
    StripCharsUnchanged(r, AnyOf({'-'}));
    assert Lower(r) == r;
  }

  /** `slugify_name` is idempotent. */
  lemma SlugifyIdempotent(value: string)
    ensures Slugify(Slugify(value)) == Slugify(value)
  {
    SlugFixed(Slugify(value));
  }

  lemma ReplaceRunsWords(first: string, gap: string, second: string, tail: string)
    requires first != [] && second != [] && gap != []
    requires forall i :: 0 <= i < |first| ==> IsAlnum(first[i])
    requires forall i :: 0 <= i < |second| ==> IsAlnum(second[i])
    requires forall i :: 0 <= i < |gap| ==> !IsAlnum(gap[i])
    requires forall i :: 0 <= i < |tail| ==> !IsAlnum(tail[i])
    ensures ReplaceRuns(first + gap + second + tail)
         == first + "-" + second + (if tail == [] then [] else "-")
  {
    var end := if tail == [] then [] else "-";
    assert ReplaceRuns(tail) == end by {
      if tail != [] {
        ReplaceRunsRun(tail, []);
        assert tail + [] == tail;
      }
    }
    ReplaceRunsAlnumPrefix(second, tail);
    ReplaceRunsRun(gap, second + tail);
    ReplaceRunsAlnumPrefix(first, gap + (second + tail));
    assert first + gap + second + tail == first + (gap + (second + tail));
  }

  /** Stripping `-` from two dash-joined words, with or without a trailing `-`. */
  lemma StripJoinedWords(first: string, second: string, end: string)
    requires first != [] && second != [] && (end == [] || end == "-")
    requires first[0] != '-' && second[|second| - 1] != '-'
    ensures StripChars(first + "-" + second + end, AnyOf({'-'})) == first + "-" + second
  {
    var t := first + "-" + second;
    assert t[0] == first[0] && t[|t| - 1] == second[|second| - 1];
    if end == [] {
      assert t + end == t;
      StripCharsUnchanged(t, AnyOf({'-'}));
    } else {
      StripCharsTrailing(t, '-', AnyOf({'-'}));
    }
  }

  /**
   * Two words separated by other characters, with more of them at the end:
   * "Brand Campaign!" is `first = "Brand"`, `gap = " "`, `second = "Campaign"`,
   * `tail = "!"`, and gives "brand-campaign".
   */
  lemma SlugifyTwoWords(first: string, gap: string, second: string, tail: string)
    requires first != [] && second != [] && gap != []
    requires forall i :: 0 <= i < |first| ==> IsAlnum(first[i])
    requires forall i :: 0 <= i < |second| ==> IsAlnum(second[i])
    requires forall i :: 0 <= i < |gap| ==> !IsAlnum(gap[i])
    requires forall i :: 0 <= i < |tail| ==> !IsAlnum(tail[i])
    ensures Slugify(first + gap + second + tail) == Lower(first) + "-" + Lower(second)
  {
    SlugifyWords(first, gap, second, tail);
    LowerDashJoin(first, second);
  }

  lemma SlugifyWords(first: string, gap: string, second: string, tail: string)
    requires first != [] && second != [] && gap != []
    requires forall i :: 0 <= i < |first| ==> IsAlnum(first[i])
    requires forall i :: 0 <= i < |second| ==> IsAlnum(second[i])
    requires forall i :: 0 <= i < |gap| ==> !IsAlnum(gap[i])
    requires forall i :: 0 <= i < |tail| ==> !IsAlnum(tail[i])
    ensures Slugify(first + gap + second + tail) == Lower(first + "-" + second)
  {
    var v := first + gap + second + tail;
    var t := first + "-" + second;
    var end := if tail == [] then [] else "-";
    ReplaceRunsWords(first, gap, second, tail);
    StripJoinedWords(first, second, end);
    SlugifyNonEmpty(v, t);
  }

  lemma LowerDashJoin(a: string, b: string)
    ensures Lower(a + "-" + b) == Lower(a) + "-" + Lower(b)
  {
    LowerConcat(a + "-", b);
    LowerConcat(a, "-");
  }

  /** When the stripped substitution is not empty, the slug is its lower-cased form. */
  lemma SlugifyNonEmpty(value: string, t: string)
    requires t != [] && StripChars(ReplaceRuns(value), AnyOf({'-'})) == t
    ensures Slugify(value) == Lower(t)
  {
  }

  // ---------------------------------------------------------------------
  // build_campaign_id
  // ---------------------------------------------------------------------

  /**
   * `build_campaign_id(platform_slug, campaign_name, explicit_id)`: a
   * non-empty explicit ID wins, stripped of surrounding whitespace (so an ID
   * of blanks gives ""); otherwise the platform slug, `-`, and the slug of
   * the campaign name.
   */
  function BuildCampaignId(platformSlug: string, campaignName: string, explicitId: Option<string>): (r: string)
    ensures explicitId.Some? && explicitId.value != "" ==> r == Strip(explicitId.value) && |r| <= |explicitId.value|
    ensures explicitId.None? || explicitId.value == "" ==> |r| > |platformSlug| + 1
  {
    if explicitId.Some? && explicitId.value != "" then Strip(explicitId.value)
    else platformSlug + "-" + Slugify(campaignName)
  }

  /**
   * Without a usable explicit ID, the ID is the platform slug and `-` in
   * front of a slug, and that slug is the campaign name's.
   */
  lemma GeneratedId(platformSlug: string, campaignName: string, explicitId: Option<string>)
    requires explicitId.None? || explicitId.value == ""
    ensures var r := BuildCampaignId(platformSlug, campaignName, explicitId);
      && r[..|platformSlug| + 1] == platformSlug + "-"
      && r[|platformSlug| + 1..] == Slugify(campaignName)
      && IsSlug(r[|platformSlug| + 1..])
  {
    var r := BuildCampaignId(platformSlug, campaignName, explicitId);
    assert r == (platformSlug + "-") + Slugify(campaignName);
  }

  /** An explicit ID made only of whitespace gives the empty ID, not a generated one. */
  lemma BlankExplicitId(platformSlug: string, campaignName: string, explicitId: string)
    requires explicitId != [] && forall i :: 0 <= i < |explicitId| ==> IsSpace(explicitId[i])
    ensures BuildCampaignId(platformSlug, campaignName, Some(explicitId)) == ""
  {
  }

  /** An explicit ID with no surrounding whitespace is used exactly as given. */
  lemma ExplicitIdKept(platformSlug: string, campaignName: string, explicitId: string)
    requires explicitId != [] && !IsSpace(explicitId[0]) && !IsSpace(explicitId[|explicitId| - 1])
    ensures BuildCampaignId(platformSlug, campaignName, Some(explicitId)) == explicitId
  {
    StripUnchanged(explicitId);
  }
}
