/**
 * `slugify` of client/src/App.jsx: the identifier synthesised for a catalog item that
 * comes without one. Of Unicode normalisation (NFKC) only the width folding of the
 * full-width forms U+FF01-U+FF5E to ASCII is modelled, and lower-casing affects only
 * ASCII letters. Other compatibility characters (circled digits, ligatures, U+0130, the
 * Kelvin sign, ...) become slug characters in the code but are stripped here, so names
 * containing them get other ids in the model than in the code.
 */
module Slug {
  import opened JsRuntime
  import opened Seqs

  /** `.slice(0, 64)` */
  const MaxSlugLength: nat := 64

  /** The largest time value ECMAScript allows (8.64e15 ms), so the largest `Date.now()`. */
  const MaxTimeValue: nat := 8_640_000_000_000_000

  /** A reading of `Date.now()`. */
  type EpochMs = t: nat | t <= MaxTimeValue

  /** The class `[a-z0-9\-_.]`. */
  predicate IsSlugChar(c: char) {
    ('a' <= c <= 'z') || IsDigit(c) || c == '-' || c == '_' || c == '.'
  }

  /** Non-empty, at most 64 characters, drawn from `[a-z0-9\-_.]`. */
  predicate IsSlug(s: string) {
    1 <= |s| <= MaxSlugLength && forall i :: 0 <= i < |s| ==> IsSlugChar(s[i])
  }

  /** NFKC on the full-width forms: U+FF01-U+FF5E become U+0021-U+007E. */
  function WidthChar(c: char): (d: char)
    ensures IsJsSpace(d) <==> IsJsSpace(c)
  {
    if 0xFF01 <= c as int <= 0xFF5E then (c as int - 0xFEE0) as char else c
  }

  function LowerChar(c: char): char {
    if 'A' <= c <= 'Z' then (c as int + 32) as char else c
  }

  /** `.normalize('NFKC').toLowerCase()`, character by character. */
  function FoldChar(c: char): (d: char)
    ensures IsSlugChar(c) ==> d == c
    ensures IsJsSpace(d) <==> IsJsSpace(c)
  {
    LowerChar(WidthChar(c))
  }

  /** `.normalize('NFKC').toLowerCase()` on a whole string. */
  function Fold(s: string): (r: string)
    ensures |r| == |s|
  {
    seq(|s|, i requires 0 <= i < |s| => FoldChar(s[i]))
  }

  /** No white space in `s`. */
  predicate NoSpace(s: string) {
    forall i :: 0 <= i < |s| ==> !IsJsSpace(s[i])
  }

  /** Drops the leading run of white space. */
  function SkipSpaces(s: string): (r: string)
    ensures |r| <= |s|
    ensures r == [] || !IsJsSpace(r[0])
  {
    if s != [] && IsJsSpace(s[0]) then SkipSpaces(s[1..]) else s
  }

  /** `.replace(/\s+/g, '-')`: every maximal run of white space becomes one `-`. */
  function DashSpaces(s: string): (r: string)
    ensures NoSpace(r)
    decreases |s|
  {
    if s == [] then []
    else if IsJsSpace(s[0]) then "-" + DashSpaces(SkipSpaces(s[1..]))
    else [s[0]] + DashSpaces(s[1..])
  }

  /** `.replace(/[^a-z0-9\-_.]/g, '')` */
  function StripNonSlug(s: string): (r: string)
    ensures forall i :: 0 <= i < |r| ==> IsSlugChar(r[i])
  {
    Filter(s, IsSlugChar)
  }

  /** `.slice(0, 64)` */
  function Truncate(s: string): (r: string)
    ensures |r| <= MaxSlugLength && |r| <= |s|
    ensures r == s[..|r|]
    ensures |s| <= MaxSlugLength ==> r == s
    ensures |s| > MaxSlugLength ==> |r| == MaxSlugLength
  {
    if |s| <= MaxSlugLength then s else s[..MaxSlugLength]
  }

  /** `slugify(s)`, with `now` the value `Date.now()` returns when the fallback is taken. */
  function Slugify(s: string, now: EpochMs): (r: string)
    ensures IsSlug(r)
    ensures var candidate := Truncate(StripNonSlug(DashSpaces(Fold(s))));
      && (candidate != [] ==> r == candidate)
      && (candidate == [] ==> r == NatToString(now) && AllDigits(r))
  {
    var candidate := Truncate(StripNonSlug(DashSpaces(Fold(s))));
    if candidate != [] then candidate
    else
      FallbackIsSlug(now);
      NatToString(now)
  }

  /** The timestamp fallback is a digit string short enough to be a slug. */
  lemma FallbackIsSlug(now: EpochMs)
    ensures IsSlug(NatToString(now))
    ensures |NatToString(now)| <= 16
  {
    assert Pow10(4) == 10_000;
    assert Pow10(16) == 10_000_000_000_000_000;
    NatToStringLength(now, 16);
  }

  /** A full-width digit, as Japanese product names often carry, folds to its ASCII digit
      rather than being stripped: the slug of `１` is `1`, not the timestamp fallback. */
  lemma FullWidthDigitSlug(now: EpochMs)
    ensures Slugify([0xFF11 as char], now) == "1"
  {
    assert Fold([0xFF11 as char]) == "1";
    assert DashSpaces("1") == "1";
    FilterAllKept("1", IsSlugChar);
  }

  /** Each step of `Slugify` leaves a slug as it is. */
  lemma {:induction false} DashSpacesNoSpace(s: string)
    requires NoSpace(s)
    ensures DashSpaces(s) == s
  {
    if s != [] {
      DashSpacesNoSpace(s[1..]);
    }
  }

  /** A slug is a fixed point of `slugify`, whatever the clock says. */
  lemma SlugifyKeepsSlug(s: string, now: EpochMs)
    requires IsSlug(s)
    ensures Slugify(s, now) == s
  {
    assert Fold(s) == s;
    assert NoSpace(s) by {
      forall i | 0 <= i < |s| ensures !IsJsSpace(s[i]) {
        assert IsSlugChar(s[i]);
      }
    }
    DashSpacesNoSpace(s);
    FilterAllKept(s, IsSlugChar);
  }

  /** `slugify` is idempotent. */
  lemma SlugifyIdempotent(s: string, now: EpochMs, later: EpochMs)
    ensures Slugify(Slugify(s, now), later) == Slugify(s, now)
  {
    SlugifyKeepsSlug(Slugify(s, now), later);
  }

  /** A character the modelled `slugify` deletes: not white space, and outside
      `[a-z0-9\-_.]` once folded. Kana and kanji are deleted by the code too; a
      compatibility character that NFKC maps into the slug alphabet beyond the full-width
      forms (a circled digit, say) is deleted here but kept by the code. */
  predicate Deleted(c: char) {
    !IsJsSpace(c) && !IsSlugChar(FoldChar(c))
  }

  /** Every character of `s` is one `slugify` deletes. */
  predicate AllDeleted(s: string) {
    forall i :: 0 <= i < |s| ==> Deleted(s[i])
  }

  /** No character of `s` is in `[a-z0-9\-_.]`. */
  predicate NoSlugChar(s: string) {
    forall i :: 0 <= i < |s| ==> !IsSlugChar(s[i])
  }

  lemma StripAfterDeleted(a: string, b: string)
    requires NoSlugChar(a)
    ensures StripNonSlug(a + "-" + b) == "-" + StripNonSlug(b)
  {
    FilterNoneKept(a, IsSlugChar);
    FilterAppend(a + "-", b, IsSlugChar);
    FilterAppend(a, "-", IsSlugChar);
    FilterAllKept("-", IsSlugChar);
  }

  lemma NoSpaceJoin(x: string, y: string)
    requires NoSpace(x) && NoSpace(y)
    ensures NoSpace(x + "-" + y)
  {
    var s := x + "-" + y;
    forall i | 0 <= i < |s| ensures !IsJsSpace(s[i]) {
      if i < |x| { assert s[i] == x[i]; }
      else if i > |x| { assert s[i] == y[i - |x| - 1]; }
    }
  }

  lemma FoldAppend(x: string, y: string)
    ensures Fold(x + y) == Fold(x) + Fold(y)
  {
  }

  lemma FoldOfDeleted(a: string)
    requires AllDeleted(a)
    ensures NoSlugChar(Fold(a)) && NoSpace(Fold(a))
  {
  }

  lemma FoldOfParts(a: string, b: string, c: string, d: string)
    requires AllDigits(d)
    ensures Fold(a + "-" + b + "-" + c + "-" + d) == Fold(a) + "-" + (Fold(b) + "-" + (Fold(c) + "-" + d))
  {
    assert Fold(d) == d;
    assert Fold("-") == "-";
    FoldAppend(a + "-" + b + "-" + c + "-", d);
    FoldAppend(a + "-" + b + "-" + c, "-");
    FoldAppend(a + "-" + b + "-", c);
    FoldAppend(a + "-" + b, "-");
    FoldAppend(a + "-", b);
    FoldAppend(a, "-");
  }

  lemma StripOfParts(a: string, b: string, c: string, d: string)
    requires NoSlugChar(a)
    requires NoSlugChar(b)
    requires NoSlugChar(c)
    requires AllDigits(d)
    ensures StripNonSlug(a + "-" + (b + "-" + (c + "-" + d))) == "---" + d
  {
    FilterAllKept(d, IsSlugChar);
    StripAfterDeleted(c, d);
    StripAfterDeleted(b, c + "-" + d);
    StripAfterDeleted(a, b + "-" + (c + "-" + d));
  }

  /** Folding and dashing the joined parts leaves the folded parts joined. */
  lemma DashFoldOfParts(a: string, b: string, c: string, d: string)
    requires AllDeleted(a)
    requires AllDeleted(b)
    requires AllDeleted(c)
    requires AllDigits(d)
    ensures DashSpaces(Fold(a + "-" + b + "-" + c + "-" + d)) ==
            Fold(a) + "-" + (Fold(b) + "-" + (Fold(c) + "-" + d))
  {
    FoldOfDeleted(a);
    FoldOfDeleted(b);
    FoldOfDeleted(c);
    FoldOfParts(a, b, c, d);
    assert NoSpace(d);
    NoSpaceJoin(Fold(c), d);
    NoSpaceJoin(Fold(b), Fold(c) + "-" + d);
    NoSpaceJoin(Fold(a), Fold(b) + "-" + (Fold(c) + "-" + d));
    DashSpacesNoSpace(Fold(a) + "-" + (Fold(b) + "-" + (Fold(c) + "-" + d)));
  }

  /** When the three text parts of `a-b-c-idx` consist only of characters `slugify` deletes
      (kana or kanji, say), the slug is `---idx`: only the index tells such ids apart. */
  lemma SlugOfDeletedParts(a: string, b: string, c: string, idx: nat, now: EpochMs)
    requires AllDeleted(a)
    requires AllDeleted(b)
    requires AllDeleted(c)
    requires idx < Pow10(61)
    ensures Slugify(a + "-" + b + "-" + c + "-" + NatToString(idx), now) == "---" + NatToString(idx)
  {
    var d := NatToString(idx);
    DashFoldOfParts(a, b, c, d);
    FoldOfDeleted(a);
    FoldOfDeleted(b);
    FoldOfDeleted(c);
    StripOfParts(Fold(a), Fold(b), Fold(c), d);
    NatToStringLength(idx, 61);
  }
}
