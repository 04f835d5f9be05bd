/**
 * The file-name parser of the asset-catalog builder (`parseImageName`).
 *
 * A name is searched, from the left, for the unanchored pattern
 *
 *     (AppIcon|LaunchImage)(\d+x\d+)?(@(\dx))?(~(\w+))?\.png
 *
 * The groups that matched become the fields of an image descriptor, absent
 * groups take their defaults, and the expected pixel size is the nominal
 * width times the scale digit.
 *
 * `Render` is the reference definition of the pattern: the text matched for
 * given capture groups. `MatchAt` is the scanner that reads the groups off
 * a name at one index; `MatchAtSound` and `MatchAtComplete` prove that it
 * finds exactly the matches `Render` describes, so the regular expression's
 * backtracking never has a second way to match at one index.
 */
module ImageName {
  import opened Options
  import opened Text

  /** Group 1: which kind of catalog image. */
  datatype Kind = AppIcon | LaunchImage

  function KindName(k: Kind): string {
    match k
    case AppIcon => "AppIcon"
    case LaunchImage => "LaunchImage"
  }

  /** Group 2, `\d+x\d+`: the nominal size `WxH`. */
  datatype Size = Size(width: string, height: string)

  /** Groups 1, 2, 4 and 6 of one match; an optional group that did not take part is `None`. */
  datatype Captures = Captures(kind: Kind, size: Option<Size>, scale: Option<char>, idiom: Option<string>)

  /** `\d+x\d+`: two non-empty digit runs. */
  predicate SizeOk(size: Option<Size>) {
    size.Some? ==>
      |size.value.width| > 0 && AllIn(size.value.width, Digits) &&
      |size.value.height| > 0 && AllIn(size.value.height, Digits)
  }

  /** `\d` */
  predicate ScaleOk(scale: Option<char>) {
    scale.Some? ==> IsDigit(scale.value)
  }

  /** `\w+` */
  predicate IdiomOk(idiom: Option<string>) {
    idiom.Some? ==> |idiom.value| > 0 && AllIn(idiom.value, WordChars)
  }

  /** Each present group holds what its sub-pattern allows. */
  predicate WellFormed(c: Captures) {
    SizeOk(c.size) && ScaleOk(c.scale) && IdiomOk(c.idiom)
  }

  function SizeText(size: Option<Size>): string {
    match size
    case None => ""
    case Some(z) => z.width + "x" + z.height
  }

  /** Group 3, `@(\dx)`. */
  function ScaleText(scale: Option<char>): string {
    match scale
    case None => ""
    case Some(d) => ['@', d, 'x']
  }

  /** Group 5, `~(\w+)`. */
  function IdiomText(idiom: Option<string>): string {
    match idiom
    case None => ""
    case Some(w) => "~" + w
  }

  /** The text a match with captures `c` covers, split after each group. */
  function AfterScale(c: Captures): string {
    IdiomText(c.idiom) + ".png"
  }

  function AfterSize(c: Captures): string {
    ScaleText(c.scale) + AfterScale(c)
  }

  function AfterKind(c: Captures): string {
    SizeText(c.size) + AfterSize(c)
  }

  function Render(c: Captures): string {
    KindName(c.kind) + AfterKind(c)
  }

  /** The pattern matches `s` at index `i`, with capture groups `c`. */
  predicate MatchesAt(s: string, i: nat, c: Captures) {
    WellFormed(c) && PrefixAt(s, i, Render(c))
  }

  /** The match at `i` is the leftmost one: what `String.prototype.match` returns. */
  ghost predicate Leftmost(s: string, i: nat, c: Captures) {
    MatchesAt(s, i, c) && forall j: nat, c': Captures :: j < i ==> !MatchesAt(s, j, c')
  }

  // ---------------------------------------------------------------------
  // The scanner: one function per group, each consuming what it matched.
  // ---------------------------------------------------------------------

  /**
   * `(AppIcon|LaunchImage)`, the alternatives tried in order. The bound
   * follows from the occurrence; it is spelled out so that the scanner's
   * result is visibly in range.
   */
  function ScanKind(s: string, p: nat): (r: (Option<Kind>, nat))
    requires p <= |s|
    ensures p <= r.1 <= |s|
  {
    if p + 7 <= |s| && PrefixAt(s, p, "AppIcon") then (Some(AppIcon), p + 7)
    else if p + 11 <= |s| && PrefixAt(s, p, "LaunchImage") then (Some(LaunchImage), p + 11)
    else (None, p)
  }

  /** `(\d+x\d+)?`: both digit runs greedy; the group is skipped when it cannot match. */
  function ScanSize(s: string, p: nat): (r: (Option<Size>, nat))
    requires p <= |s|
    ensures p <= r.1 <= |s|
  {
    var e := RunEnd(s, p, Digits);
    if p < e < |s| && s[e] == 'x' then
      var f := RunEnd(s, e + 1, Digits);
      if e + 1 < f then (Some(Size(s[p..e], s[e + 1..f])), f) else (None, p)
    else (None, p)
  }

  /** `(@(\dx))?` */
  function ScanScale(s: string, p: nat): (r: (Option<char>, nat))
    requires p <= |s|
    ensures p <= r.1 <= |s|
  {
    if p + 3 <= |s| && s[p] == '@' && IsDigit(s[p + 1]) && s[p + 2] == 'x' then (Some(s[p + 1]), p + 3)
    else (None, p)
  }

  /** `(~(\w+))?`, the word run greedy. */
  function ScanIdiom(s: string, p: nat): (r: (Option<string>, nat))
    requires p <= |s|
    ensures p <= r.1 <= |s|
  {
    if p < |s| && s[p] == '~' then
      var e := RunEnd(s, p + 1, WordChars);
      if p + 1 < e then (Some(s[p + 1..e]), e) else (None, p)
    else (None, p)
  }

  /** What the kind scanner consumes is the name of the kind it returns. */
  lemma ScanKindSound(s: string, p: nat)
    requires p <= |s|
    ensures ScanKind(s, p).0.Some? ==>
      ScanKind(s, p).1 == p + |KindName(ScanKind(s, p).0.value)| &&
      PrefixAt(s, p, KindName(ScanKind(s, p).0.value))
  {
  }

  /** What the size scanner consumes is the text of the group it returns. */
  lemma ScanSizeSound(s: string, p: nat)
    requires p <= |s|
    ensures ScanSize(s, p).1 == p + |SizeText(ScanSize(s, p).0)|
    ensures PrefixAt(s, p, SizeText(ScanSize(s, p).0))
    ensures SizeOk(ScanSize(s, p).0)
  {
    var e := RunEnd(s, p, Digits);
    if p < e < |s| && s[e] == 'x' {
      var f := RunEnd(s, e + 1, Digits);
      if e + 1 < f {
        SizeRunsSound(s, p, e, f);
      }
    }
  }

  /** Two digit runs around an `x` are the text of the size they make. */
  lemma SizeRunsSound(s: string, p: nat, e: nat, f: nat)
    requires p < e < f <= |s| && s[e] == 'x'
    requires e == RunEnd(s, p, Digits) && f == RunEnd(s, e + 1, Digits)
    ensures PrefixAt(s, p, s[p..e] + "x" + s[e + 1..f])
    ensures AllIn(s[p..e], Digits) && AllIn(s[e + 1..f], Digits)
  {
    var w, h := s[p..e], s[e + 1..f];
    assert s[p..f] == w + "x" + h;
    PrefixAtSlice(s, p, w + "x" + h);
    RunAllIn(s, p, Digits);
    RunAllIn(s, e + 1, Digits);
  }

  lemma ScanScaleSound(s: string, p: nat)
    requires p <= |s|
    ensures ScanScale(s, p).1 == p + |ScaleText(ScanScale(s, p).0)|
    ensures PrefixAt(s, p, ScaleText(ScanScale(s, p).0))
    ensures ScaleOk(ScanScale(s, p).0)
  {
    if p + 3 <= |s| && s[p] == '@' && IsDigit(s[p + 1]) && s[p + 2] == 'x' {
      assert s[p..p + 3] == ['@', s[p + 1], 'x'];
      PrefixAtSlice(s, p, ['@', s[p + 1], 'x']);
    }
  }

  lemma ScanIdiomSound(s: string, p: nat)
    requires p <= |s|
    ensures ScanIdiom(s, p).1 == p + |IdiomText(ScanIdiom(s, p).0)|
    ensures PrefixAt(s, p, IdiomText(ScanIdiom(s, p).0))
    ensures IdiomOk(ScanIdiom(s, p).0)
  {
    if p < |s| && s[p] == '~' {
      var e := RunEnd(s, p + 1, WordChars);
      if p + 1 < e {
        var w := s[p + 1..e];
        assert s[p..e] == "~" + w;
        PrefixAtSlice(s, p, "~" + w);
        RunAllIn(s, p + 1, WordChars);
      }
    }
  }

  /** The run a greedy repetition consumes is all of its class. */
  lemma RunAllIn(s: string, i: nat, k: CharClass)
    requires i <= |s|
    ensures AllIn(s[i..RunEnd(s, i, k)], k)
  {
    var t := s[i..RunEnd(s, i, k)];
    forall m | 0 <= m < |t| ensures InClass(t[m], k) {
      assert t[m] == s[i + m];
    }
  }

  /** The parts of the pattern, in the order the regular expression matches them. */
  datatype Part = KindPart | SizePart | ScalePart | IdiomPart | ExtensionPart

  function Order(part: Part): nat {
    match part
    case KindPart => 0
    case SizePart => 1
    case ScalePart => 2
    case IdiomPart => 3
    case ExtensionPart => 4
  }

  /** The text a match with groups `c` covers from `part` on. */
  function TextFrom(part: Part, c: Captures): string {
    match part
    case KindPart => Render(c)
    case SizePart => AfterKind(c)
    case ScalePart => AfterSize(c)
    case IdiomPart => AfterScale(c)
    case ExtensionPart => ".png"
  }

  /** The groups from `part` on hold what their sub-patterns allow. */
  predicate WellFormedFrom(part: Part, c: Captures) {
    (Order(part) <= 1 ==> SizeOk(c.size)) &&
    (Order(part) <= 2 ==> ScaleOk(c.scale)) &&
    (Order(part) <= 3 ==> IdiomOk(c.idiom))
  }

  /** `c` and `acc` hold the same groups before `part`. */
  predicate SameBefore(part: Part, acc: Captures, c: Captures) {
    (Order(part) > 0 ==> c.kind == acc.kind) &&
    (Order(part) > 1 ==> c.size == acc.size) &&
    (Order(part) > 2 ==> c.scale == acc.scale) &&
    (Order(part) > 3 ==> c.idiom == acc.idiom)
  }

  /**
   * Matches the pattern from `part` on at index `p`, the groups before
   * `part` already read into `acc`.
   */
  function MatchParts(s: string, p: nat, part: Part, acc: Captures): Option<Captures>
    requires p <= |s|
    decreases 4 - Order(part)
  {
    match part
    case KindPart =>
      var r := ScanKind(s, p);
      if r.0.None? then None else MatchParts(s, r.1, SizePart, acc.(kind := r.0.value))
    case SizePart =>
      var r := ScanSize(s, p);
      MatchParts(s, r.1, ScalePart, acc.(size := r.0))
    case ScalePart =>
      var r := ScanScale(s, p);
      MatchParts(s, r.1, IdiomPart, acc.(scale := r.0))
    case IdiomPart =>
      var r := ScanIdiom(s, p);
      MatchParts(s, r.1, ExtensionPart, acc.(idiom := r.0))
    case ExtensionPart =>
      if PrefixAt(s, p, ".png") then Some(acc) else None
  }

  /** The match of the pattern anchored at index `i`, if there is one. */
  function MatchAt(s: string, i: nat): Option<Captures>
    requires i <= |s|
  {
    MatchParts(s, i, KindPart, Captures(AppIcon, None, None, None))
  }

  /** What the parts from `part` on matched is the text of the groups they returned. */
  predicate SoundFrom(s: string, p: nat, part: Part, acc: Captures)
    requires p <= |s|
  {
    MatchParts(s, p, part, acc).Some? ==>
      var c := MatchParts(s, p, part, acc).value;
      WellFormedFrom(part, c) && PrefixAt(s, p, TextFrom(part, c)) && SameBefore(part, acc, c)
  }

  /** The kind part and all that follows it match the text of the groups returned. */
  lemma KindStepSound(s: string, p: nat, acc: Captures)
    requires p <= |s|
    ensures SoundFrom(s, p, KindPart, acc)
  {
    var z := ScanKind(s, p);
    if z.0.Some? {
      var k := z.0.value;
      ScanKindSound(s, p);
      var acc' := acc.(kind := k);
      SizeStepSound(s, z.1, acc');
      var r := MatchParts(s, z.1, SizePart, acc');
      assert MatchParts(s, p, KindPart, acc) == r;
      if r.Some? {
        var c := r.value;
        assert SoundFrom(s, z.1, SizePart, acc');
        assert PrefixAt(s, z.1, AfterKind(c)) && c.kind == k;
        KindJoin(s, p, z.1, c);
      }
    }
  }

  lemma KindJoin(s: string, p: nat, q: nat, c: Captures)
    requires PrefixAt(s, p, KindName(c.kind)) && q == p + |KindName(c.kind)| && PrefixAt(s, q, AfterKind(c))
    ensures PrefixAt(s, p, Render(c))
  {
    PrefixAtJoin(s, p, KindName(c.kind), AfterKind(c));
  }

  lemma SizeStepSound(s: string, p: nat, acc: Captures)
    requires p <= |s|
    ensures SoundFrom(s, p, SizePart, acc)
  {
    var z := ScanSize(s, p);
    ScanSizeSound(s, p);
    var acc' := acc.(size := z.0);
    ScaleStepSound(s, z.1, acc');
    var r := MatchParts(s, z.1, ScalePart, acc');
    assert MatchParts(s, p, SizePart, acc) == r;
    if r.Some? {
      var c := r.value;
      assert c.size == z.0;
      PrefixAtJoin(s, p, SizeText(z.0), AfterSize(c));
    }
  }

  lemma ScaleStepSound(s: string, p: nat, acc: Captures)
    requires p <= |s|
    ensures SoundFrom(s, p, ScalePart, acc)
  {
    var z := ScanScale(s, p);
    ScanScaleSound(s, p);
    var acc' := acc.(scale := z.0);
    IdiomStepSound(s, z.1, acc');
    var r := MatchParts(s, z.1, IdiomPart, acc');
    assert MatchParts(s, p, ScalePart, acc) == r;
    if r.Some? {
      var c := r.value;
      assert c.scale == z.0;
      PrefixAtJoin(s, p, ScaleText(z.0), AfterScale(c));
    }
  }

  lemma IdiomStepSound(s: string, p: nat, acc: Captures)
    requires p <= |s|
    ensures SoundFrom(s, p, IdiomPart, acc)
  {
    var z := ScanIdiom(s, p);
    ScanIdiomSound(s, p);
    var acc' := acc.(idiom := z.0);
    var r := MatchParts(s, z.1, ExtensionPart, acc');
    assert MatchParts(s, p, IdiomPart, acc) == r;
    if r.Some? {
      assert r.value == acc';
      PrefixAtJoin(s, p, IdiomText(z.0), ".png");
    }
  }

  /** Whatever the kind part and all that follows it can match, the scanners find. */
  lemma KindStepComplete(s: string, p: nat, acc: Captures, c: Captures)
    requires WellFormed(c) && PrefixAt(s, p, Render(c))
    ensures p <= |s| && MatchParts(s, p, KindPart, acc) == Some(c)
  {
    PrefixAtConcat(s, p, KindName(c.kind), AfterKind(c));
    ScanKindExact(s, p, c.kind);
    SizeStepComplete(s, p + |KindName(c.kind)|, acc.(kind := c.kind), c);
  }

  lemma SizeStepComplete(s: string, p: nat, acc: Captures, c: Captures)
    requires WellFormed(c) && PrefixAt(s, p, AfterKind(c)) && acc.kind == c.kind
    ensures p <= |s| && MatchParts(s, p, SizePart, acc) == Some(c)
  {
    ScanSizeExact(s, p, c);
    PrefixAtConcat(s, p, SizeText(c.size), AfterSize(c));
    ScaleStepComplete(s, p + |SizeText(c.size)|, acc.(size := c.size), c);
  }

  lemma ScaleStepComplete(s: string, p: nat, acc: Captures, c: Captures)
    requires WellFormed(c) && PrefixAt(s, p, AfterSize(c)) && acc.kind == c.kind && acc.size == c.size
    ensures p <= |s| && MatchParts(s, p, ScalePart, acc) == Some(c)
  {
    ScanScaleExact(s, p, c);
    PrefixAtConcat(s, p, ScaleText(c.scale), AfterScale(c));
    IdiomStepComplete(s, p + |ScaleText(c.scale)|, acc.(scale := c.scale), c);
  }

  lemma IdiomStepComplete(s: string, p: nat, acc: Captures, c: Captures)
    requires WellFormed(c) && PrefixAt(s, p, AfterScale(c))
    requires acc.kind == c.kind && acc.size == c.size && acc.scale == c.scale
    ensures p <= |s| && MatchParts(s, p, IdiomPart, acc) == Some(c)
  {
    ScanIdiomExact(s, p, c);
    PrefixAtConcat(s, p, IdiomText(c.idiom), ".png");
    var q := p + |IdiomText(c.idiom)|;
    PrefixAtSlice(s, q, ".png");
    assert acc.(idiom := c.idiom) == c;
    assert MatchParts(s, q, ExtensionPart, c) == Some(c);
  }

  /** What the scanner returns is a match. */
  lemma MatchAtSound(s: string, i: nat)
    requires i <= |s|
    ensures MatchAt(s, i).Some? ==> MatchesAt(s, i, MatchAt(s, i).value)
  {
    KindStepSound(s, i, Captures(AppIcon, None, None, None));
  }

  /** Every match is found by the scanner: at one index there is at most one match. */
  lemma MatchAtComplete(s: string, i: nat, c: Captures)
    requires MatchesAt(s, i, c)
    ensures MatchAt(s, i) == Some(c)
  {
    KindStepComplete(s, i, Captures(AppIcon, None, None, None), c);
  }

  /** The kind names differ in their first character, so the scanner finds the one that is there. */
  lemma ScanKindExact(s: string, p: nat, k: Kind)
    requires PrefixAt(s, p, KindName(k))
    ensures p <= |s| && ScanKind(s, p) == (Some(k), p + |KindName(k)|)
  {
    PrefixAtSlice(s, p, KindName(k));
    if k == LaunchImage {
      PrefixAtChar(s, p, KindName(k), 0);
    }
  }

  /** A digit run of the size group stops where the pattern says it does. */
  lemma ScanSizeExact(s: string, p: nat, c: Captures)
    requires SizeOk(c.size) && PrefixAt(s, p, AfterKind(c))
    ensures ScanSize(s, p) == (c.size, p + |SizeText(c.size)|)
  {
    PrefixAtConcat(s, p, SizeText(c.size), AfterSize(c));
    var q := p + |SizeText(c.size)|;
    assert q < |s| && !IsDigit(s[q]) by {
      var rest := AfterSize(c);
      assert rest[0] == '@' || rest[0] == '~' || rest[0] == '.';
      PrefixAtChar(s, q, rest, 0);
    }
    match c.size
    case None =>
      RunEndAt(s, p, p, Digits);
    case Some(z) =>
      var w, h := z.width, z.height;
      var e := p + |w|;
      PrefixAtSlice(s, p, w + "x" + h);
      assert s[p..q] == w + "x" + h;
      assert s[p..e] == w && s[e] == 'x' && s[e + 1..q] == h by {
        assert s[p..e] == s[p..q][..|w|];
        assert s[e + 1..q] == s[p..q][|w| + 1..];
        assert s[e] == s[p..q][|w|];
      }
      assert forall m :: p <= m < e ==> InClass(s[m], Digits) by {
        forall m | p <= m < e ensures InClass(s[m], Digits) {
          assert s[m] == s[p..e][m - p];
        }
      }
      RunEndAt(s, p, e, Digits);
      assert forall m :: e + 1 <= m < q ==> InClass(s[m], Digits) by {
        forall m | e + 1 <= m < q ensures InClass(s[m], Digits) {
          assert s[m] == s[e + 1..q][m - e - 1];
        }
      }
      RunEndAt(s, e + 1, q, Digits);
      ScanSizeBoth(s, p, e, q);
  }

  lemma ScanSizeBoth(s: string, p: nat, e: nat, q: nat)
    requires p < e < q <= |s| && s[e] == 'x' && e + 1 < q
    requires RunEnd(s, p, Digits) == e && RunEnd(s, e + 1, Digits) == q
    ensures ScanSize(s, p) == (Some(Size(s[p..e], s[e + 1..q])), q)
  {
  }

  lemma ScanScaleExact(s: string, p: nat, c: Captures)
    requires ScaleOk(c.scale) && PrefixAt(s, p, AfterSize(c))
    ensures ScanScale(s, p) == (c.scale, p + |ScaleText(c.scale)|)
  {
    PrefixAtConcat(s, p, ScaleText(c.scale), AfterScale(c));
    match c.scale
    case None =>
      var rest := AfterScale(c);
      assert rest[0] == '~' || rest[0] == '.';
      PrefixAtChar(s, p, rest, 0);
    case Some(d) =>
      var t := ScaleText(c.scale);
      PrefixAtChar(s, p, t, 0);
      PrefixAtChar(s, p, t, 1);
      PrefixAtChar(s, p, t, 2);
  }

  lemma ScanIdiomExact(s: string, p: nat, c: Captures)
    requires IdiomOk(c.idiom) && PrefixAt(s, p, AfterScale(c))
    ensures ScanIdiom(s, p) == (c.idiom, p + |IdiomText(c.idiom)|)
  {
    PrefixAtConcat(s, p, IdiomText(c.idiom), ".png");
    var q := p + |IdiomText(c.idiom)|;
    assert q < |s| && s[q] == '.' by {
      PrefixAtChar(s, q, ".png", 0);
    }
    match c.idiom
    case None =>
    case Some(w) =>
      var t := IdiomText(c.idiom);
      PrefixAtSlice(s, p, t);
      assert s[p..q] == t;
      assert s[p] == '~' && s[p + 1..q] == w by {
        assert s[p] == s[p..q][0];
        assert s[p + 1..q] == s[p..q][1..];
      }
      assert forall m :: p + 1 <= m < q ==> InClass(s[m], WordChars) by {
        forall m | p + 1 <= m < q ensures InClass(s[m], WordChars) {
          assert s[m] == s[p + 1..q][m - p - 1];
        }
      }
      RunEndAt(s, p + 1, q, WordChars);
  }

  // ---------------------------------------------------------------------
  // The unanchored search.
  // ---------------------------------------------------------------------

  /** The match attempt at every start index `0 .. |s|`, in order. */
  function Attempts(s: string): (a: seq<Option<Captures>>)
    ensures |a| == |s| + 1
    ensures forall j :: 0 <= j <= |s| ==> a[j] == MatchAt(s, j)
  {
    seq(|s| + 1, j requires 0 <= j <= |s| => MatchAt(s, j))
  }

  /** The first successful attempt at index `i` or later, with its index. */
  function FirstFrom<T>(a: seq<Option<T>>, i: nat): (r: Option<(nat, T)>)
    requires i <= |a|
    ensures r.Some? ==>
      i <= r.value.0 < |a| && a[r.value.0] == Some(r.value.1) &&
      forall j :: i <= j < r.value.0 ==> a[j].None?
    ensures r.None? ==> forall j :: i <= j < |a| ==> a[j].None?
    decreases |a| - i
  {
    if i == |a| then None
    else if a[i].Some? then Some((i, a[i].value))
    else FirstFrom(a, i + 1)
  }

  /** `String.prototype.match` without the global flag: the leftmost match. */
  function Search(s: string): Option<(nat, Captures)> {
    FirstFrom(Attempts(s), 0)
  }

  /** The search finds the leftmost match, and finds nothing only when there is no match anywhere. */
  lemma SearchLeftmost(s: string)
    ensures Search(s).Some? ==> Leftmost(s, Search(s).value.0, Search(s).value.1)
    ensures Search(s).None? <==> forall j: nat, c: Captures :: j <= |s| ==> !MatchesAt(s, j, c)
  {
    var r := Search(s);
    forall j: nat, c: Captures | MatchesAt(s, j, c)
      ensures r.Some? && r.value.0 <= j
    {
      MatchAtComplete(s, j, c);
    }
    if r.Some? {
      MatchAtSound(s, r.value.0);
    }
  }

  // ---------------------------------------------------------------------
  // The descriptor built from the groups.
  // ---------------------------------------------------------------------

  /** The metadata `parseImageName` returns. */
  datatype ImageDescriptor = ImageDescriptor(
    filename: string,
    baseName: string,
    size: string,
    scale: string,
    idiom: string,
    expectedSize: string)

  /** `s.split(sep)[0]`: the text before the first `sep`. */
  function BeforeFirst(s: string, sep: char): (r: string)
    ensures |r| <= |s| && r == s[..|r|] && sep !in r
    ensures |r| < |s| ==> s[|r|] == sep
  {
    if s == [] then []
    else if s[0] == sep then []
    else
      var r := [s[0]] + BeforeFirst(s[1..], sep);
      assert r[1..] == BeforeFirst(s[1..], sep);
      r
  }

  /** `parseInt(t)` for text that starts with its digits; `None` stands for `NaN`. */
  function ParseInt(t: string): Option<nat> {
    var e := RunEnd(t, 0, Digits);
    if e == 0 then None else Some(DecimalValue(t[..e]))
  }

  /** `Number.prototype.toString`, `NaN` included. */
  function NumberText(n: Option<nat>): string {
    match n
    case None => "NaN"
    case Some(v) => NatToDecimal(v)
  }

  /** `size && scale ? (parseInt(size.split('x')[0]) * parseInt(scale[0])).toString() : size` */
  function ExpectedSize(size: string, scale: string): string {
    if size != "" && scale != "" then
      var product :=
        match (ParseInt(BeforeFirst(size, 'x')), ParseInt(scale[..1]))
        case (Some(w), Some(k)) => Some(Times(w, k))
        case _ => None;
      NumberText(product)
    else size
  }

  /** Destructuring of the match array with the defaults `''`, `'1x'` and `'universal'`. */
  function Describe(name: string, c: Captures): ImageDescriptor {
    var size := SizeText(c.size);
    var scale := match c.scale case None => "1x" case Some(d) => [d, 'x'];
    var idiom := match c.idiom case None => "universal" case Some(w) => w;
    ImageDescriptor(name, KindName(c.kind), size, scale, idiom, ExpectedSize(size, scale))
  }

  /** `parseImageName`: `None` is the source's `null`. */
  function ParseImageName(name: string): Option<ImageDescriptor> {
    match Search(name)
    case None => None
    case Some(found) => Some(Describe(name, found.1))
  }

  /** The scale text the descriptor carries: group 4, or the default `1x`. */
  function ScaleDigit(c: Captures): char {
    match c.scale
    case None => '1'
    case Some(d) => d
  }

  /** `parseImageName` returns `null` exactly when no part of the name matches the pattern. */
  lemma ParseNullIff(name: string)
    ensures ParseImageName(name).None? <==> forall j: nat, c: Captures :: j <= |name| ==> !MatchesAt(name, j, c)
  {
    SearchLeftmost(name);
  }

  /** `"WxH".split('x')[0]` is `W` when `W` is all digits. */
  lemma {:induction false} BeforeFirstOfSize(w: string, h: string)
    requires AllIn(w, Digits)
    ensures BeforeFirst(w + "x" + h, 'x') == w
  {
    if w != [] {
      assert (w + "x" + h)[1..] == w[1..] + "x" + h;
      BeforeFirstOfSize(w[1..], h);
    }
  }

  /** `parseInt` of a digit string is its decimal value. */
  lemma ParseIntOfDigits(w: string)
    requires |w| > 0 && AllIn(w, Digits)
    ensures ParseInt(w) == Some(DecimalValue(w))
  {
    RunEndAt(w, 0, |w|, Digits);
    assert w[..|w|] == w;
  }

  /** The expected size the descriptor of well-formed groups carries. */
  lemma ExpectedSizeOf(c: Captures)
    requires WellFormed(c)
    ensures ExpectedSize(SizeText(c.size), [ScaleDigit(c), 'x']) ==
      if c.size.Some? then NatToDecimal(Times(DecimalValue(c.size.value.width), DigitValue(ScaleDigit(c)))) else ""
  {
    if c.size.Some? {
      ExpectedSizeOfDigits(c.size.value.width, c.size.value.height, ScaleDigit(c));
    }
  }

  /** `parseInt(scale[0])` for a scale `dx`. */
  lemma ParseIntOfScale(d: char)
    requires IsDigit(d)
    ensures ParseInt([d, 'x'][..1]) == Some(DigitValue(d))
  {
    var t := [d, 'x'][..1];
    assert t == [d];
    assert AllIn(t, Digits);
    RunEndAt(t, 0, 1, Digits);
    assert t[..1] == t && t[..0] == [];
    assert DecimalValue(t) == DigitValue(d);
  }

  /** `WxH` at scale `dx` is expected at `W` times `d` pixels. */
  lemma ExpectedSizeOfDigits(w: string, h: string, d: char)
    requires |w| > 0 && AllIn(w, Digits) && IsDigit(d)
    ensures ExpectedSize(w + "x" + h, [d, 'x']) == NatToDecimal(Times(DecimalValue(w), DigitValue(d)))
  {
    var size, scale := w + "x" + h, [d, 'x'];
    assert ParseInt(BeforeFirst(size, 'x')) == Some(DecimalValue(w)) by {
      BeforeFirstOfSize(w, h);
      ParseIntOfDigits(w);
    }
    assert ParseInt(scale[..1]) == Some(DigitValue(d)) by {
      ParseIntOfScale(d);
    }
    ExpectedSizeFrom(size, scale, DecimalValue(w), DigitValue(d));
  }

  /** With both numbers read, the expected size is the text of their product. */
  lemma ExpectedSizeFrom(size: string, scale: string, width: nat, factor: nat)
    requires size != "" && scale != ""
    requires ParseInt(BeforeFirst(size, 'x')) == Some(width) && ParseInt(scale[..1]) == Some(factor)
    ensures ExpectedSize(size, scale) == NatToDecimal(Times(width, factor))
  {
  }

  /** A parsed descriptor is the one built from the groups of the leftmost match. */
  lemma ParsedFromLeftmostMatch(name: string, d: ImageDescriptor) returns (i: nat, c: Captures)
    requires ParseImageName(name) == Some(d)
    ensures Leftmost(name, i, c)
    ensures d == Describe(name, c)
  {
    SearchLeftmost(name);
    i, c := Search(name).value.0, Search(name).value.1;
  }

  /**
   * The descriptor of well-formed groups: the whole name as `filename`,
   * group 1 as `baseName`, group 2 or `""` as `size`, group 4 or `1x` as
   * `scale`, group 6 or `universal` as `idiom`, and as `expectedSize` the
   * decimal text of width times scale digit, or `""` when there is no size.
   */
  lemma DescribeFields(name: string, c: Captures)
    requires WellFormed(c)
    ensures Describe(name, c).filename == name
    ensures Describe(name, c).baseName == KindName(c.kind)
    ensures Describe(name, c).size == SizeText(c.size)
    ensures Describe(name, c).scale == [ScaleDigit(c), 'x']
    ensures Describe(name, c).idiom == (if c.idiom.Some? then c.idiom.value else "universal")
    ensures Describe(name, c).expectedSize ==
      if c.size.Some? then NatToDecimal(Times(DecimalValue(c.size.value.width), DigitValue(ScaleDigit(c)))) else ""
  {
    ExpectedSizeOf(c);
  }

  /** The shape of every parsed descriptor's fields. */
  lemma ParsedFieldShapes(name: string, d: ImageDescriptor)
    requires ParseImageName(name) == Some(d)
    ensures d.filename == name
    ensures d.baseName == "AppIcon" || d.baseName == "LaunchImage"
    ensures |d.scale| == 2 && IsDigit(d.scale[0]) && d.scale[1] == 'x'
    ensures |d.idiom| > 0 && AllIn(d.idiom, WordChars)
    ensures d.size == "" <==> d.expectedSize == ""
    ensures d.expectedSize != "" ==> Canonical(d.expectedSize)
  {
    var i, c := ParsedFromLeftmostMatch(name, d);
    DescribeShapes(name, c);
  }

  /** `WxH`: a non-empty digit run, an `x`, and a non-empty digit run. */
  predicate IsSizeText(s: string) {
    var w := BeforeFirst(s, 'x');
    |w| > 0 && |w| + 1 < |s| && AllIn(w, Digits) && AllIn(s[|w| + 1..], Digits)
  }

  /**
   * A parsed size is empty or of the form `WxH`, and the expected size is
   * empty exactly when the size is, and otherwise the decimal text of `W`
   * times the digit of the scale.
   */
  lemma ParsedExpectedSize(name: string, d: ImageDescriptor)
    requires ParseImageName(name) == Some(d)
    ensures d.size == "" || IsSizeText(d.size)
    ensures |d.scale| == 2 && IsDigit(d.scale[0])
    ensures d.expectedSize ==
      if d.size == "" then "" else NatToDecimal(Times(DecimalValue(BeforeFirst(d.size, 'x')), DigitValue(d.scale[0])))
  {
    var i, c := ParsedFromLeftmostMatch(name, d);
    DescribeFields(name, c);
    if c.size.Some? {
      var w, h := c.size.value.width, c.size.value.height;
      BeforeFirstOfSize(w, h);
      assert d.size == w + "x" + h;
      assert d.size[|w| + 1..] == h;
    }
  }

  /** The shape of the fields of the descriptor of well-formed groups. */
  lemma DescribeShapes(name: string, c: Captures)
    requires WellFormed(c)
    ensures Describe(name, c).filename == name
    ensures Describe(name, c).baseName == "AppIcon" || Describe(name, c).baseName == "LaunchImage"
    ensures |Describe(name, c).scale| == 2 && IsDigit(Describe(name, c).scale[0]) && Describe(name, c).scale[1] == 'x'
    ensures |Describe(name, c).idiom| > 0 && AllIn(Describe(name, c).idiom, WordChars)
    ensures Describe(name, c).size == "" <==> Describe(name, c).expectedSize == ""
    ensures Describe(name, c).expectedSize != "" ==> Canonical(Describe(name, c).expectedSize)
  {
    DescribeFields(name, c);
    if c.size.Some? {
      assert |Describe(name, c).size| > 0;
    }
  }

  /** The descriptor of the groups of `AppIcon60x60@2x.png`. */
  lemma DescribeIconExample()
    ensures Describe("AppIcon60x60@2x.png", Captures(AppIcon, Some(Size("60", "60")), Some('2'), None))
         == ImageDescriptor("AppIcon60x60@2x.png", "AppIcon", "60x60", "2x", "universal", "120")
  {
    var c := Captures(AppIcon, Some(Size("60", "60")), Some('2'), None);
    assert SizeText(c.size) == "60x60";
    assert ['2', 'x'] == "2x";
    ExpectedSize120();
  }

  /** The descriptor of the groups of `AppIcon1024x1024@2x.png`. */
  lemma DescribeMarketingExample()
    ensures Describe("AppIcon1024x1024@2x.png", Captures(AppIcon, Some(Size("1024", "1024")), Some('2'), None))
         == ImageDescriptor("AppIcon1024x1024@2x.png", "AppIcon", "1024x1024", "2x", "universal", "2048")
  {
    var c := Captures(AppIcon, Some(Size("1024", "1024")), Some('2'), None);
    assert SizeText(c.size) == "1024x1024";
    assert ['2', 'x'] == "2x";
    ExpectedSize2048();
  }

  /** `60x60` at `2x` is expected at 120 pixels. */
  lemma ExpectedSize120() ensures ExpectedSize("60x60", "2x") == "120" {
    assert AllIn("60", Digits);
    ExpectedSizeOfDigits("60", "60", '2');
    assert "60" + "x" + "60" == "60x60" && ['2', 'x'] == "2x";
    SixtyValue();
    Text120();
  }

  /** `1024x1024` at `2x` is expected at 2048 pixels. */
  lemma ExpectedSize2048() ensures ExpectedSize("1024x1024", "2x") == "2048" {
    assert AllIn("1024", Digits);
    ExpectedSizeOfDigits("1024", "1024", '2');
    assert "1024" + "x" + "1024" == "1024x1024" && ['2', 'x'] == "2x";
    Value1024();
    Text2048();
  }

  lemma SixtyValue() ensures DecimalValue("60") == 60 {
    assert "60"[..1] == "6";
  }

  lemma Value1024() ensures DecimalValue("1024") == 1024 {
    assert "1024"[..3] == "102" && "102"[..2] == "10" && "10"[..1] == "1";
  }

  lemma Text120() ensures NatToDecimal(120) == "120" {
    assert Canonical("120");
    DecimalRoundTrip("120");
    assert "120"[..2] == "12" && "12"[..1] == "1";
  }

  lemma Text2048() ensures NatToDecimal(2048) == "2048" {
    assert Canonical("2048");
    DecimalRoundTrip("2048");
    assert "2048"[..3] == "204" && "204"[..2] == "20" && "20"[..1] == "2";
  }

  /** A size and a scale: the expected size is width times scale. */
  lemma ParseIconExample()
    ensures ParseImageName("AppIcon60x60@2x.png")
         == Some(ImageDescriptor("AppIcon60x60@2x.png", "AppIcon", "60x60", "2x", "universal", "120"))
  {
    var c := Captures(AppIcon, Some(Size("60", "60")), Some('2'), None);
    RenderIconExample();
    ParseOfRender(c);
    DescribeIconExample();
  }

  /** No size: the expected size stays empty; the idiom is group 6. */
  lemma ParseLaunchExample()
    ensures ParseImageName("LaunchImage@2x~ipad.png")
         == Some(ImageDescriptor("LaunchImage@2x~ipad.png", "LaunchImage", "", "2x", "ipad", ""))
  {
    var c := Captures(LaunchImage, None, Some('2'), Some("ipad"));
    RenderLaunchExample();
    ParseOfRender(c);
    assert Describe("LaunchImage@2x~ipad.png", c)
        == ImageDescriptor("LaunchImage@2x~ipad.png", "LaunchImage", "", "2x", "ipad", "");
  }

  /** The marketing icon at scale 2: its expected size is 2048, not 1024. */
  lemma ParseMarketingExample()
    ensures ParseImageName("AppIcon1024x1024@2x.png")
         == Some(ImageDescriptor("AppIcon1024x1024@2x.png", "AppIcon", "1024x1024", "2x", "universal", "2048"))
  {
    var c := Captures(AppIcon, Some(Size("1024", "1024")), Some('2'), None);
    RenderMarketingExample();
    ParseOfRender(c);
    DescribeMarketingExample();
  }

  /** The pattern is not anchored: it is found inside a longer name, with every default. */
  lemma ParseUnanchoredExample()
    ensures ParseImageName("xAppIcon.png.bak")
         == Some(ImageDescriptor("xAppIcon.png.bak", "AppIcon", "", "1x", "universal", ""))
  {
    var c := Captures(AppIcon, None, None, None);
    assert Render(c) == "AppIcon.png";
    assert "x" + Render(c) + ".bak" == "xAppIcon.png.bak";
    ParseEmbedded("x", c, ".bak");
  }

  /** A name with neither kind in it is not an image of the catalog. */
  lemma ParseRejectExample()
    ensures ParseImageName("random.txt") == None
  {
    var r := "random.txt";
    forall j: nat, c: Captures | j <= |r| ensures !MatchesAt(r, j, c) {
      if MatchesAt(r, j, c) {
        PrefixAtChar(r, j, Render(c), 0);
        assert false;
      }
    }
    ParseNullIff(r);
  }

  lemma RenderIconExample()
    ensures Render(Captures(AppIcon, Some(Size("60", "60")), Some('2'), None)) == "AppIcon60x60@2x.png"
  {
  }

  lemma RenderLaunchExample()
    ensures Render(Captures(LaunchImage, None, Some('2'), Some("ipad"))) == "LaunchImage@2x~ipad.png"
  {
  }

  lemma RenderMarketingExample()
    ensures Render(Captures(AppIcon, Some(Size("1024", "1024")), Some('2'), None)) == "AppIcon1024x1024@2x.png"
  {
  }

  /** Parsing the text of well-formed groups gives those groups back. */
  lemma ParseOfRender(c: Captures)
    requires WellFormed(c)
    ensures ParseImageName(Render(c)) == Some(Describe(Render(c), c))
  {
    ParseEmbedded([], c, []);
    assert [] + Render(c) + [] == Render(c);
  }

  /**
   * The search is not anchored and finds the first kind name: groups
   * rendered after text that holds neither `A` nor `L` are what the name
   * parses to, whatever follows them.
   */
  lemma ParseEmbedded(before: string, c: Captures, after: string)
    requires WellFormed(c)
    requires forall j :: 0 <= j < |before| ==> before[j] != 'A' && before[j] != 'L'
    ensures ParseImageName(before + Render(c) + after) == Some(Describe(before + Render(c) + after, c))
  {
    var name := before + Render(c) + after;
    var i := |before|;
    assert name[i..i + |Render(c)|] == Render(c);
    PrefixAtSlice(name, i, Render(c));
    forall j: nat, c': Captures | j < i ensures !MatchesAt(name, j, c') {
      assert name[j] == before[j];
      assert name[j] != Render(c')[0];
    }
    SearchFinds(name, i, c);
  }

  /** The search returns a match when no match starts further left. */
  lemma SearchFinds(name: string, i: nat, c: Captures)
    requires MatchesAt(name, i, c)
    requires forall j: nat, c': Captures :: j < i ==> !MatchesAt(name, j, c')
    ensures Search(name) == Some((i, c))
  {
    MatchAtComplete(name, i, c);
    SearchLeftmost(name);
    var found := Search(name).value;
    MatchAtSound(name, found.0);
  }
}
