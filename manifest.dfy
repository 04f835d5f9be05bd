/**
 * The two `Contents.json` manifests of the asset catalog, as JSON values
 * whose object members keep their insertion order
 * (`createAppIconContentsJson` and `createLaunchImageContentsJson`).
 */
module Manifest {
  import opened Options
  import opened Text
  import opened ImageName

  /** A JSON value; an object is its members in insertion order. */
  datatype Json =
    | JString(text: string)
    | JNumber(number: nat)
    | JArray(items: seq<Json>)
    | JObject(members: seq<Member>)

  datatype Member = Member(key: string, value: Json)

  function Keys(ms: seq<Member>): (ks: seq<string>)
    ensures |ks| == |ms|
    ensures forall i :: 0 <= i < |ms| ==> ks[i] == ms[i].key
  {
    seq(|ms|, i requires 0 <= i < |ms| => ms[i].key)
  }

  /** The value of the first member called `key`, as a property read sees it. */
  function Lookup(ms: seq<Member>, key: string): (v: Option<Json>)
    ensures v.None? <==> key !in Keys(ms)
  {
    if ms == [] then None
    else if ms[0].key == key then Some(ms[0].value)
    else
      assert Keys(ms) == [ms[0].key] + Keys(ms[1..]);
      Lookup(ms[1..], key)
  }

  /** `obj[key]` */
  function Field(j: Json, key: string): Option<Json> {
    if j.JObject? then Lookup(j.members, key) else None
  }

  /** A member whose key no earlier member has is the one a read finds. */
  lemma {:induction false} LookupKeyAt(ms: seq<Member>, i: nat)
    requires i < |ms|
    requires forall j :: 0 <= j < i ==> ms[j].key != ms[i].key
    ensures Lookup(ms, ms[i].key) == Some(ms[i].value)
  {
    if i > 0 {
      LookupKeyAt(ms[1..], i - 1);
    }
  }

  /**
   * `obj[key] = value`: an existing member keeps its place and takes the
   * new value; a new key is added at the end.
   */
  function Assign(ms: seq<Member>, key: string, value: Json): (r: seq<Member>)
    ensures key in Keys(ms) ==> Keys(r) == Keys(ms)
    ensures key !in Keys(ms) ==> Keys(r) == Keys(ms) + [key]
  {
    if ms == [] then [Member(key, value)]
    else if ms[0].key == key then [Member(key, value)] + ms[1..]
    else
      assert Keys(ms) == [ms[0].key] + Keys(ms[1..]);
      var r := [ms[0]] + Assign(ms[1..], key, value);
      assert Keys(r) == [ms[0].key] + Keys(Assign(ms[1..], key, value));
      r
  }

  /** After an assignment the key reads the new value and every other key reads what it did. */
  lemma {:induction false} AssignLookup(ms: seq<Member>, key: string, value: Json, other: string)
    ensures Lookup(Assign(ms, key, value), key) == Some(value)
    ensures other != key ==> Lookup(Assign(ms, key, value), other) == Lookup(ms, other)
  {
    if ms != [] && ms[0].key != key {
      AssignLookup(ms[1..], key, value, other);
      assert Assign(ms, key, value)[1..] == Assign(ms[1..], key, value);
    }
  }

  // ---------------------------------------------------------------------
  // The app-icon manifest.
  // ---------------------------------------------------------------------

  const IconFolder := "Assets.xcassets/AppIcon.appiconset/"
  const MarketingSize := "1024x1024"

  /** The entry object as first built for a parsed icon, before the marketing rewrite. */
  function PlainIconMembers(d: ImageDescriptor): seq<Member> {
    [ Member("size", JString(d.size)),
      Member("expected-size", JString(d.expectedSize)),
      Member("filename", JString(d.expectedSize + ".png")),
      Member("folder", JString(IconFolder)),
      Member("idiom", JString(d.idiom)),
      Member("scale", JString(d.scale)) ]
  }

  /** The six assignments made to a 1024x1024 entry, in the order they are made. */
  function MarketingRewrite(ms: seq<Member>): seq<Member> {
    var m1 := Assign(ms, "size", JString(MarketingSize));
    var m2 := Assign(m1, "filename", JString("1024.png"));
    var m3 := Assign(m2, "expected-size", JString("1024"));
    var m4 := Assign(m3, "idiom", JString("ios-marketing"));
    var m5 := Assign(m4, "folder", JString(IconFolder));
    Assign(m5, "scale", JString("1x"))
  }

  /** The manifest entry of one icon. */
  function IconEntry(d: ImageDescriptor): Json {
    var ms := PlainIconMembers(d);
    JObject(if d.size == MarketingSize then MarketingRewrite(ms) else ms)
  }

  /** `createAppIconContentsJson`: `{images: icons.map(entry)}`. */
  function AppIconContents(icons: seq<ImageDescriptor>): Json {
    JObject([Member("images", JArray(seq(|icons|, i requires 0 <= i < |icons| => IconEntry(icons[i]))))])
  }

  const IconKeys := ["size", "expected-size", "filename", "folder", "idiom", "scale"]

  /**
   * Every icon entry has the six keys in the order the literal writes them
   * (the rewrite only assigns existing keys), and reads the parsed fields,
   * the file name `<expected-size>.png` and the fixed folder; a
   * `1024x1024` entry reads instead `1024.png`, `1024`, `ios-marketing`
   * and `1x`, whatever was parsed.
   */
  lemma IconEntryFields(d: ImageDescriptor)
    ensures IconEntry(d).JObject? && Keys(IconEntry(d).members) == IconKeys
    ensures Field(IconEntry(d), "size") == Some(JString(d.size))
    ensures Field(IconEntry(d), "folder") == Some(JString(IconFolder))
    ensures d.size != MarketingSize ==>
      Field(IconEntry(d), "expected-size") == Some(JString(d.expectedSize)) &&
      Field(IconEntry(d), "filename") == Some(JString(d.expectedSize + ".png")) &&
      Field(IconEntry(d), "idiom") == Some(JString(d.idiom)) &&
      Field(IconEntry(d), "scale") == Some(JString(d.scale))
    ensures d.size == MarketingSize ==>
      Field(IconEntry(d), "expected-size") == Some(JString("1024")) &&
      Field(IconEntry(d), "filename") == Some(JString("1024.png")) &&
      Field(IconEntry(d), "idiom") == Some(JString("ios-marketing")) &&
      Field(IconEntry(d), "scale") == Some(JString("1x"))
  {
    var ms := PlainIconMembers(d);
    assert Keys(ms) == IconKeys;
    if d.size == MarketingSize {
      MarketingRewriteFields(ms);
      PlainIconFieldsTail(d);
      PlainIconFieldsHead(d);
    } else {
      PlainIconFieldsHead(d);
      PlainIconFieldsTail(d);
    }
  }

  /** An entry that is not rewritten reads the parsed size, expected size and file name. */
  lemma PlainIconFieldsHead(d: ImageDescriptor)
    ensures var ms := PlainIconMembers(d);
      Lookup(ms, "size") == Some(JString(d.size)) &&
      Lookup(ms, "expected-size") == Some(JString(d.expectedSize)) &&
      Lookup(ms, "filename") == Some(JString(d.expectedSize + ".png"))
  {
    var ms := PlainIconMembers(d);
    assert Keys(ms) == IconKeys;
    IconKeysDistinct();
    assert Lookup(ms, "size") == Some(JString(d.size)) by { LookupKeyAt(ms, 0); }
    assert Lookup(ms, "expected-size") == Some(JString(d.expectedSize)) by { LookupKeyAt(ms, 1); }
    assert Lookup(ms, "filename") == Some(JString(d.expectedSize + ".png")) by { LookupKeyAt(ms, 2); }
  }

  /** An entry that is not rewritten reads the fixed folder and the parsed idiom and scale. */
  lemma PlainIconFieldsTail(d: ImageDescriptor)
    ensures var ms := PlainIconMembers(d);
      Lookup(ms, "folder") == Some(JString(IconFolder)) &&
      Lookup(ms, "idiom") == Some(JString(d.idiom)) &&
      Lookup(ms, "scale") == Some(JString(d.scale))
  {
    var ms := PlainIconMembers(d);
    assert Keys(ms) == IconKeys;
    IconKeysDistinct();
    assert Lookup(ms, "folder") == Some(JString(IconFolder)) by { LookupKeyAt(ms, 3); }
    assert Lookup(ms, "idiom") == Some(JString(d.idiom)) by { LookupKeyAt(ms, 4); }
    assert Lookup(ms, "scale") == Some(JString(d.scale)) by { LookupKeyAt(ms, 5); }
  }

  lemma IconKeysDistinct()
    ensures forall i, j :: 0 <= i < j < |IconKeys| ==> IconKeys[i] != IconKeys[j]
  {
  }

  /** The file name an icon entry lists: `<expected-size>.png`, or `1024.png` for a `1024x1024` entry. */
  lemma IconEntryFilename(d: ImageDescriptor)
    ensures Field(IconEntry(d), "filename")
         == Some(JString(if d.size == MarketingSize then "1024.png" else d.expectedSize + ".png"))
  {
    if d.size == MarketingSize {
      assert Keys(PlainIconMembers(d)) == IconKeys;
      MarketingRewriteFields(PlainIconMembers(d));
    } else {
      PlainIconFieldsHead(d);
    }
  }

  /** The rewrite keeps the keys of an icon entry and sets the six values. */
  lemma MarketingRewriteFields(ms: seq<Member>)
    requires Keys(ms) == IconKeys
    ensures Keys(MarketingRewrite(ms)) == IconKeys
    ensures Lookup(MarketingRewrite(ms), "size") == Some(JString(MarketingSize))
    ensures Lookup(MarketingRewrite(ms), "filename") == Some(JString("1024.png"))
    ensures Lookup(MarketingRewrite(ms), "expected-size") == Some(JString("1024"))
    ensures Lookup(MarketingRewrite(ms), "idiom") == Some(JString("ios-marketing"))
    ensures Lookup(MarketingRewrite(ms), "folder") == Some(JString(IconFolder))
    ensures Lookup(MarketingRewrite(ms), "scale") == Some(JString("1x"))
  {
    assert "size" in Keys(ms) && "filename" in Keys(ms) && "expected-size" in Keys(ms);
    assert "idiom" in Keys(ms) && "folder" in Keys(ms) && "scale" in Keys(ms);
    var m1 := Assign(ms, "size", JString(MarketingSize));
    var m2 := Assign(m1, "filename", JString("1024.png"));
    var m3 := Assign(m2, "expected-size", JString("1024"));
    var m4 := Assign(m3, "idiom", JString("ios-marketing"));
    var m5 := Assign(m4, "folder", JString(IconFolder));
    var m6 := Assign(m5, "scale", JString("1x"));
    AssignLookup(ms, "size", JString(MarketingSize), "size");
    AssignLookup(m1, "filename", JString("1024.png"), "size");
    AssignLookup(m2, "expected-size", JString("1024"), "size");
    AssignLookup(m3, "idiom", JString("ios-marketing"), "size");
    AssignLookup(m4, "folder", JString(IconFolder), "size");
    AssignLookup(m5, "scale", JString("1x"), "size");
    AssignLookup(m1, "filename", JString("1024.png"), "filename");
    AssignLookup(m2, "expected-size", JString("1024"), "filename");
    AssignLookup(m3, "idiom", JString("ios-marketing"), "filename");
    AssignLookup(m4, "folder", JString(IconFolder), "filename");
    AssignLookup(m5, "scale", JString("1x"), "filename");
    AssignLookup(m2, "expected-size", JString("1024"), "expected-size");
    AssignLookup(m3, "idiom", JString("ios-marketing"), "expected-size");
    AssignLookup(m4, "folder", JString(IconFolder), "expected-size");
    AssignLookup(m5, "scale", JString("1x"), "expected-size");
    AssignLookup(m3, "idiom", JString("ios-marketing"), "idiom");
    AssignLookup(m4, "folder", JString(IconFolder), "idiom");
    AssignLookup(m5, "scale", JString("1x"), "idiom");
    AssignLookup(m4, "folder", JString(IconFolder), "folder");
    AssignLookup(m5, "scale", JString("1x"), "folder");
    AssignLookup(m5, "scale", JString("1x"), "scale");
  }

  /**
   * The icon manifest has one entry per icon, in the order of the icons;
   * each entry has the six keys in order and reads the parsed size, the
   * fixed folder, and either the parsed expected size, `<expected-size>.png`,
   * idiom and scale, or for a `1024x1024` icon `1024`, `1024.png`,
   * `ios-marketing` and `1x`.
   */
  lemma AppIconContentsEntries(icons: seq<ImageDescriptor>)
    ensures Keys(AppIconContents(icons).members) == ["images"]
    ensures Field(AppIconContents(icons), "images").Some?
    ensures var entries := Field(AppIconContents(icons), "images").value;
      entries.JArray? && |entries.items| == |icons| &&
      forall i :: 0 <= i < |icons| ==>
        entries.items[i].JObject? && Keys(entries.items[i].members) == IconKeys &&
        Field(entries.items[i], "size") == Some(JString(icons[i].size)) &&
        Field(entries.items[i], "folder") == Some(JString(IconFolder)) &&
        (icons[i].size != MarketingSize ==>
          Field(entries.items[i], "expected-size") == Some(JString(icons[i].expectedSize)) &&
          Field(entries.items[i], "filename") == Some(JString(icons[i].expectedSize + ".png")) &&
          Field(entries.items[i], "idiom") == Some(JString(icons[i].idiom)) &&
          Field(entries.items[i], "scale") == Some(JString(icons[i].scale))) &&
        (icons[i].size == MarketingSize ==>
          Field(entries.items[i], "expected-size") == Some(JString("1024")) &&
          Field(entries.items[i], "filename") == Some(JString("1024.png")) &&
          Field(entries.items[i], "idiom") == Some(JString("ios-marketing")) &&
          Field(entries.items[i], "scale") == Some(JString("1x")))
  {
    var entries := Field(AppIconContents(icons), "images").value;
    forall i | 0 <= i < |icons|
      ensures entries.items[i] == IconEntry(icons[i])
    {
    }
    forall i | 0 <= i < |icons| {
      IconEntryFields(icons[i]);
    }
  }

  // ---------------------------------------------------------------------
  // The launch-image manifest.
  // ---------------------------------------------------------------------

  /** An occurrence of `~\w+` starts at `k`. */
  predicate IdiomAt(s: string, k: nat) {
    k + 1 < |s| && s[k] == '~' && IsWordChar(s[k + 1])
  }

  /** The first occurrence of `~\w+` at index `k` or later. */
  function FirstIdiom(s: string, k: nat): (r: Option<nat>)
    requires k <= |s|
    ensures r.Some? ==> k <= r.value < |s| && IdiomAt(s, r.value)
    ensures forall j :: k <= j < (if r.Some? then r.value else |s|) ==> !IdiomAt(s, j)
    decreases |s| - k
  {
    if k == |s| then None
    else if IdiomAt(s, k) then Some(k)
    else FirstIdiom(s, k + 1)
  }

  /** `s.replace(/~\w+/, '')`: the first occurrence, with its longest word run, removed. */
  function StripIdiom(s: string): string {
    match FirstIdiom(s, 0)
    case None => s
    case Some(k) => s[..k] + s[RunEnd(s, k + 1, WordChars)..]
  }

  /** A name is left as it is exactly when no `~` is followed by a word character. */
  lemma StripIdiomUnchanged(s: string)
    ensures StripIdiom(s) == s <==> forall k: nat :: !IdiomAt(s, k)
  {
    match FirstIdiom(s, 0)
    case None =>
    case Some(k) =>
      assert |StripIdiom(s)| < |s|;
  }

  /**
   * In a name whose text before the match holds no `~`, the removed
   * occurrence is the idiom group: what is left is the name rendered
   * without that group.
   */
  lemma StripIdiomOfRender(before: string, c: Captures, after: string)
    requires WellFormed(c) && c.idiom.Some?
    requires '~' !in before
    ensures StripIdiom(before + Render(c) + after) == before + Render(c.(idiom := None)) + after
  {
    var w := c.idiom.value;
    var head := before + (KindName(c.kind) + SizeText(c.size) + ScaleText(c.scale));
    var tail := ".png" + after;
    assert before + Render(c) + after == head + "~" + w + tail by {
      assert Render(c) == KindName(c.kind) + SizeText(c.size) + ScaleText(c.scale) + ("~" + w) + ".png";
    }
    assert before + Render(c.(idiom := None)) + after == head + tail by {
      assert Render(c.(idiom := None)) == KindName(c.kind) + SizeText(c.size) + ScaleText(c.scale) + ".png";
    }
    NoTildeBeforeIdiom(c);
    assert '~' !in head;
    StripAfterTilde(head, w, tail);
  }

  /** A rendered name on its own loses exactly its idiom group. */
  lemma StripIdiomOfRenderAlone(c: Captures)
    requires WellFormed(c) && c.idiom.Some?
    ensures StripIdiom(Render(c)) == Render(c.(idiom := None))
  {
    var head := KindName(c.kind) + SizeText(c.size) + ScaleText(c.scale);
    assert Render(c) == head + "~" + c.idiom.value + ".png";
    assert Render(c.(idiom := None)) == head + ".png";
    NoTildeBeforeIdiom(c);
    StripAfterTilde(head, c.idiom.value, ".png");
  }

  /** The kind, size and scale groups hold no `~`. */
  lemma NoTildeBeforeIdiom(c: Captures)
    requires WellFormed(c)
    ensures '~' !in KindName(c.kind) + SizeText(c.size) + ScaleText(c.scale)
  {
    if c.size.Some? {
      var z := c.size.value;
      assert forall m :: 0 <= m < |z.width| ==> InClass(z.width[m], Digits);
      assert forall m :: 0 <= m < |z.height| ==> InClass(z.height[m], Digits);
      assert '~' !in z.width && '~' !in z.height;
    }
  }

  /** With no `~` before it, the first `~word` followed by a non-word character is the one removed. */
  lemma StripAfterTilde(head: string, w: string, tail: string)
    requires '~' !in head
    requires |w| > 0 && AllIn(w, WordChars)
    requires |tail| > 0 && !IsWordChar(tail[0])
    ensures StripIdiom(head + "~" + w + tail) == head + tail
  {
    var s := head + "~" + w + tail;
    var k := |head|;
    var e := k + 1 + |w|;
    assert s[k] == '~' && s[k + 1] == w[0] && InClass(w[0], WordChars);
    forall j | 0 <= j < k ensures !IdiomAt(s, j) {
      assert s[j] == head[j];
    }
    FirstIdiomIs(s, 0, k);
    forall m | k + 1 <= m < e ensures InClass(s[m], WordChars) {
      assert s[m] == w[m - k - 1];
    }
    assert s[e] == tail[0];
    RunEndAt(s, k + 1, e, WordChars);
    assert s[..k] == head;
    assert s[e..] == tail;
  }

  /** The search for the first occurrence finds the least index that has one. */
  lemma {:induction false} FirstIdiomIs(s: string, from: nat, k: nat)
    requires from <= k < |s| && IdiomAt(s, k)
    requires forall j :: from <= j < k ==> !IdiomAt(s, j)
    ensures FirstIdiom(s, from) == Some(k)
    decreases k - from
  {
    if from < k {
      FirstIdiomIs(s, from + 1, k);
    }
  }

  /** A launch image's manifest entry: the stripped file name, `universal`, and the parsed scale. */
  function LaunchEntry(d: ImageDescriptor): Json {
    JObject([ Member("filename", JString(StripIdiom(d.filename))),
              Member("idiom", JString("universal")),
              Member("scale", JString(d.scale)) ])
  }

  lemma LaunchEntryFields(d: ImageDescriptor)
    ensures Keys(LaunchEntry(d).members) == ["filename", "idiom", "scale"]
    ensures Field(LaunchEntry(d), "filename") == Some(JString(StripIdiom(d.filename)))
    ensures Field(LaunchEntry(d), "idiom") == Some(JString("universal"))
    ensures Field(LaunchEntry(d), "scale") == Some(JString(d.scale))
  {
    var ms := LaunchEntry(d).members;
    assert Field(LaunchEntry(d), "filename") == Some(JString(StripIdiom(d.filename))) by { LookupKeyAt(ms, 0); }
    assert Field(LaunchEntry(d), "idiom") == Some(JString("universal")) by { LookupKeyAt(ms, 1); }
    assert Field(LaunchEntry(d), "scale") == Some(JString(d.scale)) by { LookupKeyAt(ms, 2); }
  }

  const LaunchInfo := JObject([Member("author", JString("xcode")), Member("version", JNumber(1))])

  /** `createLaunchImageContentsJson`: `{images: images.map(entry), info: {author, version}}`. */
  function LaunchImageContents(images: seq<ImageDescriptor>): Json {
    JObject([ Member("images", JArray(seq(|images|, i requires 0 <= i < |images| => LaunchEntry(images[i])))),
              Member("info", LaunchInfo) ])
  }

  /**
   * The launch manifest has one entry per image, in order; each names the
   * file without its first `~word`, says `universal` whatever idiom was
   * parsed, and keeps the scale; `info` is author `xcode`, version 1.
   */
  lemma LaunchImageContentsEntries(images: seq<ImageDescriptor>)
    ensures Keys(LaunchImageContents(images).members) == ["images", "info"]
    ensures Field(LaunchImageContents(images), "info") == Some(LaunchInfo)
    ensures Field(LaunchInfo, "author") == Some(JString("xcode")) && Field(LaunchInfo, "version") == Some(JNumber(1))
    ensures Field(LaunchImageContents(images), "images").Some?
    ensures var entries := Field(LaunchImageContents(images), "images").value;
      entries.JArray? && |entries.items| == |images| &&
      forall i :: 0 <= i < |images| ==>
        Keys(entries.items[i].members) == ["filename", "idiom", "scale"] &&
        Field(entries.items[i], "filename") == Some(JString(StripIdiom(images[i].filename))) &&
        Field(entries.items[i], "idiom") == Some(JString("universal")) &&
        Field(entries.items[i], "scale") == Some(JString(images[i].scale))
  {
    var entries := Field(LaunchImageContents(images), "images").value;
    forall i | 0 <= i < |images|
      ensures Keys(entries.items[i].members) == ["filename", "idiom", "scale"]
      ensures Field(entries.items[i], "filename") == Some(JString(StripIdiom(images[i].filename)))
      ensures Field(entries.items[i], "idiom") == Some(JString("universal"))
      ensures Field(entries.items[i], "scale") == Some(JString(images[i].scale))
    {
      assert entries.items[i] == LaunchEntry(images[i]);
      LaunchEntryFields(images[i]);
    }
    LookupKeyAt(LaunchImageContents(images).members, 0);
    LookupKeyAt(LaunchImageContents(images).members, 1);
    LookupKeyAt(LaunchInfo.members, 0);
    LookupKeyAt(LaunchInfo.members, 1);
  }
}
