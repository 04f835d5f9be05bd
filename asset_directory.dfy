/**
 * `createAssetDirectory`: sort the parsed names of a listing into app icons
 * and launch images, then make the output folder, and for each non-empty
 * set its folder, its `Contents.json` and one copy per image. The file
 * system is a map from path to contents plus a set of folders; every call
 * that can throw is a step that can fail, and the first failure ends the
 * run with the effects of the steps before it.
 */
module AssetDirectory {
  import opened Options
  import opened Text
  import opened ImageName
  import opened Manifest

  // ---------------------------------------------------------------------
  // Sorting the listing.
  // ---------------------------------------------------------------------

  /** `baseName.toLowerCase().includes('appicon')` */
  predicate IsIconSet(d: ImageDescriptor) {
    Includes(Lower(d.baseName), "appicon")
  }

  /** `baseName.toLowerCase().includes('launchimage')` */
  predicate IsLaunchSet(d: ImageDescriptor) {
    Includes(Lower(d.baseName), "launchimage")
  }

  /** The descriptor a listed name contributes, given what it parsed to. */
  function ParsedOf(metadata: Option<ImageDescriptor>): seq<ImageDescriptor> {
    match metadata
    case None => []
    case Some(d) => [d]
  }

  /** What one listed name adds to the icon list, given what it parsed to. */
  function IconOf(metadata: Option<ImageDescriptor>): seq<ImageDescriptor> {
    match metadata
    case None => []
    case Some(d) => if IsIconSet(d) then [d] else []
  }

  /** What one listed name adds to the launch-image list: the `else if` branch. */
  function LaunchOf(metadata: Option<ImageDescriptor>): seq<ImageDescriptor> {
    match metadata
    case None => []
    case Some(d) => if !IsIconSet(d) && IsLaunchSet(d) then [d] else []
  }

  /** A parse result names an icon or a launch image, when there is one. */
  predicate Kinded(metadata: Option<ImageDescriptor>) {
    metadata.Some? ==> metadata.value.baseName == "AppIcon" || metadata.value.baseName == "LaunchImage"
  }

  function Parsed(files: seq<string>): seq<ImageDescriptor> {
    if files == [] then [] else Parsed(files[..|files| - 1]) + ParsedOf(ParseImageName(files[|files| - 1]))
  }

  /** `appIcons` after the loop has seen `files`. */
  function Icons(files: seq<string>): seq<ImageDescriptor> {
    if files == [] then [] else Icons(files[..|files| - 1]) + IconOf(ParseImageName(files[|files| - 1]))
  }

  /** `launchImages` after the loop has seen `files`. */
  function LaunchImages(files: seq<string>): seq<ImageDescriptor> {
    if files == [] then [] else LaunchImages(files[..|files| - 1]) + LaunchOf(ParseImageName(files[|files| - 1]))
  }

  /** The classification loop: skip names that do not parse, push the rest onto their list. */
  method Classify(files: seq<string>) returns (appIcons: seq<ImageDescriptor>, launchImages: seq<ImageDescriptor>)
    ensures appIcons == Icons(files) && launchImages == LaunchImages(files)
  {
    appIcons, launchImages := [], [];
    var k := 0;
    while k < |files|
      invariant 0 <= k <= |files|
      invariant appIcons == Icons(files[..k]) && launchImages == LaunchImages(files[..k])
    {
      ClassifyStep(files, k);
      var metadata := ParseImageName(files[k]);
      if metadata.Some? {
        var baseName := metadata.value.baseName;
        if Includes(Lower(baseName), "appicon") {
          appIcons := appIcons + [metadata.value];
        } else if Includes(Lower(baseName), "launchimage") {
          launchImages := launchImages + [metadata.value];
        }
      }
      k := k + 1;
    }
    assert files[..k] == files;
  }

  /** The descriptors with the given base name, in their order. */
  function Only(ds: seq<ImageDescriptor>, base: string): (r: seq<ImageDescriptor>)
    ensures |r| <= |ds|
    ensures forall i :: 0 <= i < |r| ==> r[i].baseName == base
  {
    if ds == [] then []
    else Only(ds[..|ds| - 1], base) + (if ds[|ds| - 1].baseName == base then [ds[|ds| - 1]] else [])
  }

  lemma {:induction false} OnlyAppend(a: seq<ImageDescriptor>, b: seq<ImageDescriptor>, base: string)
    ensures Only(a + b, base) == Only(a, base) + Only(b, base)
    decreases |b|
  {
    if b == [] {
      assert a + b == a;
    } else {
      var b' := b[..|b| - 1];
      assert (a + b)[..|a + b| - 1] == a + b';
      var x := b[|b| - 1];
      assert (a + b)[|a + b| - 1] == x;
      assert b[..|b| - 1] == b';
      OnlyAppend(a, b', base);
      assert Only(a + b, base) == Only(a + b', base) + (if x.baseName == base then [x] else []);
      assert Only(b, base) == Only(b', base) + (if x.baseName == base then [x] else []);
    }
  }

  /** The two tests tell the base names apart: each holds of one name only. */
  lemma KindTests()
    ensures Includes(Lower("AppIcon"), "appicon") && !Includes(Lower("AppIcon"), "launchimage")
    ensures !Includes(Lower("LaunchImage"), "appicon") && Includes(Lower("LaunchImage"), "launchimage")
  {
    LowerKinds();
    IncludesItself("appicon");
    IncludesItself("launchimage");
    AppIconLacksLaunch();
    LaunchLacksAppIcon();
  }

  lemma LowerKinds()
    ensures Lower("AppIcon") == "appicon" && Lower("LaunchImage") == "launchimage"
  {
  }

  lemma IncludesItself(s: string)
    ensures Includes(s, s)
  {
    PrefixAtSlice(s, 0, s);
  }

  lemma AppIconLacksLaunch()
    ensures !Includes("appicon", "launchimage")
  {
    forall j: nat | j <= 7 ensures !PrefixAt("appicon", j, "launchimage") {
      PrefixAtSlice("appicon", j, "launchimage");
    }
    NotIncludedFrom("appicon", "launchimage", 0);
  }

  lemma LaunchLacksAppIcon()
    ensures !Includes("launchimage", "appicon")
  {
    var s := "launchimage";
    forall j: nat | j <= 11 ensures !PrefixAt(s, j, "appicon") {
      PrefixAtFirstTwo(s, j, "appicon");
    }
    NotIncludedFrom(s, "appicon", 0);
  }

  lemma PrefixAtFirstTwo(s: string, j: nat, t: string)
    requires |t| >= 2
    ensures PrefixAt(s, j, t) ==> j + |t| <= |s| && s[j] == t[0] && s[j + 1] == t[1]
  {
    PrefixAtSlice(s, j, t);
    if PrefixAt(s, j, t) {
      assert s[j..j + |t|][1] == s[j + 1];
    }
  }

  lemma {:induction false} NotIncludedFrom(s: string, t: string, i: nat)
    requires i <= |s|
    requires forall j: nat :: i <= j <= |s| ==> !PrefixAt(s, j, t)
    ensures !IncludesFrom(s, t, i)
    decreases |s| - i
  {
    if i < |s| {
      NotIncludedFrom(s, t, i + 1);
    }
  }

  /** A parsed name is an icon or a launch image, and keeps its whole name. */
  lemma KindOf(name: string, d: ImageDescriptor)
    requires ParseImageName(name) == Some(d)
    ensures d.baseName == "AppIcon" || d.baseName == "LaunchImage"
    ensures d.filename == name
  {
    ParsedFieldShapes(name, d);
  }

  lemma ParseKinded(name: string)
    ensures Kinded(ParseImageName(name))
  {
    if ParseImageName(name).Some? {
      KindOf(name, ParseImageName(name).value);
    }
  }

  /** On the two base names a parse can give, the tests are exactly "is an icon" and "is a launch image". */
  lemma SetTests(d: ImageDescriptor)
    requires d.baseName == "AppIcon" || d.baseName == "LaunchImage"
    ensures IsIconSet(d) <==> d.baseName == "AppIcon"
    ensures IsLaunchSet(d) <==> d.baseName == "LaunchImage"
  {
    KindTests();
  }

  /** One listed name: a parsed icon goes to the icons, a parsed launch image to the launch images. */
  lemma SortOne(metadata: Option<ImageDescriptor>)
    requires Kinded(metadata)
    ensures IconOf(metadata) == Only(ParsedOf(metadata), "AppIcon")
    ensures LaunchOf(metadata) == Only(ParsedOf(metadata), "LaunchImage")
  {
    if metadata.Some? {
      var d := metadata.value;
      SetTests(d);
      assert [d][..0] == [];
      assert Only([d], "AppIcon") == (if d.baseName == "AppIcon" then [d] else []);
      assert Only([d], "LaunchImage") == (if d.baseName == "LaunchImage" then [d] else []);
    }
  }

  /** The loop's lists grow by what the next name adds. */
  lemma ClassifyStep(files: seq<string>, k: nat)
    requires k < |files|
    ensures Icons(files[..k + 1]) == Icons(files[..k]) + IconOf(ParseImageName(files[k]))
    ensures LaunchImages(files[..k + 1]) == LaunchImages(files[..k]) + LaunchOf(ParseImageName(files[k]))
  {
    assert files[..k + 1][..k] == files[..k];
  }

  /**
   * Every name that parses goes to exactly one of the two lists, names
   * that do not parse go to neither, and each list keeps the order of the
   * listing: the icons are the parsed `AppIcon` names, the launch images
   * the parsed `LaunchImage` names.
   */
  lemma ClassifyPartition(files: seq<string>)
    ensures Icons(files) == Only(Parsed(files), "AppIcon")
    ensures LaunchImages(files) == Only(Parsed(files), "LaunchImage")
    ensures multiset(Icons(files)) + multiset(LaunchImages(files)) == multiset(Parsed(files))
  {
    ClassifyOrder(files);
    ParsedKinds(files);
    OnlySplit(Parsed(files), "AppIcon", "LaunchImage");
  }

  lemma {:induction false} ClassifyOrder(files: seq<string>)
    ensures Icons(files) == Only(Parsed(files), "AppIcon")
    ensures LaunchImages(files) == Only(Parsed(files), "LaunchImage")
  {
    if files != [] {
      var init, last := files[..|files| - 1], files[|files| - 1];
      ClassifyOrder(init);
      var p := ParseImageName(last);
      ParseKinded(last);
      SortOne(p);
      OnlyAppend(Parsed(init), ParsedOf(p), "AppIcon");
      OnlyAppend(Parsed(init), ParsedOf(p), "LaunchImage");
    }
  }

  /** Whatever parses is an icon or a launch image. */
  lemma {:induction false} ParsedKinds(files: seq<string>)
    ensures forall i :: 0 <= i < |Parsed(files)| ==>
      Parsed(files)[i].baseName == "AppIcon" || Parsed(files)[i].baseName == "LaunchImage"
  {
    if files != [] {
      var init, last := files[..|files| - 1], files[|files| - 1];
      ParsedKinds(init);
      var p := ParseImageName(last);
      if p.Some? {
        KindOf(last, p.value);
      }
    }
  }

  /** Descriptors each carrying one of two distinct base names split between the two filters. */
  lemma {:induction false} OnlySplit(ds: seq<ImageDescriptor>, a: string, b: string)
    requires a != b
    requires forall i :: 0 <= i < |ds| ==> ds[i].baseName == a || ds[i].baseName == b
    ensures multiset(Only(ds, a)) + multiset(Only(ds, b)) == multiset(ds)
  {
    if ds != [] {
      var init, x := ds[..|ds| - 1], ds[|ds| - 1];
      OnlySplit(init, a, b);
      assert ds == init + [x];
    }
  }

  function Names(ds: seq<ImageDescriptor>): (r: seq<string>)
    ensures |r| == |ds| && forall i :: 0 <= i < |ds| ==> r[i] == ds[i].filename
  {
    seq(|ds|, i requires 0 <= i < |ds| => ds[i].filename)
  }

  /** The listed names that parse, in listing order. */
  function Parsable(files: seq<string>): seq<string> {
    if files == [] then []
    else Parsable(files[..|files| - 1]) + (if ParseImageName(files[|files| - 1]).Some? then [files[|files| - 1]] else [])
  }

  lemma NamesAppend(a: seq<ImageDescriptor>, b: seq<ImageDescriptor>)
    ensures Names(a + b) == Names(a) + Names(b)
  {
    assert |Names(a + b)| == |Names(a) + Names(b)|;
    forall i | 0 <= i < |a + b| ensures Names(a + b)[i] == (Names(a) + Names(b))[i] {
      if i < |a| { assert (a + b)[i] == a[i]; } else { assert (a + b)[i] == b[i - |a|]; }
    }
  }

  /** One listed name contributes its own name exactly when it parses. */
  lemma OneParsedName(name: string)
    ensures Names(ParsedOf(ParseImageName(name))) == if ParseImageName(name).Some? then [name] else []
  {
    var p := ParseImageName(name);
    if p.Some? {
      KindOf(name, p.value);
    }
  }

  /** The parsed descriptors are those of the parsable names, in listing order. */
  lemma {:induction false} ParsedNames(files: seq<string>)
    ensures Names(Parsed(files)) == Parsable(files)
  {
    if files != [] {
      var init, last := files[..|files| - 1], files[|files| - 1];
      ParsedNames(init);
      OneParsedName(last);
      NamesAppend(Parsed(init), ParsedOf(ParseImageName(last)));
    }
  }

  // ---------------------------------------------------------------------
  // The file system and the steps the function takes on it.
  // ---------------------------------------------------------------------

  datatype FileData = Image(bytes: seq<bv8>) | Contents(manifest: Json)

  datatype Disk = Disk(files: map<string, FileData>, dirs: set<string>)

  /** `fs.existsSync(path)`: a file or a folder. */
  predicate Exists(d: Disk, path: string) {
    path in d.files || path in d.dirs
  }

  /** `path.join(dir, name)`, without normalisation. */
  function Join(dir: string, name: string): string {
    dir + "/" + name
  }

  const IconSetName := "AppIcon.appiconset"
  const LaunchSetName := "LaunchImage.imageset"
  const ContentsName := "Contents.json"

  function IconSetDir(outputDir: string): string {
    Join(outputDir, IconSetName)
  }

  function LaunchSetDir(outputDir: string): string {
    Join(outputDir, LaunchSetName)
  }

  /**
   * `MakeDir` is `existsSync` then `mkdirSync(…, {recursive: true})`;
   * `WriteJson` is `writeFileSync` of `dir/name`; `Copy` is
   * `copyFileSync(src, dir/name)`.
   */
  datatype Op =
    | MakeDir(path: string)
    | WriteJson(dir: string, name: string, json: Json)
    | Copy(src: string, destDir: string, destName: string)

  /** The path an operation creates or overwrites. */
  function Target(op: Op): string {
    match op
    case MakeDir(p) => p
    case WriteJson(dir, name, _) => Join(dir, name)
    case Copy(_, dir, name) => Join(dir, name)
  }

  datatype Outcome = Outcome(disk: Disk, ok: bool)

  /**
   * One call. A folder that already exists, or a file in its place, is
   * left alone. A write fails when its folder is missing or its path is a
   * folder; a copy fails in the same cases and when its source is not a
   * file.
   */
  function Step(d: Disk, op: Op): (o: Outcome)
    ensures o.ok ==> Exists(o.disk, Target(op))
    ensures !o.ok ==> o.disk == d
  {
    match op
    case MakeDir(p) =>
      if Exists(d, p) then Outcome(d, true) else Outcome(d.(dirs := d.dirs + {p}), true)
    case WriteJson(dir, name, json) =>
      if dir !in d.dirs || Join(dir, name) in d.dirs then Outcome(d, false)
      else Outcome(d.(files := d.files[Join(dir, name) := Contents(json)]), true)
    case Copy(src, dir, name) =>
      if src !in d.files || dir !in d.dirs || Join(dir, name) in d.dirs then Outcome(d, false)
      else Outcome(d.(files := d.files[Join(dir, name) := d.files[src]]), true)
  }

  /** The steps in order; the first one that throws ends the run. */
  function Run(d: Disk, ops: seq<Op>): Outcome
    decreases |ops|
  {
    if ops == [] then Outcome(d, true)
    else
      var o := Step(d, ops[0]);
      if !o.ok then o else Run(o.disk, ops[1..])
  }

  lemma RunOne(d: Disk, op: Op)
    ensures Run(d, [op]) == Step(d, op)
  {
    assert [op][1..] == [];
  }

  /** Carry on with `ops` after `o`, unless `o` already failed. */
  function Then(o: Outcome, ops: seq<Op>): Outcome {
    if o.ok then Run(o.disk, ops) else o
  }

  /** Running two lists of steps is running the first, then (if it succeeded) the second. */
  lemma {:induction false} RunConcat(d: Disk, a: seq<Op>, b: seq<Op>)
    ensures Run(d, a + b) == Then(Run(d, a), b)
    decreases |a|
  {
    if a == [] {
      assert a + b == b;
    } else {
      assert (a + b)[0] == a[0] && (a + b)[1..] == a[1..] + b;
      var o := Step(d, a[0]);
      if o.ok {
        RunConcat(o.disk, a[1..], b);
      }
    }
  }

  /** No step deletes anything. */
  lemma {:induction false} RunKeeps(d: Disk, ops: seq<Op>)
    ensures d.dirs <= Run(d, ops).disk.dirs
    ensures d.files.Keys <= Run(d, ops).disk.files.Keys
    decreases |ops|
  {
    if ops != [] && Step(d, ops[0]).ok {
      RunKeeps(Step(d, ops[0]).disk, ops[1..]);
    }
  }

  /** A path no step targets keeps what it was: absent, a folder, or a file with the same contents. */
  lemma {:induction false} RunUntouched(d: Disk, ops: seq<Op>, p: string)
    requires forall i :: 0 <= i < |ops| ==> Target(ops[i]) != p
    ensures p in Run(d, ops).disk.dirs <==> p in d.dirs
    ensures p in Run(d, ops).disk.files <==> p in d.files
    ensures p in d.files ==> Run(d, ops).disk.files[p] == d.files[p]
    decreases |ops|
  {
    if ops != [] && Step(d, ops[0]).ok {
      RunUntouched(Step(d, ops[0]).disk, ops[1..], p);
    }
  }

  /** After a successful run every target exists; what a write or a copy targets is a file. */
  lemma {:induction false} RunTargets(d: Disk, ops: seq<Op>)
    requires Run(d, ops).ok
    ensures forall i :: 0 <= i < |ops| ==> Exists(Run(d, ops).disk, Target(ops[i]))
    ensures forall i :: 0 <= i < |ops| && !ops[i].MakeDir? ==> Target(ops[i]) in Run(d, ops).disk.files
    decreases |ops|
  {
    if ops != [] {
      var o := Step(d, ops[0]);
      RunTargets(o.disk, ops[1..]);
      RunKeeps(o.disk, ops[1..]);
      forall i | 1 <= i < |ops|
        ensures Exists(Run(d, ops).disk, Target(ops[i]))
        ensures !ops[i].MakeDir? ==> Target(ops[i]) in Run(d, ops).disk.files
      {
        assert ops[1..][i - 1] == ops[i];
      }
    }
  }

  /**
   * A failed run failed at one step: the steps before it all succeeded and
   * the disk is what they left.
   */
  lemma {:induction false} RunStops(d: Disk, ops: seq<Op>) returns (k: nat)
    requires !Run(d, ops).ok
    ensures k < |ops| && Run(d, ops[..k]).ok
    ensures !Step(Run(d, ops[..k]).disk, ops[k]).ok
    ensures Run(d, ops) == Outcome(Run(d, ops[..k]).disk, false)
    decreases |ops|
  {
    var o := Step(d, ops[0]);
    if !o.ok {
      k := 0;
    } else {
      var k' := RunStops(o.disk, ops[1..]);
      k := k' + 1;
      assert ops[..k][0] == ops[0] && ops[..k][1..] == ops[1..][..k'];
      assert ops[k] == ops[1..][k'];
    }
  }

  /**
   * In a run of copies whose sources no copy overwrites, the file a copy
   * writes ends up holding the source of the last copy to that path.
   */
  lemma {:induction false} CopiesLastWins(d: Disk, ops: seq<Op>, j: nat)
    requires forall i :: 0 <= i < |ops| ==> ops[i].Copy?
    requires Run(d, ops).ok && j < |ops|
    requires forall i :: 0 <= i < |ops| ==> Target(ops[i]) != ops[j].src
    requires forall i :: j < i < |ops| ==> Target(ops[i]) != Target(ops[j])
    ensures Target(ops[j]) in Run(d, ops).disk.files && ops[j].src in d.files
    ensures Run(d, ops).disk.files[Target(ops[j])] == d.files[ops[j].src]
  {
    var pre, rest := ops[..j], ops[j + 1..];
    assert ops == pre + [ops[j]] + rest;
    RunConcat(d, pre + [ops[j]], rest);
    RunConcat(d, pre, [ops[j]]);
    var o := Run(d, pre);
    RunOne(o.disk, ops[j]);
    assert o.ok;
    RunUntouched(d, pre, ops[j].src);
    var o' := Step(o.disk, ops[j]);
    assert o'.ok;
    forall i | 0 <= i < |rest| ensures Target(rest[i]) != Target(ops[j]) {
      assert rest[i] == ops[j + 1 + i];
    }
    RunUntouched(o'.disk, rest, Target(ops[j]));
  }

  // ---------------------------------------------------------------------
  // The plan `createAssetDirectory` carries out.
  // ---------------------------------------------------------------------

  /** `${expectedSize}.png`: no marketing rewrite here. */
  function IconDestination(d: ImageDescriptor): string {
    d.expectedSize + ".png"
  }

  /** `filename.replace(/~\w+/, '')` */
  function LaunchDestination(d: ImageDescriptor): string {
    StripIdiom(d.filename)
  }

  function IconCopies(inputDir: string, setDir: string, icons: seq<ImageDescriptor>): (ops: seq<Op>)
    ensures |ops| == |icons|
    ensures forall i :: 0 <= i < |icons| ==> ops[i] == Copy(Join(inputDir, icons[i].filename), setDir, IconDestination(icons[i]))
  {
    seq(|icons|, i requires 0 <= i < |icons| => Copy(Join(inputDir, icons[i].filename), setDir, IconDestination(icons[i])))
  }

  function LaunchCopies(inputDir: string, setDir: string, images: seq<ImageDescriptor>): (ops: seq<Op>)
    ensures |ops| == |images|
    ensures forall i :: 0 <= i < |images| ==> ops[i] == Copy(Join(inputDir, images[i].filename), setDir, LaunchDestination(images[i]))
  {
    seq(|images|, i requires 0 <= i < |images| => Copy(Join(inputDir, images[i].filename), setDir, LaunchDestination(images[i])))
  }

  /** One set: its folder, its manifest, its copies. */
  function SetOps(setDir: string, manifest: Json, copies: seq<Op>): seq<Op> {
    [MakeDir(setDir), WriteJson(setDir, ContentsName, manifest)] + copies
  }

  function IconOps(inputDir: string, outputDir: string, icons: seq<ImageDescriptor>): seq<Op> {
    if |icons| == 0 then []
    else SetOps(IconSetDir(outputDir), AppIconContents(icons), IconCopies(inputDir, IconSetDir(outputDir), icons))
  }

  function LaunchOps(inputDir: string, outputDir: string, images: seq<ImageDescriptor>): seq<Op> {
    if |images| == 0 then []
    else SetOps(LaunchSetDir(outputDir), LaunchImageContents(images), LaunchCopies(inputDir, LaunchSetDir(outputDir), images))
  }

  /** The output folder, then the icon set, then the launch set. */
  function Steps(inputDir: string, outputDir: string, icons: seq<ImageDescriptor>, images: seq<ImageDescriptor>): seq<Op> {
    [MakeDir(outputDir)] + IconOps(inputDir, outputDir, icons) + LaunchOps(inputDir, outputDir, images)
  }

  function Plan(inputDir: string, outputDir: string, files: seq<string>): seq<Op> {
    Steps(inputDir, outputDir, Icons(files), LaunchImages(files))
  }

  /**
   * `createAssetDirectory(inputDir, outputDir)` on `disk`, where `files` is
   * what `readdirSync(inputDir)` lists; reading a folder that is not there
   * throws before anything is written.
   */
  function Build(disk: Disk, inputDir: string, outputDir: string, files: seq<string>): Outcome {
    if inputDir !in disk.dirs then Outcome(disk, false)
    else Run(disk, Plan(inputDir, outputDir, files))
  }

  class FileSystem {
    var files: map<string, FileData>
    var dirs: set<string>

    function State(): Disk
      reads this
    {
      Disk(files, dirs)
    }

    constructor (disk: Disk)
      ensures State() == disk
    {
      files := disk.files;
      dirs := disk.dirs;
    }

    /** `if (!fs.existsSync(path)) fs.mkdirSync(path, {recursive: true})` */
    method MakeDirectory(path: string)
      modifies this
      ensures Outcome(State(), true) == Step(old(State()), MakeDir(path))
    {
      if !(path in files || path in dirs) {
        dirs := dirs + {path};
      }
    }

    /** `fs.writeFileSync(path.join(dir, name), JSON.stringify(json))`; `false` where it throws. */
    method WriteFile(dir: string, name: string, json: Json) returns (ok: bool)
      modifies this
      ensures Outcome(State(), ok) == Step(old(State()), Op.WriteJson(dir, name, json))
    {
      var path := Join(dir, name);
      if dir !in dirs || path in dirs {
        return false;
      }
      files := files[path := Contents(json)];
      ok := true;
    }

    /** `fs.copyFileSync(src, path.join(dir, name))`; `false` where it throws. */
    method CopyFile(src: string, dir: string, name: string) returns (ok: bool)
      modifies this
      ensures Outcome(State(), ok) == Step(old(State()), Copy(src, dir, name))
    {
      var dest := Join(dir, name);
      if src !in files || dir !in dirs || dest in dirs {
        return false;
      }
      files := files[dest := files[src]];
      ok := true;
    }

    /** The copy loop of one set. */
    method CopyAll(copies: seq<Op>) returns (ok: bool)
      requires forall i :: 0 <= i < |copies| ==> copies[i].Copy?
      modifies this
      ensures Outcome(State(), ok) == Run(old(State()), copies)
    {
      ghost var start := State();
      var k := 0;
      while k < |copies|
        invariant 0 <= k <= |copies|
        invariant Outcome(State(), true) == Run(start, copies[..k])
      {
        var op := copies[k];
        ghost var before := State();
        ok := CopyFile(op.src, op.destDir, op.destName);
        RunConcat(start, copies[..k], [op]);
        RunOne(before, op);
        assert copies[..k + 1] == copies[..k] + [op];
        if !ok {
          RunConcat(start, copies[..k + 1], copies[k + 1..]);
          assert copies == copies[..k + 1] + copies[k + 1..];
          return;
        }
        k := k + 1;
      }
      assert copies[..k] == copies;
      ok := true;
    }

    /** One set: make its folder if missing, write its manifest, copy its images. */
    method InstallSet(setDir: string, manifest: Json, copies: seq<Op>) returns (ok: bool)
      requires forall i :: 0 <= i < |copies| ==> copies[i].Copy?
      modifies this
      ensures Outcome(State(), ok) == Run(old(State()), SetOps(setDir, manifest, copies))
    {
      ghost var start := State();
      ghost var head := [MakeDir(setDir), Op.WriteJson(setDir, ContentsName, manifest)];
      RunConcat(start, head, copies);
      MakeDirectory(setDir);
      ok := WriteFile(setDir, ContentsName, manifest);
      if !ok {
        return;
      }
      ok := CopyAll(copies);
    }

    /** `createAssetDirectory(inputDir, outputDir)`, with `listing` the names `readdirSync` returns. */
    method CreateAssetDirectory(inputDir: string, outputDir: string, listing: seq<string>) returns (ok: bool)
      modifies this
      ensures Outcome(State(), ok) == Build(old(State()), inputDir, outputDir, listing)
    {
      if inputDir !in dirs {
        return false;
      }
      var appIcons, launchImages := Classify(listing);
      ghost var start := State();
      var iconOps := IconOps(inputDir, outputDir, appIcons);
      var launchOps := LaunchOps(inputDir, outputDir, launchImages);
      PlanRun(start, outputDir, iconOps, launchOps);
      MakeDirectory(outputDir);
      if |appIcons| > 0 {
        var setDir := IconSetDir(outputDir);
        ok := InstallSet(setDir, AppIconContents(appIcons), IconCopies(inputDir, setDir, appIcons));
        if !ok {
          return;
        }
      }
      if |launchImages| > 0 {
        var setDir := LaunchSetDir(outputDir);
        ok := InstallSet(setDir, LaunchImageContents(launchImages), LaunchCopies(inputDir, setDir, launchImages));
        if !ok {
          return;
        }
      }
      ok := true;
    }
  }

  /** The plan runs as its three parts in turn. */
  lemma PlanRun(d: Disk, outputDir: string, iconOps: seq<Op>, launchOps: seq<Op>)
    ensures Run(d, [MakeDir(outputDir)] + iconOps + launchOps)
         == Then(Then(Step(d, MakeDir(outputDir)), iconOps), launchOps)
  {
    RunConcat(d, [MakeDir(outputDir)] + iconOps, launchOps);
    RunConcat(d, [MakeDir(outputDir)], iconOps);
  }

  // ---------------------------------------------------------------------
  // Where things land.
  // ---------------------------------------------------------------------

  /** `p` lies on the side of `outputDir` whose entry starts with `ch`. */
  predicate OnSide(outputDir: string, p: string, ch: char) {
    |p| > |outputDir| + 1 && p[|outputDir| + 1] == ch
  }

  /** The icon set and everything in it start with `A`; the launch set and everything in it with `L`. */
  lemma Sides(outputDir: string, name: string)
    ensures OnSide(outputDir, IconSetDir(outputDir), 'A') && OnSide(outputDir, Join(IconSetDir(outputDir), name), 'A')
    ensures OnSide(outputDir, LaunchSetDir(outputDir), 'L') && OnSide(outputDir, Join(LaunchSetDir(outputDir), name), 'L')
  {
    assert IconSetDir(outputDir) == outputDir + "/" + IconSetName;
    assert LaunchSetDir(outputDir) == outputDir + "/" + LaunchSetName;
    assert Join(IconSetDir(outputDir), name) == outputDir + "/" + (IconSetName + "/" + name);
    assert Join(LaunchSetDir(outputDir), name) == outputDir + "/" + (LaunchSetName + "/" + name);
  }

  lemma JoinInjective(dir: string, a: string, b: string)
    ensures Join(dir, a) == Join(dir, b) ==> a == b
  {
    if Join(dir, a) == Join(dir, b) {
      assert a == Join(dir, a)[|dir| + 1..];
    }
  }

  /** Every descriptor in `ds` is what its own file name parses to. */
  predicate SelfParsed(ds: seq<ImageDescriptor>) {
    forall i :: 0 <= i < |ds| ==> ParseImageName(ds[i].filename) == Some(ds[i])
  }

  lemma SelfParsedAppend(a: seq<ImageDescriptor>, b: seq<ImageDescriptor>)
    requires SelfParsed(a) && SelfParsed(b)
    ensures SelfParsed(a + b)
  {
    forall i | 0 <= i < |a + b| ensures ParseImageName((a + b)[i].filename) == Some((a + b)[i]) {
      if i < |a| { assert (a + b)[i] == a[i]; } else { assert (a + b)[i] == b[i - |a|]; }
    }
  }

  /** What one name adds to either list is the parse of that very name. */
  lemma OneSelfParsed(name: string)
    ensures SelfParsed(IconOf(ParseImageName(name))) && SelfParsed(LaunchOf(ParseImageName(name)))
  {
    var p := ParseImageName(name);
    if p.Some? {
      KindOf(name, p.value);
      assert SelfParsed([p.value]);
    }
  }

  lemma {:induction false} ListedParsed(files: seq<string>)
    ensures SelfParsed(Icons(files)) && SelfParsed(LaunchImages(files))
  {
    if files != [] {
      var init, last := files[..|files| - 1], files[|files| - 1];
      ListedParsed(init);
      OneSelfParsed(last);
      SelfParsedAppend(Icons(init), IconOf(ParseImageName(last)));
      SelfParsedAppend(LaunchImages(init), LaunchOf(ParseImageName(last)));
    }
  }

  /** An icon is never copied onto the manifest: `<expected-size>.png` is not `Contents.json`. */
  lemma IconDestinationNotManifest(d: ImageDescriptor)
    requires ParseImageName(d.filename) == Some(d)
    ensures IconDestination(d) != ContentsName
  {
    ParsedFieldShapes(d.filename, d);
    if d.expectedSize != "" {
      assert IsDigit(d.expectedSize[0]) by {
        assert InClass(d.expectedSize[0], Digits);
      }
      assert IconDestination(d)[0] == d.expectedSize[0];
    }
  }

  /** A character that neither follows a `~word` nor is part of one survives the strip. */
  lemma StripKeeps(s: string, q: nat)
    requires 0 < q < |s| && s[q] != '~' && s[q - 1] != '~' && !IsWordChar(s[q - 1])
    ensures s[q] in StripIdiom(s)
  {
    match FirstIdiom(s, 0)
    case None =>
    case Some(k) =>
      var e := RunEnd(s, k + 1, WordChars);
      var r := s[..k] + s[e..];
      assert !InClass(s[q - 1], WordChars);
      assert q < k || e <= q;
      if q < k {
        assert r[q] == s[q];
      } else {
        assert r[k + (q - e)] == s[q];
      }
  }

  /** A parsed name holds the pattern at some index. */
  lemma MatchOfParse(name: string, d: ImageDescriptor) returns (i: nat, c: Captures)
    requires ParseImageName(name) == Some(d)
    ensures MatchesAt(name, i, c)
  {
    i, c := ParsedFromLeftmostMatch(name, d);
  }

  /** Every match ends in `.png`. */
  lemma RenderEndsInPng(c: Captures)
    ensures |Render(c)| >= 4
    ensures Render(c)[|Render(c)| - 3] == 'p' && Render(c)[|Render(c)| - 4] == '.'
  {
    var front := KindName(c.kind) + SizeText(c.size) + ScaleText(c.scale) + IdiomText(c.idiom);
    assert Render(c) == front + ".png";
  }

  /** A launch image is never copied onto the manifest: the `p` of `.png` survives the strip. */
  lemma LaunchDestinationNotManifest(d: ImageDescriptor)
    requires ParseImageName(d.filename) == Some(d)
    ensures LaunchDestination(d) != ContentsName
  {
    var i, c := MatchOfParse(d.filename, d);
    MatchKeepsP(d.filename, i, c);
    assert 'p' !in ContentsName;
  }

  /** A name holding a match keeps a `p` after the strip. */
  lemma MatchKeepsP(name: string, i: nat, c: Captures)
    requires MatchesAt(name, i, c)
    ensures 'p' in StripIdiom(name)
  {
    var r := Render(c);
    RenderEndsInPng(c);
    PrefixAtChar(name, i, r, |r| - 3);
    PrefixAtChar(name, i, r, |r| - 4);
    var q := i + |r| - 3;
    assert name[q] == 'p' && name[q - 1] == '.';
    StripKeeps(name, q);
  }

  /** No icon of a listing is copied onto the manifest. */
  lemma IconsAvoidManifest(files: seq<string>)
    ensures forall i :: 0 <= i < |Icons(files)| ==> IconDestination(Icons(files)[i]) != ContentsName
  {
    ListedParsed(files);
    forall i | 0 <= i < |Icons(files)| ensures IconDestination(Icons(files)[i]) != ContentsName {
      IconDestinationNotManifest(Icons(files)[i]);
    }
  }

  /** No launch image of a listing is copied onto the manifest. */
  lemma LaunchImagesAvoidManifest(files: seq<string>)
    ensures forall i :: 0 <= i < |LaunchImages(files)| ==> LaunchDestination(LaunchImages(files)[i]) != ContentsName
  {
    ListedParsed(files);
    forall i | 0 <= i < |LaunchImages(files)| ensures LaunchDestination(LaunchImages(files)[i]) != ContentsName {
      LaunchDestinationNotManifest(LaunchImages(files)[i]);
    }
  }

  /** Every step of the launch part targets the launch set or something in it. */
  lemma LaunchTargetsSide(inputDir: string, outputDir: string, images: seq<ImageDescriptor>)
    ensures forall i :: 0 <= i < |LaunchOps(inputDir, outputDir, images)| ==>
      OnSide(outputDir, Target(LaunchOps(inputDir, outputDir, images)[i]), 'L')
  {
    var ops := LaunchOps(inputDir, outputDir, images);
    forall i | 0 <= i < |ops| ensures OnSide(outputDir, Target(ops[i]), 'L') {
      var setDir := LaunchSetDir(outputDir);
      Sides(outputDir, ContentsName);
      if i >= 2 {
        Sides(outputDir, LaunchDestination(images[i - 2]));
        assert ops[i] == LaunchCopies(inputDir, setDir, images)[i - 2];
      }
    }
  }

  /** Every step of the icon part targets the icon set or something in it. */
  lemma IconTargetsSide(inputDir: string, outputDir: string, icons: seq<ImageDescriptor>)
    ensures forall i :: 0 <= i < |IconOps(inputDir, outputDir, icons)| ==>
      OnSide(outputDir, Target(IconOps(inputDir, outputDir, icons)[i]), 'A')
  {
    var ops := IconOps(inputDir, outputDir, icons);
    forall i | 0 <= i < |ops| ensures OnSide(outputDir, Target(ops[i]), 'A') {
      var setDir := IconSetDir(outputDir);
      Sides(outputDir, ContentsName);
      if i >= 2 {
        Sides(outputDir, IconDestination(icons[i - 2]));
        assert ops[i] == IconCopies(inputDir, setDir, icons)[i - 2];
      }
    }
  }

  /** A successful run whose first step makes a folder ends with that path still there. */
  lemma MadeFirst(disk: Disk, ops: seq<Op>)
    requires |ops| > 0 && ops[0].MakeDir? && Run(disk, ops).ok
    ensures Exists(Run(disk, ops).disk, ops[0].path)
  {
    RunKeeps(Step(disk, ops[0]).disk, ops[1..]);
  }

  /** A manifest written by a successful run survives when no later step targets it. */
  lemma WrittenSurvives(disk: Disk, before: seq<Op>, setDir: string, manifest: Json, after: seq<Op>)
    requires Run(disk, before + [Op.WriteJson(setDir, ContentsName, manifest)] + after).ok
    requires forall i :: 0 <= i < |after| ==> Target(after[i]) != Join(setDir, ContentsName)
    ensures
      var fin := Run(disk, before + [Op.WriteJson(setDir, ContentsName, manifest)] + after).disk;
      setDir in fin.dirs && Join(setDir, ContentsName) in fin.files &&
      fin.files[Join(setDir, ContentsName)] == Contents(manifest)
  {
    var write := Op.WriteJson(setDir, ContentsName, manifest);
    RunConcat(disk, before + [write], after);
    RunConcat(disk, before, [write]);
    RunOne(Run(disk, before).disk, write);
    var mid := Run(disk, before + [write]);
    assert mid.ok && setDir in mid.disk.dirs;
    assert mid.disk.files[Join(setDir, ContentsName)] == Contents(manifest);
    RunUntouched(mid.disk, after, Join(setDir, ContentsName));
    RunKeeps(mid.disk, after);
  }

  /** After a successful run every copy in the middle has put a file at its destination. */
  lemma CopiesLand(disk: Disk, before: seq<Op>, copies: seq<Op>, after: seq<Op>)
    requires Run(disk, before + copies + after).ok
    requires forall i :: 0 <= i < |copies| ==> copies[i].Copy?
    ensures forall i :: 0 <= i < |copies| ==> Target(copies[i]) in Run(disk, before + copies + after).disk.files
  {
    RunConcat(disk, before + copies, after);
    RunConcat(disk, before, copies);
    var mid := Run(disk, before).disk;
    RunTargets(mid, copies);
    RunKeeps(Run(mid, copies).disk, after);
  }

  /** Past the icon manifest, the icon copies and the launch set never target that manifest. */
  lemma IconRestAvoids(inputDir: string, outputDir: string, icons: seq<ImageDescriptor>, images: seq<ImageDescriptor>)
    requires forall i :: 0 <= i < |icons| ==> IconDestination(icons[i]) != ContentsName
    ensures
      var rest := IconCopies(inputDir, IconSetDir(outputDir), icons) + LaunchOps(inputDir, outputDir, images);
      forall i :: 0 <= i < |rest| ==> Target(rest[i]) != Join(IconSetDir(outputDir), ContentsName)
  {
    var setDir := IconSetDir(outputDir);
    var copies := IconCopies(inputDir, setDir, icons);
    var launchOps := LaunchOps(inputDir, outputDir, images);
    var rest := copies + launchOps;
    Sides(outputDir, ContentsName);
    LaunchTargetsSide(inputDir, outputDir, images);
    forall i | 0 <= i < |rest| ensures Target(rest[i]) != Join(setDir, ContentsName) {
      if i < |copies| {
        JoinInjective(setDir, IconDestination(icons[i]), ContentsName);
      } else {
        assert rest[i] == launchOps[i - |copies|];
      }
    }
  }

  /** After the icon manifest is written, no later step lands on it. */
  lemma StepsIconSet(disk: Disk, inputDir: string, outputDir: string, icons: seq<ImageDescriptor>, images: seq<ImageDescriptor>)
    requires Run(disk, Steps(inputDir, outputDir, icons, images)).ok
    requires forall i :: 0 <= i < |icons| ==> IconDestination(icons[i]) != ContentsName
    ensures Exists(Run(disk, Steps(inputDir, outputDir, icons, images)).disk, outputDir)
    ensures |icons| > 0 ==>
      var after := Run(disk, Steps(inputDir, outputDir, icons, images)).disk;
      IconSetDir(outputDir) in after.dirs &&
      Join(IconSetDir(outputDir), ContentsName) in after.files &&
      after.files[Join(IconSetDir(outputDir), ContentsName)] == Contents(AppIconContents(icons))
  {
    StepsOutputFolder(disk, inputDir, outputDir, icons, images);
    if |icons| > 0 {
      var setDir := IconSetDir(outputDir);
      IconStepsShape(inputDir, outputDir, icons, images);
      IconRestAvoids(inputDir, outputDir, icons, images);
      WrittenSurvives(disk, [MakeDir(outputDir), MakeDir(setDir)], setDir, AppIconContents(icons),
        IconCopies(inputDir, setDir, icons) + LaunchOps(inputDir, outputDir, images));
    }
  }

  lemma StepsOutputFolder(disk: Disk, inputDir: string, outputDir: string, icons: seq<ImageDescriptor>, images: seq<ImageDescriptor>)
    requires Run(disk, Steps(inputDir, outputDir, icons, images)).ok
    ensures Exists(Run(disk, Steps(inputDir, outputDir, icons, images)).disk, outputDir)
  {
    var plan := Steps(inputDir, outputDir, icons, images);
    assert plan[0] == MakeDir(outputDir);
    MadeFirst(disk, plan);
  }

  /** With launch images, the steps end with: launch folder, launch manifest, launch copies. */
  lemma LaunchStepsShape(inputDir: string, outputDir: string, icons: seq<ImageDescriptor>, images: seq<ImageDescriptor>)
    requires |images| > 0
    ensures
      var setDir := LaunchSetDir(outputDir);
      Steps(inputDir, outputDir, icons, images)
        == [MakeDir(outputDir)] + IconOps(inputDir, outputDir, icons) + [MakeDir(setDir)]
           + [Op.WriteJson(setDir, ContentsName, LaunchImageContents(images))] + LaunchCopies(inputDir, setDir, images)
  {
    var setDir := LaunchSetDir(outputDir);
    var write := Op.WriteJson(setDir, ContentsName, LaunchImageContents(images));
    var copies := LaunchCopies(inputDir, setDir, images);
    var head := [MakeDir(outputDir)] + IconOps(inputDir, outputDir, icons);
    assert LaunchOps(inputDir, outputDir, images) == [MakeDir(setDir), write] + copies;
    assert head + ([MakeDir(setDir), write] + copies) == head + [MakeDir(setDir)] + [write] + copies;
  }

  /** With icons, the steps are: output folder, icon folder, icon manifest, then the rest. */
  lemma IconStepsShape(inputDir: string, outputDir: string, icons: seq<ImageDescriptor>, images: seq<ImageDescriptor>)
    requires |icons| > 0
    ensures
      var setDir := IconSetDir(outputDir);
      Steps(inputDir, outputDir, icons, images)
        == [MakeDir(outputDir), MakeDir(setDir)] + [Op.WriteJson(setDir, ContentsName, AppIconContents(icons))]
           + (IconCopies(inputDir, setDir, icons) + LaunchOps(inputDir, outputDir, images))
  {
    var setDir := IconSetDir(outputDir);
    var write := Op.WriteJson(setDir, ContentsName, AppIconContents(icons));
    var copies := IconCopies(inputDir, setDir, icons);
    var launchOps := LaunchOps(inputDir, outputDir, images);
    assert IconOps(inputDir, outputDir, icons) == [MakeDir(setDir), write] + copies;
    calc {
      Steps(inputDir, outputDir, icons, images);
      [MakeDir(outputDir)] + ([MakeDir(setDir), write] + copies) + launchOps;
      [MakeDir(outputDir), MakeDir(setDir)] + [write] + (copies + launchOps);
    }
  }

  /** After the launch manifest is written, no later step lands on it. */
  lemma StepsLaunchSet(disk: Disk, inputDir: string, outputDir: string, icons: seq<ImageDescriptor>, images: seq<ImageDescriptor>)
    requires Run(disk, Steps(inputDir, outputDir, icons, images)).ok
    requires forall i :: 0 <= i < |images| ==> LaunchDestination(images[i]) != ContentsName
    ensures |images| > 0 ==>
      var after := Run(disk, Steps(inputDir, outputDir, icons, images)).disk;
      LaunchSetDir(outputDir) in after.dirs &&
      Join(LaunchSetDir(outputDir), ContentsName) in after.files &&
      after.files[Join(LaunchSetDir(outputDir), ContentsName)] == Contents(LaunchImageContents(images))
  {
    if |images| > 0 {
      var setDir := LaunchSetDir(outputDir);
      var before := [MakeDir(outputDir)] + IconOps(inputDir, outputDir, icons) + [MakeDir(setDir)];
      var copies := LaunchCopies(inputDir, setDir, images);
      LaunchStepsShape(inputDir, outputDir, icons, images);
      forall i | 0 <= i < |copies| ensures Target(copies[i]) != Join(setDir, ContentsName) {
        JoinInjective(setDir, LaunchDestination(images[i]), ContentsName);
      }
      WrittenSurvives(disk, before, setDir, LaunchImageContents(images), copies);
    }
  }

  /**
   * A successful build leaves the output folder in place and, for a
   * non-empty icon list, the icon set folder holding `Contents.json` with
   * the icon manifest of the list: no later copy lands on it.
   */
  lemma BuildIconSet(disk: Disk, inputDir: string, outputDir: string, files: seq<string>)
    requires Build(disk, inputDir, outputDir, files).ok
    ensures Exists(Build(disk, inputDir, outputDir, files).disk, outputDir)
    ensures |Icons(files)| > 0 ==>
      var after := Build(disk, inputDir, outputDir, files).disk;
      IconSetDir(outputDir) in after.dirs &&
      Join(IconSetDir(outputDir), ContentsName) in after.files &&
      after.files[Join(IconSetDir(outputDir), ContentsName)] == Contents(AppIconContents(Icons(files)))
  {
    IconsAvoidManifest(files);
    StepsIconSet(disk, inputDir, outputDir, Icons(files), LaunchImages(files));
  }

  /**
   * A successful build with a non-empty launch-image list leaves the launch
   * set folder holding `Contents.json` with the launch manifest of the list.
   */
  lemma BuildLaunchSet(disk: Disk, inputDir: string, outputDir: string, files: seq<string>)
    requires Build(disk, inputDir, outputDir, files).ok
    ensures |LaunchImages(files)| > 0 ==>
      var after := Build(disk, inputDir, outputDir, files).disk;
      LaunchSetDir(outputDir) in after.dirs &&
      Join(LaunchSetDir(outputDir), ContentsName) in after.files &&
      after.files[Join(LaunchSetDir(outputDir), ContentsName)] == Contents(LaunchImageContents(LaunchImages(files)))
  {
    LaunchImagesAvoidManifest(files);
    StepsLaunchSet(disk, inputDir, outputDir, Icons(files), LaunchImages(files));
  }

  /** With no icons nothing targets the icon set; with no launch images nothing targets the launch set. */
  lemma StepsSkipEmptySets(disk: Disk, inputDir: string, outputDir: string, icons: seq<ImageDescriptor>, images: seq<ImageDescriptor>)
    ensures |icons| == 0 ==>
      var after := Run(disk, Steps(inputDir, outputDir, icons, images)).disk;
      (Exists(after, IconSetDir(outputDir)) <==> Exists(disk, IconSetDir(outputDir))) &&
      (Exists(after, Join(IconSetDir(outputDir), ContentsName)) <==> Exists(disk, Join(IconSetDir(outputDir), ContentsName)))
    ensures |images| == 0 ==>
      var after := Run(disk, Steps(inputDir, outputDir, icons, images)).disk;
      (Exists(after, LaunchSetDir(outputDir)) <==> Exists(disk, LaunchSetDir(outputDir))) &&
      (Exists(after, Join(LaunchSetDir(outputDir), ContentsName)) <==> Exists(disk, Join(LaunchSetDir(outputDir), ContentsName)))
  {
    var plan := Steps(inputDir, outputDir, icons, images);
    var iconOps := IconOps(inputDir, outputDir, icons);
    var launchOps := LaunchOps(inputDir, outputDir, images);
    IconTargetsSide(inputDir, outputDir, icons);
    LaunchTargetsSide(inputDir, outputDir, images);
    Sides(outputDir, ContentsName);
    if |icons| == 0 {
      assert plan == [MakeDir(outputDir)] + launchOps;
      forall i | 0 <= i < |plan|
        ensures Target(plan[i]) != IconSetDir(outputDir) && Target(plan[i]) != Join(IconSetDir(outputDir), ContentsName)
      {
        if i > 0 {
          assert plan[i] == launchOps[i - 1];
        }
      }
      RunUntouched(disk, plan, IconSetDir(outputDir));
      RunUntouched(disk, plan, Join(IconSetDir(outputDir), ContentsName));
    }
    if |images| == 0 {
      assert plan == [MakeDir(outputDir)] + iconOps;
      forall i | 0 <= i < |plan|
        ensures Target(plan[i]) != LaunchSetDir(outputDir) && Target(plan[i]) != Join(LaunchSetDir(outputDir), ContentsName)
      {
        if i > 0 {
          assert plan[i] == iconOps[i - 1];
        }
      }
      RunUntouched(disk, plan, LaunchSetDir(outputDir));
      RunUntouched(disk, plan, Join(LaunchSetDir(outputDir), ContentsName));
    }
  }

  /**
   * Running the build a second time on what the first left writes the same
   * `Contents.json` files: each manifest depends on the listing alone.
   */
  lemma BuildTwiceSameManifests(disk: Disk, inputDir: string, outputDir: string, files: seq<string>)
    requires Build(disk, inputDir, outputDir, files).ok
    requires Build(Build(disk, inputDir, outputDir, files).disk, inputDir, outputDir, files).ok
    ensures var once := Build(disk, inputDir, outputDir, files).disk;
      var twice := Build(once, inputDir, outputDir, files).disk;
      (|Icons(files)| > 0 ==>
        Join(IconSetDir(outputDir), ContentsName) in once.files &&
        Join(IconSetDir(outputDir), ContentsName) in twice.files &&
        twice.files[Join(IconSetDir(outputDir), ContentsName)] == once.files[Join(IconSetDir(outputDir), ContentsName)]) &&
      (|LaunchImages(files)| > 0 ==>
        Join(LaunchSetDir(outputDir), ContentsName) in once.files &&
        Join(LaunchSetDir(outputDir), ContentsName) in twice.files &&
        twice.files[Join(LaunchSetDir(outputDir), ContentsName)] == once.files[Join(LaunchSetDir(outputDir), ContentsName)])
  {
    var once := Build(disk, inputDir, outputDir, files).disk;
    BuildIconSet(disk, inputDir, outputDir, files);
    BuildIconSet(once, inputDir, outputDir, files);
    BuildLaunchSet(disk, inputDir, outputDir, files);
    BuildLaunchSet(once, inputDir, outputDir, files);
  }

  /**
   * A set with no images gets nothing: whether or not the build succeeds,
   * its folder and its `Contents.json` are as they were before.
   */
  lemma BuildSkipsEmptySets(disk: Disk, inputDir: string, outputDir: string, files: seq<string>)
    ensures |Icons(files)| == 0 ==>
      var after := Build(disk, inputDir, outputDir, files).disk;
      (Exists(after, IconSetDir(outputDir)) <==> Exists(disk, IconSetDir(outputDir))) &&
      (Exists(after, Join(IconSetDir(outputDir), ContentsName)) <==> Exists(disk, Join(IconSetDir(outputDir), ContentsName)))
    ensures |LaunchImages(files)| == 0 ==>
      var after := Build(disk, inputDir, outputDir, files).disk;
      (Exists(after, LaunchSetDir(outputDir)) <==> Exists(disk, LaunchSetDir(outputDir))) &&
      (Exists(after, Join(LaunchSetDir(outputDir), ContentsName)) <==> Exists(disk, Join(LaunchSetDir(outputDir), ContentsName)))
  {
    StepsSkipEmptySets(disk, inputDir, outputDir, Icons(files), LaunchImages(files));
  }

  /** After a successful run of the steps every copy destination is a file. */
  lemma StepsCopies(disk: Disk, inputDir: string, outputDir: string, icons: seq<ImageDescriptor>, images: seq<ImageDescriptor>)
    requires Run(disk, Steps(inputDir, outputDir, icons, images)).ok
    ensures forall i :: 0 <= i < |icons| ==>
      Join(IconSetDir(outputDir), IconDestination(icons[i])) in Run(disk, Steps(inputDir, outputDir, icons, images)).disk.files
    ensures forall i :: 0 <= i < |images| ==>
      Join(LaunchSetDir(outputDir), LaunchDestination(images[i])) in Run(disk, Steps(inputDir, outputDir, icons, images)).disk.files
  {
    var iconOps := IconOps(inputDir, outputDir, icons);
    var launchOps := LaunchOps(inputDir, outputDir, images);
    if |icons| > 0 {
      var setDir := IconSetDir(outputDir);
      var copies := IconCopies(inputDir, setDir, icons);
      var before := [MakeDir(outputDir), MakeDir(setDir), Op.WriteJson(setDir, ContentsName, AppIconContents(icons))];
      assert Steps(inputDir, outputDir, icons, images) == before + copies + launchOps;
      CopiesLand(disk, before, copies, launchOps);
    }
    if |images| > 0 {
      var setDir := LaunchSetDir(outputDir);
      var copies := LaunchCopies(inputDir, setDir, images);
      var before := [MakeDir(outputDir)] + iconOps + [MakeDir(setDir), Op.WriteJson(setDir, ContentsName, LaunchImageContents(images))];
      assert Steps(inputDir, outputDir, icons, images) == before + copies + [];
      CopiesLand(disk, before, copies, []);
    }
  }

  /**
   * After a successful build every icon has a file at `<expected-size>.png`
   * in the icon set and every launch image one at its stripped name in the
   * launch set.
   */
  lemma BuildCopies(disk: Disk, inputDir: string, outputDir: string, files: seq<string>)
    requires Build(disk, inputDir, outputDir, files).ok
    ensures forall i :: 0 <= i < |Icons(files)| ==>
      Join(IconSetDir(outputDir), IconDestination(Icons(files)[i])) in Build(disk, inputDir, outputDir, files).disk.files
    ensures forall i :: 0 <= i < |LaunchImages(files)| ==>
      Join(LaunchSetDir(outputDir), LaunchDestination(LaunchImages(files)[i])) in Build(disk, inputDir, outputDir, files).disk.files
  {
    StepsCopies(disk, inputDir, outputDir, Icons(files), LaunchImages(files));
  }

  /**
   * A run of copies between other steps: copy `j` leaves its source's
   * original contents at its target when no step before or among the
   * copies writes over that source and nothing after copy `j` targets
   * its destination.
   */
  lemma {:induction false} CopyContentsBetween(disk: Disk, pre: seq<Op>, copies: seq<Op>, post: seq<Op>, j: nat)
    requires Run(disk, pre + copies + post).ok && j < |copies|
    requires forall i :: 0 <= i < |copies| ==> copies[i].Copy?
    requires forall i :: 0 <= i < |pre| ==> Target(pre[i]) != copies[j].src
    requires forall i :: 0 <= i < |copies| ==> Target(copies[i]) != copies[j].src
    requires forall i :: j < i < |copies| ==> Target(copies[i]) != Target(copies[j])
    requires forall i :: 0 <= i < |post| ==> Target(post[i]) != Target(copies[j])
    ensures var after := Run(disk, pre + copies + post).disk;
      Target(copies[j]) in after.files && copies[j].src in disk.files &&
      after.files[Target(copies[j])] == disk.files[copies[j].src]
  {
    RunConcat(disk, pre + copies, post);
    RunConcat(disk, pre, copies);
    var d1 := Run(disk, pre);
    assert d1.ok;
    var d2 := Run(d1.disk, copies);
    assert d2.ok;
    RunUntouched(disk, pre, copies[j].src);
    CopiesLastWins(d1.disk, copies, j);
    RunUntouched(d2.disk, post, Target(copies[j]));
  }

  /**
   * The icon copies land on what the steps left: icon `j`'s destination
   * holds its source's contents when no step writes over that source and
   * no later icon shares the destination.
   */
  lemma StepsIconCopyContents(disk: Disk, inputDir: string, outputDir: string,
                              icons: seq<ImageDescriptor>, images: seq<ImageDescriptor>, j: nat)
    requires Run(disk, Steps(inputDir, outputDir, icons, images)).ok && j < |icons|
    requires forall i :: 0 <= i < |Steps(inputDir, outputDir, icons, images)| ==>
      Target(Steps(inputDir, outputDir, icons, images)[i]) != Join(inputDir, icons[j].filename)
    requires forall i :: j < i < |icons| ==> IconDestination(icons[i]) != IconDestination(icons[j])
    ensures var after := Run(disk, Steps(inputDir, outputDir, icons, images)).disk;
      var dest := Join(IconSetDir(outputDir), IconDestination(icons[j]));
      dest in after.files && Join(inputDir, icons[j].filename) in disk.files &&
      after.files[dest] == disk.files[Join(inputDir, icons[j].filename)]
  {
    var setDir := IconSetDir(outputDir);
    var plan := Steps(inputDir, outputDir, icons, images);
    var pre := [MakeDir(outputDir), MakeDir(setDir)] + [Op.WriteJson(setDir, ContentsName, AppIconContents(icons))];
    var copies := IconCopies(inputDir, setDir, icons);
    var launchOps := LaunchOps(inputDir, outputDir, images);
    var src := Join(inputDir, icons[j].filename);
    IconStepsShape(inputDir, outputDir, icons, images);
    assert plan == pre + copies + launchOps;
    forall i | 0 <= i < |pre| ensures Target(pre[i]) != src {
      assert pre[i] == plan[i];
    }
    forall i | 0 <= i < |copies| ensures Target(copies[i]) != src {
      assert copies[i] == plan[|pre| + i];
    }
    forall i | j < i < |copies| ensures Target(copies[i]) != Target(copies[j]) {
      JoinInjective(setDir, IconDestination(icons[i]), IconDestination(icons[j]));
    }
    LaunchTargetsSide(inputDir, outputDir, images);
    Sides(outputDir, IconDestination(icons[j]));
    CopyContentsBetween(disk, pre, copies, launchOps, j);
  }

  /**
   * The launch copies come last: image `j`'s destination holds its
   * source's contents when no step writes over that source and no later
   * image shares the destination.
   */
  lemma StepsLaunchCopyContents(disk: Disk, inputDir: string, outputDir: string,
                                icons: seq<ImageDescriptor>, images: seq<ImageDescriptor>, j: nat)
    requires Run(disk, Steps(inputDir, outputDir, icons, images)).ok && j < |images|
    requires forall i :: 0 <= i < |Steps(inputDir, outputDir, icons, images)| ==>
      Target(Steps(inputDir, outputDir, icons, images)[i]) != Join(inputDir, images[j].filename)
    requires forall i :: j < i < |images| ==> LaunchDestination(images[i]) != LaunchDestination(images[j])
    ensures var after := Run(disk, Steps(inputDir, outputDir, icons, images)).disk;
      var dest := Join(LaunchSetDir(outputDir), LaunchDestination(images[j]));
      dest in after.files && Join(inputDir, images[j].filename) in disk.files &&
      after.files[dest] == disk.files[Join(inputDir, images[j].filename)]
  {
    var setDir := LaunchSetDir(outputDir);
    var plan := Steps(inputDir, outputDir, icons, images);
    var pre := [MakeDir(outputDir)] + IconOps(inputDir, outputDir, icons) + [MakeDir(setDir)]
               + [Op.WriteJson(setDir, ContentsName, LaunchImageContents(images))];
    var copies := LaunchCopies(inputDir, setDir, images);
    var src := Join(inputDir, images[j].filename);
    LaunchStepsShape(inputDir, outputDir, icons, images);
    assert plan == pre + copies + [];
    forall i | 0 <= i < |pre| ensures Target(pre[i]) != src {
      assert pre[i] == plan[i];
    }
    forall i | 0 <= i < |copies| ensures Target(copies[i]) != src {
      assert copies[i] == plan[|pre| + i];
    }
    forall i | j < i < |copies| ensures Target(copies[i]) != Target(copies[j]) {
      JoinInjective(setDir, LaunchDestination(images[i]), LaunchDestination(images[j]));
    }
    CopyContentsBetween(disk, pre, copies, [], j);
  }

  /**
   * After a successful build, icon `j` of the listing is at
   * `<expected-size>.png` in the icon set with the bytes of its source file,
   * unless a later icon has the same expected size (the later copy wins)
   * or the build writes over the source.
   */
  lemma BuildIconCopyContents(disk: Disk, inputDir: string, outputDir: string, files: seq<string>, j: nat)
    requires Build(disk, inputDir, outputDir, files).ok && j < |Icons(files)|
    requires forall i :: 0 <= i < |Plan(inputDir, outputDir, files)| ==>
      Target(Plan(inputDir, outputDir, files)[i]) != Join(inputDir, Icons(files)[j].filename)
    requires forall i :: j < i < |Icons(files)| ==> IconDestination(Icons(files)[i]) != IconDestination(Icons(files)[j])
    ensures var after := Build(disk, inputDir, outputDir, files).disk;
      var dest := Join(IconSetDir(outputDir), IconDestination(Icons(files)[j]));
      dest in after.files && Join(inputDir, Icons(files)[j].filename) in disk.files &&
      after.files[dest] == disk.files[Join(inputDir, Icons(files)[j].filename)]
  {
    StepsIconCopyContents(disk, inputDir, outputDir, Icons(files), LaunchImages(files), j);
  }

  /**
   * After a successful build, launch image `j` of the listing is at its
   * stripped name in the launch set with the bytes of its source file,
   * unless a later launch image strips to the same name (the later copy
   * wins) or the build writes over the source.
   */
  lemma BuildLaunchCopyContents(disk: Disk, inputDir: string, outputDir: string, files: seq<string>, j: nat)
    requires Build(disk, inputDir, outputDir, files).ok && j < |LaunchImages(files)|
    requires forall i :: 0 <= i < |Plan(inputDir, outputDir, files)| ==>
      Target(Plan(inputDir, outputDir, files)[i]) != Join(inputDir, LaunchImages(files)[j].filename)
    requires forall i :: j < i < |LaunchImages(files)| ==>
      LaunchDestination(LaunchImages(files)[i]) != LaunchDestination(LaunchImages(files)[j])
    ensures var after := Build(disk, inputDir, outputDir, files).disk;
      var dest := Join(LaunchSetDir(outputDir), LaunchDestination(LaunchImages(files)[j]));
      dest in after.files && Join(inputDir, LaunchImages(files)[j].filename) in disk.files &&
      after.files[dest] == disk.files[Join(inputDir, LaunchImages(files)[j].filename)]
  {
    StepsLaunchCopyContents(disk, inputDir, outputDir, Icons(files), LaunchImages(files), j);
  }

  /** A build never deletes a file or a folder. */
  lemma BuildKeeps(disk: Disk, inputDir: string, outputDir: string, files: seq<string>)
    ensures disk.dirs <= Build(disk, inputDir, outputDir, files).disk.dirs
    ensures disk.files.Keys <= Build(disk, inputDir, outputDir, files).disk.files.Keys
  {
    RunKeeps(disk, Plan(inputDir, outputDir, files));
  }

  /**
   * A failed build changed nothing when the input folder is missing, and
   * otherwise stopped at one step of the plan, keeping what the steps
   * before it did.
   */
  lemma BuildFails(disk: Disk, inputDir: string, outputDir: string, files: seq<string>) returns (k: nat)
    requires !Build(disk, inputDir, outputDir, files).ok
    ensures inputDir !in disk.dirs ==> Build(disk, inputDir, outputDir, files).disk == disk
    ensures inputDir in disk.dirs ==>
      var plan := Plan(inputDir, outputDir, files);
      k < |plan| && Run(disk, plan[..k]).ok && !Step(Run(disk, plan[..k]).disk, plan[k]).ok &&
      Build(disk, inputDir, outputDir, files).disk == Run(disk, plan[..k]).disk
  {
    k := 0;
    if inputDir in disk.dirs {
      k := RunStops(disk, Plan(inputDir, outputDir, files));
    }
  }

  /**
   * Icons that share an expected size land on one file, and the later one
   * wins: after the copies, each destination holds the source of the last
   * icon copied there (when no copy overwrites a source).
   */
  lemma IconCopyLastWins(disk: Disk, inputDir: string, setDir: string, icons: seq<ImageDescriptor>, j: nat)
    requires Run(disk, IconCopies(inputDir, setDir, icons)).ok && j < |icons|
    requires forall i :: 0 <= i < |icons| ==> Join(setDir, IconDestination(icons[i])) != Join(inputDir, icons[j].filename)
    requires forall i :: j < i < |icons| ==> IconDestination(icons[i]) != IconDestination(icons[j])
    ensures var after := Run(disk, IconCopies(inputDir, setDir, icons)).disk;
      Join(setDir, IconDestination(icons[j])) in after.files && Join(inputDir, icons[j].filename) in disk.files &&
      after.files[Join(setDir, IconDestination(icons[j]))] == disk.files[Join(inputDir, icons[j].filename)]
  {
    var ops := IconCopies(inputDir, setDir, icons);
    forall i | j < i < |icons| ensures Target(ops[i]) != Target(ops[j]) {
      JoinInjective(setDir, IconDestination(icons[i]), IconDestination(icons[j]));
    }
    CopiesLastWins(disk, ops, j);
  }

  // ---------------------------------------------------------------------
  // Manifest names against copy names.
  // ---------------------------------------------------------------------

  lemma PngNames(e: string)
    ensures e + ".png" == "1024.png" <==> e == "1024"
  {
    if e + ".png" == "1024.png" {
      assert e == (e + ".png")[..|e|];
    }
  }

  /**
   * An icon's manifest entry names the file it is copied to, except a
   * `1024x1024` entry, which names `1024.png` and so agrees only when the
   * expected size is `1024`.
   */
  lemma IconEntryNamesCopy(d: ImageDescriptor)
    ensures d.size != MarketingSize ==> Field(IconEntry(d), "filename") == Some(JString(IconDestination(d)))
    ensures d.size == MarketingSize ==>
      (Field(IconEntry(d), "filename") == Some(JString(IconDestination(d))) <==> d.expectedSize == "1024")
  {
    IconEntryFilename(d);
    PngNames(d.expectedSize);
  }

  /** A launch image's manifest entry names the file it is copied to. */
  lemma LaunchEntryNamesCopy(d: ImageDescriptor)
    ensures Field(LaunchEntry(d), "filename") == Some(JString(LaunchDestination(d)))
  {
    LaunchEntryFields(d);
  }

  /** A listing of the one marketing icon at scale 2. */
  lemma MarketingListing(name: string)
    requires name == "AppIcon1024x1024@2x.png"
    ensures Icons([name]) == [ImageDescriptor(name, "AppIcon", "1024x1024", "2x", "universal", "2048")]
    ensures LaunchImages([name]) == []
  {
    var d := ImageDescriptor(name, "AppIcon", "1024x1024", "2x", "universal", "2048");
    ParseMarketingExample();
    SetTests(d);
    assert [name][..0] == [];
    assert IconOf(ParseImageName(name)) == [d];
    assert LaunchOf(ParseImageName(name)) == [];
  }

  /**
   * `AppIcon1024x1024@2x.png` alone: the plan copies it to `2048.png`,
   * while its size is `1024x1024`, so the manifest it writes lists
   * `1024.png` (`IconEntryNamesCopy`).
   */
  lemma MarketingCopyExample(inputDir: string, outputDir: string, name: string)
    requires name == "AppIcon1024x1024@2x.png"
    ensures var d := ImageDescriptor(name, "AppIcon", "1024x1024", "2x", "universal", "2048");
      var setDir := IconSetDir(outputDir);
      Plan(inputDir, outputDir, [name]) == [
        MakeDir(outputDir),
        MakeDir(setDir),
        Op.WriteJson(setDir, ContentsName, AppIconContents([d])),
        Copy(Join(inputDir, name), setDir, "2048.png")] &&
      d.size == MarketingSize
  {
    var d := ImageDescriptor(name, "AppIcon", "1024x1024", "2x", "universal", "2048");
    assert "2048" + ".png" == "2048.png";
    MarketingListing(name);
    PlanOfOneIcon(inputDir, outputDir, name, d);
  }

  /** A listing of one icon: its folder, its manifest, one copy. */
  lemma PlanOfOneIcon(inputDir: string, outputDir: string, name: string, d: ImageDescriptor)
    requires Icons([name]) == [d] && LaunchImages([name]) == []
    ensures var setDir := IconSetDir(outputDir);
      Plan(inputDir, outputDir, [name]) == [
        MakeDir(outputDir),
        MakeDir(setDir),
        Op.WriteJson(setDir, ContentsName, AppIconContents([d])),
        Copy(Join(inputDir, d.filename), setDir, IconDestination(d))]
  {
    StepsOfOneIcon(inputDir, outputDir, d);
  }

  /** The steps for a single icon and no launch image. */
  lemma StepsOfOneIcon(inputDir: string, outputDir: string, d: ImageDescriptor)
    ensures var setDir := IconSetDir(outputDir);
      Steps(inputDir, outputDir, [d], []) == [
        MakeDir(outputDir),
        MakeDir(setDir),
        Op.WriteJson(setDir, ContentsName, AppIconContents([d])),
        Copy(Join(inputDir, d.filename), setDir, IconDestination(d))]
  {
    var setDir := IconSetDir(outputDir);
    assert IconCopies(inputDir, setDir, [d]) == [Copy(Join(inputDir, d.filename), setDir, IconDestination(d))];
  }

  /** A rendered name with an idiom is copied to the name rendered without it. */
  lemma LaunchDestinationOfRender(c: Captures)
    requires WellFormed(c) && c.idiom.Some?
    ensures ParseImageName(Render(c)).Some?
    ensures LaunchDestination(ParseImageName(Render(c)).value) == Render(c.(idiom := None))
  {
    ParseOfRender(c);
    assert Describe(Render(c), c).filename == Render(c);
    StripIdiomOfRenderAlone(c);
  }

  /**
   * Launch images that differ only in their idiom are copied to one
   * destination, the name without the idiom, so the later copy replaces
   * the earlier.
   */
  lemma LaunchIdiomsCollide(c: Captures, w: string)
    requires WellFormed(c) && c.idiom.Some? && WellFormed(c.(idiom := Some(w)))
    ensures ParseImageName(Render(c)).Some? && ParseImageName(Render(c.(idiom := Some(w)))).Some?
    ensures LaunchDestination(ParseImageName(Render(c)).value)
         == LaunchDestination(ParseImageName(Render(c.(idiom := Some(w)))).value)
  {
    var c' := c.(idiom := Some(w));
    LaunchDestinationOfRender(c);
    LaunchDestinationOfRender(c');
    assert c'.(idiom := None) == c.(idiom := None);
  }
}
