# Asset-catalog source builder

This project models the part of an iOS app-icon re-skinning pipeline that
holds logic of its own: the builder in `src/asset_car_util.js` that turns a
flat folder of extracted catalog images back into an `Assets.xcassets`
source tree. It has three parts:

- `parseImageName` reads an image file name against the unanchored pattern
  `(AppIcon|LaunchImage)(\d+x\d+)?(@(\dx))?(~(\w+))?\.png`. It returns the
  kind, the nominal size `WxH`, the scale (default `1x`), the idiom (default
  `universal`) and the expected pixel size `W × scale`.
- `createAppIconContentsJson` and `createLaunchImageContentsJson` build the
  two `Contents.json` manifests. Any icon of size `1024x1024` becomes the
  `ios-marketing` entry. Launch images lose their first `~word` suffix.
- `createAssetDirectory` sorts a folder listing into icons and launch
  images. It makes the output folder, and for each non-empty set it makes
  the set folder, writes that set's manifest and copies each image to its
  destination name.

Files:

- `text.dfy`: modules `Options` and `Text`. They hold the ASCII character
  classes `\d` and `\w`, substring occurrence, greedy runs, decimal
  `parseInt`/`toString`, and `toLowerCase`/`includes`.
- `image_name.dfy`: module `ImageName`. `Render` is the reference definition
  of the pattern: the text that a match with given capture groups covers.
  `MatchAt` is a scanner that reads the groups at one start index. Two
  lemmas prove that `MatchAt` finds exactly the matches `Render` describes.
  `Search` tries every start index from the left, like `String.prototype.match`
  without the `g` flag. `ParseImageName` builds the descriptor from the
  leftmost match.
- `manifest.dfy`: module `Manifest`. JSON values whose object members keep
  insertion order, property reads and assignments, the two manifests, and
  `StripIdiom` (`replace(/~\w+/, '')`).
- `asset_directory.dfy`: module `AssetDirectory`. It holds the
  classification loop (`Classify`) and the step plan (`Plan`: make folder,
  write manifest, copy). `Run` gives the plan's meaning on a disk, which is
  a map from path to contents plus a set of folders. A call that throws
  ends the run. The class `FileSystem` runs the plan step by step, and each
  of its methods is proved equal to `Run` of the steps it takes.

## Model

| member | source | states |
|---|---|---|
| `Text.NatToDecimal` | src/asset_car_util.js:22 | `toString` of a count: a numeral with no leading zero whose decimal value is the count |
| `Text.DecimalRoundTrip` | src/asset_car_util.js:22 | a numeral with no leading zero is what `toString` writes for its own `parseInt` value |
| `ImageName.MatchAtSound` | src/asset_car_util.js:17 | what the scanner returns at an index is a match of the pattern there, with well-formed groups |
| `ImageName.MatchAtComplete` | src/asset_car_util.js:17 | every match at an index is the one the scanner returns, so at a fixed start there is at most one match |
| `ImageName.SearchLeftmost` | src/asset_car_util.js:17-18 | the search returns a match that no match further left precedes, and returns nothing exactly when no index has a match |
| `ImageName.ParseNullIff` | src/asset_car_util.js:16-19 | `ParseImageName` (`parseImageName`) gives `null` exactly when no substring of the name matches the pattern |
| `ImageName.ParsedFromLeftmostMatch` | src/asset_car_util.js:18-21 | a parsed descriptor is the one destructured from the groups of the leftmost match |
| `ImageName.DescribeFields` | src/asset_car_util.js:21-30 | the whole name as `filename`, group 1 as `baseName`, group 2 or `""` as `size`, group 4 or `1x` as `scale`, group 6 or `universal` as `idiom`, and width times scale digit (or `""`) as `expectedSize` |
| `ImageName.ParsedFieldShapes` | src/asset_car_util.js:21-30 | every parsed name keeps its name, has base name `AppIcon` or `LaunchImage`, a scale `dx`, a non-empty word idiom, and an expected size that is empty exactly when the size is, and otherwise a canonical numeral |
| `ImageName.ParsedExpectedSize` | src/asset_car_util.js:22 | a parsed size is `""` or `WxH`, and the expected size is the decimal text of `W` times the scale digit, or `""` when the size is empty |
| `ImageName.ExpectedSizeOfDigits` | src/asset_car_util.js:22 | `ExpectedSize` of `WxH` at scale `dx` is the decimal text of `W × d` |
| `ImageName.ParseIconExample` | src/asset_car_util.js:16-31 | `AppIcon60x60@2x.png` parses to size `60x60`, scale `2x`, idiom `universal`, expected size `120` |
| `ImageName.ParseLaunchExample` | src/asset_car_util.js:16-31 | `LaunchImage@2x~ipad.png` parses to no size, scale `2x`, idiom `ipad`, expected size `""` |
| `ImageName.ParseMarketingExample` | src/asset_car_util.js:16-31 | `AppIcon1024x1024@2x.png` parses to expected size `2048` |
| `ImageName.ParseUnanchoredExample` | src/asset_car_util.js:17-21 | the unanchored pattern finds `xAppIcon.png.bak`, with every default |
| `ImageName.ParseRejectExample` | src/asset_car_util.js:19 | `random.txt` parses to `null` |
| `ImageName.ParseOfRender` | src/asset_car_util.js:16-31 | the text of any well-formed groups parses back to the descriptor of those groups |
| `ImageName.ParseEmbedded` | src/asset_car_util.js:17-18 | groups rendered after text with no `A` or `L` are what the name parses to, whatever text follows them |
| `Manifest.AssignLookup` | src/asset_car_util.js:46-51 | after `entry[key] = v` the key reads `v` and every other key reads what it did |
| `Manifest.IconEntryFields` | src/asset_car_util.js:35-54 | `IconEntry` (one element of the `map` in `createAppIconContentsJson`) has keys `size, expected-size, filename, folder, idiom, scale` in that order and reads the parsed size, expected size, `<expectedSize>.png`, the fixed folder, idiom and scale; a `1024x1024` entry reads `1024`, `1024.png`, `ios-marketing` and `1x` whatever was parsed |
| `Manifest.MarketingRewriteFields` | src/asset_car_util.js:45-52 | the six assignments keep the key order and set size, file name, expected size, idiom, folder and scale |
| `Manifest.IconEntryFilename` | src/asset_car_util.js:39-47 | an icon entry names `1024.png` for size `1024x1024` and `<expectedSize>.png` otherwise |
| `Manifest.AppIconContentsEntries` | src/asset_car_util.js:34-60 | `AppIconContents` (`createAppIconContentsJson`) is `{images}` with one entry per icon, in the icons' order; each entry has the six keys in order, the parsed size and the fixed folder, and either the parsed expected size, `<expectedSize>.png`, idiom and scale or, for `1024x1024`, `1024`, `1024.png`, `ios-marketing` and `1x` |
| `Manifest.StripIdiomUnchanged` | src/asset_car_util.js:65 | `StripIdiom` (`replace(/~\w+/, '')`) leaves a name unchanged exactly when no `~` in it is followed by a word character |
| `Manifest.StripIdiomOfRender` | src/asset_car_util.js:65 | in a name with no `~` before the match, the replace removes exactly the idiom group |
| `Manifest.LaunchEntryFields` | src/asset_car_util.js:64-68 | `LaunchEntry` (one element of the `map` in `createLaunchImageContentsJson`) has keys `filename, idiom, scale`: the stripped name, `universal`, and the parsed scale |
| `Manifest.LaunchImageContentsEntries` | src/asset_car_util.js:63-77 | `LaunchImageContents` (`createLaunchImageContentsJson`) is `{images, info}`, one entry per image in order, with `info` = `{author: "xcode", version: 1}` |
| `AssetDirectory.Classify` | src/asset_car_util.js:86-96 | the loop's two lists are the icon and launch-image lists of the whole listing |
| `AssetDirectory.ClassifyPartition` | src/asset_car_util.js:86-96 | the icons are the parsed `AppIcon` names and the launch images the parsed `LaunchImage` names, each in listing order; together they are exactly the parsed names |
| `AssetDirectory.ParsedNames` | src/asset_car_util.js:86-88 | the parsed descriptors are those of the names that parse, in listing order, so names that fail to parse go to neither list |
| `AssetDirectory.Step` | src/asset_car_util.js:98-143 | a successful call leaves its target in place; a call that throws changes nothing |
| `AssetDirectory.RunStops` | src/asset_car_util.js:80-147 | a run that throws stopped at one call, after every earlier call succeeded, and keeps their effects |
| `AssetDirectory.FileSystem.MakeDirectory` | src/asset_car_util.js:98-100 | the folder is added when the path is neither a file nor a folder, and nothing else changes |
| `AssetDirectory.FileSystem.WriteFile` | src/asset_car_util.js:110-114 | the manifest is stored at `dir/name`; the call throws when `dir` is not a folder or the path is one |
| `AssetDirectory.FileSystem.CopyFile` | src/asset_car_util.js:120 | the destination gets the source's contents, overwriting; the call throws when the source is not a file or the folder is missing |
| `AssetDirectory.FileSystem.CopyAll` | src/asset_car_util.js:117-121 | the copy loop has the effect of running its copies in order, stopping at the first that throws |
| `AssetDirectory.FileSystem.InstallSet` | src/asset_car_util.js:103-122 | one set: make its folder, write its manifest, run its copies |
| `AssetDirectory.FileSystem.CreateAssetDirectory` | src/asset_car_util.js:80-147 | the method's new state and result are those of `Build`, the function that models `createAssetDirectory` on a disk value: a missing input folder throws first, then the plan runs |
| `AssetDirectory.BuildIconSet` | src/asset_car_util.js:98-114 | a successful build leaves the output folder and, when there are icons, the icon set holding the icon manifest of the listing |
| `AssetDirectory.BuildLaunchSet` | src/asset_car_util.js:125-136 | with launch images, a successful build leaves the launch set holding the launch manifest of the listing |
| `AssetDirectory.BuildSkipsEmptySets` | src/asset_car_util.js:103-125 | a set with no images gets no folder and no manifest: both are as they were before |
| `AssetDirectory.BuildCopies` | src/asset_car_util.js:116-143 | after a successful build each icon has a file at `<expectedSize>.png` and each launch image one at its stripped name |
| `AssetDirectory.CopyContentsBetween` | src/asset_car_util.js:117-121 | a copy among other steps leaves its source's original bytes at its destination when nothing before writes over the source and nothing after targets the destination |
| `AssetDirectory.BuildIconCopyContents` | src/asset_car_util.js:117-121 | after a successful `Build`, icon `j` is at `<expectedSize>.png` in the icon set with its source's bytes, when no later icon has the same expected size and no step writes over the source |
| `AssetDirectory.BuildLaunchCopyContents` | src/asset_car_util.js:139-143 | after a successful `Build`, launch image `j` is at its stripped name in the launch set with its source's bytes, when no later launch image strips to the same name and no step writes over the source |
| `AssetDirectory.BuildKeeps` | src/asset_car_util.js:80-147 | a build never removes a file or a folder |
| `AssetDirectory.BuildFails` | src/asset_car_util.js:81-143 | a failed build changed nothing when the input folder is missing, and otherwise keeps what the calls before the failing one did |
| `AssetDirectory.BuildTwiceSameManifests` | src/asset_car_util.js:109-136 | building again on the result writes the same `Contents.json` files |
| `AssetDirectory.IconCopyLastWins` | src/asset_car_util.js:117-121 | icons with the same expected size land on one file, and the last one copied there wins |
| `AssetDirectory.IconEntryNamesCopy` | src/asset_car_util.js:39-119 | an icon's entry names the file it is copied to, except a `1024x1024` entry, which agrees only when its expected size is `1024` |
| `AssetDirectory.LaunchEntryNamesCopy` | src/asset_car_util.js:65-141 | a launch image's entry names the file it is copied to |
| `AssetDirectory.MarketingCopyExample` | src/asset_car_util.js:117-121 | `AppIcon1024x1024@2x.png` alone is copied to `2048.png`, while its size is `1024x1024`, so its entry says `1024.png` |
| `AssetDirectory.LaunchIdiomsCollide` | src/asset_car_util.js:139-143 | launch images that differ only in idiom are copied to one destination |
| `AssetDirectory.IconsAvoidManifest` | src/asset_car_util.js:119 | no icon is copied onto the set's `Contents.json` |
| `AssetDirectory.LaunchImagesAvoidManifest` | src/asset_car_util.js:141 | no launch image is copied onto the set's `Contents.json` |

The code copies every icon to `<expectedSize>.png`
(src/asset_car_util.js:119), so `AppIcon1024x1024@2x.png` lands on
`2048.png` while its manifest entry lists `1024.png`
(`MarketingCopyExample`, `IconEntryNamesCopy`).

## Left out

- `extractCar` and `createCar` are not modelled. They only build a command line for the external `acextract` and `actool` tools and wrap the call in a Promise.
- `generateAssetsXcassets` is not modelled. It calls `createAssetDirectory` and catches and logs every error. A failed `Build` result stands for that swallowed error.
- `ensureDirectoryExistence` is not modelled. Only `extractCar` uses it.
- The console output and the text `JSON.stringify(…, null, 2)` writes are not modelled. Manifests are JSON values with ordered members.
- `readdirSync` is not modelled: its listing and its order are a parameter. The model does not tie that listing to the disk's contents. A listed name that is not a file makes its copy throw.
- `path.join` normalisation is not modelled: `Join(a, b)` is `a + "/" + b`.
- `FileSystem.MakeDirectory`: the recursive `mkdirSync` also creates missing ancestors and throws when an ancestor is a file. The model adds only the one path.
- File permissions and other I/O failures are not modelled. Calls throw only for a missing input folder, a missing folder or a folder in place of a written file, and a copy source that is not a file.
- JavaScript numbers are not modelled. Widths and products are unbounded naturals. `parseInt` and the product of widths above 2^53 would lose precision in the source.
- Strings are sequences of characters, not UTF-16 code units. The pattern's classes are ASCII either way.
- src/image_util.js, src/zip_util.js and index.js are not part of this model. Their work is done by `sharp`, `pngcrush`, AdmZip and a fixed list of calls.
