/**
 * The asset bookkeeping of libcore: which version file and directory each
 * bundled asset uses, when `extractAssetName` re-extracts an asset from
 * the APK, and where the V2Ray file-seeker hook looks a file up.
 *
 * The file system and the APK are observations passed in: whether a file
 * exists, what a read returned, whether a write succeeded.
 */
module Assets {
  import opened Optional

  const GeoipDat := "geoip.dat"
  const GeositeDat := "geosite.dat"
  const BrowserForwarder := "index.js"
  const GeoipVersion := "geoip.version.txt"
  const GeositeVersion := "geosite.version.txt"
  const CoreVersion := "core.version.txt"

  /** The three directories the asset code joins names to (`assetsPrefix`, `internalAssetsPath`, `externalAssetsPath`). */
  datatype AssetPaths = AssetPaths(assetsPrefix: string, internal: string, external: string)

  /** Where an asset lives and how it is versioned. */
  datatype Layout = Layout(versionFile: string, isReplaceable: bool, dir: string)

  /**
   * The `switch name` of `extractAssetName` and the directory choice after
   * it. A name the switch does not list keeps the zero values: an empty
   * version-file name, replaceable, in the external directory.
   */
  function LayoutOf(name: string, paths: AssetPaths): Layout
  {
    var (versionFile, isReplaceable) :=
      if name == GeoipDat then (GeoipVersion, true)
      else if name == GeositeDat then (GeositeVersion, true)
      else if name == BrowserForwarder then (CoreVersion, false)
      else ("", true);
    Layout(versionFile, isReplaceable, if !isReplaceable then paths.internal else paths.external)
  }

  /**
   * The geo databases are replaceable by unofficial sources and live in
   * the external directory; the browser forwarder is not and lives in the
   * internal one; every asset has its own version file.
   */
  lemma LayoutTable(paths: AssetPaths)
    ensures LayoutOf(GeoipDat, paths) == Layout(GeoipVersion, true, paths.external)
    ensures LayoutOf(GeositeDat, paths) == Layout(GeositeVersion, true, paths.external)
    ensures LayoutOf(BrowserForwarder, paths) == Layout(CoreVersion, false, paths.internal)
    ensures forall n :: n != GeoipDat && n != GeositeDat && n != BrowserForwarder ==> LayoutOf(n, paths) == Layout("", true, paths.external)
  {
  }

  /** Only the non-replaceable asset goes to the internal directory, and only a listed name has a version file. */
  lemma LayoutInvariants(name: string, paths: AssetPaths)
    requires paths.internal != paths.external
    ensures LayoutOf(name, paths).dir == paths.internal <==> !LayoutOf(name, paths).isReplaceable
    ensures LayoutOf(name, paths).versionFile != "" <==> name in {GeoipDat, GeositeDat, BrowserForwarder}
  {
  }

  // ---------------------------------------------------------------------
  // strconv.ParseUint(s, 10, 64)

  const Uint64Limit: nat := 0x1_0000_0000_0000_0000

  predicate IsDigit(c: char)
  {
    '0' <= c <= '9'
  }

  predicate AllDigits(s: string)
  {
    forall i :: 0 <= i < |s| ==> IsDigit(s[i])
  }

  /** The value of a run of decimal digits, most significant first. */
  function DecimalValue(s: string): nat
    requires AllDigits(s)
  {
    if s == [] then 0
    else DecimalValue(s[..|s| - 1]) * 10 + (s[|s| - 1] as int - '0' as int)
  }

  /**
   * `strconv.ParseUint(s, 10, 64)`: a nonempty run of decimal digits (no
   * sign, no underscore) whose value fits in 64 bits; anything else is an
   * error, an out-of-range value included.
   */
  function ParseUint64(s: string): Option<nat>
  {
    if s != [] && AllDigits(s) && DecimalValue(s) < Uint64Limit then Some(DecimalValue(s)) else None
  }

  /** The canonical decimal spelling of a number: no sign, no leading zero. */
  function ToDecimal(n: nat): (r: string)
    ensures r != [] && AllDigits(r)
  {
    if n < 10 then ['0' + n as char]
    else ToDecimal(n / 10) + ['0' + (n % 10) as char]
  }

  /** A number's decimal spelling reads back as that number. */
  lemma {:induction false} ToDecimalValue(n: nat)
    ensures DecimalValue(ToDecimal(n)) == n
  {
    if n >= 10 {
      ToDecimalValue(n / 10);
      var r := ToDecimal(n);
      assert r[..|r| - 1] == ToDecimal(n / 10);
    }
  }

  /** Every 64-bit value's spelling parses back to it. */
  lemma ParseToDecimal(n: nat)
    requires n < Uint64Limit
    ensures ParseUint64(ToDecimal(n)) == Some(n)
  {
    ToDecimalValue(n);
  }

  lemma {:induction false} LeadingDigitPositive(s: string)
    requires s != [] && AllDigits(s) && s[0] != '0'
    ensures DecimalValue(s) > 0
  {
    if |s| > 1 {
      LeadingDigitPositive(s[..|s| - 1]);
    }
  }

  lemma {:induction false} CanonicalSpelling(s: string)
    requires s != [] && AllDigits(s) && (s[0] != '0' || |s| == 1)
    ensures ToDecimal(DecimalValue(s)) == s
  {
    if |s| > 1 {
      var init := s[..|s| - 1];
      LeadingDigitPositive(init);
      CanonicalSpelling(init);
      assert s == init + [s[|s| - 1]];
    }
  }

  /** A parsed string without a leading zero is the canonical spelling of its value. */
  lemma ParsedIsCanonical(s: string)
    requires ParseUint64(s).Some? && (s[0] != '0' || |s| == 1)
    ensures ToDecimal(ParseUint64(s).value) == s
  {
    CanonicalSpelling(s);
  }

  // ---------------------------------------------------------------------
  // The extraction decision

  /** What `loadAssetVersion` saw: the bundled version text, or the step that failed. */
  datatype Bundled = Loaded(version: string) | OpenFailed | ReadFailed

  /** The errors `extractAssetName` returns. */
  datatype AssetError =
    | OpenVersionInAssets     // "open version in assets"
    | ReadInternalVersion     // "read internal version"
    | ExtractError            // from extractAsset or unxz
    | CreateVersionError      // os.Create of the version file
    | WriteVersionError       // io.WriteString into it

  /** The file-system and APK observations `extractAssetName` makes before deciding. */
  datatype Observation = Observation(
    versionFileFound: bool,        // os.Stat(dir + version) succeeded
    assetFound: bool,              // os.Stat(dir + name) succeeded
    localVersion: Option<string>,  // ioutil.ReadFile(dir + version); None on error
    bundled: Bundled)              // loadAssetVersion, the same each time it is called

  /** The error `loadAssetVersion` returns for a failed load. */
  function LoadError(b: Bundled): AssetError
    requires !b.Loaded?
  {
    if b.OpenFailed? then OpenVersionInAssets else ReadInternalVersion
  }

  /** The outcome of the decision: leave the asset, extract it recording this version, or return an error. */
  datatype Decision = Keep | Extract(version: string) | Abort(err: AssetError)

  /**
   * The `doExtract` rule once the version file has been read (both versions
   * known): compare as unsigned 64-bit numbers when the bundled one parses,
   * a local one that does not parse always losing; compare as text
   * otherwise.
   */
  predicate Newer(bundled: string, local: string, force: bool)
  {
    match ParseUint64(bundled)
    case None => bundled != local || force
    case Some(av) =>
      match ParseUint64(local)
      case None => true
      case Some(lv) => av > lv || force
  }

  /** `doExtract` as lines 98-125 of `extractAssetName` compute it, or the error of the load in between. */
  function DoExtract(layout: Layout, force: bool, useOfficialAssets: bool, obs: Observation): Result
  {
    if !obs.versionFileFound then Value(!obs.assetFound || force)
    else if useOfficialAssets || !layout.isReplaceable then
      match obs.localVersion
      case None => Value(true)
      case Some(local) =>
        match obs.bundled
        case Loaded(bundled) => Value(Newer(bundled, local, force))
        case _ => Error(LoadError(obs.bundled))
    else Value(force)
  }

  /** A boolean or the error that cut its computation short. */
  datatype Result = Value(b: bool) | Error(err: AssetError)

  /**
   * Lines 98-136: the decision, with the bundled version loaded when the
   * extraction needs it and the comparison has not already loaded it.
   */
  function Decide(layout: Layout, force: bool, useOfficialAssets: bool, obs: Observation): Decision
  {
    match DoExtract(layout, force, useOfficialAssets, obs)
    case Error(e) => Abort(e)
    case Value(doExtract) =>
      if !doExtract then Keep
      else match obs.bundled
        case Loaded(v) => Extract(v)
        case _ => Abort(LoadError(obs.bundled))
  }

  /** Whether the decision goes on to extract (or tries to, and fails loading the bundled version). */
  predicate WantsExtract(layout: Layout, force: bool, useOfficialAssets: bool, obs: Observation)
  {
    match DoExtract(layout, force, useOfficialAssets, obs)
    case Error(_) => false
    case Value(b) => b
  }

  /** Without a version file, the asset is extracted exactly when it is missing or `force` is set. */
  lemma NoVersionFileRule(layout: Layout, force: bool, useOfficialAssets: bool, obs: Observation)
    requires !obs.versionFileFound
    ensures var d := Decide(layout, force, useOfficialAssets, obs);
      && (d != Keep <==> !obs.assetFound || force)
      && (d.Extract? <==> (!obs.assetFound || force) && obs.bundled.Loaded?)
  {
  }

  /** A replaceable asset with a version file is left alone under an unofficial source unless `force` is set. */
  lemma UnofficialSourceRule(layout: Layout, force: bool, obs: Observation)
    requires obs.versionFileFound && layout.isReplaceable
    ensures Decide(layout, force, false, obs) != Keep <==> force
  {
  }

  /**
   * With a version file under an official source (or for a non-replaceable
   * asset) and both versions read: numeric comparison when both parse,
   * text comparison when the bundled one does not, and always extraction
   * when only the local one does not.
   */
  lemma OfficialComparisonRule(layout: Layout, force: bool, useOfficialAssets: bool, obs: Observation, local: string, bundled: string)
    requires obs.versionFileFound && (useOfficialAssets || !layout.isReplaceable)
    requires obs.localVersion == Some(local) && obs.bundled == Loaded(bundled)
    ensures var d := Decide(layout, force, useOfficialAssets, obs);
      && (ParseUint64(bundled).Some? && ParseUint64(local).Some? ==>
            (d == Extract(bundled) <==> ParseUint64(bundled).value > ParseUint64(local).value || force))
      && (ParseUint64(bundled).None? ==> (d == Extract(bundled) <==> bundled != local || force))
      && (ParseUint64(bundled).Some? && ParseUint64(local).None? ==> d == Extract(bundled))
      && (d == Keep || d == Extract(bundled))
  {
  }

  /** An unreadable local version file forces extraction, which then depends only on loading the bundled version. */
  lemma UnreadableLocalVersionRule(layout: Layout, force: bool, useOfficialAssets: bool, obs: Observation)
    requires obs.versionFileFound && (useOfficialAssets || !layout.isReplaceable) && obs.localVersion.None?
    ensures Decide(layout, force, useOfficialAssets, obs)
         == if obs.bundled.Loaded? then Extract(obs.bundled.version) else Abort(LoadError(obs.bundled))
  {
  }

  /** A failed load of the bundled version is returned as an error, whether `force` is set or not, and nothing is extracted. */
  lemma BundledFailureRule(layout: Layout, force: bool, useOfficialAssets: bool, obs: Observation)
    requires obs.versionFileFound && (useOfficialAssets || !layout.isReplaceable) && obs.localVersion.Some?
    requires !obs.bundled.Loaded?
    ensures Decide(layout, force, useOfficialAssets, obs) == Abort(LoadError(obs.bundled))
  {
  }

  /**
   * `force` extracts on every branch, unless the bundled version cannot be
   * loaded; and an error only ever comes from that load.
   */
  lemma ForceRule(layout: Layout, useOfficialAssets: bool, obs: Observation)
    ensures var d := Decide(layout, true, useOfficialAssets, obs);
      && (d.Extract? <==> obs.bundled.Loaded?)
      && (d.Abort? <==> !obs.bundled.Loaded?)
  {
  }

  /** An extraction always records the bundled version, and an error is always a failed load. */
  lemma DecisionSources(layout: Layout, force: bool, useOfficialAssets: bool, obs: Observation)
    ensures var d := Decide(layout, force, useOfficialAssets, obs);
      && (d.Extract? ==> obs.bundled == Loaded(d.version))
      && (d.Abort? ==> !obs.bundled.Loaded? && d.err == LoadError(obs.bundled))
  {
  }

  /** Under an official source a bundled version that is not newer than the local one is never extracted without `force`. */
  lemma NoDowngrade(layout: Layout, useOfficialAssets: bool, obs: Observation, local: string, bundled: string)
    requires obs.versionFileFound && (useOfficialAssets || !layout.isReplaceable)
    requires obs.localVersion == Some(local) && obs.bundled == Loaded(bundled)
    requires ParseUint64(bundled).Some? && ParseUint64(local).Some?
    requires ParseUint64(bundled).value <= ParseUint64(local).value
    ensures Decide(layout, false, useOfficialAssets, obs) == Keep
  {
  }

  // ---------------------------------------------------------------------
  // The whole call

  /** Whether each write of the extraction succeeds. */
  datatype Io = Io(
    extractOk: bool,   // extractAsset(assetsPrefix + name + ".xz", dir + name), then unxz(dir + name)
    createOk: bool,    // os.Create(dir + version)
    writeOk: bool)     // io.WriteString of the bundled version

  /** What one call of `extractAssetName` did. */
  datatype AssetResult =
    | Kept                                                        // returned nil, wrote nothing
    | Failed(err: AssetError)                                     // returned an error before writing
    | ExtractFailed(source: string, target: string)               // the copy or decompression failed
    | Extracted(source: string, target: string, versionPath: string, version: string, recorded: Option<AssetError>)

  /** `extractAssetName(name, force, useOfficialAssets)`. */
  function ExtractAssetName(name: string, force: bool, useOfficialAssets: bool, paths: AssetPaths, obs: Observation, io: Io): AssetResult
  {
    var layout := LayoutOf(name, paths);
    match Decide(layout, force, useOfficialAssets, obs)
    case Keep => Kept
    case Abort(e) => Failed(e)
    case Extract(version) =>
      var source, target := paths.assetsPrefix + name + ".xz", layout.dir + name;
      if !io.extractOk then ExtractFailed(source, target)
      else
        var recorded := if !io.createOk then Some(CreateVersionError) else if !io.writeOk then Some(WriteVersionError) else None;
        Extracted(source, target, layout.dir + layout.versionFile, version, recorded)
  }

  /** The error `extractAssetName` returns: nil exactly when it kept the asset or extracted it and recorded the version. */
  function ReturnedError(r: AssetResult): Option<AssetError>
  {
    match r
    case Kept => None
    case Failed(e) => Some(e)
    case ExtractFailed(_, _) => Some(ExtractError)
    case Extracted(_, _, _, _, recorded) => recorded
  }

  /**
   * A successful extraction copies `<prefix><name>.xz` over `<dir><name>` and
   * writes the bundled version into `<dir><version file>`; without an
   * extraction nothing is written.
   */
  lemma ExtractionWritesBundledVersion(name: string, force: bool, useOfficialAssets: bool, paths: AssetPaths, obs: Observation, io: Io)
    ensures var r, layout := ExtractAssetName(name, force, useOfficialAssets, paths, obs, io), LayoutOf(name, paths);
      && (r.Extracted? ==>
            && obs.bundled == Loaded(r.version)
            && r.source == paths.assetsPrefix + name + ".xz"
            && r.target == layout.dir + name
            && r.versionPath == layout.dir + layout.versionFile)
      && (r.Kept? <==> Decide(layout, force, useOfficialAssets, obs) == Keep)
      && (ReturnedError(r).None? <==> r.Kept? || (r.Extracted? && io.createOk && io.writeOk))
  {
    DecisionSources(LayoutOf(name, paths), force, useOfficialAssets, obs);
  }

  /**
   * Running again after a successful extraction, with the version file and
   * asset now in place, the same bundled version and no `force`, keeps the
   * asset.
   */
  lemma SecondRunKeeps(name: string, useOfficialAssets: bool, paths: AssetPaths, obs: Observation, io: Io, io': Io)
    requires ExtractAssetName(name, false, useOfficialAssets, paths, obs, io).Extracted?
    requires io.createOk && io.writeOk
    ensures var v := ExtractAssetName(name, false, useOfficialAssets, paths, obs, io).version;
      ExtractAssetName(name, false, useOfficialAssets, paths, Observation(true, true, Some(v), obs.bundled), io') == Kept
  {
    DecisionSources(LayoutOf(name, paths), false, useOfficialAssets, obs);
  }

  /**
   * `extractV2RayAssets`: nothing on a Nekoray device; otherwise the three
   * assets in order, never forced, under the source choice read once.
   * The errors are only logged.
   */
  function ExtractV2RayAssets(isNekoray: bool, useOfficialAssets: bool, paths: AssetPaths,
                              obs: string -> Observation, io: string -> Io): seq<(string, AssetResult)>
  {
    if isNekoray then []
    else
      var names := [GeoipDat, GeositeDat, BrowserForwarder];
      seq(3, i requires 0 <= i < 3 => (names[i], ExtractAssetName(names[i], false, useOfficialAssets, paths, obs(names[i]), io(names[i]))))
  }

  /** A Nekoray device extracts nothing; any other tries each asset once, geoip first and the forwarder last, unforced. */
  lemma ExtractV2RayAssetsRuns(isNekoray: bool, useOfficialAssets: bool, paths: AssetPaths,
                               obs: string -> Observation, io: string -> Io)
    ensures var r := ExtractV2RayAssets(isNekoray, useOfficialAssets, paths, obs, io);
      && (isNekoray <==> r == [])
      && (!isNekoray ==>
            && |r| == 3 && r[0].0 == GeoipDat && r[1].0 == GeositeDat && r[2].0 == BrowserForwarder
            && forall i :: 0 <= i < 3 ==> r[i].1 == ExtractAssetName(r[i].0, false, useOfficialAssets, paths, obs(r[i].0), io(r[i].0)))
  {
  }

  // ---------------------------------------------------------------------
  // The file seeker

  /** `filepath.Split(path)`'s file part: what follows the last `/`. */
  function FileName(path: string): (r: string)
    ensures |r| <= |path| && r == path[|path| - |r|..]
    ensures '/' !in r
    ensures |r| == |path| || path[|path| - |r| - 1] == '/'
  {
    if path == [] || path[|path| - 1] == '/' then []
    else FileName(path[..|path| - 1]) + [path[|path| - 1]]
  }

  /** What a `NewFileSeeker` call returns. */
  datatype Seek =
    | Asset(assetPath: string)          // the APK asset, opened
    | AssetMissing(assetPath: string)   // "open index.html in assets"
    | Opened(path: string)              // os.Open of the first existing candidate
    | NotFound(lastTried: string)       // the os.Stat error of the last candidate

  /** The directories the hook was installed with (`setupV2rayFileSystem`'s arguments). */
  datatype SeekerDirs = SeekerDirs(internalAssets: string, externalAssets: string)

  /** The candidate paths of a non-`index.html` file, in lookup order. */
  function Candidates(dirs: SeekerDirs, fileName: string): seq<string>
  {
    [dirs.internalAssets + fileName, dirs.externalAssets + fileName]
  }

  /** The first candidate that exists, or none. */
  function FirstExisting(candidates: seq<string>, files: set<string>): (r: Option<nat>)
    ensures r.Some? ==> r.value < |candidates| && candidates[r.value] in files
    ensures r.Some? ==> forall j :: 0 <= j < r.value ==> candidates[j] !in files
    ensures r.None? <==> forall j :: 0 <= j < |candidates| ==> candidates[j] !in files
  {
    if candidates == [] then None
    else if candidates[0] in files then Some(0)
    else match FirstExisting(candidates[1..], files)
      case Some(k) => Some(k + 1)
      case None => None
  }

  /** The lookup the seeker closure performs. */
  function SeekSpec(path: string, assetsPrefix: string, dirs: SeekerDirs, apk: set<string>, files: set<string>): Seek
  {
    var fileName := FileName(path);
    if fileName == "index.html" then
      if assetsPrefix + fileName in apk then Asset(assetsPrefix + fileName) else AssetMissing(assetsPrefix + fileName)
    else
      var candidates := Candidates(dirs, fileName);
      match FirstExisting(candidates, files)
      case Some(i) => Opened(candidates[i])
      case None => NotFound(candidates[|candidates| - 1])
  }

  /**
   * The `filesystem.NewFileSeeker` closure: `index.html` straight from the
   * APK; any other file from the first of the internal and external
   * directories that has it, or the last `os.Stat` error.
   */
  method NewFileSeeker(path: string, assetsPrefix: string, dirs: SeekerDirs, apk: set<string>, files: set<string>)
    returns (r: Seek)
    ensures r == SeekSpec(path, assetsPrefix, dirs, apk, files)
  {
    var fileName := FileName(path);
    if fileName == "index.html" {
      if assetsPrefix + fileName in apk {
        return Asset(assetsPrefix + fileName);
      }
      return AssetMissing(assetsPrefix + fileName);
    }
    var paths := Candidates(dirs, fileName);
    var last := "";
    for i := 0 to |paths|
      invariant forall j :: 0 <= j < i ==> paths[j] !in files
      invariant i > 0 ==> last == paths[i - 1]
    {
      last := paths[i];
      if paths[i] in files {
        return Opened(paths[i]);
      }
    }
    return NotFound(last);
  }

  /**
   * `index.html` never touches the directories; any other file is opened
   * from the internal directory when it is there, from the external one
   * otherwise, and is not found only when neither has it.
   */
  lemma SeekOrder(path: string, assetsPrefix: string, dirs: SeekerDirs, apk: set<string>, files: set<string>)
    ensures var r, n := SeekSpec(path, assetsPrefix, dirs, apk, files), FileName(path);
      && (n == "index.html" ==> r == SeekSpec(path, assetsPrefix, dirs, apk, {}) && (r.Asset? <==> assetsPrefix + n in apk))
      && (n != "index.html" && dirs.internalAssets + n in files ==> r == Opened(dirs.internalAssets + n))
      && (n != "index.html" && dirs.internalAssets + n !in files && dirs.externalAssets + n in files ==> r == Opened(dirs.externalAssets + n))
      && (n != "index.html" ==> (r.NotFound? <==> dirs.internalAssets + n !in files && dirs.externalAssets + n !in files))
      && (r.Opened? ==> r.path in files)
  {
  }

  /** `setupV2rayFileSystem`: installs the seeker over the two directories, except on a Nekoray device. */
  function SetupV2rayFileSystem(isNekoray: bool, internalAssets: string, externalAssets: string): Option<SeekerDirs>
  {
    if isNekoray then None else Some(SeekerDirs(internalAssets, externalAssets))
  }

  /** The hook is installed exactly off Nekoray, over the directories it was given. */
  lemma SetupInstallsUnlessNekoray(isNekoray: bool, internalAssets: string, externalAssets: string)
    ensures var r := SetupV2rayFileSystem(isNekoray, internalAssets, externalAssets);
      && (r.None? <==> isNekoray)
      && (r.Some? ==> r.value.internalAssets == internalAssets && r.value.externalAssets == externalAssets)
  {
  }
}
