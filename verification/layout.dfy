/** The formula's `install` step and its `test` block: which repository files
    are placed in which directory of the installed package, per platform, and
    which of those paths the self-test asserts. */
module Layout {
  import opened Wrappers

  /** The host operating system as the formula sees it through `OS.mac?` and
      `OS.linux?`; `Other` is any host for which both are false. */
  datatype Platform = MacOS | Linux | Other

  /** The files the formula handles, by their fixed names. */
  datatype FileName =
    | MonitorScript     // claude-usage.sh
    | ConfigureHelper   // configure-claude-json.sh
    | AutostartHelper   // setup-swiftbar-autostart-macos.sh
    | PolybarSnippet    // config-snippet.ini
    | Readme            // README.md
    | ManualInstall     // MANUAL_INSTALL.md

  /** The repository directories the installed files come from. */
  datatype SourceDir =
    | RepoRoot          // the repository root
    | Scripts           // scripts/
    | PolybarPlugin     // plugins/polybar/

  /** The directories of the installed package the formula writes to. */
  datatype PackageDir =
    | Bin               // bin
    | SwiftBarStaging   // share/swiftbar-plugins
    | PolybarModules    // share/polybar-modules
    | Doc               // doc

  /** A file inside the installed package. */
  datatype KegPath = KegPath(dir: PackageDir, file: FileName)

  /** One `install` call: the repository file `source/file` is placed, under
      its own name, in the package directory `dest`. */
  datatype Placement = Placement(source: SourceDir, file: FileName, dest: PackageDir)

  /** The path `install` writes for a placement. */
  function InstalledPath(p: Placement): KegPath {
    KegPath(p.dest, p.file)
  }

  /** The placements `install` performs, in order. The platform-specific ones
      come first; both documentation files are installed on every platform. */
  function Install(platform: Platform): seq<Placement> {
    var specific :=
      match platform
      case MacOS =>
        [ Placement(RepoRoot, MonitorScript, SwiftBarStaging),
          Placement(Scripts, ConfigureHelper, Bin),
          Placement(Scripts, AutostartHelper, Bin) ]
      case Linux =>
        [ Placement(RepoRoot, MonitorScript, Bin),
          Placement(PolybarPlugin, PolybarSnippet, PolybarModules),
          Placement(Scripts, ConfigureHelper, Bin) ]
      case Other => [];
    specific + [ Placement(RepoRoot, Readme, Doc), Placement(RepoRoot, ManualInstall, Doc) ]
  }

  /** Every path the install step writes for a platform. */
  function InstalledPaths(platform: Platform): set<KegPath> {
    set p | p in Install(platform) :: InstalledPath(p)
  }

  /** Where each file belongs, as a table independent of the order of the
      `install` calls: the monitor script in the SwiftBar staging directory on
      macOS and in `bin` on Linux; the JSON configuration helper in `bin` on
      both; the autostart helper only on macOS; the Polybar snippet only on
      Linux; both documents in `doc` on every platform. */
  function Destination(platform: Platform, file: FileName): Option<PackageDir> {
    match file
    case MonitorScript =>
      if platform == MacOS then Some(SwiftBarStaging) else if platform == Linux then Some(Bin) else None
    case ConfigureHelper => if platform != Other then Some(Bin) else None
    case AutostartHelper => if platform == MacOS then Some(Bin) else None
    case PolybarSnippet => if platform == Linux then Some(PolybarModules) else None
    case Readme => Some(Doc)
    case ManualInstall => Some(Doc)
  }

  /** `install` writes exactly the paths the destination table names. */
  lemma InstallMatchesDestinations(platform: Platform)
    ensures forall d: PackageDir, f: FileName ::
      KegPath(d, f) in InstalledPaths(platform) <==> Destination(platform, f) == Some(d)
  {
    var l := Install(platform);
    forall d: PackageDir, f: FileName
      ensures KegPath(d, f) in InstalledPaths(platform) <==> Destination(platform, f) == Some(d)
    {
      if KegPath(d, f) in InstalledPaths(platform) {
        var p :| p in l && InstalledPath(p) == KegPath(d, f);
        PlacementInTable(platform, p);
      }
      if Destination(platform, f) == Some(d) {
        var i := TableInPlacements(platform, f);
        assert l[i] in l;
      }
    }
  }

  lemma PlacementInTable(platform: Platform, p: Placement)
    requires p in Install(platform)
    ensures Destination(platform, p.file) == Some(p.dest)
  {
    var l := Install(platform);
    if platform == Other {
      assert p == l[0] || p == l[1];
    } else {
      assert p == l[0] || p == l[1] || p == l[2] || p == l[3] || p == l[4];
    }
  }

  lemma TableInPlacements(platform: Platform, f: FileName) returns (i: nat)
    requires Destination(platform, f).Some?
    ensures i < |Install(platform)|
    ensures Install(platform)[i].file == f && Install(platform)[i].dest == Destination(platform, f).value
  {
    var l := Install(platform);
    var n := |l|;
    match f
    case MonitorScript => i := 0;
    case ConfigureHelper => i := if platform == MacOS then 1 else 2;
    case AutostartHelper => i := 2;
    case PolybarSnippet => i := 1;
    case Readme => i := n - 2;
    case ManualInstall => i := n - 1;
  }

  /** Where each file is read from in the repository: the helper scripts from
      `scripts/`, the Polybar snippet from `plugins/polybar/`, the monitor
      script and the documents from the root. */
  function SourceOf(file: FileName): SourceDir {
    match file
    case ConfigureHelper => Scripts
    case AutostartHelper => Scripts
    case PolybarSnippet => PolybarPlugin
    case _ => RepoRoot
  }

  /** Every placement reads its file from the repository directory the source
      table names. */
  lemma InstallReadsFromSources(platform: Platform)
    ensures forall p :: p in Install(platform) ==> p.source == SourceOf(p.file)
  {
  }

  /** No two placements of a platform write the same path, so no placement
      overwrites another. */
  lemma InstalledPathsDistinct(platform: Platform)
    ensures forall i, j :: 0 <= i < j < |Install(platform)| ==>
      InstalledPath(Install(platform)[i]) != InstalledPath(Install(platform)[j])
  {
  }

  /** What the self-test asserts of an installed path. */
  datatype Check = Executable | Exists

  datatype TestAssertion = TestAssertion(path: KegPath, check: Check)

  /** The assertions of the `test` block, in order. The first one is made on
      every platform, the rest only on the two supported ones. */
  function TestBlock(platform: Platform): seq<TestAssertion> {
    [TestAssertion(KegPath(Bin, ConfigureHelper), Executable)] +
    match platform
    case MacOS =>
      [ TestAssertion(KegPath(Bin, AutostartHelper), Executable),
        TestAssertion(KegPath(SwiftBarStaging, MonitorScript), Exists) ]
    case Linux =>
      [ TestAssertion(KegPath(Bin, MonitorScript), Executable),
        TestAssertion(KegPath(PolybarModules, PolybarSnippet), Exists) ]
    case Other => []
  }

  /** Every path the self-test asserts is one the install step writes, on
      exactly the supported platforms: on any other host the unconditional
      check of the JSON configuration helper names a file never installed. */
  lemma TestPathsAreInstalled(platform: Platform)
    ensures (forall a :: a in TestBlock(platform) ==> a.path in InstalledPaths(platform))
        <==> platform != Other
  {
    InstallMatchesDestinations(platform);
    var t := TestBlock(platform);
    if platform != Other {
      assert |t| == 3;
      forall a | a in t
        ensures a.path in InstalledPaths(platform)
      {
        assert a == t[0] || a == t[1] || a == t[2];
      }
    } else {
      assert t[0].path !in InstalledPaths(platform);
    }
  }
}
