/** Properties of the launch coordinator's handlers. */
module LaunchProperties {
  import opened Strings
  import opened Launch

  // ------------------------------------------------------------ argv filter

  lemma {:induction false} SubsequenceCounts(r: seq<string>, s: seq<string>)
    requires IsSubsequence(r, s)
    ensures multiset(r) <= multiset(s)
    decreases |s|
  {
    if r != [] {
      assert s == [s[0]] + s[1..];
      if r[0] == s[0] && IsSubsequence(r[1..], s[1..]) {
        SubsequenceCounts(r[1..], s[1..]);
        assert r == [r[0]] + r[1..];
      } else {
        SubsequenceCounts(r, s[1..]);
      }
    }
  }

  /**
   * The filter is the only order-preserving selection that keeps every
   * argument not starting with "--" and no argument that does: `KeepFiles`
   * is pinned down by its contract.
   */
  lemma {:induction false} KeepFilesUnique(args: seq<string>, r: seq<string>)
    requires IsSubsequence(r, args)
    requires forall f :: multiset(r)[f] == if StartsWith(f, "--") then 0 else multiset(args)[f]
    ensures r == KeepFiles(args)
    decreases |args|
  {
    if args != [] {
      var a := args[0];
      assert args == [a] + args[1..];
      if r != [] && r[0] == a && IsSubsequence(r[1..], args[1..]) {
        assert r == [a] + r[1..];
        assert multiset(r)[a] > 0;
        assert !StartsWith(a, "--");
        forall f ensures multiset(r[1..])[f] == if StartsWith(f, "--") then 0 else multiset(args[1..])[f] {
          assert multiset(r)[f] == multiset(r[1..])[f] + (if f == a then 1 else 0);
        }
        KeepFilesUnique(args[1..], r[1..]);
      } else if r == [] {
        forall f ensures multiset(r)[f] == if StartsWith(f, "--") then 0 else multiset(args[1..])[f] {
          assert multiset(args)[f] == multiset(args[1..])[f] + (if f == a then 1 else 0);
        }
        KeepFilesUnique(args[1..], r);
        assert multiset(args)[a] > 0;
      } else {
        assert IsSubsequence(r, args[1..]);
        SubsequenceCounts(r, args[1..]);
        assert multiset(r)[a] <= multiset(args[1..])[a];
        assert multiset(args)[a] == multiset(args[1..])[a] + 1;
        forall f ensures multiset(r)[f] == if StartsWith(f, "--") then 0 else multiset(args[1..])[f] {
          assert multiset(args)[f] == multiset(args[1..])[f] + (if f == a then 1 else 0);
        }
        KeepFilesUnique(args[1..], r);
      }
    }
  }

  /** A command line with no more than the executable and its first argument names no file. */
  lemma ShortCommandLineNamesNoFile(argv: seq<string>)
    requires |argv| <= 2
    ensures FileArgs(argv) == []
  {
  }

  /** The file arguments are the arguments after the first two, minus the flags. */
  lemma FileArgsDropsFlags(argv: seq<string>, f: string)
    ensures f in FileArgs(argv) <==> (!StartsWith(f, "--") && exists i :: 2 <= i < |argv| && argv[i] == f)
  {
    var tail := AfterFirstTwo(argv);
    assert multiset(FileArgs(argv))[f] == if StartsWith(f, "--") then 0 else multiset(tail)[f];
    if exists i :: 2 <= i < |argv| && argv[i] == f {
      var i :| 2 <= i < |argv| && argv[i] == f;
      assert tail[i - 2] == f;
    }
    if f in tail {
      var j :| 0 <= j < |tail| && tail[j] == f;
      assert argv[j + 2] == f;
    }
  }

  // ----------------------------------------------------------- file hand-off

  /** The pending list at process start is exactly the command line's file arguments; nothing has been sent. */
  lemma StartupPendsFileArgs(argv: seq<string>)
    ensures Startup(argv).pendingFiles == FileArgs(argv)
    ensures !Startup(argv).hasWindow && Startup(argv).effects == [] && Startup(argv).thumbar == []
  {
  }

  /**
   * With a window, a batch becomes exactly one message and the pending list is
   * left alone; without one, nothing is sent and the batch becomes the pending list.
   */
  lemma SendFilesRoutes(s: LaunchState, paths: seq<string>)
    ensures var r := SendFiles(s, paths);
      && r.hasWindow == s.hasWindow && r.thumbar == s.thumbar
      && (s.hasWindow ==> r.effects == s.effects + [Send(OpenFiles(paths))] && r.pendingFiles == s.pendingFiles)
      && (!s.hasWindow ==> r.effects == s.effects && r.pendingFiles == paths)
  {
  }

  /** `did-finish-load` delivers the whole pending list as one batch and empties it; a reload sends nothing more. */
  lemma DidFinishLoadDelivers(s: LaunchState)
    requires s.hasWindow
    ensures DidFinishLoad(s).pendingFiles == []
    ensures |s.pendingFiles| > 0 ==> DidFinishLoad(s).effects == s.effects + [Send(OpenFiles(s.pendingFiles))]
    ensures s.pendingFiles == [] ==> DidFinishLoad(s) == s
    ensures DidFinishLoad(DidFinishLoad(s)) == DidFinishLoad(s)
  {
  }

  /** A relaunch without file arguments sends no file message and leaves the pending list as it was. */
  lemma SecondInstanceWithoutFiles(s: LaunchState, argv: seq<string>, minimized: bool)
    requires FileArgs(argv) == []
    ensures var r := SecondInstance(s, argv, minimized);
      && r.pendingFiles == s.pendingFiles
      && r.effects == s.effects + (if s.hasWindow then (if minimized then [Restore] else []) + [Focus] else [])
  {
  }

  /** With a window, a relaunch's files are sent before the window is restored and focused. */
  lemma SecondInstanceWithWindow(s: LaunchState, argv: seq<string>, minimized: bool)
    requires s.hasWindow && FileArgs(argv) != []
    ensures var r := SecondInstance(s, argv, minimized);
      && r.pendingFiles == s.pendingFiles
      && r.effects == s.effects + [Send(OpenFiles(FileArgs(argv)))] + (if minimized then [Restore] else []) + [Focus]
  {
  }

  /**
   * A file opened after the window is created but before the page has loaded
   * is sent at once, on its own; the command-line files stay pending and
   * follow when the page finishes loading.
   */
  lemma OpenFileBeforeLoadIsSentDirectly(argv: seq<string>, path: string)
    requires FileArgs(argv) != []
    ensures var s := OpenFile(WindowCreated(Startup(argv)), path);
      && s.effects == [Send(OpenFiles([path]))]
      && s.pendingFiles == FileArgs(argv)
      && DidFinishLoad(s).effects == [Send(OpenFiles([path])), Send(OpenFiles(FileArgs(argv)))]
  {
  }

  // ------------------------------------------------ controls and the taskbar

  /** Without a window `setThumbar` changes nothing. */
  lemma ThumbarNeedsWindow(s: LaunchState, isPlaying: bool)
    requires !s.hasWindow
    ensures SetThumbar(s, isPlaying) == s
  {
  }

  /**
   * The taskbar always holds the three buttons previous, play/pause and next,
   * in that order; only the middle one depends on the playing flag: it
   * offers "Pause" with the pause icon when playing and "Play" with the play
   * icon otherwise.
   */
  lemma ThumbarLayout(isPlaying: bool)
    ensures var b := ThumbarButtons(isPlaying);
      && |b| == 3
      && b[0].control == Prev && b[1].control == PlayPause && b[2].control == Next
      && b[0] == ThumbarButtons(!isPlaying)[0] && b[2] == ThumbarButtons(!isPlaying)[2]
      && b[0].tooltip == "Précédent" && b[2].tooltip == "Suivant"
      && b[1].tooltip == (if isPlaying then "Pause" else "Play")
      && b[1].icon == (if isPlaying then "assets/windows/pause.png" else "assets/windows/play.png")
      && b[1].icon != ThumbarButtons(!isPlaying)[1].icon
  {
  }

  /** The three commands go out under three different names. */
  lemma ControlNamesDistinct(c: Control, d: Control)
    ensures ControlName(c) == ControlName(d) <==> c == d
  {
  }

  /** Each command is sent by exactly one media key. */
  lemma EachControlHasOneKey(c: Control)
    ensures exists k :: KeyControl(k) == c
    ensures forall k, j :: KeyControl(k) == c && KeyControl(j) == c ==> k == j
  {
    var k := match c case PlayPause => MediaPlayPause case Next => MediaNextTrack case Prev => MediaPreviousTrack;
    assert KeyControl(k) == c;
  }

  /** The taskbar button that sends the same command as a media key. */
  function ButtonFor(k: MediaKey): (i: nat)
    ensures i < 3
    ensures forall p :: ThumbarButtons(p)[i].control == KeyControl(k)
  {
    match k
    case MediaPreviousTrack => 0
    case MediaPlayPause => 1
    case MediaNextTrack => 2
  }

  /** Clicking a taskbar button sends the page the same message as pressing the matching media key. */
  lemma ButtonsAgreeWithKeys(s: LaunchState, isPlaying: bool, k: MediaKey)
    requires s.hasWindow
    ensures var t := SetThumbar(s, isPlaying);
      ButtonFor(k) < |t.thumbar| && ThumbarClicked(t, ButtonFor(k)) == MediaKeyPressed(t, k)
  {
  }

  // -------------------------------------------------------------- invariant

  /** Nothing is sent and no taskbar button exists before the window does. */
  predicate Consistent(s: LaunchState)
  {
    !s.hasWindow ==> s.effects == [] && s.thumbar == []
  }

  lemma StartupConsistent(argv: seq<string>)
    ensures Consistent(Startup(argv))
  {
  }

  /** Every handler keeps the coordinator consistent. */
  lemma HandleKeepsConsistent(s: LaunchState, e: Event)
    requires Consistent(s) && Enabled(s, e)
    ensures Consistent(Handle(s, e))
    ensures s.hasWindow ==> Handle(s, e).hasWindow
  {
  }

  /** Once the window is up and has taken the pending list, every later handler leaves the list empty. */
  lemma PendingStaysEmpty(s: LaunchState, e: Event)
    requires s.hasWindow && s.pendingFiles == [] && Enabled(s, e)
    ensures Handle(s, e).hasWindow && Handle(s, e).pendingFiles == []
  {
  }

  // ---------------------------------------------- several open-file signals

  /** Runs the `open-file` handler on each path in turn. */
  function OpenEach(s: LaunchState, paths: seq<string>): LaunchState
    decreases |paths|
  {
    if paths == [] then s else OpenEach(OpenFile(s, paths[0]), paths[1..])
  }

  function OpenEachQueued(s: LaunchState, paths: seq<string>): LaunchState
    decreases |paths|
  {
    if paths == [] then s else OpenEachQueued(OpenFileQueued(s, paths[0]), paths[1..])
  }

  /** As written: signals that arrive before the window each replace the pending list, so only the last survives. */
  lemma {:induction false} OpenEachKeepsLast(s: LaunchState, paths: seq<string>)
    requires !s.hasWindow && paths != []
    ensures OpenEach(s, paths) == s.(pendingFiles := [paths[|paths| - 1]])
    decreases |paths|
  {
    if |paths| > 1 {
      OpenEachKeepsLast(OpenFile(s, paths[0]), paths[1..]);
    }
  }

  /** Queued: signals that arrive before the window are all kept, in arrival order. */
  lemma {:induction false} OpenEachQueuedKeepsAll(s: LaunchState, paths: seq<string>)
    requires !s.hasWindow
    ensures OpenEachQueued(s, paths) == s.(pendingFiles := s.pendingFiles + paths)
    decreases |paths|
  {
    if paths != [] {
      OpenEachQueuedKeepsAll(OpenFileQueued(s, paths[0]), paths[1..]);
      assert s.pendingFiles + [paths[0]] + paths[1..] == s.pendingFiles + paths;
    }
  }

  /** Once the window exists, queueing and replacing behave alike: every signal is sent at once. */
  lemma {:induction false} OpenEachWithWindow(s: LaunchState, paths: seq<string>)
    requires s.hasWindow
    ensures OpenEach(s, paths) == OpenEachQueued(s, paths)
    ensures OpenEach(s, paths).pendingFiles == s.pendingFiles
    ensures |OpenEach(s, paths).effects| == |s.effects| + |paths|
    decreases |paths|
  {
    if paths != [] {
      OpenEachWithWindow(OpenFile(s, paths[0]), paths[1..]);
    }
  }

  /**
   * Two files opened before the window, then a third after the page has
   * loaded: as written, "/a.mp3" is never delivered.
   */
  lemma EarlierFileIsLost()
    ensures var s := DidFinishLoad(WindowCreated(OpenEach(Startup(["app", "."]), ["/a.mp3", "/b.mp3"])));
      OpenFile(s, "/c.mp3").effects == [Send(OpenFiles(["/b.mp3"])), Send(OpenFiles(["/c.mp3"]))]
  {
    OpenEachKeepsLast(Startup(["app", "."]), ["/a.mp3", "/b.mp3"]);
  }

  /** The same sequence with queueing: one batch with both files, then the third on its own. */
  lemma QueuedFilesAllDelivered()
    ensures var s := DidFinishLoad(WindowCreated(OpenEachQueued(Startup(["app", "."]), ["/a.mp3", "/b.mp3"])));
      && s.pendingFiles == []
      && OpenFileQueued(s, "/c.mp3").effects == [Send(OpenFiles(["/a.mp3", "/b.mp3"])), Send(OpenFiles(["/c.mp3"]))]
  {
    var s0 := Startup(["app", "."]);
    assert s0.pendingFiles == [];
    OpenEachQueuedKeepsAll(s0, ["/a.mp3", "/b.mp3"]);
    assert OpenEachQueued(s0, ["/a.mp3", "/b.mp3"]).pendingFiles == ["/a.mp3", "/b.mp3"];
  }
}
