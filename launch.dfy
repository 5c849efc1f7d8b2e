/**
 * The launch coordinator of the McIntosh DAP desktop shell (main.js): the
 * module-level window handle and pending-file list, the handlers that route
 * files opened through the operating system to the player page, and the
 * media-key and taskbar-button mappings.
 *
 * Each handler is specified by a pure step function over LaunchState; the
 * Coordinator class holds the same state in fields and performs the steps by
 * updating them. What the process sends or asks of its window is appended to
 * an effect log.
 */
module Launch {
  import opened Strings

  /** The transport commands sent on the `media-control` channel. */
  datatype Control = PlayPause | Next | Prev

  /** The string each command is sent as. */
  function ControlName(c: Control): string
  {
    match c
    case PlayPause => "play-pause"
    case Next => "next"
    case Prev => "prev"
  }

  /** The global shortcuts registered when the window is created. */
  datatype MediaKey = MediaPlayPause | MediaNextTrack | MediaPreviousTrack

  /** The command each media key forwards to the page (main.js:65-75). */
  function KeyControl(k: MediaKey): Control
  {
    match k
    case MediaPlayPause => PlayPause
    case MediaNextTrack => Next
    case MediaPreviousTrack => Prev
  }

  /** A taskbar button: its tooltip, its icon (relative to the application directory) and the command its click sends. */
  datatype ThumbButton = ThumbButton(tooltip: string, icon: string, control: Control)

  /** The three taskbar buttons `setThumbar(isPlaying)` installs (main.js:80-96). */
  function ThumbarButtons(isPlaying: bool): seq<ThumbButton>
  {
    [ ThumbButton("Précédent", "assets/windows/prev.png", Prev),
      ThumbButton(if isPlaying then "Pause" else "Play",
                  if isPlaying then "assets/windows/pause.png" else "assets/windows/play.png",
                  PlayPause),
      ThumbButton("Suivant", "assets/windows/next.png", Next) ]
  }

  /** The messages sent to the page. */
  datatype Message = OpenFiles(paths: seq<string>) | MediaControl(control: Control)

  /** What the coordinator does to the outside world: a message to the page, or restoring or focusing its window. */
  datatype Effect = Send(message: Message) | Restore | Focus

  // ------------------------------------------------------------ argv filter

  /** `args.filter(f => !f.startsWith('--'))`. */
  function KeepFiles(args: seq<string>): (r: seq<string>)
    ensures IsSubsequence(r, args)
    ensures forall f :: multiset(r)[f] == if StartsWith(f, "--") then 0 else multiset(args)[f]
    decreases |args|
  {
    if args == [] then []
    else
      var rest := KeepFiles(args[1..]);
      assert args == [args[0]] + args[1..];
      if StartsWith(args[0], "--") then
        rest
      else
        assert ([args[0]] + rest)[1..] == rest;
        [args[0]] + rest
  }

  /** `argv.slice(2)`: everything after the executable and the script or first argument. */
  function AfterFirstTwo(argv: seq<string>): seq<string>
  {
    if |argv| <= 2 then [] else argv[2..]
  }

  /** The file paths in a command line (main.js:16, main.js:27). */
  function FileArgs(argv: seq<string>): seq<string>
  {
    KeepFiles(AfterFirstTwo(argv))
  }

  /** `r` is `s` with some elements left out, the rest kept in order. */
  predicate IsSubsequence(r: seq<string>, s: seq<string>)
    decreases |s|
  {
    if r == [] then true
    else if s == [] then false
    else (r[0] == s[0] && IsSubsequence(r[1..], s[1..])) || IsSubsequence(r, s[1..])
  }

  // --------------------------------------------------------- handler steps

  /**
   * The coordinator's state: whether `win` is set, the pending file list,
   * the buttons currently on the taskbar, and the effect log.
   */
  datatype LaunchState = LaunchState(
    hasWindow: bool,
    pendingFiles: seq<string>,
    thumbar: seq<ThumbButton>,
    effects: seq<Effect>)

  /** Process start (main.js:4-5, 16-17): no window, and pending the files on the command line if there are any. */
  function Startup(argv: seq<string>): LaunchState
  {
    var openWithFiles := FileArgs(argv);
    LaunchState(false, if |openWithFiles| > 0 then openWithFiles else [], [], [])
  }

  /** `sendFilesToRenderer` (main.js:7-13): send when the window is set, otherwise replace the pending list. */
  function SendFiles(s: LaunchState, paths: seq<string>): LaunchState
  {
    if s.hasWindow then s.(effects := s.effects + [Send(OpenFiles(paths))])
    else s.(pendingFiles := paths)
  }

  /** The `open-file` event (main.js:20-23). */
  function OpenFile(s: LaunchState, path: string): LaunchState
  {
    SendFiles(s, [path])
  }

  /**
   * The `second-instance` event (main.js:26-30): forward the relaunch's file
   * arguments when there are any, then restore the window if minimized and
   * focus it. `minimized` is what `win.isMinimized()` reports.
   */
  function SecondInstance(s: LaunchState, argv: seq<string>, minimized: bool): LaunchState
  {
    var files := FileArgs(argv);
    var sent := if |files| > 0 then SendFiles(s, files) else s;
    if sent.hasWindow then sent.(effects := sent.effects + (if minimized then [Restore] else []) + [Focus])
    else sent
  }

  /** `createWindow` (main.js:35-36): `win` is set as soon as the window object exists. */
  function WindowCreated(s: LaunchState): LaunchState
    requires !s.hasWindow
  {
    s.(hasWindow := true)
  }

  /** The page's `did-finish-load` event (main.js:48-53): send the pending files as one batch and clear the list. */
  function DidFinishLoad(s: LaunchState): LaunchState
    requires s.hasWindow
  {
    if |s.pendingFiles| > 0 then SendFiles(s, s.pendingFiles).(pendingFiles := [])
    else s
  }

  /** `setThumbar` (main.js:78-97), run on `ready-to-show` with false and on each `update-thumbar` message. */
  function SetThumbar(s: LaunchState, isPlaying: bool): LaunchState
  {
    if !s.hasWindow then s else s.(thumbar := ThumbarButtons(isPlaying))
  }

  /** A registered media key is pressed (main.js:65-75). */
  function MediaKeyPressed(s: LaunchState, k: MediaKey): LaunchState
    requires s.hasWindow
  {
    s.(effects := s.effects + [Send(MediaControl(KeyControl(k)))])
  }

  /** The i-th taskbar button is clicked (main.js:84, 89, 94). */
  function ThumbarClicked(s: LaunchState, i: nat): LaunchState
    requires i < |s.thumbar|
  {
    s.(effects := s.effects + [Send(MediaControl(s.thumbar[i].control))])
  }

  /**
   * The queueing behaviour the file hand-off is meant to have: before the
   * window exists, signals append to the pending list instead of replacing
   * it, so none is lost. `SendFiles` is what main.js:11 does.
   */
  function SendFilesQueued(s: LaunchState, paths: seq<string>): LaunchState
  {
    if s.hasWindow then s.(effects := s.effects + [Send(OpenFiles(paths))])
    else s.(pendingFiles := s.pendingFiles + paths)
  }

  function OpenFileQueued(s: LaunchState, path: string): LaunchState
  {
    SendFilesQueued(s, [path])
  }

  /** The events the main process reacts to, one handler run at a time. */
  datatype Event =
    | OpenFileEvent(path: string)
    | SecondInstanceEvent(argv: seq<string>, minimized: bool)
    | AppReady
    | PageLoaded
    | ThumbarUpdate(isPlaying: bool)
    | KeyPressed(key: MediaKey)
    | ButtonClicked(index: nat)

  /**
   * Whether an event can occur in a state: the window is created once, and
   * the page, the shortcuts and the taskbar buttons exist only once it has been.
   */
  predicate Enabled(s: LaunchState, e: Event)
  {
    match e
    case AppReady => !s.hasWindow
    case PageLoaded => s.hasWindow
    case KeyPressed(_) => s.hasWindow
    case ButtonClicked(i) => i < |s.thumbar|
    case _ => true
  }

  /** Runs the handler of one event. */
  function Handle(s: LaunchState, e: Event): LaunchState
    requires Enabled(s, e)
  {
    match e
    case OpenFileEvent(p) => OpenFile(s, p)
    case SecondInstanceEvent(argv, m) => SecondInstance(s, argv, m)
    case AppReady => WindowCreated(s)
    case PageLoaded => DidFinishLoad(s)
    case ThumbarUpdate(p) => SetThumbar(s, p)
    case KeyPressed(k) => MediaKeyPressed(s, k)
    case ButtonClicked(i) => ThumbarClicked(s, i)
  }

  /** The main process's module state, updated in place by its event handlers. */
  class Coordinator {
    var hasWindow: bool
    var pendingFiles: seq<string>
    var thumbar: seq<ThumbButton>
    var effects: seq<Effect>

    function State(): LaunchState
      reads this
    {
      LaunchState(hasWindow, pendingFiles, thumbar, effects)
    }

    /** The module's top-level code, run once at process start with the process's command line. */
    constructor (argv: seq<string>)
      ensures State() == Startup(argv)
    {
      hasWindow, pendingFiles, thumbar, effects := false, [], [], [];
      var openWithFiles := FileArgs(argv);
      if |openWithFiles| > 0 {
        pendingFiles := openWithFiles;
      }
    }

    method SendFilesToRenderer(paths: seq<string>)
      modifies this
      ensures State() == SendFiles(old(State()), paths)
    {
      if hasWindow {
        effects := effects + [Send(OpenFiles(paths))];
      } else {
        pendingFiles := paths;
      }
    }

    method OnOpenFile(path: string)
      modifies this
      ensures State() == OpenFile(old(State()), path)
    {
      SendFilesToRenderer([path]);
    }

    method OnSecondInstance(argv: seq<string>, minimized: bool)
      modifies this
      ensures State() == SecondInstance(old(State()), argv, minimized)
    {
      var files := FileArgs(argv);
      if |files| > 0 {
        SendFilesToRenderer(files);
      }
      if hasWindow {
        if minimized {
          effects := effects + [Restore];
        }
        effects := effects + [Focus];
      }
    }

    method CreateWindow()
      requires !hasWindow
      modifies this
      ensures State() == WindowCreated(old(State()))
    {
      hasWindow := true;
    }

    method OnDidFinishLoad()
      requires hasWindow
      modifies this
      ensures State() == DidFinishLoad(old(State()))
    {
      if |pendingFiles| > 0 {
        SendFilesToRenderer(pendingFiles);
        pendingFiles := [];
      }
    }

    method SetThumbarButtons(isPlaying: bool)
      modifies this
      ensures State() == SetThumbar(old(State()), isPlaying)
    {
      if !hasWindow {
        return;
      }
      thumbar := ThumbarButtons(isPlaying);
    }

    method OnMediaKey(k: MediaKey)
      requires hasWindow
      modifies this
      ensures State() == MediaKeyPressed(old(State()), k)
    {
      effects := effects + [Send(MediaControl(KeyControl(k)))];
    }

    method OnThumbarClick(i: nat)
      requires i < |thumbar|
      modifies this
      ensures State() == ThumbarClicked(old(State()), i)
    {
      effects := effects + [Send(MediaControl(thumbar[i].control))];
    }
  }
}
