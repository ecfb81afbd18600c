/** The window-descriptor synchroniser (src/window/mod.rs).  The desired
    window configuration is a value; each frame `update_window` compares it with
    the copy stored from the previous change and fires the platform window's
    setters, which are modelled as entries of a command log.  `toggle_fullscreen`
    flips the desired mode on F10. */
module WindowSync {
  import opened Common

  datatype WindowMode = Windowed | BorderlessFullscreen | SizedFullscreen | Fullscreen

  /** The fields of the engine's window descriptor that the synchroniser reads. */
  datatype WindowDescriptor = WindowDescriptor(
    width: real,
    height: real,
    scaleFactorOverride: Option<real>,
    title: string,
    vsync: bool,
    resizable: bool,
    decorations: bool,
    cursorVisible: bool,
    cursorLocked: bool,
    mode: WindowMode)

  /** The setters of the primary window. */
  datatype WindowCommand =
    | SetResolution(width: real, height: real)
    | SetScaleFactorOverride(scale: Option<real>)
    | SetTitle(title: string)
    | SetVsync(vsync: bool)
    | SetResizable(resizable: bool)
    | SetDecorations(decorations: bool)
    | SetCursorVisibility(visible: bool)
    | SetCursorLockMode(locked: bool)
    | SetMode(mode: WindowMode)

  /** `compare_f32`: true when the two values are closer than epsilon, so in
      particular when they are equal. */
  function CompareF32(a: real, b: real): (close: bool)
    ensures close <==> b - F32Epsilon < a < b + F32Epsilon
    ensures a == b ==> close
  {
    var d := a - b;
    (if d < 0.0 then -d else d) < F32Epsilon
  }

  /** The mode match: the mode is re-applied unless both sides are Windowed or
      both are BorderlessFullscreen. */
  function ModeNeedsSetting(prev: WindowMode, curr: WindowMode): (needed: bool)
    ensures !needed <==> prev == curr && (curr == Windowed || curr == BorderlessFullscreen)
  {
    match (prev, curr)
    case (Windowed, Windowed) => false
    case (BorderlessFullscreen, BorderlessFullscreen) => false
    case _ => true
  }

  /** One `if` of `update_window`: a guard and the setter it fires. */
  datatype Check = Check(fires: bool, command: WindowCommand)

  /** The nine checks of one update, in the order the source makes them.  Each
      names a different setter, and only the resolution and mode checks can
      fire when nothing differs. */
  function Checks(prev: WindowDescriptor, curr: WindowDescriptor): (cs: seq<Check>)
    ensures |cs| == 9
    ensures forall i, j :: 0 <= i < j < |cs| ==> cs[i].command != cs[j].command
    ensures prev == curr ==> forall i :: 1 <= i < 8 ==> !cs[i].fires
  {
    [Check(CompareF32(prev.width, curr.width) || CompareF32(prev.height, curr.height),
           SetResolution(curr.width, curr.height)),
     Check(prev.scaleFactorOverride != curr.scaleFactorOverride,
           SetScaleFactorOverride(curr.scaleFactorOverride)),
     Check(prev.title != curr.title, SetTitle(curr.title)),
     Check(prev.vsync != curr.vsync, SetVsync(curr.vsync)),
     Check(prev.resizable != curr.resizable, SetResizable(curr.resizable)),
     Check(prev.decorations != curr.decorations, SetDecorations(curr.decorations)),
     Check(prev.cursorVisible != curr.cursorVisible, SetCursorVisibility(curr.cursorVisible)),
     Check(prev.cursorLocked != curr.cursorLocked, SetCursorLockMode(curr.cursorLocked)),
     Check(ModeNeedsSetting(prev.mode, curr.mode), SetMode(curr.mode))]
  }

  /** The setters of the checks that fire, in order. */
  function Fired(checks: seq<Check>): (r: seq<WindowCommand>)
    ensures |r| <= |checks|
  {
    if |checks| == 0 then []
    else (if checks[0].fires then [checks[0].command] else []) + Fired(checks[1..])
  }

  /** A setter named by only one check is fired at most once. */
  lemma {:induction false} FiredDistinct(checks: seq<Check>)
    requires forall i, j :: 0 <= i < j < |checks| ==> checks[i].command != checks[j].command
    ensures forall i, j :: 0 <= i < j < |Fired(checks)| ==> Fired(checks)[i] != Fired(checks)[j]
  {
    if |checks| > 0 {
      var rest := checks[1..];
      assert forall i, j :: 0 <= i < j < |rest| ==> rest[i].command != rest[j].command by {
        forall i, j | 0 <= i < j < |rest| ensures rest[i].command != rest[j].command {
          assert rest[i] == checks[i + 1] && rest[j] == checks[j + 1];
        }
      }
      FiredDistinct(rest);
      if checks[0].fires {
        FiredExactly(rest, checks[0].command);
        assert Fired(checks) == [checks[0].command] + Fired(rest);
      } else {
        assert Fired(checks) == Fired(rest);
      }
    }
  }

  /** The setters one update fires: at most one per check, and never the same
      setter twice. */
  function Setters(prev: WindowDescriptor, curr: WindowDescriptor): (cmds: seq<WindowCommand>)
    ensures |cmds| <= 9
    ensures forall i, j :: 0 <= i < j < |cmds| ==> cmds[i] != cmds[j]
  {
    FiredDistinct(Checks(prev, curr));
    Fired(Checks(prev, curr))
  }

  /** A setter is fired exactly when some check that fires names it. */
  lemma {:induction false} FiredExactly(checks: seq<Check>, c: WindowCommand)
    ensures c in Fired(checks) <==> exists i :: 0 <= i < |checks| && checks[i].fires && checks[i].command == c
  {
    if |checks| > 0 {
      FiredExactly(checks[1..], c);
      var head := if checks[0].fires then [checks[0].command] else [];
      assert Fired(checks) == head + Fired(checks[1..]);
      if c in Fired(checks[1..]) {
        var i :| 0 <= i < |checks| - 1 && checks[1..][i].fires && checks[1..][i].command == c;
        assert checks[i + 1].fires && checks[i + 1].command == c;
      }
      if exists i :: 0 <= i < |checks| && checks[i].fires && checks[i].command == c {
        var i :| 0 <= i < |checks| && checks[i].fires && checks[i].command == c;
        if i > 0 {
          assert checks[1..][i - 1] == checks[i];
        }
      }
    }
  }

  /** The mode F10 switches to; only the two modes the toggle produces can be
      toggled (any other mode is unreachable in the source). */
  function Toggled(m: WindowMode): (r: WindowMode)
    requires m == Windowed || m == BorderlessFullscreen
    ensures r == Windowed || r == BorderlessFullscreen
    ensures r != m
  {
    match m
    case Windowed => BorderlessFullscreen
    case BorderlessFullscreen => Windowed
  }

  /** The window resources: the desired descriptor, the `PrevWindow` copy and
      the log of setters issued to the primary window. */
  class WindowState {
    var descriptor: WindowDescriptor
    var prev: WindowDescriptor
    var issued: seq<WindowCommand>

    /** `prev` starts as the engine's default descriptor, given here. */
    constructor (desired: WindowDescriptor, engineDefault: WindowDescriptor)
      ensures descriptor == desired && prev == engineDefault && issued == []
    {
      descriptor := desired;
      prev := engineDefault;
      issued := [];
    }

    /** `toggle_fullscreen`: when F10 is among the keys pressed this frame, the
        desired mode flips between Windowed and BorderlessFullscreen; `written`
        tells whether the descriptor was written (and so is reported as changed
        to the next update). */
    method ToggleFullscreen(justPressed: set<KeyCode>) returns (written: bool)
      requires F10 in justPressed ==> descriptor.mode == Windowed || descriptor.mode == BorderlessFullscreen
      modifies this
      ensures written <==> F10 in justPressed
      ensures descriptor == if F10 in justPressed then old(descriptor).(mode := Toggled(old(descriptor).mode))
                            else old(descriptor)
      ensures prev == old(prev) && issued == old(issued)
    {
      written := false;
      if F10 in justPressed {
        var mode := match descriptor.mode
          case Windowed => BorderlessFullscreen
          case BorderlessFullscreen => Windowed;
        descriptor := descriptor.(mode := mode);
        written := true;
      }
    }

    /** `update_window`: when the descriptor was changed, fire the setters
        whose conditions hold, in order, and store the descriptor as the new
        `prev`; otherwise do nothing. */
    method UpdateWindow(changed: bool)
      modifies this
      ensures descriptor == old(descriptor)
      ensures !changed ==> prev == old(prev) && issued == old(issued)
      ensures changed ==> prev == descriptor && issued == old(issued) + Setters(old(prev), descriptor)
    {
      if changed {
        var curr := descriptor;
        issued := issued + Setters(prev, curr);
        prev := curr;
      }
    }
  }

  // ---------------------------------------------------------------------------
  // What one update fires

  /** A setter is fired by an update exactly when one of its nine checks
      fires and names it. */
  lemma InSetters(prev: WindowDescriptor, curr: WindowDescriptor, c: WindowCommand)
    ensures c in Setters(prev, curr) <==>
      exists i :: 0 <= i < 9 && Checks(prev, curr)[i].fires && Checks(prev, curr)[i].command == c
  {
    FiredExactly(Checks(prev, curr), c);
  }

  /** Each of the seven plain fields has its setter fired exactly when the
      field differs between `prev` and `curr`, and the setter carries `curr`'s
      value. */
  lemma ScaleFactorOverrideSetterFiresOnDifference(prev: WindowDescriptor, curr: WindowDescriptor, v: Option<real>)
    ensures SetScaleFactorOverride(v) in Setters(prev, curr) <==> prev.scaleFactorOverride != curr.scaleFactorOverride && v == curr.scaleFactorOverride
  {
    InSetters(prev, curr, SetScaleFactorOverride(v));
    assert Checks(prev, curr)[1].command == SetScaleFactorOverride(curr.scaleFactorOverride);
  }

  lemma TitleSetterFiresOnDifference(prev: WindowDescriptor, curr: WindowDescriptor, v: string)
    ensures SetTitle(v) in Setters(prev, curr) <==> prev.title != curr.title && v == curr.title
  {
    InSetters(prev, curr, SetTitle(v));
    assert Checks(prev, curr)[2].command == SetTitle(curr.title);
  }

  lemma VsyncSetterFiresOnDifference(prev: WindowDescriptor, curr: WindowDescriptor, v: bool)
    ensures SetVsync(v) in Setters(prev, curr) <==> prev.vsync != curr.vsync && v == curr.vsync
  {
    InSetters(prev, curr, SetVsync(v));
    assert Checks(prev, curr)[3].command == SetVsync(curr.vsync);
  }

  lemma ResizableSetterFiresOnDifference(prev: WindowDescriptor, curr: WindowDescriptor, v: bool)
    ensures SetResizable(v) in Setters(prev, curr) <==> prev.resizable != curr.resizable && v == curr.resizable
  {
    InSetters(prev, curr, SetResizable(v));
    assert Checks(prev, curr)[4].command == SetResizable(curr.resizable);
  }

  lemma DecorationsSetterFiresOnDifference(prev: WindowDescriptor, curr: WindowDescriptor, v: bool)
    ensures SetDecorations(v) in Setters(prev, curr) <==> prev.decorations != curr.decorations && v == curr.decorations
  {
    InSetters(prev, curr, SetDecorations(v));
    assert Checks(prev, curr)[5].command == SetDecorations(curr.decorations);
  }

  lemma CursorVisibleSetterFiresOnDifference(prev: WindowDescriptor, curr: WindowDescriptor, v: bool)
    ensures SetCursorVisibility(v) in Setters(prev, curr) <==> prev.cursorVisible != curr.cursorVisible && v == curr.cursorVisible
  {
    InSetters(prev, curr, SetCursorVisibility(v));
    assert Checks(prev, curr)[6].command == SetCursorVisibility(curr.cursorVisible);
  }

  lemma CursorLockedSetterFiresOnDifference(prev: WindowDescriptor, curr: WindowDescriptor, v: bool)
    ensures SetCursorLockMode(v) in Setters(prev, curr) <==> prev.cursorLocked != curr.cursorLocked && v == curr.cursorLocked
  {
    InSetters(prev, curr, SetCursorLockMode(v));
    assert Checks(prev, curr)[7].command == SetCursorLockMode(curr.cursorLocked);
  }

  /** The resolution setter, as written: it carries `curr`'s width and height
      and fires exactly when the width or the height is within epsilon of its
      previous value. */
  lemma ResolutionFiresOnEquality(prev: WindowDescriptor, curr: WindowDescriptor)
    ensures forall w, h :: SetResolution(w, h) in Setters(prev, curr) ==>
      w == curr.width && h == curr.height
    ensures SetResolution(curr.width, curr.height) in Setters(prev, curr) <==>
      CompareF32(prev.width, curr.width) || CompareF32(prev.height, curr.height)
  {
    forall w, h { InSetters(prev, curr, SetResolution(w, h)); }
    assert Checks(prev, curr)[0].command == SetResolution(curr.width, curr.height);
  }

  /** Consequently a change of both the width and the height (each by at least
      epsilon) is not applied by the update that sees it. */
  lemma ResizeOfBothDimensionsNotApplied(prev: WindowDescriptor, curr: WindowDescriptor)
    requires prev.width - curr.width >= F32Epsilon || curr.width - prev.width >= F32Epsilon
    requires prev.height - curr.height >= F32Epsilon || curr.height - prev.height >= F32Epsilon
    ensures forall w, h :: SetResolution(w, h) !in Setters(prev, curr)
  {
    ResolutionFiresOnEquality(prev, curr);
  }

  /** The update still stores the resized descriptor as `prev`, so the next
      change-detected update that keeps the new size (a title change, an F10
      toggle) finds the dimensions equal and applies the resize one update
      late. */
  lemma ResizeAppliedOneUpdateLate(prev: WindowDescriptor, curr: WindowDescriptor, next: WindowDescriptor)
    requires prev.width - curr.width >= F32Epsilon || curr.width - prev.width >= F32Epsilon
    requires prev.height - curr.height >= F32Epsilon || curr.height - prev.height >= F32Epsilon
    requires next.width == curr.width && next.height == curr.height
    ensures forall w, h :: SetResolution(w, h) !in Setters(prev, curr)
    ensures SetResolution(curr.width, curr.height) in Setters(curr, next)
  {
    ResizeOfBothDimensionsNotApplied(prev, curr);
    ResolutionFiresOnEquality(curr, next);
  }

  /** The mode setter carries `curr`'s mode and is skipped only when both
      modes are Windowed or both are BorderlessFullscreen. */
  lemma ModeSetterFires(prev: WindowDescriptor, curr: WindowDescriptor)
    ensures forall m :: SetMode(m) in Setters(prev, curr) <==>
      m == curr.mode &&
      !(prev.mode == curr.mode && (curr.mode == Windowed || curr.mode == BorderlessFullscreen))
  {
    forall m { InSetters(prev, curr, SetMode(m)); }
    assert Checks(prev, curr)[8].command == SetMode(curr.mode);
  }

  /** Re-applying an unchanged descriptor still fires the resolution setter;
      the only other setter it can fire is the mode setter, which it fires
      when the mode is one of the two fullscreen modes the skip does not
      cover. */
  lemma UnchangedDescriptorSetters(d: WindowDescriptor)
    ensures SetResolution(d.width, d.height) in Setters(d, d)
    ensures SetMode(d.mode) in Setters(d, d) <==> d.mode == SizedFullscreen || d.mode == Fullscreen
    ensures forall c :: c in Setters(d, d) ==> c == SetResolution(d.width, d.height) || c == SetMode(d.mode)
  {
    assert CompareF32(d.width, d.width);
    ResolutionFiresOnEquality(d, d);
    ModeSetterFires(d, d);
    forall c | c in Setters(d, d)
      ensures c == SetResolution(d.width, d.height) || c == SetMode(d.mode)
    {
      InSetters(d, d, c);
    }
  }

  /** A toggled descriptor reaches the window: the update that follows an F10
      press from a synchronised state fires the mode setter with the new mode,
      and besides it only the resolution setter. */
  lemma ToggleReachesWindow(d: WindowDescriptor)
    requires d.mode == Windowed || d.mode == BorderlessFullscreen
    ensures SetMode(Toggled(d.mode)) in Setters(d, d.(mode := Toggled(d.mode)))
    ensures forall c :: c in Setters(d, d.(mode := Toggled(d.mode))) ==>
      c == SetResolution(d.width, d.height) || c == SetMode(Toggled(d.mode))
  {
    var toggled := d.(mode := Toggled(d.mode));
    ModeSetterFires(d, toggled);
    forall c | c in Setters(d, toggled)
      ensures c == SetResolution(d.width, d.height) || c == SetMode(Toggled(d.mode))
    {
      InSetters(d, toggled, c);
    }
  }

  /** Pressing F10 twice restores the mode. */
  lemma ToggleTwiceRestores(m: WindowMode)
    requires m == Windowed || m == BorderlessFullscreen
    ensures Toggled(Toggled(m)) == m
  {
  }
}
