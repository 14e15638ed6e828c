/** The configuration safety rules of the GFX system: an ordered chain of checks over
    the user's configuration macros that either stops the build with an error or
    switches on a macro that another one depends on. Later checks see the macros
    switched on by earlier ones. A macro is an integer, as the preprocessor sees it:
    TRUE is 1, FALSE and an undefined macro are 0, and a test `#if X` holds when X is
    not 0. */
module GfxRules {

  const TRUE: int := 1
  const FALSE: int := 0

  /** `#if X` holds. */
  predicate On(x: int)
  {
    x != 0
  }

  /** The configuration macros the rules read or write. */
  datatype Config = Config(
    osChibios: int,             // GFX_USE_OS_CHIBIOS
    osWin32: int,               // GFX_USE_OS_WIN32
    osPosix: int,               // GFX_USE_OS_POSIX
    useGwin: int,               // GFX_USE_GWIN
    useGdisp: int,              // GFX_USE_GDISP
    useGinput: int,             // GFX_USE_GINPUT
    useGevent: int,             // GFX_USE_GEVENT
    useGtimer: int,             // GFX_USE_GTIMER
    useGqueue: int,             // GFX_USE_GQUEUE
    useGaudin: int,             // GFX_USE_GAUDIN
    useGadc: int,               // GFX_USE_GADC
    gdispNeedClip: int,         // GDISP_NEED_CLIP
    gdispNeedText: int,         // GDISP_NEED_TEXT
    gdispNeedMultithread: int,  // GDISP_NEED_MULTITHREAD
    gdispNeedAsync: int,        // GDISP_NEED_ASYNC
    gwinNeedButton: int,        // GWIN_NEED_BUTTON
    gwinNeedConsole: int,       // GWIN_NEED_CONSOLE
    ginputNeedMouse: int,       // GINPUT_NEED_MOUSE
    ginputNeedToggle: int,      // GINPUT_NEED_TOGGLE
    gqueueNeedGsync: int        // GQUEUE_NEED_GSYNC
  )

  /** The #error directives, one per rule that rejects a configuration. */
  datatype RuleError =
    | MultipleOs            // the OS flags do not add up to exactly one
    | GwinWithoutGdisp      // GWIN needs GDISP
    | ButtonWithoutText     // a GWIN button needs GDISP_NEED_TEXT
    | ConsoleWithoutText    // a GWIN console needs GDISP_NEED_TEXT
    | MultithreadAndAsync   // GDISP: MULTITHREAD and ASYNC exclude each other

  /** The #warning directives, one per directive. */
  datatype Warning =
    | NoOsChibiosOn         // no OS given, ChibiOS switched on
    | GwinNoClip            // GWIN may draw outside its windows without clipping
    | ButtonGeventOn        // GEVENT switched on for GWIN buttons
    | ButtonNoInputDevice   // GWIN buttons but no mouse or toggle GINPUT device
    | ButtonNeedsThreading  // GWIN buttons need MULTITHREAD or ASYNC ...
    | ButtonMultithreadOn   // ... and MULTITHREAD has been switched on
    | GinputGeventOn        // GEVENT switched on for GINPUT
    | GinputGtimerOn        // GTIMER switched on for GINPUT
    | GdispGqueueOn         // GQUEUE and its GSync queues switched on for GDISP_NEED_ASYNC
    | GaudinGtimerOn        // GTIMER switched on for GAUDIN with GEVENT
    | GadcGtimerOn          // GTIMER switched on for GADC
    | GtimerNoThreading     // GTIMER with GDISP but neither MULTITHREAD nor ASYNC ...
    | GtimerCallbackDrawing // ... so timer callbacks must not draw

  /** What running the rules produces: the macros as the rest of the build sees them,
      the warnings shown and the errors raised. The build fails when `errors` is not
      empty; the preprocessor reports every error it meets, so all are collected. */
  datatype Outcome = Outcome(flags: Config, warnings: set<Warning>, errors: set<RuleError>)

  /** The value a rule leaves in macro `x` that it must switch on when `need` holds:
      `#undef X` / `#define X TRUE` when X is off, X unchanged otherwise. */
  function Raised(x: int, need: bool): int
  {
    if need && !On(x) then TRUE else x
  }

  /** GFX_USE_OS_CHIBIOS + GFX_USE_OS_WIN32 + GFX_USE_OS_POSIX. */
  function OsSum(c: Config): int
  {
    c.osChibios + c.osWin32 + c.osPosix
  }

  /** No OS is switched on. */
  predicate NoOs(c: Config)
  {
    !On(c.osChibios) && !On(c.osWin32) && !On(c.osPosix)
  }

  /** GWIN with buttons. */
  predicate Button(c: Config)
  {
    On(c.useGwin) && On(c.gwinNeedButton)
  }

  /** Every macro that is on in `a` is on in `b`. */
  predicate Below(a: Config, b: Config)
  {
    (On(a.osChibios) ==> On(b.osChibios)) && (On(a.osWin32) ==> On(b.osWin32)) &&
    (On(a.osPosix) ==> On(b.osPosix)) && (On(a.useGwin) ==> On(b.useGwin)) &&
    (On(a.useGdisp) ==> On(b.useGdisp)) && (On(a.useGinput) ==> On(b.useGinput)) &&
    (On(a.useGevent) ==> On(b.useGevent)) && (On(a.useGtimer) ==> On(b.useGtimer)) &&
    (On(a.useGqueue) ==> On(b.useGqueue)) && (On(a.useGaudin) ==> On(b.useGaudin)) &&
    (On(a.useGadc) ==> On(b.useGadc)) && (On(a.gdispNeedClip) ==> On(b.gdispNeedClip)) &&
    (On(a.gdispNeedText) ==> On(b.gdispNeedText)) &&
    (On(a.gdispNeedMultithread) ==> On(b.gdispNeedMultithread)) &&
    (On(a.gdispNeedAsync) ==> On(b.gdispNeedAsync)) &&
    (On(a.gwinNeedButton) ==> On(b.gwinNeedButton)) &&
    (On(a.gwinNeedConsole) ==> On(b.gwinNeedConsole)) &&
    (On(a.ginputNeedMouse) ==> On(b.ginputNeedMouse)) &&
    (On(a.ginputNeedToggle) ==> On(b.ginputNeedToggle)) &&
    (On(a.gqueueNeedGsync) ==> On(b.gqueueNeedGsync))
  }

  /** The macros no rule writes are the same in `a` and `b`. */
  predicate Untouched(a: Config, b: Config)
  {
    a.osWin32 == b.osWin32 && a.osPosix == b.osPosix && a.useGwin == b.useGwin &&
    a.useGdisp == b.useGdisp && a.useGinput == b.useGinput && a.useGaudin == b.useGaudin &&
    a.useGadc == b.useGadc && a.gdispNeedClip == b.gdispNeedClip &&
    a.gdispNeedText == b.gdispNeedText && a.gdispNeedAsync == b.gdispNeedAsync &&
    a.gwinNeedButton == b.gwinNeedButton && a.gwinNeedConsole == b.gwinNeedConsole &&
    a.ginputNeedMouse == b.ginputNeedMouse && a.ginputNeedToggle == b.ginputNeedToggle
  }

  /** The dependencies the rules enforce by switching macros on: some OS is selected;
      a GWIN button has GEVENT and one of MULTITHREAD and ASYNC; GINPUT has GEVENT and
      GTIMER; GDISP with ASYNC has GQUEUE and its GSync queues; GAUDIN with GEVENT has
      GTIMER; GADC has GTIMER. */
  predicate Forced(c: Config)
  {
    !NoOs(c) &&
    (Button(c) ==> On(c.useGevent) && (On(c.gdispNeedMultithread) || On(c.gdispNeedAsync))) &&
    (On(c.useGinput) ==> On(c.useGevent) && On(c.useGtimer)) &&
    (On(c.useGdisp) && On(c.gdispNeedAsync) ==> On(c.useGqueue) && On(c.gqueueNeedGsync)) &&
    (On(c.useGaudin) && On(c.useGevent) ==> On(c.useGtimer)) &&
    (On(c.useGadc) ==> On(c.useGtimer))
  }

  /** Every macro `r` has switched on relative to `c` is TRUE and is needed by `r`
      itself: nothing is switched on without a reason. */
  predicate Justified(c: Config, r: Config)
  {
    (r.osChibios != c.osChibios ==> r.osChibios == TRUE && NoOs(c)) &&
    (r.useGevent != c.useGevent ==> r.useGevent == TRUE && (Button(r) || On(r.useGinput))) &&
    (r.gdispNeedMultithread != c.gdispNeedMultithread ==>
       r.gdispNeedMultithread == TRUE && Button(r) && !On(r.gdispNeedAsync)) &&
    (r.useGtimer != c.useGtimer ==>
       r.useGtimer == TRUE &&
       (On(r.useGinput) || On(r.useGadc) || (On(r.useGaudin) && On(r.useGevent)))) &&
    (r.useGqueue != c.useGqueue || r.gqueueNeedGsync != c.gqueueNeedGsync ==>
       r.useGqueue == TRUE && r.gqueueNeedGsync == TRUE && On(r.useGdisp) && On(r.gdispNeedAsync))
  }

  /** A configuration the rules accept as it stands: no error and nothing to switch on. */
  predicate Accepted(c: Config)
  {
    Forced(c) && OsSum(c) == TRUE &&
    (On(c.useGwin) ==> On(c.useGdisp)) &&
    (Button(c) ==> On(c.gdispNeedText)) &&
    (On(c.useGwin) && On(c.gwinNeedConsole) ==> On(c.gdispNeedText)) &&
    !(On(c.useGdisp) && On(c.gdispNeedMultithread) && On(c.gdispNeedAsync))
  }

  /** The macros after resolution, in closed form over the user's configuration.
      Resolution only switches macros on, satisfies `Forced`, writes no macro outside
      the six it may force, switches none on without need, leaves a configuration
      that already satisfies `Forced` as it is, and selects ChibiOS alone when no OS
      was given. */
  function Closure(c: Config): (r: Config)
    ensures Below(c, r) && Forced(r) && Untouched(c, r) && Justified(c, r)
    ensures Forced(c) ==> r == c
    ensures NoOs(c) ==> r.osChibios == TRUE && OsSum(r) == TRUE
    ensures !NoOs(c) ==> OsSum(r) == OsSum(c)
  {
    var button := Button(c);
    var gevent := Raised(c.useGevent, button || On(c.useGinput));
    var gsync := On(c.useGdisp) && On(c.gdispNeedAsync) && !(On(c.useGqueue) && On(c.gqueueNeedGsync));
    c.(osChibios := Raised(c.osChibios, NoOs(c)),
       useGevent := gevent,
       gdispNeedMultithread := Raised(c.gdispNeedMultithread, button && !On(c.gdispNeedAsync)),
       useGtimer := Raised(c.useGtimer,
         On(c.useGinput) || On(c.useGadc) || (On(c.useGaudin) && On(gevent))),
       useGqueue := if gsync then TRUE else c.useGqueue,
       gqueueNeedGsync := if gsync then TRUE else c.gqueueNeedGsync)
  }

  /** The errors the rules raise for the user's configuration `c`, in closed form. */
  function Errors(c: Config): set<RuleError>
  {
    (if !NoOs(c) && OsSum(c) != TRUE then {MultipleOs} else {}) +
    (if On(c.useGwin) && !On(c.useGdisp) then {GwinWithoutGdisp} else {}) +
    (if Button(c) && !On(c.gdispNeedText) then {ButtonWithoutText} else {}) +
    (if On(c.useGwin) && On(c.gwinNeedConsole) && !On(c.gdispNeedText)
     then {ConsoleWithoutText} else {}) +
    (if On(c.useGdisp) && On(c.gdispNeedMultithread) && On(c.gdispNeedAsync)
     then {MultithreadAndAsync} else {})
  }

  // The blocks of the chain, in order. Each takes the macros, warnings and errors as
  // the chain has left them and returns them as the block leaves them; `d` is
  // GFX_DISPLAY_RULE_WARNINGS.

  /** GOS: ChibiOS is switched on when no OS is; then an OS sum other than TRUE is an
      error. */
  method GosRules(p: Outcome, d: bool) returns (q: Outcome)
    ensures q.flags == p.flags.(osChibios := Raised(p.flags.osChibios, NoOs(p.flags)))
    ensures q.errors == p.errors + (if !NoOs(p.flags) && OsSum(p.flags) != TRUE then {MultipleOs} else {})
    ensures q.warnings == p.warnings + (if d && NoOs(p.flags) then {NoOsChibiosOn} else {})
  {
    q := p;
    if !On(q.flags.osChibios) && !On(q.flags.osWin32) && !On(q.flags.osPosix) {
      if d { q := q.(warnings := q.warnings + {NoOsChibiosOn}); }
      q := q.(flags := q.flags.(osChibios := TRUE));
    }
    if OsSum(q.flags) != 1 * TRUE {
      q := q.(errors := q.errors + {MultipleOs});
    }
  }

  /** GWIN: GWIN needs GDISP. A GWIN button needs GDISP_NEED_TEXT, switches GEVENT on,
      and switches MULTITHREAD on when neither MULTITHREAD nor ASYNC is; a GWIN console
      needs GDISP_NEED_TEXT. */
  method GwinRules(p: Outcome, d: bool) returns (q: Outcome)
    ensures var c := p.flags;
      q.flags == c.(useGevent := Raised(c.useGevent, Button(c)),
                    gdispNeedMultithread :=
                      Raised(c.gdispNeedMultithread, Button(c) && !On(c.gdispNeedAsync)))
    ensures var c := p.flags;
      var noText := !On(c.gdispNeedText);
      q.errors == p.errors
        + (if On(c.useGwin) && !On(c.useGdisp) then {GwinWithoutGdisp} else {})
        + (if Button(c) && noText then {ButtonWithoutText} else {})
        + (if On(c.useGwin) && On(c.gwinNeedConsole) && noText then {ConsoleWithoutText} else {})
    ensures var c := p.flags;
      var button := Button(c);
      q.warnings == p.warnings
        + (if d && On(c.useGwin) && !On(c.gdispNeedClip) then {GwinNoClip} else {})
        + (if d && button && !On(c.useGevent) then {ButtonGeventOn} else {})
        + (if d && button && !(On(c.useGinput) && (On(c.ginputNeedMouse) || On(c.ginputNeedToggle)))
           then {ButtonNoInputDevice} else {})
        + (if d && button && !On(c.gdispNeedMultithread) && !On(c.gdispNeedAsync)
           then {ButtonNeedsThreading, ButtonMultithreadOn} else {})
  {
    q := p;
    if On(q.flags.useGwin) {
      if !On(q.flags.useGdisp) {
        q := q.(errors := q.errors + {GwinWithoutGdisp});
      }
      if !On(q.flags.gdispNeedClip) {
        if d { q := q.(warnings := q.warnings + {GwinNoClip}); }
      }
      if On(q.flags.gwinNeedButton) {
        q := ButtonRules(q, d);
      }
      if On(q.flags.gwinNeedConsole) {
        if !On(q.flags.gdispNeedText) {
          q := q.(errors := q.errors + {ConsoleWithoutText});
        }
      }
    }
  }

  /** The GWIN_NEED_BUTTON part of the GWIN block. */
  method ButtonRules(p: Outcome, d: bool) returns (q: Outcome)
    ensures var c := p.flags;
      q.flags == c.(useGevent := Raised(c.useGevent, true),
                    gdispNeedMultithread := Raised(c.gdispNeedMultithread, !On(c.gdispNeedAsync)))
    ensures q.errors == p.errors + (if !On(p.flags.gdispNeedText) then {ButtonWithoutText} else {})
    ensures var c := p.flags;
      q.warnings == p.warnings
        + (if d && !On(c.useGevent) then {ButtonGeventOn} else {})
        + (if d && !(On(c.useGinput) && (On(c.ginputNeedMouse) || On(c.ginputNeedToggle)))
           then {ButtonNoInputDevice} else {})
        + (if d && !On(c.gdispNeedMultithread) && !On(c.gdispNeedAsync)
           then {ButtonNeedsThreading, ButtonMultithreadOn} else {})
  {
    q := p;
    if !On(q.flags.gdispNeedText) {
      q := q.(errors := q.errors + {ButtonWithoutText});
    }
    if !On(q.flags.useGevent) {
      if d { q := q.(warnings := q.warnings + {ButtonGeventOn}); }
      q := q.(flags := q.flags.(useGevent := TRUE));
    }
    if !On(q.flags.useGinput) || !(On(q.flags.ginputNeedMouse) || On(q.flags.ginputNeedToggle)) {
      if d { q := q.(warnings := q.warnings + {ButtonNoInputDevice}); }
    }
    if !On(q.flags.gdispNeedMultithread) && !On(q.flags.gdispNeedAsync) {
      if d { q := q.(warnings := q.warnings + {ButtonNeedsThreading, ButtonMultithreadOn}); }
      q := q.(flags := q.flags.(gdispNeedMultithread := TRUE));
    }
  }

  /** GINPUT: GEVENT and GTIMER are switched on. */
  method GinputRules(p: Outcome, d: bool) returns (q: Outcome)
    ensures var c := p.flags;
      q.flags == c.(useGevent := Raised(c.useGevent, On(c.useGinput)),
                    useGtimer := Raised(c.useGtimer, On(c.useGinput)))
    ensures q.errors == p.errors
    ensures var c := p.flags;
      q.warnings == p.warnings
        + (if d && On(c.useGinput) && !On(c.useGevent) then {GinputGeventOn} else {})
        + (if d && On(c.useGinput) && !On(c.useGtimer) then {GinputGtimerOn} else {})
  {
    q := p;
    if On(q.flags.useGinput) {
      if !On(q.flags.useGevent) {
        if d { q := q.(warnings := q.warnings + {GinputGeventOn}); }
        q := q.(flags := q.flags.(useGevent := TRUE));
      }
      if !On(q.flags.useGtimer) {
        if d { q := q.(warnings := q.warnings + {GinputGtimerOn}); }
        q := q.(flags := q.flags.(useGtimer := TRUE));
      }
    }
  }

  /** GDISP: MULTITHREAD together with ASYNC is an error; ASYNC switches GQUEUE and its
      GSync queues on unless both already are. */
  method GdispRules(p: Outcome, d: bool) returns (q: Outcome)
    ensures var c := p.flags;
      var sync := On(c.useGdisp) && On(c.gdispNeedAsync) && !(On(c.useGqueue) && On(c.gqueueNeedGsync));
      q.flags == if sync then c.(useGqueue := TRUE, gqueueNeedGsync := TRUE) else c
    ensures var c := p.flags;
      q.errors == p.errors
        + (if On(c.useGdisp) && On(c.gdispNeedMultithread) && On(c.gdispNeedAsync)
           then {MultithreadAndAsync} else {})
    ensures var c := p.flags;
      q.warnings == p.warnings
        + (if d && On(c.useGdisp) && On(c.gdispNeedAsync) && !(On(c.useGqueue) && On(c.gqueueNeedGsync))
           then {GdispGqueueOn} else {})
  {
    q := p;
    if On(q.flags.useGdisp) {
      if On(q.flags.gdispNeedMultithread) && On(q.flags.gdispNeedAsync) {
        q := q.(errors := q.errors + {MultithreadAndAsync});
      }
      if On(q.flags.gdispNeedAsync) && !(On(q.flags.useGqueue) && On(q.flags.gqueueNeedGsync)) {
        if d { q := q.(warnings := q.warnings + {GdispGqueueOn}); }
        q := q.(flags := q.flags.(useGqueue := TRUE, gqueueNeedGsync := TRUE));
      }
    }
  }

  /** GAUDIN: GTIMER is switched on when GEVENT is on. */
  method GaudinRules(p: Outcome, d: bool) returns (q: Outcome)
    ensures var c := p.flags;
      q.flags == c.(useGtimer := Raised(c.useGtimer, On(c.useGaudin) && On(c.useGevent)))
    ensures q.errors == p.errors
    ensures var c := p.flags;
      q.warnings == p.warnings
        + (if d && On(c.useGaudin) && On(c.useGevent) && !On(c.useGtimer) then {GaudinGtimerOn} else {})
  {
    q := p;
    if On(q.flags.useGaudin) {
      if On(q.flags.useGevent) && !On(q.flags.useGtimer) {
        if d { q := q.(warnings := q.warnings + {GaudinGtimerOn}); }
        q := q.(flags := q.flags.(useGtimer := TRUE));
      }
    }
  }

  /** GADC: GTIMER is switched on. */
  method GadcRules(p: Outcome, d: bool) returns (q: Outcome)
    ensures q.flags == p.flags.(useGtimer := Raised(p.flags.useGtimer, On(p.flags.useGadc)))
    ensures q.errors == p.errors
    ensures q.warnings == p.warnings
      + (if d && On(p.flags.useGadc) && !On(p.flags.useGtimer) then {GadcGtimerOn} else {})
  {
    q := p;
    if On(q.flags.useGadc) {
      if !On(q.flags.useGtimer) {
        if d { q := q.(warnings := q.warnings + {GadcGtimerOn}); }
        q := q.(flags := q.flags.(useGtimer := TRUE));
      }
    }
  }

  /** GTIMER: with GDISP but neither MULTITHREAD nor ASYNC, warnings only. */
  method GtimerRules(p: Outcome, d: bool) returns (q: Outcome)
    ensures q.flags == p.flags && q.errors == p.errors
    ensures var c := p.flags;
      q.warnings == p.warnings
        + (if d && On(c.useGtimer) && On(c.useGdisp) && !On(c.gdispNeedMultithread) &&
              !On(c.gdispNeedAsync)
           then {GtimerNoThreading, GtimerCallbackDrawing} else {})
  {
    q := p;
    if On(q.flags.useGtimer) {
      if On(q.flags.useGdisp) && !On(q.flags.gdispNeedMultithread) && !On(q.flags.gdispNeedAsync) {
        if d { q := q.(warnings := q.warnings + {GtimerNoThreading, GtimerCallbackDrawing}); }
      }
    }
  }

  /** Runs the blocks in their order over the user's configuration `input`, starting
      with no warning and no error; `d` is GFX_DISPLAY_RULE_WARNINGS, FALSE unless the
      user defines it. The chain ends with the closed-form macros and errors, neither
      of which depends on the warnings setting, and shows no warning when that setting
      is FALSE. */
  method Resolve(input: Config, d: bool) returns (out: Outcome)
    ensures out.flags == Closure(input)
    ensures out.errors == Errors(input)
    ensures !d ==> out.warnings == {}
  {
    out := Outcome(input, {}, {});
    out := GosRules(out, d);
    out := GwinRules(out, d);
    out := GinputRules(out, d);
    out := GdispRules(out, d);
    out := GaudinRules(out, d);
    out := GadcRules(out, d);
    out := GtimerRules(out, d);
  }

  /** The build goes through exactly when the resolved configuration is `Accepted`. */
  lemma NoErrorsIffAccepted(c: Config)
    ensures Errors(c) == {} <==> Accepted(Closure(c))
  {
  }

  /** Feeding the resolved configuration through the rules again changes no macro and
      raises the same errors. */
  lemma ResolveIdempotent(c: Config)
    ensures Closure(Closure(c)) == Closure(c)
    ensures Errors(Closure(c)) == Errors(c)
  {
  }

  /** With the OS macros TRUE or FALSE, the OS rule lets the build through exactly
      when one OS is on after resolution. */
  lemma OneOs(c: Config)
    requires c.osChibios in {FALSE, TRUE} && c.osWin32 in {FALSE, TRUE} && c.osPosix in {FALSE, TRUE}
    ensures var r := Closure(c);
      MultipleOs !in Errors(c) <==>
        (if On(r.osChibios) then 1 else 0) + (if On(r.osWin32) then 1 else 0) +
        (if On(r.osPosix) then 1 else 0) == 1
  {
  }

  /** The OS rule adds the macros' values rather than counting the ones that are on:
      an OS macro with a value other than TRUE or FALSE can make two OSes pass. */
  lemma OsSumAdmitsTwoOses()
    ensures var c := Config(TRUE, TRUE, -1, 0, 0, 0, 0, 0, 0, 0, 0, 0, 0, 0, 0, 0, 0, 0, 0, 0);
      MultipleOs !in Errors(c) && On(Closure(c).osChibios) && On(Closure(c).osWin32)
  {
  }

  /** GEVENT switched on by the GWIN button rule is seen by the GAUDIN rule further
      down the chain, which then switches GTIMER on as well. */
  method ButtonThenAudio() returns (out: Outcome)
    ensures On(out.flags.useGevent) && On(out.flags.useGtimer) && On(out.flags.gdispNeedMultithread)
    ensures out.errors == {}
    ensures out.warnings == {}
  {
    var input := Config(
      osChibios := TRUE, osWin32 := FALSE, osPosix := FALSE,
      useGwin := TRUE, useGdisp := TRUE, useGinput := FALSE, useGevent := FALSE,
      useGtimer := FALSE, useGqueue := FALSE, useGaudin := TRUE, useGadc := FALSE,
      gdispNeedClip := TRUE, gdispNeedText := TRUE, gdispNeedMultithread := FALSE,
      gdispNeedAsync := FALSE, gwinNeedButton := TRUE, gwinNeedConsole := FALSE,
      ginputNeedMouse := FALSE, ginputNeedToggle := FALSE, gqueueNeedGsync := FALSE);
    out := Resolve(input, false);
  }
}
