/**
  The head-up display of src/Interface.jsx: the elapsed time the per-frame
  effect writes into the time element, and which controls are on screen.

  The game store (src/stores/useGame.js) is not part of this model: its
  `phase`, `startTime` and `endTime` are inputs, and so is the clock
  reading `Date.now()`. Timestamps are integer milliseconds.
 */
module HudInterface {
  import opened Common

  /** The game phases the interface distinguishes. */
  datatype Phase = Ready | Playing | Ended

  /**
    Elapsed seconds: the running clock while playing, the frozen run time
    once ended, and zero in any other phase.
   */
  function ElapsedSeconds(phase: Phase, now: int, startTime: int, endTime: int): (r: real)
    ensures phase == Ready ==> r == 0.0
    ensures phase == Playing ==> r * 1000.0 == (now - startTime) as real
    ensures phase == Ended ==> r * 1000.0 == (endTime - startTime) as real
  {
    var elapsed := match phase
      case Playing => now - startTime
      case Ended => endTime - startTime
      case Ready => 0;
    elapsed as real / 1000.0
  }

  /**
    Once ended, the display is frozen: the clock no longer matters, and it
    shows what the running clock showed at the end time.
   */
  lemma EndedTimeIsFrozen(now1: int, now2: int, startTime: int, endTime: int)
    ensures ElapsedSeconds(Ended, now1, startTime, endTime) == ElapsedSeconds(Ended, now2, startTime, endTime)
    ensures ElapsedSeconds(Ended, now1, startTime, endTime) == ElapsedSeconds(Playing, endTime, startTime, now2)
  {
  }

  /** While playing, the time shown never runs backwards and is never negative after the start. */
  lemma PlayingTimeMonotone(now1: int, now2: int, startTime: int, endTime: int)
    requires startTime <= now1 <= now2
    ensures 0.0 <= ElapsedSeconds(Playing, now1, startTime, endTime)
    ensures ElapsedSeconds(Playing, now1, startTime, endTime) <= ElapsedSeconds(Playing, now2, startTime, endTime)
  {
  }

  /**
    One run of the display effect: the text written into the time element,
    or None when the element is not mounted and nothing is written. The
    text is written only when the element exists, and then it is the
    elapsed time.
   */
  function ShowTime(mounted: bool, phase: Phase, now: int, startTime: int, endTime: int): (r: Option<real>)
    ensures r.Some? <==> mounted
    ensures r.Some? ==> r.value == ElapsedSeconds(phase, now, startTime, endTime)
  {
    if mounted then Some(ElapsedSeconds(phase, now, startTime, endTime)) else None
  }

  /**
    The display over two frames of the effect, at clock readings `now1 <=
    now2` with the element mounted: once ended it shows the same text at
    both, the running time at the end; while playing after the start, the
    second text is never smaller than the first.
   */
  lemma ShowTimeAcrossFrames(phase: Phase, now1: int, now2: int, startTime: int, endTime: int)
    requires startTime <= now1 <= now2
    ensures phase == Ended ==>
              ShowTime(true, phase, now1, startTime, endTime) == ShowTime(true, phase, now2, startTime, endTime) ==
              ShowTime(true, Playing, endTime, startTime, now1)
    ensures phase == Playing ==>
              ShowTime(true, phase, now1, startTime, endTime).value <= ShowTime(true, phase, now2, startTime, endTime).value
  {
    EndedTimeIsFrozen(now1, now2, startTime, endTime);
    PlayingTimeMonotone(now1, now2, startTime, endTime);
  }

  /** What the interface renders besides the time. */
  datatype Layout = Layout(restartButton: bool, keyboard: bool, joystick: bool)

  /**
    The restart control is shown exactly when the run has ended, and exactly
    one of the keyboard display and the touch joystick is shown: the
    joystick on mobile devices, the keyboard elsewhere.
   */
  function Render(phase: Phase, isMobile: bool): (l: Layout)
    ensures l.restartButton <==> phase == Ended
    ensures l.keyboard != l.joystick
    ensures l.joystick <==> isMobile
  {
    Layout(phase == Ended, !isMobile, isMobile)
  }
}
