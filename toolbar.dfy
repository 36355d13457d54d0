/** The floating recording toolbar: its drag handling, the expand animation
    flag, the recording timer with pause and resume, the MM:SS display, and
    the size guard in front of the audio-file upload. Timers are events: the
    one-second interval fires `Tick`, the 500 ms expand timeout fires
    `AnimationDone`, and the animation-frame callback of a drag move is applied
    at once. Positions are whole pixels. */
module Toolbar {
  import opened Strings

  datatype Pos = Pos(x: int, y: int)

  // ---------------------------------------------------------------------------
  // MM:SS
  // ---------------------------------------------------------------------------

  /** `formatTime(seconds)` on the recording time. The display is "MM:SS": a
      minutes field of at least two digits that is never cut short and is
      zero-padded only up to two digits, a colon, and a two-digit seconds field
      below 60; read back, the fields give the time again. */
  function FormatTime(seconds: nat): (t: string)
    ensures |t| >= 5 && t[|t| - 3] == ':'
    ensures AllDigits(t[..|t| - 3]) && AllDigits(t[|t| - 2..])
    ensures |t| > 5 ==> t[0] != '0'
    ensures ParseDigits(t[|t| - 2..]) < 60
    ensures ParseDigits(t[..|t| - 3]) * 60 + ParseDigits(t[|t| - 2..]) == seconds
  {
    var m := PadStart2(NatToString(seconds / 60));
    var s := PadStart2(NatToString(seconds % 60));
    ParsePadded(seconds / 60);
    ParsePadded(seconds % 60);
    TwoDigitsPadToTwo(seconds % 60);
    FieldsOfColonJoin(m, s);
    m + ":" + s
  }

  // ---------------------------------------------------------------------------
  // Dragging
  // ---------------------------------------------------------------------------

  const Padding: int := 10
  const ToolbarWidth: int := 60
  const ToolbarHeight: int := 280

  /** `Math.max(padding, Math.min(v, max))`: never below the padding, below
      the bound whenever the bound leaves room, a value already in range is
      kept, and a value past either end stops at that end. */
  function ClampCoord(v: int, max: int): (r: int)
    ensures r >= Padding
    ensures max >= Padding ==> r <= max
    ensures Padding <= v <= max ==> r == v
    ensures v < Padding ==> r == Padding
    ensures Padding <= max < v ==> r == max
    ensures max < Padding ==> r == Padding
  {
    if (if v < max then v else max) < Padding then Padding else (if v < max then v else max)
  }

  /** Where a move to `(clientX, clientY)` puts the toolbar in a window of the
      given size: at least 10 px from the left and top edges, and inside the
      right and bottom margins when the window is large enough. Within those
      margins the toolbar follows the pointer (keeping the grab offset); past
      an edge it stops at that edge. */
  function DragTarget(client: Pos, offset: Pos, innerWidth: int, innerHeight: int): (p: Pos)
    ensures p.x >= Padding && p.y >= Padding
    ensures innerWidth >= 80 ==> p.x <= innerWidth - 70
    ensures innerHeight >= 300 ==> p.y <= innerHeight - 290
    ensures Padding <= client.x - offset.x <= innerWidth - 70 ==> p.x == client.x - offset.x
    ensures Padding <= client.y - offset.y <= innerHeight - 290 ==> p.y == client.y - offset.y
    ensures client.x - offset.x < Padding ==> p.x == Padding
    ensures client.y - offset.y < Padding ==> p.y == Padding
    ensures Padding <= innerWidth - 70 < client.x - offset.x ==> p.x == innerWidth - 70
    ensures Padding <= innerHeight - 290 < client.y - offset.y ==> p.y == innerHeight - 290
  {
    Pos(ClampCoord(client.x - offset.x, innerWidth - ToolbarWidth - Padding),
        ClampCoord(client.y - offset.y, innerHeight - ToolbarHeight - Padding))
  }

  // ---------------------------------------------------------------------------
  // The state and its transitions
  // ---------------------------------------------------------------------------

  datatype TimerEffect = SetInterval(handle: nat) | ClearInterval(handle: nat)

  datatype State = State(
    expanded: bool,
    animating: bool,
    position: Pos,
    originalPosition: Pos,
    dragging: bool,
    dragOffset: Pos,
    recording: bool,
    paused: bool,
    time: nat,
    timer: Option<nat>,      // recordingIntervalRef.current
    nextTimer: nat)

  /** The interval runs exactly while recording and not paused. */
  predicate TimerInvariant(s: State) {
    (s.timer.Some? <==> s.recording && !s.paused) && (s.timer.Some? ==> s.timer.value < s.nextTimer)
  }

  function Initial(innerWidth: int): State {
    State(false, false, Pos(innerWidth - 80, 20), Pos(innerWidth - 80, 20), false, Pos(0, 0),
          false, false, 0, None, 0)
  }

  function MouseDown(s: State, client: Pos, rect: Option<Pos>): State {
    if s.animating then s
    else s.(dragging := true,
            dragOffset := if rect.Some? then Pos(client.x - rect.value.x, client.y - rect.value.y) else s.dragOffset)
  }

  function MouseMove(s: State, client: Pos, innerWidth: int, innerHeight: int): State {
    if !s.dragging || s.animating then s
    else
      var p := DragTarget(client, s.dragOffset, innerWidth, innerHeight);
      s.(position := p, originalPosition := p)
  }

  function MouseUp(s: State): State {
    s.(dragging := false)
  }

  function ExpandToggled(s: State): State {
    if s.animating then s else s.(animating := true, expanded := !s.expanded)
  }

  function AnimationDone(s: State): State {
    s.(animating := false)
  }

  function RecordingToggled(s: State): State {
    if !s.recording then
      s.(recording := true, time := 0, paused := false, timer := Some(s.nextTimer), nextTimer := s.nextTimer + 1)
    else
      s.(recording := false, time := 0, paused := false, timer := None)
  }

  function RecordingTimerEffects(s: State): seq<TimerEffect> {
    if !s.recording then [SetInterval(s.nextTimer)]
    else if s.timer.Some? then [ClearInterval(s.timer.value)]
    else []
  }

  function PauseToggled(s: State): State {
    if !s.recording then s
    else if !s.paused then s.(paused := true, timer := None)
    else s.(paused := false, timer := Some(s.nextTimer), nextTimer := s.nextTimer + 1)
  }

  function PauseTimerEffects(s: State): seq<TimerEffect> {
    if !s.recording then []
    else if !s.paused then (if s.timer.Some? then [ClearInterval(s.timer.value)] else [])
    else [SetInterval(s.nextTimer)]
  }

  /** One firing of the running interval. */
  function Ticked(s: State): State {
    if s.timer.Some? then s.(time := s.time + 1) else s
  }

  /** Every handler keeps the timer invariant. */
  lemma TimerInvariantPreserved(s: State, client: Pos, rect: Option<Pos>, w: int, h: int)
    requires TimerInvariant(s)
    ensures TimerInvariant(MouseDown(s, client, rect)) && TimerInvariant(MouseMove(s, client, w, h))
    ensures TimerInvariant(MouseUp(s)) && TimerInvariant(ExpandToggled(s)) && TimerInvariant(AnimationDone(s))
    ensures TimerInvariant(RecordingToggled(s)) && TimerInvariant(PauseToggled(s)) && TimerInvariant(Ticked(s))
  {
  }

  /** Time advances only while recording and not paused. */
  lemma TicksCountOnlyWhileRunning(s: State)
    requires TimerInvariant(s)
    ensures Ticked(s).time == if s.recording && !s.paused then s.time + 1 else s.time
  {
  }

  /** Starting and stopping both reset the time and the pause; starting sets a
      new interval, stopping clears the running one. */
  lemma RecordingToggleResets(s: State)
    requires TimerInvariant(s)
    ensures var t := RecordingToggled(s);
      && t.recording == !s.recording && t.time == 0 && !t.paused
    ensures !s.recording ==> RecordingTimerEffects(s) == [SetInterval(s.nextTimer)]
    ensures s.recording && !s.paused ==> RecordingTimerEffects(s) == [ClearInterval(s.timer.value)]
  {
  }

  /** Pausing does nothing unless recording; otherwise it flips the pause,
      keeps the time, and stops or restarts the interval. */
  lemma PauseToggleBehaviour(s: State)
    requires TimerInvariant(s)
    ensures !s.recording ==> PauseToggled(s) == s && PauseTimerEffects(s) == []
    ensures s.recording ==> PauseToggled(s).paused == !s.paused && PauseToggled(s).time == s.time
    ensures s.recording && !s.paused ==> PauseTimerEffects(s) == [ClearInterval(s.timer.value)]
  {
  }

  /** Pausing and resuming leave the recording where it was, with a new interval. */
  lemma PauseResume(s: State)
    requires TimerInvariant(s) && s.recording && !s.paused
    ensures var t := PauseToggled(PauseToggled(s));
      t.recording && !t.paused && t.time == s.time && t.timer == Some(s.nextTimer)
  {
  }

  /** While animating, neither a mouse-down nor the expand button does anything. */
  lemma AnimationBlocksInput(s: State, client: Pos, rect: Option<Pos>, w: int, h: int)
    requires s.animating
    ensures MouseDown(s, client, rect) == s && ExpandToggled(s) == s && MouseMove(s, client, w, h) == s
  {
  }

  /** The expand button flips the panel and starts the animation. */
  lemma ExpandToggleFlips(s: State)
    requires !s.animating
    ensures ExpandToggled(s).expanded == !s.expanded && ExpandToggled(s).animating
    ensures AnimationDone(ExpandToggled(AnimationDone(ExpandToggled(s)))).expanded == s.expanded
  {
  }

  /** A move while dragging puts both positions at the clamped target; moves
      outside a drag are ignored. */
  lemma MoveSetsBothPositions(s: State, client: Pos, w: int, h: int)
    ensures var t := MouseMove(s, client, w, h);
      && (s.dragging && !s.animating ==> t.position == t.originalPosition == DragTarget(client, s.dragOffset, w, h))
      && (!s.dragging ==> t == s)
  {
  }

  // ---------------------------------------------------------------------------
  // The upload size guard
  // ---------------------------------------------------------------------------

  /** 200 MiB. */
  const MaxUploadBytes: nat := 200 * 1024 * 1024

  datatype FileInfo = FileInfo(name: string, size: nat)

  datatype Toast = SizeLimitError | Uploading | Uploaded | UploadFailed

  datatype FileOutcome = NoSelection | TooLarge | Upload(file: FileInfo)

  /** The decision `handleFileChange` takes on a selection. */
  function FileDecision(files: seq<FileInfo>): (r: FileOutcome)
    ensures files == [] <==> r.NoSelection?
    ensures r.TooLarge? <==> files != [] && files[0].size > MaxUploadBytes
    ensures r.Upload? ==> r.file == files[0] && r.file.size <= MaxUploadBytes
  {
    if files == [] then NoSelection
    else if files[0].size > MaxUploadBytes then TooLarge
    else Upload(files[0])
  }

  /** The limit is inclusive: exactly 200 MiB is uploaded, one byte more is refused. */
  lemma UploadLimitIsInclusive(name: string)
    ensures FileDecision([FileInfo(name, 209715200)]) == Upload(FileInfo(name, 209715200))
    ensures FileDecision([FileInfo(name, 209715201)]) == TooLarge
  {
  }

  // ---------------------------------------------------------------------------
  // The component
  // ---------------------------------------------------------------------------

  class DraggableToolbar {
    var expanded: bool
    var animating: bool
    var position: Pos
    var originalPosition: Pos
    var dragging: bool
    var dragOffset: Pos
    var recording: bool
    var paused: bool
    var time: nat
    var timer: Option<nat>
    var nextTimer: nat
    /** The intervals set and cleared, oldest first. */
    var timerLog: seq<TimerEffect>
    /** The files held by the hidden file input. */
    var selection: seq<FileInfo>
    /** The files handed to the upload service, oldest first. */
    var uploads: seq<FileInfo>
    var toasts: seq<Toast>

    function Snapshot(): State
      reads this
    {
      State(expanded, animating, position, originalPosition, dragging, dragOffset,
            recording, paused, time, timer, nextTimer)
    }

    predicate Valid()
      reads this
    {
      TimerInvariant(Snapshot())
    }

    constructor (innerWidth: int)
      ensures Snapshot() == Initial(innerWidth) && Valid()
      ensures timerLog == [] && selection == [] && uploads == [] && toasts == []
    {
      expanded, animating := false, false;
      position := Pos(innerWidth - 80, 20);
      originalPosition := Pos(innerWidth - 80, 20);
      dragging := false;
      dragOffset := Pos(0, 0);
      recording, paused, time := false, false, 0;
      timer, nextTimer := None, 0;
      timerLog, selection, uploads, toasts := [], [], [], [];
    }

    /** `handleMouseDown`; `rect` is the toolbar's bounding box, when it is mounted. */
    method HandleMouseDown(client: Pos, rect: Option<Pos>)
      requires Valid()
      modifies this
      ensures Valid() && Snapshot() == MouseDown(old(Snapshot()), client, rect)
      ensures timerLog == old(timerLog) && selection == old(selection)
      ensures uploads == old(uploads) && toasts == old(toasts)
    {
      if animating { return; }
      dragging := true;
      if rect.Some? {
        dragOffset := Pos(client.x - rect.value.x, client.y - rect.value.y);
      }
    }

    /** `handleMouseMove` in a window of the given inner size. */
    method HandleMouseMove(client: Pos, innerWidth: int, innerHeight: int)
      requires Valid()
      modifies this
      ensures Valid() && Snapshot() == MouseMove(old(Snapshot()), client, innerWidth, innerHeight)
      ensures timerLog == old(timerLog) && selection == old(selection)
      ensures uploads == old(uploads) && toasts == old(toasts)
    {
      if !dragging || animating { return; }
      var newX := client.x - dragOffset.x;
      var newY := client.y - dragOffset.y;
      var maxX := innerWidth - ToolbarWidth - Padding;
      var maxY := innerHeight - ToolbarHeight - Padding;
      var p := Pos(ClampCoord(newX, maxX), ClampCoord(newY, maxY));
      position := p;
      originalPosition := p;
    }

    /** `handleMouseUp` (also bound to mouse-leave). */
    method HandleMouseUp()
      requires Valid()
      modifies this
      ensures Valid() && Snapshot() == MouseUp(old(Snapshot()))
      ensures timerLog == old(timerLog) && selection == old(selection)
      ensures uploads == old(uploads) && toasts == old(toasts)
    {
      dragging := false;
    }

    /** `handleExpandToggle`. */
    method HandleExpandToggle()
      requires Valid()
      modifies this
      ensures Valid() && Snapshot() == ExpandToggled(old(Snapshot()))
      ensures timerLog == old(timerLog) && selection == old(selection)
      ensures uploads == old(uploads) && toasts == old(toasts)
    {
      if animating { return; }
      animating := true;
      expanded := !expanded;
    }

    /** The 500 ms timeout after an expand toggle. */
    method OnAnimationDone()
      requires Valid()
      modifies this
      ensures Valid() && Snapshot() == AnimationDone(old(Snapshot()))
      ensures timerLog == old(timerLog) && selection == old(selection)
      ensures uploads == old(uploads) && toasts == old(toasts)
    {
      animating := false;
    }

    /** `handleRecordingToggle`. */
    method HandleRecordingToggle()
      requires Valid()
      modifies this
      ensures Valid() && Snapshot() == RecordingToggled(old(Snapshot()))
      ensures timerLog == old(timerLog) + RecordingTimerEffects(old(Snapshot()))
      ensures selection == old(selection) && uploads == old(uploads) && toasts == old(toasts)
    {
      ghost var s0 := Snapshot();
      if !recording {
        recording, time, paused := true, 0, false;
        timerLog := timerLog + [SetInterval(nextTimer)];
        timer, nextTimer := Some(nextTimer), nextTimer + 1;
      } else {
        if timer.Some? {
          timerLog := timerLog + [ClearInterval(timer.value)];
        }
        recording, time, paused, timer := false, 0, false, None;
      }
      assert Snapshot() == RecordingToggled(s0);
    }

    /** `handlePauseToggle`. */
    method HandlePauseToggle()
      requires Valid()
      modifies this
      ensures Valid() && Snapshot() == PauseToggled(old(Snapshot()))
      ensures timerLog == old(timerLog) + PauseTimerEffects(old(Snapshot()))
      ensures selection == old(selection) && uploads == old(uploads) && toasts == old(toasts)
    {
      if !recording { return; }
      var wasPaused := paused;
      paused := !wasPaused;
      if !wasPaused {
        if timer.Some? {
          timerLog := timerLog + [ClearInterval(timer.value)];
          timer := None;
        }
      } else {
        timer := Some(nextTimer);
        timerLog := timerLog + [SetInterval(nextTimer)];
        nextTimer := nextTimer + 1;
      }
    }

    /** One firing of the one-second interval. */
    method OnTick()
      requires Valid() && timer.Some?
      modifies this
      ensures Valid() && Snapshot() == Ticked(old(Snapshot()))
      ensures timerLog == old(timerLog) && selection == old(selection)
      ensures uploads == old(uploads) && toasts == old(toasts)
    {
      time := time + 1;
    }

    /** The unmount cleanup: a running interval is cleared (the handle itself is not reset). */
    method Unmount()
      requires Valid()
      modifies this
      ensures Snapshot() == old(Snapshot())
      ensures timerLog == old(timerLog) + (if timer.Some? then [ClearInterval(timer.value)] else [])
      ensures selection == old(selection) && uploads == old(uploads) && toasts == old(toasts)
    {
      if timer.Some? {
        timerLog := timerLog + [ClearInterval(timer.value)];
      }
    }

    /** `handleFileChange` after the user picked `files`; `uploadOk` is whether
        the upload request succeeds. */
    method HandleFileChange(files: seq<FileInfo>, uploadOk: bool)
      requires Valid()
      modifies this
      ensures Valid() && Snapshot() == old(Snapshot()) && timerLog == old(timerLog)
      ensures match FileDecision(files)
        case NoSelection => selection == files && uploads == old(uploads) && toasts == old(toasts)
        case TooLarge => selection == [] && uploads == old(uploads) && toasts == old(toasts) + [SizeLimitError]
        case Upload(f) => (selection == [] && uploads == old(uploads) + [f]
          && toasts == old(toasts) + [Uploading, if uploadOk then Uploaded else UploadFailed])
    {
      selection := files;
      if |files| == 0 { return; }
      var file := files[0];
      if file.size > MaxUploadBytes {
        toasts := toasts + [SizeLimitError];
        selection := [];
        return;
      }
      toasts := toasts + [Uploading];
      uploads := uploads + [file];
      if uploadOk {
        toasts := toasts + [Uploaded];
      } else {
        toasts := toasts + [UploadFailed];
      }
      selection := [];
    }
  }
}
