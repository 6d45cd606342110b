/** The playback controller of the algorithm visualizer
    (client/src/components/leetcode/visualizer/Visualizer.tsx): a cursor over
    a fixed, non-empty sequence of precomputed steps, a play/pause flag driven
    by a timer tick, and an optional comparison track of optimal-solution
    steps read at the clamped index. */
module Visualizer {
  import opened Wrappers

  /** The algorithm families the visualizer can draw. */
  datatype AlgorithmType = ArrayType | LinkedList | Tree | Graph | HashMap | Stack | Queue | Heap

  /** A value held in a step's data snapshot, to the extent that JavaScript
      truthiness distinguishes it. */
  datatype Value =
    | VNull
    | VBool(b: bool)
    | VNum(n: int)
    | VStr(s: string)
    | VList(items: seq<int>)
    | VObject(entries: seq<(string, int)>)

  /** JavaScript truthiness: `null`, `false`, `0` and `""` are falsy; arrays
      and objects are truthy even when empty. */
  predicate Truthy(v: Value) {
    match v
    case VNull => false
    case VBool(b) => b
    case VNum(n) => n != 0
    case VStr(s) => s != []
    case VList(_) => true
    case VObject(_) => true
  }

  datatype CodeRange = CodeRange(start: int, end: int)

  /** One precomputed algorithm step; `data` is the snapshot
      `dataStructureState`, its entries in `Object.entries` order. */
  datatype Step = Step(
    id: int, description: string, codeHighlight: CodeRange,
    data: seq<(string, Value)>, variables: seq<(string, Value)>, isUserSolution: bool)

  /** The playback fields of the component state. */
  datatype PlaybackState = PlaybackState(index: int, isPlaying: bool, showComparison: bool)

  const Initial := PlaybackState(0, false, false)

  /** The cursor is on a step of a sequence of `n` steps. */
  predicate InRange(s: PlaybackState, n: nat) {
    0 <= s.index < n
  }

  // ---- transitions ----

  /** handleStepForward. */
  function Forward(s: PlaybackState, n: nat): (r: PlaybackState)
    ensures InRange(s, n) ==> InRange(r, n) && s.index <= r.index <= s.index + 1
    ensures r.isPlaying == s.isPlaying && r.showComparison == s.showComparison
  {
    if s.index < n - 1 then s.(index := s.index + 1) else s
  }

  /** handleStepBackward. */
  function Backward(s: PlaybackState): (r: PlaybackState)
    ensures s.index >= 0 ==> 0 <= r.index && s.index - 1 <= r.index <= s.index
    ensures r.isPlaying == s.isPlaying && r.showComparison == s.showComparison
  {
    if s.index > 0 then s.(index := s.index - 1) else s
  }

  /** handleReset (and handleGenerateVisualization, which only resets). */
  function Rewind(s: PlaybackState): PlaybackState {
    s.(index := 0, isPlaying := false)
  }

  /** togglePlayPause. */
  function TogglePlay(s: PlaybackState): PlaybackState {
    s.(isPlaying := !s.isPlaying)
  }

  /** The comparison switch. */
  function ToggleCompare(s: PlaybackState): PlaybackState {
    s.(showComparison := !s.showComparison)
  }

  /** The body of the autoplay interval: stop at the last step, otherwise advance. */
  function Tick(s: PlaybackState, n: nat): (r: PlaybackState)
    ensures InRange(s, n) ==> InRange(r, n)
    ensures r.index != s.index <==> s.index < n - 1
    ensures r.isPlaying != s.isPlaying <==> s.isPlaying && s.index >= n - 1
    ensures r.showComparison == s.showComparison
  {
    if s.index >= n - 1 then s.(isPlaying := false) else s.(index := s.index + 1)
  }

  /** Every transition keeps the cursor on a step. */
  lemma TransitionsKeepRange(s: PlaybackState, n: nat)
    requires InRange(s, n)
    ensures InRange(Forward(s, n), n) && InRange(Backward(s), n) && InRange(Rewind(s), n)
    ensures InRange(TogglePlay(s), n) && InRange(ToggleCompare(s), n) && InRange(Tick(s, n), n)
  {
  }

  /** Stepping forward moves by exactly one when not at the last step and is a
      no-op there; it never touches the play flag. Stepping back likewise at 0. */
  lemma StepMoves(s: PlaybackState, n: nat)
    requires InRange(s, n)
    ensures Forward(s, n).index == (if s.index < n - 1 then s.index + 1 else s.index)
    ensures Backward(s).index == (if s.index > 0 then s.index - 1 else s.index)
    ensures Forward(s, n).isPlaying == s.isPlaying == Backward(s).isPlaying
  {
  }

  /** One step forward then one back returns to the same state, unless the
      forward step was blocked at the end. */
  lemma ForwardThenBackward(s: PlaybackState, n: nat)
    requires InRange(s, n) && s.index < n - 1
    ensures Backward(Forward(s, n)) == s
  {
  }

  /** `k` presses of step-forward. */
  function ForwardTimes(s: PlaybackState, n: nat, k: nat): PlaybackState
    decreases k
  {
    if k == 0 then s else ForwardTimes(Forward(s, n), n, k - 1)
  }

  /** Pressing step-forward `k` times lands on min(index + k, last). */
  lemma {:induction false} ForwardTimesSaturates(s: PlaybackState, n: nat, k: nat)
    requires InRange(s, n)
    ensures ForwardTimes(s, n, k) == s.(index := if s.index + k < n - 1 then s.index + k else n - 1)
    decreases k
  {
    if k > 0 {
      ForwardTimesSaturates(Forward(s, n), n, k - 1);
    }
  }

  /** `k` timer ticks. */
  function TickTimes(s: PlaybackState, n: nat, k: nat): PlaybackState
    decreases k
  {
    if k == 0 then s else TickTimes(Tick(s, n), n, k - 1)
  }

  /** After `k` ticks the cursor is at min(index + k, last): autoplay never
      wraps and never passes the last step, and it has stopped exactly when a
      tick found the cursor on the last step. */
  lemma {:induction false} TickTimesStops(s: PlaybackState, n: nat, k: nat)
    requires InRange(s, n)
    ensures TickTimes(s, n, k).index == (if s.index + k < n - 1 then s.index + k else n - 1)
    ensures TickTimes(s, n, k).isPlaying == (s.isPlaying && s.index + k < n)
    ensures TickTimes(s, n, k).showComparison == s.showComparison
    decreases k
  {
    if k > 0 {
      TickTimesStops(Tick(s, n), n, k - 1);
    }
  }

  // ---- derived views ----

  /** `Math.min(currentStepIndex, optimalSteps.length - 1)`. */
  function ComparisonIndex(index: int, m: nat): (r: int)
    requires 0 <= index && m > 0
    ensures 0 <= r < m
    ensures r <= index && (index < m ==> r == index) && (index >= m ==> r == m - 1)
  {
    if index < m - 1 then index else m - 1
  }

  /** The back button is disabled exactly when stepping back would do nothing. */
  predicate BackDisabled(s: PlaybackState) {
    s.index == 0
  }

  /** The forward button is disabled at the last step. */
  predicate ForwardDisabled(s: PlaybackState, n: nat) {
    s.index == n - 1
  }

  /** A control is disabled exactly where its handler is a no-op. */
  lemma DisabledIffNoOp(s: PlaybackState, n: nat)
    requires InRange(s, n)
    ensures BackDisabled(s) <==> Backward(s) == s
    ensures ForwardDisabled(s, n) <==> Forward(s, n) == s
  {
  }

  /** The "Step i / n" label. */
  function StepLabel(s: PlaybackState, n: nat): (shown: (int, int))
    requires InRange(s, n)
    ensures 1 <= shown.0 <= shown.1 && shown.1 == n
  {
    (s.index + 1, n)
  }

  /** The "Current Data" panel: every snapshot entry except "array" and
      "result", in order. */
  function CurrentDataEntries(data: seq<(string, Value)>): (r: seq<(string, Value)>)
    ensures |r| <= |data|
    ensures forall e :: e in r <==> e in data && e.0 != "array" && e.0 != "result"
  {
    if data == [] then []
    else
      var rest := CurrentDataEntries(data[1..]);
      if data[0].0 != "array" && data[0].0 != "result" then [data[0]] + rest else rest
  }

  /** The panel keeps the snapshot's entry order: a single entry is shown
      exactly when its key is neither "array" nor "result", and the entries
      of two consecutive parts of the snapshot are listed one after the other. */
  lemma {:induction false} CurrentDataOrder(a: seq<(string, Value)>, b: seq<(string, Value)>)
    ensures CurrentDataEntries(a + b) == CurrentDataEntries(a) + CurrentDataEntries(b)
    ensures forall e :: CurrentDataEntries([e]) == if e.0 != "array" && e.0 != "result" then [e] else []
  {
    if a == [] {
      assert a + b == b;
    } else {
      assert (a + b)[1..] == a[1..] + b;
      CurrentDataOrder(a[1..], b);
    }
    forall e: (string, Value)
      ensures CurrentDataEntries([e]) == if e.0 != "array" && e.0 != "result" then [e] else []
    {
      assert [e][1..] == [];
    }
  }

  /** The value under a key of a snapshot, if present. */
  function Lookup(data: seq<(string, Value)>, key: string): (r: Option<Value>)
    ensures r.Some? <==> exists i :: 0 <= i < |data| && data[i].0 == key
    ensures r.Some? ==> (key, r.value) in data
  {
    if data == [] then None
    else if data[0].0 == key then Some(data[0].1)
    else Lookup(data[1..], key)
  }

  /** The separate "result" badge: shown only when the snapshot has a truthy
      "result" entry. */
  function ResultBadge(data: seq<(string, Value)>): (r: Option<Value>)
    ensures r.Some? ==> ("result", r.value) in data && Truthy(r.value)
    ensures r.Some? <==> Lookup(data, "result").Some? && Truthy(Lookup(data, "result").value)
  {
    match Lookup(data, "result")
    case Some(v) => if Truthy(v) then Some(v) else None
    case None => None
  }

  /** The controller state of one visualization session. The step sequences
      are fixed for the session; only the cursor and the two flags change. */
  class Playback {
    const steps: seq<Step>
    const optimalSteps: seq<Step>
    var currentStepIndex: int
    var isPlaying: bool
    var showComparison: bool

    ghost predicate Valid()
      reads this
    {
      |steps| > 0 && |optimalSteps| > 0 && InRange(State(), |steps|)
    }

    function State(): PlaybackState
      reads this
    {
      PlaybackState(currentStepIndex, isPlaying, showComparison)
    }

    constructor (steps: seq<Step>, optimalSteps: seq<Step>)
      requires |steps| > 0 && |optimalSteps| > 0
      ensures Valid() && State() == Initial
      ensures this.steps == steps && this.optimalSteps == optimalSteps
    {
      this.steps := steps;
      this.optimalSteps := optimalSteps;
      currentStepIndex := 0;
      isPlaying := false;
      showComparison := false;
    }

    method StepForward()
      requires Valid()
      modifies this
      ensures Valid() && State() == Forward(old(State()), |steps|)
    {
      if currentStepIndex < |steps| - 1 {
        currentStepIndex := currentStepIndex + 1;
      }
    }

    method StepBackward()
      requires Valid()
      modifies this
      ensures Valid() && State() == Backward(old(State()))
    {
      if currentStepIndex > 0 {
        currentStepIndex := currentStepIndex - 1;
      }
    }

    method Reset()
      requires Valid()
      modifies this
      ensures Valid() && State() == Rewind(old(State()))
      ensures currentStepIndex == 0 && !isPlaying
    {
      isPlaying := false;
      currentStepIndex := 0;
    }

    /** handleGenerateVisualization: for now it only resets the playback. */
    method GenerateVisualization()
      requires Valid()
      modifies this
      ensures Valid() && State() == Rewind(old(State()))
    {
      Reset();
    }

    method TogglePlayPause()
      requires Valid()
      modifies this
      ensures Valid() && State() == TogglePlay(old(State()))
      ensures currentStepIndex == old(currentStepIndex)
    {
      isPlaying := !isPlaying;
    }

    method ToggleComparison()
      requires Valid()
      modifies this
      ensures Valid() && State() == ToggleCompare(old(State()))
    {
      showComparison := !showComparison;
    }

    /** One firing of the autoplay interval. */
    method TimerTick()
      requires Valid()
      modifies this
      ensures Valid() && State() == Tick(old(State()), |steps|)
      ensures currentStepIndex <= |steps| - 1
    {
      if currentStepIndex >= |steps| - 1 {
        isPlaying := false;
      } else {
        currentStepIndex := currentStepIndex + 1;
      }
    }

    /** `steps[currentStepIndex]`, the step every panel draws. */
    function CurrentStep(): (st: Step)
      reads this
      requires Valid()
      ensures st in steps
    {
      steps[currentStepIndex]
    }

    /** The `comparisonData` handed to the drawing: the optimal track's
      snapshot at the clamped index while comparison is on, nothing otherwise. */
    function ComparisonData(): (r: Option<seq<(string, Value)>>)
      reads this
      requires Valid()
      ensures r.Some? <==> showComparison
      ensures r.Some? ==> r.value == optimalSteps[ComparisonIndex(currentStepIndex, |optimalSteps|)].data
    {
      if showComparison
      then Some(optimalSteps[ComparisonIndex(currentStepIndex, |optimalSteps|)].data)
      else None
    }
  }
}
