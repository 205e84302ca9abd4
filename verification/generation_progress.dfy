/**
 * The generation progress view (src/components/create/generation-progress.tsx):
 * the current stage, the completed stages and the stage's own progress, all
 * as functions of the overall progress percentage.
 */
module Progress {

  datatype Stage = Initializing | Outline | Slides | Images | Finalize | Complete

  /** The stages' order along a generation. */
  function Rank(s: Stage): nat {
    match s
    case Initializing => 0
    case Outline => 1
    case Slides => 2
    case Images => 3
    case Finalize => 4
    case Complete => 5
  }

  /** The four rows of the stage timeline, in display order. */
  const TimelineStages: seq<Stage> := [Outline, Slides, Images, Finalize]

  /** currentStage: thresholds at 10, 30, 70, 90 and 100. */
  function CurrentStage(progress: real): (s: Stage)
    ensures s == Initializing <==> progress < 10.0
    ensures s == Outline <==> 10.0 <= progress < 30.0
    ensures s == Slides <==> 30.0 <= progress < 70.0
    ensures s == Images <==> 70.0 <= progress < 90.0
    ensures s == Finalize <==> 90.0 <= progress < 100.0
    ensures s == Complete <==> 100.0 <= progress
  {
    if progress < 10.0 then Initializing
    else if progress < 30.0 then Outline
    else if progress < 70.0 then Slides
    else if progress < 90.0 then Images
    else if progress < 100.0 then Finalize
    else Complete
  }

  /** More progress never moves the stage backwards. */
  lemma StageMonotone(p: real, q: real)
    requires p <= q
    ensures Rank(CurrentStage(p)) <= Rank(CurrentStage(q))
  {
  }

  /** completedStages: outline at 30, slides at 70, images at 90. */
  function CompletedStages(progress: real): (r: seq<Stage>)
    ensures |r| <= 3 && r == [Outline, Slides, Images][..|r|]
    ensures |r| == (if progress >= 90.0 then 3 else if progress >= 70.0 then 2 else if progress >= 30.0 then 1 else 0)
  {
    (if progress >= 30.0 then [Outline] else [])
      + (if progress >= 70.0 then [Slides] else [])
      + (if progress >= 90.0 then [Images] else [])
  }

  /**
   * The current stage is never listed as completed, and every completed stage
   * comes before it.
   */
  lemma CurrentNotCompleted(p: real)
    ensures CurrentStage(p) !in CompletedStages(p)
    ensures forall s :: s in CompletedStages(p) ==> Rank(s) < Rank(CurrentStage(p))
  {
  }

  /** Completed stages only accumulate as progress grows. */
  lemma CompletedGrows(p: real, q: real)
    requires p <= q
    ensures |CompletedStages(p)| <= |CompletedStages(q)|
    ensures CompletedStages(p) == CompletedStages(q)[..|CompletedStages(p)|]
  {
  }

  /** `Math.min(x, 100)`. */
  function Cap(x: real): real {
    if x <= 100.0 then x else 100.0
  }

  /**
   * stageProgress: the position inside the current stage's band as a
   * percentage, capped at 100, and 0 before outline and after finalize.
   */
  function StageProgress(progress: real): (r: real)
    ensures r <= 100.0
    ensures CurrentStage(progress) in {Initializing, Complete} ==> r == 0.0
    ensures CurrentStage(progress) !in {Initializing, Complete} ==> 0.0 <= r < 100.0
  {
    match CurrentStage(progress)
    case Outline => Cap((progress - 10.0) / 20.0 * 100.0)
    case Slides => Cap((progress - 30.0) / 40.0 * 100.0)
    case Images => Cap((progress - 70.0) / 20.0 * 100.0)
    case Finalize => Cap((progress - 90.0) / 10.0 * 100.0)
    case _ => 0.0
  }

  /** Inside one stage, stage progress rises with overall progress. */
  lemma StageProgressMonotone(p: real, q: real)
    requires p <= q && CurrentStage(p) == CurrentStage(q)
    ensures StageProgress(p) <= StageProgress(q)
  {
  }

  /** How a timeline row is drawn: green check, spinner, or grey icon. */
  datatype RowStatus = Waiting | Active | Done

  function RowRank(r: RowStatus): nat {
    match r
    case Waiting => 0
    case Active => 1
    case Done => 2
  }

  /** The row for `key`: completed wins over current, as in the JSX. */
  function RowWith(completed: seq<Stage>, current: Stage, key: Stage): RowStatus {
    if key in completed then Done else if key == current then Active else Waiting
  }

  /** A timeline row as written. */
  function Row(progress: real, key: Stage): (r: RowStatus)
    ensures r == Done <==> key in CompletedStages(progress)
    ensures r == Active <==> key !in CompletedStages(progress) && key == CurrentStage(progress)
  {
    RowWith(CompletedStages(progress), CurrentStage(progress), key)
  }

  /**
   * As written, "Finalizing deck" is never completed: it spins while
   * finalizing and turns grey again once progress reaches 100.
   */
  lemma FinalizeRowRegresses()
    ensures Row(95.0, Finalize) == Active
    ensures Row(100.0, Finalize) == Waiting
  {
  }

  /** The completed list as evidently intended: finalize is done at 100. */
  function CompletedStagesIntended(progress: real): (r: seq<Stage>)
    ensures CompletedStages(progress) <= r
    ensures forall s :: s in r <==> s in TimelineStages && Rank(s) < Rank(CurrentStage(progress))
  {
    CompletedStages(progress) + (if progress >= 100.0 then [Finalize] else [])
  }

  function RowIntended(progress: real, key: Stage): RowStatus {
    RowWith(CompletedStagesIntended(progress), CurrentStage(progress), key)
  }

  /** With the intended list, no timeline row ever moves backwards as progress grows. */
  lemma RowIntendedMonotone(p: real, q: real, key: Stage)
    requires p <= q && key in TimelineStages
    ensures RowRank(RowIntended(p, key)) <= RowRank(RowIntended(q, key))
  {
    StageMonotone(p, q);
  }

  /** With the intended list, every row is done once progress reaches 100. */
  lemma AllRowsDoneAtEnd(p: real, key: Stage)
    requires 100.0 <= p && key in TimelineStages
    ensures RowIntended(p, key) == Done
  {
  }
}
