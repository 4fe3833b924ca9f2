/**
 * The narration and timing steps of the video handler: the surviving
 * narrations joined into one speech text, the word count of that text, the
 * estimated total duration at 150 words per minute, and its even split
 * across the scenes.
 */
module Narration {
  import opened Wrappers
  import opened Strings
  import opened ScenePlanner
  import opened SceneImages

  /** A returned scene: a kept scene with its share of the playback time. */
  datatype TimedScene = TimedScene(narration: string, imageUrl: string, duration: real)

  /** The assumed speaking rate. */
  const WordsPerMinute := 150

  /**
   * `validScenes.map(s => s.narration).join(' ')`: it opens with the first
   * scene's narration and every scene's narration occurs in it.
   */
  function JoinNarration(scenes: seq<Scene>): (text: string)
    ensures |scenes| > 0 ==> scenes[0].narration <= text
    ensures forall k :: 0 <= k < |scenes| ==> Contains(text, scenes[k].narration)
  {
    var narrations := seq(|scenes|, k requires 0 <= k < |scenes| => scenes[k].narration);
    JoinContains(narrations);
    assert forall k :: 0 <= k < |scenes| ==> narrations[k] == scenes[k].narration;
    Join(narrations)
  }

  /**
   * The text sent to speech is the survivors' narrations, in plan order,
   * joined by single spaces; no other plan's narration appears in it.
   */
  lemma NarrationOfSurvivors(plans: seq<Plan>, outcomes: seq<Option<string>>)
    requires |plans| == |outcomes|
    ensures var idx := SurvivorIndices(outcomes);
      JoinNarration(KeepImaged(plans, outcomes))
      == Join(seq(|idx|, k requires 0 <= k < |idx| => plans[idx[k]].narration))
  {
    KeptInPlanOrder(plans, outcomes);
    var kept := KeepImaged(plans, outcomes);
    var idx := SurvivorIndices(outcomes);
    assert seq(|kept|, k requires 0 <= k < |kept| => kept[k].narration)
        == seq(|idx|, k requires 0 <= k < |idx| => plans[idx[k]].narration);
  }

  /** `text.split(/\s+/).length`: one more than the number of whitespace runs, so never 0. */
  function WordCount(text: string): (n: nat)
    ensures n == 1 + RunStarts(text, false)
    ensures n >= 1
  {
    SplitCountsRuns(text);
    |Split(text)|
  }

  /** Text made of blank-free words joined by single spaces counts one word per word. */
  lemma WordCountOfWords(words: seq<string>)
    requires |words| >= 1
    requires forall w <- words :: w != [] && NoWhitespace(w)
    ensures WordCount(Join(words)) == |words|
  {
    SplitJoin(words);
  }

  /** `(wordCount / 150) * 60 * 1000`, in exact arithmetic: 400 ms per word. */
  function TotalDurationMs(words: nat): (ms: real)
    ensures ms == (400 * words) as real
  {
    (words as real / WordsPerMinute as real) * 60.0 * 1000.0
  }

  /** `estimatedDurationMs / validScenes.length`: the share each scene gets. */
  function PerSceneMs(total: real, scenes: nat): (share: real)
    requires scenes > 0
    ensures share * scenes as real == total
  {
    total / scenes as real
  }

  /** `validScenes.map(scene => ({...scene, duration}))`. */
  function WithDuration(scenes: seq<Scene>, duration: real): (timed: seq<TimedScene>)
    ensures |timed| == |scenes|
    ensures forall k :: 0 <= k < |scenes| ==>
      timed[k] == TimedScene(scenes[k].narration, scenes[k].imageUrl, duration)
  {
    seq(|scenes|, k requires 0 <= k < |scenes| => TimedScene(scenes[k].narration, scenes[k].imageUrl, duration))
  }

  function SumDurations(timed: seq<TimedScene>): real {
    if timed == [] then 0.0 else timed[0].duration + SumDurations(timed[1..])
  }

  /** Scenes that all last `d` last `|timed| * d` together. */
  lemma {:induction false} SumOfEqualDurations(timed: seq<TimedScene>, d: real)
    requires forall k :: 0 <= k < |timed| ==> timed[k].duration == d
    ensures SumDurations(timed) == |timed| as real * d
  {
    if timed != [] {
      var rest := timed[1..];
      assert forall k :: 0 <= k < |rest| ==> rest[k] == timed[k + 1];
      SumOfEqualDurations(rest, d);
      assert SumDurations(timed) == d + SumDurations(rest);
      OneMore(|rest|, d);
    }
  }

  lemma OneMore(n: nat, d: real)
    ensures (n + 1) as real * d == n as real * d + d
  {
  }

  /** Scenes that share `total` evenly last `total` together. */
  lemma EvenShares(timed: seq<TimedScene>, total: real)
    requires |timed| > 0
    requires forall k :: 0 <= k < |timed| ==> timed[k].duration == total / |timed| as real
    ensures SumDurations(timed) == total
  {
    var share := PerSceneMs(total, |timed|);
    SumOfEqualDurations(timed, share);
  }

  /** The scenes' durations add up to the total estimate. */
  lemma DurationsAddUp(scenes: seq<Scene>, total: real)
    requires |scenes| > 0
    ensures SumDurations(WithDuration(scenes, PerSceneMs(total, |scenes|))) == total
  {
    EvenShares(WithDuration(scenes, PerSceneMs(total, |scenes|)), total);
  }
}
