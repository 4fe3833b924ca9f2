/**
 * The image fan-out of the video handler: one image request per planned
 * scene, then the scenes whose image came back with a URL, in plan order.
 */
module SceneImages {
  import opened Wrappers
  import opened Strings
  import opened ScenePlanner

  /** A scene that got its image. */
  datatype Scene = Scene(narration: string, imageUrl: string)

  const ImageLead := "Generate a high-quality, cinematic image: "
  const ImageTail := ". Make it visually stunning and professional."

  /** The user content of a scene's image request; `PromptOf` takes it apart again. */
  function ImageRequestFor(imagePrompt: string): (content: string)
    ensures |content| == |ImageLead| + |imagePrompt| + |ImageTail|
    ensures PromptOf(content) == Some(imagePrompt)
  {
    var content := ImageLead + imagePrompt + ImageTail;
    assert content[..|ImageLead|] == ImageLead;
    assert content[|content| - |ImageTail|..] == ImageTail;
    assert content[|ImageLead|..|content| - |ImageTail|] == imagePrompt;
    content
  }

  /** The scene prompt inside an image request, if `content` has the request's shape. */
  function PromptOf(content: string): Option<string> {
    if |content| >= |ImageLead| + |ImageTail|
       && content[..|ImageLead|] == ImageLead
       && content[|content| - |ImageTail|..] == ImageTail
    then Some(content[|ImageLead|..|content| - |ImageTail|])
    else None
  }

  /** Two scenes get the same image request only if their prompts are equal. */
  lemma ImageRequestInjective(p: string, q: string)
    requires ImageRequestFor(p) == ImageRequestFor(q)
    ensures p == q
  {
    assert PromptOf(ImageRequestFor(p)) == Some(p);
  }

  /**
   * The per-scene image outcomes, by plan index (`Promise.all` keeps index
   * order): the URL of the first image, or `None` when the request failed or
   * the reply carried no image.
   */
  function ImageOutcomes(plans: seq<Plan>, image: (nat, string) -> Option<string>): (outcomes: seq<Option<string>>)
    ensures |outcomes| == |plans|
    ensures forall i :: 0 <= i < |plans| ==> outcomes[i] == image(i, ImageRequestFor(plans[i].imagePrompt))
  {
    seq(|plans|, i requires 0 <= i < |plans| => image(i, ImageRequestFor(plans[i].imagePrompt)))
  }

  /**
   * `generatedScenes.filter(s => s && s.imageUrl)`, each survivor with its
   * plan's narration: a scene survives when its outcome is a truthy URL.
   */
  function KeepImaged(plans: seq<Plan>, outcomes: seq<Option<string>>): (kept: seq<Scene>)
    requires |plans| == |outcomes|
    ensures |kept| <= |plans|
    ensures kept == [] <==> forall i :: 0 <= i < |outcomes| ==> !Truthy(outcomes[i])
    ensures forall k :: 0 <= k < |kept| ==> kept[k].imageUrl != ""
    decreases |plans|
  {
    if plans == [] then []
    else
      var n := |plans| - 1;
      var before := KeepImaged(plans[..n], outcomes[..n]);
      assert forall i :: 0 <= i < n ==> outcomes[..n][i] == outcomes[i];
      if Truthy(outcomes[n]) then before + [Scene(plans[n].narration, outcomes[n].value)] else before
  }

  /** The indices of the surviving scenes, ascending. */
  function SurvivorIndices(outcomes: seq<Option<string>>): (idx: seq<nat>)
    ensures forall k :: 0 <= k < |idx| ==> idx[k] < |outcomes| && Truthy(outcomes[idx[k]])
    ensures forall i :: 0 <= i < |outcomes| && Truthy(outcomes[i]) ==> i in idx
    ensures forall j, k :: 0 <= j < k < |idx| ==> idx[j] < idx[k]
    decreases |outcomes|
  {
    if outcomes == [] then []
    else
      var n := |outcomes| - 1;
      var before := SurvivorIndices(outcomes[..n]);
      assert forall i :: 0 <= i < n ==> outcomes[..n][i] == outcomes[i];
      if Truthy(outcomes[n]) then before + [n] else before
  }

  /**
   * The kept scenes are exactly the surviving plans, in plan order: the k-th
   * kept scene is the plan at the k-th surviving index, with that plan's
   * narration and its own image URL.
   */
  lemma {:induction false} KeptInPlanOrder(plans: seq<Plan>, outcomes: seq<Option<string>>)
    requires |plans| == |outcomes|
    ensures |KeepImaged(plans, outcomes)| == |SurvivorIndices(outcomes)|
    ensures forall k :: 0 <= k < |SurvivorIndices(outcomes)| ==>
      var i := SurvivorIndices(outcomes)[k];
      KeepImaged(plans, outcomes)[k] == Scene(plans[i].narration, outcomes[i].value)
    decreases |plans|
  {
    if plans != [] {
      var n := |plans| - 1;
      KeptInPlanOrder(plans[..n], outcomes[..n]);
      var before := SurvivorIndices(outcomes[..n]);
      forall k | 0 <= k < |before|
        ensures before[k] < n && plans[..n][before[k]] == plans[before[k]]
        ensures outcomes[..n][before[k]] == outcomes[before[k]]
      {
      }
    }
  }

  /**
   * A scene whose image failed contributes nothing: changing its plan
   * (its narration in particular) leaves the kept scenes unchanged.
   */
  lemma {:induction false} DroppedSceneIgnored(plans: seq<Plan>, other: seq<Plan>, outcomes: seq<Option<string>>, d: nat)
    requires |plans| == |other| == |outcomes|
    requires d < |outcomes| && !Truthy(outcomes[d])
    requires forall i :: 0 <= i < |plans| && i != d ==> other[i] == plans[i]
    ensures KeepImaged(other, outcomes) == KeepImaged(plans, outcomes)
    decreases |plans|
  {
    var n := |plans| - 1;
    KeepLast(plans, outcomes);
    KeepLast(other, outcomes);
    if d < n {
      assert other[n] == plans[n];
      assert forall i :: 0 <= i < n && i != d ==> other[..n][i] == plans[..n][i];
      DroppedSceneIgnored(plans[..n], other[..n], outcomes[..n], d);
    } else {
      assert plans[..n] == other[..n];
    }
  }

  /** `KeepImaged` looks at the last plan after filtering the ones before it. */
  lemma KeepLast(plans: seq<Plan>, outcomes: seq<Option<string>>)
    requires |plans| == |outcomes| > 0
    ensures var n := |plans| - 1;
      KeepImaged(plans, outcomes) == KeepImaged(plans[..n], outcomes[..n])
        + (if Truthy(outcomes[n]) then [Scene(plans[n].narration, outcomes[n].value)] else [])
  {
    var n := |plans| - 1;
    var before := KeepImaged(plans[..n], outcomes[..n]);
    assert before + [] == before;
  }
}
