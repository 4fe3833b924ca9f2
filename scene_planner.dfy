/**
 * The scene-planning step of the video handler: the planner's reply is
 * cleaned of a markdown code fence, handed to the JSON parser, and replaced
 * by a one-scene fallback plan when the parser reports a syntax error.
 */
module ScenePlanner {
  import opened Wrappers
  import opened Strings

  /** One planned scene: the text to speak and the prompt for its picture. */
  datatype Plan = Plan(narration: string, imagePrompt: string)

  /** The planner's HTTP reply: not ok, or ok with the first choice's message content (if any). */
  datatype PlannerReply = PlannerRejected | PlannerAnswered(content: Option<string>)

  /**
   * What `JSON.parse` followed by the reads of `scenes.scenes` makes of the
   * cleaned reply: a syntax error, a document of the wrong shape (the runtime
   * raises a TypeError carrying `message`), or the planned scenes.
   */
  datatype ParseOutcome = SyntaxError | BadShape(message: string) | Scenes(plans: seq<Plan>)

  const ScenesFailed := "Failed to generate scenes"
  const FallbackLead := "A professional, cinematic scene representing: "
  const FallbackNarrationLength := 500
  const FallbackSubjectLength := 200

  /**
   * `text.replace(/```json\n?|\n?```/g, '')`: scanning left to right, removes
   * each "```json" (with one following newline, if present) and each "```"
   * (with one preceding newline, if present).
   */
  function RemoveFences(s: string): (r: string)
    ensures |r| <= |s|
    decreases |s|
  {
    if s == [] then ""
    else if OpensJsonFence(s) then
      if |s| > 7 && s[7] == '\n' then RemoveFences(s[8..]) else RemoveFences(s[7..])
    else if s[0] == '\n' && OpensFence(s[1..]) then RemoveFences(s[4..])
    else if OpensFence(s) then RemoveFences(s[3..])
    else [s[0]] + RemoveFences(s[1..])
  }

  /** `s` starts with three backticks. */
  predicate OpensFence(s: string) {
    |s| >= 3 && s[0] == '`' && s[1] == '`' && s[2] == '`'
  }

  /** `s` starts with "```json". */
  predicate OpensJsonFence(s: string) {
    OpensFence(s) && |s| >= 7 && s[3] == 'j' && s[4] == 's' && s[5] == 'o' && s[6] == 'n'
  }

  /** The text handed to `JSON.parse`: never longer than the reply, and without blank ends. */
  function CleanReply(text: string): (clean: string)
    ensures |clean| <= |text|
    ensures clean == [] || (!IsWhitespace(clean[0]) && !IsWhitespace(clean[|clean| - 1]))
  {
    Trim(RemoveFences(text))
  }

  /** A character that is not a backtick, and is not followed by one, is kept as it is. */
  lemma PlainStep(u: string)
    requires u != [] && u[0] != '`'
    requires |u| < 2 || u[1] != '`'
    ensures RemoveFences(u) == [u[0]] + RemoveFences(u[1..])
  {
    assert !OpensJsonFence(u) && !OpensFence(u);
    assert !OpensFence(u[1..]);
  }

  /** Backtick-free text passes through fence removal unchanged. */
  lemma {:induction false} RemoveFencesKeeps(s: string, t: string)
    requires '`' !in s
    requires t == [] || t[0] != '`'
    ensures RemoveFences(s + t) == s + RemoveFences(t)
    decreases |s|
  {
    if s == [] {
      assert s + t == t;
    } else {
      var u := s + t;
      assert u[0] == s[0] && s[0] in s;
      assert |u| >= 2 ==> u[1] != '`' by {
        if |s| >= 2 {
          assert u[1] == s[1] && s[1] in s;
        } else if |u| >= 2 {
          assert u[1] == t[0];
        }
      }
      PlainStep(u);
      assert u[1..] == s[1..] + t;
      RemoveFencesKeeps(s[1..], t);
      assert [s[0]] + (s[1..] + RemoveFences(t)) == s + RemoveFences(t);
    }
  }

  /** A reply without backticks is only trimmed. */
  lemma CleanUnfenced(s: string)
    requires '`' !in s
    ensures CleanReply(s) == Trim(s)
  {
    RemoveFencesKeeps(s, "");
    assert s + "" == s;
  }

  /** A reply wrapped in a ```json fence is cleaned to the same text as the bare reply. */
  lemma CleanFenced(s: string)
    requires '`' !in s
    ensures CleanReply("```json\n" + s + "\n```") == Trim(s) == CleanReply(s)
  {
    var fenced := "```json\n" + s + "\n```";
    assert OpensJsonFence(fenced) && fenced[7] == '\n';
    assert fenced[8..] == s + "\n```";
    RemoveFencesKeeps(s, "\n```");
    assert OpensFence("\n```"[1..]);
    assert RemoveFences("\n```") == "";
    assert s + "" == s;
    CleanUnfenced(s);
  }

  /** The single scene used when the reply is not valid JSON. */
  function FallbackPlan(script: string): (r: seq<Plan>)
    ensures |r| == 1
    ensures r[0].narration <= script && |r[0].narration| == Min(FallbackNarrationLength, |script|)
    ensures |r[0].imagePrompt| == |FallbackLead| + Min(FallbackSubjectLength, |script|)
    ensures r[0].imagePrompt[..|FallbackLead|] == FallbackLead
    ensures r[0].imagePrompt[|FallbackLead|..] <= r[0].narration
  {
    [Plan(Prefix(script, FallbackNarrationLength), FallbackLead + Prefix(script, FallbackSubjectLength))]
  }

  /**
   * Planning as the handler does it, from the planner's reply. A rejected
   * reply is fatal, only a syntax error engages the fallback, and a document
   * of the wrong shape fails with the runtime's message instead of falling back.
   */
  function PlanScenes(script: string, reply: PlannerReply, parse: string -> ParseOutcome): (r: Result<seq<Plan>, string>)
    ensures reply.PlannerRejected? ==> r == Failure(ScenesFailed)
    ensures reply.PlannerAnswered? ==>
      var outcome := parse(CleanReply(reply.content.GetOr("")));
      && (outcome.SyntaxError? ==> r == Success(FallbackPlan(script)))
      && (outcome.BadShape? ==> r == Failure(outcome.message))
      && (outcome.Scenes? ==> r == Success(outcome.plans))
  {
    match reply
    case PlannerRejected => Failure(ScenesFailed)
    case PlannerAnswered(content) =>
      match parse(CleanReply(content.GetOr("")))
      case SyntaxError => Success(FallbackPlan(script))
      case BadShape(message) => Failure(message)
      case Scenes(plans) => Success(plans)
  }

  /** A fenced reply plans exactly as the same reply without its fence. */
  lemma FencedReplyPlansAsBare(script: string, s: string, parse: string -> ParseOutcome)
    requires '`' !in s
    ensures PlanScenes(script, PlannerAnswered(Some("```json\n" + s + "\n```")), parse)
         == PlanScenes(script, PlannerAnswered(Some(s)), parse)
  {
    CleanFenced(s);
    SameCleanSamePlan(script, "```json\n" + s + "\n```", s, parse);
  }

  lemma SameCleanSamePlan(script: string, a: string, b: string, parse: string -> ParseOutcome)
    requires CleanReply(a) == CleanReply(b)
    ensures PlanScenes(script, PlannerAnswered(Some(a)), parse) == PlanScenes(script, PlannerAnswered(Some(b)), parse)
  {
  }
}
