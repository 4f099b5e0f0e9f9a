/**
 * What the browser and the language model hand back for one connection, and
 * the deterministic fallbacks the actor uses when they fail: the name check
 * that turns a scraped page into "no profile", the degraded classification
 * and the templated message.
 */
module Profiles {
  import opened Wrappers
  import opened Strings

  /** The fields scraped from a profile page (all trimmed inner texts, possibly empty). */
  datatype ProfileData = ProfileData(
    name: string,
    headline: string,
    company: string,
    about: string,
    location: string,
    experience: string)

  /** The verdict of the language model on one profile. */
  datatype Evaluation = Evaluation(
    isDecisionMaker: bool,
    category: string,
    confidence: real,
    reasoning: string)

  /** A usable profile has a name of at least two characters. */
  predicate HasValidName(profile: ProfileData) {
    |profile.name| >= 2
  }

  /**
   * The result of extracting a profile. `scraped` is what the page yielded,
   * `None` when navigation or the page script threw. A page without a usable
   * name counts as a failed extraction, exactly like an exception.
   */
  function ExtractProfileInfo(scraped: Option<ProfileData>): (r: Option<ProfileData>)
    ensures r.Some? <==> scraped.Some? && |scraped.value.name| >= 2
    ensures r.Some? ==> r == scraped && r.value.name != []
  {
    match scraped
    case None => None
    case Some(profile) => if HasValidName(profile) then scraped else None
  }

  /** The classification stored when the model call or the parsing of its reply fails. */
  const FailedEvaluation := Evaluation(false, "Error", 0.0, "Failed to evaluate")

  /**
   * The classification used for a profile. `reply` is the parsed verdict of the
   * model, `None` when the call threw or no JSON object could be parsed.
   */
  function EvaluateWithAI(reply: Option<Evaluation>): (e: Evaluation)
    ensures reply.Some? ==> e == reply.value
    ensures reply.None? ==> !e.isDecisionMaker && e.category == "Error" && e.confidence == 0.0
  {
    match reply
    case Some(verdict) => verdict
    case None => FailedEvaluation
  }

  /** The first space-separated word of a name (`name.split(' ')[0]`). */
  function FirstName(name: string): (first: string)
    ensures |first| <= |name| && first == name[..|first|]
    ensures ' ' !in first
    ensures |first| < |name| ==> name[|first|] == ' '
  {
    if name == [] || name[0] == ' ' then []
    else
      var rest := FirstName(name[1..]);
      assert name[..1 + |rest|] == [name[0]] + name[1..][..|rest|];
      [name[0]] + rest
  }

  const Greeting := "Hey "
  const Pitch := ", built a voice AI platform that cuts costs 70% vs traditional providers. Full control, <1s latency. Check it out: "
  const Closing := " - open to a quick chat?"

  /** The message sent when composing a personalised one fails. */
  function FallbackMessage(name: string, demoUrl: string): (m: string)
    ensures |m| == |Greeting| + |FirstName(name)| + |Pitch| + |demoUrl| + |Closing|
    ensures m[..|Greeting| + |FirstName(name)|] == Greeting + FirstName(name)
    ensures Contains(m, demoUrl)
  {
    var m := Greeting + FirstName(name) + Pitch + demoUrl + Closing;
    ContainsMiddle(Greeting + FirstName(name) + Pitch, demoUrl, Closing);
    m
  }

  /**
   * The message for a decision maker. `composed` is the trimmed text returned by
   * the model, `None` when the call threw.
   */
  function GenerateMessage(composed: Option<string>, profile: ProfileData, demoUrl: string): (m: string)
    ensures composed.Some? ==> m == composed.value
    ensures composed.None? ==> Contains(m, demoUrl) && m == FallbackMessage(profile.name, demoUrl)
  {
    match composed
    case Some(text) => text
    case None => FallbackMessage(profile.name, demoUrl)
  }

  /** A one-word name is greeted in full. */
  lemma FirstNameOfOneWord(name: string)
    requires ' ' !in name
    ensures FirstName(name) == name
  {
  }

  /** Only the text up to the first space counts: anything after it is ignored. */
  lemma {:induction false} FirstNameOfTwoWords(first: string, rest: string)
    requires ' ' !in first
    ensures FirstName(first + " " + rest) == first
  {
    if first == [] {
      assert (first + " " + rest)[0] == ' ';
    } else {
      assert (first + " " + rest)[1..] == first[1..] + " " + rest;
      FirstNameOfTwoWords(first[1..], rest);
    }
  }
}
