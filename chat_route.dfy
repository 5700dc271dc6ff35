/**
 * The chat proxy route: it serialises the request's skills and experiences,
 * wraps them and the user's question in a fixed instruction template, hands
 * the prompt to a text generator and answers with the generated text or with
 * a fixed error.
 *
 * The generator is a parameter: the model only sees whether it produced text
 * or failed.
 */
module ChatRoute {
  import opened Strings
  import opened Profile

  // ---------------------------------------------------------------------
  // Serialising the knowledge base
  // ---------------------------------------------------------------------

  /** The skills, each as `name (level%)`, separated by ", ". */
  function SkillsString(skills: seq<Skill>): (r: string)
    ensures r == "" <==> skills == []
    ensures |skills| == 1 ==> r == FormatSkill(skills[0])
  {
    Join(FormatSkills(skills), ", ")
  }

  /** One experience on one line: role, company, period, description, achievements. */
  function ExperienceLine(e: Experience): (r: string)
    ensures StartsWith(r, e.role + " at " + e.company + " (" + e.period + "): ")
    ensures EndsWith(r, ". Achievements: " + Join(e.achievements, ", "))
  {
    e.role + " at " + e.company + " (" + e.period + "): " + e.description
    + ". Achievements: " + Join(e.achievements, ", ")
  }

  /** ExperienceLine of each experience, in the request's order. */
  function ExperienceLines(exps: seq<Experience>): (r: seq<string>)
    ensures |r| == |exps|
    ensures forall i :: 0 <= i < |r| ==> r[i] == ExperienceLine(exps[i])
  {
    if exps == [] then [] else [ExperienceLine(exps[0])] + ExperienceLines(exps[1..])
  }

  /** The experience lines separated by line breaks. */
  function ExperiencesString(exps: seq<Experience>): (r: string)
    ensures exps == [] ==> r == ""
    ensures |exps| == 1 ==> r == ExperienceLine(exps[0])
  {
    Join(ExperienceLines(exps), "\n")
  }

  // ---------------------------------------------------------------------
  // The prompt template
  // ---------------------------------------------------------------------

  /** The fixed pieces of the prompt, between which the data is inserted. */
  datatype PromptTemplate = PromptTemplate(
    persona: string,
    skillsHeading: string,
    experienceHeading: string,
    questionLead: string)

  /** The route's template: instructions, the two headings and the question's opening quote. */
  const RouteTemplate := PromptTemplate(
    "You are an AI assistant for Shreyata Kulkarni's portfolio. Your name is Shreyata's Assistant. Be friendly, professional, and helpful.\n    Keep your responses concise and to the point, ideally under 100 words.\n    You have the following information about Shreyata's skills and experience:\n\n",
    "    Skills:\n    ",
    "\n\n    Experience:\n    ",
    "\n\n    Based on this information, answer the user's question: \"")

  /**
   * The prompt: persona and conciseness instructions, the skills under
   * `Skills:`, the experiences under `Experience:`, and the question quoted
   * verbatim at the end. Its layout is stated by the lemmas below.
   */
  function BuildPrompt(t: PromptTemplate, message: string, skillsString: string, experiencesString: string): string {
    t.persona + t.skillsHeading + skillsString
    + t.experienceHeading + experiencesString
    + t.questionLead + message + "\""
  }

  // ---------------------------------------------------------------------
  // The request handler
  // ---------------------------------------------------------------------

  /** The parsed request body. */
  datatype ChatRequest = ChatRequest(message: string, skills: seq<Skill>, experiences: seq<Experience>)

  /** What the text generator did with the prompt. */
  datatype Generation = Generated(text: string) | GenerationFailed

  /** The JSON body of the answer. */
  datatype Body = TextBody(text: string) | ErrorBody(error: string)

  datatype Response = Response(status: int, contentType: string, body: Body)

  const JsonContentType := "application/json"
  const GenerationError := "Failed to generate response"

  function PromptFor(req: ChatRequest): string {
    BuildPrompt(RouteTemplate, req.message, SkillsString(req.skills), ExperiencesString(req.experiences))
  }

  /**
   * The POST handler. A generator failure never escapes: it becomes a 500
   * with a fixed error body, and generated text becomes a 200 text body.
   */
  function Post(req: ChatRequest, generate: string -> Generation): (r: Response)
    ensures r.contentType == JsonContentType
    ensures r.status == 200 <==> generate(PromptFor(req)).Generated?
    ensures r.status == 200 ==> r.body == TextBody(generate(PromptFor(req)).text)
    ensures r.status != 200 ==> r.status == 500 && r.body == ErrorBody(GenerationError)
  {
    match generate(PromptFor(req))
    case Generated(text) => Response(200, JsonContentType, TextBody(text))
    case GenerationFailed => Response(500, JsonContentType, ErrorBody(GenerationError))
  }

  // ---------------------------------------------------------------------
  // Properties
  // ---------------------------------------------------------------------

  /** A single Java skill at 90 is rendered as exactly `Java (90%)`. */
  lemma JavaSkillString()
    ensures SkillsString([Skill("Java", 90)]) == "Java (90%)"
  {
    assert NatToString(9) == "9";
    assert NatToString(90) == NatToString(9) + "0";
    assert IntToString(90) == "90";
  }

  /** The skills keep their order: the string cut after the k-th skill. */
  lemma SkillsStringInOrder(skills: seq<Skill>, k: nat)
    requires 0 < k < |skills|
    ensures SkillsString(skills) == SkillsString(skills[..k]) + ", " + SkillsString(skills[k..])
  {
    var items := FormatSkills(skills);
    JoinSplitAt(items, ", ", k);
    assert items[..k] == FormatSkills(skills[..k]);
    assert items[k..] == FormatSkills(skills[k..]);
  }

  /** Every skill of the request appears in the skills string. */
  lemma SkillsStringListsEach(skills: seq<Skill>, k: nat)
    requires k < |skills|
    ensures Contains(SkillsString(skills), FormatSkill(skills[k]))
  {
    JoinContainsItem(FormatSkills(skills), ", ", k);
  }

  predicate NoLineBreak(s: string) {
    '\n' !in s
  }

  /** None of an experience's fields holds a line break. */
  predicate SingleLine(e: Experience) {
    NoLineBreak(e.role) && NoLineBreak(e.company) && NoLineBreak(e.period)
    && NoLineBreak(e.description)
    && forall i :: 0 <= i < |e.achievements| ==> NoLineBreak(e.achievements[i])
  }

  lemma {:induction false} JoinNoLineBreak(items: seq<string>, sep: string)
    requires NoLineBreak(sep)
    requires forall i :: 0 <= i < |items| ==> NoLineBreak(items[i])
    ensures NoLineBreak(Join(items, sep))
  {
    if |items| > 1 {
      JoinNoLineBreak(items[1..], sep);
      assert forall c :: c in Join(items, sep) ==>
        c in items[0] || c in sep || c in Join(items[1..], sep);
    }
  }

  /** An experience whose fields are single lines renders as a single line. */
  lemma ExperienceLineIsOneLine(e: Experience)
    requires SingleLine(e)
    ensures NoLineBreak(ExperienceLine(e))
  {
    JoinNoLineBreak(e.achievements, ", ");
    var r := ExperienceLine(e);
    assert forall c :: c in r ==>
      c in e.role || c in " at " || c in e.company || c in " (" || c in e.period
      || c in "): " || c in e.description || c in ". Achievements: " || c in Join(e.achievements, ", ");
  }

  /**
   * Splitting the experiences string on line breaks gives back one line per
   * experience, in the request's order.
   */
  lemma ExperiencesStringLines(exps: seq<Experience>)
    requires exps != []
    requires forall i :: 0 <= i < |exps| ==> SingleLine(exps[i])
    ensures Split(ExperiencesString(exps), '\n') == ExperienceLines(exps)
  {
    var lines := ExperienceLines(exps);
    forall k | 0 <= k < |lines| ensures '\n' !in lines[k] {
      ExperienceLineIsOneLine(exps[k]);
    }
    SplitJoin(lines, '\n');
  }

  /** The prompt opens with the instructions and then the skills under their heading. */
  lemma PromptStartsWithSkills(t: PromptTemplate, message: string, skillsString: string, experiencesString: string)
    ensures StartsWith(BuildPrompt(t, message, skillsString, experiencesString),
                       t.persona + t.skillsHeading + skillsString)
  {
    var head := t.persona + t.skillsHeading + skillsString;
    OccursAtEnd([], head);
    assert [] + head == head;
    OccursAtExtend(head, head, 0, t.experienceHeading);
    OccursAtExtend(head + t.experienceHeading, head, 0, experiencesString);
    var s := head + t.experienceHeading + experiencesString;
    OccursAtExtend(s, head, 0, t.questionLead);
    OccursAtExtend(s + t.questionLead, head, 0, message);
    OccursAtExtend(s + t.questionLead + message, head, 0, "\"");
  }

  /** Where the experiences start in the prompt. */
  function ExperiencesOffset(t: PromptTemplate, skillsString: string): nat {
    |t.persona| + |t.skillsHeading| + |skillsString| + |t.experienceHeading|
  }

  /** The experiences string sits right after the `Experience:` heading. */
  lemma PromptPlacesExperiences(t: PromptTemplate, message: string, skillsString: string, experiencesString: string)
    ensures OccursAt(BuildPrompt(t, message, skillsString, experiencesString),
                     t.experienceHeading, ExperiencesOffset(t, skillsString) - |t.experienceHeading|)
    ensures OccursAt(BuildPrompt(t, message, skillsString, experiencesString),
                     experiencesString, ExperiencesOffset(t, skillsString))
  {
    var head := t.persona + t.skillsHeading + skillsString;
    var mid := t.experienceHeading;
    var e := experiencesString;
    OccursAtEnd(head, mid);
    OccursAtExtend(head + mid, mid, |head|, e);
    OccursAtExtend(head + mid + e, mid, |head|, t.questionLead);
    OccursAtExtend(head + mid + e + t.questionLead, mid, |head|, message);
    OccursAtExtend(head + mid + e + t.questionLead + message, mid, |head|, "\"");
    OccursAtEnd(head + mid, e);
    OccursAtExtend(head + mid + e, e, |head + mid|, t.questionLead);
    OccursAtExtend(head + mid + e + t.questionLead, e, |head + mid|, message);
    OccursAtExtend(head + mid + e + t.questionLead + message, e, |head + mid|, "\"");
  }

  /**
   * The user message is inserted verbatim right after the question's opening
   * quote, and the prompt ends with the closing quote.
   */
  lemma PromptQuotesMessage(t: PromptTemplate, message: string, skillsString: string, experiencesString: string)
    ensures var r := BuildPrompt(t, message, skillsString, experiencesString);
            |message| + 1 <= |r|
            && OccursAt(r, t.questionLead + message, |r| - |message| - 1 - |t.questionLead|)
            && OccursAt(r, message, |r| - |message| - 1)
            && r[|r| - 1] == '"'
  {
    var front := t.persona + t.skillsHeading + skillsString
                 + t.experienceHeading + experiencesString;
    var q := t.questionLead;
    var r := BuildPrompt(t, message, skillsString, experiencesString);
    OccursAtEnd(front + q, message);
    OccursAtExtend(front + q + message, message, |front + q|, "\"");
    OccursAtEnd(front, q);
    OccursAtExtend(front + q, q, |front|, message);
    OccursAtExtend(front + q + message, q, |front|, "\"");
    OccursAtEnd(front + q + message, "\"");
    assert r[|r| - 1..|r|] == "\"";
    assert r[|r| - |message| - 1 - |q|..|r| - 1] == r[|front|..|front| + |q|] + r[|front + q|..|front + q| + |message|];
  }

  /** Two requests with the same data but different questions give different prompts. */
  lemma PromptDeterminesMessage(t: PromptTemplate, m1: string, m2: string, skillsString: string, experiencesString: string)
    requires BuildPrompt(t, m1, skillsString, experiencesString) == BuildPrompt(t, m2, skillsString, experiencesString)
    ensures m1 == m2
  {
    PromptQuotesMessage(t, m1, skillsString, experiencesString);
    PromptQuotesMessage(t, m2, skillsString, experiencesString);
  }

  /** The route's prompt carries the request's question verbatim, closing quote last. */
  lemma RoutePromptQuotesMessage(req: ChatRequest)
    ensures var r := PromptFor(req);
            OccursAt(r, req.message, |r| - |req.message| - 1) && r[|r| - 1] == '"'
  {
    PromptQuotesMessage(RouteTemplate, req.message, SkillsString(req.skills), ExperiencesString(req.experiences));
  }
}
