/**
 * The chat widget's local keyword responder (`generateResponse`) and its
 * conversation manager (`handleSendMessage` with the two timer callbacks it
 * schedules).
 */
module Chatbot {
  import opened Wrappers
  import opened Strings
  import opened Profile
  import opened SkillRanking

  // ---------------------------------------------------------------------
  // The rule chain
  // ---------------------------------------------------------------------

  /** What a query is answered about; one topic per rule, then the fallback. */
  datatype Topic =
    | SkillsTopic | ExperienceTopic | MastercardTopic | HsbcTopic | TcsTopic
    | AutomationTopic | JavaTopic | ApiTopic | EducationTopic | ContactTopic
    | AchievementsTopic | GreetingTopic | ThanksTopic | FallbackTopic

  /** A rule fires when the lower-cased query includes one of its keywords. */
  datatype Rule = Rule(topic: Topic, keywords: seq<string>)

  /** The rules in the order the responder tries them. */
  const Rules: seq<Rule> := [
    Rule(SkillsTopic, ["skill", "technology", "tech"]),
    Rule(ExperienceTopic, ["experience", "work", "job"]),
    Rule(MastercardTopic, ["mastercard"]),
    Rule(HsbcTopic, ["hsbc"]),
    Rule(TcsTopic, ["tcs"]),
    Rule(AutomationTopic, ["automation", "selenium", "playwright"]),
    Rule(JavaTopic, ["java", "spring"]),
    Rule(ApiTopic, ["api", "rest", "soap"]),
    Rule(EducationTopic, ["education", "background", "qualification"]),
    Rule(ContactTopic, ["contact", "reach", "email"]),
    Rule(AchievementsTopic, ["achievement", "accomplishment"]),
    Rule(GreetingTopic, ["hello", "hi", "hey"]),
    Rule(ThanksTopic, ["thank"])
  ]

  /** `message.includes(k1) || message.includes(k2) || ...`. */
  predicate Mentions(message: string, keywords: seq<string>) {
    exists k :: 0 <= k < |keywords| && Contains(message, keywords[k])
  }

  /** The index of the first rule from `from` on that fires, or |Rules| when none does. */
  function FirstMatch(message: string, from: nat): (k: nat)
    requires from <= |Rules|
    ensures from <= k <= |Rules|
    ensures k < |Rules| ==> Mentions(message, Rules[k].keywords)
    ensures forall j :: from <= j < k ==> !Mentions(message, Rules[j].keywords)
    decreases |Rules| - from
  {
    if from == |Rules| then from
    else if Mentions(message, Rules[from].keywords) then from
    else FirstMatch(message, from + 1)
  }

  /** The topic of the first rule that fires on an already lower-cased message. */
  function Classify(message: string): (t: Topic)
    ensures t == FallbackTopic <==> forall j :: 0 <= j < |Rules| ==> !Mentions(message, Rules[j].keywords)
  {
    var k := FirstMatch(message, 0);
    if k < |Rules| then Rules[k].topic else FallbackTopic
  }

  /** Each rule has its own topic, and none of them is the fallback. */
  lemma RuleTopicsDistinct(i: nat, k: nat)
    requires i < |Rules| && k < |Rules|
    ensures Rules[k].topic != FallbackTopic
    ensures Rules[i].topic == Rules[k].topic ==> i == k
  {
  }

  /** A rule decides the topic exactly when it fires and no earlier rule does. */
  lemma ClassifyFirstFiring(message: string, k: nat)
    requires k < |Rules|
    ensures Classify(message) == Rules[k].topic <==>
              Mentions(message, Rules[k].keywords)
              && forall j :: 0 <= j < k ==> !Mentions(message, Rules[j].keywords)
  {
    var f := FirstMatch(message, 0);
    if f < |Rules| {
      RuleTopicsDistinct(f, k);
    } else {
      RuleTopicsDistinct(k, k);
    }
  }

  // ---------------------------------------------------------------------
  // Look-ups in the experience table
  // ---------------------------------------------------------------------

  /** The position of the first entry of `company`, or |exps| when there is none. */
  function FirstOfCompany(exps: seq<Experience>, company: string): (i: nat)
    ensures i <= |exps|
    ensures i < |exps| ==> exps[i].company == company
    ensures forall j :: 0 <= j < i ==> exps[j].company != company
  {
    if exps == [] then 0
    else if exps[0].company == company then 0
    else 1 + FirstOfCompany(exps[1..], company)
  }

  /** `experiences.find((exp) => exp.company === company)`. */
  function FindCompany(exps: seq<Experience>, company: string): (r: Option<Experience>)
    ensures r.None? <==> forall j :: 0 <= j < |exps| ==> exps[j].company != company
    ensures r.Some? ==> exists i :: 0 <= i < |exps| && exps[i] == r.value
                          && r.value.company == company
                          && forall j :: 0 <= j < i ==> exps[j].company != company
  {
    var i := FirstOfCompany(exps, company);
    if i < |exps| then Some(exps[i]) else None
  }

  /** `experiences.filter((exp) => exp.company === company)`. */
  function FilterCompany(exps: seq<Experience>, company: string): (r: seq<Experience>)
    ensures |r| <= |exps|
  {
    if exps == [] then []
    else (if exps[0].company == company then [exps[0]] else []) + FilterCompany(exps[1..], company)
  }

  /** The filter keeps exactly the entries of `company`. */
  lemma {:induction false} FilterCompanySelects(exps: seq<Experience>, company: string)
    ensures forall e :: e in FilterCompany(exps, company) ==> e in exps && e.company == company
    ensures forall e :: e in exps && e.company == company ==> e in FilterCompany(exps, company)
  {
    if exps != [] {
      FilterCompanySelects(exps[1..], company);
      assert exps == [exps[0]] + exps[1..];
    }
  }

  /** The filter's first entry is the one `find` returns. */
  lemma {:induction false} FilterStartsWithFind(exps: seq<Experience>, company: string)
    ensures FilterCompany(exps, company) == [] <==> FindCompany(exps, company).None?
    ensures FilterCompany(exps, company) != [] ==>
              FilterCompany(exps, company)[0] == FindCompany(exps, company).value
  {
    if exps != [] && exps[0].company != company {
      FilterStartsWithFind(exps[1..], company);
      assert FilterCompany(exps, company) == FilterCompany(exps[1..], company);
      assert FirstOfCompany(exps, company) == 1 + FirstOfCompany(exps[1..], company);
    }
  }

  // ---------------------------------------------------------------------
  // The answers
  // ---------------------------------------------------------------------

  /** The fixed wording of the replies, and the parts the templated replies are built around. */
  datatype Phrase =
    | SkillsLead | SkillsTail
    | ExperienceLead | ExperienceTail
    | MastercardLead | MastercardTail | MastercardFallback
    | HsbcLead | HsbcTail
    | TcsLead | TcsTail | TcsFallback
    | AutomationReply | JavaReply | ApiReply | EducationReply | ContactReply
    | AchievementsReply | GreetingReply | ThanksReply | FallbackReply

  function Wording(p: Phrase): string {
    match p
    case SkillsLead => "Shreyata's top technical skills include: "
    case SkillsTail => ". She specializes in test automation, quality engineering, and has extensive experience with Java, Selenium WebDriver, and modern testing frameworks."
    case ExperienceLead => "Shreyata has 11+ years of experience in software testing and quality engineering. She's currently working as a "
    case ExperienceTail => ". Her key achievements include leading 5+ automation projects, reducing testing time by 60%, and mentoring junior engineers."
    case MastercardLead => "At Mastercard, Shreyata works as a "
    case MastercardTail => ". Her key achievements include: "
    case MastercardFallback => "Shreyata currently works at Mastercard as a Senior Software Engineer, leading QE initiatives and test automation frameworks for financial services."
    case HsbcLead => "Shreyata has worked at HSBC in two different roles. Most recently as a Senior QA Specialist "
    case HsbcTail => ", where she specialized in banking domain testing and implemented CI/CD pipelines. Earlier, she worked as a Software Engineer implementing manual and automated testing solutions."
    case TcsLead => "At TCS, Shreyata worked as a "
    case TcsTail => ". She managed a team of 8 testers, delivered 15+ projects, and achieved 99.5% quality metrics."
    case TcsFallback => "Shreyata worked at TCS as a Team Lead, managing testing teams and implementing comprehensive QA strategies."
    case AutomationReply => "Shreyata is highly skilled in test automation with 95% proficiency in both Selenium WebDriver and Test Automation. She also has 88% proficiency in Playwright. She has built automation frameworks, reduced manual effort by 70%, and led multiple automation projects throughout her career."
    case JavaReply => "Shreyata has strong Java skills (90% proficiency) and is experienced with Spring Framework (85%) and Spring Boot (87%). She has used these technologies extensively in building robust test automation frameworks and backend testing solutions."
    case ApiReply => "Shreyata has 85% proficiency in SOAP/REST APIs and 88% proficiency in RestAssured. She has extensive experience in API testing, building automated API test suites, and ensuring API quality in various projects."
    case EducationReply => "Shreyata is an experienced Software Test Engineer with 11+ years in the industry. She has completed 5+ certifications and has worked across various domains including banking, financial services, and technology. She's based in Pune, Maharashtra."
    case ContactReply => "You can reach out to Shreyata through the contact section on this website. She's available on LinkedIn and email for professional opportunities and collaborations."
    case AchievementsReply => "Some of Shreyata's key achievements include: Leading 5+ automation projects, reducing testing time by 60%, mentoring 3+ junior engineers, implementing CI/CD pipelines, improving test coverage by 40%, managing teams of 8+ testers, delivering 15+ projects, and achieving 99.5% quality metrics."
    case GreetingReply => "Hello! I'm here to help you learn more about Shreyata Kulkarni. You can ask me about her skills, work experience, achievements, or any specific technology she works with."
    case ThanksReply => "You're welcome! Feel free to ask me anything else about Shreyata's professional background."
    case FallbackReply => "I can help you learn about Shreyata's skills, work experience, achievements, and background. Try asking me about her experience at specific companies like Mastercard, HSBC, or TCS, or about specific technologies like Java, Selenium, or API testing."
  }

  /** The top five skills as the skills rule lists them. */
  function TopSkillsText(skills: seq<Skill>): string {
    Join(FormatSkills(TopFive(skills)), ", ")
  }

  function SkillsAnswer(topSkills: string): string {
    Wording(SkillsLead) + topSkills + Wording(SkillsTail)
  }

  function ExperienceAnswer(currentJob: Experience): string {
    Wording(ExperienceLead) + currentJob.role + " at " + currentJob.company + " since " + currentJob.period
    + Wording(ExperienceTail)
  }

  function MastercardAnswer(found: Option<Experience>): string {
    match found
    case Some(m) =>
      Wording(MastercardLead) + m.role + ". " + m.description + Wording(MastercardTail)
      + Join(m.achievements, ", ") + "."
    case None => Wording(MastercardFallback)
  }

  /** `${hsbc[0]?.period}`: an absent entry prints as `undefined`. */
  function HsbcAnswer(hsbc: seq<Experience>): string {
    var period := if hsbc == [] then "undefined" else hsbc[0].period;
    Wording(HsbcLead) + ("(" + period + ")") + Wording(HsbcTail)
  }

  function TcsAnswer(found: Option<Experience>): string {
    match found
    case Some(t) =>
      Wording(TcsLead) + t.role + " from " + t.period + ". " + t.description + Wording(TcsTail)
    case None => Wording(TcsFallback)
  }

  /** The experience rule reads `experiences[0].role`, which throws on an empty table. */
  datatype ResponderError = CurrentJobUndefined

  /** The answer for a topic; only the experience rule on an empty table fails. */
  function Answer(topic: Topic, skills: seq<Skill>, experiences: seq<Experience>): (r: Result<string, ResponderError>)
    ensures r.Failure? <==> topic == ExperienceTopic && experiences == []
  {
    match topic
    case SkillsTopic => Success(SkillsAnswer(TopSkillsText(skills)))
    case ExperienceTopic =>
      if experiences == [] then Failure(CurrentJobUndefined) else Success(ExperienceAnswer(experiences[0]))
    case MastercardTopic => Success(MastercardAnswer(FindCompany(experiences, "Mastercard")))
    case HsbcTopic => Success(HsbcAnswer(FilterCompany(experiences, "HSBC")))
    case TcsTopic => Success(TcsAnswer(FindCompany(experiences, "TCS")))
    case AutomationTopic => Success(Wording(AutomationReply))
    case JavaTopic => Success(Wording(JavaReply))
    case ApiTopic => Success(Wording(ApiReply))
    case EducationTopic => Success(Wording(EducationReply))
    case ContactTopic => Success(Wording(ContactReply))
    case AchievementsTopic => Success(Wording(AchievementsReply))
    case GreetingTopic => Success(Wording(GreetingReply))
    case ThanksTopic => Success(Wording(ThanksReply))
    case FallbackTopic => Success(Wording(FallbackReply))
  }

  /** `generateResponse` as a value: lower-case once, take the first rule that fires. */
  function Respond(userMessage: string, skills: seq<Skill>, experiences: seq<Experience>): (r: Result<string, ResponderError>)
    ensures r.Failure? <==> Classify(ToLower(userMessage)) == ExperienceTopic && experiences == []
  {
    Answer(Classify(ToLower(userMessage)), skills, experiences)
  }

  // ---------------------------------------------------------------------
  // Properties of the responder
  // ---------------------------------------------------------------------

  /** Matching ignores case: a query and its lower-cased form get the same answer. */
  lemma RespondIgnoresCase(userMessage: string, skills: seq<Skill>, experiences: seq<Experience>)
    ensures Respond(ToLower(userMessage), skills, experiences) == Respond(userMessage, skills, experiences)
  {
    ToLowerIdempotent(userMessage);
  }

  /** Sorting the skills table in place first changes no answer. */
  lemma RespondAfterSort(userMessage: string, skills: seq<Skill>, experiences: seq<Experience>)
    ensures Respond(userMessage, SortByLevel(skills), experiences) == Respond(userMessage, skills, experiences)
  {
    SortByLevelIdempotent(skills);
  }

  /** The skills rule names each of the top five skills as `name (level%)`. */
  lemma SkillsAnswerListsTopFive(userMessage: string, skills: seq<Skill>, experiences: seq<Experience>, i: nat)
    requires Classify(ToLower(userMessage)) == SkillsTopic
    requires i < |TopFive(skills)|
    ensures Respond(userMessage, skills, experiences).Success?
    ensures Contains(Respond(userMessage, skills, experiences).value, FormatSkill(TopFive(skills)[i]))
  {
    var items := FormatSkills(TopFive(skills));
    JoinContainsItem(items, ", ", i);
    ContainsAfter(Wording(SkillsLead), TopSkillsText(skills), items[i]);
    ContainsExtend(Wording(SkillsLead) + TopSkillsText(skills), Wording(SkillsTail), items[i]);
  }

  /** A query naming a skill keyword gets the skills answer, whatever else it says. */
  lemma SkillKeywordWins(userMessage: string, k: nat)
    requires k < |Rules[0].keywords| && Contains(ToLower(userMessage), Rules[0].keywords[k])
    ensures Classify(ToLower(userMessage)) == SkillsTopic
  {
    ClassifyFirstFiring(ToLower(userMessage), 0);
  }

  /** The Mastercard rule answers only when no skills or experience keyword occurs. */
  lemma MastercardPrecedence(userMessage: string)
    ensures Classify(ToLower(userMessage)) == MastercardTopic <==>
              Contains(ToLower(userMessage), "mastercard")
              && !Mentions(ToLower(userMessage), ["skill", "technology", "tech"])
              && !Mentions(ToLower(userMessage), ["experience", "work", "job"])
  {
    var m := ToLower(userMessage);
    ClassifyFirstFiring(m, 2);
    var keywords := Rules[2].keywords;
    assert keywords == ["mastercard"];
    if Contains(m, "mastercard") {
      assert Contains(m, keywords[0]);
    }
  }

  /** The Mastercard answer quotes the entry's role, description and achievements. */
  lemma MastercardAnswerQuotesEntry(experiences: seq<Experience>)
    requires FindCompany(experiences, "Mastercard").Some?
    ensures var m := FindCompany(experiences, "Mastercard").value;
            var answer := MastercardAnswer(FindCompany(experiences, "Mastercard"));
            Contains(answer, m.role) && Contains(answer, m.description)
            && Contains(answer, Join(m.achievements, ", "))
  {
    var m := FindCompany(experiences, "Mastercard").value;
    var j := Join(m.achievements, ", ");
    var s1 := Wording(MastercardLead) + m.role;
    var s2 := s1 + ". " + m.description;
    var s3 := s2 + Wording(MastercardTail) + j;
    ContainsEnd(Wording(MastercardLead), m.role);
    ContainsExtend(s1, ". ", m.role);
    ContainsExtend(s1 + ". ", m.description, m.role);
    ContainsEnd(s1 + ". ", m.description);
    ContainsExtend(s2, Wording(MastercardTail), m.role);
    ContainsExtend(s2, Wording(MastercardTail), m.description);
    ContainsExtend(s2 + Wording(MastercardTail), j, m.role);
    ContainsExtend(s2 + Wording(MastercardTail), j, m.description);
    ContainsEnd(s2 + Wording(MastercardTail), j);
    ContainsExtend(s3, ".", m.role);
    ContainsExtend(s3, ".", m.description);
    ContainsExtend(s3, ".", j);
  }

  /** The TCS answer quotes the entry's role, period and description. */
  lemma TcsAnswerQuotesEntry(experiences: seq<Experience>)
    requires FindCompany(experiences, "TCS").Some?
    ensures var t := FindCompany(experiences, "TCS").value;
            var answer := TcsAnswer(FindCompany(experiences, "TCS"));
            Contains(answer, t.role) && Contains(answer, t.period) && Contains(answer, t.description)
  {
    var t := FindCompany(experiences, "TCS").value;
    var s1 := Wording(TcsLead) + t.role;
    var s2 := s1 + " from " + t.period;
    var s3 := s2 + ". " + t.description;
    ContainsEnd(Wording(TcsLead), t.role);
    ContainsExtend(s1, " from ", t.role);
    ContainsExtend(s1 + " from ", t.period, t.role);
    ContainsEnd(s1 + " from ", t.period);
    ContainsExtend(s2, ". ", t.role);
    ContainsExtend(s2, ". ", t.period);
    ContainsExtend(s2 + ". ", t.description, t.role);
    ContainsExtend(s2 + ". ", t.description, t.period);
    ContainsEnd(s2 + ". ", t.description);
    ContainsExtend(s3, Wording(TcsTail), t.role);
    ContainsExtend(s3, Wording(TcsTail), t.period);
    ContainsExtend(s3, Wording(TcsTail), t.description);
  }

  /** The experience answer names the current (first) job's role, company and period. */
  lemma ExperienceAnswerNamesCurrentJob(experiences: seq<Experience>)
    requires experiences != []
    ensures var e, answer := experiences[0], ExperienceAnswer(experiences[0]);
            Contains(answer, e.role) && Contains(answer, e.company) && Contains(answer, e.period)
  {
    var e := experiences[0];
    var s1 := Wording(ExperienceLead) + e.role;
    var s2 := s1 + " at " + e.company;
    var s3 := s2 + " since " + e.period;
    ContainsEnd(Wording(ExperienceLead), e.role);
    ContainsExtend(s1, " at ", e.role);
    ContainsExtend(s1 + " at ", e.company, e.role);
    ContainsEnd(s1 + " at ", e.company);
    ContainsExtend(s2, " since ", e.role);
    ContainsExtend(s2, " since ", e.company);
    ContainsExtend(s2 + " since ", e.period, e.role);
    ContainsExtend(s2 + " since ", e.period, e.company);
    ContainsEnd(s2 + " since ", e.period);
    ContainsExtend(s3, Wording(ExperienceTail), e.role);
    ContainsExtend(s3, Wording(ExperienceTail), e.company);
    ContainsExtend(s3, Wording(ExperienceTail), e.period);
  }

  /** The HSBC answer quotes the first HSBC entry's period, or `undefined` without one. */
  lemma HsbcAnswerQuotesFirstPeriod(experiences: seq<Experience>)
    ensures var found := FindCompany(experiences, "HSBC");
            Contains(HsbcAnswer(FilterCompany(experiences, "HSBC")),
                     "(" + (if found.Some? then found.value.period else "undefined") + ")")
  {
    FilterStartsWithFind(experiences, "HSBC");
    var hsbc := FilterCompany(experiences, "HSBC");
    var period := if hsbc == [] then "undefined" else hsbc[0].period;
    ContainsMiddle(Wording(HsbcLead), "(" + period + ")", Wording(HsbcTail));
  }

  // ---------------------------------------------------------------------
  // The conversation manager
  // ---------------------------------------------------------------------

  /** A chat bubble; ids and timestamps are not modelled. */
  datatype Message = Message(text: string, isBot: bool)

  /** A scheduled reply: the 300 ms cache-hit timer or the 1-2 s generating timer. */
  datatype PendingReply =
    | CachedReply(input: string, text: string)
    | FreshReply(input: string)

  const Greeting := Message("Hi! I'm Shreyata's AI assistant. I can tell you about her skills, experience, and background. What would you like to know?", true)

  function UserCount(ms: seq<Message>): nat {
    if ms == [] then 0 else UserCount(ms[..|ms| - 1]) + (if ms[|ms| - 1].isBot then 0 else 1)
  }

  function BotCount(ms: seq<Message>): nat {
    if ms == [] then 0 else BotCount(ms[..|ms| - 1]) + (if ms[|ms| - 1].isBot then 1 else 0)
  }

  lemma CountAppend(ms: seq<Message>, m: Message)
    ensures UserCount(ms + [m]) == UserCount(ms) + (if m.isBot then 0 else 1)
    ensures BotCount(ms + [m]) == BotCount(ms) + (if m.isBot then 1 else 0)
  {
    assert (ms + [m])[..|ms|] == ms;
  }

  /** The table the widget reads is the caller's or its sorted copy; both give the same answers. */
  lemma RespondOnEitherTable(userMessage: string, current: seq<Skill>, table: seq<Skill>, experiences: seq<Experience>)
    requires current == table || current == SortByLevel(table)
    ensures Respond(userMessage, current, experiences) == Respond(userMessage, table, experiences)
  {
    RespondAfterSort(userMessage, table, experiences);
  }

  /** What the widget's responder answers to each input. */
  type Responder = string -> Result<string, ResponderError>

  /** Every cached text is the answer its key gets. */
  ghost predicate CacheAgrees(cache: map<string, string>, respond: Responder) {
    forall q :: q in cache ==> respond(q) == Success(cache[q])
  }

  /** Every scheduled cache hit carries the answer its input gets. */
  ghost predicate ScheduledAgree(pending: seq<PendingReply>, respond: Responder) {
    forall p :: p in pending && p.CachedReply? ==> respond(p.input) == Success(p.text)
  }

  lemma CacheStore(cache: map<string, string>, q: string, text: string, respond: Responder)
    requires CacheAgrees(cache, respond) && respond(q) == Success(text)
    ensures CacheAgrees(cache[q := text], respond)
  {
  }

  lemma ScheduleAppend(pending: seq<PendingReply>, r: PendingReply, respond: Responder)
    requires ScheduledAgree(pending, respond)
    requires r.CachedReply? ==> respond(r.input) == Success(r.text)
    ensures ScheduledAgree(pending + [r], respond)
  {
  }

  lemma ScheduleRemove(pending: seq<PendingReply>, k: nat, respond: Responder)
    requires ScheduledAgree(pending, respond) && k < |pending|
    ensures ScheduledAgree(pending[..k] + pending[k + 1..], respond)
    ensures pending[k].CachedReply? ==> respond(pending[k].input) == Success(pending[k].text)
  {
    assert pending[k] in pending;
    forall p | p in pending[..k] + pending[k + 1..]
      ensures p in pending
    {
      if p in pending[..k] {
        var i :| 0 <= i < k && pending[..k][i] == p;
        assert pending[i] == p;
      } else {
        var i :| 0 <= i < |pending| - k - 1 && pending[k + 1..][i] == p;
        assert pending[k + 1 + i] == p;
      }
    }
  }

  /**
   * One chat widget: its message history, the response cache keyed by the
   * raw input, the typing flag, the text box, and the replies still waiting
   * on a timer. `skills` is the caller's array, which the skills rule sorts
   * in place; `respond` is the answer function on the table as it was passed
   * in, which sorting does not change.
   */
  class ChatWidget {
    const skills: array<Skill>
    const experiences: seq<Experience>
    ghost const table: seq<Skill>
    ghost const respond: Responder

    var messages: seq<Message>
    var inputValue: string
    var isTyping: bool
    var cache: map<string, string>
    var pending: seq<PendingReply>
    /** Generating callbacks that threw, so never appended a reply. */
    ghost var dropped: nat

    ghost predicate Valid()
      reads this, skills
    {
      && |messages| > 0 && messages[0] == Greeting
      && (skills[..] == table || skills[..] == SortByLevel(table))
      && CacheAgrees(cache, respond)
      && ScheduledAgree(pending, respond)
      && UserCount(messages) + 1 == BotCount(messages) + |pending| + dropped
    }

    /** `respond` is the keyword responder on the table the widget was given. */
    ghost predicate Answering() {
      forall q {:trigger Respond(q, table, experiences)} :: respond(q) == Respond(q, table, experiences)
    }

    /** The widget mounts with the greeting alone, an empty box and an empty cache. */
    constructor (skills: array<Skill>, experiences: seq<Experience>)
      ensures Valid() && Answering()
      ensures this.skills == skills && this.experiences == experiences && table == skills[..]
      ensures messages == [Greeting] && inputValue == "" && !isTyping
      ensures cache == map[] && pending == [] && dropped == 0
    {
      this.skills := skills;
      this.experiences := experiences;
      var t := skills[..];
      table := t;
      respond := q => Respond(q, t, experiences);
      messages := [Greeting];
      inputValue := "";
      isTyping := false;
      cache := map[];
      pending := [];
      dropped := 0;
      CountAppend([], Greeting);
      assert [] + [Greeting] == [Greeting];
    }

    /** The text box's change handler. */
    method SetInput(value: string)
      requires Valid()
      modifies this`inputValue
      ensures Valid() && inputValue == value
    {
      inputValue := value;
    }

    /** The reply scheduled for `input`: the cached text on a hit, a generation on a miss. */
    static function Scheduled(input: string, cache: map<string, string>): (r: PendingReply)
      ensures r.input == input
      ensures r.CachedReply? <==> input in cache
      ensures r.CachedReply? ==> r.text == cache[input]
    {
      if input in cache then CachedReply(input, cache[input]) else FreshReply(input)
    }

    /**
     * `handleSendMessage`: a blank box changes nothing; otherwise the raw text
     * is appended as a user message, the box is cleared, the typing flag is
     * raised and a reply is scheduled, from the cache when the exact text is
     * a key.
     */
    method SendMessage()
      requires Valid()
      modifies this
      ensures Valid()
      ensures IsBlank(old(inputValue)) ==>
                && messages == old(messages) && inputValue == old(inputValue)
                && isTyping == old(isTyping) && cache == old(cache) && pending == old(pending)
      ensures !IsBlank(old(inputValue)) ==>
                && messages == old(messages) + [Message(old(inputValue), false)]
                && inputValue == "" && isTyping && cache == old(cache)
                && pending == old(pending) + [Scheduled(old(inputValue), old(cache))]
      ensures dropped == old(dropped)
    {
      if Trim(inputValue) != "" {
        Submit(inputValue);
      }
    }

    /** The non-blank branch of `handleSendMessage`. */
    method Submit(input: string)
      requires Valid()
      modifies this
      ensures Valid()
      ensures messages == old(messages) + [Message(input, false)]
      ensures inputValue == "" && isTyping && cache == old(cache)
      ensures pending == old(pending) + [Scheduled(input, old(cache))]
      ensures dropped == old(dropped)
    {
      var reply := Scheduled(input, cache);
      ScheduleAppend(pending, reply, respond);
      CountAppend(messages, Message(input, false));
      messages := messages + [Message(input, false)];
      inputValue := "";
      isTyping := true;
      pending := pending + [reply];
    }

    /**
     * `generateResponse` as the widget runs it: the skills rule sorts the
     * caller's array before reading its first five entries.
     */
    method GenerateResponse(userMessage: string) returns (r: Result<string, ResponderError>)
      modifies skills
      ensures r == Respond(userMessage, old(skills[..]), experiences)
      ensures skills[..] == if Classify(ToLower(userMessage)) == SkillsTopic
                            then SortByLevel(old(skills[..])) else old(skills[..])
    {
      var message := ToLower(userMessage);
      var topic := Classify(message);
      if topic == SkillsTopic {
        SortSkillsInPlace(skills);
        var n := if skills.Length < 5 then skills.Length else 5;
        r := Success(SkillsAnswer(Join(FormatSkills(skills[..n]), ", ")));
      } else {
        r := Answer(topic, skills[..], experiences);
      }
    }

    /** The generating callback's call: the answer `respond` gives, leaving the array sorted or as it was. */
    method Generate(input: string) returns (r: Result<string, ResponderError>)
      requires Answering()
      requires skills[..] == table || skills[..] == SortByLevel(table)
      modifies skills
      ensures r == respond(input)
      ensures skills[..] == table || skills[..] == SortByLevel(table)
    {
      ghost var before := skills[..];
      r := GenerateResponse(input);
      RespondOnEitherTable(input, before, table, experiences);
      SortByLevelIdempotent(table);
    }

    /**
     * The 300 ms timer of a cache hit fires: the cached text, which is the
     * answer to that input, is appended and the typing flag drops.
     */
    method FireCachedReply(k: nat)
      requires Valid()
      requires k < |pending| && pending[k].CachedReply?
      modifies this
      ensures Valid()
      ensures respond(old(pending[k]).input) == Success(old(pending[k]).text)
      ensures messages == old(messages) + [Message(old(pending[k]).text, true)]
      ensures pending == old(pending[..k] + pending[k + 1..])
      ensures !isTyping
      ensures inputValue == old(inputValue) && cache == old(cache) && dropped == old(dropped)
    {
      var p := pending[k];
      ScheduleRemove(pending, k, respond);
      assert |pending[..k] + pending[k + 1..]| == |pending| - 1;
      pending := pending[..k] + pending[k + 1..];
      CountAppend(messages, Message(p.text, true));
      messages := messages + [Message(p.text, true)];
      isTyping := false;
    }

    /**
     * The generating timer fires: the answer to the input is computed on the
     * caller's array (sorting it when the skills rule fires), stored under the
     * raw input and appended, and the typing flag drops. A generation that
     * throws appends nothing, stores nothing and leaves the flag up.
     */
    method FireGeneratingReply(k: nat)
      requires Valid() && Answering()
      requires k < |pending| && pending[k].FreshReply?
      modifies this, skills
      ensures Valid()
      ensures pending == old(pending[..k] + pending[k + 1..])
      ensures inputValue == old(inputValue)
      ensures var input := old(pending[k]).input;
              var answer := respond(input);
              if answer.Success? then
                && messages == old(messages) + [Message(answer.value, true)]
                && !isTyping
                && cache == old(cache)[input := answer.value]
                && dropped == old(dropped)
              else
                && messages == old(messages) && isTyping == old(isTyping)
                && cache == old(cache) && dropped == old(dropped) + 1
    {
      var p := TakePending(k);
      var r := Generate(p.input);
      if r.Success? {
        Deliver(p.input, r.value);
      }
    }

    /**
     * Removes the k-th scheduled reply, counting it as one that produced no
     * message until Deliver appends its text.
     */
    method TakePending(k: nat) returns (p: PendingReply)
      requires Valid()
      requires k < |pending|
      modifies this`pending, this`dropped
      ensures Valid()
      ensures p == old(pending[k])
      ensures pending == old(pending[..k] + pending[k + 1..])
      ensures dropped == old(dropped) + 1
    {
      p := pending[k];
      ScheduleRemove(pending, k, respond);
      assert |pending[..k] + pending[k + 1..]| == |pending| - 1;
      pending := pending[..k] + pending[k + 1..];
      dropped := dropped + 1;
    }

    /** Appends a generated answer, stores it under the raw input and drops the typing flag. */
    method Deliver(input: string, text: string)
      requires Valid() && dropped > 0
      requires respond(input) == Success(text)
      modifies this`messages, this`cache, this`isTyping, this`dropped
      ensures Valid()
      ensures messages == old(messages) + [Message(text, true)]
      ensures cache == old(cache)[input := text]
      ensures !isTyping
      ensures dropped == old(dropped) - 1
    {
      CacheStore(cache, input, text, respond);
      cache := cache[input := text];
      CountAppend(messages, Message(text, true));
      messages := messages + [Message(text, true)];
      isTyping := false;
      dropped := dropped - 1;
    }
  }
}
