/**
 * The portfolio page's knowledge base (the skills and work-history tables it
 * hands to the chat widget) and the navigation's active-section tracking.
 */
module Portfolio {
  import opened Wrappers
  import opened Strings
  import opened Profile
  import opened SkillRanking
  import opened Chatbot

  // ---------------------------------------------------------------------
  // The skills table (icons and colours are presentation only)
  // ---------------------------------------------------------------------

  const Selenium := Skill("Selenium WebDriver", 95)
  const Java := Skill("Java", 90)
  const Playwright := Skill("Playwright", 88)
  const SpringFramework := Skill("Spring Framework", 85)
  const SpringBoot := Skill("Spring Boot", 87)
  const TestAutomation := Skill("Test Automation", 95)
  const SoapRest := Skill("SOAP/REST APIs", 85)
  const RestAssured := Skill("RestAssured", 88)
  const AgileWaterfall := Skill("Agile/Waterfall", 92)

  const SkillsTable: seq<Skill> :=
    [Selenium, Java, Playwright, SpringFramework, SpringBoot,
     TestAutomation, SoapRest, RestAssured, AgileWaterfall]

  // ---------------------------------------------------------------------
  // The work-history table, most recent first
  // ---------------------------------------------------------------------

  const ExperienceTable: seq<Experience> := [
    Experience("Mastercard", "Senior Software Engineer", "Apr 2023 - Present",
      "Leading QE initiatives and test automation frameworks for financial services",
      ["Led 5+ automation projects", "Reduced testing time by 60%", "Mentored 3 junior engineers"]),
    Experience("HSBC", "Senior QA Specialist", "Apr 2022 - Apr 2023",
      "Specialized in banking domain testing and quality assurance processes",
      ["Implemented CI/CD pipelines", "Improved test coverage by 40%", "Led cross-functional teams"]),
    Experience("TCS", "Team Lead", "Mar 2019 - Apr 2022",
      "Led testing teams and implemented comprehensive QA strategies",
      ["Managed team of 8 testers", "Delivered 15+ projects", "Achieved 99.5% quality metrics"]),
    Experience("Hansen Technologies", "Senior Software Engineer", "Apr 2017 - Jan 2019",
      "Developed robust test automation frameworks and procedures",
      ["Built automation framework", "Reduced manual effort by 70%", "Trained 10+ team members"]),
    Experience("HSBC", "Software Engineer", "2015 - Feb 2017",
      "Implemented manual and automated testing solutions",
      ["Automated 200+ test cases", "Improved defect detection by 35%", "Optimized test processes"]),
    Experience("KPIT", "Software Engineer", "2014 - Aug 2015",
      "Started career in software testing and quality assurance",
      ["Completed 5+ certifications", "Delivered first automation project", "Received excellence award"])
  ]

  // ---------------------------------------------------------------------
  // Facts about the tables
  // ---------------------------------------------------------------------

  /** Levels are usable as bar widths, and names as list keys. */
  lemma SkillsTableWellFormed()
    ensures forall i :: 0 <= i < |SkillsTable| ==> 0 <= SkillsTable[i].level <= 100
    ensures forall i, j :: 0 <= i < j < |SkillsTable| ==> SkillsTable[i].name != SkillsTable[j].name
  {
  }

  /** Every work-history entry lists three achievements. */
  lemma ExperienceTableShape()
    ensures |ExperienceTable| == 6
    ensures forall i :: 0 <= i < |ExperienceTable| ==> |ExperienceTable[i].achievements| == 3
  {
  }

  /** The table ranked by the skills rule's stable sort, all nine places. */
  lemma SkillsTableRanking()
    ensures SortByLevel(SkillsTable) ==
              [Selenium, TestAutomation, AgileWaterfall, Java, Playwright,
               RestAssured, SpringBoot, SpringFramework, SoapRest]
  {
    assert SkillsTable[..0] == [];
    RankingStep1();
    RankingStep2();
    RankingStep3();
    RankingStep4();
    RankingStep5();
    RankingStep6();
    RankingStep7();
    RankingStep8();
    RankingStep9();
    assert SkillsTable[..9] == SkillsTable;
  }

  // One lemma per insertion step of the sort, so that each proof stays small.

  lemma RankingStep1()
    requires SortByLevel(SkillsTable[..0]) == []
    ensures SortByLevel(SkillsTable[..1]) == [Selenium]
  {
    var sorted: seq<Skill> := [];
    SortStep(SkillsTable, 1, sorted, 0);
    assert sorted[..0] + [Selenium] + sorted[0..] == [Selenium];
  }

  lemma RankingStep2()
    requires SortByLevel(SkillsTable[..1]) == [Selenium]
    ensures SortByLevel(SkillsTable[..2]) == [Selenium, Java]
  {
    var sorted: seq<Skill> := [Selenium];
    SortStep(SkillsTable, 2, sorted, 1);
    assert sorted[..1] + [Java] + sorted[1..] == [Selenium, Java];
  }

  lemma RankingStep3()
    requires SortByLevel(SkillsTable[..2]) == [Selenium, Java]
    ensures SortByLevel(SkillsTable[..3]) == [Selenium, Java, Playwright]
  {
    var sorted: seq<Skill> := [Selenium, Java];
    SortStep(SkillsTable, 3, sorted, 2);
    assert sorted[..2] + [Playwright] + sorted[2..] == [Selenium, Java, Playwright];
  }

  lemma RankingStep4()
    requires SortByLevel(SkillsTable[..3]) == [Selenium, Java, Playwright]
    ensures SortByLevel(SkillsTable[..4]) == [Selenium, Java, Playwright, SpringFramework]
  {
    var sorted: seq<Skill> := [Selenium, Java, Playwright];
    SortStep(SkillsTable, 4, sorted, 3);
    assert sorted[..3] + [SpringFramework] + sorted[3..] == [Selenium, Java, Playwright, SpringFramework];
  }

  lemma RankingStep5()
    requires SortByLevel(SkillsTable[..4]) == [Selenium, Java, Playwright, SpringFramework]
    ensures SortByLevel(SkillsTable[..5]) == [Selenium, Java, Playwright, SpringBoot, SpringFramework]
  {
    var sorted: seq<Skill> := [Selenium, Java, Playwright, SpringFramework];
    SortStep(SkillsTable, 5, sorted, 3);
    assert sorted[..3] + [SpringBoot] + sorted[3..] == [Selenium, Java, Playwright, SpringBoot, SpringFramework];
  }

  lemma RankingStep6()
    requires SortByLevel(SkillsTable[..5]) == [Selenium, Java, Playwright, SpringBoot, SpringFramework]
    ensures SortByLevel(SkillsTable[..6]) == [Selenium, TestAutomation, Java, Playwright, SpringBoot, SpringFramework]
  {
    var sorted: seq<Skill> := [Selenium, Java, Playwright, SpringBoot, SpringFramework];
    SortStep(SkillsTable, 6, sorted, 1);
    assert sorted[..1] + [TestAutomation] + sorted[1..] == [Selenium, TestAutomation, Java, Playwright, SpringBoot, SpringFramework];
  }

  lemma RankingStep7()
    requires SortByLevel(SkillsTable[..6]) == [Selenium, TestAutomation, Java, Playwright, SpringBoot, SpringFramework]
    ensures SortByLevel(SkillsTable[..7]) == [Selenium, TestAutomation, Java, Playwright, SpringBoot, SpringFramework, SoapRest]
  {
    var sorted: seq<Skill> := [Selenium, TestAutomation, Java, Playwright, SpringBoot, SpringFramework];
    SortStep(SkillsTable, 7, sorted, 6);
    assert sorted[..6] + [SoapRest] + sorted[6..] == [Selenium, TestAutomation, Java, Playwright, SpringBoot, SpringFramework, SoapRest];
  }

  lemma RankingStep8()
    requires SortByLevel(SkillsTable[..7]) == [Selenium, TestAutomation, Java, Playwright, SpringBoot, SpringFramework, SoapRest]
    ensures SortByLevel(SkillsTable[..8]) == [Selenium, TestAutomation, Java, Playwright, RestAssured, SpringBoot, SpringFramework, SoapRest]
  {
    var sorted: seq<Skill> := [Selenium, TestAutomation, Java, Playwright, SpringBoot, SpringFramework, SoapRest];
    SortStep(SkillsTable, 8, sorted, 4);
    assert sorted[..4] + [RestAssured] + sorted[4..] == [Selenium, TestAutomation, Java, Playwright, RestAssured, SpringBoot, SpringFramework, SoapRest];
  }

  lemma RankingStep9()
    requires SortByLevel(SkillsTable[..8]) == [Selenium, TestAutomation, Java, Playwright, RestAssured, SpringBoot, SpringFramework, SoapRest]
    ensures SortByLevel(SkillsTable[..9]) == [Selenium, TestAutomation, AgileWaterfall, Java, Playwright, RestAssured, SpringBoot, SpringFramework, SoapRest]
  {
    var sorted: seq<Skill> := [Selenium, TestAutomation, Java, Playwright, RestAssured, SpringBoot, SpringFramework, SoapRest];
    SortStep(SkillsTable, 9, sorted, 2);
    assert sorted[..2] + [AgileWaterfall] + sorted[2..] == [Selenium, TestAutomation, AgileWaterfall, Java, Playwright, RestAssured, SpringBoot, SpringFramework, SoapRest];
  }

  /**
   * The skills rule's top five on this table. Playwright and RestAssured tie
   * at 88; Playwright comes first in the table and so makes the cut.
   */
  lemma SkillsTableTopFive()
    ensures TopFive(SkillsTable) == [Selenium, TestAutomation, AgileWaterfall, Java, Playwright]
    ensures RestAssured !in TopFive(SkillsTable)
  {
    SkillsTableRanking();
  }

  /** The skills rule's list on this table, as the widget shows it. */
  lemma SkillsTableTopSkillsText()
    ensures TopSkillsText(SkillsTable) ==
              "Selenium WebDriver (95%)" + ", " + ("Test Automation (95%)" + ", " +
              ("Agile/Waterfall (92%)" + ", " + ("Java (90%)" + ", " + "Playwright (88%)")))
  {
    var items := TopFiveRendered();
    assert TopSkillsText(SkillsTable) == Join(items, ", ");
    assert items[3..][1..] == items[4..] == [items[4]];
    assert items[2..][1..] == items[3..];
    assert items[1..][1..] == items[2..];
    var tail3 := items[3] + ", " + items[4];
    assert Join(items[3..], ", ") == tail3;
    var tail2 := items[2] + ", " + tail3;
    assert Join(items[2..], ", ") == tail2;
    var tail1 := items[1] + ", " + tail2;
    assert Join(items[1..], ", ") == tail1;
    assert Join(items, ", ") == items[0] + ", " + tail1;
  }

  /** The top five of this table, each rendered as `name (level%)`. */
  lemma TopFiveRendered() returns (items: seq<string>)
    ensures FormatSkills(TopFive(SkillsTable)) == items
    ensures items == ["Selenium WebDriver (95%)", "Test Automation (95%)", "Agile/Waterfall (92%)",
                      "Java (90%)", "Playwright (88%)"]
  {
    SkillsTableTopFive();
    items := ["Selenium WebDriver (95%)", "Test Automation (95%)", "Agile/Waterfall (92%)",
              "Java (90%)", "Playwright (88%)"];
    RenderSelenium();
    RenderTestAutomation();
    RenderAgileWaterfall();
    RenderJava();
    RenderPlaywright();
  }

  // The rendering of each of the five, one lemma per skill.

  lemma RenderSelenium()
    ensures FormatSkill(Selenium) == "Selenium WebDriver (95%)"
  {
    TwoDigitLevel(95);
  }

  lemma RenderTestAutomation()
    ensures FormatSkill(TestAutomation) == "Test Automation (95%)"
  {
    TwoDigitLevel(95);
  }

  lemma RenderAgileWaterfall()
    ensures FormatSkill(AgileWaterfall) == "Agile/Waterfall (92%)"
  {
    TwoDigitLevel(92);
  }

  lemma RenderJava()
    ensures FormatSkill(Java) == "Java (90%)"
  {
    TwoDigitLevel(90);
  }

  lemma RenderPlaywright()
    ensures FormatSkill(Playwright) == "Playwright (88%)"
  {
    TwoDigitLevel(88);
  }

  lemma TwoDigitLevel(n: nat)
    requires 10 <= n < 100
    ensures IntToString(n) == [DigitChar(n / 10), DigitChar(n % 10)]
  {
    assert NatToString(n / 10) == [DigitChar(n / 10)];
  }

  /** The responder's "current job" is the Mastercard entry. */
  lemma CurrentJobIsMastercard()
    ensures ExperienceTable[0].company == "Mastercard"
    ensures ExperienceTable[0].role == "Senior Software Engineer"
    ensures ExperienceTable[0].period == "Apr 2023 - Present"
    ensures FindCompany(ExperienceTable, "Mastercard") == Some(ExperienceTable[0])
  {
  }

  /** Two HSBC entries; the first, used by the HSBC rule, is the Senior QA Specialist role. */
  lemma HsbcEntries()
    ensures FilterCompany(ExperienceTable, "HSBC") == [ExperienceTable[1], ExperienceTable[4]]
    ensures ExperienceTable[1].role == "Senior QA Specialist"
    ensures ExperienceTable[1].period == "Apr 2022 - Apr 2023"
  {
    var t := ExperienceTable;
    HsbcEntriesFrom1();
    assert t[0..][1..] == t[1..];
    assert t[0].company != "HSBC";
  }

  /** One step of `filter`: the first entry is kept exactly when its company matches. */
  lemma FilterCompanyStep(exps: seq<Experience>, company: string)
    requires exps != []
    ensures FilterCompany(exps, company) ==
              (if exps[0].company == company then [exps[0]] else []) + FilterCompany(exps[1..], company)
  {
  }

  // The HSBC rows of the table from entry k on, one lemma per entry.

  lemma HsbcEntriesFrom5()
    ensures FilterCompany(ExperienceTable[5..], "HSBC") == []
  {
    var t := ExperienceTable[5..];
    FilterCompanyStep(t, "HSBC");
    assert t[0] == ExperienceTable[5];
    assert t[1..] == ExperienceTable[6..];
  }

  lemma HsbcEntriesFrom4()
    ensures FilterCompany(ExperienceTable[4..], "HSBC") == [ExperienceTable[4]]
  {
    var t := ExperienceTable[4..];
    FilterCompanyStep(t, "HSBC");
    assert t[0] == ExperienceTable[4];
    assert t[1..] == ExperienceTable[5..];
    HsbcEntriesFrom5();
  }

  lemma HsbcEntriesFrom3()
    ensures FilterCompany(ExperienceTable[3..], "HSBC") == [ExperienceTable[4]]
  {
    var t := ExperienceTable[3..];
    FilterCompanyStep(t, "HSBC");
    assert t[0] == ExperienceTable[3];
    assert t[1..] == ExperienceTable[4..];
    HsbcEntriesFrom4();
  }

  lemma HsbcEntriesFrom2()
    ensures FilterCompany(ExperienceTable[2..], "HSBC") == [ExperienceTable[4]]
  {
    var t := ExperienceTable[2..];
    FilterCompanyStep(t, "HSBC");
    assert t[0] == ExperienceTable[2];
    assert t[1..] == ExperienceTable[3..];
    HsbcEntriesFrom3();
  }

  lemma HsbcEntriesFrom1()
    ensures FilterCompany(ExperienceTable[1..], "HSBC") == [ExperienceTable[1], ExperienceTable[4]]
  {
    var t := ExperienceTable[1..];
    FilterCompanyStep(t, "HSBC");
    assert t[0] == ExperienceTable[1];
    assert t[0].company == "HSBC";
    assert t[1..] == ExperienceTable[2..];
    HsbcEntriesFrom2();
    var rest := FilterCompany(t[1..], "HSBC");
    assert FilterCompany(t, "HSBC") == [t[0]] + rest;
  }

  /** On the page's tables the responder always answers: the experience rule has its entry. */
  lemma PageResponderAlwaysAnswers(userMessage: string, skills: seq<Skill>)
    ensures Respond(userMessage, skills, ExperienceTable).Success?
  {
  }

  // ---------------------------------------------------------------------
  // Active section
  // ---------------------------------------------------------------------

  datatype Section = Hero | SkillsSection | ExperienceSection | ContactSection

  /** Position in page order, which is also the order of priority. */
  function Rank(s: Section): nat {
    match s
    case Hero => 0
    case SkillsSection => 1
    case ExperienceSection => 2
    case ContactSection => 3
  }

  /** Whether each section's observer currently reports it in view. */
  datatype Visibility = Visibility(hero: bool, skills: bool, experience: bool, contact: bool)

  predicate InView(v: Visibility, s: Section) {
    match s
    case Hero => v.hero
    case SkillsSection => v.skills
    case ExperienceSection => v.experience
    case ContactSection => v.contact
  }

  /** The first section in page order that is in view, if any. */
  function FirstInView(v: Visibility): (r: Option<Section>)
    ensures r.None? ==> forall s :: !InView(v, s)
    ensures r.Some? ==> InView(v, r.value)
    ensures r.Some? ==> forall s :: Rank(s) < Rank(r.value) ==> !InView(v, s)
  {
    if v.hero then Some(Hero)
    else if v.skills then Some(SkillsSection)
    else if v.experience then Some(ExperienceSection)
    else if v.contact then Some(ContactSection)
    else None
  }

  /** Conversely, a section in view with none ahead of it in view is the one selected. */
  lemma FirstInViewUnique(v: Visibility, s: Section)
    requires InView(v, s)
    requires forall t :: Rank(t) < Rank(s) ==> !InView(v, t)
    ensures FirstInView(v) == Some(s)
  {
    var r := FirstInView(v).value;
    assert Rank(r) <= Rank(s);
    assert Rank(r) == Rank(s);
  }

  /** The highlighted navigation entry, updated when the observers report a change. */
  class ActiveSection {
    var active: Section

    constructor()
      ensures active == Hero
    {
      active := Hero;
    }

    /** Selects the first section in view; with none in view the previous one stays. */
    method OnVisibilityChange(v: Visibility)
      modifies this
      ensures FirstInView(v).Some? ==> active == FirstInView(v).value
      ensures FirstInView(v).None? ==> active == old(active)
    {
      if v.hero {
        active := Hero;
      } else if v.skills {
        active := SkillsSection;
      } else if v.experience {
        active := ExperienceSection;
      } else if v.contact {
        active := ContactSection;
      }
    }
  }
}
