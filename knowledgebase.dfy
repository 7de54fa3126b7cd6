/**
 * The topic table `asha_topics` of knowledgebase.py: an ordered dictionary from a lower-case
 * keyword to a predefined answer. Lookup walks it in insertion order, so `Topics` lists the
 * keywords in the order of the dictionary literal. Each entry is named by a `Topic`, and
 * `Answer` gives the answer text stored under it.
 */
module Knowledge {
  import opened Text

  datatype Topic =
      StartingOut
    | FirstJob
    | Mentorship
    | ResumeGap
    | Negotiation
    | Bias
    | JobSearch
    | WorkLifeBalance
    | CareerBreak
    | RestartAfterBreak
    | AdvancingCareer
    | Promotion
    | NegotiateSalary
    | FindMentor
    | BiasAtWork
    | WomenFocusedCommunities
    | SkillDevelopment
    | SuccessStories
    | UsefulLinks
    | OffTopic

  /** The keywords of `asha_topics`, in insertion order, each with the topic it answers. */
  const Topics: seq<(string, Topic)> := [
    ("starting out", StartingOut),
    ("first job", FirstJob),
    ("mentorship", Mentorship),
    ("resume gap", ResumeGap),
    ("negotiation", Negotiation),
    ("bias", Bias),
    ("job search", JobSearch),
    ("work-life balance", WorkLifeBalance),
    ("career break", CareerBreak),
    ("restart after break", RestartAfterBreak),
    ("advancing career", AdvancingCareer),
    ("promotion", Promotion),
    ("negotiate salary", NegotiateSalary),
    ("find mentor", FindMentor),
    ("bias at work", BiasAtWork),
    ("women focused communities", WomenFocusedCommunities),
    ("skill development", SkillDevelopment),
    ("success stories", SuccessStories),
    ("useful links", UsefulLinks),
    ("off topic", OffTopic)
  ]

  const StartingOutAnswer: string :=
    "🌱 Starting your IT career? Focus on learning core skills like Python, Java, or JavaScript. Explore free courses on [freeCodeCamp](https://www.freecodecamp.org), [Coursera](https://coursera.org), and [HackerRank](https://www.hackerrank.com/skills-directory). Join communities like [Women in Tech](https://womenintech.org) to stay inspired and connected!"
  const FirstJobAnswer: string :=
    "🎯 Landing your first job is all about practice and presence! Build small projects, contribute to GitHub, and join groups like [Lean In](https://leanin.org) and [JobsForHer](https://jobsforher.com) for support."
  const MentorshipAnswer: string :=
    "💡 Mentorship can guide you through tough phases. Join platforms like [JobsForHer](https://jobsforher.com), [Lean In Circles](https://leanin.org/circles), or look up women leaders on LinkedIn and send them a kind, personal message asking for guidance!"
  const ResumeGapAnswer: string :=
    "⏳ Career gaps are totally okay! Be honest and highlight what you learned—volunteering, courses, caregiving. Use tools like [Novoresume](https://novoresume.com) or [Zety](https://zety.com/resume-builder) to shape your story."
  const NegotiationAnswer: string :=
    "🗣️ Know your worth! Research on [Glassdoor](https://glassdoor.com), rehearse your pitch, and enter salary negotiations with facts, not fear. You've earned your seat at the table!"
  const BiasAnswer: string :=
    "🚨 Bias in the workplace is never okay. Keep a record of events and connect with HR. Also, consider support from communities like [SHEroes](https://sheroes.com). You're not alone!"
  const JobSearchAnswer: string :=
    "🔍 Check out women-focused platforms like [JobsForHer](https://jobsforher.com), [HerSecondInnings](https://hersecondinnings.com), and even LinkedIn. Tailor your resume for each role!"
  const WorkLifeBalanceAnswer: string :=
    "⚖️ It's okay to say no. Prioritize, communicate your boundaries, and explore flexible roles or remote work options. Self-care isn't selfish — it's part of success."
  const CareerBreakAnswer: string :=
    "🔄 Returning after a break? Upskill on [Coursera](https://coursera.org), reconnect with peers, and confidently show how your break helped you grow. Returnship programs are a great place to start!"
  const RestartAfterBreakAnswer: string :=
    "🌼 Look into returnships by [Tata SCIP](https://scip.tatasecondcareers.com), [IBM Re-Entry](https://www.ibm.com/careers/us-en/returnship/), and similar programs. Highlight freelance or volunteer work on your resume too!"
  const AdvancingCareerAnswer: string :=
    "🚀 Growth starts with action. Take initiative, join leadership training, seek mentorship, and speak up about your goals."
  const PromotionAnswer: string :=
    "🎉 Track your wins, align with team goals, and have regular check-ins with your manager. Being visible and proactive pays off!"
  const NegotiateSalaryAnswer: string :=
    "💬 Practice your pitch, list your contributions, and use [Payscale](https://payscale.com) or [Glassdoor](https://glassdoor.com) to benchmark. You deserve fair compensation!"
  const FindMentorAnswer: string :=
    "📣 Mentors are everywhere—on [Lean In](https://leanin.org/circles), [JobsForHer](https://jobsforher.com), or even your current network. Don’t hesitate to ask; many are happy to help!"
  const BiasAtWorkAnswer: string :=
    "🚧 Speak up respectfully. Keep documentation, use your company’s HR process, and get support from [women’s rights groups](https://sheroes.com) if needed."
  const WomenFocusedCommunitiesAnswer: string :=
    "👩‍💻 Join inspiring groups like [Lean In](https://leanin.org), [Women in Tech](https://womenintech.org), and [JobsForHer](https://jobsforher.com). These offer mentorship, events, and job boards tailored for women."
  const SkillDevelopmentAnswer: string :=
    "📘 Build your skillset on [Coursera](https://coursera.org), [Udemy](https://udemy.com), [LinkedIn Learning](https://linkedin.com/learning), or government portals like [Skill India](https://www.skillindia.gov.in/)."
  const SuccessStoriesAnswer: string :=
    "✨ Priya took a 5-year break and upskilled in digital marketing—now she leads a startup’s marketing team. Anita landed her first job through a women’s network and now mentors others. Your story could be next!"
  const UsefulLinksAnswer: string :=
    "🔗 [Lean In](https://leanin.org) | [Women in Tech](https://womenintech.org) | [JobsForHer](https://jobsforher.com) | [Tata SCIP](https://scip.tatasecondcareers.com)"
  const OffTopicAnswer: string :=
    "💬 Asha AI is here to help with your career, upskilling, jobs, and confidence-building. Let's keep things focused on your professional journey 🚀"

  /** `asha_topics[keyword]` for the keyword of topic `t`. */
  function Answer(t: Topic): string {
    match t
    case StartingOut => StartingOutAnswer
    case FirstJob => FirstJobAnswer
    case Mentorship => MentorshipAnswer
    case ResumeGap => ResumeGapAnswer
    case Negotiation => NegotiationAnswer
    case Bias => BiasAnswer
    case JobSearch => JobSearchAnswer
    case WorkLifeBalance => WorkLifeBalanceAnswer
    case CareerBreak => CareerBreakAnswer
    case RestartAfterBreak => RestartAfterBreakAnswer
    case AdvancingCareer => AdvancingCareerAnswer
    case Promotion => PromotionAnswer
    case NegotiateSalary => NegotiateSalaryAnswer
    case FindMentor => FindMentorAnswer
    case BiasAtWork => BiasAtWorkAnswer
    case WomenFocusedCommunities => WomenFocusedCommunitiesAnswer
    case SkillDevelopment => SkillDevelopmentAnswer
    case SuccessStories => SuccessStoriesAnswer
    case UsefulLinks => UsefulLinksAnswer
    case OffTopic => OffTopicAnswer
  }

  lemma TableSize()
    ensures |Topics| == 20
  {
  }

  /** The keywords are pairwise distinct, so the dictionary literal lost no entry, and each topic has one keyword. */
  lemma KeysDistinct()
    ensures forall i, j :: 0 <= i < j < |Topics| ==> Topics[i].0 != Topics[j].0 && Topics[i].1 != Topics[j].1
  {
  }

  /** Every keyword is lower case, so each can occur in a lowered query. */
  lemma KeysLowercase()
    ensures forall i :: 0 <= i < |Topics| ==> IsLowercase(Topics[i].0)
  {
    forall i | 0 <= i < |Topics| ensures IsLowercase(Topics[i].0) {
      if i < 5 { KeysLowercase0(i); }
      else if i < 10 { KeysLowercase1(i); }
      else if i < 15 { KeysLowercase2(i); }
      else { KeysLowercase3(i); }
    }
  }

  lemma KeysLowercase0(i: int)
    requires 0 <= i < 5
    ensures IsLowercase(Topics[i].0)
  {
    if i == 0 { assert Topics[i].0 == "starting out"; }
    else if i == 1 { assert Topics[i].0 == "first job"; }
    else if i == 2 { assert Topics[i].0 == "mentorship"; }
    else if i == 3 { assert Topics[i].0 == "resume gap"; }
    else { assert Topics[i].0 == "negotiation"; }
  }

  lemma KeysLowercase1(i: int)
    requires 5 <= i < 10
    ensures IsLowercase(Topics[i].0)
  {
    if i == 5 { assert Topics[i].0 == "bias"; }
    else if i == 6 { assert Topics[i].0 == "job search"; }
    else if i == 7 { assert Topics[i].0 == "work-life balance"; }
    else if i == 8 { assert Topics[i].0 == "career break"; }
    else { assert Topics[i].0 == "restart after break"; }
  }

  lemma KeysLowercase2(i: int)
    requires 10 <= i < 15
    ensures IsLowercase(Topics[i].0)
  {
    if i == 10 { assert Topics[i].0 == "advancing career"; }
    else if i == 11 { assert Topics[i].0 == "promotion"; }
    else if i == 12 { assert Topics[i].0 == "negotiate salary"; }
    else if i == 13 { assert Topics[i].0 == "find mentor"; }
    else { assert Topics[i].0 == "bias at work"; }
  }

  lemma KeysLowercase3(i: int)
    requires 15 <= i < 20
    ensures IsLowercase(Topics[i].0)
  {
    if i == 15 { assert Topics[i].0 == "women focused communities"; }
    else if i == 16 { assert Topics[i].0 == "skill development"; }
    else if i == 17 { assert Topics[i].0 == "success stories"; }
    else if i == 18 { assert Topics[i].0 == "useful links"; }
    else { assert Topics[i].0 == "off topic"; }
  }

  /** Every answer is a non-empty string, hence truthy in Python. */
  lemma AnswersNonEmpty(t: Topic)
    ensures Answer(t) != ""
  {
  }

  /** "bias" comes before "bias at work" in the table and is a substring of it. */
  lemma BiasPrecedesBiasAtWork()
    ensures Topics[5] == ("bias", Bias) && Topics[14] == ("bias at work", BiasAtWork)
    ensures Contains(Topics[14].0, Topics[5].0)
  {
    PrefixContained("bias at work", "bias");
  }
}
