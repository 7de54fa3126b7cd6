/**
 * user_data_manager.py: the input guardrails and classifiers that sit in front of the Gemini
 * model, the prompt built from the conversation context, the trimming of long replies and the
 * classification of backend errors. The model call is an abstract function from the prompt to
 * a response. The chat page does not call this module's `ask_gemini` (it uses chatbot.py's), so
 * these functions stand on their own.
 */
module Guardrails {
  import opened Wrappers
  import opened Text
  import Chatbot

  // ---------------------------------------------------------------- phrase lists

  const SensitiveKeywords: seq<string> := [
    "women are superior", "men are inferior", "gender superiority", "gender war",
    "feminist extremism", "hate men", "gender bias", "political debate",
    "controversial gender", "gender discrimination arguments"
  ]

  const InappropriateTopics: seq<string> := [
    "dating advice", "relationship problems", "personal relationships",
    "political opinions", "religious debates", "controversial social issues"
  ]

  const GuardrailPhrases: seq<string> := [
    "are you single", "<script>", "aadhar", "social security", "joke about women",
    "illegal advice", "why don’t women code", "who makes better leaders"
  ]

  /**
   * The strings that the five regular expressions of `is_sensitive_content` search for. Each
   * pattern is a literal with an optional "the " or a two-way alternative, so `re.search`
   * matches exactly where one of these expansions occurs.
   */
  const ExtremePatterns: seq<string> := [
    "women are best", "women are the best",
    "men are worst", "men are the worst",
    "only women can", "only women should",
    "men can't",
    "gender superiority"
  ]

  const GuardrailWarning: string := "⚠️ I'm here to support your career journey. Let's keep our conversation respectful and professional. 💜"

  /** `any(phrase in s for phrase in phrases)`, evaluated left to right. */
  function AnyOccurs(s: string, phrases: seq<string>): (r: bool)
    ensures r <==> exists i :: 0 <= i < |phrases| && Contains(s, phrases[i])
  {
    if phrases == [] then false
    else if Contains(s, phrases[0]) then (assert Contains(s, phrases[0]); true)
    else
      var rest := AnyOccurs(s, phrases[1..]);
      assert forall i :: 1 <= i < |phrases| ==> phrases[i] == phrases[1..][i - 1];
      rest
  }

  /** `handle_user_input(message)`: the fixed warning when a guardrail phrase occurs in the lowered message, else `None`. */
  function HandleUserInput(message: string): (r: Option<string>)
    ensures r.Some? <==> exists i :: 0 <= i < |GuardrailPhrases| && Contains(Lower(message), GuardrailPhrases[i])
    ensures r.Some? ==> r.value == GuardrailWarning
  {
    if AnyOccurs(Lower(message), GuardrailPhrases) then Some(GuardrailWarning) else None
  }

  /** `is_sensitive_content(query)`: a listed keyword or topic, or an extreme pattern, occurs in the lowered query. */
  function IsSensitiveContent(query: string): (r: bool)
    ensures r <==>
      (exists i :: 0 <= i < |SensitiveKeywords + InappropriateTopics| && Contains(Lower(query), (SensitiveKeywords + InappropriateTopics)[i]))
      || (exists i :: 0 <= i < |ExtremePatterns| && Contains(Lower(query), ExtremePatterns[i]))
  {
    var ql := Lower(query);
    if AnyOccurs(ql, SensitiveKeywords + InappropriateTopics) then true
    else AnyOccurs(ql, ExtremePatterns)
  }

  /** Both lists are searched: a keyword of either list makes a query sensitive. */
  lemma SensitiveListsBoth(query: string, k: string)
    requires k in SensitiveKeywords || k in InappropriateTopics
    requires Contains(Lower(query), k)
    ensures IsSensitiveContent(query)
  {
    var all := SensitiveKeywords + InappropriateTopics;
    assert k in all;
    var i :| 0 <= i < |all| && all[i] == k;
    assert Contains(Lower(query), all[i]);
  }

  /** The pattern "men are (the )?worst" also fires inside "women are worst": the search has no word boundary. */
  lemma WomenAreWorstIsSensitive()
    ensures IsSensitiveContent("women are worst")
  {
    assert OccursAt(Lower("women are worst"), ExtremePatterns[2], 2);
  }

  // ---------------------------------------------------------------- nonsense input

  predicate IsAsciiAlnum(c: char) {
    ('a' <= c <= 'z') || ('A' <= c <= 'Z') || ('0' <= c <= '9')
  }

  /** `re.fullmatch(r"[\W_]+", text)`: a non-empty text of characters that are neither letters nor digits. */
  predicate AllNonWord(text: string) {
    |text| > 0 && forall i :: 0 <= i < |text| ==> !IsAsciiAlnum(text[i])
  }

  /** `is_nonsense_input(text)`: nonsense exactly when fewer than three characters survive `strip()` or the text has no letter or digit at all. */
  function IsNonsenseInput(text: string): (r: bool)
    ensures r <==> |Strip(text)| < 3 || forall i :: 0 <= i < |text| ==> !IsAsciiAlnum(text[i])
  {
    if text == "" then
      assert TrimEnd(text) == "";
      assert Strip(text) == "";
      true
    else |Strip(text)| < 3 || AllNonWord(text)
  }

  /** The second guard of `ask_gemini` (an empty stripped text, or a text of non-word characters) only holds where the first already did. */
  lemma SecondGuardUnreachable(userInput: string)
    requires Strip(userInput) == "" || AllNonWord(userInput)
    ensures IsNonsenseInput(userInput)
  {
  }

  // ---------------------------------------------------------------- intent

  datatype Intent = ResumeBuilding | Roadmap | JobSearch | Scholarship

  const ResumeWords: seq<string> := ["resume", "cv", "curriculum vitae", "build resume"]
  const RoadmapWords: seq<string> := ["learn", "roadmap", "path", "how to start", "career change"]
  const JobWords: seq<string> := ["job", "opportunity", "hiring", "career", "work", "employment"]
  const ScholarshipWords: seq<string> := ["scholarship", "funding", "grant", "financial aid"]

  /** `detect_career_intent(query, context)`; the context is not consulted. */
  function DetectCareerIntent(query: string): (r: Option<Intent>)
    ensures r == Some(ResumeBuilding) <==> AnyOccurs(Lower(query), ResumeWords)
    ensures r == Some(Roadmap) <==> !AnyOccurs(Lower(query), ResumeWords) && AnyOccurs(Lower(query), RoadmapWords)
    ensures r == Some(JobSearch) <==>
      !AnyOccurs(Lower(query), ResumeWords) && !AnyOccurs(Lower(query), RoadmapWords) && AnyOccurs(Lower(query), JobWords)
    ensures r == None <==>
      !AnyOccurs(Lower(query), ResumeWords) && !AnyOccurs(Lower(query), RoadmapWords)
      && !AnyOccurs(Lower(query), JobWords) && !AnyOccurs(Lower(query), ScholarshipWords)
  {
    var ql := Lower(query);
    if AnyOccurs(ql, ResumeWords) then Some(ResumeBuilding)
    else if AnyOccurs(ql, RoadmapWords) then Some(Roadmap)
    else if AnyOccurs(ql, JobWords) then Some(JobSearch)
    else if AnyOccurs(ql, ScholarshipWords) then Some(Scholarship)
    else None
  }

  /** "career change" names the roadmap intent although it also contains the job word "career": roadmap is checked first. */
  lemma CareerChangeIsRoadmap()
    ensures DetectCareerIntent("career change") == Some(Roadmap)
    ensures AnyOccurs("career change", JobWords)
  {
    var q := "career change";
    LowerOfLowercase(q);
    assert OccursAt(q, RoadmapWords[4], 0);
    assert OccursAt(q, JobWords[3], 0);
    forall i | 0 <= i < |ResumeWords| ensures !Contains(q, ResumeWords[i]) {
      NotContainsResumeWord(i);
    }
  }

  lemma NotContainsResumeWord(i: int)
    requires 0 <= i < |ResumeWords|
    ensures !Contains("career change", ResumeWords[i])
  {
    var q, w := "career change", ResumeWords[i];
    // a letter of each resume word that "career change" lacks
    var d := if i == 0 then 2 else if i == 3 then 0 else 1;
    assert w[d] in "svub";
    forall k | 0 <= k <= |q| - |w| ensures !OccursAt(q, w, k) {
      assert q[k..k + |w|][d] == q[k + d];
    }
  }

  // ---------------------------------------------------------------- prompt

  /** One entry of the conversation context: the user's message and Asha's reply. */
  datatype Turn = Turn(user: string, asha: string)

  /** What `base_prompt` receives; its fixed template wording is not modelled. */
  datatype Prompt = Prompt(contextText: string, userInput: string)

  const NoPriorConversation: string := "No prior conversation."

  function RenderTurn(t: Turn): string {
    "User: " + t.user + "\nAsha: " + t.asha
  }

  /** The rendered entries of `conversation_context[-3:]`: the last three entries, or all when there are fewer, in order. */
  function RenderedTurns(context: seq<Turn>): (r: seq<string>)
    ensures |r| == if |context| <= 3 then |context| else 3
    ensures forall i :: 0 <= i < |r| ==> r[i] == RenderTurn(context[|context| - |r| + i])
  {
    if context == [] then []
    else
      var recent := LastN(context, 3);
      seq(|recent|, i requires 0 <= i < |recent| => RenderTurn(recent[i]))
  }

  /** The context text of `create_contextual_prompt`. */
  function ContextText(context: seq<Turn>): string {
    if context == [] then NoPriorConversation else Join("\n", RenderedTurns(context))
  }

  /** `create_contextual_prompt(user_input, conversation_context)`. */
  function CreateContextualPrompt(userInput: string, context: seq<Turn>): (r: Prompt)
    ensures r.userInput == userInput
    ensures context == [] <==> r.contextText == NoPriorConversation
    ensures context != [] ==> r.contextText == Join("\n", RenderedTurns(context))
  {
    if context == [] then Prompt(NoPriorConversation, userInput)
    else
      JoinStartsWithFirst("\n", RenderedTurns(context));
      assert ContextText(context)[0] == 'U';
      Prompt(ContextText(context), userInput)
  }

  /** Only the last three entries of the context reach the prompt: older ones can be anything. */
  lemma {:induction false} OnlyLastThreeTurns(older: seq<Turn>, recent: seq<Turn>, userInput: string)
    requires |recent| >= 3
    ensures CreateContextualPrompt(userInput, older + recent) == CreateContextualPrompt(userInput, recent)
  {
    var all := older + recent;
    assert LastN(all, 3) == LastN(recent, 3) by {
      assert all[|all| - 3..] == recent[|recent| - 3..];
    }
    assert RenderedTurns(all) == RenderedTurns(recent);
  }

  // ---------------------------------------------------------------- trimming

  const TrimSeparator: string := ". "
  const TrimSuffix: string := ".\n\n💡 Would you like me to elaborate on any specific point?"

  /** The reply trimming of `ask_gemini`: a reply over 800 characters with more than four `'. '`-separated sentences keeps its first four. */
  function TrimResponse(text: string): (r: string)
    ensures r == text || (|r| >= |TrimSuffix| && r[|r| - |TrimSuffix|..] == TrimSuffix)
  {
    if |text| > 800 then
      var sentences := Split(text, TrimSeparator);
      if |sentences| > 4 then Join(TrimSeparator, sentences[..4]) + TrimSuffix else text
    else text
  }

  /** A reply of at most 800 characters, or of at most four sentences, is returned unchanged. */
  lemma TrimOnlyLongReplies(text: string)
    requires |text| <= 800 || |Split(text, TrimSeparator)| <= 4
    ensures TrimResponse(text) == text
  {
  }

  /** A trimmed reply is the first four sentences of the text, rejoined, followed by the fixed suffix; they are a leading part of the text that ends just before a separator. */
  lemma TrimKeepsLeadingSentences(text: string)
    requires |text| > 800 && |Split(text, TrimSeparator)| > 4
    ensures var r := TrimResponse(text);
      && |r| >= |TrimSuffix|
      && r[|r| - |TrimSuffix|..] == TrimSuffix
      && Split(r[..|r| - |TrimSuffix|], TrimSeparator) == Split(text, TrimSeparator)[..4]
      && r[..|r| - |TrimSuffix|] + TrimSeparator <= text
  {
    var sentences := Split(text, TrimSeparator);
    var kept := Join(TrimSeparator, sentences[..4]);
    JoinSplit(text, TrimSeparator);
    JoinPrefixSep(TrimSeparator, sentences, 4);
    SplitPiecesFree(text, TrimSeparator);
    assert forall p :: p in sentences[..4] ==> p in sentences;
    SplitJoin(TrimSeparator, sentences[..4]);
    var r := TrimResponse(text);
    assert r == kept + TrimSuffix;
    assert r[..|r| - |TrimSuffix|] == kept;
  }

  // ---------------------------------------------------------------- ask_gemini

  /** What the Gemini model call yields: a response with text, a response without candidates, or an exception's message. */
  datatype GeminiResponse = Candidates(text: string) | NoCandidates | Failed(error: string)

  /** The four classes of backend error that `ask_gemini` tells apart, in the order it tests them. */
  datatype BackendError = AccessIssue | QuotaExceeded | FlaggedUnsafe | OtherFailure

  /** The class of an exception, judged on its lowered message. */
  function ClassifyError(message: string): (r: BackendError)
    ensures r == AccessIssue <==> Contains(Lower(message), "403") || Contains(Lower(message), "forbidden")
    ensures r == QuotaExceeded <==> r != AccessIssue && Contains(Lower(message), "quota")
    ensures r == FlaggedUnsafe <==> r != AccessIssue && r != QuotaExceeded && Contains(Lower(message), "safety")
  {
    var m := Lower(message);
    if Contains(m, "403") || Contains(m, "forbidden") then AccessIssue
    else if Contains(m, "quota") then QuotaExceeded
    else if Contains(m, "safety") then FlaggedUnsafe
    else OtherFailure
  }

  /** The classification ignores case. */
  lemma ClassifyErrorIgnoresCase(message: string)
    ensures ClassifyError(message) == ClassifyError(Lower(message))
  {
    LowerIdempotent(message);
  }

  /** The reply for a failed model call, which no canned reply of `ask_gemini` can be mistaken for. */
  function ErrorReply(e: BackendError): (r: string)
    ensures r != NoValidReply && r != NonsenseReply && r != UnclearReply && r != SensitiveReply
  {
    match e
    case AccessIssue => "🔑 API access issue. Please check your API key or permissions."
    case QuotaExceeded => "📊 Looks like your usage quota is exceeded. Try again later or check your plan."
    case FlaggedUnsafe => "⚠️ That content might be flagged as unsafe. Let's focus on career questions!"
    case OtherFailure => "⚙️ Something went wrong on my side. Please try again or rephrase your question."
  }

  const NonsenseReply: string := "🤔 I didn’t quite understand that. Could you ask me something about your career journey?"
  const UnclearReply: string := "🙋‍♀️ I didn’t quite catch that. Could you please ask a career-related question?"
  const NoValidReply: string := "🤖 I didn’t get a valid response. Could you try rephrasing your question?"
  const SensitiveReply: string := "I'm Asha AI, your career guidance assistant! 💼\n\nI focus specifically on helping women with:\n• Career development and job opportunities\n• Skill building and professional growth  \n• Resume creation and interview preparation\n• Educational scholarships and programs\n• Industry insights and career roadmaps\n\nI don't engage in discussions about gender comparisons, political topics, or personal relationships. Let me help you with your professional journey instead! What career goals can I support you with today? 🚀"

  /** `ask_gemini(user_input, conversation_context)` of user_data_manager.py, with `backend` for `model.generate_content`. */
  function AskGemini(userInput: string, context: Option<seq<Turn>>, backend: Prompt -> GeminiResponse): (r: string)
    ensures IsNonsenseInput(userInput) ==> r == NonsenseReply
    ensures !IsNonsenseInput(userInput) && IsSensitiveContent(userInput) ==> r == SensitiveReply
  {
    if IsNonsenseInput(userInput) then NonsenseReply
    else if Strip(userInput) == "" || AllNonWord(userInput) then UnclearReply
    else if IsSensitiveContent(userInput) then SensitiveReply
    else
      // `create_contextual_prompt` always returns a string, so the `is None` test after it never holds.
      ModelReply(userInput, backend(CreateContextualPrompt(userInput, context.GetOr([]))))
  }

  /** The reply `ask_gemini` makes of the model's response; its emptiness test on a found topic answer never fails. */
  function ModelReply(userInput: string, response: GeminiResponse): (r: string)
    ensures response.NoCandidates? ==> r == Chatbot.IsTopicFound(userInput).GetOr(NoValidReply)
  {
    match response
    case NoCandidates =>
      var fallback := Chatbot.IsTopicFound(userInput);
      if fallback.Some? && fallback.value != "" then fallback.value else NoValidReply
    case Candidates(text) => TrimResponse(Strip(text))
    case Failed(e) => ErrorReply(ClassifyError(e))
  }

  /** The canned replies come before any model call: for nonsense or sensitive input neither the backend nor the context matters. */
  lemma CannedBeforeBackend(userInput: string, c1: Option<seq<Turn>>, c2: Option<seq<Turn>>,
                            b1: Prompt -> GeminiResponse, b2: Prompt -> GeminiResponse)
    requires IsNonsenseInput(userInput) || IsSensitiveContent(userInput)
    ensures AskGemini(userInput, c1, b1) == AskGemini(userInput, c2, b2)
  {
    var canned := if IsNonsenseInput(userInput) then NonsenseReply else SensitiveReply;
    assert AskGemini(userInput, c1, b1) == canned;
    assert AskGemini(userInput, c2, b2) == canned;
  }

  /** The model call is the only way the backend reaches the reply: backends that answer the contextual prompt alike give the same reply. */
  lemma OnlyPromptReachesBackend(userInput: string, context: Option<seq<Turn>>,
                                 b1: Prompt -> GeminiResponse, b2: Prompt -> GeminiResponse)
    requires b1(CreateContextualPrompt(userInput, context.GetOr([]))) == b2(CreateContextualPrompt(userInput, context.GetOr([])))
    ensures AskGemini(userInput, context, b1) == AskGemini(userInput, context, b2)
  {
  }

  /** Only the last three context entries matter to the reply: older ones can be anything. */
  lemma AskGeminiSeesLastThreeTurns(userInput: string, older: seq<Turn>, recent: seq<Turn>, backend: Prompt -> GeminiResponse)
    requires |recent| >= 3
    ensures AskGemini(userInput, Some(older + recent), backend) == AskGemini(userInput, Some(recent), backend)
  {
    OnlyLastThreeTurns(older, recent, userInput);
    SamePromptSameReply(userInput, Some(older + recent), Some(recent), backend);
  }

  lemma SamePromptSameReply(userInput: string, c1: Option<seq<Turn>>, c2: Option<seq<Turn>>, backend: Prompt -> GeminiResponse)
    requires CreateContextualPrompt(userInput, c1.GetOr([])) == CreateContextualPrompt(userInput, c2.GetOr([]))
    ensures AskGemini(userInput, c1, backend) == AskGemini(userInput, c2, backend)
  {
  }

  // ---------------------------------------------------------------- career lists and roadmaps

  const TechCareers: seq<string> := [
    "Software Developer", "Data Scientist", "UI/UX Designer", "Product Manager",
    "Cybersecurity Analyst", "DevOps Engineer", "AI/ML Engineer", "Quality Assurance Engineer"
  ]

  const NonTechCareers: seq<string> := [
    "Digital Marketing Manager", "Content Writer", "HR Business Partner", "Financial Analyst",
    "Project Manager", "Business Analyst", "Sales Manager", "Operations Manager",
    "Graphic Designer", "Social Media Manager", "Customer Success Manager"
  ]

  /** `get_career_suggestions(field)`. */
  function GetCareerSuggestions(field: Option<string>): (r: seq<string>)
    ensures field.Some? && Contains(Lower(field.value), "tech") ==> r == TechCareers
    ensures field.None? || field.value == "" ==> r == TechCareers + NonTechCareers
  {
    if field.Some? && field.value != "" && Contains(Lower(field.value), "tech") then TechCareers
    else if field.Some? && field.value != "" && Contains(Lower(field.value), "non-tech") then NonTechCareers
    else TechCareers + NonTechCareers
  }

  /** Every field containing "non-tech" contains "tech", so the non-tech list alone is never returned. */
  lemma NonTechListUnreachable(field: Option<string>)
    ensures GetCareerSuggestions(field) != NonTechCareers
    ensures field.Some? && Contains(Lower(field.value), "non-tech") ==> GetCareerSuggestions(field) == TechCareers
    ensures !(field.Some? && Contains(Lower(field.value), "tech")) ==> GetCareerSuggestions(field) == TechCareers + NonTechCareers
  {
    if field.Some? && Contains(Lower(field.value), "non-tech") {
      assert OccursAt("non-tech", "tech", 4);
      ContainsTransitive(Lower(field.value), "non-tech", "tech");
    }
    assert |TechCareers| != |NonTechCareers|;
    assert |TechCareers + NonTechCareers| != |NonTechCareers|;
  }

  const DefaultRoadmap: seq<string> := [
    "Custom roadmap: Start with fundamentals",
    "Practice regularly with hands-on projects",
    "Join communities and seek mentorship",
    "Build a portfolio to showcase your skills"
  ]

  const PythonBeginner: seq<string> := [
    "Week 1-2: Python basics, variables, data types",
    "Week 3-4: Control structures, functions",
    "Week 5-6: Data structures (lists, dictionaries)",
    "Week 7-8: File handling, error handling",
    "Week 9-12: Projects - Calculator, To-do app"
  ]

  const PythonIntermediate: seq<string> := [
    "Month 1: OOP concepts, classes, inheritance",
    "Month 2: Libraries (pandas, numpy, requests)",
    "Month 3: Web scraping, APIs",
    "Month 4: Database operations (SQLite, PostgreSQL)",
    "Month 5-6: Advanced projects - Web app, data analysis"
  ]

  const DataScienceBeginner: seq<string> := [
    "Month 1: Python/R basics, statistics",
    "Month 2: Data manipulation (pandas, dplyr)",
    "Month 3: Data visualization (matplotlib, ggplot2)",
    "Month 4: Machine learning basics",
    "Month 5-6: Projects - analysis, predictions"
  ]

  const Roadmaps: map<string, map<string, seq<string>>> := map[
    "python" := map["beginner" := PythonBeginner, "intermediate" := PythonIntermediate],
    "data science" := map["beginner" := DataScienceBeginner]
  ]

  /** `format_roadmap_response(skill, level)`: the stored roadmap for the lowered skill at that level, or the default roadmap when either is unknown. */
  function FormatRoadmapResponse(skill: string, level: string := "beginner"): (r: seq<string>)
    ensures Lower(skill) in Roadmaps && level in Roadmaps[Lower(skill)] ==> r == Roadmaps[Lower(skill)][level]
    ensures !(Lower(skill) in Roadmaps && level in Roadmaps[Lower(skill)]) ==> r == DefaultRoadmap
  {
    var byLevel := if Lower(skill) in Roadmaps then Roadmaps[Lower(skill)] else map[];
    if level in byLevel then byLevel[level] else DefaultRoadmap
  }

  /** The skill is matched without regard to case. */
  lemma RoadmapIgnoresSkillCase(skill: string, level: string)
    ensures FormatRoadmapResponse(skill, level) == FormatRoadmapResponse(Lower(skill), level)
  {
    LowerIdempotent(skill);
  }

  /** Only "python" at "beginner" or "intermediate" and "data science" at "beginner" have their own roadmap. */
  lemma RoadmapLevels(skill: string, level: string)
    ensures FormatRoadmapResponse(skill, level) != DefaultRoadmap ==>
      (Lower(skill) == "python" && level in {"beginner", "intermediate"})
      || (Lower(skill) == "data science" && level == "beginner")
  {
  }
}
