/**
 * chatbot.py: the first-match topic lookup `is_topic_found` and the `ask_gemini` that the
 * chat page calls. The Gemini client is an abstract function from the user input to a reply.
 * user_data_manager.py repeats `is_topic_found` with the same body; both are `IsTopicFound`.
 */
module Chatbot {
  import opened Wrappers
  import opened Text
  import opened Knowledge

  /** The keyword of entry `i` of the topic table occurs in the lowered query `ql`. */
  predicate KeyOccurs(ql: string, i: int)
    requires 0 <= i < |Topics|
  {
    Contains(ql, Topics[i].0)
  }

  /** Entry `i` is the first, in table order, whose keyword occurs in `ql`. */
  predicate FirstOccurring(ql: string, i: int)
    requires 0 <= i < |Topics|
  {
    KeyOccurs(ql, i) && forall j :: 0 <= j < i ==> !KeyOccurs(ql, j)
  }

  /** The loop `for keyword in asha_topics` started at entry `from`: the index of the first keyword that occurs. */
  function FirstMatchFrom(ql: string, from: nat): (r: Option<nat>)
    requires from <= |Topics|
    ensures r.None? <==> forall i :: from <= i < |Topics| ==> !KeyOccurs(ql, i)
    ensures r.Some? ==> from <= r.value < |Topics| && KeyOccurs(ql, r.value)
    ensures r.Some? ==> forall i :: from <= i < r.value ==> !KeyOccurs(ql, i)
    decreases |Topics| - from
  {
    if from == |Topics| then None
    else if KeyOccurs(ql, from) then Some(from)
    else FirstMatchFrom(ql, from + 1)
  }

  /** The topic whose answer `is_topic_found(query)` returns, if any. */
  function FindTopic(query: string): (r: Option<Topic>)
    ensures r.None? <==> forall i :: 0 <= i < |Topics| ==> !KeyOccurs(Lower(query), i)
    ensures forall i :: 0 <= i < |Topics| && FirstOccurring(Lower(query), i) ==> r == Some(Topics[i].1)
  {
    var m := FirstMatchFrom(Lower(query), 0);
    if m.None? then None
    else
      assert FirstOccurring(Lower(query), m.value);
      assert forall i :: 0 <= i < |Topics| && FirstOccurring(Lower(query), i) ==> i == m.value;
      Some(Topics[m.value].1)
  }

  /** `is_topic_found(query)`: the answer stored under the first keyword occurring in the lowered query, or `None`. */
  function IsTopicFound(query: string): (r: Option<string>)
    ensures r.None? <==> forall i :: 0 <= i < |Topics| ==> !KeyOccurs(Lower(query), i)
    ensures forall i :: 0 <= i < |Topics| && FirstOccurring(Lower(query), i) ==> r == Some(Answer(Topics[i].1))
    ensures r.Some? ==> r.value != ""
  {
    match FindTopic(query)
    case None => None
    case Some(t) => AnswersNonEmpty(t); Some(Answer(t))
  }

  /** The lookup ignores case: a query and its lower-case form find the same answer. */
  lemma IsTopicFoundIgnoresCase(query: string)
    ensures IsTopicFound(query) == IsTopicFound(Lower(query))
  {
    LowerIdempotent(query);
  }

  /** A query that is exactly a keyword always finds some answer. */
  lemma KeywordQueryFindsTopic(i: int)
    requires 0 <= i < |Topics|
    ensures IsTopicFound(Topics[i].0).Some?
  {
    KeysLowercase();
    LowerOfLowercase(Topics[i].0);
    assert OccursAt(Topics[i].0, Topics[i].0, 0);
  }

  /** Wherever "bias at work" occurs, "bias" occurs too and is met first, so the lookup never yields the bias-at-work topic. */
  lemma NeverBiasAtWork(query: string)
    ensures FindTopic(query) != Some(BiasAtWork)
  {
    var ql := Lower(query);
    BiasPrecedesBiasAtWork();
    KeysDistinct();
    match FirstMatchFrom(ql, 0)
    case None =>
    case Some(i) =>
      if Topics[i].1 == BiasAtWork {
        assert i == 14;
        ContainsTransitive(ql, Topics[14].0, Topics[5].0);
        assert KeyOccurs(ql, 5);
        assert false;
      }
  }

  /** The bias-at-work answer text is held by no other topic, so `is_topic_found` never returns it. */
  lemma NeverBiasAtWorkAnswer(query: string)
    ensures IsTopicFound(query) != Some(BiasAtWorkAnswer)
  {
    NeverBiasAtWork(query);
    match FindTopic(query)
    case None =>
    case Some(t) => AnswerLengths(t);
  }

  lemma AnswerLengths(t: Topic)
    requires t != BiasAtWork
    ensures |Answer(t)| != |BiasAtWorkAnswer|
  {
  }

  /** What the Gemini client yields for a call: the response text, or the message of the exception it raised. */
  datatype Reply = Generated(text: string) | Raised(error: string)

  /** `ask_gemini(user_input)` of chatbot.py, with `backend` standing for `client.models.generate_content`. */
  function AskGemini(userInput: string, backend: string -> Reply): (r: Reply)
    ensures IsTopicFound(userInput).Some? ==> r == Generated(IsTopicFound(userInput).value)
    ensures IsTopicFound(userInput).None? && backend(userInput).Generated? ==>
      r == Generated(Strip(backend(userInput).text))
    ensures IsTopicFound(userInput).None? && backend(userInput).Raised? ==> r == backend(userInput)
  {
    var predefined := IsTopicFound(userInput);
    if predefined.Some? && predefined.value != "" then Generated(predefined.value)
    else
      match backend(userInput)
      case Generated(text) => Generated(Strip(text))
      case Raised(e) => Raised(e)
  }

  /** A matched topic short-circuits the model call: the backend makes no difference to the reply. */
  lemma TopicSkipsBackend(userInput: string, b1: string -> Reply, b2: string -> Reply)
    requires IsTopicFound(userInput).Some?
    ensures AskGemini(userInput, b1) == AskGemini(userInput, b2)
  {
  }

  /** The backend is consulted on the user input alone: two backends that agree on it give the same reply. */
  lemma BackendSeesOnlyInput(userInput: string, b1: string -> Reply, b2: string -> Reply)
    requires b1(userInput) == b2(userInput)
    ensures AskGemini(userInput, b1) == AskGemini(userInput, b2)
  {
  }

  /** A generated reply that bypassed the table is the backend text with its surrounding whitespace cut off. */
  lemma GeneratedReplyIsStripped(userInput: string, backend: string -> Reply)
    requires IsTopicFound(userInput).None? && backend(userInput).Generated?
    ensures var t, r := backend(userInput).text, AskGemini(userInput, backend).text;
      && r == t[StripOffset(t)..StripOffset(t) + |r|]
      && (r == [] || (!IsSpace(r[0]) && !IsSpace(r[|r| - 1])))
  {
    var t := backend(userInput).text;
    assert AskGemini(userInput, backend) == Generated(Strip(t));
    StripSpec(t);
  }
}
