/** The follow-up questions of src/components/EnhancedContextQuestions.jsx: which
    question sections a problem calls for, the answers typed into them, which sections
    are open, and the fixed suggestion lists. Icons and markup are not modelled. */
module ContextQuestions {
  import opened Text

  /** A free-text field with its placeholder, or a drop-down with its options. */
  datatype QuestionKind = TextInput(placeholder: string) | SelectInput(options: seq<string>)

  datatype Question = Question(id: string, question: string, kind: QuestionKind, required: bool)

  /** A collapsible group of questions. */
  datatype Section = Section(id: string, title: string, questions: seq<Question>)

  const LeaveDetailsId: string := "leave-details"
  const ProfessionalContextId: string := "professional-context"
  const LearningProfileId: string := "learning-profile"
  const TechnicalContextId: string := "technical-context"
  const ContentStrategyId: string := "content-strategy"
  const PublishingContextId: string := "publishing-context"

  /** The sections for a leave request. */
  const LeaveSections: seq<Section> := [
    Section(LeaveDetailsId, "Leave Details", [
      Question("duration", "How many days of leave do you need?",
               TextInput("e.g., 2 days, 1 week"), true),
      Question("reason", "What is the reason for your leave?",
               SelectInput(["Personal reasons", "Medical appointment", "Family event", "Vacation",
                            "Emergency", "Other"]), true),
      Question("urgency", "How urgent is this request?",
               SelectInput(["Immediate", "This week", "Next week", "Flexible"]), false),
      Question("manager", "Who is your direct manager?", TextInput("Manager name"), false),
      Question("coverage", "Do you need coverage arrangements?",
               SelectInput(["Yes, I'll arrange coverage", "No coverage needed", "Manager will handle"]),
               false)
    ]),
    Section(ProfessionalContextId, "Professional Context", [
      Question("department", "What department do you work in?",
               TextInput("e.g., Engineering, Marketing"), false),
      Question("company-size", "Company size?",
               SelectInput(["Startup (1-50)", "Small (51-200)", "Medium (201-1000)", "Large (1000+)"]),
               false),
      Question("work-remote", "Do you work remotely?", SelectInput(["Yes", "No", "Hybrid"]), false)
    ])
  ]

  /** The sections for a learning goal. */
  const LearningSections: seq<Section> := [
    Section(LearningProfileId, "Learning Profile", [
      Question("level", "What is your current skill level?",
               SelectInput(["Complete beginner", "Some experience", "Intermediate", "Advanced"]), true),
      Question("timeframe", "How much time can you dedicate per week?",
               SelectInput(["1-2 hours", "3-5 hours", "6-10 hours", "10+ hours"]), true),
      Question("goal", "What do you want to achieve?",
               TextInput("e.g., Build a mobile app, Get a job, Personal project"), true),
      Question("budget", "What is your learning budget?",
               SelectInput(["Free resources only", "Under $50", "$50-200", "$200+"]), false),
      Question("learning-style", "Preferred learning style?",
               SelectInput(["Video tutorials", "Reading documentation", "Hands-on projects",
                            "Interactive courses"]), false)
    ]),
    Section(TechnicalContextId, "Technical Context", [
      Question("experience", "Previous programming experience?",
               TextInput("e.g., Python, JavaScript, none"), false),
      Question("platform", "Target platform?",
               SelectInput(["Web", "Mobile", "Desktop", "All platforms"]), false),
      Question("deadline", "Any specific deadline?", TextInput("e.g., 3 months, no deadline"), false)
    ])
  ]

  /** The sections for a blog post. */
  const BlogSections: seq<Section> := [
    Section(ContentStrategyId, "Content Strategy", [
      Question("audience", "Who is your target audience?",
               TextInput("e.g., Beginners, Professionals, General public"), true),
      Question("length", "What length are you aiming for?",
               SelectInput(["Short (500-800 words)", "Medium (800-1500 words)", "Long (1500+ words)"]),
               true),
      Question("style", "What writing style do you prefer?",
               SelectInput(["Informative", "Conversational", "Technical", "Storytelling"]), true),
      Question("purpose", "What is the main purpose?",
               SelectInput(["Educate", "Entertain", "Persuade", "Inform"]), true),
      Question("keywords", "Any specific keywords to include?",
               TextInput("e.g., SEO keywords, important terms"), false)
    ]),
    Section(PublishingContextId, "Publishing Context", [
      Question("platform", "Where will this be published?",
               SelectInput(["Personal blog", "Company blog", "Medium", "LinkedIn", "Other"]), false),
      Question("expertise", "Your expertise level on this topic?",
               SelectInput(["Expert", "Intermediate", "Beginner", "Learning"]), false),
      Question("competitors", "Any competitor content to reference?",
               TextInput("e.g., specific articles or approaches"), false)
    ])
  ]

  /** The three triggers: the selected type names the family, or the lower-cased
      problem contains its word. */
  predicate LeaveTriggered(problem: string, kind: string)
  {
    kind == "leave" || Contains(Lower(problem), "leave")
  }

  predicate LearningTriggered(problem: string, kind: string)
  {
    kind == "learning" || Contains(Lower(problem), "learn")
  }

  predicate BlogTriggered(problem: string, kind: string)
  {
    kind == "blog" || Contains(Lower(problem), "blog")
  }

  /** The question list as a precedence rule: blog over learning over leave, and no
      questions when nothing triggers. */
  function SelectQuestions(problem: string, kind: string): (r: seq<Section>)
    ensures r == [] <==> (!LeaveTriggered(problem, kind) && !LearningTriggered(problem, kind)
                          && !BlogTriggered(problem, kind))
  {
    if BlogTriggered(problem, kind) then BlogSections
    else if LearningTriggered(problem, kind) then LearningSections
    else if LeaveTriggered(problem, kind) then LeaveSections
    else []
  }

  function SectionIds(sections: seq<Section>): (r: seq<string>)
    ensures |r| == |sections|
    ensures forall i :: 0 <= i < |sections| ==> r[i] == sections[i].id
  {
    if sections == [] then [] else [sections[0].id] + SectionIds(sections[1..])
  }

  /** A blog trigger wins over the other two, whatever else the problem says. */
  lemma BlogOverridesOthers(problem: string, kind: string)
    requires BlogTriggered(problem, kind)
    ensures SectionIds(SelectQuestions(problem, kind)) == [ContentStrategyId, PublishingContextId]
  {
  }

  /** Without a blog trigger, a learning trigger wins over a leave trigger. */
  lemma LearningOverridesLeave(problem: string, kind: string)
    requires !BlogTriggered(problem, kind) && LearningTriggered(problem, kind)
    ensures SectionIds(SelectQuestions(problem, kind)) == [LearningProfileId, TechnicalContextId]
  {
  }

  /** A leave request and nothing else gets exactly the leave-details and
      professional-context sections. */
  lemma LeaveOnlySections(problem: string, kind: string)
    requires LeaveTriggered(problem, kind)
    requires !LearningTriggered(problem, kind) && !BlogTriggered(problem, kind)
    ensures SectionIds(SelectQuestions(problem, kind)) == [LeaveDetailsId, ProfessionalContextId]
  {
  }

  /** The word matches in any letter case: a problem holding some spelling of
      `blog` ("Blog", "BLOG", ...) gets the blog sections whatever the type. */
  lemma BlogWordInAnyCase(before: string, word: string, after: string, kind: string)
    requires Lower(word) == "blog"
    ensures SelectQuestions(before + word + after, kind) == BlogSections
  {
    LowerConcat(before + word, after);
    LowerConcat(before, word);
    OccursIn(Lower(before), "blog", Lower(after));
  }

  /** The same for `learn`, which then wins unless a blog trigger is present. */
  lemma LearnWordInAnyCase(before: string, word: string, after: string, kind: string)
    requires Lower(word) == "learn"
    requires !BlogTriggered(before + word + after, kind)
    ensures SelectQuestions(before + word + after, kind) == LearningSections
  {
    LowerConcat(before + word, after);
    LowerConcat(before, word);
    OccursIn(Lower(before), "learn", Lower(after));
  }

  /** The keys of the suggestion table. */
  const SuggestionIds: set<string> := {"duration", "reason", "level", "audience"}

  /** generateSmartSuggestions: a fixed list for four question ids, none for the
      others; the value typed so far plays no part. */
  function SmartSuggestions(questionId: string, currentValue: string): (r: seq<string>)
    ensures r != [] <==> questionId in SuggestionIds
    ensures questionId == "duration" ==> r == ["2 days", "1 week", "2 weeks", "1 month"]
    ensures questionId == "reason"
            ==> r == ["Family wedding", "Medical procedure", "Mental health break", "Vacation"]
    ensures questionId == "level" ==> r == ["Complete beginner", "Some experience", "Intermediate"]
    ensures questionId == "audience"
            ==> r == ["Beginners", "Professionals", "Students", "General public"]
  {
    if questionId == "duration" then ["2 days", "1 week", "2 weeks", "1 month"]
    else if questionId == "reason" then ["Family wedding", "Medical procedure", "Mental health break", "Vacation"]
    else if questionId == "level" then ["Complete beginner", "Some experience", "Intermediate"]
    else if questionId == "audience" then ["Beginners", "Professionals", "Students", "General public"]
    else []
  }

  /** `answers[id] || ''`: what a field shows. */
  function AnswerShown(answers: map<string, string>, id: string): string
  {
    if id in answers then answers[id] else ""
  }

  /** The suggestion buttons under a question: only a free-text field with a
      non-empty answer shows them, and it shows the table's list for its id. */
  function SuggestionsShown(q: Question, answers: map<string, string>): (r: seq<string>)
    ensures r != [] ==> q.kind.TextInput? && AnswerShown(answers, q.id) != [] && q.id in SuggestionIds
    ensures q.kind.TextInput? && AnswerShown(answers, q.id) != []
            ==> r == SmartSuggestions(q.id, AnswerShown(answers, q.id))
  {
    if q.kind.TextInput? && AnswerShown(answers, q.id) != [] then SmartSuggestions(q.id, AnswerShown(answers, q.id))
    else []
  }

  /** The "reason" and "level" rows of the suggestion table never show: in every
      question list those two questions are drop-downs, and only free-text fields
      show suggestions. */
  lemma ReasonAndLevelSuggestionsNeverShown(problem: string, kind: string, section: Section, q: Question,
                                            answers: map<string, string>)
    requires section in SelectQuestions(problem, kind) && q in section.questions
    requires q.id == "reason" || q.id == "level"
    ensures SuggestionsShown(q, answers) == []
  {
  }

  /** `expandedSections[id]` is truthy: an absent entry counts as collapsed. */
  function IsOpen(expanded: map<string, bool>, id: string): bool
  {
    id in expanded && expanded[id]
  }

  /** The map after toggleSection(id). */
  function Toggled(expanded: map<string, bool>, id: string): (r: map<string, bool>)
    ensures IsOpen(r, id) == !IsOpen(expanded, id)
    ensures forall other :: other != id ==> IsOpen(r, other) == IsOpen(expanded, other)
    ensures r.Keys == expanded.Keys + {id}
  {
    expanded[id := !IsOpen(expanded, id)]
  }

  /** Toggling a section twice leaves every section as open as it was. */
  lemma ToggleTwice(expanded: map<string, bool>, id: string, other: string)
    ensures IsOpen(Toggled(Toggled(expanded, id), id), other) == IsOpen(expanded, other)
  {
  }

  /** The state of one EnhancedContextQuestions panel. */
  class ContextQuestionsPanel {
    var questions: seq<Section>
    var answers: map<string, string>
    var expanded: map<string, bool>

    /** The initial state: no questions, no answers, every section closed. */
    constructor ()
      ensures questions == [] && answers == map[] && expanded == map[]
    {
      questions := [];
      answers := map[];
      expanded := map[];
    }

    /** The panel renders nothing while it holds no questions. */
    predicate Renders()
      reads this
    {
      questions != []
    }

    /** generateEnhancedQuestions: each later trigger overwrites the list the earlier
        ones set, which gives the precedence of SelectQuestions. */
    method GenerateEnhancedQuestions(inputProblem: string, kind: string)
      modifies this
      ensures questions == SelectQuestions(inputProblem, kind)
      ensures answers == old(answers) && expanded == old(expanded)
      ensures Renders() <==> (LeaveTriggered(inputProblem, kind) || LearningTriggered(inputProblem, kind)
                             || BlogTriggered(inputProblem, kind))
    {
      var lowerProblem := Lower(inputProblem);
      var enhancedQuestions := [];
      if kind == "leave" || Contains(lowerProblem, "leave") {
        enhancedQuestions := LeaveSections;
      }
      if kind == "learning" || Contains(lowerProblem, "learn") {
        enhancedQuestions := LearningSections;
      }
      if kind == "blog" || Contains(lowerProblem, "blog") {
        enhancedQuestions := BlogSections;
      }
      questions := enhancedQuestions;
    }

    /** handleAnswerChange: records `value` under `questionId`, keeps every other
        answer, and returns the new map for the onAnswersChange callback. */
    method HandleAnswerChange(questionId: string, value: string) returns (newAnswers: map<string, string>)
      modifies this
      ensures newAnswers == answers
      ensures AnswerShown(answers, questionId) == value
      ensures forall id :: id != questionId ==> AnswerShown(answers, id) == AnswerShown(old(answers), id)
      ensures answers.Keys == old(answers.Keys) + {questionId}
      ensures questions == old(questions) && expanded == old(expanded)
    {
      newAnswers := answers[questionId := value];
      answers := newAnswers;
    }

    /** toggleSection */
    method ToggleSection(sectionId: string)
      modifies this
      ensures expanded == Toggled(old(expanded), sectionId)
      ensures questions == old(questions) && answers == old(answers)
    {
      expanded := expanded[sectionId := !(sectionId in expanded && expanded[sectionId])];
    }
  }
}
