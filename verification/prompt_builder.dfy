/** The deterministic prompt builder of src/utils/generatePrompt.js: the tone
    sentences, the keyword-based type detection and the ten fixed templates. */
module PromptBuilder {
  import opened Text

  /** The `{ system, prompt }` pair handed to the chat model. */
  datatype Prompt = Prompt(system: string, prompt: string)

  const FormalInstruction: string := "Use a professional, structured tone."
  const FriendlyInstruction: string := "Use a warm, approachable tone."
  const CreativeInstruction: string := "Use an imaginative, engaging tone."
  const TechnicalInstruction: string := "Use a detailed, precise tone."
  const CasualInstruction: string := "Use a relaxed, conversational tone."

  /** TONE_INSTRUCTIONS: one sentence per known tone. */
  const ToneInstructions: map<string, string> := map[
    "formal" := FormalInstruction,
    "friendly" := FriendlyInstruction,
    "creative" := CreativeInstruction,
    "technical" := TechnicalInstruction,
    "casual" := CasualInstruction
  ]

  /** `TONE_INSTRUCTIONS[tone] || TONE_INSTRUCTIONS.friendly`: a known tone gets its
      own sentence, any other string the friendly one. */
  function ToneInstruction(tone: string): (r: string)
    ensures tone in ToneInstructions ==> r == ToneInstructions[tone]
    ensures tone !in ToneInstructions ==> r == FriendlyInstruction
    ensures r in ToneInstructions.Values && r != []
  {
    if tone in ToneInstructions then ToneInstructions[tone] else ToneInstructions["friendly"]
  }

  const PresentationKeywords: seq<string> :=
    ["slide", "slides", "presentation", "townhall", "town hall", "meeting",
     "pitch", "deck", "powerpoint", "ppt", "speech", "address"]

  const HrKeywords: seq<string> :=
    ["hr", "human resources", "employee", "employees", "staff", "workforce",
     "recruitment", "hiring", "training", "performance"]

  /** detectPromptType: a presentation keyword anywhere in the lower-cased problem
      wins, then an HR keyword; otherwise the user's selection is kept as it is. */
  function DetectPromptType(problem: string, selectedType: string): (r: string)
    ensures AnyOccurs(Lower(problem), PresentationKeywords) ==> r == "presentation"
    ensures (!AnyOccurs(Lower(problem), PresentationKeywords) && AnyOccurs(Lower(problem), HrKeywords))
              ==> r == "hr"
    ensures (!AnyOccurs(Lower(problem), PresentationKeywords) && !AnyOccurs(Lower(problem), HrKeywords))
              ==> r == selectedType
  {
    var lowerProblem := Lower(problem);
    if ContainsAny(lowerProblem, PresentationKeywords) then "presentation"
    else if ContainsAny(lowerProblem, HrKeywords) then "hr"
    else selectedType
  }

  /** The cases of the template switch. */
  datatype Template = Email | Coding | Business | Content | Resume | Marketing | Ux | Presentation | Hr | General

  /** The type values the switch names, besides `general`. */
  const NamedTypes: set<string> :=
    {"email", "coding", "business", "content", "resume", "marketing", "ux", "presentation", "hr"}

  /** The case label that selects a template. */
  function TypeName(t: Template): string
  {
    match t
    case Email => "email"
    case Coding => "coding"
    case Business => "business"
    case Content => "content"
    case Resume => "resume"
    case Marketing => "marketing"
    case Ux => "ux"
    case Presentation => "presentation"
    case Hr => "hr"
    case General => "general"
  }

  /** `switch (detectedType)`: a named case selects its own template; `general` and
      every other string fall to the general one. */
  function TemplateFor(promptType: string): (t: Template)
    ensures t == General <==> promptType !in NamedTypes
    ensures promptType in NamedTypes || promptType == "general" ==> TypeName(t) == promptType
  {
    match promptType
    case "email" => Email
    case "coding" => Coding
    case "business" => Business
    case "content" => Content
    case "resume" => Resume
    case "marketing" => Marketing
    case "ux" => Ux
    case "presentation" => Presentation
    case "hr" => Hr
    case _ => General
  }

  /** Every template is reached from its own case label. */
  lemma TemplateForTypeName(t: Template)
    ensures TemplateFor(TypeName(t)) == t
  {
  }

  // case 'email'
  const EmailSystem: string := "You are an expert email writer."
  const EmailLead: string := "Write a professional email based on this request: "
  const EmailChecklist: string :=
    "Structure the email with:\n"
    + "- Appropriate greeting\n"
    + "- Clear subject line\n"
    + "- Main message body with all necessary details\n"
    + "- Professional closing\n"
    + "- Proper email etiquette\n"
    + "\n"
    + "Make it ready to send and include all relevant information the recipient needs."

  // case 'coding'
  const CodingSystem: string := "You are an expert software developer and coding instructor."
  const CodingLead: string := "Help solve this coding problem: "
  const CodingChecklist: string :=
    "Provide:\n"
    + "- Step-by-step solution approach\n"
    + "- Complete code examples with comments\n"
    + "- Explanation of the logic and algorithms used\n"
    + "- Best practices and optimization tips\n"
    + "- Error handling and edge cases\n"
    + "- Testing suggestions\n"
    + "\n"
    + "Make the solution clear, well-documented, and production-ready."

  // case 'business'
  const BusinessSystem: string := "You are a business strategy consultant and startup advisor."
  const BusinessLead: string := "Create a comprehensive business plan for: "
  const BusinessChecklist: string :=
    "Include:\n"
    + "- Executive summary\n"
    + "- Market analysis and target audience\n"
    + "- Competitive landscape\n"
    + "- Revenue model and pricing strategy\n"
    + "- Marketing and sales approach\n"
    + "- Operations plan\n"
    + "- Financial projections\n"
    + "- Risk assessment and mitigation\n"
    + "- Implementation timeline\n"
    + "\n"
    + "Make it actionable, realistic, and investor-ready."

  // case 'content'
  const ContentSystem: string := "You are a professional content creator and social media strategist."
  const ContentLead: string := "Create engaging content for: "
  const ContentChecklist: string :=
    "Develop:\n"
    + "- Compelling headline/title\n"
    + "- Structured content outline\n"
    + "- Engaging copy for the main content\n"
    + "- Call-to-action\n"
    + "- Content variations for different platforms\n"
    + "- SEO optimization suggestions\n"
    + "- Engagement strategies\n"
    + "\n"
    + "Make it shareable, engaging, and platform-optimized."

  // case 'resume'
  const ResumeSystem: string := "You are a professional resume writer and career coach."
  const ResumeLead: string := "Help optimize a resume for: "
  const ResumeChecklist: string :=
    "Focus on:\n"
    + "- Professional summary/objective\n"
    + "- Skills section optimization\n"
    + "- Achievement-focused bullet points\n"
    + "- Action verbs and quantifiable results\n"
    + "- ATS-friendly formatting\n"
    + "- Industry-specific keywords\n"
    + "- Cover letter suggestions\n"
    + "- Interview preparation tips\n"
    + "\n"
    + "Make it stand out to recruiters and pass ATS systems."

  // case 'marketing'
  const MarketingSystem: string := "You are a marketing copywriter and brand strategist."
  const MarketingLead: string := "Create compelling marketing materials for: "
  const MarketingChecklist: string :=
    "Develop:\n"
    + "- Attention-grabbing headlines\n"
    + "- Persuasive copy that converts\n"
    + "- Emotional triggers and benefits\n"
    + "- Call-to-action statements\n"
    + "- Multiple variations for A/B testing\n"
    + "- Brand voice consistency\n"
    + "- Target audience messaging\n"
    + "- Conversion optimization tips\n"
    + "\n"
    + "Make it persuasive, memorable, and conversion-focused."

  // case 'ux'
  const UxSystem: string := "You are a UX writer and user experience designer."
  const UxLead: string := "Design user-centered copy for: "
  const UxChecklist: string :=
    "Create:\n"
    + "- Clear, concise interface text\n"
    + "- User-friendly error messages\n"
    + "- Helpful microcopy and tooltips\n"
    + "- Accessible language for all users\n"
    + "- Consistent tone and voice\n"
    + "- User journey optimization\n"
    + "- Conversion-focused messaging\n"
    + "- Accessibility considerations\n"
    + "\n"
    + "Make it intuitive, helpful, and user-friendly."

  // case 'presentation'
  const PresentationSystem: string := "You are an expert presentation designer and corporate communications specialist."
  const PresentationLead: string := "Create a compelling presentation for: "
  const PresentationChecklist: string :=
    "Develop:\n"
    + "- Clear, engaging slide content\n"
    + "- Logical flow and structure\n"
    + "- Key talking points for each slide\n"
    + "- Visual suggestions and layout ideas\n"
    + "- Audience-appropriate messaging\n"
    + "- Call-to-action or next steps\n"
    + "- Speaker notes and delivery tips\n"
    + "- Time management recommendations\n"
    + "\n"
    + "Make it professional, engaging, and ready for delivery."

  // case 'hr'
  const HrSystem: string := "You are an HR specialist and employee communications expert."
  const HrLead: string := "Create HR-focused content for: "
  const HrChecklist: string :=
    "Develop:\n"
    + "- Employee-centered messaging\n"
    + "- Clear communication strategy\n"
    + "- Appropriate tone for internal audience\n"
    + "- Actionable information and next steps\n"
    + "- Compliance considerations\n"
    + "- Engagement and participation elements\n"
    + "- Follow-up and feedback mechanisms\n"
    + "- Cultural sensitivity and inclusivity\n"
    + "\n"
    + "Make it clear, engaging, and aligned with HR best practices."

  // case 'general'
  const GeneralSystem: string := "You are an expert problem-solver and consultant."
  const GeneralLead: string := "Provide comprehensive assistance with: "
  const GeneralChecklist: string :=
    "Deliver:\n"
    + "- Detailed problem analysis\n"
    + "- Multiple solution approaches\n"
    + "- Step-by-step implementation guide\n"
    + "- Practical examples and case studies\n"
    + "- Potential challenges and solutions\n"
    + "- Best practices and recommendations\n"
    + "- Resources for further learning\n"
    + "- Success metrics and evaluation\n"
    + "\n"
    + "Make it thorough, practical, and immediately actionable."

  /** The system role sentence of each template. */
  function SystemText(t: Template): string
  {
    match t
    case Email => EmailSystem
    case Coding => CodingSystem
    case Business => BusinessSystem
    case Content => ContentSystem
    case Resume => ResumeSystem
    case Marketing => MarketingSystem
    case Ux => UxSystem
    case Presentation => PresentationSystem
    case Hr => HrSystem
    case General => GeneralSystem
  }

  /** The opening of each user prompt, up to the quoted problem. */
  function Lead(t: Template): string
  {
    match t
    case Email => EmailLead
    case Coding => CodingLead
    case Business => BusinessLead
    case Content => ContentLead
    case Resume => ResumeLead
    case Marketing => MarketingLead
    case Ux => UxLead
    case Presentation => PresentationLead
    case Hr => HrLead
    case General => GeneralLead
  }

  /** The fixed checklist each user prompt ends with, after the tone line. */
  function Checklist(t: Template): string
  {
    match t
    case Email => EmailChecklist
    case Coding => CodingChecklist
    case Business => BusinessChecklist
    case Content => ContentChecklist
    case Resume => ResumeChecklist
    case Marketing => MarketingChecklist
    case Ux => UxChecklist
    case Presentation => PresentationChecklist
    case Hr => HrChecklist
    case General => GeneralChecklist
  }

  /** The template text before the problem: the lead and the opening quote. */
  function Opening(t: Template): string
  {
    Lead(t) + "\""
  }

  /** The template text after the problem: the closing quote, the tone sentence on
      its own line and the checklist. */
  function Closing(t: Template, instruction: string): string
  {
    "\".\n" + instruction + "\n" + Checklist(t)
  }

  /** One template filled in with the problem, verbatim, and the tone sentence. */
  function Render(t: Template, problem: string, instruction: string): (r: Prompt)
    ensures r.system == SystemText(t)
    ensures Between(Opening(t), Closing(t, instruction), r.prompt) == Some(problem)
  {
    BetweenFill(Opening(t), problem, Closing(t, instruction));
    Prompt(SystemText(t), Opening(t) + problem + Closing(t, instruction))
  }

  /** The fixed pair returned for a problem that is empty after trimming. */
  const GuardPrompt: Prompt :=
    Prompt("Please enter a description of what you need help with.",
           "Please describe your problem to generate a prompt.")

  /** generatePrompt: the guard for blank input, otherwise the template of the
      detected type filled in with the untrimmed problem and the tone sentence. */
  function GeneratePrompt(problem: string, promptType: string, tone: string): (r: Prompt)
    ensures IsBlank(problem) ==> r == GuardPrompt
    ensures !IsBlank(problem) ==>
              r == Render(TemplateFor(DetectPromptType(problem, promptType)), problem, ToneInstruction(tone))
  {
    TrimEmptyIffBlank(problem);
    if Trim(problem) == [] then GuardPrompt
    else
      var detectedType := DetectPromptType(problem, promptType);
      var baseInstructions := ToneInstruction(tone);
      Render(TemplateFor(detectedType), problem, baseInstructions)
  }

  /** Reads back the text between a known opening and a known closing. */
  function Between(open: string, close: string, text: string): (r: Option<string>)
    ensures r.Some? ==> open + r.value + close == text
  {
    if |open| + |close| <= |text| && text[..|open|] == open && text[|text| - |close|..] == close then
      var middle := text[|open|..|text| - |close|];
      assert text == open + middle + close;
      Some(middle)
    else None
  }

  /** Whatever is put between an opening and a closing is read back exactly. */
  lemma BetweenFill(open: string, middle: string, close: string)
    ensures Between(open, close, open + middle + close) == Some(middle)
  {
    var text := open + middle + close;
    assert text[..|open|] == open;
    assert text[|text| - |close|..] == close;
    assert text[|open|..|text| - |close|] == middle;
  }

  /** Reads the problem back out of a user prompt filled in from template `t`. */
  function ExtractProblem(t: Template, instruction: string, text: string): (r: Option<string>)
    ensures r.Some? ==> Render(t, r.value, instruction).prompt == text
  {
    Between(Opening(t), Closing(t, instruction), text)
  }

  /** The template a problem and a selected type resolve to. */
  function ResolvedTemplate(problem: string, promptType: string): Template
  {
    TemplateFor(DetectPromptType(problem, promptType))
  }

  /** Generating loses nothing: the untrimmed problem is read back exactly from the
      user prompt, given the resolved template and the tone. */
  lemma ExtractGenerated(problem: string, promptType: string, tone: string)
    requires !IsBlank(problem)
    ensures ExtractProblem(ResolvedTemplate(problem, promptType), ToneInstruction(tone),
                           GeneratePrompt(problem, promptType, tone).prompt) == Some(problem)
  {
    var t := ResolvedTemplate(problem, promptType);
    BetweenFill(Opening(t), problem, Closing(t, ToneInstruction(tone)));
  }

  /** Tells the template from its system sentence. */
  function TemplateOfSystem(system: string): (r: Option<Template>)
    ensures r.Some? ==> SystemText(r.value) == system
  {
    if system == EmailSystem then Some(Email)
    else if system == CodingSystem then Some(Coding)
    else if system == BusinessSystem then Some(Business)
    else if system == ContentSystem then Some(Content)
    else if system == ResumeSystem then Some(Resume)
    else if system == MarketingSystem then Some(Marketing)
    else if system == UxSystem then Some(Ux)
    else if system == PresentationSystem then Some(Presentation)
    else if system == HrSystem then Some(Hr)
    else if system == GeneralSystem then Some(General)
    else None
  }

  /** The system sentences are pairwise distinct and differ from the guard's, so the
      system text alone tells which template (or the guard) produced a pair. */
  lemma SystemIdentifiesTemplate(t: Template)
    ensures TemplateOfSystem(SystemText(t)) == Some(t)
    ensures TemplateOfSystem(GuardPrompt.system) == None
    ensures SystemText(t) != []
  {
    match t
    case Email =>
    case Coding =>
    case Business =>
    case Content =>
    case Resume =>
    case Marketing =>
    case Ux =>
    case Presentation =>
    case Hr =>
    case General =>
  }

  /** In a filled-in template the quoted problem and the tone line both occur. */
  lemma FilledTemplateShape(lead: string, problem: string, instruction: string, checklist: string)
    ensures var text := (lead + "\"") + problem + ("\".\n" + instruction + "\n" + checklist);
      Occurs(text, "\"" + problem + "\"") && Occurs(text, "\n" + instruction + "\n")
  {
    var text := (lead + "\"") + problem + ("\".\n" + instruction + "\n" + checklist);
    assert text == lead + ("\"" + problem + "\"") + (".\n" + instruction + "\n" + checklist);
    OccursIn(lead, "\"" + problem + "\"", ".\n" + instruction + "\n" + checklist);
    assert text == (lead + "\"" + problem + "\".") + ("\n" + instruction + "\n") + checklist;
    OccursIn(lead + "\"" + problem + "\".", "\n" + instruction + "\n", checklist);
  }

  /** For input that is not blank, the system text is non-empty and not the guard's,
      the user prompt holds the untrimmed problem in double quotes and the tone
      sentence as a line of its own. */
  lemma GeneratedPromptShape(problem: string, promptType: string, tone: string)
    requires !IsBlank(problem)
    ensures var r := GeneratePrompt(problem, promptType, tone);
      && r.system != [] && r.system != GuardPrompt.system
      && Occurs(r.prompt, "\"" + problem + "\"")
      && Occurs(r.prompt, "\n" + ToneInstruction(tone) + "\n")
  {
    var t := ResolvedTemplate(problem, promptType);
    SystemIdentifiesTemplate(t);
    FilledTemplateShape(Lead(t), problem, ToneInstruction(tone), Checklist(t));
  }

  /** The detection keywords are all in lower case. */
  lemma KeywordIsLowercase(keyword: string)
    requires keyword in PresentationKeywords || keyword in HrKeywords
    ensures Lower(keyword) == keyword
  {
    LowerOfLowercase(keyword);
  }

  /** A word written in any letter case inside any text occurs in the text's
      lower-case form as the word's lower-case form. */
  lemma WordOccursInLower(before: string, word: string, after: string)
    ensures Occurs(Lower(before + word + after), Lower(word))
  {
    LowerConcat(before + word, after);
    LowerConcat(before, word);
    OccursIn(Lower(before), Lower(word), Lower(after));
  }

  /** A presentation keyword anywhere, in any letter case, selects the presentation
      template whatever the user selected, even inside a longer word and even when
      an HR keyword occurs too. */
  lemma PresentationKeywordWins(before: string, word: string, after: string, selectedType: string)
    requires Lower(word) in PresentationKeywords
    ensures DetectPromptType(before + word + after, selectedType) == "presentation"
    ensures ResolvedTemplate(before + word + after, selectedType) == Presentation
  {
    WordOccursInLower(before, word, after);
    assert AnyOccurs(Lower(before + word + after), PresentationKeywords);
  }

  /** An HR keyword in any letter case selects the HR template when no
      presentation keyword occurs. */
  lemma HrKeywordWins(before: string, word: string, after: string, selectedType: string)
    requires Lower(word) in HrKeywords
    requires !AnyOccurs(Lower(before + word + after), PresentationKeywords)
    ensures DetectPromptType(before + word + after, selectedType) == "hr"
    ensures ResolvedTemplate(before + word + after, selectedType) == Hr
  {
    WordOccursInLower(before, word, after);
    assert AnyOccurs(Lower(before + word + after), HrKeywords);
  }

  /** Without any keyword the selection is used as it is: a named type selects its
      own template, and any type outside the nine named cases the general one. */
  lemma NoKeywordKeepsSelection(problem: string, promptType: string)
    requires !AnyOccurs(Lower(problem), PresentationKeywords) && !AnyOccurs(Lower(problem), HrKeywords)
    ensures promptType in NamedTypes ==> TypeName(ResolvedTemplate(problem, promptType)) == promptType
    ensures promptType !in NamedTypes ==> ResolvedTemplate(problem, promptType) == General
  {
  }
}
