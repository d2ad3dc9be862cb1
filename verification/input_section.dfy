/** The input form of src/components/InputSection.jsx: the problem text, the type
    and tone choices with their labels, and the submit handler that builds the prompt
    and the record handed to the history. */
module InputSection {
  import opened Text
  import opened PromptBuilder
  import opened History
  import opened RecentPrompts

  /** An entry of PROMPT_TYPES (the icon is not modelled). */
  datatype TypeOption = TypeOption(value: string, caption: string)

  const GeneralLabel: string := "General Help"

  const PromptTypes: seq<TypeOption> := [
    TypeOption("email", "Email Writing"),
    TypeOption("coding", "Coding Help"),
    TypeOption("business", "Business Plan"),
    TypeOption("content", "Content Creation"),
    TypeOption("resume", "Resume"),
    TypeOption("marketing", "Marketing Copy"),
    TypeOption("ux", "UX Writing"),
    TypeOption("presentation", "Presentations"),
    TypeOption("hr", "HR Communications"),
    TypeOption("general", GeneralLabel)
  ]

  /** An entry of TONE_OPTIONS. */
  datatype ToneOption = ToneOption(value: string, caption: string, description: string)

  const ToneOptions: seq<ToneOption> := [
    ToneOption("formal", "Formal", "Professional and structured"),
    ToneOption("friendly", "Friendly", "Warm and approachable"),
    ToneOption("creative", "Creative", "Imaginative and engaging"),
    ToneOption("technical", "Technical", "Detailed and precise"),
    ToneOption("casual", "Casual", "Relaxed and conversational")
  ]

  /** `types.find(t => t.value === value)`: the first entry with that value. */
  function FindType(types: seq<TypeOption>, value: string): (r: Option<nat>)
    ensures r.Some? ==> r.value < |types| && types[r.value].value == value
    ensures r.Some? ==> forall j :: 0 <= j < r.value ==> types[j].value != value
    ensures r.None? ==> forall j :: 0 <= j < |types| ==> types[j].value != value
  {
    if types == [] then None
    else if types[0].value == value then Some(0)
    else
      match FindType(types[1..], value)
      case None => None
      case Some(k) => Some(k + 1)
  }

  /** No two entries of PROMPT_TYPES share a value. */
  lemma PromptTypeValuesDistinct()
    ensures forall i, j :: 0 <= i < j < |PromptTypes| ==> PromptTypes[i].value != PromptTypes[j].value
  {
  }

  /** `PROMPT_TYPES.find(...)?.label || 'General Help'`: the label of the selected
      entry, or "General Help" for a value outside the list. */
  function TypeLabel(selectedType: string): (r: string)
    ensures forall i :: 0 <= i < |PromptTypes| && PromptTypes[i].value == selectedType
                        ==> r == PromptTypes[i].caption
    ensures (forall i :: 0 <= i < |PromptTypes| ==> PromptTypes[i].value != selectedType)
            ==> r == GeneralLabel
  {
    PromptTypeValuesDistinct();
    match FindType(PromptTypes, selectedType)
    case None => GeneralLabel
    case Some(k) => if PromptTypes[k].caption != [] then PromptTypes[k].caption else GeneralLabel
  }

  /** Every type the form offers has a template of its own: the values are the
      named cases of the template switch and `general`. */
  lemma OfferedTypesHaveTemplates()
    ensures forall i :: 0 <= i < |PromptTypes| ==> TypeName(TemplateFor(PromptTypes[i].value)) == PromptTypes[i].value
  {
  }

  /** Every tone the form offers has its own sentence. */
  lemma OfferedTonesAreKnown()
    ensures forall i :: 0 <= i < |ToneOptions| ==> ToneOptions[i].value in ToneInstructions
  {
  }

  /** The label of each tone option is its value with the first letter
      capitalised, which is how the recent-prompts list shows a stored tone. */
  lemma ToneCaptionsAreCapitalizedValues()
    ensures forall i :: 0 <= i < |ToneOptions| ==> Capitalized(ToneOptions[i].value) == ToneOptions[i].caption
  {
    forall i | 0 <= i < |ToneOptions|
      ensures Capitalized(ToneOptions[i].value) == ToneOptions[i].caption
    {
      var v := ToneOptions[i].value;
      assert Capitalized(v) == [UpperChar(v[0])] + v[1..];
    }
  }

  /** What handleSubmit hands to onGenerate: nothing for a problem that is blank
      after trimming or while a generation is running; otherwise the problem as
      typed, the label of the selected type, the tone and the generated pair. */
  function Submission(problem: string, selectedType: string, selectedTone: string, isGenerating: bool)
    : (r: Option<PromptData>)
    ensures r.None? <==> IsBlank(problem) || isGenerating
    ensures r.Some? ==> r.value.problem == problem && r.value.tone == selectedTone
                        && r.value.kind == Some(TypeLabel(selectedType))
    ensures r.Some? ==> Prompt(r.value.system, r.value.prompt) == GeneratePrompt(problem, selectedType, selectedTone)
  {
    TrimEmptyIffBlank(problem);
    if Trim(problem) != [] && !isGenerating then
      var generated := GeneratePrompt(problem, selectedType, selectedTone);
      Some(PromptData(problem, Some(TypeLabel(selectedType)), selectedTone, generated.system, generated.prompt))
    else None
  }

  /** The label records the user's choice, not the detected type: with type
      `general` and a presentation keyword, in any letter case, in the problem the
      record says "General Help" while its prompt comes from the presentation
      template. */
  lemma LabelIgnoresDetection(before: string, word: string, after: string, tone: string)
    requires Lower(word) in PresentationKeywords
    requires !IsBlank(before + word + after)
    ensures var r := Submission(before + word + after, "general", tone, false);
            r.Some? && r.value.kind == Some(GeneralLabel) && r.value.system == SystemText(Presentation)
  {
    PresentationKeywordWins(before, word, after, "general");
    GeneralTypeLabel();
  }

  lemma GeneralTypeLabel()
    ensures TypeLabel("general") == GeneralLabel
  {
    assert PromptTypes[9].value == "general";
  }

  /** The component state of InputSection. */
  class InputForm {
    var problem: string
    var selectedType: string
    var selectedTone: string

    /** An empty problem, type `general` and tone `friendly`. */
    constructor ()
      ensures problem == "" && selectedType == "general" && selectedTone == "friendly"
    {
      problem := "";
      selectedType := "general";
      selectedTone := "friendly";
    }

    /** The textarea's onChange. */
    method SetProblem(text: string)
      modifies this
      ensures problem == text && selectedType == old(selectedType) && selectedTone == old(selectedTone)
    {
      problem := text;
    }

    /** handleTypeSelect */
    method HandleTypeSelect(kind: string)
      modifies this
      ensures selectedType == kind && problem == old(problem) && selectedTone == old(selectedTone)
    {
      selectedType := kind;
    }

    /** handleToneSelect */
    method HandleToneSelect(tone: string)
      modifies this
      ensures selectedTone == tone && problem == old(problem) && selectedType == old(selectedType)
    {
      selectedTone := tone;
    }

    /** handleSubmit: `generated` is what reaches onGenerate, if anything. */
    method HandleSubmit(isGenerating: bool) returns (generated: Option<PromptData>)
      ensures generated == Submission(problem, selectedType, selectedTone, isGenerating)
    {
      if Trim(problem) != [] && !isGenerating {
        var pair := GeneratePrompt(problem, selectedType, selectedTone);
        var found := FindType(PromptTypes, selectedType);
        var caption := match found
          case Some(k) => if PromptTypes[k].caption != [] then PromptTypes[k].caption else GeneralLabel
          case None => GeneralLabel;
        generated := Some(PromptData(problem, Some(caption), selectedTone, pair.system, pair.prompt));
      } else {
        generated := None;
      }
    }
  }
}
