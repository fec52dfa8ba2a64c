/** The small decision rules of the editor component
    (`src/views/main/App.tsx`, and the earlier `App.tsx`): when the verdict is
    recomputed, when loading a template asks first, how a converted CLI
    fragment is merged, which language a file name selects, and what a
    change notification from the editor widget does. */
module EditorRules {

  import opened Wrappers
  import opened Text
  import opened Types
  import opened Constants
  import YamlService

  /** The `language` state cell: `'yaml' | 'dockerfile'`. */
  datatype Language = Yaml | Dockerfile

  /** The state cells the rules read and write. */
  datatype EditorState = EditorState(code: string, language: Language, validation: ValidationResult)

  /** `updateCode`: sets the text and, in YAML mode only, recomputes the
      verdict at once; in Dockerfile mode the verdict is left as it was. */
  function UpdateCode(s: EditorState, newCode: string, load: string -> YamlService.LoadOutcome): EditorState {
    EditorState(
      newCode,
      s.language,
      if s.language == Yaml then YamlService.ValidateYaml(newCode, load) else s.validation)
  }

  /** The verdict the debounced change effect sets: the validator's in YAML
      mode, `{ isValid: true }` otherwise. */
  function SettledValidation(language: Language, code: string, load: string -> YamlService.LoadOutcome): ValidationResult {
    if language == Yaml then YamlService.ValidateYaml(code, load) else VALID
  }

  /** Only YAML text is ever validated: in Dockerfile mode the settled verdict
      is always valid and an edit keeps the previous verdict; in YAML mode
      both are the validator's verdict on the new text. */
  lemma ValidateOnlyInYamlMode(s: EditorState, newCode: string, load: string -> YamlService.LoadOutcome)
    ensures s.language == Dockerfile ==>
      SettledValidation(s.language, newCode, load) == VALID && UpdateCode(s, newCode, load).validation == s.validation
    ensures s.language == Yaml ==>
      && SettledValidation(s.language, newCode, load) == YamlService.ValidateYaml(newCode, load)
      && UpdateCode(s, newCode, load).validation == YamlService.ValidateYaml(newCode, load)
    ensures UpdateCode(s, newCode, load).code == newCode && UpdateCode(s, newCode, load).language == s.language
  {
  }

  // ---------------------------------------------------------------------
  // Templates

  /** Loading a template over the current text asks first unless the text is
      blank or still the initial document. */
  predicate NeedsConfirmation(code: string) {
    Trim(code) != "" && code != INITIAL_CONTENT
  }

  /** `handleTemplateSelect`: declined, nothing changes; otherwise the
      template's text replaces the document and the language becomes YAML.
      `updateCode` runs with the language of the moment of the click, so a
      switch from Dockerfile mode leaves the immediate verdict untouched. */
  function SelectTemplate(s: EditorState, template: Template, confirmed: bool, load: string -> YamlService.LoadOutcome): EditorState {
    if NeedsConfirmation(s.code) && !confirmed then s
    else UpdateCode(s, template.content, load).(language := Yaml)
  }

  /** The earlier copy's `handleTemplateSelect`: the same question, and only
      the text is set. */
  function SelectTemplateEarlier(code: string, template: Template, confirmed: bool): string {
    if NeedsConfirmation(code) && !confirmed then code else template.content
  }

  /** The question is asked iff the text has a non-whitespace character and
      differs from the initial document; declining keeps everything, and
      otherwise the template's text is loaded in YAML mode. */
  lemma TemplateConfirmation(s: EditorState, template: Template, confirmed: bool, load: string -> YamlService.LoadOutcome)
    ensures NeedsConfirmation(s.code) <==> !AllSpace(s.code) && s.code != INITIAL_CONTENT
    ensures NeedsConfirmation(s.code) && !confirmed ==>
      SelectTemplate(s, template, confirmed, load) == s && SelectTemplateEarlier(s.code, template, confirmed) == s.code
    ensures !NeedsConfirmation(s.code) || confirmed ==>
      && SelectTemplate(s, template, confirmed, load).code == template.content
      && SelectTemplate(s, template, confirmed, load).language == Yaml
      && SelectTemplateEarlier(s.code, template, confirmed) == template.content
  {
  }

  /** Blank text and the untouched initial document are replaced without a
      question, whatever the answer would have been. */
  lemma NoQuestionForBlankOrInitial(code: string)
    requires AllSpace(code) || code == INITIAL_CONTENT
    ensures !NeedsConfirmation(code)
  {
  }

  // ---------------------------------------------------------------------
  // CLI import

  /** Where a converted fragment goes in YAML mode: after the text with its
      trailing whitespace dropped when the text already has "services:",
      after the whole text otherwise, always on a new line. */
  function MergeFragment(code: string, fragment: string): string {
    if Includes(code, "services:") then TrimEnd(code) + "\n" + fragment
    else code + "\n" + fragment
  }

  /** The merge keeps the text (less trailing whitespace, and only that, when
      it has "services:"), then a line break, then the whole fragment. */
  lemma MergeFragmentShape(code: string, fragment: string)
    ensures var merged := MergeFragment(code, fragment);
      exists keep | 0 <= keep <= |code| ::
        && merged == code[..keep] + "\n" + fragment
        && AllSpace(code[keep..])
        && (!Includes(code, "services:") ==> keep == |code|)
        && (keep == 0 || !IsSpace(code[keep - 1]) || !Includes(code, "services:"))
  {
    var t := TrimEnd(code);
    if Includes(code, "services:") {
      assert MergeFragment(code, fragment) == code[..|t|] + "\n" + fragment;
    } else {
      assert code[..|code|] == code;
      assert MergeFragment(code, fragment) == code[..|code|] + "\n" + fragment;
    }
  }

  /** `handleCliConvert` once the conversion has produced `fragment`: in
      Dockerfile mode the fragment replaces the text and the language becomes
      YAML if the user agrees, and nothing changes if not; in YAML mode the
      fragment is merged into the text. */
  function CliConvert(s: EditorState, fragment: string, confirmed: bool, load: string -> YamlService.LoadOutcome): EditorState {
    if s.language == Dockerfile then
      if confirmed then UpdateCode(s, fragment, load).(language := Yaml) else s
    else UpdateCode(s, MergeFragment(s.code, fragment), load)
  }

  /** The three outcomes of a CLI import. */
  lemma CliConvertOutcomes(s: EditorState, fragment: string, confirmed: bool, load: string -> YamlService.LoadOutcome)
    ensures s.language == Dockerfile && !confirmed ==> CliConvert(s, fragment, confirmed, load) == s
    ensures s.language == Dockerfile && confirmed ==>
      CliConvert(s, fragment, confirmed, load).code == fragment && CliConvert(s, fragment, confirmed, load).language == Yaml
    ensures s.language == Yaml ==>
      && CliConvert(s, fragment, confirmed, load).language == Yaml
      && EndsWith(CliConvert(s, fragment, confirmed, load).code, "\n" + fragment)
      && StartsWith(CliConvert(s, fragment, confirmed, load).code, TrimEnd(s.code))
  {
    if s.language == Yaml {
      var merged := MergeFragment(s.code, fragment);
      var t := TrimEnd(s.code);
      var base := if Includes(s.code, "services:") then t else s.code;
      assert merged == base + ("\n" + fragment);
      assert merged[|merged| - |"\n" + fragment|..] == "\n" + fragment;
      assert t <= base;
    }
  }

  // ---------------------------------------------------------------------
  // Opening a file, formatting, change notifications

  /** `handleFileChange`: a file whose lower-cased name contains "dockerfile"
      opens in Dockerfile mode, every other file in YAML mode. */
  function DetectLanguage(fileName: string): Language {
    if Includes(ToLower(fileName), "dockerfile") then Dockerfile else Yaml
  }

  /** The detection does not depend on the letter case of the name. */
  lemma DetectLanguageIgnoresCase(fileName: string)
    ensures DetectLanguage(ToLower(fileName)) == DetectLanguage(fileName)
  {
    ToLowerIdempotent(fileName);
  }

  /** "Dockerfile" and "api.DOCKERFILE" select Dockerfile mode;
      "docker-compose.yml" selects YAML. */
  lemma DetectLanguageExamples()
    ensures DetectLanguage("Dockerfile") == Dockerfile
    ensures DetectLanguage("api.DOCKERFILE") == Dockerfile
    ensures DetectLanguage("docker-compose.yml") == Yaml
  {
    PlainNameIsDockerfile();
    UpperCaseSuffixIsDockerfile();
    ComposeNameIsYaml();
  }

  lemma PlainNameIsDockerfile()
    ensures Includes(ToLower("Dockerfile"), "dockerfile")
  {
    assert ToLower("Dockerfile") == "dockerfile";
    assert OccursAt(ToLower("Dockerfile"), "dockerfile", 0);
  }

  lemma UpperCaseSuffixIsDockerfile()
    ensures Includes(ToLower("api.DOCKERFILE"), "dockerfile")
  {
    assert ToLower("api.DOCKERFILE") == "api.dockerfile";
    assert OccursAt(ToLower("api.DOCKERFILE"), "dockerfile", 4);
  }

  lemma ComposeNameIsYaml()
    ensures !Includes(ToLower("docker-compose.yml"), "dockerfile")
  {
    var n := ToLower("docker-compose.yml");
    assert n == "docker-compose.yml";
    forall i | 0 <= i <= |n| - 10 ensures !OccursAt(n, "dockerfile", i) {
      assert n[i..i + 10][6] == n[i + 6] != 'f';
    }
  }

  /** `handleFileChange` once the reader has produced `content`: the
      language follows the file name, and a non-empty content goes through
      `updateCode`, which still sees the language of before the file was
      picked; an empty file leaves the text and the verdict as they were. */
  function OpenFile(s: EditorState, fileName: string, content: string, load: string -> YamlService.LoadOutcome): EditorState {
    var t := if content != "" then UpdateCode(s, content, load) else s;
    t.(language := DetectLanguage(fileName))
  }

  /** Opening a file: the language comes from the name alone; the text is
      the file's unless it is empty; the verdict is recomputed only when the
      editor was in YAML mode before the file was opened. */
  lemma OpenFileOutcomes(s: EditorState, fileName: string, content: string, load: string -> YamlService.LoadOutcome)
    ensures OpenFile(s, fileName, content, load).language == (if Includes(ToLower(fileName), "dockerfile") then Dockerfile else Yaml)
    ensures content == "" ==> OpenFile(s, fileName, content, load) == s.(language := DetectLanguage(fileName))
    ensures content != "" ==> OpenFile(s, fileName, content, load).code == content
    ensures content != "" && s.language == Yaml ==>
      OpenFile(s, fileName, content, load).validation == YamlService.ValidateYaml(content, load)
    ensures s.language == Dockerfile ==> OpenFile(s, fileName, content, load).validation == s.validation
  {
  }

  /** `handleFixError` asks for a repair only when the verdict carries an
      error message. */
  predicate FixRequested(v: ValidationResult) {
    v.error.Some? && v.error.value != ""
  }

  /** Every verdict of the validator carries a non-empty message exactly when
      it is invalid, so a repair is offered for every invalid text and for no
      valid one. */
  lemma FixRequestedIffInvalid(content: string, load: string -> YamlService.LoadOutcome)
    ensures FixRequested(YamlService.ValidateYaml(content, load)) <==> !YamlService.ValidateYaml(content, load).isValid
  {
    var r := YamlService.ValidateYaml(content, load);
    if !AllSpace(content) && load(content).Loaded? {
      YamlService.StructureMessageKinds(load(content).doc);
      assert r == YamlService.ValidateStructure(load(content).doc);
    }
  }

  /** `handleFormat`: in YAML mode the formatted text goes through
      `updateCode`; in Dockerfile mode nothing happens. */
  function HandleFormat(s: EditorState, load: string -> YamlService.LoadOutcome, dump: YamlService.Node -> Option<string>): EditorState {
    if s.language == Yaml then UpdateCode(s, YamlService.FormatYaml(s.code, load, dump), load) else s
  }

  /** Formatting never touches a Dockerfile, and never loses YAML text that
      does not load. */
  lemma FormatIsSafe(s: EditorState, load: string -> YamlService.LoadOutcome, dump: YamlService.Node -> Option<string>)
    ensures s.language == Dockerfile ==> HandleFormat(s, load, dump) == s
    ensures load(s.code).Threw? ==> HandleFormat(s, load, dump).code == s.code
  {
  }

  /** The earlier copy's `handleCodeChange`: an `undefined` value from the
      widget leaves the text alone, any defined value replaces it. */
  function HandleCodeChange(code: string, value: Option<string>): (r: string)
    ensures value.None? ==> r == code
    ensures value.Some? ==> r == value.value
  {
    match value
    case None => code
    case Some(v) => v
  }

}
