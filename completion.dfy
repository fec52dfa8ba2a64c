/** The completion providers registered with the editor widget: the YAML
    provider's classification of the line before the cursor and the
    suggestions it returns, and the Dockerfile provider.  The two copies of
    the YAML provider (`src/views/main/App.tsx` and the earlier `App.tsx`) are
    the same code and are modelled once. */
module Completion {

  import opened Wrappers
  import opened Text
  import opened Constants
  import YamlService

  /** Which vocabulary applies at the cursor. */
  datatype Context = ImageValue | IndentedKey | RootKey | NoContext

  /** `/image:\s*$/`: "image:" somewhere (the pattern is not anchored on the
      left) followed by nothing but whitespace up to the cursor. */
  predicate ImageColonAtEnd(line: string) {
    exists i | 0 <= i <= |line| - 6 :: OccursAt(line, "image:", i) && AllSpace(line[i + 6..])
  }

  /** `/^\s+[\w-]*$/`: one or more whitespace characters, then only word
      characters and hyphens. */
  predicate IndentedKeyLine(line: string) {
    exists k | 1 <= k <= |line| :: AllSpace(line[..k]) && AllKeyChars(line[k..])
  }

  /** `/^[\w-]*$/`: only word characters and hyphens, possibly none. */
  predicate RootKeyLine(line: string) {
    AllKeyChars(line)
  }

  /** The first test of the provider: the regular expression, or "image:"
      present while the trimmed line does not end in a colon. */
  predicate ImageTrigger(line: string) {
    ImageColonAtEnd(line) || (Includes(line, "image:") && !EndsWith(Trim(line), ":"))
  }

  /** The provider's if / else-if chain over the text of the cursor's line up
      to the cursor: first match wins. */
  function Classify(line: string): Context {
    if ImageTrigger(line) then ImageValue
    else if IndentedKeyLine(line) then IndentedKey
    else if RootKeyLine(line) then RootKey
    else NoContext
  }

  // ---------------------------------------------------------------------
  // Suggestions

  /** `monaco.languages.CompletionItemKind` values the providers use. */
  datatype Kind = Value | Property | Keyword

  datatype Position = Position(lineNumber: int, column: int)

  /** What the widget's `getWordUntilPosition` reports. */
  datatype Word = Word(word: string, startColumn: int, endColumn: int)

  datatype Range = Range(startLineNumber: int, endLineNumber: int, startColumn: int, endColumn: int)

  datatype Suggestion = Suggestion(
    caption: string,     // the item's `label` (a reserved word in Dafny)
    kind: Kind,
    insertText: string,
    range: Range,
    detail: Option<string>,
    documentation: Option<string>)

  /** The range a suggestion replaces: the word at the cursor, or an empty
      range at the cursor when there is none. */
  function ReplacementRange(position: Position, word: Option<Word>): Range {
    match word
    case Some(w) => Range(position.lineNumber, position.lineNumber, w.startColumn, w.endColumn)
    case None => Range(position.lineNumber, position.lineNumber, position.column, position.column)
  }

  function ImageSuggestions(range: Range): seq<Suggestion> {
    seq(|COMMON_IMAGES|, i requires 0 <= i < |COMMON_IMAGES| =>
      Suggestion(COMMON_IMAGES[i], Value, COMMON_IMAGES[i], range, Some("Docker Image"), None))
  }

  function ServiceKeySuggestions(range: Range): seq<Suggestion> {
    seq(|DOCKER_SERVICE_KEYS|, i requires 0 <= i < |DOCKER_SERVICE_KEYS| =>
      Suggestion(DOCKER_SERVICE_KEYS[i], Property, DOCKER_SERVICE_KEYS[i] + ": ", range,
                 None, Some("Service configuration: " + DOCKER_SERVICE_KEYS[i])))
  }

  function RootKeySuggestions(range: Range): seq<Suggestion> {
    seq(|DOCKER_ROOT_KEYS|, i requires 0 <= i < |DOCKER_ROOT_KEYS| =>
      Suggestion(DOCKER_ROOT_KEYS[i], Keyword, DOCKER_ROOT_KEYS[i] + ": ", range,
                 None, Some("Root property: " + DOCKER_ROOT_KEYS[i])))
  }

  /** `provideCompletionItems` of the YAML provider: the whole vocabulary of
      the classified context, in declaration order and unfiltered; keys carry
      ": " so that the value can be typed at once. */
  function ProvideYamlCompletions(line: string, position: Position, word: Option<Word>): (r: seq<Suggestion>)
    ensures Classify(line) == ImageValue ==>
      && |r| == |COMMON_IMAGES|
      && forall i | 0 <= i < |r| :: r[i].caption == COMMON_IMAGES[i] && r[i].insertText == COMMON_IMAGES[i] && r[i].kind == Value
    ensures Classify(line) == IndentedKey ==>
      && |r| == |DOCKER_SERVICE_KEYS|
      && forall i | 0 <= i < |r| ::
           r[i].caption == DOCKER_SERVICE_KEYS[i] && r[i].insertText == DOCKER_SERVICE_KEYS[i] + ": " && r[i].kind == Property
    ensures Classify(line) == RootKey ==>
      && |r| == |DOCKER_ROOT_KEYS|
      && forall i | 0 <= i < |r| ::
           r[i].caption == DOCKER_ROOT_KEYS[i] && r[i].insertText == DOCKER_ROOT_KEYS[i] + ": " && r[i].kind == Keyword
    ensures Classify(line) == NoContext ==> r == []
    ensures forall s | s in r ::
      && s.range.startLineNumber == s.range.endLineNumber == position.lineNumber
      && (word.None? ==> s.range.startColumn == s.range.endColumn == position.column)
      && (word.Some? ==> s.range.startColumn == word.value.startColumn && s.range.endColumn == word.value.endColumn)
  {
    var range := ReplacementRange(position, word);
    match Classify(line)
    case ImageValue => ImageSuggestions(range)
    case IndentedKey => ServiceKeySuggestions(range)
    case RootKey => RootKeySuggestions(range)
    case NoContext => []
  }

  /** `provideCompletionItems` of the Dockerfile provider: every instruction,
      in order, followed by a space, replacing the word at the cursor. */
  function ProvideDockerfileCompletions(instructions: seq<string>, position: Position, word: Word): (r: seq<Suggestion>)
    ensures |r| == |instructions|
    ensures forall i | 0 <= i < |r| ::
      && r[i].caption == instructions[i]
      && r[i].insertText == instructions[i] + " "
      && r[i].kind == Keyword
      && r[i].range == Range(position.lineNumber, position.lineNumber, word.startColumn, word.endColumn)
  {
    seq(|instructions|, i requires 0 <= i < |instructions| =>
      Suggestion(instructions[i], Keyword, instructions[i] + " ",
                 Range(position.lineNumber, position.lineNumber, word.startColumn, word.endColumn),
                 Some("Dockerfile Instruction"), None))
  }

  // ---------------------------------------------------------------------
  // Properties of the classifier and the providers

  /** `/image:\s*$/` matches iff the line, once its trailing whitespace is
      dropped, ends in "image:". */
  lemma ImageColonAtEndIff(line: string)
    ensures ImageColonAtEnd(line) <==> EndsWith(TrimEnd(line), "image:")
  {
    if EndsWith(TrimEnd(line), "image:") {
      TrimmedImageColonMatches(line);
    }
    if ImageColonAtEnd(line) {
      var i :| 0 <= i <= |line| - 6 && OccursAt(line, "image:", i) && AllSpace(line[i + 6..]);
      MatchEndsTrimmedLine(line, i);
    }
  }

  /** Trailing "image:" after trimming: the pattern matches there. */
  lemma TrimmedImageColonMatches(line: string)
    requires EndsWith(TrimEnd(line), "image:")
    ensures ImageColonAtEnd(line)
  {
    var t := TrimEnd(line);
    var i := |t| - 6;
    assert line[i..i + 6] == t[i..i + 6];
    assert line[i + 6..] == line[|t|..];
    assert OccursAt(line, "image:", i) && AllSpace(line[i + 6..]);
  }

  /** Where the pattern matches at `i`, trimming the trailing whitespace
      leaves exactly the text up to and including that "image:". */
  lemma MatchEndsTrimmedLine(line: string, i: int)
    requires 0 <= i <= |line| - 6 && OccursAt(line, "image:", i) && AllSpace(line[i + 6..])
    ensures EndsWith(TrimEnd(line), "image:")
  {
    var r, w := line[..i + 6], line[i + 6..];
    assert r[i + 5] == line[i..i + 6][5] == ':';
    assert r + w == line;
    TrimEndBeforeSpaces(r, w);
    assert r[i..] == line[i..i + 6];
  }

  /** `/^\s+[\w-]*$/` matches iff the line starts with whitespace and what
      follows the leading whitespace is word characters and hyphens only. */
  lemma IndentedKeyLineIff(line: string)
    ensures IndentedKeyLine(line) <==> |line| > 0 && IsSpace(line[0]) && AllKeyChars(TrimStart(line))
  {
    if |line| > 0 && IsSpace(line[0]) && AllKeyChars(TrimStart(line)) {
      IndentThenKeyMatches(line);
    }
    if IndentedKeyLine(line) {
      IndentedKeyLineSplit(line);
    }
  }

  /** Leading whitespace followed by key characters only: the pattern
      matches, its whitespace part being what `trimStart` drops. */
  lemma IndentThenKeyMatches(line: string)
    requires |line| > 0 && IsSpace(line[0]) && AllKeyChars(TrimStart(line))
    ensures IndentedKeyLine(line)
  {
    var t := TrimStart(line);
    assert t == TrimStart(line[1..]);
    var k := |line| - |t|;
    assert line[k..] == t;
    assert AllSpace(line[..k]) && AllKeyChars(line[k..]);
  }

  /** Where `/^\s+[\w-]*$/` matches, its whitespace part is exactly the
      leading whitespace that `trimStart` drops. */
  lemma IndentedKeyLineSplit(line: string)
    requires IndentedKeyLine(line)
    ensures |line| > 0 && IsSpace(line[0]) && AllKeyChars(TrimStart(line))
  {
    var j :| 1 <= j <= |line| && AllSpace(line[..j]) && AllKeyChars(line[j..]);
    IndentSplitAt(line, j);
  }

  /** Splitting an indented-key line at the end of its whitespace part. */
  lemma IndentSplitAt(line: string, j: int)
    requires 1 <= j <= |line| && AllSpace(line[..j]) && AllKeyChars(line[j..])
    ensures IsSpace(line[0]) && TrimStart(line) == line[j..]
  {
    var w, r := line[..j], line[j..];
    assert w[0] == line[0];
    if r != [] {
      assert IsKeyChar(r[0]);
      KeyCharIsNotSpace();
    }
    assert w + r == line;
    TrimStartAfterSpaces(w, r);
  }

  /** The indented-key and root-key patterns never both match a line, so
      their order in the chain matters only for the image test. */
  lemma KeyPatternsDisjoint(line: string)
    ensures !(IndentedKeyLine(line) && RootKeyLine(line))
  {
    if IndentedKeyLine(line) {
      var k :| 1 <= k <= |line| && AllSpace(line[..k]) && AllKeyChars(line[k..]);
      assert IsSpace(line[..k][0]);
      if RootKeyLine(line) {
        KeyCharIsNotSpace();
      }
    }
  }

  /** Image suggestions are offered only on a line that contains "image:". */
  lemma ImagesNeedImageColon(line: string)
    requires Classify(line) == ImageValue
    ensures Includes(line, "image:")
  {
  }

  /** Because the image pattern is not anchored, any text ending in "image:"
      (such as "myimage:" or "  base_image:") gives image suggestions. */
  lemma UnanchoredImageTest(prefix: string, spaces: string)
    requires AllSpace(spaces)
    ensures Classify(prefix + "image:" + spaces) == ImageValue
  {
    var line := prefix + "image:" + spaces;
    assert line[|prefix|..|prefix| + 6] == "image:";
    assert line[|prefix| + 6..] == spaces;
    assert OccursAt(line, "image:", |prefix|);
  }

  /** A line that contains "image:" but whose trimmed text ends in a colon
      that is not the one of "image:" (such as "image: foo:") gets no
      suggestions at all: the colon also rules out both key patterns. */
  lemma ImageThenColonGetsNothing(line: string)
    requires Includes(line, "image:") && EndsWith(Trim(line), ":") && !ImageColonAtEnd(line)
    ensures Classify(line) == NoContext
  {
    ImageKeyRulesOutKeys(line);
  }

  /** The colon of "image:" rules out both key patterns. */
  lemma ImageKeyRulesOutKeys(line: string)
    requires Includes(line, "image:")
    ensures !IndentedKeyLine(line) && !RootKeyLine(line)
  {
    var i :| 0 <= i <= |line| - 6 && OccursAt(line, "image:", i);
    assert line[i..i + 6][5] == ':';
    ColonRulesOutKeys(line, i + 5);
  }

  /** A colon anywhere before the cursor rules out both key patterns. */
  lemma ColonRulesOutKeys(line: string, p: int)
    requires 0 <= p < |line| && line[p] == ':'
    ensures !IndentedKeyLine(line) && !RootKeyLine(line)
  {
    forall k | 1 <= k <= |line| ensures !(AllSpace(line[..k]) && AllKeyChars(line[k..])) {
      if p < k {
        assert line[..k][p] == ':';
      } else {
        assert line[k..][p - k] == ':';
      }
    }
  }

  /** A line that contains "image:" and ends in a character that is neither
      whitespace nor a colon asks for image tags. */
  lemma ImageColonThenValue(line: string)
    requires Includes(line, "image:")
    requires |line| > 0 && !IsSpace(line[|line| - 1]) && line[|line| - 1] != ':'
    ensures Classify(line) == ImageValue
  {
    TrimKeepsLastNonSpace(line);
  }

  /** The empty prefix (cursor in column 1) gets the root keys, since
      `[\w-]*` matches the empty string. */
  lemma EmptyPrefixGetsRootKeys()
    ensures Classify("") == RootKey
  {
  }

  /** A line of whitespace only (at least one character) gets the service keys. */
  lemma BlankIndentGetsServiceKeys(indent: string)
    requires |indent| > 0 && AllSpace(indent)
    ensures Classify(indent) == IndentedKey
  {
    assert AllSpace(indent[..|indent|]) && AllKeyChars(indent[|indent|..]);
    assert !Includes(indent, "image:") by {
      forall i | 0 <= i <= |indent| - 6 ensures !OccursAt(indent, "image:", i) {
        assert indent[i..i + 6][0] == indent[i];
      }
    }
  }

  /** Four line prefixes and their classification: a blank indent, an image
      key, a partial root key, a comment. */
  lemma ClassifyExamples()
    ensures Classify("  ") == IndentedKey
    ensures Classify("image: ") == ImageValue
    ensures Classify("ser") == RootKey
    ensures Classify("# comment") == NoContext
  {
    BlankIndentGetsServiceKeys("  ");
    UnanchoredImageTest("", " ");
    assert "" + "image:" + " " == "image: ";
    var r := "ser";
    assert !IndentedKeyLine(r) by {
      forall k | 1 <= k <= |r| ensures !AllSpace(r[..k]) {
        assert r[..k][0] == 's';
      }
    }
    assert RootKeyLine(r) by {
      assert IsKeyChar(r[0]) && IsKeyChar(r[1]) && IsKeyChar(r[2]);
    }
    var c := "# comment";
    assert !Includes(c, "image:") by {
      forall i | 0 <= i <= |c| - 6 ensures !OccursAt(c, "image:", i) {
        assert c[i..i + 6][0] == c[i] != 'i';
      }
    }
    assert !IndentedKeyLine(c) by {
      forall k | 1 <= k <= |c| ensures !AllSpace(c[..k]) {
        assert c[..k][0] == '#';
      }
    }
    assert !IsKeyChar(c[0]);
  }

  /** Accepting the `image` service-key suggestion on an indented line leaves
      "<indent>image: " before the cursor, which asks for image tags next. */
  lemma AcceptImageKeyThenImages(indent: string, position: Position, word: Option<Word>)
    requires |indent| > 0 && AllSpace(indent)
    ensures var items := ProvideYamlCompletions(indent, position, word);
      && |items| > 0 && items[0].caption == "image"
      && Classify(indent + items[0].insertText) == ImageValue
  {
    BlankIndentGetsServiceKeys(indent);
    var items := ProvideYamlCompletions(indent, position, word);
    assert items[0].insertText == "image" + ": ";
    UnanchoredImageTest(indent, " ");
    assert indent + ("image" + ": ") == indent + "image:" + " ";
  }

  /** After an image tag from the vocabulary is typed behind "image: ", the
      line still asks for image tags: it contains "image:" and its trimmed
      text ends in the tag's last character, which is not a colon. */
  lemma AcceptedImageStaysImageValue(prefix: string, image: string)
    requires image in COMMON_IMAGES
    ensures Classify(prefix + "image: " + image) == ImageValue
  {
    CommonImageEndsInWordChar(image);
    KeyCharIsNotSpace();
    var line := prefix + "image: " + image;
    IncludesInMiddle(prefix, "image:", " " + image);
    assert prefix + "image:" + (" " + image) == line;
    assert line[|line| - 1] == image[|image| - 1];
    ImageColonThenValue(line);
  }

  /** Every root-key suggestion names a key that the validator's whitelist
      accepts. */
  lemma RootKeySuggestionsAreWhitelisted(line: string, position: Position, word: Option<Word>)
    requires Classify(line) == RootKey
    ensures forall s | s in ProvideYamlCompletions(line, position, word) :: YamlService.KnownRootKey(s.caption)
  {
    var items := ProvideYamlCompletions(line, position, word);
    forall s | s in items ensures YamlService.KnownRootKey(s.caption) {
      var i :| 0 <= i < |items| && items[i] == s;
      assert s.caption == DOCKER_ROOT_KEYS[i] == YamlService.VALID_ROOT_KEYS[i];
      assert YamlService.VALID_ROOT_KEYS[i] in YamlService.VALID_ROOT_KEYS;
    }
  }

}
