/** The ingestion panel (components/IngestionPanel.tsx): the paste box, the file
    intake, the Process button's gate and the per-material icon and preview.
    Adding a material is the `onMaterialAdd` callback, modelled as the submission
    a handler returns. */
module Ingestion {
  import opened Wrappers
  import opened JsStrings

  /** The arguments of one `onMaterialAdd(content, title)` call. */
  datatype Submission = Submission(content: string, title: string)

  /** A file as the browser's reader delivers it: its name and its text. */
  datatype FileData = FileData(name: string, text: string)

  /** The title of a pasted snippet starts with this. */
  const SnippetPrefix: string := "Snippet - "

  /** The number of characters of a material shown in its preview. */
  const PreviewLength: nat := 100

  /** The suffixes the code-file pattern `\.(js|ts|py|html|css)$` accepts. */
  const CodeSuffixes: seq<string> := [".js", ".ts", ".py", ".html", ".css"]

  datatype Icon = JsonIcon | CodeIcon | TextIcon

  /** The code-file pattern, one alternative at a time: it matches exactly the
      titles that end in one of the code suffixes. */
  function MatchesCodePattern(title: string): (matched: bool)
    ensures matched <==> exists k :: 0 <= k < |CodeSuffixes| && EndsWith(title, CodeSuffixes[k])
  {
    var matched := EndsWith(title, ".js") || EndsWith(title, ".ts") || EndsWith(title, ".py")
                   || EndsWith(title, ".html") || EndsWith(title, ".css");
    assert matched ==> (EndsWith(title, CodeSuffixes[0]) || EndsWith(title, CodeSuffixes[1])
      || EndsWith(title, CodeSuffixes[2]) || EndsWith(title, CodeSuffixes[3]) || EndsWith(title, CodeSuffixes[4]));
    matched
  }

  /** The icon shown beside a material, chosen from its title alone: a `.json`
      title first, then any title ending in one of the code suffixes. */
  function IconFor(title: string): (icon: Icon)
    ensures icon == JsonIcon <==> EndsWith(title, ".json")
    ensures icon == CodeIcon <==> !EndsWith(title, ".json") && exists k :: 0 <= k < |CodeSuffixes| && EndsWith(title, CodeSuffixes[k])
  {
    if EndsWith(title, ".json") then JsonIcon
    else if MatchesCodePattern(title) then CodeIcon
    else TextIcon
  }

  /** A title whose last character ends none of the matched suffixes gets the
      text icon. */
  lemma TextIconByLastChar(title: string)
    requires title != [] && title[|title| - 1] !in "nsyl"
    ensures IconFor(title) == TextIcon
  {
    EndsWithLastChar(title, ".json");
    EndsWithLastChar(title, ".js");
    EndsWithLastChar(title, ".ts");
    EndsWithLastChar(title, ".py");
    EndsWithLastChar(title, ".html");
    EndsWithLastChar(title, ".css");
  }

  /** Any extension whose last character ends none of the matched suffixes gives
      the text icon, whatever precedes it. */
  lemma TextIconForExtension(stem: string, ext: string)
    requires ext != [] && ext[|ext| - 1] !in "nsyl"
    ensures IconFor(stem + ext) == TextIcon
  {
    var t := stem + ext;
    assert t[|t| - 1] == ext[|ext| - 1];
    TextIconByLastChar(t);
  }

  /** A longer extension that merely starts with a code suffix does not match:
      `.jsx` and `.tsx` files get the text icon, as do `.md`, `.csv` and `.txt`. */
  lemma OtherExtensionsGetTextIcon(stem: string, ext: string)
    requires ext in [".jsx", ".tsx", ".md", ".csv", ".txt"]
    ensures IconFor(stem + ext) == TextIcon
  {
    TextIconForExtension(stem, ext);
  }

  /** A `.json` title gets the JSON icon even though `.js` is a prefix of it. */
  lemma JsonTitleGetsJsonIcon(stem: string)
    ensures IconFor(stem + ".json") == JsonIcon
  {
    var t := stem + ".json";
    assert t[|t| - 5..] == ".json";
  }

  /** Every code suffix gives the code icon. */
  lemma CodeTitlesGetCodeIcon(stem: string, k: nat)
    requires k < |CodeSuffixes|
    ensures IconFor(stem + CodeSuffixes[k]) == CodeIcon
  {
    var t := stem + CodeSuffixes[k];
    assert t[|t| - |CodeSuffixes[k]|..] == CodeSuffixes[k];
    assert t[|t| - 1] != 'n';
  }

  /** The preview shown for a material: the start of its content. */
  function Preview(content: string): (preview: string)
    ensures preview <= content
    ensures |preview| == if |content| < PreviewLength then |content| else PreviewLength
  {
    PrefixUpTo(content, PreviewLength)
  }

  /** The Process button is disabled for blank input or while analysis is running. */
  function ProcessDisabled(textInput: string, isProcessing: bool): (disabled: bool)
    ensures disabled <==> IsBlank(textInput) || isProcessing
  {
    TrimEmptyIffBlank(textInput);
    Trim(textInput) == "" || isProcessing
  }

  class IngestionPanel {
    /** The text in the paste box. */
    var textInput: string
    /** The value of the hidden file input. */
    var fileInputValue: string

    constructor ()
      ensures textInput == "" && fileInputValue == ""
    {
      textInput := "";
      fileInputValue := "";
    }

    /** The paste box's `onChange`. */
    method OnTextChange(value: string)
      modifies this
      ensures textInput == value && fileInputValue == old(fileInputValue)
    {
      textInput := value;
    }

    /** `handleTextSubmit`: blank text is not forwarded and stays in the box; any
        other text is forwarded as typed, titled with the snippet prefix and the
        local time (`timeLabel`), and the box is cleared. */
    method HandleTextSubmit(timeLabel: string) returns (forwarded: Option<Submission>)
      modifies this
      ensures forwarded.None? <==> IsBlank(old(textInput))
      ensures forwarded.None? ==> textInput == old(textInput)
      ensures forwarded.Some? ==> forwarded.value == Submission(old(textInput), SnippetPrefix + timeLabel) && textInput == ""
      ensures fileInputValue == old(fileInputValue)
    {
      TrimEmptyIffBlank(textInput);
      if Trim(textInput) == "" {
        return None;
      }
      forwarded := Some(Submission(textInput, SnippetPrefix + timeLabel));
      textInput := "";
    }

    /** `processFile`: no file does nothing; a file's text is forwarded unchecked,
        even when empty or blank, under the file's name, and the file input is reset. */
    method ProcessFile(file: Option<FileData>) returns (forwarded: Option<Submission>)
      modifies this
      ensures file.None? ==> forwarded.None? && fileInputValue == old(fileInputValue)
      ensures file.Some? ==> forwarded == Some(Submission(file.value.text, file.value.name)) && fileInputValue == ""
      ensures textInput == old(textInput)
    {
      if file.None? {
        return None;
      }
      forwarded := Some(Submission(file.value.text, file.value.name));
      fileInputValue := "";
    }
  }
}
