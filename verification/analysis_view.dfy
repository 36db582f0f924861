/** The analysis view (`Front` in src/Front.jsx): one photo is chosen,
    previewed, sent for analysis, and the result or the error is shown
    together with three display fields derived from the result's guidance. */
module AnalysisView {
  import opened Wrappers
  import opened Text

  /** A file picked in the file input; the view only stores it and uploads
      it. */
  datatype FileRef = FileRef(name: string, size: nat)

  /** The optional advice of a result; each list may be missing. */
  datatype Guidance = Guidance(colorPalette: Option<seq<string>>, neutrals: Option<seq<string>>,
                               shapeTips: Option<seq<string>>)

  /** The parsed body of a successful analysis. */
  datatype AnalysisResult = AnalysisResult(shape: string, rating: real, symmetry: real, proportion: real,
                                           edge: real, aspectRatio: real, guidance: Option<Guidance>)

  /** How the upload ends: a response that is ok, one that is not (with the
      body's `detail`, if any), or an exception with its message (no
      response, or a body that is not JSON). */
  datatype AnalyzeOutcome = Analyzed(data: AnalysisResult) | Refused(detail: Option<string>) | Threw(message: string)

  const FailedToAnalyze := "Failed to analyze"

  const ListSeparator := ", "

  /** `result?.guidance?.color_palette || []`. */
  function PaletteOf(result: Option<AnalysisResult>): seq<string> {
    if result.Some? && result.value.guidance.Some? && result.value.guidance.value.colorPalette.Some?
    then result.value.guidance.value.colorPalette.value else []
  }

  /** `result?.guidance?.neutrals || []`. */
  function NeutralsOf(result: Option<AnalysisResult>): seq<string> {
    if result.Some? && result.value.guidance.Some? && result.value.guidance.value.neutrals.Some?
    then result.value.guidance.value.neutrals.value else []
  }

  /** `shapeTips`: the shape tips, or none when the result, its guidance or
      the list is missing. */
  function ShapeTips(result: Option<AnalysisResult>): (tips: seq<string>)
    ensures result.None? || result.value.guidance.None? ==> tips == []
    ensures result.Some? && result.value.guidance.Some? ==>
      tips == (if result.value.guidance.value.shapeTips.Some? then result.value.guidance.value.shapeTips.value else [])
  {
    if result.Some? && result.value.guidance.Some? && result.value.guidance.value.shapeTips.Some?
    then result.value.guidance.value.shapeTips.value else []
  }

  /** `colors`: the palette joined with ", ". It is empty exactly when there
      is no palette to show (missing, empty, or a single empty name), and a
      one-colour palette shows that colour alone. */
  function Colors(result: Option<AnalysisResult>): (text: string)
    ensures text == [] <==> PaletteOf(result) == [] || PaletteOf(result) == [[]]
    ensures |PaletteOf(result)| == 1 ==> text == PaletteOf(result)[0]
  {
    JoinEmptyIff(PaletteOf(result), ListSeparator);
    Join(PaletteOf(result), ListSeparator)
  }

  /** `neutrals`: the neutrals joined with ", ", under the same rule. */
  function Neutrals(result: Option<AnalysisResult>): (text: string)
    ensures text == [] <==> NeutralsOf(result) == [] || NeutralsOf(result) == [[]]
    ensures |NeutralsOf(result)| == 1 ==> text == NeutralsOf(result)[0]
  {
    JoinEmptyIff(NeutralsOf(result), ListSeparator);
    Join(NeutralsOf(result), ListSeparator)
  }

  /** With no result, or a result without guidance, the three display
      fields are empty rather than failing. */
  lemma DisplayWithoutGuidance(result: Option<AnalysisResult>)
    requires result.None? || result.value.guidance.None?
    ensures Colors(result) == [] && Neutrals(result) == [] && ShapeTips(result) == []
  {
  }

  /** One more colour in the palette adds ", " and its name at the end of
      the displayed text. */
  lemma ColorsAppend(result: AnalysisResult, g: Guidance, palette: seq<string>, colour: string)
    requires result.guidance == Some(g) && g.colorPalette == Some(palette) && palette != []
    ensures Colors(Some(result.(guidance := Some(g.(colorPalette := Some(palette + [colour]))))))
      == Colors(Some(result)) + ListSeparator + colour
  {
    JoinAppend(palette, colour, ListSeparator);
  }

  /** One more neutral adds ", " and its name at the end of the displayed
      neutrals, as for the palette. */
  lemma NeutralsAppend(result: AnalysisResult, g: Guidance, neutrals: seq<string>, neutral: string)
    requires result.guidance == Some(g) && g.neutrals == Some(neutrals) && neutrals != []
    ensures Neutrals(Some(result.(guidance := Some(g.(neutrals := Some(neutrals + [neutral]))))))
      == Neutrals(Some(result)) + ListSeparator + neutral
  {
    JoinAppend(neutrals, neutral, ListSeparator);
  }

  /** All the state of the view that the analysis touches, as one value. */
  datatype AnalysisState = AnalysisState(file: Option<FileRef>, preview: string, analyzing: bool,
                                         result: Option<AnalysisResult>, error: string)

  class AnalysisView {
    var file: Option<FileRef>
    /** The object URL of the chosen file, or empty. */
    var preview: string
    var analyzing: bool
    var result: Option<AnalysisResult>
    var error: string

    ghost function State(): AnalysisState
      reads this
    {
      AnalysisState(file, preview, analyzing, result, error)
    }

    /** A preview is shown exactly when a file is chosen; an analysis in
        flight shows neither a result nor an error; and a result and an
        error are never shown together. */
    ghost predicate Valid()
      reads this
    {
      && (file.Some? <==> preview != [])
      && (analyzing ==> result.None? && error == [])
      && (result.Some? ==> error == [])
    }

    /** `disabled={!file || analyzing}` on the Analyze button, negated. */
    predicate AnalyzeEnabled()
      reads this
    {
      file.Some? && !analyzing
    }

    constructor ()
      ensures Valid()
      ensures State() == AnalysisState(None, "", false, None, "")
    {
      file := None;
      preview := "";
      analyzing := false;
      result := None;
      error := "";
    }

    /** `onFile`: the chosen file, or none when the selection is cleared,
        replaces the current one; the preview becomes the object URL the
        browser made for it, or empty; the result and the error are cleared.
        An analysis in flight is not affected. */
    method OnFile(f: Option<FileRef>, objectUrl: string)
      requires Valid()
      requires f.Some? ==> objectUrl != []
      modifies this
      ensures Valid()
      ensures State() == old(State()).(file := f, preview := if f.Some? then objectUrl else "",
                                       result := None, error := "")
    {
      file := f;
      result := None;
      error := "";
      if f.Some? {
        preview := objectUrl;
      } else {
        preview := "";
      }
    }

    /** `analyze` up to its `await`. Without a file it does nothing; with
        one, the view is analysing, the previous result and error are
        cleared, and the file is uploaded. It runs exactly when the button
        is enabled; the button is disabled while an analysis is in flight. */
    method BeginAnalyze() returns (upload: Option<FileRef>)
      requires Valid()
      requires !analyzing
      modifies this
      ensures Valid()
      ensures upload.Some? <==> old(AnalyzeEnabled())
      ensures old(file).None? ==> upload == None && State() == old(State())
      ensures old(file).Some? ==>
        upload == old(file)
        && State() == old(State()).(analyzing := true, result := None, error := "")
    {
      if file.None? {
        upload := None;
        return;
      }
      analyzing := true;
      result := None;
      error := "";
      upload := file;
    }

    /** The rest of `analyze`. An ok response becomes the result; a refused
        one becomes the error, the server's `detail` or "Failed to analyze";
        an exception becomes the error with its message. Analysing ends in
        every case and the file and the preview stay as they are. */
    method CompleteAnalyze(outcome: AnalyzeOutcome)
      requires Valid()
      requires analyzing
      modifies this
      ensures Valid()
      ensures !analyzing && file == old(file) && preview == old(preview)
      ensures outcome.Analyzed? ==> result == Some(outcome.data) && error == []
      ensures outcome.Refused? ==> result == None && error == OrElse(outcome.detail, FailedToAnalyze) && error != []
      ensures outcome.Threw? ==> result == None && error == outcome.message
      ensures State() == old(State()).(analyzing := false, result := result, error := error)
    {
      match outcome {
        case Analyzed(data) =>
          result := Some(data);
        case Refused(detail) =>
          error := OrElse(detail, FailedToAnalyze);
        case Threw(message) =>
          error := message;
      }
      analyzing := false;
    }
  }
}
