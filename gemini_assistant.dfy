/** The assistant dialog: a prompt box with three modes (analysis, web
    search, image render), one pending gateway call at a time, and a single
    response slot that is either empty or holds the text to show. */
module GeminiAssistant {
  import opened Wrappers
  import opened JsStrings
  import opened GeminiService

  datatype Mode = Chat | Image | Analysis

  /** How an awaited gateway call settled: with its value, or by throwing. */
  datatype Settled<+T> = Resolved(value: T) | Rejected

  /** The single gateway call a submission makes, with its arguments. */
  datatype GatewayCall =
    | AnalyzeCall(description: string)
    | StatusCall(query: string)
    | RenderCall(prompt: string, size: ImageSize)

  const NoAnalysisMessage := "No analysis generated."
  const RenderFailedMessage := "Failed to generate image."
  const ConnectionErrorMessage := "An error occurred connecting to Gemini."
  const SourcesPrefix := "\n\nSources: "
  const SourcesSuffix := " refs found."
  const ImageTagPrefix := "<img src=\""
  const ImageTagSuffix := "\" alt=\"Generated Render\" class=\"w-full rounded-lg shadow-md\" />"

  /** `!prompt.trim()`: the prompt is empty or nothing but whitespace. */
  predicate IsBlank(prompt: string)
    ensures IsBlank(prompt) <==> AllWhitespace(prompt)
  {
    Trim(prompt) == ""
  }

  /** The call `handleSubmit` makes in each mode: the analysis gateway in
      analysis mode, the search gateway in chat mode and the render
      gateway, with the chosen size, in image mode; the prompt is passed
      on untrimmed. */
  function CallFor(mode: Mode, prompt: string, size: ImageSize): (call: GatewayCall)
    ensures call.AnalyzeCall? <==> mode == Analysis
    ensures call.StatusCall? <==> mode == Chat
    ensures call.RenderCall? <==> mode == Image
    ensures call.AnalyzeCall? ==> call.description == prompt
    ensures call.StatusCall? ==> call.query == prompt
    ensures call.RenderCall? ==> call.prompt == prompt && call.size == size
  {
    match mode
    case Analysis => AnalyzeCall(prompt)
    case Chat => StatusCall(prompt)
    case Image => RenderCall(prompt, size)
  }

  /** Analysis mode: the reply text unless it is absent or empty, in which
      case the no-analysis message; a thrown error gives the connection
      message. Never empty. */
  function AnalysisResponse(outcome: Settled<Option<string>>): (r: string)
    ensures r != ""
    ensures outcome.Rejected? ==> r == ConnectionErrorMessage
    ensures outcome.Resolved? && outcome.value.Some? && outcome.value.value != "" ==> r == outcome.value.value
    ensures outcome.Resolved? && (outcome.value.None? || outcome.value.value == "") ==> r == NoAnalysisMessage
  {
    match outcome
    case Rejected => ConnectionErrorMessage
    case Resolved(result) =>
      if result.Some? && result.value != "" then result.value else NoAnalysisMessage
  }

  /** The note appended to a search reply: empty for no sources, otherwise
      a sentence from which the number of sources can be read back. */
  function SourcesNote(count: nat): (note: string)
    ensures note == "" <==> count == 0
    ensures count > 0 ==>
              Untemplate(SourcesPrefix, note, SourcesSuffix).Some? &&
              ParseDecimal(Untemplate(SourcesPrefix, note, SourcesSuffix).value) == count
    ensures count > 0 ==>
              Untemplate(SourcesPrefix, note, SourcesSuffix) == Some(NatToString(count))
  {
    if count > 0 then
      var note := Template(SourcesPrefix, NatToString(count), SourcesSuffix);
      TemplateRoundTrip(SourcesPrefix, NatToString(count), SourcesSuffix);
      ParseNatToString(count);
      note
    else ""
  }

  /** Search mode: the reply text (the word "undefined" when it is absent)
      followed by the sources note, which is there exactly when the reply
      has sources; a thrown error gives the connection message. */
  function SearchResponse(outcome: Settled<SearchResult>): (r: string)
    ensures outcome.Rejected? ==> r == ConnectionErrorMessage
    ensures outcome.Resolved? ==>
              var text := OrUndefined(outcome.value.text);
              && |r| >= |text| && r[..|text|] == text
              && (r == text <==> outcome.value.sources == [])
              && r[|text|..] == SourcesNote(|outcome.value.sources|)
  {
    match outcome
    case Rejected => ConnectionErrorMessage
    case Resolved(result) =>
      var text := OrUndefined(result.text);
      var r := text + SourcesNote(|result.sources|);
      assert r[..|text|] == text && r[|text|..] == SourcesNote(|result.sources|);
      r
  }

  /** Image mode: an `<img>` tag whose `src` is the image data, or the
      failure message when there is no data; a thrown error gives the
      connection message. Never empty. */
  function ImageResponse(outcome: Settled<Option<string>>): (r: string)
    ensures r != ""
    ensures outcome.Rejected? ==> r == ConnectionErrorMessage
    ensures outcome.Resolved? && outcome.value.Some? && outcome.value.value != "" ==>
              Untemplate(ImageTagPrefix, r, ImageTagSuffix) == Some(outcome.value.value)
    ensures outcome.Resolved? && (outcome.value.None? || outcome.value.value == "") ==> r == RenderFailedMessage
  {
    match outcome
    case Rejected => ConnectionErrorMessage
    case Resolved(imgData) =>
      if imgData.Some? && imgData.value != "" then
        TemplateRoundTrip(ImageTagPrefix, imgData.value, ImageTagSuffix);
        Template(ImageTagPrefix, imgData.value, ImageTagSuffix)
      else RenderFailedMessage
  }

  /** The response a submission stores once `call` has settled. */
  function Reply(call: GatewayCall,
                 analyze: string -> Settled<Option<string>>,
                 search: string -> Settled<SearchResult>,
                 render: (string, ImageSize) -> Settled<Option<string>>): (r: string)
    ensures !call.StatusCall? ==> r != ""
    ensures call.StatusCall? ==>
              (r == "" <==> search(call.query) == Resolved(SearchResult(Some(""), [])))
    ensures call.AnalyzeCall? && analyze(call.description).Rejected? ==> r == ConnectionErrorMessage
    ensures call.StatusCall? && search(call.query).Rejected? ==> r == ConnectionErrorMessage
    ensures call.RenderCall? && render(call.prompt, call.size).Rejected? ==> r == ConnectionErrorMessage
    ensures call.AnalyzeCall? ==> r == AnalysisResponse(analyze(call.description))
    ensures call.StatusCall? ==> r == SearchResponse(search(call.query))
    ensures call.RenderCall? ==> r == ImageResponse(render(call.prompt, call.size))
  {
    match call
    case AnalyzeCall(p) => AnalysisResponse(analyze(p))
    case StatusCall(p) => SearchResponse(search(p))
    case RenderCall(p, size) => ImageResponse(render(p, size))
  }

  /** The submit button: disabled while loading or for an empty prompt
      (an untrimmed test, unlike the one `handleSubmit` makes). */
  function SubmitDisabled(loading: bool, prompt: string): (disabled: bool)
    ensures !disabled <==> !loading && |prompt| > 0
  {
    loading || prompt == ""
  }

  /** What the content area shows. */
  datatype ContentView = Intro(text: string) | Markup(html: string) | PlainText(text: string)

  function IntroText(mode: Mode): (text: string)
    ensures text != ""
  {
    match mode
    case Analysis => "I can reason through complex engineering challenges using deep thinking."
    case Chat => "I can search the web for real-time material costs and availability."
    case Image => "I can visualize your architectural concepts in 4K resolution."
  }

  /** An empty or empty-string response shows the current mode's intro;
      any other response is shown as markup in image mode and as plain
      text otherwise. */
  function ResponseView(mode: Mode, response: Option<string>): (v: ContentView)
    ensures v.Intro? <==> response.None? || response.value == ""
    ensures v.Intro? ==> v.text == IntroText(mode)
    ensures v.Markup? <==> mode == Image && response.Some? && response.value != ""
    ensures v.Markup? ==> v.html == response.value
    ensures v.PlainText? ==> v.text == response.value
  {
    if response.Some? && response.value != "" then
      if mode == Image then Markup(response.value) else PlainText(response.value)
    else Intro(IntroText(mode))
  }

  /** The dialog's state. */
  class AssistantDialog {
    var mode: Mode
    var prompt: string
    var response: Option<string>
    var loading: bool
    var imageSize: ImageSize

    constructor ()
      ensures mode == Analysis && prompt == "" && response.None? && !loading && imageSize == Size1K
    {
      mode := Analysis;
      prompt := "";
      response := None;
      loading := false;
      imageSize := Size1K;
    }

    /** What the content area shows for the current mode and response. */
    function View(): (v: ContentView)
      reads this
      ensures v.Intro? <==> response.None? || response.value == ""
      ensures v.Intro? ==> v.text == IntroText(mode)
      ensures v.Markup? <==> mode == Image && response.Some? && response.value != ""
      ensures v.Markup? ==> v.html == response.value
      ensures v.PlainText? ==> v.text == response.value
    {
      ResponseView(mode, response)
    }

    /** The submit button: enabled exactly when idle with a non-empty raw prompt. */
    function SubmitButtonDisabled(): (disabled: bool)
      reads this
      ensures !disabled <==> !loading && |prompt| > 0
    {
      SubmitDisabled(loading, prompt)
    }

    /** The prompt input is disabled while a request is pending. */
    function InputDisabled(): (disabled: bool)
      reads this
      ensures disabled <==> loading
    {
      loading
    }

    /** Typing in the prompt box. */
    method SetPrompt(text: string)
      modifies this
      ensures prompt == text
      ensures mode == old(mode) && response == old(response) && loading == old(loading) && imageSize == old(imageSize)
    {
      prompt := text;
    }

    /** A mode button. */
    method SetMode(m: Mode)
      modifies this
      ensures mode == m
      ensures prompt == old(prompt) && response == old(response) && loading == old(loading) && imageSize == old(imageSize)
    {
      mode := m;
    }

    /** A resolution button. */
    method SetImageSize(size: ImageSize)
      modifies this
      ensures imageSize == size
      ensures mode == old(mode) && prompt == old(prompt) && response == old(response) && loading == old(loading)
    {
      imageSize := size;
    }

    /** "Ask another question": back to the intro, prompt and mode kept. */
    method AskAnother()
      modifies this
      ensures response.None? && View() == Intro(IntroText(mode))
      ensures mode == old(mode) && prompt == old(prompt) && loading == old(loading) && imageSize == old(imageSize)
    {
      response := None;
    }

    /** `handleSubmit` up to the `await`: a blank prompt changes nothing
        and calls nothing; otherwise loading starts, the response is
        cleared, and the mode's call is returned to be made. */
    method BeginSubmit() returns (call: Option<GatewayCall>)
      modifies this
      ensures call.None? <==> IsBlank(old(prompt))
      ensures call.None? ==> response == old(response) && loading == old(loading)
      ensures call.Some? ==> call.value == CallFor(mode, prompt, imageSize) && loading && response.None?
      ensures call.Some? ==> SubmitButtonDisabled() && InputDisabled()
      ensures mode == old(mode) && prompt == old(prompt) && imageSize == old(imageSize)
    {
      if IsBlank(prompt) {
        return None;
      }
      loading := true;
      response := None;
      call := Some(CallFor(mode, prompt, imageSize));
    }

    /** An analysis call settled: its response is stored and loading ends. */
    method SettleAnalysis(outcome: Settled<Option<string>>)
      modifies this
      ensures response == Some(AnalysisResponse(outcome)) && !loading
      ensures mode == old(mode) && prompt == old(prompt) && imageSize == old(imageSize)
    {
      response := Some(AnalysisResponse(outcome));
      loading := false;
    }

    /** A search call settled: its response is stored and loading ends. */
    method SettleSearch(outcome: Settled<SearchResult>)
      modifies this
      ensures response == Some(SearchResponse(outcome)) && !loading
      ensures mode == old(mode) && prompt == old(prompt) && imageSize == old(imageSize)
    {
      response := Some(SearchResponse(outcome));
      loading := false;
    }

    /** A render call settled: its response is stored and loading ends. */
    method SettleRender(outcome: Settled<Option<string>>)
      modifies this
      ensures response == Some(ImageResponse(outcome)) && !loading
      ensures mode == old(mode) && prompt == old(prompt) && imageSize == old(imageSize)
    {
      response := Some(ImageResponse(outcome));
      loading := false;
    }

    /** The whole of `handleSubmit`, with the three gateway functions as
        parameters: a blank prompt is a no-op; otherwise exactly the mode's
        function is called with the prompt (and, for images, the size), its
        outcome becomes the response, and loading is over. */
    method Submit(analyze: string -> Settled<Option<string>>,
                  search: string -> Settled<SearchResult>,
                  render: (string, ImageSize) -> Settled<Option<string>>)
      returns (call: Option<GatewayCall>)
      modifies this
      ensures call.None? <==> IsBlank(old(prompt))
      ensures call.None? ==> response == old(response) && loading == old(loading)
      ensures call.Some? ==>
                && call.value == CallFor(old(mode), old(prompt), old(imageSize))
                && response == Some(Reply(call.value, analyze, search, render))
                && !loading
      ensures mode == old(mode) && prompt == old(prompt) && imageSize == old(imageSize)
    {
      call := BeginSubmit();
      if call.None? {
        return;
      }
      match call.value
      case AnalyzeCall(p) =>
        SettleAnalysis(analyze(p));
      case StatusCall(p) =>
        SettleSearch(search(p));
      case RenderCall(p, size) =>
        SettleRender(render(p, size));
    }
  }

  /** A prompt of spaces enables the submit button, yet submitting it is a
      no-op: the button tests the raw prompt, the handler the trimmed one. */
  lemma WhitespacePromptIgnored(prompt: string)
    requires prompt != [] && AllWhitespace(prompt)
    ensures !SubmitDisabled(false, prompt) && IsBlank(prompt)
  {
  }

  /** A search reply with empty text and no sources stores the empty
      string, which the content area treats as no response: the intro is
      shown again. Every other settled call leaves something to show. */
  lemma EmptySearchReplyShowsIntro(result: SearchResult)
    ensures SearchResponse(Resolved(result)) == "" <==> result.text == Some("") && result.sources == []
    ensures ResponseView(Chat, Some(SearchResponse(Resolved(SearchResult(Some(""), []))))) == Intro(IntroText(Chat))
  {
    var r := SearchResponse(Resolved(result));
    if r == "" {
      assert OrUndefined(result.text) == "";
    }
  }

  /** Wired to the real gateway, a failed remote call surfaces as the
      gateway's own fallback, never as the dialog's connection message:
      the gateway functions resolve instead of throwing. */
  lemma GatewayFailuresShowFallbacks(remote: Remote, prompt: string, size: ImageSize)
    ensures remote(AnalysisRequest(prompt)).Failure? ==>
              AnalysisResponse(Resolved(AnalyzeProjectFeasibility(remote, prompt))) == AnalysisFallback
    ensures remote(SearchRequest(prompt)).Failure? ==>
              SearchResponse(Resolved(GetConstructionStatus(remote, prompt))) == SearchFallback
    ensures remote(RenderRequest(prompt, Some(size))).Failure? ==>
              ImageResponse(Resolved(RenderResult(remote, prompt, Some(size)))) == RenderFailedMessage
  {
  }

  /** Analysis mode, prompt "Evaluate roof load capacity", and the remote
      call fails: the dialog ends with the gateway's fallback text and is
      no longer loading. */
  method AnalysisFailureScenario(remote: Remote) returns (shown: ContentView, loading: bool)
    requires forall req :: remote(req).Failure?
    ensures shown == PlainText(AnalysisFallback) && !loading
  {
    var question := "Evaluate roof load capacity";
    var dialog := new AssistantDialog();
    dialog.SetPrompt(question);
    assert !IsBlank(question) by {
      assert !IsJsWhitespace(question[0]);
    }
    var analyze := p => Resolved(AnalyzeProjectFeasibility(remote, p));
    var call := dialog.Submit(
      analyze,
      q => Resolved(GetConstructionStatus(remote, q)),
      (p, size) => Resolved(RenderResult(remote, p, Some(size))));
    assert call == Some(AnalyzeCall(question));
    assert analyze(question) == Resolved(Some(AnalysisFallback));
    assert dialog.response == Some(AnalysisFallback);
    shown, loading := dialog.View(), dialog.loading;
  }
}
