/** The AI gateway: four request functions, each building one request to
    the hosted generative model and reducing the reply, or the failure of
    the call, to a plain value. The remote call itself is the parameter
    `remote`, which either returns a response or fails. */
module GeminiService {
  import opened Wrappers
  import opened JsStrings

  datatype ImageSize = Size1K | Size2K | Size4K {
    /** The size as the request spells it: "1K", "2K" or "4K". */
    function Value(): (v: string)
      ensures |v| == 2 && v[1] == 'K'
    {
      match this
      case Size1K => "1K"
      case Size2K => "2K"
      case Size4K => "4K"
    }
  }

  const DefaultImageSize := Size1K

  /** Distinct sizes are requested as distinct texts. */
  lemma ImageSizeValuesDistinct(a: ImageSize, b: ImageSize)
    ensures a.Value() == b.Value() ==> a == b
  {
  }

  /** The parts of a reply that the gateway reads; every level may be missing. */
  datatype Blob = Blob(mimeType: Option<string>, data: Option<string>)
  datatype Part = Part(text: Option<string>, inlineData: Option<Blob>)
  datatype Content = Content(parts: Option<seq<Part>>)
  datatype GroundingChunk = GroundingChunk(uri: Option<string>, title: Option<string>)
  datatype GroundingMetadata = GroundingMetadata(groundingChunks: Option<seq<GroundingChunk>>)
  datatype Candidate = Candidate(content: Option<Content>, groundingMetadata: Option<GroundingMetadata>)
  datatype Response = Response(text: Option<string>, candidates: Option<seq<Candidate>>)

  datatype Tool = GoogleSearch | GoogleMaps
  datatype Config =
    | ThinkingConfig(thinkingBudget: nat)
    | ToolsConfig(tools: seq<Tool>)
    | ImageConfig(imageSize: string, aspectRatio: string)
  datatype Contents = Text(text: string) | Parts(parts: seq<Part>)
  datatype Request = Request(model: string, contents: Contents, config: Config)
  datatype RemoteError = RemoteError(message: string)

  /** One call to the hosted model: a response, or a thrown error. */
  type Remote = Request -> Result<Response, RemoteError>

  const AnalysisFallback := "Unable to analyze at this time. Please check API configuration."
  const SearchFallback := "Search unavailable."
  const MapsFallback := "Map data unavailable."
  const DataUrlPrefix := "data:image/png;base64,"

  const AnalysisPrefix := "Analyze the engineering feasibility and material requirements for this reconstruction project in Gaza: "
  const AnalysisSuffix := ". Provide a technical summary."
  const RenderPrefix := "Photorealistic architectural render of a reconstruction project in Gaza: "
  const RenderSuffix := ". Sunny day, modern sustainable materials, hopeful atmosphere."

  // ---------------------------------------------------------------------
  // Prompt templates

  /** A fixed prefix, the user's text, a fixed suffix. */
  function Template(prefix: string, input: string, suffix: string): (t: string)
    ensures |t| == |prefix| + |input| + |suffix|
    ensures t[..|prefix|] == prefix
    ensures t[|prefix|..|prefix| + |input|] == input
    ensures t[|prefix| + |input|..] == suffix
  {
    prefix + input + suffix
  }

  /** Recovers the user's text from a templated prompt, if `t` has the
      template's shape. */
  function Untemplate(prefix: string, t: string, suffix: string): (r: Option<string>)
    ensures r.Some? <==> |t| >= |prefix| + |suffix| && t[..|prefix|] == prefix && t[|t| - |suffix|..] == suffix
  {
    if |t| >= |prefix| + |suffix| && t[..|prefix|] == prefix && t[|t| - |suffix|..] == suffix
    then Some(t[|prefix|..|t| - |suffix|])
    else None
  }

  /** The template loses nothing: the user's text is recovered exactly, so
      different inputs give different prompts. */
  lemma TemplateRoundTrip(prefix: string, input: string, suffix: string)
    ensures Untemplate(prefix, Template(prefix, input, suffix), suffix) == Some(input)
  {
    var t := Template(prefix, input, suffix);
    assert t[|t| - |suffix|..] == suffix;
  }

  /** Conversely, every text that has the template's shape is the template
      applied to what it recovers. */
  lemma UntemplateRoundTrip(prefix: string, t: string, suffix: string)
    requires Untemplate(prefix, t, suffix).Some?
    ensures Template(prefix, Untemplate(prefix, t, suffix).value, suffix) == t
  {
    var input := t[|prefix|..|t| - |suffix|];
    assert t == t[..|prefix|] + input + t[|t| - |suffix|..];
  }

  /** The feasibility prompt: the description between the fixed framing
      texts, recoverable from the prompt. */
  function AnalysisPrompt(projectDescription: string): (t: string)
    ensures Untemplate(AnalysisPrefix, t, AnalysisSuffix) == Some(projectDescription)
  {
    TemplateRoundTrip(AnalysisPrefix, projectDescription, AnalysisSuffix);
    Template(AnalysisPrefix, projectDescription, AnalysisSuffix)
  }

  /** The render prompt: the user's text between the fixed framing texts,
      recoverable from the prompt. */
  function RenderPrompt(prompt: string): (t: string)
    ensures Untemplate(RenderPrefix, t, RenderSuffix) == Some(prompt)
  {
    TemplateRoundTrip(RenderPrefix, prompt, RenderSuffix);
    Template(RenderPrefix, prompt, RenderSuffix)
  }

  /** "Find <resourceType> near <location> in Gaza." */
  function NearbyPrompt(location: string, resourceType: string): (t: string)
    ensures |t| == |resourceType| + |location| + 20
    ensures t[..5] == "Find " && t[|t| - 9..] == " in Gaza."
    ensures t[5..5 + |resourceType|] == resourceType
    ensures t[5 + |resourceType|..11 + |resourceType|] == " near "
    ensures t[11 + |resourceType|..|t| - 9] == location
  {
    "Find " + resourceType + " near " + location + " in Gaza."
  }

  // ---------------------------------------------------------------------
  // Requests

  /** The deep-thinking request: the pro model with a 32768-token thinking
      budget, sent the description inside the feasibility prompt. */
  function AnalysisRequest(projectDescription: string): (req: Request)
    ensures req.model == "gemini-3-pro-preview" && req.config == ThinkingConfig(32768)
    ensures req.contents.Text? &&
            Untemplate(AnalysisPrefix, req.contents.text, AnalysisSuffix) == Some(projectDescription)
  {
    Request("gemini-3-pro-preview", Text(AnalysisPrompt(projectDescription)), ThinkingConfig(32768))
  }

  /** The search request: the flash model with web search, sent the query as is. */
  function SearchRequest(query: string): (req: Request)
    ensures req.model == "gemini-3-flash-preview" && req.config == ToolsConfig([GoogleSearch])
    ensures req.contents == Text(query)
  {
    Request("gemini-3-flash-preview", Text(query), ToolsConfig([GoogleSearch]))
  }

  /** `size = "1K"` as a default parameter. */
  function EffectiveSize(size: Option<ImageSize>): (s: ImageSize)
    ensures size.Some? ==> s == size.value
    ensures size.None? ==> s == Size1K
  {
    size.GetOr(DefaultImageSize)
  }

  /** The image request: the image model, one text part carrying the
      render prompt, a 16:9 frame at the requested (or default) size. */
  function RenderRequest(prompt: string, size: Option<ImageSize>): (req: Request)
    ensures req.model == "gemini-3-pro-image-preview"
    ensures req.config == ImageConfig(EffectiveSize(size).Value(), "16:9")
    ensures req.contents.Parts? && |req.contents.parts| == 1
    ensures req.contents.parts[0].inlineData.None? && req.contents.parts[0].text.Some?
    ensures Untemplate(RenderPrefix, req.contents.parts[0].text.value, RenderSuffix) == Some(prompt)
  {
    Request("gemini-3-pro-image-preview", Parts([Part(Some(RenderPrompt(prompt)), None)]),
            ImageConfig(EffectiveSize(size).Value(), "16:9"))
  }

  /** The maps request: the 2.5 flash model with map grounding, sent the
      "Find … near … in Gaza." prompt. */
  function NearbyRequest(location: string, resourceType: string): (req: Request)
    ensures req.model == "gemini-2.5-flash" && req.config == ToolsConfig([GoogleMaps])
    ensures req.contents == Text(NearbyPrompt(location, resourceType))
  {
    Request("gemini-2.5-flash", Text(NearbyPrompt(location, resourceType)), ToolsConfig([GoogleMaps]))
  }

  // ---------------------------------------------------------------------
  // Reading a response

  /** `response.candidates?.[0]`. */
  function FirstCandidate(response: Response): (c: Option<Candidate>)
    ensures c.Some? <==> response.candidates.Some? && |response.candidates.value| > 0
    ensures c.Some? ==> c.value == response.candidates.value[0]
  {
    match response.candidates
    case Some(cs) => if |cs| > 0 then Some(cs[0]) else None
    case None => None
  }

  /** `candidates?.[0]?.groundingMetadata?.groundingChunks || []`. */
  function GroundingSources(response: Response): (sources: seq<GroundingChunk>)
    ensures FirstCandidate(response).None? ==> sources == []
    ensures FirstCandidate(response).Some? && FirstCandidate(response).value.groundingMetadata.None? ==> sources == []
    ensures sources != [] ==>
              && FirstCandidate(response).Some?
              && FirstCandidate(response).value.groundingMetadata.Some?
              && FirstCandidate(response).value.groundingMetadata.value.groundingChunks == Some(sources)
    ensures (&& FirstCandidate(response).Some?
             && FirstCandidate(response).value.groundingMetadata.Some?
             && FirstCandidate(response).value.groundingMetadata.value.groundingChunks.Some?) ==>
              sources == FirstCandidate(response).value.groundingMetadata.value.groundingChunks.value
  {
    match FirstCandidate(response)
    case None => []
    case Some(c) =>
      match c.groundingMetadata
      case None => []
      case Some(m) => m.groundingChunks.GetOr([])
  }

  /** `candidates?.[0]?.content?.parts || []`. */
  function ResponseParts(response: Response): (parts: seq<Part>)
    ensures parts != [] ==>
              && FirstCandidate(response).Some?
              && FirstCandidate(response).value.content.Some?
              && FirstCandidate(response).value.content.value.parts == Some(parts)
    ensures (&& FirstCandidate(response).Some?
             && FirstCandidate(response).value.content.Some?
             && FirstCandidate(response).value.content.value.parts.Some?) ==>
              parts == FirstCandidate(response).value.content.value.parts.value
  {
    match FirstCandidate(response)
    case None => []
    case Some(c) =>
      match c.content
      case None => []
      case Some(content) => content.parts.GetOr([])
  }

  /** The `data:` URL for an inline image; a missing payload is rendered as
      the text "undefined", as template interpolation does. */
  function DataUrl(blob: Blob): (url: string)
    ensures |url| >= |DataUrlPrefix| && url[..|DataUrlPrefix|] == DataUrlPrefix
    ensures url[|DataUrlPrefix|..] == OrUndefined(blob.data)
    ensures blob.data.Some? ==> url[|DataUrlPrefix|..] == blob.data.value
    ensures blob.data.None? ==> url[|DataUrlPrefix|..] == "undefined"
  {
    DataUrlPrefix + OrUndefined(blob.data)
  }

  /** The image of the first part that carries inline data; later parts
      are never looked at. */
  function FirstInlineImage(parts: seq<Part>): (url: Option<string>)
    ensures url.None? <==> forall i :: 0 <= i < |parts| ==> parts[i].inlineData.None?
    ensures url.Some? ==> exists i :: 0 <= i < |parts| && parts[i].inlineData.Some? &&
                            url.value == DataUrl(parts[i].inlineData.value) &&
                            forall j :: 0 <= j < i ==> parts[j].inlineData.None?
  {
    if parts == [] then None
    else if parts[0].inlineData.Some? then Some(DataUrl(parts[0].inlineData.value))
    else
      var url := FirstInlineImage(parts[1..]);
      assert forall i :: 1 <= i < |parts| ==> parts[i] == parts[1..][i - 1];
      url
  }

  /** Appending parts after an image part does not change the image found. */
  lemma {:induction false} FirstInlineImageIgnoresLaterParts(parts: seq<Part>, later: seq<Part>)
    requires FirstInlineImage(parts).Some?
    ensures FirstInlineImage(parts + later) == FirstInlineImage(parts)
  {
    assert (parts + later)[0] == parts[0];
    if parts[0].inlineData.None? {
      assert (parts + later)[1..] == parts[1..] + later;
      assert FirstInlineImage(parts) == FirstInlineImage(parts[1..]);
      FirstInlineImageIgnoresLaterParts(parts[1..], later);
    }
  }

  // ---------------------------------------------------------------------
  // The four gateway functions

  /** `analyzeProjectFeasibility`: the reply's text, which may be absent,
      or the fixed fallback when the call fails. */
  function AnalyzeProjectFeasibility(remote: Remote, projectDescription: string): (r: Option<string>)
    ensures remote(AnalysisRequest(projectDescription)).Failure? ==> r == Some(AnalysisFallback)
    ensures remote(AnalysisRequest(projectDescription)).Success? ==>
              r == remote(AnalysisRequest(projectDescription)).value.text
  {
    match remote(AnalysisRequest(projectDescription))
    case Success(response) => response.text
    case Failure(_) => Some(AnalysisFallback)
  }

  datatype SearchResult = SearchResult(text: Option<string>, sources: seq<GroundingChunk>)

  /** `getConstructionStatus`: the reply's text with the first candidate's
      grounding chunks (none when any link of that path is missing), or
      the fixed fallback with no sources when the call fails. */
  function GetConstructionStatus(remote: Remote, query: string): (r: SearchResult)
    ensures remote(SearchRequest(query)).Failure? ==> r == SearchResult(Some(SearchFallback), [])
    ensures remote(SearchRequest(query)).Success? ==>
              r.text == remote(SearchRequest(query)).value.text &&
              r.sources == GroundingSources(remote(SearchRequest(query)).value)
  {
    match remote(SearchRequest(query))
    case Success(response) => SearchResult(response.text, GroundingSources(response))
    case Failure(_) => SearchResult(Some(SearchFallback), [])
  }

  /** What `generateProjectRender` resolves to: nothing when the call fails
      or no part of the first candidate carries inline data, and otherwise
      the `data:` URL of the first such part. */
  function RenderResult(remote: Remote, prompt: string, size: Option<ImageSize>): (url: Option<string>)
    ensures remote(RenderRequest(prompt, size)).Failure? ==> url.None?
    ensures remote(RenderRequest(prompt, size)).Success? ==>
              url == FirstInlineImage(ResponseParts(remote(RenderRequest(prompt, size)).value))
  {
    match remote(RenderRequest(prompt, size))
    case Success(response) => FirstInlineImage(ResponseParts(response))
    case Failure(_) => None
  }

  /** Leaving the size out requests a 1K image. */
  lemma RenderSizeDefaultsTo1K(prompt: string)
    ensures RenderRequest(prompt, None).config.imageSize == "1K"
    ensures RenderRequest(prompt, None) == RenderRequest(prompt, Some(Size1K))
  {
  }

  /** `generateProjectRender`: the request, then a scan of the first
      candidate's parts that stops at the first inline image. */
  method GenerateProjectRender(remote: Remote, prompt: string, size: Option<ImageSize>) returns (url: Option<string>)
    ensures url == RenderResult(remote, prompt, size)
    ensures url.Some? ==> |url.value| >= |DataUrlPrefix| && url.value[..|DataUrlPrefix|] == DataUrlPrefix
  {
    var outcome := remote(RenderRequest(prompt, size));
    if outcome.Failure? {
      return None;
    }
    var parts := ResponseParts(outcome.value);
    var i := 0;
    while i < |parts|
      invariant 0 <= i <= |parts|
      invariant FirstInlineImage(parts) == FirstInlineImage(parts[i..])
    {
      assert parts[i..][1..] == parts[i + 1..];
      if parts[i].inlineData.Some? {
        return Some(DataUrl(parts[i].inlineData.value));
      }
      i := i + 1;
    }
    return None;
  }

  /** `findNearbyResources`: the reply's text, or the fixed fallback when
      the call fails. */
  function FindNearbyResources(remote: Remote, location: string, resourceType: string): (r: Option<string>)
    ensures remote(NearbyRequest(location, resourceType)).Failure? ==> r == Some(MapsFallback)
    ensures remote(NearbyRequest(location, resourceType)).Success? ==>
              r == remote(NearbyRequest(location, resourceType)).value.text
  {
    match remote(NearbyRequest(location, resourceType))
    case Success(response) => response.text
    case Failure(_) => Some(MapsFallback)
  }
}
