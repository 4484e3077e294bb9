/** The JSON bodies that travel between the browser client and the Flask server. */
module Wire {
  import opened Wrappers

  /** An entry of the chord picker, the JSON object `{label, value}` (`label` is `caption` here); the client builds both from one chord label. */
  datatype SelectionOption = SelectionOption(caption: string, value: string)

  /** The body the client posts to `/generate`: exactly these five keys. */
  datatype GenerateRequest = GenerateRequest(
    length: int,
    temperature: real,
    repetitiveness: real,
    windowSize: int,
    selectedChords: seq<SelectionOption>)

  /** The body `/generate` answers with. */
  datatype GenerateResponse = GenerateResponse(chordProgression: seq<string>, midiUrl: string)

  /** A `/generate` body as the server reads it: any of the keys may be missing. */
  datatype RequestJson = RequestJson(
    length: Option<int>,
    temperature: Option<real>,
    repetitiveness: Option<real>,
    windowSize: Option<int>,
    selectedChords: Option<seq<SelectionOption>>)

  /** What the server sees of a body the client posted: every key present. */
  function ToJson(req: GenerateRequest): RequestJson {
    RequestJson(Some(req.length), Some(req.temperature), Some(req.repetitiveness),
                Some(req.windowSize), Some(req.selectedChords))
  }
}
