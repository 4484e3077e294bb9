/**
 * The browser controller of the chord progression generator: the state the page
 * keeps, the chord catalogue it loads, the guarded generation request, the row of
 * chord boxes it renders and the MIDI download.
 *
 * Network replies are parameters: `/chords` hands LoadChords its label list and
 * `/generate` hands Receive its response. The alert and the download link are
 * returned as values instead of being performed.
 */
module Client {
  import opened Wrappers
  import opened Wire

  /** What a box shows when it has no chord to display. */
  const Placeholder: string := "   \n   \n"

  /** The file name every download is saved under. */
  const MidiFileName: string := "chord_progression.mid"

  const InitialLength: int := 4
  const InitialTemperature: real := 1.0
  const InitialRepetitiveness: real := 2.0
  const InitialWindowSize: int := 4

  /** Bounds of the length, temperature and repetitiveness sliders. */
  const MinLength: int := 1
  const MaxLength: int := 8
  const MinTemperature: real := 0.1
  const MaxTemperature: real := 2.0

  /** The browser-level save the Download button triggers. */
  datatype SaveAction = Save(url: string, fileName: string)

  /** The option list built from the catalogue, one `{label, value}` per label in order. */
  function ToOptions(labels: seq<string>): (opts: seq<SelectionOption>)
    ensures |opts| == |labels|
    ensures forall i :: 0 <= i < |labels| ==> opts[i].caption == labels[i] && opts[i].value == labels[i]
  {
    if labels == [] then []
    else
      var last := labels[|labels| - 1];
      ToOptions(labels[..|labels| - 1]) + [SelectionOption(last, last)]
  }

  /** The loop of getAllChords: push one option per label onto `temp`. */
  method CollectOptions(labels: seq<string>) returns (temp: seq<SelectionOption>)
    ensures temp == ToOptions(labels)
  {
    temp := [];
    var i := 0;
    while i < |labels|
      invariant 0 <= i <= |labels|
      invariant temp == ToOptions(labels[..i])
    {
      assert labels[..i + 1][..i] == labels[..i];
      temp := temp + [SelectionOption(labels[i], labels[i])];
      i := i + 1;
    }
    assert labels[..i] == labels;
  }

  /** JavaScript truthiness of `chordProgression[i]`: undefined past the end, and "" is falsy. */
  predicate HasLabel(progression: seq<string>, i: int) {
    0 <= i < |progression| && progression[i] != ""
  }

  /**
   * The text of box `i`: `chordProgression[i] || placeholder`. A box is never
   * blank: it shows a label of the progression at its own index, or the placeholder.
   */
  function SlotText(progression: seq<string>, i: int): (text: string)
    ensures text != ""
    ensures text == Placeholder || (0 <= i < |progression| && text == progression[i])
    ensures HasLabel(progression, i) ==> text == progression[i]
  {
    if HasLabel(progression, i) then progression[i] else Placeholder
  }

  /** The number of boxes `Array.from({length})` yields: a negative length gives none. */
  function SlotCount(length: int): nat {
    if length < 0 then 0 else length
  }

  /** renderBoxes: one box per requested chord, in index order. */
  function RenderSlots(length: int, progression: seq<string>): (slots: seq<string>)
    ensures |slots| == SlotCount(length)
    ensures forall i :: 0 <= i < |slots| ==> slots[i] == SlotText(progression, i)
  {
    seq(SlotCount(length), i requires 0 <= i < SlotCount(length) => SlotText(progression, i))
  }

  /** A box shows the placeholder exactly when there is no label for it, or its label is empty or is the placeholder itself. */
  lemma RenderPlaceholderIff(length: int, progression: seq<string>, i: int)
    requires 0 <= i < SlotCount(length)
    ensures RenderSlots(length, progression)[i] == Placeholder
        <==> i >= |progression| || progression[i] == "" || progression[i] == Placeholder
  {
  }

  /** A progression of exactly `length` non-empty labels is shown as it is. */
  lemma RenderShowsWholeProgression(length: int, progression: seq<string>)
    requires |progression| == length
    requires forall i :: 0 <= i < |progression| ==> progression[i] != ""
    ensures RenderSlots(length, progression) == progression
  {
  }

  /** Labels past the requested length are never shown: only the first `length` labels matter. */
  lemma RenderIgnoresTail(length: int, progression: seq<string>, tail: seq<string>)
    requires 0 <= length <= |progression|
    ensures RenderSlots(length, progression + tail) == RenderSlots(length, progression)
  {
  }

  /** A progression with fewer labels than boxes leaves the remaining boxes blank. */
  lemma RenderPadsShortProgression(length: int, progression: seq<string>)
    requires |progression| <= length
    ensures RenderSlots(length, progression)[|progression|..] == seq(length - |progression|, _ => Placeholder)
  {
  }

  /** The page state: the eight `useState` fields of the component. */
  class App {
    var chordProgression: seq<string>
    var allChords: seq<SelectionOption>
    var selectedChords: seq<SelectionOption>
    var midiUrl: Option<string>
    var length: int
    var temperature: real
    var repetitiveness: real
    var windowSize: int

    /** The values the controls can produce; the window size has no control and keeps its initial value. */
    ghost predicate Valid()
      reads this
    {
      MinLength <= length <= MaxLength &&
      MinTemperature <= temperature <= MaxTemperature &&
      repetitiveness in {0.0, 1.0, 2.0, 3.0, 4.0} &&
      windowSize == InitialWindowSize
    }

    constructor ()
      ensures Valid()
      ensures chordProgression == [] && allChords == [] && selectedChords == [] && midiUrl == None
      ensures length == InitialLength && temperature == InitialTemperature
      ensures repetitiveness == InitialRepetitiveness && windowSize == InitialWindowSize
    {
      chordProgression := [];
      allChords := [];
      selectedChords := [];
      midiUrl := None;
      length := InitialLength;
      temperature := InitialTemperature;
      repetitiveness := InitialRepetitiveness;
      windowSize := InitialWindowSize;
    }

    /** getAllChords once `/chords` has answered with `labels`. */
    method LoadChords(labels: seq<string>)
      requires Valid()
      modifies this`allChords
      ensures Valid()
      ensures allChords == ToOptions(labels)
    {
      var temp := CollectOptions(labels);
      allChords := temp;
    }

    /** The multi-select's onChange. */
    method SetSelection(selection: seq<SelectionOption>)
      requires Valid()
      modifies this`selectedChords
      ensures Valid()
      ensures selectedChords == selection
    {
      selectedChords := selection;
    }

    /** The length slider (1 to 8, step 1). */
    method SetLength(v: int)
      requires Valid()
      requires MinLength <= v <= MaxLength
      modifies this`length
      ensures Valid()
      ensures length == v
    {
      length := v;
    }

    /** The temperature slider (0.1 to 2.0). */
    method SetTemperature(v: real)
      requires Valid()
      requires MinTemperature <= v <= MaxTemperature
      modifies this`temperature
      ensures Valid()
      ensures temperature == v
    {
      temperature := v;
    }

    /** The repetitiveness slider (0 to 4, step 1). */
    method SetRepetitiveness(v: int)
      requires Valid()
      requires 0 <= v <= 4
      modifies this`repetitiveness
      ensures Valid()
      ensures repetitiveness == v as real
    {
      repetitiveness := v as real;
    }

    /** The body generateChords posts, or None when the seed is too long and an alert is shown instead. */
    function Request(): (req: Option<GenerateRequest>)
      reads this
      ensures req.None? <==> |selectedChords| > length
      ensures req.Some? ==> req.value.length == length && req.value.temperature == temperature
      ensures req.Some? ==> req.value.repetitiveness == repetitiveness && req.value.windowSize == windowSize
      ensures req.Some? ==> req.value.selectedChords == selectedChords
    {
      if |selectedChords| > length then None
      else Some(GenerateRequest(length, temperature, repetitiveness, windowSize, selectedChords))
    }

    /**
     * The part of generateChords before the await: either the alert (None, no request)
     * or the one request built from the current parameters and selection.
     */
    method Submit() returns (sent: Option<GenerateRequest>)
      ensures sent == Request()
    {
      sent := Request();
    }

    /** The part of generateChords after the await: the progression and the MIDI URL are both replaced. */
    method Receive(response: GenerateResponse)
      requires Valid()
      modifies this`chordProgression, this`midiUrl
      ensures Valid()
      ensures chordProgression == response.chordProgression
      ensures midiUrl == Some(response.midiUrl)
    {
      chordProgression := response.chordProgression;
      midiUrl := Some(response.midiUrl);
    }

    /** A Generate click answered with `response`: rejected seeds change nothing. */
    method Generate(response: GenerateResponse) returns (sent: Option<GenerateRequest>)
      requires Valid()
      modifies this`chordProgression, this`midiUrl
      ensures Valid()
      ensures sent == old(Request())
      ensures sent.None? <==> |selectedChords| > length
      ensures sent.None? ==> chordProgression == old(chordProgression) && midiUrl == old(midiUrl)
      ensures sent.Some? ==> chordProgression == response.chordProgression && midiUrl == Some(response.midiUrl)
    {
      sent := Submit();
      if sent.Some? {
        Receive(response);
      }
    }

    /** downloadMIDI: one save of the last MIDI URL, or nothing while that URL is null or empty. */
    method Download() returns (save: Option<SaveAction>)
      ensures save.None? <==> (midiUrl.None? || midiUrl.value == "")
      ensures save.Some? ==> midiUrl.Some? && save.value == Save(midiUrl.value, MidiFileName)
    {
      if midiUrl.Some? && midiUrl.value != "" {
        save := Some(Save(midiUrl.value, MidiFileName));
      } else {
        save := None;
      }
    }
  }
}
