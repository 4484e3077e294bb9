/**
 * The client and the server together: what the page shows after a Generate click
 * that the server answers, given the chord classes the server's encoder knows.
 */
module Session {
  import opened Wrappers
  import opened Wire
  import Client
  import Server

  /** The options the picker offers carry exactly the catalogue labels the server reads back. */
  lemma OptionsRoundTrip(labels: seq<string>)
    ensures Server.SeedValues(Client.ToOptions(labels)) == labels
  {
  }

  /** The server can start on this selection: every label is a class, and an empty seed has a start range. */
  predicate Servable(selection: seq<SelectionOption>, classes: seq<string>) {
    (forall i :: 0 <= i < |selection| ==> selection[i].value in classes) &&
    (|selection| == 0 ==> |classes| >= 2)
  }

  /**
   * The sampler cannot raise on the page's parameters: the temperature slider never
   * reaches 0, so only the zero weight of slider position 0 can make it raise, and
   * only when a history window of at most 4 chords, shorter than the length, can
   * hold every class.
   */
  predicate SamplerSafe(app: Client.App, classes: seq<string>)
    reads app
  {
    app.repetitiveness != 0.0 || |classes| > Server.DefaultWindowSize || |classes| >= app.length
  }

  /**
   * A Generate click sent to the server: a rejected seed sends nothing, a failing
   * request leaves the page as it was, and an answered one fills every box, the
   * selected chords first.
   */
  method ClickGenerate(app: Client.App, classes: seq<string>) returns (sent: Option<GenerateRequest>, answered: bool)
    requires app.Valid()
    modifies app`chordProgression, app`midiUrl
    ensures app.Valid()
    ensures sent.None? <==> |app.selectedChords| > app.length
    ensures answered ==> sent.Some? && Servable(app.selectedChords, classes)
    ensures sent.Some? && Servable(app.selectedChords, classes) && SamplerSafe(app, classes) ==> answered
    ensures !answered ==> app.chordProgression == old(app.chordProgression) && app.midiUrl == old(app.midiUrl)
    ensures answered ==> |app.chordProgression| == app.length
    ensures answered ==> app.chordProgression[..|app.selectedChords|] == Server.SeedValues(app.selectedChords)
    ensures answered ==> forall i :: 0 <= i < app.length ==> app.chordProgression[i] in classes
    ensures answered ==> app.midiUrl == Some(Server.MidiUrl)
    ensures answered && (forall c :: c in classes ==> c != "") ==>
              Client.RenderSlots(app.length, app.chordProgression) == app.chordProgression
  {
    sent := app.Submit();
    answered := false;
    if sent.Some? {
      Server.DecodeClientRequest(sent.value);
      var result := Server.HandleGenerate(ToJson(sent.value), classes);
      ghost var seed := Server.DecodeRequest(ToJson(sent.value)).seed;
      assert Server.Transform(classes, seed).Some? <==> forall i :: 0 <= i < |seed| ==> seed[i] in classes;
      assert |seed| == |app.selectedChords| && app.length >= 1;
      assert (forall i :: 0 <= i < |seed| ==> seed[i] in classes) <==>
             (forall i :: 0 <= i < |app.selectedChords| ==> app.selectedChords[i].value in classes);
      assert Servable(app.selectedChords, classes) ==>
             result != Failure(Server.UnseenLabel) && result != Failure(Server.EmptyStartRange);
      assert result.Failure? ==> result == Failure(result.error);
      assert result.Failure? ==> result.error == Server.UnseenLabel || result.error == Server.EmptyStartRange ||
                                 result.error == Server.SamplerFailed;
      assert Servable(app.selectedChords, classes) ==>
             result.Success? || result == Failure(Server.SamplerFailed);
      assert result.Success? ==> Servable(app.selectedChords, classes);
      assert app.repetitiveness != 0.0 ==> Server.RepetitivenessWeight(app.repetitiveness) > 0.0;
      if result.Success? {
        app.Receive(result.value.response);
        answered := true;
        if forall c :: c in classes ==> c != "" {
          Client.RenderShowsWholeProgression(app.length, app.chordProgression);
        }
      }
    }
  }

  /** Length 4, seed C G, the server answers C G Am F: the boxes show them and Download saves the file. */
  method FourChordScenario() {
    var app := new Client.App();
    app.SetSelection([SelectionOption("C", "C"), SelectionOption("G", "G")]);
    var response := GenerateResponse(["C", "G", "Am", "F"], "/files/abc.mid");
    var sent := app.Generate(response);
    assert sent.Some? && sent.value.windowSize == 4;
    assert Client.RenderSlots(app.length, app.chordProgression) == ["C", "G", "Am", "F"];
    var save := app.Download();
    assert save == Some(Client.Save("/files/abc.mid", "chord_progression.mid"));
  }

  /** Length 2 with three selected chords: the click is rejected and nothing changes. */
  method TooLongSeedScenario() {
    var app := new Client.App();
    app.SetLength(2);
    app.SetSelection([SelectionOption("C", "C"), SelectionOption("G", "G"), SelectionOption("Am", "Am")]);
    var sent := app.Generate(GenerateResponse(["C"], "/static/chord_progression.mid"));
    assert sent == None && app.chordProgression == [] && app.midiUrl == None;
    var save := app.Download();
    assert save == None;
  }
}
