/**
 * The Flask side of the chord progression generator: decoding a `/generate` body,
 * encoding chord labels as class indices, and the loop that extends the seed one
 * chord at a time.
 *
 * The trained network and the temperature sampler are an oracle: each iteration
 * hands it a model input, a history window, the temperature and the repetitiveness
 * weight, and receives some class index in range, chosen nondeterministically, or
 * the ValueError np.random.choice raises on an invalid probability vector. The
 * loop records what it handed over in a Trace, so that the rules for the input
 * and the history can be stated.
 */
module Server {
  import opened Wrappers
  import opened Wire

  /** `sequence_length`: the number of chords the network reads. */
  const SequenceLength: int := 4
  /** The `window_size` the handler always uses (the request's key is never read). */
  const DefaultWindowSize: int := 4
  const DefaultLength: int := 4
  const DefaultTemperature: real := 1.0
  const DefaultRepetitiveness: real := 2.0
  /** Where every generated MIDI file is served from. */
  const MidiUrl: string := "/static/chord_progression.mid"

  function Max(a: int, b: int): int { if a < b then b else a }
  function Min(a: int, b: int): int { if a < b then a else b }

  /** Python's `s[-n:]`, for any integer `n` (for `n <= 0` it drops the first `-n` items). */
  function NegSlice(s: seq<int>, n: int): (r: seq<int>)
    ensures n > 0 ==> |r| == Min(n, |s|)
    ensures n <= 0 ==> |r| == Max(|s| + n, 0)
    ensures r == s[|s| - |r|..]
  {
    if n > 0 then (if n >= |s| then s else s[|s| - n..])
    else if -n >= |s| then [] else s[-n..]
  }

  /** `generated_chords[-window_size:] if window_size > 0 else []`. */
  function History(generated: seq<int>, windowSize: int): (h: seq<int>)
    ensures |h| == if windowSize > 0 then Min(windowSize, |generated|) else 0
    ensures h == generated[|generated| - |h|..]
  {
    if windowSize > 0 then NegSlice(generated, windowSize) else []
  }

  /** What one iteration handed to the network and to the sampler. */
  datatype OracleCall = OracleCall(input: seq<int>, history: seq<int>, temperature: real, repetitiveness: real)

  /** A finished run of the loop: the chords, and one oracle call per appended chord. */
  datatype Trace = Trace(chords: seq<int>, calls: seq<OracleCall>)

  /** The ways a `/generate` request fails before it is answered. */
  datatype ServerError =
    | UnseenLabel      // LabelEncoder.transform met a label it was not fitted on
    | EmptyStartRange  // np.random.choice(len(classes) - 1) with fewer than two classes
    | SamplerFailed    // np.random.choice(len(p), p=probabilities) met NaN or negative probabilities

  /**
   * The model input of an iteration, chosen by the length of the SEED, not of the
   * sequence so far: a random single chord (never the last class) for an empty
   * seed, the last `SequenceLength` chords for a long seed, everything otherwise.
   */
  predicate IsModelInput(seed: seq<int>, soFar: seq<int>, input: seq<int>, numClasses: int) {
    if |seed| == 0 then |input| == 1 && 0 <= input[0] < numClasses - 1
    else if SequenceLength <= |seed| then input == NegSlice(soFar, SequenceLength)
    else input == soFar
  }

  /** The loop's fixed sampling parameters. */
  datatype Params = Params(windowSize: int, temperature: real, repetitiveness: real, numClasses: int)

  /**
   * One oracle call made while the sequence so far was `soFar`: the right input,
   * the history window, and the temperature and weight of the run.
   */
  predicate IsCallAt(seed: seq<int>, soFar: seq<int>, call: OracleCall, ps: Params) {
    IsModelInput(seed, soFar, call.input, ps.numClasses) &&
    call.history == History(soFar, ps.windowSize) &&
    call.temperature == ps.temperature && call.repetitiveness == ps.repetitiveness
  }

  /** Every recorded call was made on the prefix of `chords` that existed at its iteration. */
  predicate CallsFit(seed: seq<int>, chords: seq<int>, calls: seq<OracleCall>, ps: Params)
    requires |chords| == |seed| + |calls|
  {
    forall k :: 0 <= k < |calls| ==> IsCallAt(seed, chords[..|seed| + k], calls[k], ps)
  }

  /** Appending a chord and the call that produced it keeps the earlier calls fitting. */
  lemma CallsFitExtend(seed: seq<int>, chords: seq<int>, calls: seq<OracleCall>, call: OracleCall,
                       next: int, ps: Params)
    requires |chords| == |seed| + |calls|
    requires CallsFit(seed, chords, calls, ps)
    requires IsCallAt(seed, chords, call, ps)
    ensures CallsFit(seed, chords + [next], calls + [call], ps)
  {
    var chords', calls' := chords + [next], calls + [call];
    forall k | 0 <= k < |calls'|
      ensures IsCallAt(seed, chords'[..|seed| + k], calls'[k], ps)
    {
      if k < |calls| {
        assert chords'[..|seed| + k] == chords[..|seed| + k];
      } else {
        assert chords'[..|seed| + k] == chords;
      }
    }
  }

  /** `np.random.choice(len(encoder.classes_) - 1)`: any index but the last class; fails with fewer than two classes. */
  method RandomStart(numClasses: int) returns (start: Option<int>)
    ensures start.None? <==> numClasses < 2
    ensures start.Some? ==> 0 <= start.value < numClasses - 1
  {
    if numClasses < 2 {
      return None;
    }
    var s :| 0 <= s < numClasses - 1;
    start := Some(s);
  }

  /**
   * sample_with_temperature_and_multiplier raises. A zero temperature divides the
   * log-probabilities by zero and leaves NaN. The weight multiplies a class's
   * probability once per occurrence in the window: a zero weight on a window that
   * holds every class zeroes the whole vector, so the renormalisation divides 0 by
   * 0; a negative weight makes exactly the classes of odd count negative, and when
   * a class of even count (possibly 0) stays positive beside them, dividing by the
   * sum leaves a negative entry whatever its sign. When every class has an odd
   * count, all entries are negative and the division makes them a distribution.
   */
  predicate SamplerRaises(history: seq<int>, temperature: real, repetitiveness: real, numClasses: int) {
    temperature == 0.0 ||
    (repetitiveness == 0.0 && forall c :: 0 <= c < numClasses ==> c in history) ||
    (repetitiveness < 0.0 &&
     (exists i :: 0 <= i < |history| && multiset(history)[history[i]] % 2 == 1) &&
     (exists c :: 0 <= c < numClasses && multiset(history)[c] % 2 == 0))
  }

  /**
   * `model.predict` followed by sample_with_temperature_and_multiplier: the oracle
   * returns some index of the probability vector, one entry per class, or raises
   * when that vector is not a distribution. The sampler indexes the vector with
   * every history entry, so those must be classes.
   */
  method Sample(input: seq<int>, history: seq<int>, temperature: real, repetitiveness: real, numClasses: int)
    returns (next: Result<int, ServerError>)
    requires numClasses > 0
    requires forall i :: 0 <= i < |history| ==> 0 <= history[i] < numClasses
    ensures next.Failure? <==> SamplerRaises(history, temperature, repetitiveness, numClasses)
    ensures next.Failure? ==> next.error == SamplerFailed
    ensures next.Success? ==> 0 <= next.value < numClasses
  {
    if SamplerRaises(history, temperature, repetitiveness, numClasses) {
      return Failure(SamplerFailed);
    }
    var i :| 0 <= i < numClasses;
    next := Success(i);
  }

  /**
   * generate_chord_sequence: append `numChords - |seed|` sampled chords (none when
   * that is not positive) to a copy of the seed.
   */
  method GenerateChordSequence(seed: seq<int>, numChords: int, temperature: real, windowSize: int,
                               repetitiveness: real, numClasses: int)
    returns (r: Result<Trace, ServerError>)
    requires forall i :: 0 <= i < |seed| ==> 0 <= seed[i] < numClasses
    ensures r == Failure(EmptyStartRange) <==> |seed| == 0 && numChords > 0 && numClasses < 2
    ensures r.Failure? ==> r.error == EmptyStartRange || r.error == SamplerFailed
    ensures (numChords > |seed| && !(|seed| == 0 && numClasses < 2) && temperature == 0.0) ==>
              r == Failure(SamplerFailed)
    ensures (numChords > |seed| && repetitiveness < 0.0 && OddFirstWindow(|seed|, windowSize, numClasses)) ==>
              r == Failure(SamplerFailed)
    ensures r == Failure(SamplerFailed) ==>
              (numChords > |seed| &&
               (temperature == 0.0 || (repetitiveness < 0.0 && windowSize > 0 && numClasses >= 2) ||
                (repetitiveness == 0.0 && numClasses <= windowSize && numClasses < numChords)))
    ensures r.Success? ==> |r.value.chords| == Max(numChords, |seed|)
    ensures r.Success? ==> r.value.chords[..|seed|] == seed
    ensures r.Success? ==> forall i :: 0 <= i < |r.value.chords| ==> 0 <= r.value.chords[i] < numClasses
    ensures r.Success? ==> |r.value.calls| == |r.value.chords| - |seed|
    ensures r.Success? ==>
              CallsFit(seed, r.value.chords, r.value.calls, Params(windowSize, temperature, repetitiveness, numClasses))
    ensures r.Success? ==> forall k :: 0 <= k < |r.value.calls| ==>
              !SamplerRaises(r.value.calls[k].history, temperature, repetitiveness, numClasses)
  {
    var ps := Params(windowSize, temperature, repetitiveness, numClasses);
    var generated := seed;
    var calls: seq<OracleCall> := [];
    var iterations := Max(numChords - |seed|, 0);
    var n := 0;
    NegativeWeightRaises(seed, windowSize, temperature, repetitiveness, numClasses);
    while n < iterations
      invariant 0 <= n <= iterations
      invariant |seed| == 0 && numClasses < 2 ==> n == 0
      invariant |generated| == |seed| + n && |calls| == n
      invariant generated[..|seed|] == seed
      invariant forall i :: 0 <= i < |generated| ==> 0 <= generated[i] < numClasses
      invariant CallsFit(seed, generated, calls, ps)
      invariant forall k :: 0 <= k < n ==> !SamplerRaises(calls[k].history, temperature, repetitiveness, numClasses)
      invariant n > 0 ==> temperature != 0.0
      invariant n > 0 ==> !(repetitiveness < 0.0 && OddFirstWindow(|seed|, windowSize, numClasses))
    {
      var input: seq<int>;
      if |seed| == 0 {
        var start := RandomStart(numClasses);
        if start.None? {
          return Failure(EmptyStartRange);
        }
        input := [start.value];
      } else if SequenceLength <= |seed| {
        input := NegSlice(generated, SequenceLength);
      } else {
        input := generated;
      }
      var history := History(generated, windowSize);
      assert n == 0 ==> generated == seed;
      assert |seed| > 0 ==> 0 <= seed[0] < numClasses;
      var sampled := Sample(input, history, temperature, repetitiveness, numClasses);
      if sampled.Failure? {
        SamplerFailureNeeds(seed, generated, history, temperature, windowSize, repetitiveness, numClasses, numChords);
        return Failure(SamplerFailed);
      }
      var call := OracleCall(input, history, temperature, repetitiveness);
      CallsFitExtend(seed, generated, calls, call, sampled.value, ps);
      calls := calls + [call];
      generated := generated + [sampled.value];
      n := n + 1;
    }
    r := Success(Trace(generated, calls));
  }

  /**
   * A sampler failure needs a zero temperature, a negative weight on a non-empty
   * window with at least two classes, or a zero weight on a window that can hold
   * every class.
   */
  lemma SamplerFailureNeeds(seed: seq<int>, generated: seq<int>, history: seq<int>, temperature: real,
                            windowSize: int, repetitiveness: real, numClasses: int, numChords: int)
    requires |seed| <= |generated| < numChords
    requires numClasses > 0
    requires history == History(generated, windowSize)
    requires forall i :: 0 <= i < |history| ==> 0 <= history[i] < numClasses
    requires SamplerRaises(history, temperature, repetitiveness, numClasses)
    ensures temperature == 0.0 || (repetitiveness < 0.0 && windowSize > 0 && numClasses >= 2) ||
            (repetitiveness == 0.0 && numClasses <= windowSize && numClasses < numChords)
  {
    if temperature != 0.0 && repetitiveness == 0.0 {
      WindowHoldsClasses(history, numClasses);
    } else if temperature != 0.0 && repetitiveness < 0.0 {
      var i :| 0 <= i < |history| && multiset(history)[history[i]] % 2 == 1;
      var c :| 0 <= c < numClasses && multiset(history)[c] % 2 == 0;
      assert history[i] != c;
    }
  }

  /**
   * The first window is the last `min(windowSize, |seed|)` seed chords; this says
   * it is of odd length and too short to hold every class.
   */
  predicate OddFirstWindow(seedLength: int, windowSize: int, numClasses: int) {
    seedLength > 0 && windowSize > 0 &&
    Min(windowSize, seedLength) % 2 == 1 && numClasses > Min(windowSize, seedLength)
  }

  /**
   * A negative weight on an odd first window always raises: some chord occurs an
   * odd number of times in it and some class does not occur at all.
   */
  lemma NegativeWeightRaises(seed: seq<int>, windowSize: int, temperature: real, repetitiveness: real, numClasses: int)
    ensures repetitiveness < 0.0 && OddFirstWindow(|seed|, windowSize, numClasses) ==>
              SamplerRaises(History(seed, windowSize), temperature, repetitiveness, numClasses)
  {
    if repetitiveness < 0.0 && OddFirstWindow(|seed|, windowSize, numClasses) {
      var history := History(seed, windowSize);
      OddLengthHasOddCount(history);
      if forall c :: 0 <= c < numClasses ==> c in history {
        WindowHoldsClasses(history, numClasses);
      }
      var c :| 0 <= c < numClasses && c !in history;
      assert multiset(history)[c] == 0;
    }
  }

  /** `s` with every occurrence of `x` removed. */
  function Without(s: seq<int>, x: int): (w: seq<int>)
    ensures |w| + multiset(s)[x] == |s|
    ensures x !in w
    ensures forall y :: y in w ==> y in s
    ensures forall y :: y != x ==> multiset(w)[y] == multiset(s)[y]
  {
    if s == [] then []
    else
      assert s == [s[0]] + s[1..];
      (if s[0] == x then [] else [s[0]]) + Without(s[1..], x)
  }

  /** In a sequence of odd length some element occurs an odd number of times. */
  lemma {:induction false} OddLengthHasOddCount(s: seq<int>)
    requires |s| % 2 == 1
    ensures exists i :: 0 <= i < |s| && multiset(s)[s[i]] % 2 == 1
    decreases |s|
  {
    var x := s[0];
    if multiset(s)[x] % 2 == 0 {
      assert x in multiset(s);
      var w := Without(s, x);
      OddLengthHasOddCount(w);
      var j :| 0 <= j < |w| && multiset(w)[w[j]] % 2 == 1;
      assert w[j] in s;
      var i :| 0 <= i < |s| && s[i] == w[j];
      assert multiset(s)[s[i]] % 2 == 1;
    } else {
      assert multiset(s)[s[0]] % 2 == 1;
    }
  }

  /** A window that holds every class of `0..numClasses` is at least that long. */
  lemma {:induction false} WindowHoldsClasses(history: seq<int>, numClasses: int)
    requires forall c :: 0 <= c < numClasses ==> c in history
    ensures numClasses <= |history|
    decreases numClasses
  {
    if numClasses > 0 {
      assert numClasses - 1 in history;
      var j :| 0 <= j < |history| && history[j] == numClasses - 1;
      var rest := history[..j] + history[j + 1..];
      forall c | 0 <= c < numClasses - 1
        ensures c in rest
      {
        assert c in history;
        var k :| 0 <= k < |history| && history[k] == c;
        if k < j {
          assert rest[k] == c;
        } else {
          assert rest[k - 1] == c;
        }
      }
      WindowHoldsClasses(rest, numClasses - 1);
    }
  }

  /** What an iteration's calls look like for each kind of seed. */
  lemma ModelInputBySeedLength(seed: seq<int>, chords: seq<int>, calls: seq<OracleCall>, ps: Params, k: int)
    requires |chords| == |seed| + |calls|
    requires CallsFit(seed, chords, calls, ps)
    requires 0 <= k < |calls|
    ensures |seed| == 0 ==> |calls[k].input| == 1 && 0 <= calls[k].input[0] < ps.numClasses - 1
    ensures SequenceLength <= |seed| ==> calls[k].input == chords[|seed| + k - SequenceLength..|seed| + k]
    ensures 0 < |seed| < SequenceLength ==> calls[k].input == chords[..|seed| + k]
    ensures |calls[k].history| == if ps.windowSize > 0 then Min(ps.windowSize, |seed| + k) else 0
    ensures calls[k].history == chords[|seed| + k - |calls[k].history|..|seed| + k]
    ensures calls[k].temperature == ps.temperature && calls[k].repetitiveness == ps.repetitiveness
  {
  }

  /** `[chord['value'] for chord in seed]`: the chord label of every selected option, in order. */
  function SeedValues(options: seq<SelectionOption>): (values: seq<string>)
    ensures |values| == |options|
    ensures forall i :: 0 <= i < |options| ==> values[i] == options[i].value
  {
    seq(|options|, i requires 0 <= i < |options| => options[i].value)
  }

  /**
   * The repetitiveness table of the handler: the five slider positions become
   * multipliers 0, 5, 40, 300 and 40000; any other value is used as it is.
   */
  function RepetitivenessWeight(x: real): (w: real)
    ensures x == 0.0 ==> w == 0.0
    ensures x == 1.0 ==> w == 5.0
    ensures x == 2.0 ==> w == 40.0
    ensures x == 3.0 ==> w == 300.0
    ensures x == 4.0 ==> w == 40000.0
    ensures x !in {0.0, 1.0, 2.0, 3.0, 4.0} ==> w == x
  {
    if x == 0.0 then x * 0.01
    else if x == 1.0 then x * 5.0
    else if x == 2.0 then x * 20.0
    else if x == 3.0 then x * 100.0
    else if x == 4.0 then x * 10000.0
    else x
  }

  /** A higher slider position always weights recently played chords more. */
  lemma WeightIncreasing(a: int, b: int)
    requires 0 <= a < b <= 4
    ensures RepetitivenessWeight(a as real) < RepetitivenessWeight(b as real)
  {
  }

  /** The generation arguments the handler reads from a body. */
  datatype GenerationArgs = GenerationArgs(numChords: int, temperature: real, seed: seq<string>, repetitiveness: real)

  /** The decoding part of `generate`: defaults for missing keys, option values, the repetitiveness table. */
  function DecodeRequest(body: RequestJson): (args: GenerationArgs)
    ensures args.numChords == if body.length.Some? then body.length.value else DefaultLength
    ensures args.temperature == if body.temperature.Some? then body.temperature.value else DefaultTemperature
    ensures body.selectedChords.None? ==> args.seed == []
    ensures body.selectedChords.Some? ==> args.seed == SeedValues(body.selectedChords.value)
    ensures body.repetitiveness.None? ==> args.repetitiveness == RepetitivenessWeight(DefaultRepetitiveness)
    ensures body.repetitiveness.Some? ==> args.repetitiveness == RepetitivenessWeight(body.repetitiveness.value)
  {
    GenerationArgs(
      body.length.GetOr(DefaultLength),
      body.temperature.GetOr(DefaultTemperature),
      SeedValues(body.selectedChords.GetOr([])),
      RepetitivenessWeight(body.repetitiveness.GetOr(DefaultRepetitiveness)))
  }

  /** An empty body asks for four chords at temperature 1 from no seed, with the weight of position 2. */
  lemma DecodeDefaults()
    ensures DecodeRequest(RequestJson(None, None, None, None, None)) == GenerationArgs(4, 1.0, [], 40.0)
  {
  }

  /** A body the client posted is read back as sent, the seed as the options' values, the weight through the table. */
  lemma DecodeClientRequest(req: GenerateRequest)
    ensures var args := DecodeRequest(ToJson(req));
      args.numChords == req.length && args.temperature == req.temperature &&
      |args.seed| == |req.selectedChords| &&
      (forall i :: 0 <= i < |args.seed| ==> args.seed[i] == req.selectedChords[i].value) &&
      args.repetitiveness == RepetitivenessWeight(req.repetitiveness)
  {
  }

  /** The request's `window_size` key has no effect on what is decoded. */
  lemma WindowSizeIgnored(body: RequestJson, w: Option<int>)
    ensures DecodeRequest(body.(windowSize := w)) == DecodeRequest(body)
  {
  }

  /** The position of `chord` in the encoder's classes, as LabelEncoder.transform finds it. */
  function IndexOf(classes: seq<string>, chord: string): (r: Option<nat>)
    ensures r.None? <==> chord !in classes
    ensures r.Some? ==> r.value < |classes| && classes[r.value] == chord
  {
    if classes == [] then None
    else if classes[0] == chord then Some(0)
    else match IndexOf(classes[1..], chord)
      case None => None
      case Some(i) => Some(i + 1)
  }

  /** LabelEncoder.transform: every label's class index, or None (a ValueError) when one is unseen. */
  function Transform(classes: seq<string>, labels: seq<string>): (r: Option<seq<int>>)
    ensures r.None? <==> exists i :: 0 <= i < |labels| && labels[i] !in classes
    ensures r.Some? ==> |r.value| == |labels|
    ensures r.Some? ==> forall i :: 0 <= i < |labels| ==> 0 <= r.value[i] < |classes| && classes[r.value[i]] == labels[i]
  {
    if labels == [] then Some([])
    else
      var head, rest := IndexOf(classes, labels[0]), Transform(classes, labels[1..]);
      if head.Some? && rest.Some? then Some([head.value] + rest.value)
      else None
  }

  /** LabelEncoder.inverse_transform: the class label of every index. */
  function InverseTransform(classes: seq<string>, indices: seq<int>): (labels: seq<string>)
    requires forall i :: 0 <= i < |indices| ==> 0 <= indices[i] < |classes|
    ensures |labels| == |indices|
    ensures forall i :: 0 <= i < |indices| ==> labels[i] == classes[indices[i]] && labels[i] in classes
  {
    seq(|indices|, i requires 0 <= i < |indices| => classes[indices[i]])
  }

  /** Decoding the encoded labels gives the labels back. */
  lemma InverseTransformOfTransform(classes: seq<string>, labels: seq<string>)
    requires Transform(classes, labels).Some?
    ensures InverseTransform(classes, Transform(classes, labels).value) == labels
  {
  }

  /** A served request: the response body and the oracle calls made while producing it. */
  datatype Served = Served(response: GenerateResponse, calls: seq<OracleCall>)

  /**
   * The `/generate` handler up to the MIDI file: decode the body, encode the seed,
   * extend it with the default window, decode the result and point at the MIDI file.
   */
  method HandleGenerate(body: RequestJson, classes: seq<string>) returns (r: Result<Served, ServerError>)
    ensures var args := DecodeRequest(body);
      r == Failure(UnseenLabel) <==> Transform(classes, args.seed).None?
    ensures var args := DecodeRequest(body);
      r == Failure(EmptyStartRange) <==> |args.seed| == 0 && args.numChords > 0 && |classes| < 2
    ensures var args := DecodeRequest(body);
      (Transform(classes, args.seed).Some? && args.numChords > |args.seed| &&
       !(|args.seed| == 0 && |classes| < 2) && args.temperature == 0.0) ==> r == Failure(SamplerFailed)
    ensures var args := DecodeRequest(body);
      (Transform(classes, args.seed).Some? && args.numChords > |args.seed| && args.repetitiveness < 0.0 &&
       OddFirstWindow(|args.seed|, DefaultWindowSize, |classes|)) ==> r == Failure(SamplerFailed)
    ensures var args := DecodeRequest(body);
      r == Failure(SamplerFailed) ==>
        (args.numChords > |args.seed| &&
         (args.temperature == 0.0 || (args.repetitiveness < 0.0 && |classes| >= 2) ||
          (args.repetitiveness == 0.0 && |classes| <= DefaultWindowSize && |classes| < args.numChords)))
    ensures r.Success? ==> var args, p := DecodeRequest(body), r.value.response.chordProgression;
      |p| == Max(args.numChords, |args.seed|) && p[..|args.seed|] == args.seed &&
      (forall i :: 0 <= i < |p| ==> p[i] in classes) &&
      r.value.response.midiUrl == MidiUrl
    ensures r.Success? ==> var args := DecodeRequest(body);
      |r.value.calls| == Max(args.numChords, |args.seed|) - |args.seed| &&
      forall k :: 0 <= k < |r.value.calls| ==>
        |r.value.calls[k].history| == Min(DefaultWindowSize, |args.seed| + k) &&
        r.value.calls[k].temperature == args.temperature && r.value.calls[k].repetitiveness == args.repetitiveness &&
        !SamplerRaises(r.value.calls[k].history, args.temperature, args.repetitiveness, |classes|)
  {
    var args := DecodeRequest(body);
    var encoded := Transform(classes, args.seed);
    if encoded.None? {
      return Failure(UnseenLabel);
    }
    var seed := encoded.value;
    var generated := GenerateChordSequence(seed, args.numChords, args.temperature, DefaultWindowSize,
                                           args.repetitiveness, |classes|);
    if generated.Failure? {
      return Failure(generated.error);
    }
    var trace := generated.value;
    var chords := InverseTransform(classes, trace.chords);
    forall k | 0 <= k < |trace.calls|
      ensures |trace.calls[k].history| == Min(DefaultWindowSize, |seed| + k)
      ensures trace.calls[k].temperature == args.temperature && trace.calls[k].repetitiveness == args.repetitiveness
    {
      ModelInputBySeedLength(seed, trace.chords, trace.calls,
                             Params(DefaultWindowSize, args.temperature, args.repetitiveness, |classes|), k);
    }
    assert chords[..|seed|] == args.seed by {
      assert trace.chords[..|seed|] == seed;
      forall i | 0 <= i < |seed| ensures chords[i] == args.seed[i] {
        assert trace.chords[i] == seed[i];
      }
    }
    r := Success(Served(GenerateResponse(chords, MidiUrl), trace.calls));
  }

  /** A temperature of 0 with classes C, G, Am and seed C asked for four chords: the sampler raises. */
  method ZeroTemperatureScenario() {
    var body := RequestJson(Some(4), Some(0.0), Some(2.0), None, Some([SelectionOption("C", "C")]));
    var r := HandleGenerate(body, ["C", "G", "Am"]);
    assert r == Failure(SamplerFailed);
  }

  /** A negative weight with classes C, G, Am and seed C asked for two chords: the window [C] raises. */
  method NegativeWeightScenario() {
    var body := RequestJson(Some(2), Some(1.0), Some(-1.0), None, Some([SelectionOption("C", "C")]));
    var r := HandleGenerate(body, ["C", "G", "Am"]);
    assert r == Failure(SamplerFailed);
  }

  /**
   * Weight 0 with two classes and seed 0 1 asked for three chords: the first window
   * is the seed, which holds both classes, so every probability becomes 0.
   */
  method ZeroWeightScenario() {
    var r := GenerateChordSequence([0, 1], 3, 1.0, DefaultWindowSize, 0.0, 2);
    if r.Success? {
      var ps := Params(DefaultWindowSize, 1.0, 0.0, 2);
      assert IsCallAt([0, 1], r.value.chords[..2], r.value.calls[0], ps);
      assert r.value.calls[0].history == [0, 1];
      assert SamplerRaises(r.value.calls[0].history, 1.0, 0.0, 2);
      assert false;
    }
    assert r == Failure(SamplerFailed);
  }
}
