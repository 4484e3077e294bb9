# Chord progression generator — a Dafny model of its controller and generation loop

The system lets a user pick a few seed chords and three parameters in a browser,
asks a Flask server for a generated chord progression, shows the result as a row
of chord boxes and downloads it as a MIDI file. This project models the two
pieces of sequential logic around the calls it cannot see:

- `client.dfy` (module `Client`): the React component's state (the eight
  `useState` fields) as the class `Client.App`; the catalogue transform
  (`ToOptions`, and the `push` loop `CollectOptions`); the guarded Generate click
  split at its `await` into `Submit` (the alert or the one request) and `Receive`
  (progression and MIDI URL replaced together); the box row `RenderSlots`; and
  `Download`, which returns the save it would trigger. JavaScript truthiness is
  written out: a box shows its label only when the label exists and is not `""`,
  and a `null` or empty MIDI URL downloads nothing.
- `server.dfy` (module `Server`): the `/generate` handler's decoding (defaults
  for missing keys, the `value` of each selected option, the repetitiveness
  table), LabelEncoder's transform and inverse transform as index lookups in the
  class list, and `generate_chord_sequence` as a loop. The trained network and
  the temperature sampler are an oracle: every iteration hands it a model input,
  a history window, the temperature and the repetitiveness weight, and gets back
  some class index, chosen nondeterministically, or the error `np.random.choice`
  raises when the probability vector is not a distribution. The sampler raises
  exactly for a temperature of 0, for a weight of 0 on a window that holds every
  class, and for a negative weight on a window where one chord occurs an odd and
  another class an even number of times (possibly none). The loop records each call in a
  `Trace` so that the input, window and parameter rules can be stated. Python's `s[-n:]` is modelled exactly
  (`NegSlice`), including `n <= 0`.
- `session.dfy` (module `Session`): the two together. A click that the server
  answers fills every one of the `length` boxes, the selected chords first; a
  request the server cannot answer leaves the page as it was. Every label a
  class, a start range for an empty seed, and a sampler that cannot raise on the
  page's parameters make the server answer.
- `wire.dfy` and `wrappers.dfy`: the JSON bodies exchanged, and `Option`/`Result`.

Network replies, the ML oracle and the class list of the encoder are inputs.
The model output width is taken to be the number of encoder classes.

## Model

| member | source | states |
|---|---|---|
| `Client.App.constructor` | App/frontend/src/App.js:8-15 | progression empty, catalogue and selection empty, MIDI URL null, length 4, temperature 1.0, repetitiveness 2.0, window size 4 |
| `Client.ToOptions` | App/frontend/src/App.js:27-31 | one option per catalogue label, in order, with label and value both equal to that label |
| `Client.CollectOptions` | App/frontend/src/App.js:27-30 | the `forEach`/`push` loop builds exactly the option list `ToOptions` describes |
| `Client.App.LoadChords` | App/frontend/src/App.js:20-32 | the catalogue becomes the option list of the labels `/chords` returned; nothing else changes |
| `Client.App.SetSelection` | App/frontend/src/App.js:158-162 | the multi-select replaces the selected options |
| `Client.App.SetLength` | App/frontend/src/App.js:172-190 | the length slider sets a length in 1..8 |
| `Client.App.SetTemperature` | App/frontend/src/App.js:172-190 | the temperature slider sets a temperature in 0.1..2.0 |
| `Client.App.SetRepetitiveness` | App/frontend/src/App.js:172-190 | the repetitiveness slider sets one of the positions 0..4 |
| `Client.App.Request` | App/frontend/src/App.js:36-50 | no body exactly when more chords are selected than the length; otherwise the body carries length, temperature, repetitiveness, window size and the selection as the page holds them |
| `Client.App.Submit` | App/frontend/src/App.js:36-50 | the click sends exactly the body `Request()` describes, leaving the page state untouched: nothing when the seed is too long, otherwise one request |
| `Client.App.Receive` | App/frontend/src/App.js:52-54 | progression and MIDI URL are both overwritten by the response's values, with no merge |
| `Client.App.Generate` | App/frontend/src/App.js:35-55 | a rejected click changes neither progression nor MIDI URL; an accepted one sends `Request()` and replaces both from the response |
| `Client.App.Download` | App/frontend/src/App.js:57-68 | nothing when the MIDI URL is null or empty; otherwise exactly one save of that URL as `chord_progression.mid` |
| `Client.SlotText` | App/frontend/src/App.js:100 | a box is never blank: it shows the label at its own index when that label exists and is non-empty, and the placeholder otherwise |
| `Client.RenderSlots` | App/frontend/src/App.js:77-103 | exactly `length` boxes (none for a negative length), box `i` showing the `i`-th label when it exists and is non-empty, the placeholder otherwise |
| `Client.RenderPlaceholderIff` | App/frontend/src/App.js:100 | a box shows the placeholder if and only if its label is missing, empty, or the placeholder text itself |
| `Client.RenderShowsWholeProgression` | App/frontend/src/App.js:78-100 | a progression of exactly `length` non-empty labels is shown unchanged |
| `Client.RenderIgnoresTail` | App/frontend/src/App.js:78-100 | labels beyond the requested length never reach the page |
| `Client.RenderPadsShortProgression` | App/frontend/src/App.js:78-100 | a short progression leaves every remaining box as the placeholder |
| `Server.NegSlice` | App/backend/app.py:68 | Python's `s[-n:]`: the last `min(n, len)` items for positive `n`, the list without its first `-n` items otherwise |
| `Server.History` | App/backend/app.py:74 | the history is a suffix of the chords so far, of length `min(window_size, len)` when the window is positive, empty otherwise |
| `Server.RandomStart` | App/backend/app.py:65 | the random start is a class index other than the last; it fails when there are fewer than two classes |
| `Server.Sample` | App/backend/app.py:26-50 | raises exactly for a zero temperature, a zero weight on a history that holds every class, or a negative weight on a history where some chord occurs an odd number of times and some class an even number (possibly zero); otherwise the next chord is an index of the probability vector |
| `Server.GenerateChordSequence` | App/backend/app.py:52-79 | the result starts with the seed unchanged and has `max(num_chords, len(seed))` chords, all classes; one oracle call per appended chord, each with the input rule, the last-`window_size` history of the chords generated so far, and the run's temperature and weight; an empty seed with fewer than two classes fails before sampling; a sampler failure needs chords to generate and a zero temperature, a negative weight with a positive window and at least two classes, or a zero weight with no more classes than the window and the length; a zero temperature always fails, and so does a negative weight when the first window has odd length and is shorter than the class count; no answered run passed the sampler a window that forced it to raise |
| `Server.SamplerFailureNeeds` | App/backend/app.py:38-50 | the sampler can raise only for a zero temperature, a negative weight with a positive window and at least two classes, or a zero weight when the window can hold every class |
| `Server.NegativeWeightRaises` | App/backend/app.py:43-50 | a negative weight on a first window of odd length, shorter than the class count, always makes the sampler raise |
| `Server.ModelInputBySeedLength` | App/backend/app.py:64-74 | the input is chosen by the seed's length: a random single chord for an empty seed, the last 4 chords so far for a seed of 4 or more, all chords so far otherwise; the history has `min(window_size, len)` chords |
| `Server.RepetitivenessWeight` | App/backend/app.py:89-99 | the table 0→0, 1→5, 2→40, 3→300, 4→40000, every other value unchanged |
| `Server.WeightIncreasing` | App/backend/app.py:89-99 | a higher slider position always gives a larger weight |
| `Server.SeedValues` | App/backend/app.py:87 | the seed is the `value` of each selected option, one per option, in order |
| `Server.DecodeRequest` | App/backend/app.py:84-99 | each missing key takes its default (length 4, temperature 1.0, no seed, repetitiveness 2.0); present keys are used as given; the seed is the options' values; the repetitiveness goes through the weight table |
| `Server.DecodeDefaults` | App/backend/app.py:84-89 | an empty body decodes to length 4, temperature 1.0, an empty seed and the weight of position 2 |
| `Server.DecodeClientRequest` | App/backend/app.py:83-89 | a client body is read back as sent; the seed is the `value` of each selected option, in order |
| `Server.WindowSizeIgnored` | App/backend/app.py:83-100 | the request's `window_size` has no effect on the decoded arguments |
| `Server.IndexOf` | App/backend/app.py:88 | the position of a label among the classes, absent exactly when the label is not a class |
| `Server.Transform` | App/backend/app.py:88 | every label's class index, or failure exactly when some label is not a class |
| `Server.InverseTransform` | App/backend/app.py:102 | one label per index, the class at that index, so every label is a class |
| `Server.InverseTransformOfTransform` | App/backend/app.py:102 | decoding the encoded seed gives the seed labels back |
| `Server.HandleGenerate` | App/backend/app.py:81-127 | fails with an unseen label exactly when some seed label is not a class, and with no start range exactly for an empty seed, chords to generate and fewer than two classes; a zero temperature with chords to generate always makes the sampler raise, and a negative weight with a first window of odd length, shorter than the class count, always makes it raise; a sampler failure needs a zero temperature, a negative weight with at least two classes, or a zero weight with at most 4 classes, fewer than the length; otherwise answers `max(length, len(seed))` class labels starting with the seed labels and the fixed MIDI URL, generated with a window of 4 whatever the request says and with the decoded temperature and weight in every sampler call |
| `Session.OptionsRoundTrip` | App/frontend/src/App.js:27-31 | the values the server reads from the offered options are exactly the catalogue labels |
| `Session.ClickGenerate` | App/frontend/src/App.js:35-55 | a click sends nothing when the seed is too long; an answered click had every selected label a class and a start range for an empty seed, and those two make the server answer unless the repetitiveness slider is at 0 with at most 4 classes, fewer than the length; when the server answers, the page holds exactly `length` chords, the selected ones first, all shown, and the fixed MIDI URL; otherwise nothing changes |

## Left out

- React rendering, inline styles, framer-motion animation and the react-select widget: presentation only.
- `fetch`, `async` suspension and JSON parsing: replies are method parameters. Two Generate clicks in flight at once are not modelled (concurrency).
- A failed or malformed `/chords` reply: it leaves the catalogue empty, which is `LoadChords` never being called.
- The DOM anchor, its click and `console.log` in `downloadMIDI`: modelled only as the returned `Save(url, fileName)`.
- The `alert` text: modelled as `Submit` returning no request.
- `Server.Sample`: the probabilities themselves are not modelled, so the sampled index is only known to be in range. The softmax output is taken to be strictly positive and the arithmetic exact: floating-point underflow (an extremely small temperature that rounds every probability to 0), overflow, and a renormalising sum that rounds to exactly 0 are not modelled.
- `model.predict`: part of the sampling oracle; its output width is taken to equal the number of encoder classes.
- `Server.Transform`: LabelEncoder with duplicate classes would return the last position; the model returns the first, which agrees for the unique, sorted class list the encoder is fitted with.
- `Server.GenerateChordSequence`: `np.append`'s float array and the final `astype(int)` are not modelled; chords are integers throughout.
- The MIDI construction with music21, the `chords_notes` lookup, writing the file, the `/chords`, `/` and static-file routes and CORS: I/O.
- `Client.App.SetLength`, `Client.App.SetTemperature`, `Client.App.SetRepetitiveness`: their bounds are those of the range inputs that call them; the 0.1 step of the temperature slider is not modelled.

## Where the code decides

- The server returns `max(length, len(seed))` chords (app.py:63 loops `num_chords - len(seed)` times, which is no iterations for a longer seed); the page receives exactly `length` chords only because App.js:36 rejects longer seeds first (`Session.ClickGenerate`).
- `downloadMIDI` tests the URL for truthiness (App.js:58), so an empty URL downloads nothing, just as `null` does.
- The repetitiveness slider has step 1 (App.js:175), so it yields only the five positions the table at app.py:90-99 maps; any other value would pass through unchanged.
- The request's `window_size` is sent (App.js:47) but never read: app.py:100 leaves `generate_chord_sequence` at its default window of 4.
- Repetitiveness position 0 multiplies by 0.01, giving a weight of exactly 0 (app.py:90-91); with 4 or fewer classes, fewer than the length, the history can then hold every class and the sampler raises.
