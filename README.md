# Brainprint authentication: the session core

Brainprint is a desktop screen for EEG-based authentication (`main.py`,
class `BrainprintUI`). Most of its code is Tk widgets and a matplotlib plot.
Under that sits a small sequential core, and this project models and proves it:

- **The rolling sample buffer** (`eeg_buffer`). While streaming is active,
  each acquisition tick stores one 4-channel sample. When that pushes the
  buffer past 100 entries, the oldest entry is dropped (`append`, then
  `pop(0)`).
- **The authentication run.** The authenticate button disables itself and
  starts a worker. The worker logs each stage as it starts: capture the
  trailing window `eeg_buffer[-100:]`, preprocess (identity), extract
  features (identity), add a batch axis, run the model. It then logs the
  match and publishes the result, which re-enables the button.
- **The session flags.** `is_running`, whether the connect and authenticate
  buttons are enabled, and the append-only system log.

Files:

- `rolling_buffer.dfy` (module `RollingBuffer`) gives the buffer as values:
  - `Push` is one tick.
  - `PushAll` is a run of ticks.
  - `Last` is Python's `s[-k:]` slice, for k >= 1.
  - Lemmas prove that any run of ticks leaves exactly the last 100 samples, in order.
- `stages.dfy` (module `Stages`) holds the pure stage transforms.
- `brainprint.dfy` (module `Brainprint`) holds the class `BrainprintUI`:
  - Its fields are the ones the application updates in place.
  - `Valid()` is the invariant every method keeps: the buffer is within
    capacity, every sample has 4 channels, the connect button is enabled
    exactly while not streaming, and at most one authentication worker is in
    flight.
  - Each method's `ensures` gives its whole new state.
  - The file also holds a client method, `StreamAndAuthenticate`, that drives
    a whole session.

Channel traces are opaque: the type parameter `W` stands for one channel's
array of readings. Log lines are the values of the datatype `Message`, one
constructor per line the program writes, and `Text` gives each one's exact
wording. Different lines have different text, so a log of `Message` values
and the text log determine each other.

What the code does and does not do:

- Samples carry no sequence number.
- There is no stop operation. `is_running` is never cleared.
- The code defines no error kinds. Exclusion between runs comes only from
  disabling the authenticate button. `StartStream` and `RunAuthentication`
  therefore require that their button is enabled: Tk never calls the command
  of a disabled button.
- With an empty buffer, the capture does not fail. `np.array([])` is
  one-dimensional, so the tensor-assembly step `features[np.newaxis, :, :]`
  raises `IndexError`. The worker ends there, after four log lines, and
  nothing re-enables the authenticate button. `ProcessData` models this path.
  It returns `None` and leaves the button disabled. `StreamAndAuthenticate`
  shows that this path is reachable when authentication is triggered before
  the first tick.
- Capture takes no lock. In the model the environment calls the tick and the
  worker one after another, so every capture sees a whole buffer.

## Model

| member | source | states |
|---|---|---|
| RollingBuffer.Last | main.py:159 | For k >= 1, the slice `s[-k:]` has length min(len, k) and is the trailing part of `s`, in order |
| RollingBuffer.Push | main.py:145-147 | One tick keeps a buffer that was within 100 entries within 100. The new sample is last. Below capacity the buffer grows by exactly that sample and earlier entries are unchanged. At capacity only the oldest entry is evicted |
| RollingBuffer.PushAll | main.py:132-147 | Any run of ticks from a buffer within capacity leaves it within capacity |
| RollingBuffer.PushOntoWindow | main.py:145-159 | Ticking the 100-entry window of a history gives the window of the history extended by the new sample |
| RollingBuffer.PushAllKeepsLast | main.py:145-147 | From any buffer within capacity, a run of ticks leaves exactly the last 100 entries of old buffer followed by new samples, in acquisition order |
| RollingBuffer.PushAllFromEmpty | main.py:29-147 | Starting from the empty buffer, after n ticks the buffer holds exactly the last min(n, 100) samples appended, in append order |
| Stages.Preprocess | main.py:165 | Preprocessing returns the captured segment unchanged |
| Stages.ExtractFeatures | main.py:170 | Feature extraction returns the preprocessed segment unchanged |
| Stages.AssembleInput | main.py:175 | The model input is a batch of exactly one element, the features. It is absent exactly when the features are empty, where numpy raises |
| Stages.PipelineWrapsSegment | main.py:159-175 | Preprocessing and feature extraction leave the captured segment unchanged, so the model input is the segment itself as one batch element |
| Brainprint.Transcript | main.py:117-118 | The text log has one line per logged message, each the text of that message, in order |
| Brainprint.TextInjective | main.py:96-195 | No two different log lines written by the program have the same text; a match line's text determines the user |
| Brainprint.TranscriptInjective | main.py:117-118 | Two logs with the same text are the same sequence of log lines, so every log claim over lines holds of the text log |
| Brainprint.RunTranscript | main.py:158-195 | The text of a completed run is exactly "Capturing 5s EEG segment...", "Preprocessing EEG...", "Extracting Features...", "Preparing input tensor for LSTM...", "Running LSTM Model...", "Match Found: " + user, "Authentication Complete.", in that order |
| Brainprint.Channels | main.py:134-145 | Every stored sample has exactly 4 channel entries, in channel order y1, y2, y3, y4 |
| Brainprint.BrainprintUI.constructor | main.py:22-96 | A new screen is not streaming, has an empty buffer and a live connect button. The authenticate button is disabled and the log holds only "System Idle..." |
| Brainprint.BrainprintUI.Log | main.py:117-118 | A log call appends exactly one line and changes no earlier line |
| Brainprint.BrainprintUI.StartStream | main.py:121-128 | Streaming becomes active, the connect button is disabled and the authenticate button enabled. The two stream lines are appended in order. The invariant is kept |
| Brainprint.BrainprintUI.Tick | main.py:144-147 | One acquisition tick changes only the buffer, exactly as `Push` of the reading's 4-channel sample. Capacity and the 4-channel invariant are kept |
| Brainprint.BrainprintUI.AnimateGraph | main.py:130-150 | While streaming, the loop leaves the buffer equal to `PushAll` of the old buffer and one sample per reading. When not streaming it changes nothing. Flags, buttons and log are untouched |
| Brainprint.BrainprintUI.RunAuthentication | main.py:152-154 | Triggering disables the authenticate button and starts the only run in flight. A second trigger is impossible until the run ends |
| Brainprint.BrainprintUI.CaptureSegment | main.py:159 | The captured segment is the last min(len, 100) buffer entries, in order. Because the buffer never exceeds 100, this is the whole buffer. The buffer is not changed |
| Brainprint.BrainprintUI.ProcessData | main.py:157-187 | A completed run appends exactly the lines Capturing, Preprocessing, Extracting Features, Preparing input tensor, Running LSTM Model, Match Found: user, Authentication Complete, in that order, after the untouched earlier log. It hands the model the buffer as one batch element, re-enables authentication and leaves the buffer unchanged. On an empty buffer it stops after the first four lines with the button still disabled |
| Brainprint.BrainprintUI.UpdateResult | main.py:190-195 | Publishing re-enables the authenticate button, ends the run and appends "Authentication Complete." |
| Brainprint.StreamAndAuthenticate | main.py:121-195 | A full session (open, start streaming, n ticks, authenticate) logs the start-up lines then the seven run lines in order. The model receives the last min(n, 100) samples as one batch. With n = 0 the run stops at tensor assembly and the authenticate button stays disabled |

## Left out

- Widgets, theme and layout (`main.py:8-114`) are not modelled, nor is the connect button's caption change to "Streaming Data..." (`main.py:124`). The result labels set in `_update_result` (`main.py:191-193`) are not modelled either. Only the two button-enabled flags and the log lines are kept.
- Brainprint.BrainprintUI.Log: models the log as a sequence of lines. The trailing newline of each insert and the scroll to the end (`see`) are presentation.
- Plotting (`main.py:50-71`, `main.py:139-142`, `main.py:149`) belongs to matplotlib and is not modelled.
- Sample synthesis (`main.py:133-137`) is sines and cosines of the clock plus Gaussian noise. Each tick's four channel traces are a parameter (`Reading`) and are treated as opaque values.
- Brainprint.BrainprintUI.ProcessData: the classifier stub is not modelled. The predicted user (hard-coded in the application) is a parameter. The random confidence score reaches only a result label, so it is not modelled at all.
- Brainprint.BrainprintUI.UpdateResult: takes the user name but, like the omitted labels, makes no claim about it.
- Brainprint.BrainprintUI.AnimateGraph: the acquisition loop runs for as long as the application lives. The model runs it over a finite sequence of readings, the ticks that happen before the state is observed. The 50 ms sleep is not modelled.
- Threads and sleeps (`main.py:128`, `main.py:154`, `main.py:160-184`) are not modelled. Each thread body is a method that the environment calls in sequence.
- Races between the acquisition loop and the authentication worker are not modelled, and no snapshot atomicity is claimed: the code has no lock.
- The Tk root window and `mainloop` (`main.py:197-200`) are the environment and are not modelled.
