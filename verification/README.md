# Headlines: a model of the news reader's application state

Headlines is a desktop news reader. It shows a scrollable list of news cards
and has a window for entering the API key of the news service. A background
worker fetches the headlines and streams them to the UI thread over a
channel. This project models the state that the UI thread owns and the
operations that change it. All of that lives in `headlines/src/headlines.rs`.

- `HeadlinesConfig` is the persisted configuration: the theme flag
  `dark_mode` and the `api_key`. It is a class whose `ToggleDarkMode`
  flips the flag in place. `ConfigValue` is its serialised value.
- `Headlines` is the application state. It holds the article list, the
  configuration, the `api_key_initialized` flag, the optional article
  receiver `news_rx` and the optional message sender `app_tx`. Its
  methods change those fields in place.
- The channels are modelled as queues. The receiver holds the records the
  worker has sent and the UI has not yet taken; `try_recv` pops the front.
  The sender holds every message the UI has sent; `send` appends.
- The outcome of loading the configuration is a parameter of the
  `Headlines` constructor: `None` when loading failed. The outcome of
  storing it is the `stored` parameter of `SubmitApiKey`.
- `AppView` is a snapshot of the whole state. `Initial`, `Preload` and
  `KeyEntry` are the specification functions of the constructor and the
  two state-changing methods. Each method's postcondition ties its new
  state to one of these functions.
- `Step` and `Run` replay any sequence of events on a snapshot. The events
  are a frame drain, a click on the theme button, typing a new key into
  the key field, and a key submission that was or was not stored. The
  `Run...` lemmas state what holds after any such session.
- `RenderNewsCards` returns the list of cards that `render_news_cards`
  draws. Each card carries its text and the colours of the current theme.

Notes on what the code does:

- The frame callback in `headlines/src/main.rs:18-27` never calls
  `preload_news` or `render_config`. Both channels start as `None`. So the
  model offers frame draining and key submission as standalone operations,
  not as steps of a frame loop.
- Every stored key submission sends `ApiKeySet`, not only the first one.
  `KeyEntry` and `RunMessages` state this.
- `app_tx` is a bounded `SyncSender`. The model's outbox is unbounded and
  ignores blocking (see "Left out").

## Model

| member | source | states |
|---|---|---|
| `Headlines.HeadlinesConfig.constructor` | headlines/src/headlines.rs:36-41 | a new configuration has the dark theme and an empty API key |
| `Headlines.HeadlinesConfig.Default` | headlines/src/headlines.rs:48-52 | `Default` gives a fresh configuration equal to the one `new` gives: dark theme, empty key |
| `Headlines.HeadlinesConfig.Restore` | headlines/src/headlines.rs:72 | a configuration read back from storage has exactly the stored theme and key |
| `Headlines.HeadlinesConfig.ToggleDarkMode` | headlines/src/headlines.rs:43-45 | the theme flag is negated and the API key is unchanged |
| `Headlines.Toggled` | headlines/src/headlines.rs:43-45 | after a toggle the theme flag is the negation of the old one and the key is the same |
| `Headlines.ToggledTwice` | headlines/src/headlines.rs:43-45 | toggling twice gives back the original configuration |
| `Headlines.Initial` | headlines/src/headlines.rs:71-83 | the initial state has no articles, no receiver and no sender; a failed load falls back to dark theme with an empty key; the key counts as initialized exactly when the load succeeded with a non-empty key |
| `Headlines.Headlines.constructor` | headlines/src/headlines.rs:71-83 | the constructed state equals `Initial` of the load outcome: empty article list, no channels, and the flag set exactly when the configured key is non-empty |
| `Headlines.Headlines.IsApiKeyInitialized` | headlines/src/headlines.rs:63-65 | returns the `api_key_initialized` flag |
| `Headlines.Headlines.SetApiKeyInitialized` | headlines/src/headlines.rs:63-69 | afterwards `IsApiKeyInitialized()` returns the value that was set, and every other part of the state is unchanged |
| `Headlines.Preload` | headlines/src/headlines.rs:109-118 | a drain step moves one record when one is pending and none otherwise; the article list followed by the pending queue is unchanged, so nothing is lost, reordered or invented; the receiver, configuration, flag and sender are untouched |
| `Headlines.Headlines.PreloadNews` | headlines/src/headlines.rs:109-118 | with a receiver and a pending record, the front record is removed from the channel and appended to the old article list; with no receiver or an empty channel, the whole state is unchanged |
| `Headlines.PreloadFramesDrains` | headlines/src/headlines.rs:109-118 | k drain steps over n pending records append exactly the first min(k, n) records, in channel order, and leave the rest pending |
| `Headlines.PreloadFramesKeeps` | headlines/src/headlines.rs:109-118 | any number of drain steps leaves the configuration, the key flag and the sender unchanged |
| `Headlines.KeyEntry` | headlines/src/headlines.rs:204-215 | the flag becomes true exactly when it was true or storing succeeded; on success with a sender, exactly one `ApiKeySet` carrying the current key is appended; on failure the sender is unchanged; articles, configuration and receiver are untouched |
| `Headlines.Headlines.SubmitApiKey` | headlines/src/headlines.rs:204-215 | the new state is `KeyEntry` of the old one: the flag is set on success, one `ApiKeySet` with the current key is sent when there is a sender, nothing is sent on failure, and the articles and receiver are untouched |
| `Headlines.RunArticles` | headlines/src/headlines.rs:109-118 | over any sequence of events the article list only grows, by the first min(frames, pending) channel records in channel order; theme clicks, key edits and key submissions never touch the articles or the receiver |
| `Headlines.RunSettings` | headlines/src/headlines.rs:177-209 | over any sequence of events the theme flips once per click; the key is the last one typed into the key field, or the original one if none was typed; the flag is set exactly when it was already set or some submission was stored, and it is never cleared |
| `Headlines.RunMessages` | headlines/src/headlines.rs:202-215 | over any sequence of events the sender receives exactly `SentMessages` of the session: one `ApiKeySet` per stored submission, carrying the key current at that submission, and nothing else |
| `Headlines.SentMessagesCount` | headlines/src/headlines.rs:205-214 | a session sends exactly as many messages as it has stored submissions |
| `Headlines.SentMessagesUnedited` | headlines/src/headlines.rs:211-214 | when the key is never typed over, every message carries the starting key |
| `Headlines.TypedKeyIsSent` | headlines/src/headlines.rs:202-214 | with an empty key and a connected sender, typing "ABC123" and a stored submission mark the key initialized and send exactly one `ApiKeySet("ABC123")` |
| `Headlines.Palette` | headlines/src/headlines.rs:121-127 | dark theme: titles (255,255,255) and links (0,255,255); light theme: titles (0,0,0) and links (0,0,255); title and link colours always differ |
| `Headlines.DisplayTitle` | headlines/src/headlines.rs:133 | the displayed title is the marker "> " followed by the article's whole title |
| `Headlines.Headlines.RenderNewsCards` | headlines/src/headlines.rs:120-153 | one card per article, in list order; each has the "> " title, the article's description and URL, and the title and link colours of the current theme |

## Left out

- GUI drawing. This covers `adjust_theme`, `config_fonts`, the panels,
  labels, spacing, separators and layouts of `render_news_cards` and
  `render_top_panel`, the configuration window, and all of
  `headlines/src/main.rs`. These are calls into a GUI toolkit that is not
  part of this model. Only the text and colours of each card are modelled.
- The theme button's moon glyphs and the "Read more" link text. These are
  display constants.
- The key text field's widget. What it does to the state, rewriting
  `api_key`, is the `KeyEdited` event; the class-level session writes the
  field directly.
- The focus-lost or Enter trigger of key submission. This is a UI event;
  the model calls `SubmitApiKey` instead.
- Configuration storage (load and store). These are calls into a
  persistence library. Their outcomes are parameters: the constructor's
  `loaded` and `SubmitApiKey`'s `stored`. Where the files live and how
  they are serialised is not modelled.
- Channel and thread semantics. The model does not capture blocking when
  a bounded sender is full, the error of a send to a dropped receiver, or
  a disconnected receiver. `SubmitApiKey` always appends to the sender's
  queue, and an empty queue is the only failing `try_recv`.
- The fetch worker and the news service client. Their code is not part of
  this model. The model only sees the records that arrive in the channel.
- The close button (`frame.quit()`), the refresh button (it only logs) and
  all log lines. They have no effect on the modelled state.
- `PADDING` and the font sizes. These are floating-point layout constants.
