/**
 * The application state of the Headlines news reader: the persisted
 * configuration (theme and API key), the list of news cards on screen, the
 * flag that gates the key-entry window, and the two channel endpoints that
 * connect the UI thread to the fetch worker.
 *
 * Channels are modelled as queues: the article receiver holds the records
 * that the worker has sent and the UI has not yet taken (`try_recv` pops
 * the front), and the message sender holds the messages that the UI has
 * sent (`send` appends).
 */
module Headlines {

  datatype Option<+T> = None | Some(value: T)

  /** One 8-bit colour channel. */
  newtype u8 = x: int | 0 <= x < 256

  /** An opaque RGB colour, as built by `Color32::from_rgb`. */
  datatype Color32 = Rgb(r: u8, g: u8, b: u8)

  /** One headline as the fetch worker delivers it. */
  datatype NewsCardData = NewsCardData(title: string, url: string, description: string)

  /** What the UI thread sends to the fetch worker. */
  datatype Message = ApiKeySet(key: string)

  /** The configuration as it is written to and read from storage. */
  datatype ConfigValue = ConfigValue(darkMode: bool, apiKey: string)

  /** The value of `HeadlinesConfig::new()`, which `Default` also returns. */
  function DefaultConfig(): ConfigValue
  {
    ConfigValue(true, "")
  }

  /** The configuration after one click on the theme button. */
  function Toggled(c: ConfigValue): (t: ConfigValue)
    ensures t.darkMode == !c.darkMode && t.apiKey == c.apiKey
  {
    c.(darkMode := !c.darkMode)
  }

  /** Two clicks on the theme button give back the configuration they started from. */
  lemma ToggledTwice(c: ConfigValue)
    ensures Toggled(Toggled(c)) == c
  {
  }

  class HeadlinesConfig {
    var darkMode: bool
    var apiKey: string

    function Value(): ConfigValue
      reads this
    {
      ConfigValue(darkMode, apiKey)
    }

    /** `HeadlinesConfig::new`: the dark theme and no API key. */
    constructor ()
      ensures darkMode && apiKey == ""
      ensures Value() == DefaultConfig()
    {
      darkMode := true;
      apiKey := "";
    }

    /** A configuration read back from storage. */
    constructor Restore(stored: ConfigValue)
      ensures Value() == stored
    {
      darkMode := stored.darkMode;
      apiKey := stored.apiKey;
    }

    /** `Default::default`, which delegates to `new`. */
    static method Default() returns (c: HeadlinesConfig)
      ensures fresh(c)
      ensures c.darkMode && c.apiKey == ""
      ensures c.Value() == DefaultConfig()
    {
      c := new HeadlinesConfig();
    }

    method ToggleDarkMode()
      modifies this
      ensures darkMode == !old(darkMode) && apiKey == old(apiKey)
      ensures Value() == Toggled(old(Value()))
    {
      darkMode := !darkMode;
    }
  }

  // ---------------------------------------------------------------------
  // The application state as a value, and the specification of each step.
  // ---------------------------------------------------------------------

  /**
   * A snapshot of `Headlines`. `newsRx` is the article receiver with the
   * records still waiting in its channel; `appTx` is the message sender with
   * everything sent on it so far.
   */
  datatype AppView = AppView(
    articles: seq<NewsCardData>,
    config: ConfigValue,
    apiKeyInitialized: bool,
    newsRx: Option<seq<NewsCardData>>,
    appTx: Option<seq<Message>>)

  /** The records waiting in the article channel; none when there is no receiver. */
  function Pending(s: AppView): seq<NewsCardData>
  {
    if s.newsRx.Some? then s.newsRx.value else []
  }

  function Min(a: nat, b: nat): nat
  {
    if a <= b then a else b
  }

  /**
   * The state `Headlines::new` builds from the outcome of loading the stored
   * configuration (`None` when loading failed).
   */
  function Initial(loaded: Option<ConfigValue>): (s: AppView)
    ensures s.articles == [] && s.newsRx.None? && s.appTx.None?
    ensures loaded.Some? ==> s.config == loaded.value
    ensures loaded.None? ==> s.config.darkMode && s.config.apiKey == ""
    ensures s.apiKeyInitialized <==> loaded.Some? && loaded.value.apiKey != ""
  {
    var config := if loaded.Some? then loaded.value else DefaultConfig();
    AppView([], config, config.apiKey != "", None, None)
  }

  /**
   * One frame-drain step (`preload_news`): at most one record moves from the
   * front of the article channel to the end of the article list; nothing is
   * lost, reordered or invented, and nothing else changes.
   */
  function Preload(s: AppView): (t: AppView)
    ensures |t.articles| == |s.articles| + (if Pending(s) == [] then 0 else 1)
    ensures t.articles + Pending(t) == s.articles + Pending(s)
    ensures t.newsRx.Some? == s.newsRx.Some?
    ensures t.config == s.config && t.apiKeyInitialized == s.apiKeyInitialized && t.appTx == s.appTx
  {
    match s.newsRx
    case Some(queue) =>
      if queue == [] then s
      else s.(articles := s.articles + [queue[0]], newsRx := Some(queue[1..]))
    case None => s
  }

  /**
   * The key-entry step of `render_config`, once the configuration has been
   * handed to storage; `stored` tells whether storing succeeded.
   */
  function KeyEntry(s: AppView, stored: bool): (t: AppView)
    ensures t.apiKeyInitialized == (s.apiKeyInitialized || stored)
    ensures t.appTx.Some? == s.appTx.Some?
    ensures t.appTx.Some? ==> t.appTx.value == s.appTx.value + (if stored then [ApiKeySet(s.config.apiKey)] else [])
    ensures t.articles == s.articles && t.config == s.config && t.newsRx == s.newsRx
  {
    if !stored then s
    else
      var s' := s.(apiKeyInitialized := true);
      match s.appTx
      case Some(outbox) => s'.(appTx := Some(outbox + [ApiKeySet(s.config.apiKey)]))
      case None => s'
  }

  /** `k` consecutive frame-drain steps. */
  function PreloadFrames(s: AppView, k: nat): AppView
    decreases k
  {
    if k == 0 then s else PreloadFrames(Preload(s), k - 1)
  }

  /**
   * `k` frame-drain steps over `n` pending records move exactly `min(k, n)`
   * of them, in channel order, to the end of the article list.
   */
  lemma {:induction false} PreloadFramesDrains(s: AppView, k: nat)
    decreases k
    ensures var t, n := PreloadFrames(s, k), Min(k, |Pending(s)|);
      && t.articles == s.articles + Pending(s)[..n]
      && Pending(t) == Pending(s)[n..]
      && t.newsRx.Some? == s.newsRx.Some?
  {
    var p := Pending(s);
    if k == 0 {
      assert s.articles + p[..0] == s.articles && p[0..] == p;
    } else {
      var s1 := Preload(s);
      var t := PreloadFrames(s1, k - 1);
      assert PreloadFrames(s, k) == t;
      var f0 := StepArticles(s, Frame);
      var p1 := Pending(s1);
      var n1 := Min(k - 1, |p1|);
      PreloadFramesDrains(s1, k - 1);
      assert Min(k, |p|) == f0 + n1;
      ComposeDrain(s.articles, p, f0, n1, t.articles, Pending(t));
    }
  }

  /** Frame-drain steps touch neither the configuration, nor the key flag, nor the sender. */
  lemma {:induction false} PreloadFramesKeeps(s: AppView, k: nat)
    decreases k
    ensures var t := PreloadFrames(s, k);
      t.config == s.config && t.apiKeyInitialized == s.apiKeyInitialized && t.appTx == s.appTx
  {
    if k > 0 {
      PreloadFramesKeeps(Preload(s), k - 1);
    }
  }

  /** The user-driven events that change the state of the application. */
  datatype Event =
    | Frame                    // a frame drains the article channel
    | ThemeClicked             // the theme button of the top panel
    | KeyEdited(key: string)     // the user types into the key field, which rewrites the key
    | KeySubmitted(stored: bool) // the key field is submitted; storing it succeeds or not

  function Step(s: AppView, e: Event): AppView
  {
    match e
    case Frame => Preload(s)
    case ThemeClicked => s.(config := Toggled(s.config))
    case KeyEdited(key) => s.(config := s.config.(apiKey := key))
    case KeySubmitted(stored) => KeyEntry(s, stored)
  }

  function Run(s: AppView, es: seq<Event>): AppView
    decreases |es|
  {
    if es == [] then s else Run(Step(s, es[0]), es[1..])
  }

  function FrameCount(es: seq<Event>): nat
  {
    if es == [] then 0 else (if es[0].Frame? then 1 else 0) + FrameCount(es[1..])
  }

  function ToggleCount(es: seq<Event>): nat
  {
    if es == [] then 0 else (if es[0].ThemeClicked? then 1 else 0) + ToggleCount(es[1..])
  }

  function StoredCount(es: seq<Event>): nat
  {
    if es == [] then 0 else (if es[0] == KeySubmitted(true) then 1 else 0) + StoredCount(es[1..])
  }

  /** The key in the configuration after the events: the last one typed, or `key` if none was. */
  function LastKey(key: string, es: seq<Event>): string
    decreases |es|
  {
    if es == [] then key
    else LastKey(if es[0].KeyEdited? then es[0].key else key, es[1..])
  }

  /**
   * The messages the events send to a sender, starting from the key `key`:
   * one `ApiKeySet` per stored submission, carrying the key current at that
   * submission.
   */
  function SentMessages(key: string, es: seq<Event>): seq<Message>
    decreases |es|
  {
    if es == [] then []
    else
      (if es[0] == KeySubmitted(true) then [ApiKeySet(key)] else [])
      + SentMessages(if es[0].KeyEdited? then es[0].key else key, es[1..])
  }

  /** One message per stored submission, each carrying some key that was current. */
  lemma {:induction false} SentMessagesCount(key: string, es: seq<Event>)
    decreases |es|
    ensures |SentMessages(key, es)| == StoredCount(es)
  {
    if es != [] {
      SentMessagesCount(if es[0].KeyEdited? then es[0].key else key, es[1..]);
    }
  }

  /** When the key is never edited, every message carries the starting key. */
  lemma {:induction false} SentMessagesUnedited(key: string, es: seq<Event>)
    decreases |es|
    requires forall i :: 0 <= i < |es| ==> !es[i].KeyEdited?
    ensures SentMessages(key, es) == seq(StoredCount(es), _ => ApiKeySet(key))
  {
    var m := ApiKeySet(key);
    if es != [] {
      SentMessagesUnedited(key, es[1..]);
      var c0 := if es[0] == KeySubmitted(true) then 1 else 0;
      assert seq(c0, _ => m) + seq(StoredCount(es[1..]), _ => m) == seq(StoredCount(es), _ => m);
    }
  }

  /**
   * Over any sequence of events the article list only grows, by the first
   * `min(frames, pending)` records of the channel, in channel order; the
   * receiver itself is neither added nor dropped.
   */
  lemma {:induction false} RunArticles(s: AppView, es: seq<Event>)
    decreases |es|
    ensures var t, n := Run(s, es), Min(FrameCount(es), |Pending(s)|);
      && t.articles == s.articles + Pending(s)[..n]
      && Pending(t) == Pending(s)[n..]
      && t.newsRx.Some? == s.newsRx.Some?
  {
    var p := Pending(s);
    if es == [] {
      assert s.articles + p[..0] == s.articles && p[0..] == p;
    } else {
      var e, rest := es[0], es[1..];
      var s1 := Step(s, e);
      var t := Run(s1, rest);
      assert Run(s, es) == t;
      // The first step moves f0 records; the rest of the run moves the next n1.
      var f0 := StepArticles(s, e);
      var p1 := Pending(s1);
      var n1 := Min(FrameCount(rest), |p1|);
      RunArticles(s1, rest);
      assert FrameCount(es) == (if e.Frame? then 1 else 0) + FrameCount(rest);
      assert Min(FrameCount(es), |p|) == f0 + n1;
      ComposeDrain(s.articles, p, f0, n1, t.articles, Pending(t));
    }
  }

  /** One event moves `f0` records, one exactly when it is a frame and a record is pending. */
  lemma StepArticles(s: AppView, e: Event) returns (f0: nat)
    ensures f0 == if e.Frame? && Pending(s) != [] then 1 else 0
    ensures f0 <= |Pending(s)|
    ensures Step(s, e).articles == s.articles + Pending(s)[..f0]
    ensures Pending(Step(s, e)) == Pending(s)[f0..]
    ensures Step(s, e).newsRx.Some? == s.newsRx.Some?
  {
    var p := Pending(s);
    f0 := if e.Frame? && p != [] then 1 else 0;
    if f0 == 0 {
      assert p[..0] == [] && p[0..] == p;
      assert s.articles + [] == s.articles;
    }
  }

  /**
   * Draining `i` records from `p` onto `a0` and then `j` more drains `i + j`
   * records in one go.
   */
  lemma ComposeDrain<T>(a0: seq<T>, p: seq<T>, i: nat, j: nat, a2: seq<T>, p2: seq<T>)
    requires i + j <= |p|
    requires a2 == (a0 + p[..i]) + p[i..][..j] && p2 == p[i..][j..]
    ensures a2 == a0 + p[..i + j] && p2 == p[i + j..]
  {
  }

  /**
   * Over any sequence of events the theme flips once per click and the API
   * key is the last one typed (or the original one); the key is initialized
   * exactly when it was before or some submission was stored, so it never
   * becomes uninitialized again.
   */
  lemma {:induction false} RunSettings(s: AppView, es: seq<Event>)
    decreases |es|
    ensures var t := Run(s, es);
      && t.config.apiKey == LastKey(s.config.apiKey, es)
      && t.config.darkMode == (s.config.darkMode != (ToggleCount(es) % 2 == 1))
      && t.apiKeyInitialized == (s.apiKeyInitialized || StoredCount(es) > 0)
  {
    if es != [] {
      RunSettings(Step(s, es[0]), es[1..]);
    }
  }

  /**
   * Over any sequence of events the sender, if there is one, receives exactly
   * the `SentMessages` of the session: one `ApiKeySet` per stored submission,
   * carrying the key typed last before it, and nothing else.
   */
  lemma {:induction false} RunMessages(s: AppView, es: seq<Event>)
    decreases |es|
    ensures var t := Run(s, es);
      && t.appTx.Some? == s.appTx.Some?
      && (t.appTx.Some? ==> t.appTx.value == s.appTx.value + SentMessages(s.config.apiKey, es))
  {
    if es == [] {
      if s.appTx.Some? {
        assert s.appTx.value + [] == s.appTx.value;
      }
    } else {
      var e, rest := es[0], es[1..];
      var s1 := Step(s, e);
      RunMessages(s1, rest);
      assert s1.config.apiKey == if e.KeyEdited? then e.key else s.config.apiKey;
      if s.appTx.Some? {
        var first := if e == KeySubmitted(true) then [ApiKeySet(s.config.apiKey)] else [];
        assert s1.appTx.value == s.appTx.value + first;
        assert SentMessages(s.config.apiKey, es) == first + SentMessages(s1.config.apiKey, rest);
        assert (s.appTx.value + first) + SentMessages(s1.config.apiKey, rest)
            == s.appTx.value + (first + SentMessages(s1.config.apiKey, rest));
      }
    }
  }

  /**
   * Starting with no key and a connected sender, typing "ABC123" and having
   * the submission stored sends exactly one `ApiKeySet("ABC123")`.
   */
  lemma TypedKeyIsSent(s: AppView)
    requires s.config.apiKey == "" && !s.apiKeyInitialized && s.appTx == Some([])
    ensures var t := Run(s, [KeyEdited("ABC123"), KeySubmitted(true)]);
      t.apiKeyInitialized && t.appTx == Some([ApiKeySet("ABC123")]) && t.config.apiKey == "ABC123"
  {
    var es := [KeyEdited("ABC123"), KeySubmitted(true)];
    RunMessages(s, es);
    RunSettings(s, es);
    var last := [KeySubmitted(true)];
    assert es[1..] == last && last[1..] == [];
    assert SentMessages("ABC123", last) == [ApiKeySet("ABC123")] + SentMessages("ABC123", []);
    assert SentMessages("", es) == [] + SentMessages("ABC123", last);
    assert SentMessages("", es) == [ApiKeySet("ABC123")];
    assert Run(s, es).appTx.value == [] + [ApiKeySet("ABC123")];
    var t := Run(s, es);
    assert t.appTx.Some?;
    assert t.appTx.value == [ApiKeySet("ABC123")];
    assert t.appTx == Some([ApiKeySet("ABC123")]);
  }

  // ---------------------------------------------------------------------
  // Drawing the news cards.
  // ---------------------------------------------------------------------

  /** The colours of a card's title and of its "Read more" link. */
  datatype CardPalette = CardPalette(title: Color32, hyperlink: Color32)

  /**
   * White titles and cyan links on the dark theme; black titles and blue
   * links on the light one.
   */
  function Palette(darkMode: bool): (p: CardPalette)
    ensures darkMode ==> p == CardPalette(Rgb(255, 255, 255), Rgb(0, 255, 255))
    ensures !darkMode ==> p == CardPalette(Rgb(0, 0, 0), Rgb(0, 0, 255))
    ensures p.title != p.hyperlink
  {
    var dark := CardPalette(Rgb(255, 255, 255), Rgb(0, 255, 255));
    if !darkMode then CardPalette(Rgb(0, 0, 0), Rgb(0, 0, 255)) else dark
  }

  /** The title line of a card: the marker "> " and then the article's title. */
  function DisplayTitle(article: NewsCardData): (t: string)
    ensures |t| == |article.title| + 2
    ensures t[..2] == "> " && t[2..] == article.title
  {
    "> " + article.title
  }

  /** What one card puts on screen. */
  datatype Card = Card(
    title: string,
    titleColor: Color32,
    description: string,
    url: string,
    hyperlinkColor: Color32)

  class Headlines {
    var articles: seq<NewsCardData>
    const config: HeadlinesConfig
    var apiKeyInitialized: bool
    var newsRx: Option<seq<NewsCardData>>
    var appTx: Option<seq<Message>>

    function View(): AppView
      reads this, config
    {
      AppView(articles, config.Value(), apiKeyInitialized, newsRx, appTx)
    }

    /**
     * `Headlines::new`; `loaded` is the outcome of loading the stored
     * configuration, `None` when loading failed and the default is used.
     */
    constructor (loaded: Option<ConfigValue>)
      ensures fresh(config)
      ensures View() == Initial(loaded)
      ensures articles == [] && newsRx == None && appTx == None
      ensures apiKeyInitialized <==> config.apiKey != ""
    {
      var c: HeadlinesConfig;
      if loaded.Some? {
        c := new HeadlinesConfig.Restore(loaded.value);
      } else {
        c := HeadlinesConfig.Default();
      }
      articles := [];
      apiKeyInitialized := c.apiKey != "";
      config := c;
      newsRx := None;
      appTx := None;
    }

    function IsApiKeyInitialized(): (initialized: bool)
      reads this
      ensures initialized == apiKeyInitialized
    {
      apiKeyInitialized
    }

    method SetApiKeyInitialized(value: bool)
      modifies this
      ensures IsApiKeyInitialized() == value
      ensures View() == old(View()).(apiKeyInitialized := value)
    {
      apiKeyInitialized := value;
    }

    /** `preload_news`: take at most one record from the article channel. */
    method PreloadNews()
      modifies this
      ensures View() == Preload(old(View()))
      ensures old(newsRx).Some? && old(newsRx).value != [] ==>
        articles == old(articles) + [old(newsRx).value[0]] && newsRx == Some(old(newsRx).value[1..])
      ensures old(newsRx).None? || old(newsRx).value == [] ==> View() == old(View())
    {
      if newsRx.Some? {
        var queue := newsRx.value;
        // try_recv: an empty channel yields an error, which is ignored
        if queue != [] {
          newsRx := Some(queue[1..]);
          articles := articles + [queue[0]];
        }
      }
    }

    /**
     * The key-entry branch of `render_config`: the configuration has been
     * handed to storage and `stored` says whether that succeeded. On success
     * the key counts as initialized and, when there is a sender, one
     * `ApiKeySet` with the current key is sent.
     */
    method SubmitApiKey(stored: bool)
      modifies this
      ensures View() == KeyEntry(old(View()), stored)
      ensures apiKeyInitialized == (old(apiKeyInitialized) || stored)
      ensures stored && old(appTx).Some? ==> appTx == Some(old(appTx).value + [ApiKeySet(config.apiKey)])
      ensures !stored || old(appTx).None? ==> appTx == old(appTx)
      ensures articles == old(articles) && newsRx == old(newsRx)
    {
      if stored {
        SetApiKeyInitialized(true);
        if appTx.Some? {
          appTx := Some(appTx.value + [ApiKeySet(config.apiKey)]);
        }
      }
    }

    /**
     * The cards `render_news_cards` draws: one per article, in list order,
     * each with the "> " title, the description, the link, and the colours
     * of the current theme.
     */
    method RenderNewsCards() returns (cards: seq<Card>)
      ensures |cards| == |articles|
      ensures forall i :: 0 <= i < |cards| ==>
        cards[i] == Card(DisplayTitle(articles[i]), Palette(config.darkMode).title,
                         articles[i].description, articles[i].url, Palette(config.darkMode).hyperlink)
    {
      var titleColor := Rgb(255, 255, 255);
      var hyperlinkColor := Rgb(0, 255, 255);
      if !config.darkMode {
        titleColor := Rgb(0, 0, 0);
        hyperlinkColor := Rgb(0, 0, 255);
      }
      cards := [];
      for k := 0 to |articles|
        invariant |cards| == k
        invariant forall i :: 0 <= i < k ==>
          cards[i] == Card(DisplayTitle(articles[i]), Palette(config.darkMode).title,
                           articles[i].description, articles[i].url, Palette(config.darkMode).hyperlink)
      {
        var article := articles[k];
        cards := cards + [Card("> " + article.title, titleColor, article.description, article.url, hyperlinkColor)];
      }
    }
  }

  /**
   * A client of the specifications above: with no stored key the key is not
   * initialized; a failed store changes nothing; a stored "ABC123" marks the
   * key initialized and sends exactly one `ApiKeySet("ABC123")`.
   */
  method KeyEntrySession()
  {
    var app := new Headlines(Some(ConfigValue(true, "")));
    assert !app.IsApiKeyInitialized();
    app.appTx := Some([]);
    app.config.apiKey := "ABC123";  // what the key text field writes
    app.SubmitApiKey(false);
    assert !app.IsApiKeyInitialized() && app.appTx == Some([]);
    app.SubmitApiKey(true);
    assert [] + [ApiKeySet("ABC123")] == [ApiKeySet("ABC123")];
    assert app.IsApiKeyInitialized() && app.appTx == Some([ApiKeySet("ABC123")]);
  }

  /** Three pending records and three frames: the list grows by one per frame. */
  method DrainSession(a: NewsCardData, b: NewsCardData, c: NewsCardData)
  {
    var app := new Headlines(None);
    app.newsRx := Some([a, b, c]);
    app.PreloadNews();
    assert app.articles == [a];
    app.PreloadNews();
    assert app.articles == [a, b];
    app.PreloadNews();
    assert app.articles == [a, b, c] && app.newsRx == Some([]);
    app.PreloadNews();
    assert app.articles == [a, b, c];
  }
}
