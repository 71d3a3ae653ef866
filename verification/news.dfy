/** The news tool `compile_news_reports`: pick the source keys, look each one
    up case-insensitively in the feed catalogue, take at most three headlines
    per feed, format one line per headline and join the lines, or return a
    fixed error text when no headline was found. Fetching and parsing a feed
    is an input: `fetch` maps a feed URL to what the parser produced. */
module News {
  import opened Results
  import opened Text
  import opened Calls
  import opened Seqs
  import opened NewsText

  /** `NEWS_FEEDS`: source key to RSS URL. */
  const NewsFeeds: map<string, string> := map[
    "MAIN_STREAM_1_POLITICS" := "https://www.lemonde.fr/politique/rss_full.xml",
    "MAIN_STREAM_1_INTL" := "https://www.lemonde.fr/en/france/rss_full.xml",
    "MAIN_STREAM_2_POLITICS" := "https://www.lefigaro.fr/rss/figaro_politique.xml",
    "PUBLIC_SERVICE_POLITICS" := "https://www.franceinfo.fr/politique.rss",
    "PUBLIC_SERVICE_INTL" := "https://www.franceinfo.fr/monde.rss",
    "PUBLIC_SERVICE_ECO" := "https://www.franceinfo.fr/economie.rss",
    "INSTITUTIONAL_SENATE" := "https://www.senat.fr/rss/rapports.xml"
  ]

  /** The selection used when the caller gives no usable list. */
  const DefaultSources: seq<Value> :=
    [Str("PUBLIC_SERVICE_POLITICS"), Str("MAIN_STREAM_1_POLITICS"), Str("MAIN_STREAM_2_POLITICS")]

  const HeadlinesPerFeed: nat := 3

  /** What parsing one feed gave: its entry titles in feed order, or an
      exception (which the tool reports on the console and then ignores). */
  datatype FeedOutcome = Parsed(titles: seq<string>) | Failed(error: string)

  function Min(a: nat, b: nat): nat { if a <= b then a else b }

  /** The keys the tool scans: the given list when it is a non-empty list,
      the default selection when the argument is missing, not a list, or
      empty. */
  function SourceKeys(sources: Value): (keys: seq<Value>)
    ensures sources.Null? ==> keys == DefaultSources
    ensures !sources.List? ==> keys == DefaultSources
    ensures sources == List([]) ==> keys == DefaultSources
    ensures sources.List? && sources.items != [] ==> keys == sources.items
    ensures |keys| > 0
  {
    if sources.List? && |sources.items| > 0 then sources.items else DefaultSources
  }

  /** The label a key is printed under, when it names a feed: the key
      upper-cased, which is a catalogue key equal to the key up to ASCII
      case. Empty keys and non-strings name no feed. */
  function FeedLabel(key: Value): (name: Option<string>)
    ensures name.Some? ==> name.value in NewsFeeds
    ensures name.Some? ==> key.Str? && MatchesIgnoringCase(key.s, name.value)
  {
    if key.Str? && key.s != "" && Upper(key.s) in NewsFeeds then
      FeedKeyShape(Upper(key.s));
      UpperEqualsIff(key.s, Upper(key.s));
      Some(Upper(key.s))
    else None
  }

  /** The catalogue's keys contain no lower-case letter, so an upper-cased
      lookup compares keys up to case, and no newline, so a printed label
      stays on its line. */
  lemma FeedKeyShape(name: string)
    requires name in NewsFeeds
    ensures NoLower(name)
    ensures NoNewline(name)
  {
  }

  /** A key names a feed exactly when it is a string equal, up to case, to a
      catalogue key, and it is printed as that catalogue key. */
  lemma FeedLabelIgnoresCase(key: Value, name: string)
    requires name in NewsFeeds
    ensures FeedLabel(key) == Some(name) <==> key.Str? && MatchesIgnoringCase(key.s, name)
  {
    FeedKeyShape(name);
    if key.Str? {
      UpperEqualsIff(key.s, name);
    }
  }

  /** A key that is not a string, or is empty, names no feed. */
  lemma NonStringKeysSkipped(key: Value)
    requires !key.Str? || key.s == ""
    ensures FeedLabel(key).None?
  {
  }

  /** A line as the tool prints it: a catalogue key in brackets, then " : "
      and a cleaned title. */
  ghost predicate IsHeadlineLine(line: string)
  {
    exists name, title :: name in NewsFeeds && line == HeadlineLine(name, title)
  }

  /** The printing of one title under `name`. */
  function LineOf(name: string): string -> string
  {
    title => HeadlineLine(name, title)
  }

  /** The lines one feed adds: one per entry among its first three, in entry
      order; none when the feed raised. */
  function Headlines(name: string, outcome: FeedOutcome): (lines: seq<string>)
    ensures outcome.Failed? ==> lines == []
    ensures outcome.Parsed? ==> |lines| == Min(HeadlinesPerFeed, |outcome.titles|)
    ensures outcome.Parsed? ==>
      forall j :: 0 <= j < |lines| ==> lines[j] == HeadlineLine(name, outcome.titles[j])
  {
    match outcome
    case Failed(_) => []
    case Parsed(titles) => Map(titles[..Min(HeadlinesPerFeed, |titles|)], LineOf(name))
  }

  /** The lines one source key adds: at most three, none for a key that
      names no feed or whose feed raised, and otherwise the feed's first
      titles printed under the key's label. */
  function Contribution(key: Value, fetch: string -> FeedOutcome): (lines: seq<string>)
    ensures |lines| <= HeadlinesPerFeed
    ensures FeedLabel(key).None? || fetch(NewsFeeds[FeedLabel(key).value]).Failed? ==> lines == []
    ensures FeedLabel(key).Some? && fetch(NewsFeeds[FeedLabel(key).value]).Parsed? ==>
              && |lines| == Min(HeadlinesPerFeed, |fetch(NewsFeeds[FeedLabel(key).value]).titles|)
              && forall j :: 0 <= j < |lines| ==>
                lines[j] == HeadlineLine(FeedLabel(key).value, fetch(NewsFeeds[FeedLabel(key).value]).titles[j])
  {
    match FeedLabel(key)
    case None => []
    case Some(name) => Headlines(name, fetch(NewsFeeds[name]))
  }

  function ContributionOf(fetch: string -> FeedOutcome): Value -> seq<string>
  {
    key => Contribution(key, fetch)
  }

  /** `compilation` after scanning `keys` in order: at most three lines per
      scanned key. */
  function Compile(keys: seq<Value>, fetch: string -> FeedOutcome): (lines: seq<string>)
    ensures |lines| <= HeadlinesPerFeed * |keys|
  {
    FlatMapBound(keys, ContributionOf(fetch), HeadlinesPerFeed);
    FlatMap(keys, ContributionOf(fetch))
  }

  /** `compile_news_reports(sources)`: the fixed error text exactly when no
      line was compiled, and otherwise a text that splits on newlines back
      into the compiled lines, in source order. */
  function CompileNewsReports(sources: Value, fetch: string -> FeedOutcome): (text: string)
    ensures text == NoHeadlines <==> Compile(SourceKeys(sources), fetch) == []
    ensures ReadReport(text) == Compile(SourceKeys(sources), fetch)
  {
    var lines := Compile(SourceKeys(sources), fetch);
    CompileLines(SourceKeys(sources), fetch);
    assert forall j :: 0 <= j < |lines| ==> PrintedLine(lines[j]);
    ReportRoundTrip(lines);
    Report(lines)
  }

  /* ---------- Properties ---------- */

  /** Keys are processed independently and in order: the lines of a longer
      list are the lines of its parts, concatenated. */
  lemma CompileAppend(a: seq<Value>, b: seq<Value>, fetch: string -> FeedOutcome)
    ensures Compile(a + b, fetch) == Compile(a, fetch) + Compile(b, fetch)
  {
    FlatMapAppend(a, b, ContributionOf(fetch));
  }

  /** The key at position `i` adds its own lines between those of the keys
      before it and those of the keys after it; a failing or unknown key adds
      none and does not stop the rest. */
  lemma CompileAround(keys: seq<Value>, i: nat, fetch: string -> FeedOutcome)
    requires i < |keys|
    ensures Compile(keys, fetch)
         == Compile(keys[..i], fetch) + Contribution(keys[i], fetch) + Compile(keys[i + 1..], fetch)
  {
    assert keys == keys[..i] + ([keys[i]] + keys[i + 1..]);
    CompileAppend(keys[..i], [keys[i]] + keys[i + 1..], fetch);
    CompileCons(keys[i], keys[i + 1..], fetch);
  }

  /** One key in front adds its lines in front. */
  lemma CompileCons(key: Value, keys: seq<Value>, fetch: string -> FeedOutcome)
    ensures Compile([key] + keys, fetch) == Contribution(key, fetch) + Compile(keys, fetch)
  {
    assert ([key] + keys)[1..] == keys;
  }

  /** A key that names no feed, or whose feed raised, adds nothing and does
      not stop the scan of the keys after it. */
  lemma CompileSkips(keys: seq<Value>, i: nat, fetch: string -> FeedOutcome)
    requires i < |keys|
    requires FeedLabel(keys[i]).None? || fetch(NewsFeeds[FeedLabel(keys[i]).value]).Failed?
    ensures Compile(keys, fetch) == Compile(keys[..i], fetch) + Compile(keys[i + 1..], fetch)
  {
    CompileAround(keys, i, fetch);
    assert Contribution(keys[i], fetch) == [];
    assert Compile(keys[..i], fetch) + [] == Compile(keys[..i], fetch);
  }

  /** A line as the tool prints it: it is a headline line, holds no newline
      and starts with the opening bracket. */
  ghost predicate PrintedLine(line: string)
  {
    IsHeadlineLine(line) && NoNewline(line) && |line| > 0 && line[0] == '['
  }

  lemma ContributionLines(key: Value, fetch: string -> FeedOutcome)
    ensures forall j :: 0 <= j < |Contribution(key, fetch)| ==> PrintedLine(Contribution(key, fetch)[j])
  {
    var c := Contribution(key, fetch);
    match FeedLabel(key)
    case None =>
    case Some(name) =>
      FeedKeyShape(name);
      forall j | 0 <= j < |c|
        ensures PrintedLine(c[j])
      {
        var title := fetch(NewsFeeds[name]).titles[j];
        HeadlineLineNoNewline(name, title);
        HeadlineLineBracket(name, title);
        assert c[j] == HeadlineLine(name, title);
      }
  }

  /** Every compiled line has the printed shape and holds no newline. */
  lemma {:induction false} CompileLines(keys: seq<Value>, fetch: string -> FeedOutcome)
    ensures forall j :: 0 <= j < |Compile(keys, fetch)| ==> PrintedLine(Compile(keys, fetch)[j])
    decreases |keys|
  {
    if |keys| > 0 {
      CompileLines(keys[1..], fetch);
      ContributionLines(keys[0], fetch);
      assert Compile(keys, fetch) == Contribution(keys[0], fetch) + Compile(keys[1..], fetch);
    }
  }

  /** The default selection names three catalogue feeds. */
  lemma DefaultSourcesAreFeeds()
    ensures forall j :: 0 <= j < |DefaultSources| ==> FeedLabel(DefaultSources[j]) == Some(DefaultSources[j].s)
  {
    forall j | 0 <= j < |DefaultSources|
      ensures FeedLabel(DefaultSources[j]) == Some(DefaultSources[j].s)
    {
      var s := DefaultSources[j].s;
      assert MatchesIgnoringCase(s, s);
      FeedLabelIgnoresCase(DefaultSources[j], s);
    }
  }

  /** The inner loop over a feed's first three entries. */
  method TakeHeadlines(name: string, outcome: FeedOutcome) returns (added: seq<string>)
    ensures added == Headlines(name, outcome)
  {
    added := [];
    if outcome.Parsed? {
      var entries := outcome.titles[..Min(HeadlinesPerFeed, |outcome.titles|)];
      for e := 0 to |entries|
        invariant added == Map(entries[..e], LineOf(name))
      {
        MapSnoc(entries[..e], entries[e], LineOf(name));
        assert entries[..e + 1] == entries[..e] + [entries[e]];
        added := added + [LineOf(name)(entries[e])];
      }
      assert entries[..|entries|] == entries;
    }
  }

  /** The body of the outer loop: the lines one source key adds. */
  method ScanKey(key: Value, fetch: string -> FeedOutcome) returns (added: seq<string>)
    ensures added == Contribution(key, fetch)
    ensures |added| <= HeadlinesPerFeed
  {
    added := [];
    var found := FeedLabel(key);
    if found.Some? {
      added := TakeHeadlines(found.value, fetch(NewsFeeds[found.value]));
    }
  }

  /** Scanning one more key appends its lines. */
  lemma CompileSnoc(keys: seq<Value>, key: Value, fetch: string -> FeedOutcome)
    ensures Compile(keys + [key], fetch) == Compile(keys, fetch) + Contribution(key, fetch)
  {
    assert [key][1..] == [];
    assert Compile([key], fetch) == Contribution(key, fetch) + Compile([], fetch);
    CompileAppend(keys, [key], fetch);
  }

  /** The tool's outer loop over the source keys: it computes the report the
      per-key composition describes. */
  method ScanFeeds(sources: Value, fetch: string -> FeedOutcome) returns (text: string)
    ensures text == CompileNewsReports(sources, fetch)
    ensures text == NoHeadlines <==> Compile(SourceKeys(sources), fetch) == []
  {
    var keys := SourceKeys(sources);
    var compilation: seq<string> := [];
    for i := 0 to |keys|
      invariant compilation == Compile(keys[..i], fetch)
    {
      var added := ScanKey(keys[i], fetch);
      CompileSnoc(keys[..i], keys[i], fetch);
      assert keys[..i + 1] == keys[..i] + [keys[i]];
      compilation := compilation + added;
    }
    assert keys[..|keys|] == keys;
    text := Report(compilation);
  }
}
