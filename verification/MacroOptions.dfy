/** The parser of an attribute macro's options (nuclei-macros/src/parse.rs). */
module MacroOptions {
  import opened Prelude
  import opened MacroTokens

  datatype Options = Options(
    threads: Option<nat>,
    startPaused: bool,
    krate: Option<seq<string>>,
    builder: Option<seq<string>>)

  const DEFAULTS := Options(None, false, None, None)

  /** One option as written. */
  datatype Setting =
    | Threads(count: nat)
    | StartPaused(paused: bool)
    | Builder(path: seq<string>)
    | Crate(path: seq<string>)

  function Key(s: Setting): string {
    match s
    case Threads(_) => "threads"
    case StartPaused(_) => "start_paused"
    case Builder(_) => "builder"
    case Crate(_) => "crate"
  }

  // ----- numbers

  /** The text without its `_` separators. */
  function Digits(text: string): string {
    if text == "" then "" else (if text[0] == '_' then "" else text[..1]) + Digits(text[1..])
  }

  predicate Decimal(digits: string) {
    digits != "" && forall k | 0 <= k < |digits| :: '0' <= digits[k] <= '9'
  }

  function Value(digits: string): nat
    requires forall k | 0 <= k < |digits| :: '0' <= digits[k] <= '9'
  {
    if digits == "" then 0
    else Value(digits[..|digits| - 1]) * 10 + (digits[|digits| - 1] as nat - '0' as nat)
  }

  /** `u32::to_string`. */
  function Numeral(n: nat): (text: string)
    ensures Decimal(text) && Value(text) == n
  {
    var last := [('0' as nat + n % 10) as char];
    if n < 10 then last else Numeral(n / 10) + last
  }

  // ----- paths

  predicate Identifier(s: string) {
    && s != ""
    && (s[0] == '_' || Alphabetic(s[0]))
    && forall k | 1 <= k < |s| :: s[k] == '_' || Alphabetic(s[k]) || '0' <= s[k] <= '9'
  }

  predicate Alphabetic(c: char) {
    'a' <= c <= 'z' || 'A' <= c <= 'Z'
  }

  /** A path: at least one segment, each an identifier. */
  predicate Path(segments: seq<string>) {
    segments != [] && forall k | 0 <= k < |segments| :: Identifier(segments[k])
  }

  /** The segments with `::` between them. */
  function Join(segments: seq<string>): string
    requires segments != []
  {
    if |segments| == 1 then segments[0] else segments[0] + "::" + Join(segments[1..])
  }

  /** `split("::")`, with `seg` the part of the first segment already passed. */
  function Split(seg: string, text: string): (r: seq<string>)
    ensures r != []
    decreases |text|
  {
    if "::" <= text then [seg] + Split("", text[2..])
    else if text == "" then [seg]
    else Split(seg + text[..1], text[1..])
  }

  lemma {:induction false} JoinSplit(seg: string, text: string)
    ensures Join(Split(seg, text)) == seg + text
    decreases |text|
  {
    if "::" <= text {
      JoinSplit("", text[2..]);
      assert text == "::" + text[2..];
      var rest := Split("", text[2..]);
      assert ([seg] + rest)[1..] == rest;
    } else if text != "" {
      JoinSplit(seg + text[..1], text[1..]);
      assert text == text[..1] + text[1..];
    }
  }

  predicate NoColon(s: string) {
    ':' !in s
  }

  lemma {:induction false} SplitPlain(seg: string, word: string, rest: string)
    requires NoColon(word) && (rest == "" || "::" <= rest)
    ensures Split(seg, word + rest) == Split(seg + word, rest)
    decreases |word|
  {
    if word == "" {
      assert word + rest == rest && seg + word == seg;
    } else {
      var text := word + rest;
      assert text[0] == word[0] && word[0] in word;
      assert text[1..] == word[1..] + rest && text[..1] == word[..1];
      SplitPlain(seg + word[..1], word[1..], rest);
      assert seg + word[..1] + word[1..] == seg + word;
    }
  }

  lemma {:induction false} SplitJoin(segments: seq<string>)
    requires segments != [] && forall k | 0 <= k < |segments| :: NoColon(segments[k])
    ensures Split("", Join(segments)) == segments
  {
    var first := segments[0];
    if |segments| == 1 {
      SplitPlain("", first, "");
      assert first + "" == first && "" + first == first;
    } else {
      var rest := Join(segments[1..]);
      assert Join(segments) == first + ("::" + rest);
      SplitPlain("", first, "::" + rest);
      assert ("::" + rest)[2..] == rest && "" + first == first;
      SplitJoin(segments[1..]);
    }
  }

  // ----- values

  /** The literal is a string holding the path, with or without a leading `::`. */
  predicate SpellsPath(text: string, path: seq<string>) {
    Path(path) && (text == "\"" + Join(path) + "\"" || text == "\"::" + Join(path) + "\"")
  }

  /** The value token spells the setting. */
  predicate Spells(v: Tok, s: Setting) {
    match s
    case Threads(n) => v.Literal? && Decimal(Digits(v.text)) && Value(Digits(v.text)) == n < TWO_32
    case StartPaused(paused) => v == Ident(if paused then "true" else "false")
    case Builder(path) => v.Literal? && SpellsPath(v.text, path)
    case Crate(path) => v.Literal? && SpellsPath(v.text, path)
  }

  /** The text inside the quotes, if there are two. */
  function Unquoted(text: string): Option<string> {
    if |text| >= 2 && text[0] == '"' && text[|text| - 1] == '"' then Some(text[1..|text| - 1]) else None
  }

  function StringPath(text: string): Option<seq<string>> {
    match Unquoted(text)
    case None => None
    case Some(inner) =>
      var segments := Split("", if "::" <= inner then inner[2..] else inner);
      if Path(segments) then Some(segments) else None
  }

  lemma SpelledReads(text: string, path: seq<string>)
    requires SpellsPath(text, path)
    ensures StringPath(text) == Some(path)
  {
    PathPlain(path);
    SplitJoin(path);
    hide Join, Split, Path, NoColon;
    var inner := text[1..|text| - 1];
    if text == "\"" + Join(path) + "\"" {
      assert inner == Join(path);
    } else {
      assert inner == "::" + Join(path);
      assert inner[2..] == Join(path);
    }
  }

  lemma ReadSpells(text: string, path: seq<string>)
    requires StringPath(text) == Some(path)
    ensures SpellsPath(text, path)
  {
    hide Join, Path;
    var inner := text[1..|text| - 1];
    assert text == "\"" + inner + "\"";
    var rest := if "::" <= inner then inner[2..] else inner;
    JoinSplit("", rest);
    hide Split;
    assert "" + rest == rest;
    assert "::" <= inner ==> text == "\"::" + rest + "\"";
  }

  /** The one path a literal spells is the one read from it. */
  lemma StringPathExact(text: string, path: seq<string>)
    ensures StringPath(text) == Some(path) <==> SpellsPath(text, path)
  {
    hide StringPath, SpellsPath;
    if SpellsPath(text, path) {
      SpelledReads(text, path);
    }
    if StringPath(text) == Some(path) {
      ReadSpells(text, path);
    }
  }

  lemma IdentifierPlain(s: string)
    requires Identifier(s)
    ensures NoColon(s) && s[0] != ':'
  {
    forall k | 0 <= k < |s| ensures s[k] != ':' {
    }
  }

  lemma JoinStarts(path: seq<string>)
    requires path != [] && path[0] != ""
    ensures Join(path) != "" && Join(path)[0] == path[0][0]
  {
  }

  /** A path has no colon in a segment, and does not start with one. */
  lemma PathPlain(path: seq<string>)
    requires Path(path)
    ensures forall k | 0 <= k < |path| :: NoColon(path[k])
    ensures !("::" <= Join(path))
  {
    hide Join, NoColon;
    forall k | 0 <= k < |path| ensures NoColon(path[k]) {
      IdentifierPlain(path[k]);
    }
    IdentifierPlain(path[0]);
    JoinStarts(path);
    assert "::"[0] == ':';
  }

  function ReadThreads(v: Tok): Option<Setting> {
    if !v.Literal? || !Decimal(Digits(v.text)) then None
    else if Value(Digits(v.text)) < TWO_32 then Some(Threads(Value(Digits(v.text))))
    else None
  }

  function ReadPath(v: Tok): Option<seq<string>> {
    if v.Literal? then StringPath(v.text) else None
  }

  /** The setting `key = v` makes, if `key` is an option and `v` a value of it. */
  function Read(key: string, v: Tok): Option<Setting> {
    if key == "threads" then ReadThreads(v)
    else if key == "start_paused" then
      if v == Ident("true") then Some(StartPaused(true))
      else if v == Ident("false") then Some(StartPaused(false))
      else None
    else if key == "builder" then
      match ReadPath(v) case Some(path) => Some(Builder(path)) case None => None
    else if key == "crate" then
      match ReadPath(v) case Some(path) => Some(Crate(path)) case None => None
    else None
  }

  lemma ReadExact(key: string, v: Tok, s: Setting)
    ensures Read(key, v) == Some(s) <==> key == Key(s) && Spells(v, s)
  {
    hide StringPath, SpellsPath;
    if v.Literal? && (s.Builder? || s.Crate?) {
      StringPathExact(v.text, s.path);
    }
  }

  // ----- lists

  /** The tokens are these settings, in order, with commas between and perhaps one after. */
  predicate Listed(toks: seq<Tok>, ss: seq<Setting>) {
    if ss == [] then toks == []
    else
      && |toks| >= 3 && toks[0] == Ident(Key(ss[0])) && IsPunct(toks[1], '=') && Spells(toks[2], ss[0])
      && if |toks| == 3 then |ss| == 1 else IsPunct(toks[3], ',') && Listed(toks[4..], ss[1..])
  }

  predicate DistinctKeys(ss: seq<Setting>) {
    forall i, j | 0 <= i < j < |ss| :: Key(ss[i]) != Key(ss[j])
  }

  function Set(o: Options, s: Setting): Options {
    match s
    case Threads(n) => o.(threads := Some(n))
    case StartPaused(paused) => o.(startPaused := paused)
    case Builder(path) => o.(builder := Some(path))
    case Crate(path) => o.(krate := Some(path))
  }

  function Collect(ss: seq<Setting>): Options {
    if ss == [] then DEFAULTS else Set(Collect(ss[..|ss| - 1]), ss[|ss| - 1])
  }

  /** What the arguments mean: nothing, nothing in parentheses, or a list of distinct options. */
  ghost predicate Means(toks: seq<Tok>, o: Options) {
    || (toks == [Group(Parenthesis, [])] && o == DEFAULTS)
    || exists ss :: Listed(toks, ss) && DistinctKeys(ss) && Collect(ss) == o
  }

  /** The one list the tokens can be. */
  function ListOf(toks: seq<Tok>): Option<seq<Setting>> {
    if toks == [] then Some([])
    else if !(|toks| >= 3 && toks[0].Ident? && IsPunct(toks[1], '=')) then None
    else
      match Read(toks[0].name, toks[2])
      case None => None
      case Some(s) =>
        if |toks| == 3 then Some([s])
        else if !IsPunct(toks[3], ',') then None
        else
          match ListOf(toks[4..])
          case None => None
          case Some(rest) => Some([s] + rest)
  }

  lemma {:induction false} ListOfExact(toks: seq<Tok>, ss: seq<Setting>)
    ensures ListOf(toks) == Some(ss) <==> Listed(toks, ss)
    decreases |toks|
  {
    hide Read, Spells;
    if |toks| >= 3 && toks[0].Ident? && ss != [] {
      ReadExact(toks[0].name, toks[2], ss[0]);
      assert ss == [ss[0]] + ss[1..] && (|ss| == 1 ==> ss == [ss[0]]);
      if |toks| > 3 {
        ListOfExact(toks[4..], ss[1..]);
        var s, rest := Read(toks[0].name, toks[2]), ListOf(toks[4..]);
        if s.Some? && rest.Some? {
          assert ([s.value] + rest.value)[1..] == rest.value;
        }
      }
    }
  }

  // ----- the parser

  function Meaning(args: seq<Tok>): Option<Options> {
    if args == [Group(Parenthesis, [])] then Some(DEFAULTS) else Collected(ListOf(args))
  }

  function Collected(list: Option<seq<Setting>>): Option<Options> {
    if list.Some? && DistinctKeys(list.value) then Some(Collect(list.value)) else None
  }

  /** The arguments the parser accepts, and what it makes of them, are exactly those the grammar
      gives a meaning. */
  lemma MeaningExact(args: seq<Tok>, o: Options)
    ensures Meaning(args) == Some(o) <==> Means(args, o)
  {
    hide Collect, DistinctKeys;
    if ss :| Listed(args, ss) && DistinctKeys(ss) && Collect(ss) == o {
      ListOfExact(args, ss);
    }
    if ListOf(args).Some? {
      ListOfExact(args, ListOf(args).value);
    }
  }

  /** The settings read, followed by those the rest of the tokens list. */
  function Rest(done: seq<Setting>, toks: seq<Tok>): Option<seq<Setting>> {
    match ListOf(toks)
    case None => None
    case Some(rest) => Some(done + rest)
  }

  lemma RestStarts(toks: seq<Tok>)
    ensures Rest([], toks) == ListOf(toks)
  {
    assert ListOf(toks).Some? ==> [] + ListOf(toks).value == ListOf(toks).value;
  }

  lemma RestEnds(done: seq<Setting>)
    ensures Rest(done, []) == Some(done)
  {
    assert done + [] == done;
  }

  /** One option further into the list. */
  lemma RestStep(done: seq<Setting>, toks: seq<Tok>, s: Setting)
    requires |toks| >= 3 && toks[0].Ident? && IsPunct(toks[1], '=') && Read(toks[0].name, toks[2]) == Some(s)
    ensures |toks| == 3 ==> Rest(done, toks) == Rest(done + [s], [])
    ensures |toks| > 3 ==>
              Rest(done, toks) == if IsPunct(toks[3], ',') then Rest(done + [s], toks[4..]) else None
  {
    assert done + [s] + [] == done + [s];
    if |toks| > 3 && ListOf(toks[4..]).Some? {
      var rest := ListOf(toks[4..]).value;
      assert done + ([s] + rest) == done + [s] + rest;
    }
  }

  /** A list that goes on with no option is refused. */
  lemma RestStops(done: seq<Setting>, toks: seq<Tok>)
    requires toks != []
    requires |toks| >= 3 && toks[0].Ident? && IsPunct(toks[1], '=') ==> Read(toks[0].name, toks[2]) == None
    ensures Rest(done, toks) == None
  {
  }

  predicate Seen(done: seq<Setting>, seen: seq<string>) {
    |seen| == |done| && forall k | 0 <= k < |done| :: seen[k] == Key(done[k])
  }

  /** A list that goes on with a key it had is refused. */
  lemma SeenTwice(done: seq<Setting>, seen: seq<string>, toks: seq<Tok>)
    requires Seen(done, seen) && toks != [] && toks[0].Ident? && toks[0].name in seen
    ensures Collected(Rest(done, toks)) == None
  {
    if ListOf(toks).Some? {
      var rest := ListOf(toks).value;
      ListOfExact(toks, rest);
      var k :| 0 <= k < |seen| && seen[k] == toks[0].name;
      assert (done + rest)[k] == done[k] && (done + rest)[|done|] == rest[0];
    }
  }

  method ParseOptions(args: seq<Tok>) returns (r: Option<Options>)
    ensures r == Meaning(args)
  {
    hide Read, ListOf;
    var toks := args;
    if |toks| == 1 && toks[0] == Group(Parenthesis, []) {
      return Some(DEFAULTS);
    }
    ghost var done: seq<Setting> := [];
    var opts, seen := DEFAULTS, [];
    RestStarts(args);
    while toks != []
      invariant DistinctKeys(done) && Seen(done, seen) && opts == Collect(done)
      invariant Meaning(args) == Collected(Rest(done, toks))
      decreases |toks|
    {
      if !toks[0].Ident? {
        RestStops(done, toks);
        return None;
      }
      var key := toks[0].name;
      if !(|toks| > 1 && IsPunct(toks[1], '=')) {
        RestStops(done, toks);
        return None;
      }
      if key in seen {
        SeenTwice(done, seen, toks);
        return None;
      }
      if |toks| < 3 {
        RestStops(done, toks);
        return None;
      }
      var s := Read(key, toks[2]);
      if s.None? {
        RestStops(done, toks);
        return None;
      }
      RestStep(done, toks, s.value);
      ReadExact(key, toks[2], s.value);
      seen := seen + [key];
      opts := Set(opts, s.value);
      done := done + [s.value];
      if |toks| > 3 && !IsPunct(toks[3], ',') {
        return None;
      }
      toks := if |toks| > 3 then toks[4..] else [];
    }
    RestEnds(done);
    r := Some(opts);
  }

  // ----- printing and reading back

  /** The option has the value the setting gives it. */
  predicate Carries(o: Options, s: Setting) {
    match s
    case Threads(n) => o.threads == Some(n)
    case StartPaused(paused) => o.startPaused == paused
    case Builder(path) => o.builder == Some(path)
    case Crate(path) => o.krate == Some(path)
  }

  /** The settings are those of `o`, in any order. */
  predicate Lists(ss: seq<Setting>, o: Options) {
    && (forall s | s in ss :: Carries(o, s))
    && (o.threads.Some? ==> Threads(o.threads.value) in ss)
    && (o.startPaused ==> StartPaused(true) in ss)
    && (o.builder.Some? ==> Builder(o.builder.value) in ss)
    && (o.krate.Some? ==> Crate(o.krate.value) in ss)
  }

  predicate SameKind(a: Setting, b: Setting) {
    a.Threads? == b.Threads? && a.StartPaused? == b.StartPaused? && a.Builder? == b.Builder?
  }

  lemma KeysDiffer(a: Setting, b: Setting)
    ensures Key(a) == Key(b) <==> SameKind(a, b)
  {
    assert "threads"[0] != "builder"[0] && |"start_paused"| == 12 && |"crate"| == 5;
  }

  lemma SetLists(ss: seq<Setting>, o: Options, s: Setting)
    requires Lists(ss, o) && forall k | 0 <= k < |ss| :: !SameKind(ss[k], s)
    ensures Lists(ss + [s], Set(o, s))
  {
    assert forall t | t in ss + [s] :: t in ss || t == s;
    assert forall t | t in ss :: t in ss + [s];
    assert s in ss + [s];
  }

  lemma {:induction false} CollectLists(ss: seq<Setting>)
    requires DistinctKeys(ss)
    ensures Lists(ss, Collect(ss))
  {
    hide Lists, Key;
    if ss == [] {
      EmptyLists();
    } else {
      var n := |ss| - 1;
      CollectLists(ss[..n]);
      assert ss == ss[..n] + [ss[n]];
      forall k | 0 <= k < n ensures !SameKind(ss[..n][k], ss[n]) {
        KeysDiffer(ss[k], ss[n]);
      }
      SetLists(ss[..n], Collect(ss[..n]), ss[n]);
    }
  }

  lemma EmptyLists()
    ensures Lists([], DEFAULTS)
  {
  }

  /** The order the settings are written in does not matter. */
  lemma CollectAnyOrder(ss: seq<Setting>, o: Options)
    requires DistinctKeys(ss)
    ensures Collect(ss) == o <==> Lists(ss, o)
  {
    CollectLists(ss);
    if Lists(ss, o) {
      var c := Collect(ss);
      hide Collect;
      assert c.threads == o.threads && c.startPaused == o.startPaused;
      assert c.builder == o.builder && c.krate == o.krate;
    }
  }

  /** A thread count that fits 32 bits, and paths of identifiers. */
  predicate Sound(s: Setting) {
    match s
    case Threads(n) => n < TWO_32
    case StartPaused(_) => true
    case Builder(path) => Path(path)
    case Crate(path) => Path(path)
  }

  function ValueTok(s: Setting): Tok
    requires Sound(s)
  {
    match s
    case Threads(n) => Literal(Numeral(n))
    case StartPaused(paused) => Ident(if paused then "true" else "false")
    case Builder(path) => Literal("\"" + Join(path) + "\"")
    case Crate(path) => Literal("\"" + Join(path) + "\"")
  }

  function PrintList(ss: seq<Setting>, trailing: bool): seq<Tok>
    requires forall s | s in ss :: Sound(s)
  {
    if ss == [] then []
    else
      [Ident(Key(ss[0])), Punct('=', false), ValueTok(ss[0])]
      + if |ss| == 1 && !trailing then [] else [Punct(',', false)] + PrintList(ss[1..], trailing)
  }

  lemma {:induction false} DigitsPlain(text: string)
    requires forall k | 0 <= k < |text| :: '0' <= text[k] <= '9'
    ensures Digits(text) == text
  {
    if text != "" {
      DigitsPlain(text[1..]);
      assert text == text[..1] + text[1..];
    }
  }

  lemma ValueSpells(s: Setting)
    requires Sound(s)
    ensures Spells(ValueTok(s), s)
  {
    if s.Threads? {
      DigitsPlain(Numeral(s.count));
    }
  }

  lemma {:induction false} PrintListed(ss: seq<Setting>, trailing: bool)
    requires forall s | s in ss :: Sound(s)
    ensures Listed(PrintList(ss, trailing), ss)
  {
    hide Spells, ValueTok, Sound, Key;
    if ss != [] {
      ValueSpells(ss[0]);
      PrintListed(ss[1..], trailing);
      var toks := PrintList(ss, trailing);
      if |ss| > 1 || trailing {
        assert toks[4..] == PrintList(ss[1..], trailing);
      }
    }
  }

  /** Any options, printed in any order, with or without a trailing comma, parse back to themselves. */
  lemma OptionsRoundTrip(o: Options, ss: seq<Setting>, trailing: bool)
    requires (forall s | s in ss :: Sound(s)) && DistinctKeys(ss) && Lists(ss, o)
    ensures Meaning(PrintList(ss, trailing)) == Some(o)
  {
    PrintListed(ss, trailing);
    CollectAnyOrder(ss, o);
    MeaningExact(PrintList(ss, trailing), o);
  }
}
