/** The expansions of the attribute macros (nuclei-macros/src/expand.rs). */
module MacroExpand {
  import opened Prelude
  import opened MacroTokens
  import opened MacroFn
  import opened MacroOptions

  function Id(name: string): Tok {
    Ident(name)
  }

  function Op(c: char): Tok {
    Punct(c, false)
  }

  function Joint(c: char): Tok {
    Punct(c, true)
  }

  function Parens(inner: seq<Tok>): Tok {
    Group(Parenthesis, inner)
  }

  // ----- string literals

  /** `str::replace` of one character. */
  function Replace(text: string, c: char, sub: string): string {
    if text == "" then "" else ReplaceOne(text[0], c, sub) + Replace(text[1..], c, sub)
  }

  function ReplaceOne(x: char, c: char, sub: string): string {
    if x == c then sub else [x]
  }

  /** Backslashes, then quotes, then newlines. */
  function Passes(text: string): string {
    Replace(Replace(Replace(text, '\\', "\\\\"), '"', "\\\""), '\n', "\\n")
  }

  /** A string literal built from plain text. */
  function StrLit(text: string): Tok {
    Literal("\"" + Passes(text) + "\"")
  }

  function EscapedChar(c: char): string {
    if c == '\\' then "\\\\" else if c == '"' then "\\\"" else if c == '\n' then "\\n" else [c]
  }

  /** Each character escaped on its own. */
  function Escaped(text: string): string {
    if text == "" then "" else EscapedChar(text[0]) + Escaped(text[1..])
  }

  /** What the compiler reads between the quotes: no bare quote or newline, and no other escapes. */
  function Unescaped(text: string): Option<string> {
    if text == "" then Some("")
    else if text[0] == '"' || text[0] == '\n' then None
    else if text[0] != '\\' then Then(text[..1], Unescaped(text[1..]))
    else if |text| == 1 then None
    else if text[1] == '\\' || text[1] == '"' then Then(text[1..2], Unescaped(text[2..]))
    else if text[1] == 'n' then Then("\n", Unescaped(text[2..]))
    else None
  }

  function Then(front: string, rest: Option<string>): Option<string> {
    match rest
    case None => None
    case Some(s) => Some(front + s)
  }

  lemma ReplaceOn(x: char, rest: string, c: char, sub: string)
    ensures Replace([x] + rest, c, sub) == ReplaceOne(x, c, sub) + Replace(rest, c, sub)
  {
    assert ([x] + rest)[1..] == rest;
  }

  lemma {:induction false} ReplaceJoins(a: string, b: string, c: char, sub: string)
    ensures Replace(a + b, c, sub) == Replace(a, c, sub) + Replace(b, c, sub)
  {
    hide ReplaceOne;
    if a == "" {
      assert a + b == b && "" + Replace(b, c, sub) == Replace(b, c, sub);
    } else {
      var x, rest := a[0], a[1..];
      ReplaceJoins(rest, b, c, sub);
      ReplaceOn(x, rest, c, sub);
      ReplaceOn(x, rest + b, c, sub);
      Assoc([x], rest, b);
      Assoc(ReplaceOne(x, c, sub), Replace(rest, c, sub), Replace(b, c, sub));
      assert a == [x] + rest;
    }
  }

  lemma Assoc(x: string, y: string, z: string)
    ensures x + (y + z) == x + y + z
  {
  }

  lemma PassesJoin(a: string, b: string)
    ensures Passes(a + b) == Passes(a) + Passes(b)
  {
    ReplaceJoins(a, b, '\\', "\\\\");
    var a1, b1 := Replace(a, '\\', "\\\\"), Replace(b, '\\', "\\\\");
    ReplaceJoins(a1, b1, '"', "\\\"");
    ReplaceJoins(Replace(a1, '"', "\\\""), Replace(b1, '"', "\\\""), '\n', "\\n");
  }

  lemma ReplaceFew(x: char, y: char, c: char, sub: string)
    ensures Replace([x], c, sub) == if x == c then sub else [x]
    ensures x != c && y != c ==> Replace([x, y], c, sub) == [x, y]
  {
    assert [x][1..] == "" && [x, y][1..] == [y] && [y][1..] == "" && sub + "" == sub;
  }

  lemma PassesOne(c: char)
    ensures Passes([c]) == EscapedChar(c)
  {
    ReplaceFew(c, c, '\\', "\\\\");
    ReplaceFew(c, c, '"', "\\\"");
    ReplaceFew(c, c, '\n', "\\n");
    ReplaceFew('\\', '\\', '"', "\\\"");
    ReplaceFew('\\', '\\', '\n', "\\n");
    ReplaceFew('\\', '"', '\n', "\\n");
  }

  /** The three passes over the whole text escape each character as if alone. */
  lemma {:induction false} PassesEscape(text: string)
    ensures Passes(text) == Escaped(text)
  {
    if text != "" {
      PassesEscape(text[1..]);
      assert text == [text[0]] + text[1..];
      PassesJoin([text[0]], text[1..]);
      PassesOne(text[0]);
    }
  }

  lemma {:induction false} UnescapedEscaped(text: string)
    ensures Unescaped(Escaped(text)) == Some(text)
  {
    if text != "" {
      UnescapedEscaped(text[1..]);
      var e, rest := EscapedChar(text[0]), Escaped(text[1..]);
      assert (e + rest)[|e|..] == rest && text == [text[0]] + text[1..];
    }
  }

  /** The literal reads back as the text it was built from, whatever the text. */
  lemma StrLitReadsBack(text: string)
    ensures var inner := Unquoted(StrLit(text).text);
            inner.Some? && Unescaped(inner.value) == Some(text)
  {
    PassesEscape(text);
    UnescapedEscaped(text);
    assert StrLit(text).text == "\"" + Passes(text) + "\"";
  }

  // ----- paths

  /** The segments with `::` between them. */
  function Segments(parts: seq<string>): seq<Tok> {
    if parts == [] then []
    else
      var front := parts[..|parts| - 1];
      (if front == [] then [] else Segments(front) + [Joint(':'), Joint(':')]) + [Id(parts[|parts| - 1])]
  }

  /** The identifiers of a token list, in order. */
  function Names(toks: seq<Tok>): seq<string> {
    if toks == [] then []
    else Names(toks[..|toks| - 1]) + if toks[|toks| - 1].Ident? then [toks[|toks| - 1].name] else []
  }

  method WriteSegments(start: seq<Tok>, parts: seq<string>) returns (out: seq<Tok>)
    ensures out == start + Segments(parts)
  {
    out := start;
    for i := 0 to |parts|
      invariant out == start + Segments(parts[..i])
    {
      if i > 0 {
        out := out + [Joint(':')];
        out := out + [Joint(':')];
      }
      out := out + [Id(parts[i])];
      assert parts[..i + 1][..i] == parts[..i];
    }
    assert parts[..|parts|] == parts;
  }

  lemma NamesOn(toks: seq<Tok>, t: Tok)
    ensures Names(toks + [t]) == Names(toks) + if t.Ident? then [t.name] else []
  {
    assert (toks + [t])[..|toks|] == toks;
  }

  /** The names of a written path are its segments. */
  lemma {:induction false} SegmentsName(parts: seq<string>)
    ensures Names(Segments(parts)) == parts
  {
    if parts != [] {
      var front, last := parts[..|parts| - 1], Id(parts[|parts| - 1]);
      SegmentsName(front);
      if front == [] {
        NamesOn([], last);
      } else {
        var toks := Segments(front);
        NamesOn(toks, Joint(':'));
        NamesOn(toks + [Joint(':')], Joint(':'));
        NamesOn(toks + [Joint(':')] + [Joint(':')], last);
        assert toks + [Joint(':'), Joint(':')] == toks + [Joint(':')] + [Joint(':')];
      }
      assert parts == front + [last.name];
    }
  }

  /** An absolute path. */
  function AbsolutePath(parts: seq<string>): seq<Tok> {
    [Joint(':'), Joint(':')] + Segments(parts)
  }

  /** Where the expansion finds `rest`: under the root the `crate` option gives, else under nuclei.
      Absolute, unless the root is relative to the calling crate. */
  function NucleiPath(opts: Options, rest: seq<string>): seq<Tok> {
    var root := if opts.krate.Some? then opts.krate.value else ["nuclei"];
    var out := AbsolutePath(root + rest);
    if root != [] && (root[0] == "crate" || root[0] == "self" || root[0] == "super") then out[2..] else out
  }

  // ----- how the body is run

  const FAILED_TO_START := "the nuclei runtime failed to start"
  const NEVER_RAN := "the benchmark harness never ran the body"
  const BENCHER := "__nuclei_bencher"
  const RUNTIME := "__nuclei_runtime"
  const LAST := "__nuclei_last"

  /** An option asks for something the shared runtime does not have. */
  predicate OwnRuntime(opts: Options) {
    opts.threads.Some? || opts.startPaused || opts.builder.Some?
  }

  function Call(name: string, args: seq<Tok>): seq<Tok> {
    [Op('.'), Id(name), Parens(args)]
  }

  /** The user's builder function as written, or nuclei's. */
  function BuilderPath(opts: Options): seq<Tok> {
    if opts.builder.Some? then Segments(opts.builder.value) else NucleiPath(opts, ["Runtime", "builder"])
  }

  /** The calls after the builder itself. */
  function Chain(opts: Options): seq<Tok> {
    (if opts.builder.None? || opts.threads.Some?
     then Call("worker_threads", [Literal(Numeral(if opts.threads.Some? then opts.threads.value else 0))])
     else [])
    + ((if opts.startPaused then Call("start_paused", [Id("true")]) else [])
       + (Call("build", []) + Call("expect", [StrLit(FAILED_TO_START)])))
  }

  function BuilderCalls(opts: Options): seq<Tok> {
    (BuilderPath(opts) + [Parens([])]) + Chain(opts)
  }

  function AsyncArg(body: seq<Tok>): Tok {
    Parens([Id("async"), Group(Brace, body)])
  }

  function BlockOn(opts: Options, body: seq<Tok>): seq<Tok> {
    NucleiPath(opts, ["block_on"]) + [AsyncArg(body)]
  }

  function Enter(body: seq<Tok>, opts: Options): seq<Tok> {
    if !OwnRuntime(opts) then BlockOn(opts, body)
    else BuilderCalls(opts) + [Op('.'), Id("block_on")] + [AsyncArg(body)]
  }

  /** One run of a benchmark's body. */
  function BenchRun(body: seq<Tok>, opts: Options): seq<Tok> {
    if OwnRuntime(opts) then [Id(RUNTIME), Op('.'), Id("block_on")] + [AsyncArg(body)] else BlockOn(opts, body)
  }

  /** What is bound before the harness iterates. */
  function BenchStart(opts: Options): seq<Tok> {
    (if OwnRuntime(opts) then [Id("let"), Id(RUNTIME), Op('=')] + BuilderCalls(opts) + [Op(';')] else [])
    + [Id("let"), Id("mut"), Id(LAST), Op('=')] + AbsolutePath(["core", "option", "Option", "None"]) + [Op(';')]
    + [Id(BENCHER), Op('.'), Id("iter")]
  }

  function BenchClosure(run: seq<Tok>): seq<Tok> {
    [Joint('|'), Op('|'), Id(LAST), Op('=')] + AbsolutePath(["core", "option", "Option", "Some"]) + [Parens(run)]
  }

  function BenchBody(body: seq<Tok>, opts: Options): seq<Tok> {
    BenchStart(opts) + [Parens(BenchClosure(BenchRun(body, opts)))]
    + [Op(';'), Id(LAST), Op('.'), Id("expect"), Parens([StrLit(NEVER_RAN)])]
  }

  // ----- the wrapper

  function Wrapper(item: FnItem, leading: seq<Tok>, params: seq<Tok>, enter: seq<Tok>): seq<Tok> {
    leading + item.attrs + item.vis + [Id("fn"), Id(item.name), Parens(params)] + item.ret + [Group(Brace, enter)]
  }

  function HarnessAttr(name: string): seq<Tok> {
    [Joint('#'), Group(Bracket, AbsolutePath(["core", "prelude", "v1", name]))]
  }

  const BENCH_PARAMS := [Id(BENCHER), Op(':'), Joint('&'), Id("mut"), Id("test"), Joint(':'), Joint(':'), Id("Bencher")]

  datatype Macro = Main | Test | Bench

  function Expand(mac: Macro, item: FnItem, opts: Options): seq<Tok> {
    match mac
    case Main => Wrapper(item, [], [], Enter(item.body, opts))
    case Test => Wrapper(item, HarnessAttr("test"), [], Enter(item.body, opts))
    case Bench => Wrapper(item, HarnessAttr("bench"), BENCH_PARAMS, BenchBody(item.body, opts))
  }

  /** The wrapper with `async` put back and its parameters taken out. */
  function Restored(wrapper: seq<Tok>, name: nat): seq<Tok>
    requires 0 < name && name + 1 < |wrapper|
  {
    wrapper[..name - 1] + [Id("async")] + wrapper[name - 1..name + 1] + [Parens([])] + wrapper[name + 2..]
  }

  /** Putting `async` back before the wrapper's `fn`, and taking its parameters out, makes it the
      user's function again, under the leading attribute and with the entering body. */
  lemma WrapperReads(item: FnItem, leading: seq<Tok>, params: seq<Tok>, enter: seq<Tok>)
    requires WellFormed(item) && AttrList(leading)
    ensures var read := FnItem(leading + item.attrs, item.vis, item.name, item.ret, enter);
            && WellFormed(read)
            && Restored(Wrapper(item, leading, params, enter), FnAt(item, leading) + 1) == Print(read)
  {
    var front, rest := leading + item.attrs + item.vis, item.ret + [Group(Brace, enter)];
    var words := [Id("fn"), Id(item.name), Parens(params)];
    var out := Wrapper(item, leading, params, enter);
    assert out == front + words + rest;
    var n := |front|;
    assert out[..n] == front && out[n..n + 2] == words[..2] && out[n + 3..] == rest;
  }

  function FnAt(item: FnItem, leading: seq<Tok>): nat {
    |leading| + |item.attrs| + |item.vis|
  }

  /** The wrapper's `fn` is its first. */
  lemma FirstFn(item: FnItem, leading: seq<Tok>, params: seq<Tok>, enter: seq<Tok>)
    requires WellFormed(item) && AttrList(leading)
    ensures var out, at := Wrapper(item, leading, params, enter), FnAt(item, leading);
            out[at] == Id("fn") && forall k | 0 <= k < at :: out[k] != Id("fn")
  {
    var front := leading + item.attrs + item.vis;
    assert forall k | 0 <= k < |leading| :: front[k] == leading[k];
    assert forall k | |leading| <= k < |leading| + |item.attrs| :: front[k] == item.attrs[k - |leading|];
    assert forall k | 0 <= k < |front| :: front[k] != Id("fn");
    assert Wrapper(item, leading, params, enter)[..|front|] == front;
  }

  /** A wrapper comes from one function and one entering body. */
  lemma WrapperOnce(a: FnItem, b: FnItem, leading: seq<Tok>, params: seq<Tok>, ea: seq<Tok>, eb: seq<Tok>)
    requires WellFormed(a) && WellFormed(b) && AttrList(leading)
    requires Wrapper(a, leading, params, ea) == Wrapper(b, leading, params, eb)
    ensures ea == eb && a.(body := b.body) == b
  {
    hide Wrapper, Print, WellFormed, AttrList, Restored;
    FirstFn(a, leading, params, ea);
    FirstFn(b, leading, params, eb);
    WrapperReads(a, leading, params, ea);
    WrapperReads(b, leading, params, eb);
    PrintOnce(FnItem(leading + a.attrs, a.vis, a.name, a.ret, ea), FnItem(leading + b.attrs, b.vis, b.name, b.ret, eb));
    assert a.attrs == (leading + a.attrs)[|leading|..];
    assert b.attrs == (leading + b.attrs)[|leading|..];
  }

  lemma EnterOnce(a: seq<Tok>, b: seq<Tok>, opts: Options)
    requires Enter(a, opts) == Enter(b, opts)
    ensures a == b
  {
    hide BuilderCalls, NucleiPath;
    var x, y := Enter(a, opts), Enter(b, opts);
    assert x[|x| - 1] == AsyncArg(a) && y[|y| - 1] == AsyncArg(b);
  }

  lemma BenchOnce(a: seq<Tok>, b: seq<Tok>, opts: Options)
    requires BenchBody(a, opts) == BenchBody(b, opts)
    ensures a == b
  {
    hide BenchStart, BenchClosure, BenchRun;
    var n := |BenchStart(opts)|;
    assert BenchBody(a, opts)[n].inner == BenchBody(b, opts)[n].inner;
    ClosureOnce(BenchRun(a, opts), BenchRun(b, opts));
    RunOnce(a, b, opts);
  }

  lemma ClosureOnce(a: seq<Tok>, b: seq<Tok>)
    requires BenchClosure(a) == BenchClosure(b)
    ensures a == b
  {
    hide AbsolutePath;
    var x, y := BenchClosure(a), BenchClosure(b);
    assert x[|x| - 1] == Parens(a) && y[|y| - 1] == Parens(b);
  }

  lemma RunOnce(a: seq<Tok>, b: seq<Tok>, opts: Options)
    requires BenchRun(a, opts) == BenchRun(b, opts)
    ensures a == b
  {
    hide NucleiPath;
    var x, y := BenchRun(a, opts), BenchRun(b, opts);
    assert x[|x| - 1] == AsyncArg(a) && y[|y| - 1] == AsyncArg(b);
  }

  /** Nothing of the user's function is lost: under the same options, an expansion comes from one
      function only. */
  lemma ExpandOnce(mac: Macro, a: FnItem, b: FnItem, opts: Options)
    requires WellFormed(a) && WellFormed(b) && Expand(mac, a, opts) == Expand(mac, b, opts)
    ensures a == b
  {
    hide Wrapper, WellFormed, Enter, BenchBody;
    match mac
    case Main =>
      WrapperOnce(a, b, [], [], Enter(a.body, opts), Enter(b.body, opts));
      EnterOnce(a.body, b.body, opts);
    case Test =>
      WrapperOnce(a, b, HarnessAttr("test"), [], Enter(a.body, opts), Enter(b.body, opts));
      EnterOnce(a.body, b.body, opts);
    case Bench =>
      WrapperOnce(a, b, HarnessAttr("bench"), BENCH_PARAMS, BenchBody(a.body, opts), BenchBody(b.body, opts));
      BenchOnce(a.body, b.body, opts);
  }

  // ----- what the built runtime is asked for

  predicate IsCall(toks: seq<Tok>, name: string) {
    |toks| >= 3 && toks[0] == Op('.') && toks[1] == Id(name) && IsGroup(toks[2], Parenthesis)
  }

  /** The arguments of the first call of method `name` in a chain. */
  function CallArgs(toks: seq<Tok>, name: string): Option<seq<Tok>> {
    if toks == [] then None
    else if IsCall(toks, name) then Some(toks[2].inner)
    else CallArgs(toks[1..], name)
  }

  /** The worker threads a chain asks for, if it says. */
  function AskedWorkers(toks: seq<Tok>): Option<nat> {
    match CallArgs(toks, "worker_threads")
    case None => None
    case Some(args) =>
      if |args| == 1 && args[0].Literal? && Decimal(args[0].text) then Some(Value(args[0].text)) else None
  }

  predicate AskedPaused(toks: seq<Tok>) {
    CallArgs(toks, "start_paused") == Some([Id("true")])
  }

  predicate NoDot(toks: seq<Tok>) {
    forall k | 0 <= k < |toks| :: toks[k] != Op('.')
  }

  lemma {:induction false} SkipPlain(front: seq<Tok>, rest: seq<Tok>, name: string)
    requires NoDot(front)
    ensures CallArgs(front + rest, name) == CallArgs(rest, name)
  {
    if front == [] {
      assert front + rest == rest;
    } else {
      SkipPlain(front[1..], rest, name);
      assert (front + rest)[0] == front[0] && (front + rest)[1..] == front[1..] + rest;
    }
  }

  lemma SkipCall(other: string, args: seq<Tok>, rest: seq<Tok>, name: string)
    requires other != name
    ensures CallArgs(Call(other, args) + rest, name) == CallArgs(rest, name)
  {
    var toks := Call(other, args) + rest;
    assert toks[1] != Id(name);
    assert toks[1..] == [Id(other), Parens(args)] + rest;
    SkipPlain([Id(other), Parens(args)], rest, name);
  }

  lemma FindCall(args: seq<Tok>, rest: seq<Tok>, name: string)
    ensures CallArgs(Call(name, args) + rest, name) == Some(args)
  {
    var toks := Call(name, args) + rest;
    assert toks[0] == Op('.') && toks[1] == Id(name) && toks[2] == Parens(args);
  }

  lemma {:induction false} SegmentsPlain(parts: seq<string>)
    ensures NoDot(Segments(parts))
  {
    if parts != [] {
      SegmentsPlain(parts[..|parts| - 1]);
    }
  }

  /** The chain's calls as its arguments are found, whatever else follows. */
  lemma ChainArgs(opts: Options, tail: seq<Tok>)
    requires CallArgs(tail, "worker_threads") == None && CallArgs(tail, "start_paused") == None
    ensures CallArgs(Chain(opts) + tail, "worker_threads") ==
            if opts.threads.Some? then Some([Literal(Numeral(opts.threads.value))])
            else if opts.builder.Some? then None
            else Some([Literal(Numeral(0))])
    ensures CallArgs(Chain(opts) + tail, "start_paused") == if opts.startPaused then Some([Id("true")]) else None
  {
    hide CallArgs, Call, StrLit, Numeral;
    var message := [StrLit(FAILED_TO_START)];
    var last := Call("build", []) + (Call("expect", message) + tail);
    var pause := (if opts.startPaused then Call("start_paused", [Id("true")]) else []) + last;
    forall name | name == "worker_threads" || name == "start_paused" ensures CallArgs(last, name) == None {
      SkipCall("build", [], Call("expect", message) + tail, name);
      SkipCall("expect", message, tail, name);
    }
    assert [] + last == last && [] + pause == pause;
    if opts.startPaused {
      FindCall([Id("true")], last, "start_paused");
      SkipCall("start_paused", [Id("true")], last, "worker_threads");
    }
    if opts.builder.None? || opts.threads.Some? {
      var args := [Literal(Numeral(if opts.threads.Some? then opts.threads.value else 0))];
      FindCall(args, pause, "worker_threads");
      SkipCall("worker_threads", args, pause, "start_paused");
      assert Chain(opts) + tail == Call("worker_threads", args) + pause;
    } else {
      assert Chain(opts) + tail == pause;
    }
  }

  lemma NoArgs(name: string)
    ensures CallArgs([], name) == None
  {
  }

  /** The runtime is built as the options say: `threads` workers; with none given, those of the
      user's builder, or no workers; and a paused clock exactly when asked for. */
  lemma BuilderMeans(opts: Options)
    ensures AskedWorkers(BuilderCalls(opts)) ==
            if opts.threads.Some? then opts.threads else if opts.builder.Some? then None else Some(0)
    ensures AskedPaused(BuilderCalls(opts)) <==> opts.startPaused
  {
    hide Chain, CallArgs, BuilderPath, Numeral;
    var front := BuilderPath(opts) + [Parens([])];
    BuilderPathPlain(opts);
    SkipPlain(front, Chain(opts), "worker_threads");
    SkipPlain(front, Chain(opts), "start_paused");
    NoArgs("worker_threads");
    NoArgs("start_paused");
    ChainArgs(opts, []);
    assert Chain(opts) + [] == Chain(opts);
  }

  lemma BuilderPathPlain(opts: Options)
    ensures NoDot(BuilderPath(opts))
  {
    var root := if opts.krate.Some? then opts.krate.value else ["nuclei"];
    SegmentsPlain(root + ["Runtime", "builder"]);
    if opts.builder.Some? {
      SegmentsPlain(opts.builder.value);
    }
    hide Segments;
  }

  /** What runs the body: the last call is `block_on` of the user's body as an async block; without
      options that ask for a runtime it is nuclei's own, and otherwise the built runtime's. */
  lemma EnterMeans(body: seq<Tok>, opts: Options)
    ensures var e := Enter(body, opts);
            && |e| >= 2 && e[|e| - 1] == Parens([Id("async"), Group(Brace, body)]) && e[|e| - 2] == Id("block_on")
            && AskedWorkers(e) == (if opts.threads.Some? then opts.threads
                                   else if opts.builder.None? && opts.startPaused then Some(0)
                                   else None)
            && (AskedPaused(e) <==> opts.startPaused)
  {
    hide CallArgs, BuilderPath, Chain, Numeral, NucleiPath;
    if OwnRuntime(opts) {
      var front := BuilderPath(opts) + [Parens([])];
      BuilderPathPlain(opts);
      var last := [Op('.'), Id("block_on")] + [AsyncArg(body)];
      assert Enter(body, opts) == front + (Chain(opts) + last);
      SkipPlain(front, Chain(opts) + last, "worker_threads");
      SkipPlain(front, Chain(opts) + last, "start_paused");
      SkipCall("block_on", AsyncArg(body).inner, [], "worker_threads");
      SkipCall("block_on", AsyncArg(body).inner, [], "start_paused");
      NoArgs("worker_threads");
      NoArgs("start_paused");
      assert last == Call("block_on", AsyncArg(body).inner) + [];
      ChainArgs(opts, last);
    } else {
      BlockOnPlain(opts, body);
      SkipPlain(Enter(body, opts), [], "worker_threads");
      SkipPlain(Enter(body, opts), [], "start_paused");
      assert Enter(body, opts) + [] == Enter(body, opts);
      NoArgs("worker_threads");
      NoArgs("start_paused");
      PathEnds(opts);
    }
  }

  lemma BlockOnPlain(opts: Options, body: seq<Tok>)
    ensures NoDot(BlockOn(opts, body))
  {
    var root := if opts.krate.Some? then opts.krate.value else ["nuclei"];
    SegmentsPlain(root + ["block_on"]);
    hide Segments;
  }

  lemma PathEnds(opts: Options)
    ensures var p := NucleiPath(opts, ["block_on"]); p != [] && p[|p| - 1] == Id("block_on")
  {
    var root := if opts.krate.Some? then opts.krate.value else ["nuclei"];
    assert (root + ["block_on"])[|root|] == "block_on";
  }

  /** A path below nuclei has the root's segments and then the rest, and starts with `::` exactly when
      the root is not `crate`, `self` or `super`. */
  lemma NucleiPathNames(opts: Options, rest: seq<string>)
    requires opts.krate.Some? ==> opts.krate.value != []
    ensures var root := if opts.krate.Some? then opts.krate.value else ["nuclei"];
            var p := NucleiPath(opts, rest);
            && Names(p) == root + rest
            && p != [] && (p[0] == Joint(':') <==> root[0] !in ["crate", "self", "super"])
  {
    hide Segments, Names;
    var root := if opts.krate.Some? then opts.krate.value else ["nuclei"];
    SegmentsName(root + rest);
    AbsoluteNames(root + rest);
    SegmentsFirst(root + rest);
    assert (root + rest)[0] == root[0];
    assert AbsolutePath(root + rest)[2..] == Segments(root + rest);
  }

  lemma {:induction false} NamesJoin(a: seq<Tok>, b: seq<Tok>)
    ensures Names(a + b) == Names(a) + Names(b)
  {
    if b == [] {
      assert a + b == a;
    } else {
      var n := |b| - 1;
      NamesJoin(a, b[..n]);
      NamesOn(a + b[..n], b[n]);
      assert a + b == a + b[..n] + [b[n]];
    }
  }

  lemma AbsoluteNames(parts: seq<string>)
    ensures Names(AbsolutePath(parts)) == parts
  {
    SegmentsName(parts);
    NamesJoin([Joint(':'), Joint(':')], Segments(parts));
    NamesOn([Joint(':')], Joint(':'));
    NamesOn([], Joint(':'));
    assert [Joint(':')] + [Joint(':')] == [Joint(':'), Joint(':')] && [] + [Joint(':')] == [Joint(':')];
  }

  lemma {:induction false} SegmentsFirst(parts: seq<string>)
    requires parts != []
    ensures Segments(parts) != [] && Segments(parts)[0] == Id(parts[0])
  {
    if |parts| > 1 {
      SegmentsFirst(parts[..|parts| - 1]);
    }
  }

  function Harness(mac: Macro): seq<Tok> {
    match mac
    case Main => []
    case Test => HarnessAttr("test")
    case Bench => HarnessAttr("bench")
  }

  lemma HarnessIs(mac: Macro)
    ensures AttrList(Harness(mac))
    ensures !mac.Main? ==>
            Names(Harness(mac)[1].inner) == ["core", "prelude", "v1", if mac.Test? then "test" else "bench"]
  {
    hide AbsolutePath;
    AbsoluteNames(["core", "prelude", "v1", "test"]);
    AbsoluteNames(["core", "prelude", "v1", "bench"]);
  }

  /** Read back with `async` in its place, an expansion is the user's function: nothing is put before
      its attributes but the harness attribute of a test or a benchmark. */
  lemma ExpandReads(mac: Macro, item: FnItem, opts: Options)
    requires WellFormed(item)
    ensures AttrList(Harness(mac)) && FnAt(item, Harness(mac)) + 2 < |Expand(mac, item, opts)|
    ensures var read := FnItem(Harness(mac) + item.attrs, item.vis, item.name, item.ret,
                               if mac.Bench? then BenchBody(item.body, opts) else Enter(item.body, opts));
            WellFormed(read) && Restored(Expand(mac, item, opts), FnAt(item, Harness(mac)) + 1) == Print(read)
    ensures !mac.Main? ==>
              Names(Harness(mac)[1].inner) == ["core", "prelude", "v1", if mac.Test? then "test" else "bench"]
  {
    HarnessIs(mac);
    hide WellFormed, Print, Restored, Enter, BenchBody, HarnessAttr, AttrList, Names;
    match mac
    case Main => WrapperReads(item, [], [], Enter(item.body, opts));
    case Test => WrapperReads(item, HarnessAttr("test"), [], Enter(item.body, opts));
    case Bench => WrapperReads(item, HarnessAttr("bench"), BENCH_PARAMS, BenchBody(item.body, opts));
  }
}
