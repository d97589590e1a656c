/** The parser of the function an attribute macro is put on (nuclei-macros/src/parse.rs). */
module MacroFn {
  import opened MacroTokens

  /** The parsed function: its attributes, visibility, name, the tokens between the parameters and the
      body, and the tokens of the body. */
  datatype FnItem = FnItem(attrs: seq<Tok>, vis: seq<Tok>, name: string, ret: seq<Tok>, body: seq<Tok>)

  // ----- the grammar

  /** Pairs of a `#` and a bracketed group. */
  predicate AttrList(attrs: seq<Tok>) {
    && |attrs| % 2 == 0
    && forall k | 0 <= k < |attrs| :: if k % 2 == 0 then IsPunct(attrs[k], '#') else IsGroup(attrs[k], Bracket)
  }

  /** Nothing, `pub`, or `pub(…)`. */
  predicate Visibility(vis: seq<Tok>) {
    || vis == []
    || (|vis| == 1 && vis[0] == Ident("pub"))
    || (|vis| == 2 && vis[0] == Ident("pub") && IsGroup(vis[1], Parenthesis))
  }

  predicate NoBrace(toks: seq<Tok>) {
    forall k | 0 <= k < |toks| :: !IsGroup(toks[k], Brace)
  }

  predicate WellFormed(item: FnItem) {
    AttrList(item.attrs) && Visibility(item.vis) && NoBrace(item.ret)
  }

  function Words(name: string): seq<Tok> {
    [Ident("async"), Ident("fn"), Ident(name), Group(Parenthesis, [])]
  }

  /** `attrs vis async fn name() ret { body }`. */
  function Print(item: FnItem): seq<Tok> {
    item.attrs + item.vis + Words(item.name) + item.ret + [Group(Brace, item.body)]
  }

  /** The first `n` tokens are those of `item`. */
  predicate Agrees(toks: seq<Tok>, n: nat, item: FnItem) {
    && n <= |toks| && n <= |Print(item)|
    && forall k | 0 <= k < n :: toks[k] == Print(item)[k]
  }

  /** Some function starts with the first `n` tokens. */
  ghost predicate Viable(toks: seq<Tok>, n: nat) {
    exists item :: WellFormed(item) && Agrees(toks, n, item)
  }

  /** `at` is as far as the tokens could be those of a function: some function starts with the ones
      before it, none with it too, and they are not a whole function. */
  ghost predicate StopsAt(toks: seq<Tok>, at: nat) {
    && at <= |toks|
    && Viable(toks, at)
    && (at < |toks| ==> !Viable(toks, at + 1))
    && forall item | WellFormed(item) :: Print(item) != toks
  }

  // ----- two readings of the same tokens agree

  /** The attributes and visibility read from the front of `toks`, as long as they go. */
  predicate Head(toks: seq<Tok>, attrs: seq<Tok>, vis: seq<Tok>) {
    && AttrList(attrs) && Visibility(vis) && attrs + vis <= toks
    && var rest := toks[|attrs| + |vis|..];
       rest != [] ==>
         && (vis == [] ==> !IsPunct(rest[0], '#') && rest[0] != Ident("pub"))
         && (|vis| == 1 ==> !IsGroup(rest[0], Parenthesis))
  }

  lemma SameAttrs(toks: seq<Tok>, attrs: seq<Tok>, n: nat, item: FnItem)
    requires WellFormed(item) && AttrList(attrs) && attrs <= toks
    requires |attrs| < n && Agrees(toks, n, item) && !IsPunct(toks[|attrs|], '#')
    ensures item.attrs == attrs
  {
    var a, i := |item.attrs|, |attrs|;
    assert Print(item)[a].Ident?;
    assert a < i ==> toks[a] == Print(item)[a] && IsPunct(toks[a], '#');
    assert toks[i] == Print(item)[i];
    assert forall k | 0 <= k < i :: toks[k] == Print(item)[k];
  }

  /** A `#` after whole attributes is one more attribute's. */
  lemma AfterHash(toks: seq<Tok>, attrs: seq<Tok>, item: FnItem)
    requires WellFormed(item) && AttrList(attrs) && attrs <= toks
    requires Agrees(toks, |attrs| + 2, item) && IsPunct(toks[|attrs|], '#')
    ensures IsGroup(toks[|attrs| + 1], Bracket)
  {
    var a, i := |item.attrs|, |attrs|;
    assert Print(item)[a].Ident?;
    assert a < i ==> toks[a] == Print(item)[a] && IsPunct(toks[a], '#');
    assert toks[i] == Print(item)[i];
    assert toks[i + 1] == Print(item)[i + 1];
  }

  lemma SameHead(toks: seq<Tok>, attrs: seq<Tok>, vis: seq<Tok>, n: nat, item: FnItem)
    requires WellFormed(item) && Head(toks, attrs, vis)
    requires |attrs| + |vis| < n && Agrees(toks, n, item)
    ensures item.attrs == attrs && item.vis == vis
  {
    var i, j := |attrs|, |attrs| + |vis|;
    assert toks[j] == toks[j..][0];
    assert vis != [] ==> toks[i] == vis[0];
    SameAttrs(toks, attrs, n, item);
    var v := |item.vis|;
    assert Print(item)[i + v] == Ident("async");
    assert v > 0 ==> Print(item)[i] == Ident("pub");
    assert v > 1 ==> Print(item)[i + 1] == item.vis[1];
    assert |vis| > 1 ==> toks[i + 1] == vis[1];
  }

  // ----- the parser

  method ParseAttrs(toks: seq<Tok>) returns (r: Parsed<seq<Tok>>)
    ensures r.Parsed? ==> AttrList(r.value) && r.value <= toks
    ensures r.Parsed? && |r.value| < |toks| ==> !IsPunct(toks[|r.value|], '#')
    ensures r.Refused? ==> StopsAt(toks, r.at)
  {
    var i := 0;
    var attrs := [];
    while i < |toks| && IsPunct(toks[i], '#')
      invariant 0 <= i <= |toks| && attrs == toks[..i] && AttrList(attrs)
    {
      if i + 1 < |toks| && IsGroup(toks[i + 1], Bracket) {
        attrs := attrs + [toks[i]] + [toks[i + 1]];
        i := i + 2;
      } else {
        StopsAfterHash(toks, attrs);
        return Refused(i + 1);
      }
    }
    r := Parsed(attrs);
  }

  lemma StopsAfterHash(toks: seq<Tok>, attrs: seq<Tok>)
    requires AttrList(attrs) && attrs < toks && IsPunct(toks[|attrs|], '#')
    requires |attrs| + 1 < |toks| ==> !IsGroup(toks[|attrs| + 1], Bracket)
    ensures StopsAt(toks, |attrs| + 1)
  {
    var i := |attrs|;
    var item := FnItem(attrs + [toks[i], Group(Bracket, [])], [], "", [], []);
    assert WellFormed(item) && Agrees(toks, i + 1, item);
    forall other | WellFormed(other) && Agrees(toks, i + 2, other) ensures false {
      AfterHash(toks, attrs, other);
    }
  }

  /** Where the tokens first differ from the fixed words of a function is where they stop: `words`
      are those already read after the head, out of `async`, `fn`, the name and `()`. */
  lemma StopsInWords(toks: seq<Tok>, attrs: seq<Tok>, vis: seq<Tok>, words: nat, name: string)
    requires Head(toks, attrs, vis) && words < 4
    requires var j := |attrs| + |vis|;
             && j + words <= |toks|
             && toks[j..][..words] == Words(name)[..words]
             && (j + words < |toks| ==>
                   if words == 2 then !toks[j..][2].Ident? else toks[j..][words] != Words(name)[words])
    ensures StopsAt(toks, |attrs| + |vis| + words)
  {
    var j := |attrs| + |vis|;
    WordsViable(toks, attrs, vis, words, name);
    assert forall other: string :: words != 2 ==> Words(other)[words] == Words(name)[words];
    forall other | WellFormed(other) && Agrees(toks, j + words + 1, other) ensures false {
      WordsForced(toks, attrs, vis, words, other);
    }
    forall other | WellFormed(other) && Print(other) == toks ensures false {
      NeverInHead(toks, attrs, vis, words, other);
    }
  }

  lemma WordsViable(toks: seq<Tok>, attrs: seq<Tok>, vis: seq<Tok>, words: nat, name: string)
    requires AttrList(attrs) && Visibility(vis) && attrs + vis <= toks && words < 4
    requires |attrs| + |vis| + words <= |toks|
    requires toks[|attrs| + |vis|..][..words] == Words(name)[..words]
    ensures Viable(toks, |attrs| + |vis| + words)
  {
    var j := |attrs| + |vis|;
    var item := FnItem(attrs, vis, name, [], []);
    assert Print(item) == (attrs + vis) + Words(name) + [Group(Brace, [])];
    assert toks[..j + words] == toks[..j] + toks[j..][..words] == (attrs + vis) + Words(name)[..words];
    forall k | 0 <= k < j + words ensures toks[k] == Print(item)[k] {
      assert toks[k] == toks[..j + words][k];
    }
    assert Agrees(toks, j + words, item);
  }

  lemma WordsForced(toks: seq<Tok>, attrs: seq<Tok>, vis: seq<Tok>, words: nat, item: FnItem)
    requires WellFormed(item) && Head(toks, attrs, vis) && words < 4
    requires Agrees(toks, |attrs| + |vis| + words + 1, item)
    ensures toks[|attrs| + |vis|..][words] == Words(item.name)[words]
  {
    var j := |attrs| + |vis|;
    SameHead(toks, attrs, vis, j + words + 1, item);
    assert toks[j + words] == Print(item)[j + words];
  }

  /** A whole function goes on past its head and its fixed words. */
  lemma NeverInHead(toks: seq<Tok>, attrs: seq<Tok>, vis: seq<Tok>, words: nat, item: FnItem)
    requires WellFormed(item) && Print(item) == toks && Head(toks, attrs, vis)
    requires words < 4
    ensures |attrs| + |vis| + words < |toks|
  {
    var j := |attrs| + |vis|;
    assert forall k | 0 <= k < j :: !IsGroup((attrs + vis)[k], Brace);
    assert Agrees(toks, |toks|, item) && toks[|toks| - 1] == Group(Brace, item.body);
    if j < |toks| {
      SameHead(toks, attrs, vis, |toks|, item);
    }
  }

  // ----- what follows the parameters

  /** Tokens with no body among them after the parameters could still get one. */
  lemma StopsBeforeBody(toks: seq<Tok>, attrs: seq<Tok>, vis: seq<Tok>, name: string, ret: seq<Tok>)
    requires Head(toks, attrs, vis) && NoBrace(ret) && toks == attrs + vis + Words(name) + ret
    ensures StopsAt(toks, |toks|)
  {
    var item := FnItem(attrs, vis, name, ret, []);
    assert Agrees(toks, |toks|, item);
    forall k | 0 <= k < |toks| ensures !IsGroup(toks[k], Brace) {
    }
    forall other | WellFormed(other) ensures Print(other) != toks {
      assert Print(other)[|Print(other)| - 1] == Group(Brace, other.body);
    }
  }

  /** Nothing can follow the body. */
  lemma StopsAfterBody(toks: seq<Tok>, item: FnItem)
    requires WellFormed(item) && Print(item) < toks
    ensures StopsAt(toks, |Print(item)|)
  {
    var n := |Print(item)|;
    assert Agrees(toks, n, item);
    forall other | WellFormed(other) && Agrees(toks, n + 1, other) ensures false {
      FirstBrace(item);
      FirstBrace(other);
    }
  }

  /** The body is the first braced group. */
  lemma FirstBrace(item: FnItem)
    requires WellFormed(item)
    ensures var n := |Print(item)| - 1;
            IsGroup(Print(item)[n], Brace) && forall k | 0 <= k < n :: !IsGroup(Print(item)[k], Brace)
  {
  }

  /** A token list is the print of at most one function. */
  lemma PrintOnce(item: FnItem, other: FnItem)
    requires WellFormed(item) && WellFormed(other) && Print(item) == Print(other)
    ensures item == other
  {
    var toks, n := Print(item), |Print(item)| - 1;
    FirstBrace(item);
    FirstBrace(other);
    var j := |item.attrs| + |item.vis|;
    assert toks[j..][0] == Ident("async");
    assert Agrees(toks, |toks|, other);
    SameHead(toks, item.attrs, item.vis, |toks|, other);
    assert item.name == toks[j + 2].name;
    assert item.ret == toks[j + 4..n] == other.ret;
    assert item.body == toks[n].inner;
  }

  method ParseHead(toks: seq<Tok>) returns (r: Parsed<(seq<Tok>, seq<Tok>)>)
    ensures r.Parsed? ==> Head(toks, r.value.0, r.value.1)
    ensures r.Refused? ==> StopsAt(toks, r.at)
  {
    hide StopsAt;
    var a := ParseAttrs(toks);
    if a.Refused? {
      return Refused(a.at);
    }
    var attrs := a.value;
    var i := |attrs|;
    var vis := [];
    if i < |toks| && toks[i] == Ident("pub") {
      vis := vis + [toks[i]];
      i := i + 1;
      if i < |toks| && IsGroup(toks[i], Parenthesis) {
        vis := vis + [toks[i]];
        i := i + 1;
      }
    }
    r := Parsed((attrs, vis));
  }

  /** `async fn name ()` from `start`, and the name. */
  method ParseWords(toks: seq<Tok>, attrs: seq<Tok>, vis: seq<Tok>) returns (r: Parsed<string>)
    requires Head(toks, attrs, vis)
    ensures r.Parsed? ==> attrs + vis + Words(r.value) <= toks
    ensures r.Refused? ==> StopsAt(toks, r.at)
  {
    hide StopsAt, AttrList, Visibility;
    var i := |attrs| + |vis|;
    var rest := toks[i..];
    assert toks[..i] == attrs + vis;
    if !(|rest| > 0 && rest[0] == Ident("async")) {
      StopsInWords(toks, attrs, vis, 0, "");
      return Refused(i);
    }
    if !(|rest| > 1 && rest[1] == Ident("fn")) {
      StopsInWords(toks, attrs, vis, 1, "");
      return Refused(i + 1);
    }
    if !(|rest| > 2 && rest[2].Ident?) {
      StopsInWords(toks, attrs, vis, 2, "");
      return Refused(i + 2);
    }
    var name := rest[2].name;
    if !(|rest| > 3 && rest[3] == Group(Parenthesis, [])) {
      StopsInWords(toks, attrs, vis, 3, name);
      return Refused(i + 3);
    }
    assert rest[..4] == Words(name);
    assert toks == toks[..i] + rest;
    r := Parsed(name);
  }

  /** Accepts exactly the prints of functions, answers the function printed, and refuses everything
      else at the first token no function could have there. */
  method ParseFnItem(toks: seq<Tok>) returns (r: Parsed<FnItem>)
    ensures r.Parsed? ==> WellFormed(r.value) && Print(r.value) == toks
    ensures r.Refused? ==> StopsAt(toks, r.at)
  {
    hide StopsAt, AttrList, Visibility;
    var h := ParseHead(toks);
    if h.Refused? {
      return Refused(h.at);
    }
    var (attrs, vis) := h.value;
    var w := ParseWords(toks, attrs, vis);
    if w.Refused? {
      return Refused(w.at);
    }
    var name := w.value;
    var i := |attrs| + |vis| + 4;
    ghost var head := attrs + vis + Words(name);
    var ret := [];
    while i < |toks| && !IsGroup(toks[i], Brace)
      invariant |head| <= i <= |toks| && NoBrace(ret) && toks[..i] == head + ret
    {
      assert toks[..i + 1] == toks[..i] + [toks[i]];
      ret := ret + [toks[i]];
      i := i + 1;
    }
    if i == |toks| {
      StopsBeforeBody(toks, attrs, vis, name, ret);
      return Refused(i);
    }
    var item := FnItem(attrs, vis, name, ret, toks[i].inner);
    assert toks[..i + 1] == toks[..i] + [toks[i]] == Print(item);
    i := i + 1;
    if i < |toks| {
      StopsAfterBody(toks, item);
      return Refused(i);
    }
    r := Parsed(item);
  }
}
