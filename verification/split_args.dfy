/** `splitArgs` of cmd/cli/root.go: quotes group, nothing else is special. */
module SplitArgs {
  import opened Wrappers
  import Text

  datatype Failure = UnbalancedQuote

  predicate Blank(c: char) {
    c == ' ' || c == '\t'
  }

  predicate Quote(c: char) {
    c == '\'' || c == '"'
  }

  // ---------- what a command line is ----------

  /** A piece of a word, quoted or bare, or one blank. */
  datatype Element = Quoted(q: char, text: string) | Bare(c: char) | Gap(c: char)

  predicate Written(e: Element) {
    match e
    case Quoted(q, text) => Quote(q) && q !in text
    case Bare(c) => !Quote(c) && !Blank(c)
    case Gap(c) => Blank(c)
  }

  predicate Line(es: seq<Element>) {
    forall e | e in es :: Written(e)
  }

  function Show(e: Element): string {
    match e
    case Quoted(q, text) => [q] + text + [q]
    case Bare(c) => [c]
    case Gap(c) => [c]
  }

  function Render(es: seq<Element>): string {
    if es == [] then "" else Show(es[0]) + Render(es[1..])
  }

  function Content(e: Element): string {
    match e
    case Quoted(_, text) => text
    case Bare(c) => [c]
    case Gap(_) => ""
  }

  function Append(word: Option<string>, more: string): Option<string> {
    Some((if word.Some? then word.value else "") + more)
  }

  function Done(word: Option<string>): seq<string> {
    if word.Some? then [word.value] else []
  }

  /** The words: maximal runs of pieces, the first one continuing `word`. */
  function Words(es: seq<Element>, word: Option<string>): seq<string> {
    if es == [] then Done(word)
    else if es[0].Gap? then Done(word) + Words(es[1..], None)
    else Words(es[1..], Append(word, Content(es[0])))
  }

  // ---------- the loop ----------

  datatype State = State(out: seq<string>, cur: string, quote: Option<char>, started: bool)

  const START := State([], "", None, false)

  function Flush(st: State): State {
    if st.started || |st.cur| > 0 then State(st.out + [st.cur], "", st.quote, false) else st
  }

  function Step(st: State, r: char): State {
    if st.quote.Some? then
      if r == st.quote.value then st.(quote := None) else st.(cur := st.cur + [r])
    else if Quote(r) then st.(quote := Some(r), started := true)
    else if Blank(r) then Flush(st)
    else st.(cur := st.cur + [r])
  }

  function Run(st: State, s: string): State
    decreases s
  {
    if s == "" then st else Run(Step(st, s[0]), s[1..])
  }

  function Split(s: string): Result<seq<string>, Failure> {
    var end := Run(START, s);
    if end.quote.Some? then Err(UnbalancedQuote) else Ok(Flush(end).out)
  }

  lemma {:induction false} RunConcat(st: State, a: string, b: string)
    ensures Run(st, a + b) == Run(Run(st, a), b)
    decreases a
  {
    if a == "" {
      assert a + b == b;
    } else {
      assert (a + b)[1..] == a[1..] + b;
      RunConcat(Step(st, a[0]), a[1..], b);
    }
  }

  method SplitLine(s: string) returns (r: Result<seq<string>, Failure>)
    ensures r == Split(s)
  {
    var out: seq<string> := [];
    var cur := "";
    var quote: Option<char> := None;
    var started := false;
    for i := 0 to |s|
      invariant Run(START, s[..i]) == State(out, cur, quote, started)
    {
      var c := s[i];
      assert s[..i + 1] == s[..i] + [c];
      RunConcat(START, s[..i], [c]);
      assert [c][1..] == "";
      if quote.Some? {
        if c == quote.value {
          quote := None;
          continue;
        }
        cur := cur + [c];
      } else if c == '\'' || c == '"' {
        quote := Some(c);
        started := true;
      } else if c == ' ' || c == '\t' {
        if started || |cur| > 0 {
          out := out + [cur];
          cur := "";
          started := false;
        }
      } else {
        cur := cur + [c];
      }
    }
    assert s[..|s|] == s;
    if quote.Some? {
      return Err(UnbalancedQuote);
    }
    if started || |cur| > 0 {
      out := out + [cur];
    }
    return Ok(out);
  }

  // ---------- every line is split into its words ----------

  /** The word being built, if any. */
  function Current(st: State): Option<string> {
    if st.started || |st.cur| > 0 then Some(st.cur) else None
  }

  lemma {:induction false} RunInsideQuote(st: State, text: string)
    requires st.quote.Some? && st.quote.value !in text
    ensures Run(st, text) == st.(cur := st.cur + text)
    decreases text
  {
    if text == "" {
      assert st.cur + text == st.cur;
    } else {
      RunInsideQuote(Step(st, text[0]), text[1..]);
      assert st.cur + [text[0]] + text[1..] == st.cur + text;
    }
  }

  lemma RunElement(st: State, e: Element)
    requires Written(e) && st.quote.None?
    ensures var after := Run(st, Show(e));
            && after.quote.None?
            && after.out == (if e.Gap? then st.out + Done(Current(st)) else st.out)
            && Current(after) == (if e.Gap? then None else Append(Current(st), Content(e)))
  {
    match e
    case Quoted(q, text) =>
      var inside := st.(quote := Some(q), started := true);
      assert Show(e)[1..] == text + [q];
      RunInsideQuote(inside, text);
      RunConcat(inside, text, [q]);
      assert [q][1..] == "";
    case _ =>
      assert Show(e)[1..] == "";
  }

  lemma WordsCons(e: Element, es: seq<Element>, word: Option<string>)
    ensures Words([e] + es, word) ==
            (if e.Gap? then Done(word) + Words(es, None) else Words(es, Append(word, Content(e))))
  {
    assert ([e] + es)[1..] == es;
  }

  lemma {:induction false} RunLine(st: State, es: seq<Element>)
    requires Line(es) && st.quote.None?
    ensures var end := Run(st, Render(es));
            end.quote.None? && Flush(end).out == st.out + Words(es, Current(st))
    decreases |es|
  {
    if es == [] {
    } else {
      var e, more := es[0], es[1..];
      assert es == [e] + more;
      RenderCons(e, more);
      WordsCons(e, more, Current(st));
      RunElement(st, e);
      RunConcat(st, Show(e), Render(more));
      RunLine(Run(st, Show(e)), more);
    }
  }

  // ---------- and nothing else is accepted ----------

  lemma RenderCons(e: Element, es: seq<Element>)
    ensures Render([e] + es) == Show(e) + Render(es)
    ensures Line([e] + es) <==> Written(e) && Line(es)
  {
    assert ([e] + es)[1..] == es;
    if Written(e) && Line(es) {
      assert Line([e] + es);
    }
    if Line([e] + es) {
      assert ([e] + es)[0] == e && e in [e] + es;
      assert forall x | x in es :: x in [e] + es;
    }
  }

  /** A closed quote at the front of a text. */
  lemma FirstQuoted(s: string) returns (e: Element, n: nat)
    requires s != "" && Quote(s[0]) && s[0] in s[1..]
    ensures Written(e) && 0 < n <= |s| && s == Show(e) + s[n..]
  {
    n := Closing(s[1..], s[0]) + 2;
    e := Quoted(s[0], s[1..n - 1]);
    assert s[1..][..n - 2] == s[1..n - 1];
    assert s[n - 1] == s[0];
    assert s == [s[0]] + s[1..n - 1] + [s[n - 1]] + s[n..];
  }

  lemma FirstElement(s: string) returns (e: Element, n: nat)
    requires s != "" && !(Quote(s[0]) && s[0] !in s[1..])
    ensures Written(e) && 0 < n <= |s| && s == Show(e) + s[n..]
  {
    if Quote(s[0]) {
      e, n := FirstQuoted(s);
    } else {
      e, n := if Blank(s[0]) then Gap(s[0]) else Bare(s[0]), 1;
    }
  }

  lemma PutInFront(e: Element, more: seq<Element>, rest: string)
    requires Written(e) && Line(more)
    ensures Line([e] + more) && Render([e] + more) + rest == Show(e) + (Render(more) + rest)
  {
    RenderCons(e, more);
  }

  /** A line, or a line followed by a quote nobody closes. */
  lemma {:induction false} Parse(s: string) returns (es: seq<Element>, rest: string)
    ensures Line(es) && s == Render(es) + rest
    ensures rest != "" ==> Quote(rest[0]) && rest[0] !in rest[1..]
    decreases |s|
  {
    if s == "" || (Quote(s[0]) && s[0] !in s[1..]) {
      assert Render([]) + s == s;
      return [], s;
    }
    var e, n := FirstElement(s);
    var more;
    more, rest := Parse(s[n..]);
    PutInFront(e, more, rest);
    es := [e] + more;
  }

  function Closing(s: string, q: char): (n: nat)
    requires q in s
    ensures n < |s| && s[n] == q && q !in s[..n]
  {
    if s[0] == q then 0 else 1 + Closing(s[1..], q)
  }

  lemma RunUnclosed(st: State, rest: string)
    requires st.quote.None? && rest != "" && Quote(rest[0]) && rest[0] !in rest[1..]
    ensures Run(st, rest).quote == Some(rest[0])
  {
    RunInsideQuote(Step(st, rest[0]), rest[1..]);
  }

  /** Accepted with these words exactly when it is a line of these words. */
  lemma SplitIsExact(s: string, words: seq<string>)
    ensures Split(s) == Ok(words) <==> exists es :: Line(es) && Render(es) == s && Words(es, None) == words
  {
    forall es | Line(es) && Render(es) == s
      ensures Split(s) == Ok(Words(es, None))
    {
      RunLine(START, es);
      assert [] + Words(es, None) == Words(es, None);
    }
    if Split(s) == Ok(words) {
      var es, rest := Parse(s);
      RunLine(START, es);
      RunConcat(START, Render(es), rest);
      if rest != "" {
        RunUnclosed(Run(START, Render(es)), rest);
      }
      assert Render(es) + "" == Render(es);
    }
  }

  /** It fails exactly when a quote is left open. */
  lemma SplitFailsOnOpenQuote(s: string)
    ensures Split(s).Err? <==>
            exists es, rest :: Line(es) && s == Render(es) + rest && rest != "" && Quote(rest[0])
              && rest[0] !in rest[1..]
  {
    forall es, rest | Line(es) && s == Render(es) + rest && rest != "" && Quote(rest[0]) && rest[0] !in rest[1..]
      ensures Split(s).Err?
    {
      RunLine(START, es);
      RunConcat(START, Render(es), rest);
      RunUnclosed(Run(START, Render(es)), rest);
    }
    if Split(s).Err? {
      var es, rest := Parse(s);
      RunLine(START, es);
      assert Render(es) + "" == Render(es);
    }
  }

  // ---------- quoting any words ----------

  /** A word of any characters, quoted piece by piece. */
  function QuoteWord(w: string): (es: seq<Element>)
    ensures Line(es) && forall e | e in es :: e.Quoted?
  {
    if w == "" then [Quoted('\'', "")]
    else [Quoted(if w[0] == '\'' then '"' else '\'', [w[0]])] + QuoteWord(w[1..])
  }

  function QuoteAll(words: seq<string>): (es: seq<Element>)
    ensures Line(es)
  {
    if words == [] then []
    else if |words| == 1 then QuoteWord(words[0])
    else QuoteWord(words[0]) + [Gap(' ')] + QuoteAll(words[1..])
  }

  lemma {:induction false} WordsOfQuoted(w: string, before: Option<string>, more: seq<Element>)
    ensures Words(QuoteWord(w) + more, before) == Words(more, Append(before, w))
    decreases w
  {
    var es := QuoteWord(w) + more;
    var front := if before.Some? then before.value else "";
    if w == "" {
      assert es[1..] == more;
    } else {
      assert es[1..] == QuoteWord(w[1..]) + more;
      WordsOfQuoted(w[1..], Append(before, [w[0]]), more);
      assert front + [w[0]] + w[1..] == front + w;
    }
  }

  lemma {:induction false} WordsOfQuotedList(words: seq<string>)
    ensures Words(QuoteAll(words), None) == words
  {
    if |words| == 1 {
      WordsOfQuoted(words[0], None, []);
      assert QuoteWord(words[0]) + [] == QuoteWord(words[0]);
      assert "" + words[0] == words[0];
    } else if |words| > 1 {
      var more := [Gap(' ')] + QuoteAll(words[1..]);
      assert QuoteAll(words) == QuoteWord(words[0]) + more;
      WordsOfQuoted(words[0], None, more);
      assert more[1..] == QuoteAll(words[1..]);
      assert "" + words[0] == words[0];
      WordsOfQuotedList(words[1..]);
    }
  }

  /** Splitting undoes quoting, for every list of words. */
  lemma SplitUndoesQuoting(words: seq<string>)
    ensures Split(Render(QuoteAll(words))) == Ok(words)
  {
    WordsOfQuotedList(words);
    SplitIsExact(Render(QuoteAll(words)), words);
  }

  // ---------- aliases ----------

  /** The first word, unless it is a flag, may name a command line of the user's. */
  function ExpandAliases(args: seq<string>, aliases: map<string, string>): seq<string> {
    if args == [] || (args[0] != "" && args[0][0] == '-') || args[0] !in aliases then args
    else
      match Split(aliases[args[0]])
      case Err(_) => args
      case Ok(parts) => if parts == [] then args else parts + args[1..]
  }

  /** An alias runs the words its line is made of; a line of blanks, or one with an open
      quote, leaves the arguments alone. */
  lemma AliasRunsItsWords(args: seq<string>, aliases: map<string, string>, es: seq<Element>, rest: string)
    requires args != [] && (args[0] == "" || args[0][0] != '-') && args[0] in aliases
    requires Line(es) && aliases[args[0]] == Render(es) + rest
    requires rest == "" || (Quote(rest[0]) && rest[0] !in rest[1..])
    ensures ExpandAliases(args, aliases) ==
            if rest == "" && Words(es, None) != [] then Words(es, None) + args[1..] else args
  {
    if rest == "" {
      assert Render(es) + rest == Render(es);
      SplitIsExact(Render(es), Words(es, None));
    } else {
      SplitFailsOnOpenQuote(aliases[args[0]]);
    }
  }

  /** Arguments that begin with a flag, or name no alias, are left alone. */
  lemma OtherArgumentsStay(args: seq<string>, aliases: map<string, string>)
    requires args == [] || "-" <= args[0] || args[0] !in aliases
    ensures ExpandAliases(args, aliases) == args
  {
  }

  // ---------- words without quotes ----------

  function BareWord(w: string): seq<Element> {
    if w == "" then [] else [Bare(w[0])] + BareWord(w[1..])
  }

  function BareLine(words: seq<string>, c: char): seq<Element> {
    if words == [] then []
    else if |words| == 1 then BareWord(words[0])
    else BareWord(words[0]) + [Gap(c)] + BareLine(words[1..], c)
  }

  /** No blank and no quote in it. */
  predicate Ordinary(w: string) {
    w != "" && Bareable(w)
  }

  predicate Bareable(w: string) {
    forall i | 0 <= i < |w| :: w[i] != ' ' && w[i] != '\t' && w[i] != '\'' && w[i] != '"'
  }

  lemma {:induction false} BareWordIsRendered(w: string)
    requires Bareable(w)
    ensures Line(BareWord(w)) && Render(BareWord(w)) == w
    decreases w
  {
    if w == "" {
    } else {
      BareWordIsRendered(w[1..]);
      RenderCons(Bare(w[0]), BareWord(w[1..]));
    }
  }

  lemma AppendTwice(word: Option<string>, a: string, b: string)
    ensures Append(Append(word, a), b) == Append(word, a + b)
  {
    var front := if word.Some? then word.value else "";
    assert front + a + b == front + (a + b);
  }

  lemma {:induction false} BareWordIsOneWord(w: string, before: Option<string>, more: seq<Element>)
    requires w != ""
    ensures Words(BareWord(w) + more, before) == Words(more, Append(before, w))
    decreases w
  {
    var rest := BareWord(w[1..]) + more;
    assert BareWord(w) + more == [Bare(w[0])] + rest && w == [w[0]] + w[1..];
    WordsCons(Bare(w[0]), rest, before);
    if |w| == 1 {
      assert rest == more && w == [w[0]];
    } else {
      BareWordIsOneWord(w[1..], Append(before, [w[0]]), more);
      AppendTwice(before, [w[0]], w[1..]);
    }
  }

  lemma {:induction false} RenderBareConcat(a: seq<Element>, b: seq<Element>)
    ensures Render(a + b) == Render(a) + Render(b)
  {
    if a == [] {
      assert a + b == b;
    } else {
      assert (a + b)[1..] == a[1..] + b;
      RenderBareConcat(a[1..], b);
      assert Show(a[0]) + (Render(a[1..]) + Render(b)) == Render(a) + Render(b);
    }
  }

  lemma {:induction false} BareLineIsRendered(words: seq<string>, c: char)
    requires c in {' ', '\t'} && forall w | w in words :: Ordinary(w)
    ensures Line(BareLine(words, c)) && Render(BareLine(words, c)) == Text.Join(words, c)
  {
    if words == [] {
    } else if |words| == 1 {
      assert words[0] in words;
      BareWordIsRendered(words[0]);
    } else {
      assert words[0] in words && forall w | w in words[1..] :: w in words;
      BareLineIsRendered(words[1..], c);
      BareWordIsRendered(words[0]);
      Separated(BareWord(words[0]), c, BareLine(words[1..], c));
    }
  }

  lemma LineConcat(a: seq<Element>, b: seq<Element>)
    requires Line(a) && Line(b)
    ensures Line(a + b)
  {
  }

  lemma Separated(a: seq<Element>, c: char, b: seq<Element>)
    requires Line(a) && Line(b) && Blank(c)
    ensures Line(a + [Gap(c)] + b) && Render(a + [Gap(c)] + b) == Render(a) + [c] + Render(b)
  {
    var gap := [Gap(c)] + b;
    RenderCons(Gap(c), b);
    RenderBareConcat(a, gap);
    LineConcat(a, gap);
    assert a + [Gap(c)] + b == a + gap;
    assert Render(a) + ([c] + Render(b)) == Render(a) + [c] + Render(b);
  }

  lemma {:induction false} BareLineHasTheWords(words: seq<string>, c: char)
    requires c in {' ', '\t'} && forall w | w in words :: Ordinary(w)
    ensures Words(BareLine(words, c), None) == words
  {
    if words == [] {
    } else if |words| == 1 {
      assert words[0] in words;
      BareWordIsOneWord(words[0], None, []);
      assert BareWord(words[0]) + [] == BareWord(words[0]) && "" + words[0] == words[0];
    } else {
      assert words[0] in words && forall w | w in words[1..] :: w in words;
      var rest := BareLine(words[1..], c);
      BareLineHasTheWords(words[1..], c);
      FirstWordThenRest(words[0], c, rest, words[1..]);
      assert BareLine(words, c) == BareWord(words[0]) + ([Gap(c)] + rest);
      assert words == [words[0]] + words[1..];
    }
  }

  lemma FirstWordThenRest(w: string, c: char, rest: seq<Element>, words: seq<string>)
    requires w != "" && Words(rest, None) == words
    ensures Words(BareWord(w) + ([Gap(c)] + rest), None) == [w] + words
  {
    BareWordIsOneWord(w, None, [Gap(c)] + rest);
    WordsCons(Gap(c), rest, Some(w));
    assert "" + w == w;
  }

  /** Words without quotes are split at spaces and at tabs. */
  lemma BareWordsAreSplit(words: seq<string>, c: char)
    requires c in {' ', '\t'} && forall w | w in words :: Ordinary(w)
    ensures Split(Text.Join(words, c)) == Ok(words)
  {
    BareLineIsRendered(words, c);
    BareLineHasTheWords(words, c);
    SplitIsExact(Text.Join(words, c), words);
  }
}
