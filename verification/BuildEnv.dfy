/**
  The build environment script of `SendEnv`: what the shell makes of it is the manifest's
  environment.
*/
module BuildEnv {
  import opened Numbers
  import opened Prelude
  import opened Shell

  // ---------------------------------------------------------------------------
  // shquote
  // ---------------------------------------------------------------------------

  /** strings.ReplaceAll(v, "'", "'\"'\"'"). */
  function EscapeQuotes(v: string): string {
    if v == "" then ""
    else (if v[0] == '\'' then "'\"'\"'" else [v[0]]) + EscapeQuotes(v[1..])
  }

  predicate Unsafe(v: string) {
    exists i :: 0 <= i < |v| && !Ordinary(v[i])
  }

  function Shquote(v: string): string {
    if v == "" then "''"
    else if !Unsafe(v) then v
    else "'" + EscapeQuotes(v) + "'"
  }

  /** The text `rest` ends a word that comes before it. */
  predicate Ends(rest: string) {
    rest == "" || EndsWord(rest[0])
  }

  lemma LexOneOrdinary(s: string, acc: string)
    requires s != "" && Ordinary(s[0])
    ensures Lex(s, Plain, acc) == Lex(s[1..], Plain, acc + [s[0]])
  {
  }

  lemma {:induction false} LexOrdinary(v: string, rest: string, acc: string)
    requires (forall i | 0 <= i < |v| :: Ordinary(v[i])) && Ends(rest)
    ensures Lex(v + rest, Plain, acc) == Some(Lexed(acc + v, rest))
    decreases |v|
  {
    if v == "" {
      assert v + rest == rest && acc + v == acc;
      PlainStop(rest, acc);
    } else {
      var s := v + rest;
      assert s[0] == v[0] && s[1..] == v[1..] + rest;
      LexOneOrdinary(s, acc);
      LexOrdinary(v[1..], rest, acc + [v[0]]);
      assert acc + [v[0]] + v[1..] == acc + v;
    }
  }

  lemma {:induction false} LexEscaped(v: string, rest: string, acc: string)
    ensures Lex(EscapeQuotes(v) + ("'" + rest), InSingle, acc) == Lex(rest, Plain, acc + v)
    decreases |v|
  {
    var tail := "'" + rest;
    if v == "" {
      assert EscapeQuotes(v) + tail == tail && tail[1..] == rest && acc + v == acc;
    } else {
      var t := EscapeQuotes(v[1..]) + tail;
      LexEscaped(v[1..], rest, acc + [v[0]]);
      assert acc + [v[0]] + v[1..] == acc + v;
      if v[0] == '\'' {
        assert EscapeQuotes(v) + tail == "'\"'\"'" + t;
        LexQuotedQuote(t, acc);
      } else {
        assert (EscapeQuotes(v) + tail)[1..] == t;
      }
    }
  }

  /** Close the single quotes, a single quote in double quotes, and open them again. */
  lemma LexQuotedQuote(t: string, acc: string)
    ensures Lex("'\"'\"'" + t, InSingle, acc) == Lex(t, InSingle, acc + "'")
  {
    var s := "'\"'\"'" + t;
    assert s[1..] == "\"'\"'" + t;
    assert s[1..][1..] == "'\"'" + t;
    assert s[1..][1..][1..] == "\"'" + t;
    assert s[1..][1..][1..][1..] == "'" + t;
    assert s[1..][1..][1..][1..][1..] == t;
    assert Lex(s, InSingle, acc) == Lex(s[1..], Plain, acc);
    assert Lex(s[1..], Plain, acc) == Lex(s[1..][1..], InDouble, acc);
    assert Lex(s[1..][1..], InDouble, acc) == Lex(s[1..][1..][1..], InDouble, acc + ['\'']);
    assert Lex("\"'" + t, InDouble, acc + ['\'']) == Lex(("\"'" + t)[1..], Plain, acc + ['\'']);
    assert ("\"'" + t)[1..] == "'" + t && ("'" + t)[1..] == t;
  }

  lemma EmptyRoundTrip(rest: string)
    requires Ends(rest)
    ensures Lex("''" + rest, Plain, "") == Some(Lexed("", rest))
  {
    var s := "''" + rest;
    assert s[1..] == "'" + rest && s[1..][1..] == rest;
    PlainStop(rest, "");
  }

  lemma QuotedRoundTrip(v: string, rest: string)
    requires Ends(rest)
    ensures Lex("'" + EscapeQuotes(v) + "'" + rest, Plain, "") == Some(Lexed(v, rest))
  {
    var s := "'" + EscapeQuotes(v) + "'" + rest;
    assert s[1..] == EscapeQuotes(v) + ("'" + rest);
    assert Lex(s, Plain, "") == Lex(s[1..], InSingle, "");
    LexEscaped(v, rest, "");
    assert "" + v == v;
    PlainStop(rest, v);
  }

  /** The shell reads back exactly the quoted string, whatever it contains. */
  lemma ShquoteRoundTrip(v: string, rest: string)
    requires Ends(rest)
    ensures Lex(Shquote(v) + rest, Plain, "") == Some(Lexed(v, rest))
  {
    if v == "" {
      EmptyRoundTrip(rest);
    } else if Unsafe(v) {
      QuotedRoundTrip(v, rest);
    } else {
      LexOrdinary(v, rest, "");
      assert "" + v == v;
    }
  }

  lemma PlainStop(rest: string, acc: string)
    requires Ends(rest)
    ensures Lex(rest, Plain, acc) == Some(Lexed(acc, rest))
  {
  }

  // ---------------------------------------------------------------------------
  // Arrays
  // ---------------------------------------------------------------------------

  /** An element of a YAML list; only strings are written. */
  datatype Item = Text(text: string) | NotText

  /** Nothing that double quotes do not protect. */
  predicate SafeInDouble(s: string) {
    s == "" ||
    if s[0] == '\\' then |s| > 1 && !Escapable(s[1]) && s[1] != '\n' && SafeInDouble(s[1..])
    else s[0] != '"' && s[0] != '$' && s[0] != '`' && SafeInDouble(s[1..])
  }

  /** Strings without a double quote, backslash, dollar or backtick are safe. */
  lemma {:induction false} FreeIsSafe(s: string)
    requires forall i | 0 <= i < |s| :: !Escapable(s[i])
    ensures SafeInDouble(s)
  {
    if s != "" {
      FreeIsSafe(s[1..]);
    }
  }

  lemma {:induction false} LexSafe(s: string, rest: string, acc: string)
    requires SafeInDouble(s)
    ensures Lex(s + ("\"" + rest), InDouble, acc) == Lex(rest, Plain, acc + s)
    decreases |s|
  {
    var tail := "\"" + rest;
    if s == "" {
      assert s + tail == tail && tail[1..] == rest && acc + s == acc;
    } else {
      LexSafe(s[1..], rest, acc + [s[0]]);
      assert (s + tail)[1..] == s[1..] + tail;
      assert acc + [s[0]] + s[1..] == acc + s;
    }
  }

  function Quoted(s: string): string {
    "\"" + s + "\""
  }

  function RenderItem(item: Item): string {
    if item.Text? then Quoted(item.text) else ""
  }

  function RenderItems(items: seq<Item>): string {
    if items == [] then ""
    else if |items| == 1 then RenderItem(items[0])
    else RenderItem(items[0]) + " " + RenderItems(items[1..])
  }

  function Texts(items: seq<Item>): seq<string> {
    if items == [] then []
    else (if items[0].Text? then [items[0].text] else []) + Texts(items[1..])
  }

  predicate SafeItems(items: seq<Item>) {
    forall i | 0 <= i < |items| :: items[i].Text? ==> SafeInDouble(items[i].text)
  }

  lemma ReadOneWord(s: string, rest: string, words: seq<string>)
    requires SafeInDouble(s) && Ends(rest)
    ensures ReadWords(Quoted(s) + rest, words) == ReadWords(rest, words + [s])
  {
    var text := Quoted(s) + rest;
    assert text[1..] == s + ("\"" + rest);
    LexSafe(s, rest, "");
    assert "" + s == s;
    PlainStop(rest, s);
    assert Lex(text, Plain, "") == Some(Lexed(s, rest));
  }

  /** One element is read, written or not; what follows it ends the word. */
  lemma ReadOneItem(item: Item, after: string, words: seq<string>)
    requires (item.Text? ==> SafeInDouble(item.text)) && Ends(after)
    ensures ReadWords(RenderItem(item) + after, words) == ReadWords(after, words + Texts([item]))
  {
    if item.Text? {
      ReadOneWord(item.text, after, words);
      assert Texts([item]) == [item.text] + Texts([item][1..]) == [item.text];
    } else {
      assert RenderItem(item) + after == after && words + Texts([item]) == words;
    }
  }

  lemma TextsCons(items: seq<Item>)
    requires items != []
    ensures Texts(items) == Texts([items[0]]) + Texts(items[1..])
  {
  }

  lemma SkipSpace(more: string, words: seq<string>)
    ensures ReadWords(" " + more, words) == ReadWords(more, words)
  {
  }

  lemma ReadClose(rest: string, words: seq<string>)
    ensures ReadWords(")" + rest, words) == Some(Words(words, rest))
  {
  }

  lemma RenderCons(items: seq<Item>, tail: string)
    requires |items| > 1
    ensures RenderItems(items) + tail == RenderItem(items[0]) + (" " + (RenderItems(items[1..]) + tail))
  {
  }

  ghost predicate ReadsAs(text: string, words: seq<string>, all: seq<string>, rest: string) {
    ReadWords(text, words) == Some(Words(all, rest))
  }

  lemma ReadFirst(items: seq<Item>, rest: string, words: seq<string>, all: seq<string>)
    requires |items| > 1 && SafeItems(items)
    requires ReadsAs(RenderItems(items[1..]) + (")" + rest), words + Texts([items[0]]), all, rest)
    ensures ReadsAs(RenderItems(items) + (")" + rest), words, all, rest)
  {
    var more := RenderItems(items[1..]) + (")" + rest);
    RenderCons(items, ")" + rest);
    ReadOneItem(items[0], " " + more, words);
    SkipSpace(more, words + Texts([items[0]]));
  }

  lemma ReadLast(item: Item, rest: string, words: seq<string>)
    requires item.Text? ==> SafeInDouble(item.text)
    ensures ReadsAs(RenderItem(item) + (")" + rest), words, words + Texts([item]), rest)
  {
    ReadOneItem(item, ")" + rest, words);
    ReadClose(rest, words + Texts([item]));
  }

  lemma {:induction false} ReadRenderedItems(items: seq<Item>, rest: string, words: seq<string>)
    requires SafeItems(items)
    ensures ReadsAs(RenderItems(items) + (")" + rest), words, words + Texts(items), rest)
    decreases |items|
  {
    if items == [] {
      assert RenderItems(items) + (")" + rest) == ")" + rest && words + Texts(items) == words;
      ReadClose(rest, words);
    } else if |items| == 1 {
      ReadLast(items[0], rest, words);
      assert items == [items[0]];
    } else {
      var words' := words + Texts([items[0]]);
      TextsCons(items);
      assert words' + Texts(items[1..]) == words + Texts(items);
      ReadRenderedItems(items[1..], rest, words');
      ReadFirst(items, rest, words, words + Texts(items));
    }
  }

  // ---------------------------------------------------------------------------
  // Arrays that are not protected
  // ---------------------------------------------------------------------------

  /** `t` is the end of `s`. */
  predicate EndsIn(s: string, t: string) {
    s == t || (s != "" && EndsIn(s[1..], t))
  }

  lemma {:induction false} SameChar(s: string, t: string, n: nat)
    requires EndsIn(s, t)
    ensures |t| <= |s|
    ensures 0 < n <= |t| ==> s[|s| - n] == t[|t| - n]
    decreases |s|
  {
    if s != t {
      SameChar(s[1..], t, n);
    }
  }

  lemma {:induction false} EndOfEnd(s: string, t: string, u: string)
    requires EndsIn(s, t) && EndsIn(t, u)
    ensures EndsIn(s, u)
    decreases |s|
  {
    if s != t {
      EndOfEnd(s[1..], t, u);
    }
  }

  lemma {:induction false} EndOfBoth(s: string, t: string, u: string)
    requires EndsIn(s, t) && EndsIn(s, u) && |u| <= |t|
    ensures EndsIn(t, u)
    decreases |s|
  {
    SameChar(s, t, 0);
    SameChar(s, u, 0);
    if s != t {
      SameChar(s[1..], t, 0);
      EndOfBoth(s[1..], t, u);
    }
  }

  lemma {:induction false} ConcatEndsIn(a: string, b: string)
    ensures EndsIn(a + b, b)
    decreases |a|
  {
    if a == "" {
      assert a + b == b;
    } else {
      assert (a + b)[1..] == a[1..] + b;
      ConcatEndsIn(a[1..], b);
    }
  }

  lemma {:induction false} LexRest(s: string, mode: Mode, acc: string)
    requires Lex(s, mode, acc).Some?
    ensures EndsIn(s, Lex(s, mode, acc).value.rest) && Ends(Lex(s, mode, acc).value.rest)
    decreases |s|
  {
    if s != "" {
      var c, t := s[0], s[1..];
      match mode
      case Plain =>
        if c == '\'' { LexRest(t, InSingle, acc); }
        else if c == '"' { LexRest(t, InDouble, acc); }
        else if !EndsWord(c) { LexRest(t, Plain, acc + [c]); }
      case InSingle =>
        if c == '\'' { LexRest(t, Plain, acc); } else { LexRest(t, InSingle, acc + [c]); }
      case InDouble =>
        if c == '"' { LexRest(t, Plain, acc); }
        else if c != '\\' { LexRest(t, InDouble, acc + [c]); }
        else if Escapable(t[0]) { LexRest(t[1..], InDouble, acc + [t[0]]); }
        else if t[0] == '\n' { LexRest(t[1..], InDouble, acc); }
        else { LexRest(t, InDouble, acc + [c]); }
    }
  }

  /** How many characters of `s` a word took, and how many of those it does not hold. */
  function Taken(s: string, mode: Mode, acc: string): nat
    requires Lex(s, mode, acc).Some?
  {
    LexConsumes(s, mode, acc);
    |s| - |Lex(s, mode, acc).value.rest|
  }

  function Dropped(s: string, mode: Mode, acc: string): int
    requires Lex(s, mode, acc).Some?
  {
    |acc| + Taken(s, mode, acc) - |Lex(s, mode, acc).value.word|
  }

  /** The first `n` characters stand for themselves. */
  predicate OrdinaryUpTo(s: string, n: nat) {
    n <= |s| && forall i | 0 <= i < n :: Ordinary(s[i])
  }

  /** A closing quote is dropped; a word that drops fewer than two characters has no quotes at all. */
  lemma {:induction false} LexDrops(s: string, mode: Mode, acc: string)
    requires Lex(s, mode, acc).Some?
    ensures Dropped(s, mode, acc) >= (if mode.Plain? then 0 else 1)
    ensures mode.Plain? && Dropped(s, mode, acc) < 2 ==> OrdinaryUpTo(s, Taken(s, mode, acc))
    decreases |s|
  {
    if s != "" {
      var c, t := s[0], s[1..];
      match mode
      case Plain =>
        if c == '\'' { LexDrops(t, InSingle, acc); }
        else if c == '"' { LexDrops(t, InDouble, acc); }
        else if !EndsWord(c) { LexDrops(t, Plain, acc + [c]); }
      case InSingle =>
        if c == '\'' { LexDrops(t, Plain, acc); } else { LexDrops(t, InSingle, acc + [c]); }
      case InDouble =>
        if c == '"' { LexDrops(t, Plain, acc); }
        else if c != '\\' { LexDrops(t, InDouble, acc + [c]); }
        else if Escapable(t[0]) { LexDrops(t[1..], InDouble, acc + [t[0]]); }
        else if t[0] == '\n' { LexDrops(t[1..], InDouble, acc); }
        else { LexDrops(t, InDouble, acc + [c]); }
    }
  }

  /** A word does not end in a blank that it took. */
  lemma {:induction false} LexLast(s: string, mode: Mode, acc: string)
    requires Lex(s, mode, acc).Some?
    ensures mode.Plain? || Taken(s, mode, acc) > 0
    ensures Taken(s, mode, acc) > 0 ==> !Blank(s[Taken(s, mode, acc) - 1])
    decreases |s|
  {
    if s != "" {
      var c, t := s[0], s[1..];
      match mode
      case Plain =>
        if c == '\'' { LexLast(t, InSingle, acc); }
        else if c == '"' { LexLast(t, InDouble, acc); }
        else if !EndsWord(c) { LexLast(t, Plain, acc + [c]); }
      case InSingle =>
        if c == '\'' { LexLast(t, Plain, acc); } else { LexLast(t, InSingle, acc + [c]); }
      case InDouble =>
        if c == '"' { LexLast(t, Plain, acc); }
        else if c != '\\' { LexLast(t, InDouble, acc + [c]); }
        else if Escapable(t[0]) { LexLast(t[1..], InDouble, acc + [t[0]]); }
        else if t[0] == '\n' { LexLast(t[1..], InDouble, acc); }
        else { LexLast(t, InDouble, acc + [c]); }
    }
  }

  /** Reading an unprotected string loses part of it, or goes on past its closing quote. */
  ghost predicate Loses(x: string, after: string, acc: string) {
    var w := Lex(x + ("\"" + after), InDouble, acc);
    w.Some? ==> |w.value.word| < |acc| + |x| || |w.value.rest| < |after|
  }

  lemma QuoteLoses(x: string, after: string, acc: string)
    requires x != "" && x[0] == '"'
    ensures Loses(x, after, acc)
  {
    var s := x + ("\"" + after);
    var t := x[1..] + ("\"" + after);
    assert s[0] == '"' && s[1..] == t;
    if Lex(s, InDouble, acc).Some? {
      LexDrops(t, Plain, acc);
      LexRest(t, Plain, acc);
      assert t[|x| - 1] == '"';
      assert !OrdinaryUpTo(t, |x|);
    }
  }

  lemma EscapeLoses(x: string, after: string, acc: string)
    requires |x| > 1 && x[0] == '\\' && (Escapable(x[1]) || x[1] == '\n')
    ensures Loses(x, after, acc)
  {
    var s := x + ("\"" + after);
    var t := x[2..] + ("\"" + after);
    assert s[0] == '\\' && s[1..][0] == x[1] && s[1..][1..] == t;
    if Lex(s, InDouble, acc).Some? {
      LexDrops(t, InDouble, if Escapable(x[1]) then acc + [x[1]] else acc);
      LexRest(t, InDouble, if Escapable(x[1]) then acc + [x[1]] else acc);
    }
  }

  lemma LastBackslashLoses(after: string, acc: string)
    ensures Loses("\\", after, acc)
  {
    var s := "\\" + ("\"" + after);
    assert s[0] == '\\' && s[1..][0] == '"' && s[1..][1..] == after;
    if Lex(s, InDouble, acc).Some? {
      LexLast(after, InDouble, acc + ['"']);
      LexRest(after, InDouble, acc + ['"']);
    }
  }

  lemma {:induction false} UnsafeLoses(x: string, after: string, acc: string)
    requires !SafeInDouble(x)
    ensures Loses(x, after, acc)
    decreases |x|
  {
    var s, t := x + ("\"" + after), x[1..] + ("\"" + after);
    assert s[0] == x[0] && s[1..] == t;
    if x[0] == '"' {
      QuoteLoses(x, after, acc);
    } else if x[0] == '\\' && |x| == 1 {
      assert x == "\\";
      LastBackslashLoses(after, acc);
    } else if x[0] == '\\' && (Escapable(x[1]) || x[1] == '\n') {
      EscapeLoses(x, after, acc);
    } else if x[0] != '$' && x[0] != '`' {
      assert x[0] == '\\' ==> t[0] == x[1];
      UnsafeLoses(x[1..], after, acc + [x[0]]);
    }
  }

  function Prepends(words: seq<string>, r: Option<Words>): bool {
    r.Some? ==> words <= r.value.items
  }

  lemma {:induction false} ReadWordsKeeps(s: string, words: seq<string>)
    ensures Prepends(words, ReadWords(s, words))
    decreases |s|
  {
    if s != "" {
      if Blank(s[0]) {
        ReadWordsKeeps(s[1..], words);
      } else if s[0] != ')' {
        var w := Lex(s, Plain, "");
        if w.Some? {
          LexConsumes(s, Plain, "");
          ReadWordsKeeps(w.value.rest, words + [w.value.word]);
        }
      }
    }
  }

  /** The written list with what closes it. */
  function Closed(items: seq<Item>): string
    decreases |items|, 1
  {
    if items == [] then ")\n" else RenderItem(items[0]) + After(items)
  }

  /** What is written after the first element. */
  function After(items: seq<Item>): string
    requires items != []
    decreases |items|, 0
  {
    if |items| == 1 then Closed(items[1..]) else " " + Closed(items[1..])
  }

  lemma {:induction false} ClosedIsRendered(items: seq<Item>)
    ensures Closed(items) == RenderItems(items) + ")\n"
  {
    if |items| == 1 {
      assert Closed(items[1..]) == ")\n";
    } else if |items| > 1 {
      ClosedIsRendered(items[1..]);
      RenderCons(items, ")\n");
    }
  }

  function SkipBlanks(s: string): string {
    if s != "" && Blank(s[0]) then SkipBlanks(s[1..]) else s
  }

  lemma {:induction false} SkipsToEnd(s: string)
    ensures EndsIn(s, SkipBlanks(s)) && (SkipBlanks(s) != "" ==> !Blank(SkipBlanks(s)[0]))
  {
    if s != "" && Blank(s[0]) {
      SkipsToEnd(s[1..]);
      EndOfEnd(s, s[1..], SkipBlanks(s));
    }
  }

  /** An end of `s` that comes after something else than a blank is part of what is left without its blanks. */
  lemma {:induction false} PastBlanks(s: string, t: string)
    requires EndsIn(s, t) && |t| < |s| && !Blank(s[|s| - |t| - 1])
    ensures |t| < |SkipBlanks(s)|
    decreases |s|
  {
    if Blank(s[0]) {
      EndAfter([s[0]], s[1..], t);
      assert s == [s[0]] + s[1..];
      PastBlanks(s[1..], t);
    }
  }

  lemma {:induction false} ReadSkips(s: string, words: seq<string>)
    ensures ReadWords(SkipBlanks(s), words) == ReadWords(s, words)
  {
    if s != "" && Blank(s[0]) {
      ReadSkips(s[1..], words);
    }
  }

  /** The reader has only `t` left of the written list: it is past the start of the list's first word. */
  ghost predicate Ahead(items: seq<Item>, t: string) {
    EndsIn(Closed(items), t) && |t| < |SkipBlanks(Closed(items))|
  }

  lemma EndAfter(a: string, b: string, t: string)
    requires EndsIn(a + b, t) && |t| <= |b|
    ensures EndsIn(b, t)
  {
    ConcatEndsIn(a, b);
    EndOfBoth(a + b, b, t);
  }

  lemma SameEnd(all: string, after: string, t: string, rest: string)
    requires EndsIn(all, after) && EndsIn(all, t) && EndsIn(t, rest) && |rest| < |after| && |rest| < |t|
    ensures EndsIn(after, rest) && after[|after| - |rest| - 1] == t[|t| - |rest| - 1]
  {
    EndOfEnd(all, t, rest);
    EndOfBoth(all, after, rest);
    SameChar(all, t, |rest| + 1);
    SameChar(all, after, |rest| + 1);
  }

  /** What a word left of `t`, when it took something of what follows an element, begins within the next one. */
  lemma RestOfNext(all: string, after: string, next: string, t: string, rest: string)
    requires EndsIn(all, after) && EndsIn(after, next) && EndsIn(all, t) && EndsIn(t, rest)
    requires |rest| < |after| <= |next| + 1 && |rest| < |t| && !Blank(t[|t| - |rest| - 1])
    requires SkipBlanks(after) == SkipBlanks(next)
    ensures EndsIn(next, rest) && |rest| < |SkipBlanks(next)|
  {
    SameEnd(all, after, t, rest);
    PastBlanks(after, rest);
    EndOfBoth(after, next, rest);
  }

  /** `rest` is left of `t`, and what comes before it is no blank. */
  ghost predicate LeftOf(t: string, rest: string) {
    EndsIn(t, rest) && (|rest| < |t| ==> !Blank(t[|t| - |rest| - 1]))
  }

  lemma WordLeaves(t: string)
    requires Lex(t, Plain, "").Some?
    ensures LeftOf(t, Lex(t, Plain, "").value.rest)
  {
    LexRest(t, Plain, "");
    LexLast(t, Plain, "");
  }

  lemma AfterSkips(items: seq<Item>)
    requires items != []
    ensures SkipBlanks(After(items)) == SkipBlanks(Closed(items[1..])) && EndsIn(After(items), Closed(items[1..]))
    ensures |After(items)| <= |Closed(items[1..])| + 1
  {
    var next := Closed(items[1..]);
    assert (" " + next)[1..] == next;
  }

  lemma ClosedEndsInAfter(items: seq<Item>)
    requires items != []
    ensures EndsIn(Closed(items), After(items))
  {
    ConcatEndsIn(RenderItem(items[0]), After(items));
  }

  lemma BecomesAhead(items: seq<Item>, t: string, rest: string)
    requires items != [] && EndsIn(Closed(items), t) && LeftOf(t, rest) && |rest| < |After(items)| && |rest| < |t|
    ensures Ahead(items[1..], rest)
  {
    ClosedEndsInAfter(items);
    AfterSkips(items);
    RestOfNext(Closed(items), After(items), Closed(items[1..]), t, rest);
  }

  lemma QuotedAt(x: string, after: string)
    ensures |Quoted(x) + after| == |x| + 2 + |after| && (Quoted(x) + after)[|x| + 1] == '"'
  {
  }

  /** A word of `n` characters left `m` of `t`: it took at least two more, or only ordinary characters. */
  ghost predicate Took(t: string, m: nat, n: nat) {
    && m < |t| && m + n <= |t| && (m + n + 2 <= |t| || OrdinaryUpTo(t, |t| - m))
    && (m > 0 ==> EndsWord(t[|t| - m]))
  }

  lemma TakesWord(t: string, n: nat)
    requires t != "" && !EndsWord(t[0]) && Lex(t, Plain, "").Some? && |Lex(t, Plain, "").value.word| == n
    ensures Took(t, |Lex(t, Plain, "").value.rest|, n)
  {
    var rest := Lex(t, Plain, "").value.rest;
    LexRest(t, Plain, "");
    LexDrops(t, Plain, "");
    LexConsumes(t, Plain, "");
    SameChar(t, rest, |rest|);
  }

  lemma TookTooMuch(t: string, m: nat, n: nat, a: nat)
    requires |t| < n + 2 + a && (|t| > a ==> t[|t| - a - 1] == '"') && Took(t, m, n)
    ensures m < a
  {
  }

  /** With less than `n + 2` characters before the last `a`, the last of them a quote, it took some of those `a`. */
  lemma TakesTooMuch(t: string, n: nat, a: nat)
    requires |t| < n + 2 + a && (|t| > a ==> t[|t| - a - 1] == '"')
    requires t != "" && !EndsWord(t[0]) && Lex(t, Plain, "").Some? && |Lex(t, Plain, "").value.word| == n
    ensures |Lex(t, Plain, "").value.rest| < a && |Lex(t, Plain, "").value.rest| < |t|
  {
    TakesWord(t, n);
    TookTooMuch(t, |Lex(t, Plain, "").value.rest|, n, a);
  }

  /** A list that was read with another word in a place than the wanted one is another list. */
  lemma WrongWord(t: string, words: seq<string>, wanted: seq<string>, rest: string)
    requires t != "" && !EndsWord(t[0]) && Lex(t, Plain, "").Some?
    requires |words| < |wanted| && wanted[|words|] != Lex(t, Plain, "").value.word
    ensures ReadWords(t, words) != Some(Words(wanted, rest))
  {
    var w := Lex(t, Plain, "").value;
    LexConsumes(t, Plain, "");
    ReadWordsKeeps(w.rest, words + [w.word]);
    assert (words + [w.word])[|words|] == w.word;
  }

  lemma RightWord(t: string, words: seq<string>)
    requires t != "" && !EndsWord(t[0]) && Lex(t, Plain, "").Some?
    ensures ReadWords(t, words)
         == ReadWords(Lex(t, Plain, "").value.rest, words + [Lex(t, Plain, "").value.word])
  {
  }

  ghost predicate Misread(t: string, words: seq<string>, items: seq<Item>) {
    ReadWords(t, words) != Some(Words(words + Texts(items), "\n"))
  }

  lemma MisreadCons(t: string, words: seq<string>, items: seq<Item>)
    requires items != [] && items[0].Text? && Misread(t, words + [items[0].text], items[1..])
    ensures ReadWords(t, words + [items[0].text]) != Some(Words(words + Texts(items), "\n"))
  {
    assert Texts(items) == [items[0].text] + Texts(items[1..]);
    assert words + [items[0].text] + Texts(items[1..]) == words + Texts(items);
  }

  lemma MisreadLater(t: string, words: seq<string>, items: seq<Item>)
    requires items != [] && items[0].NotText? && Misread(t, words, items[1..])
    ensures Misread(t, words, items)
  {
    assert Texts(items) == Texts(items[1..]);
  }

  lemma NothingToRead(t: string, words: seq<string>)
    requires |t| < 2 && EndsIn(")\n", t)
    ensures ReadWords(t, words).None?
  {
    var u, v := ")\n", "\n";
    assert u[1..] == v && v[1..] == "";
    assert EndsIn(u[1..], t);
    if t != v {
      assert EndsIn(v[1..], t);
    }
  }

  lemma NothingAhead(t: string, words: seq<string>, items: seq<Item>)
    requires Ahead(items, t) && Closed(items) == ")\n"
    ensures Misread(t, words, items)
  {
    assert SkipBlanks(")\n") == ")\n";
    NothingToRead(t, words);
  }

  lemma {:induction false} NeverCatchesUp(items: seq<Item>, t: string, words: seq<string>)
    requires Ahead(items, t)
    ensures Misread(t, words, items)
    decreases |items|, 1
  {
    if items == [] || (|items| == 1 && items[0].NotText?) {
      NothingAhead(t, words, items);
    } else if items[0].NotText? {
      AheadOfNext(items, t);
      NeverCatchesUp(items[1..], t, words);
      MisreadLater(t, words, items);
    } else {
      ReadSkips(t, words);
      SkipsToEnd(t);
      SameChar(t, SkipBlanks(t), 0);
      EndOfEnd(Closed(items), t, SkipBlanks(t));
      TextNeverCatchesUp(items, SkipBlanks(t), words);
    }
  }

  lemma AheadOfNext(items: seq<Item>, t: string)
    requires |items| > 1 && items[0].NotText? && Ahead(items, t)
    ensures Ahead(items[1..], t)
  {
    var next := Closed(items[1..]);
    assert Closed(items) == " " + next && (" " + next)[1..] == next;
    SkipsToEnd(next);
    SameChar(next, SkipBlanks(next), 0);
    EndAfter(" ", next, t);
  }

  lemma {:induction false} TextNeverCatchesUp(items: seq<Item>, t: string, words: seq<string>)
    requires items != [] && items[0].Text? && Ahead(items, t) && (t != "" ==> !Blank(t[0]))
    ensures Misread(t, words, items)
    decreases |items|, 0
  {
    TextsHead(items);
    if t != "" && t[0] != ')' && Lex(t, Plain, "").Some? {
      if Lex(t, Plain, "").value.word == items[0].text {
        var x, after := items[0].text, After(items);
        QuotedAt(x, after);
        if |t| > |after| {
          SameChar(Closed(items), t, |after| + 1);
        }
        TakesTooMuch(t, |x|, |after|);
        WordLeaves(t);
        BecomesAhead(items, t, Lex(t, Plain, "").value.rest);
        NeverCatchesUp(items[1..], Lex(t, Plain, "").value.rest, words + [items[0].text]);
        MisreadCons(Lex(t, Plain, "").value.rest, words, items);
        RightWord(t, words);
      } else {
        WrongWord(t, words, words + Texts(items), "\n");
      }
    }
  }

  lemma TextsHead(items: seq<Item>)
    requires items != [] && items[0].Text?
    ensures |Texts(items)| > 0 && Texts(items)[0] == items[0].text
  {
  }

  lemma OpenQuote(x: string, after: string)
    ensures var all := Quoted(x) + after;
      all[0] == '"' && Lex(all, Plain, "") == Lex(x + ("\"" + after), InDouble, "")
  {
    assert (Quoted(x) + after)[1..] == x + ("\"" + after);
  }

  /** The first element is unprotected: it is lost, or the reader is ahead from there on. */
  lemma UnsafeFirst(items: seq<Item>, words: seq<string>)
    requires items != [] && items[0].Text? && !SafeInDouble(items[0].text)
    ensures Misread(Closed(items), words, items)
  {
    var x, all := items[0].text, Closed(items);
    TextsHead(items);
    OpenQuote(x, After(items));
    if Lex(all, Plain, "").Some? {
      if Lex(all, Plain, "").value.word == x {
        UnsafeLoses(x, After(items), "");
        UnsafeGoesOn(items, words);
      } else {
        WrongWord(all, words, words + Texts(items), "\n");
      }
    }
  }

  lemma UnsafeGoesOn(items: seq<Item>, words: seq<string>)
    requires items != [] && items[0].Text? && Closed(items) != "" && Closed(items)[0] == '"'
    requires Lex(Closed(items), Plain, "").Some? && Lex(Closed(items), Plain, "").value.word == items[0].text
    requires |Lex(Closed(items), Plain, "").value.rest| < |After(items)|
    ensures Misread(Closed(items), words, items)
  {
    var all := Closed(items);
    assert EndsIn(all, all);
    WordLeaves(all);
    BecomesAhead(items, all, Lex(all, Plain, "").value.rest);
    NeverCatchesUp(items[1..], Lex(all, Plain, "").value.rest, words + [items[0].text]);
    MisreadCons(Lex(all, Plain, "").value.rest, words, items);
    RightWord(all, words);
  }

  lemma ReadPastFirst(items: seq<Item>, words: seq<string>)
    requires items != [] && (items[0].Text? ==> SafeInDouble(items[0].text))
    ensures ReadWords(Closed(items), words) == ReadWords(Closed(items[1..]), words + Texts([items[0]]))
  {
    if |items| == 1 {
      assert After(items) == Closed([]) == ")\n";
    }
    ReadOneItem(items[0], After(items), words);
    SkipSpace(Closed(items[1..]), words + Texts([items[0]]));
  }

  lemma WordsInOrder(words: seq<string>, first: seq<string>, rest: seq<string>)
    ensures words + first + rest == words + (first + rest)
  {
  }

  lemma UnsafeRest(items: seq<Item>, words: seq<string>)
    requires items != [] && (items[0].Text? ==> SafeInDouble(items[0].text))
    requires Misread(Closed(items[1..]), words + Texts([items[0]]), items[1..])
    ensures Misread(Closed(items), words, items)
  {
    ReadPastFirst(items, words);
    TextsCons(items);
    WordsInOrder(words, Texts([items[0]]), Texts(items[1..]));
  }

  lemma {:induction false} UnsafeListIsMisread(items: seq<Item>, words: seq<string>)
    requires !SafeItems(items)
    ensures Misread(Closed(items), words, items)
    decreases |items|
  {
    if items[0].Text? && !SafeInDouble(items[0].text) {
      UnsafeFirst(items, words);
    } else {
      UnsafeListIsMisread(items[1..], words + Texts([items[0]]));
      UnsafeRest(items, words);
    }
  }

  /**
    SendEnv writes array elements in double quotes without escaping them.  The shell of `Shell` reads the
    strings back exactly when double quotes protect all of every one: what one breaks no other mends.
  */
  lemma ArrayRoundTrip(items: seq<Item>)
    ensures SafeItems(items) <==> ReadWords(RenderItems(items) + ")\n", []) == Some(Words(Texts(items), "\n"))
  {
    ClosedIsRendered(items);
    assert [] + Texts(items) == Texts(items);
    if SafeItems(items) {
      ReadRenderedItems(items, "\n", []);
      assert ")\n" == ")" + "\n";
    } else {
      UnsafeListIsMisread(items, []);
    }
  }

  predicate AllText(items: seq<Item>) {
    forall i | 0 <= i < |items| :: items[i].Text?
  }

  lemma {:induction false} TextsOfStrings(items: seq<Item>)
    requires AllText(items)
    ensures |Texts(items)| == |items| && forall i | 0 <= i < |items| :: items[i] == Text(Texts(items)[i])
    decreases |items|
  {
    if items != [] {
      TextsOfStrings(items[1..]);
      assert forall i | 0 < i < |items| :: items[i] == items[1..][i - 1];
      assert Texts(items) == [items[0].text] + Texts(items[1..]);
    }
  }

  /** `words` are the items, all of which are strings. */
  predicate Whole(words: seq<string>, items: seq<Item>) {
    |words| == |items| && forall i | 0 <= i < |items| :: items[i] == Text(words[i])
  }

  lemma WholeIsTexts(words: seq<string>, items: seq<Item>)
    requires Whole(words, items)
    ensures words == Texts(items)
  {
    TextsOfStrings(items);
  }

  /** An item that is no string is lost: the list comes back whole exactly when all items are protected strings. */
  lemma ListComesBackWhole(items: seq<Item>)
    ensures AllText(items) && SafeItems(items) <==>
      exists words :: Whole(words, items) && ReadWords(RenderItems(items) + ")\n", []) == Some(Words(words, "\n"))
  {
    ArrayRoundTrip(items);
    if AllText(items) && SafeItems(items) {
      TextsOfStrings(items);
      assert Whole(Texts(items), items);
    }
    forall words | Whole(words, items) ensures words == Texts(items) {
      WholeIsTexts(words, items);
    }
  }

  /** In particular a list of one string. */
  lemma ArrayElementRoundTrip(s: string)
    ensures SafeInDouble(s) <==> ReadWords(Quoted(s) + ")\n", []) == Some(Words([s], "\n"))
  {
    ArrayRoundTrip([Text(s)]);
    assert RenderItems([Text(s)]) == Quoted(s);
    assert [Text(s)][0].text == s && (SafeItems([Text(s)]) <==> SafeInDouble(s));
    assert Texts([Text(s)]) == [s];
    assert Texts([Text(s)]) == [s] + Texts([Text(s)][1..]);
  }

  // ---------------------------------------------------------------------------
  // What the shell takes for a line
  // ---------------------------------------------------------------------------

  /** `rest` is left of `s`, and `end` came right before it. */
  ghost predicate LeftAfter(s: string, end: char, rest: string) {
    |rest| < |s| && s[|s| - |rest|..] == rest && s[|s| - |rest| - 1] == end
  }

  lemma {:induction false} EndIsSuffix(s: string, t: string)
    requires EndsIn(s, t)
    ensures |t| <= |s| && s[|s| - |t|..] == t
    decreases |s|
  {
    if s != t {
      EndIsSuffix(s[1..], t);
    }
  }

  lemma {:induction false} WordsRest(s: string, items: seq<string>)
    requires ReadWords(s, items).Some?
    ensures EndsIn(s, [')'] + ReadWords(s, items).value.rest)
    decreases |s|
  {
    if Blank(s[0]) {
      WordsRest(s[1..], items);
    } else if s[0] == ')' {
      assert s == [')'] + s[1..];
    } else {
      LexConsumes(s, Plain, "");
      LexRest(s, Plain, "");
      var w := Lex(s, Plain, "").value;
      WordsRest(w.rest, items + [w.word]);
      EndOfEnd(s, w.rest, [')'] + ReadWords(s, items).value.rest);
    }
  }

  lemma LaterEnd(head: string, s: string, c: char, rest: string)
    requires EndsIn(s, [c] + rest)
    ensures LeftAfter(head + s, c, rest)
  {
    var end := [c] + rest;
    EndIsSuffix(s, end);
    assert s == s[..|s| - |end|] + end;
    assert head + s == (head + s[..|s| - |end|] + [c]) + rest;
  }

  lemma ExportParts(s: string) returns (t: string)
    requires Export <= s && ReadLine(s).Some?
    ensures var a := ReadLine(s).value;
      && a.value.Scalar? && s == "export " + a.name + "=" + t && Lex(t, Plain, "").Some?
      && Lex(t, Plain, "").value.rest == ['\n'] + a.rest
  {
    var u := s[|Export|..];
    var n := NameLength(u);
    t := u[n + 1..];
    var rest := Lex(t, Plain, "").value.rest;
    assert rest == ['\n'] + rest[1..];
    assert s == "export " + u && u == u[..n] + "=" + t;
  }

  lemma ExportHasShape(s: string)
    requires Export <= s && ReadLine(s).Some?
    ensures var a := ReadLine(s).value;
      a.value.Scalar? && "export " + a.name + "=" <= s && LeftAfter(s, '\n', a.rest)
  {
    var t := ExportParts(s);
    LexRest(t, Plain, "");
    LaterEnd("export " + ReadLine(s).value.name + "=", t, '\n', ReadLine(s).value.rest);
  }

  lemma ArrayParts(s: string) returns (t: string)
    requires !(Export <= s) && ReadLine(s).Some?
    ensures var a := ReadLine(s).value;
      && a.value.Array? && s == a.name + "=(" + t && ReadWords(t, []).Some?
      && ReadWords(t, []).value.rest == ['\n'] + a.rest
  {
    var n := NameLength(s);
    t := s[n + 2..];
    var rest := ReadWords(t, []).value.rest;
    assert rest == ['\n'] + rest[1..];
    assert s == s[..n] + "=(" + t;
  }

  lemma ArrayHasShape(s: string)
    requires !(Export <= s) && ReadLine(s).Some?
    ensures var a := ReadLine(s).value;
      a.value.Array? && a.name + "=(" <= s && LeftAfter(s, '\n', a.rest) && LeftAfter(s, ')', ['\n'] + a.rest)
  {
    var t := ArrayParts(s);
    WordsRest(t, []);
    ArrayEnds(ReadLine(s).value.name + "=(", t, ReadLine(s).value.rest);
  }

  lemma ArrayEnds(head: string, t: string, rest: string)
    requires EndsIn(t, [')'] + (['\n'] + rest))
    ensures LeftAfter(head + t, '\n', rest) && LeftAfter(head + t, ')', ['\n'] + rest)
  {
    var last := ['\n'] + rest;
    LaterEnd(head, t, ')', last);
    ConcatEndsIn([')'], last);
    EndOfEnd(t, [')'] + last, last);
    LaterEnd(head, t, '\n', rest);
  }

  /** A line that the shell reads is an export or an array assignment of a valid name, up to a newline. */
  lemma LinesHaveShape(s: string)
    requires ReadLine(s).Some?
    ensures var a := ReadLine(s).value;
      && ValidName(a.name) && LeftAfter(s, '\n', a.rest)
      && (if a.value.Scalar? then "export " + a.name + "=" <= s
          else a.name + "=(" <= s && LeftAfter(s, ')', ['\n'] + a.rest))
  {
    if Export <= s {
      ExportHasShape(s);
    } else {
      ArrayHasShape(s);
    }
  }

  // ---------------------------------------------------------------------------
  // The script
  // ---------------------------------------------------------------------------

  /** A value of the manifest's environment; `Unknown` is any type SendEnv does not know. */
  datatype EnvValue =
    | Nil
    | Flag(flag: bool)
    | Str(text: string)
    | Number(number: int)
    | List(items: seq<Item>)
    | Unknown

  /** What the value is to the shell; of a list only the strings are written. */
  function Meaning(v: EnvValue): Value {
    match v
    case Nil => Scalar("")
    case Flag(flag) => Scalar(if flag then "true" else "false")
    case Str(text) => Scalar(text)
    case Number(n) => Scalar(Decimal(n))
    case List(items) => Array(Texts(items))
    case Unknown => Scalar("")
  }

  predicate Faithful(v: EnvValue) {
    !v.Unknown? && (v.List? ==> SafeItems(v.items))
  }

  /** The text of a scalar's word. */
  function ScalarText(v: EnvValue): string
    requires !v.List?
  {
    match v
    case Nil => "\"\""
    case Flag(flag) => if flag then "true" else "false"
    case Str(text) => Shquote(text)
    case Number(n) => Decimal(n)
    case Unknown => ""
  }

  function ExportLine(key: string, text: string): string {
    Export + key + "=" + text + "\n"
  }

  function RenderLine(key: string, v: EnvValue): string {
    if v.List? then key + "=(" + RenderItems(v.items) + ")\n"
    else if v.Unknown? then ""
    else ExportLine(key, ScalarText(v))
  }

  lemma ScalarTextRoundTrip(v: EnvValue, rest: string)
    requires !v.List? && !v.Unknown? && Ends(rest)
    ensures Lex(ScalarText(v) + rest, Plain, "") == Some(Lexed(Meaning(v).text, rest))
  {
    match v
    case Nil =>
      var s := "\"\"" + rest;
      assert s[1..] == "\"" + rest && s[1..][1..] == rest;
      PlainStop(rest, "");
    case Flag(flag) =>
      var word := if flag then "true" else "false";
      LexOrdinary(word, rest, "");
      assert "" + word == word;
    case Str(text) => ShquoteRoundTrip(text, rest);
    case Number(n) =>
      DecimalRoundTrip(n);
      LexOrdinary(Decimal(n), rest, "");
      assert "" + Decimal(n) == Decimal(n);
  }

  lemma {:induction false} NameLengthOf(key: string, rest: string)
    requires (forall c | c in key :: WordChar(c)) && rest != "" && !WordChar(rest[0])
    ensures NameLength(key + rest) == |key|
  {
    if key == "" {
      assert key + rest == rest;
    } else {
      assert key[0] in key;
      NameLengthOf(key[1..], rest);
      assert (key + rest)[1..] == key[1..] + rest;
    }
  }

  /** The shell reads an exported word, given its name and the word. */
  lemma ReadExport(name: string, text: string, word: string, rest: string)
    requires ValidName(name)
    requires Lex(text + ("\n" + rest), Plain, "") == Some(Lexed(word, "\n" + rest))
    ensures ReadLine(Export + (name + ("=" + (text + ("\n" + rest))))) == Some(Assignment(name, Scalar(word), rest))
  {
    var after := text + ("\n" + rest);
    var t := name + ("=" + after);
    NameLengthOf(name, "=" + after);
    assert (Export + t)[|Export|..] == t;
    assert t[..|name|] == name && t[|name| + 1..] == after;
    assert ("\n" + rest)[1..] == rest;
  }

  lemma ExportShape(key: string, text: string, rest: string)
    ensures ExportLine(key, text) + rest == Export + (key + ("=" + (text + ("\n" + rest))))
  {
  }

  lemma ScalarLine(key: string, v: EnvValue, rest: string)
    requires ValidName(key) && !v.List? && !v.Unknown?
    ensures ReadLine(RenderLine(key, v) + rest) == Some(Assignment(key, Meaning(v), rest))
  {
    ExportShape(key, ScalarText(v), rest);
    ScalarTextRoundTrip(v, "\n" + rest);
    ReadExport(key, ScalarText(v), Meaning(v).text, rest);
  }

  lemma ReadArray(name: string, text: string, words: seq<string>, rest: string)
    requires ValidName(name)
    requires ReadsAs(text, [], words, "\n" + rest)
    ensures ReadLine(name + ("=(" + text)) == Some(Assignment(name, Array(words), rest))
  {
    var s := name + ("=(" + text);
    NotAnExport(name, "=(" + text);
    NameLengthOf(name, "=(" + text);
    assert s[..|name|] == name && s[|name| + 2..] == text;
    assert ("\n" + rest)[1..] == rest;
  }

  lemma ArrayShape(key: string, items: seq<Item>, rest: string)
    ensures RenderLine(key, List(items)) + rest == key + ("=(" + (RenderItems(items) + (")" + ("\n" + rest))))
  {
    assert ")\n" == ")" + "\n";
  }

  lemma ArrayLine(key: string, items: seq<Item>, rest: string)
    requires ValidName(key) && SafeItems(items)
    ensures ReadLine(RenderLine(key, List(items)) + rest) == Some(Assignment(key, Array(Texts(items)), rest))
  {
    ArrayShape(key, items, rest);
    ReadRenderedItems(items, "\n" + rest, []);
    assert [] + Texts(items) == Texts(items);
    ReadArray(key, RenderItems(items) + (")" + ("\n" + rest)), Texts(items), rest);
  }

  /** An array line does not start with "export ": a space is no name character. */
  lemma NotAnExport(key: string, t: string)
    requires (forall c | c in key :: WordChar(c)) && |t| > 1 && t[0] == '=' && t[1] == '('
    ensures !(Export <= key + t)
  {
    var s := key + t;
    var i := if |key| > 6 then 6 else |key|;
    assert i < |key| ==> key[i] in key;
    assert i < |s| && s[i] != Export[i];
  }

  /** Every line of a faithful value assigns exactly that value, whatever follows it. */
  lemma LineRoundTrip(key: string, v: EnvValue, rest: string)
    requires ValidName(key) && Faithful(v)
    ensures ReadLine(RenderLine(key, v) + rest) == Some(Assignment(key, Meaning(v), rest))
  {
    if v.List? {
      ArrayLine(key, v.items, rest);
    } else {
      ScalarLine(key, v, rest);
    }
  }

  type Env = map<string, EnvValue>

  /** The lines of the variables in `order`. */
  function Script(order: seq<string>, env: Env): string
    requires forall k | k in order :: k in env
  {
    if order == [] then ""
    else
      var n := |order| - 1;
      Script(order[..n], env) + RenderLine(order[n], env[order[n]])
  }

  predicate Wanted(env: Env) {
    forall k | k in env :: ValidName(k) && Faithful(env[k])
  }

  function Meanings(order: seq<string>, env: Env): map<string, Value>
    requires forall k | k in order :: k in env
  {
    map k | k in order :: Meaning(env[k])
  }

  lemma EvalLine(key: string, v: EnvValue, rest: string, vars: map<string, Value>)
    requires ValidName(key) && Faithful(v)
    ensures Eval(RenderLine(key, v) + rest, vars) == Eval(rest, vars[key := Meaning(v)])
  {
    LineRoundTrip(key, v, rest);
    assert |RenderLine(key, v)| > 0;
  }

  lemma MeaningsSnoc(order: seq<string>, env: Env, vars: map<string, Value>)
    requires order != [] && forall k | k in order :: k in env
    ensures var n := |order| - 1;
      && (forall k | k in order[..n] :: k in env)
      && (vars + Meanings(order[..n], env))[order[n] := Meaning(env[order[n]])] == vars + Meanings(order, env)
  {
  }

  lemma {:induction false} EvalScript(order: seq<string>, env: Env, rest: string, vars: map<string, Value>)
    requires (forall k | k in order :: k in env) && Wanted(env)
    ensures Eval(Script(order, env) + rest, vars) == Eval(rest, vars + Meanings(order, env))
  {
    if order == [] {
      assert vars + Meanings(order, env) == vars && "" + rest == rest;
    } else {
      var n := |order| - 1;
      var line := RenderLine(order[n], env[order[n]]);
      MeaningsSnoc(order, env, vars);
      EvalScript(order[..n], env, line + rest, vars);
      EvalLine(order[n], env[order[n]], rest, vars + Meanings(order[..n], env));
      Regroup(Script(order[..n], env), line, rest);
    }
  }

  lemma Regroup(a: string, b: string, c: string)
    ensures a + b + c == a + (b + c)
  {
  }

  lemma ScriptAppend(order: seq<string>, key: string, env: Env)
    requires (forall k | k in order :: k in env) && key in env
    ensures Script(order + [key], env) == Script(order, env) + RenderLine(key, env[key])
  {
  }

  /** What sourcing the written file leaves in the shell: the header only defines a function. */
  function Sourced(file: string): Option<map<string, Value>> {
    if Header <= file then Eval(file[|Header|..], map[]) else None
  }

  const Header := "#!/bin/sh\ncomplete-build() {\n\techo 1 > ~/.complete-build\n\texit 0\n}\n"

  /** The manifest's environment with the build's own variables, which win. */
  function FullEnv(env: Env, jobId: int, jobUrl: string, token: Option<string>): Env {
    var e := env["CI_NAME" := Str("sourcehut")]["JOB_ID" := Number(jobId)]["JOB_URL" := Str(jobUrl)];
    if token.Some? then e["OAUTH2_TOKEN" := Str(token.value)] else e
  }

  function Expected(env: Env): map<string, Value> {
    map k | k in env :: Meaning(env[k])
  }

  /** What a variable of the script must be in the shell. */
  ghost predicate IsValueOf(value: Value, v: EnvValue) {
    match v
    case Nil => value == Scalar("")
    case Flag(flag) => value == if flag then Scalar("true") else Scalar("false")
    case Str(text) => value == Scalar(text)
    case Number(n) => value.Scalar? && value.text == Decimal(n) && ParseDecimal(value.text) == n
    case List(items) =>
      && value.Array? && |value.items| <= |items|
      && (AllText(items) ==> Whole(value.items, items))
      && forall text | text in value.items :: Text(text) in items
    case Unknown => true
  }

  lemma {:induction false} TextsAreItems(items: seq<Item>)
    ensures |Texts(items)| <= |items| && forall text | text in Texts(items) :: Text(text) in items
  {
    if items != [] {
      TextsAreItems(items[1..]);
      TextsCons(items);
      assert items == [items[0]] + items[1..];
      assert Texts([items[0]]) == if items[0].Text? then [items[0].text] else [];
    }
  }

  lemma MeaningIsValue(v: EnvValue)
    ensures IsValueOf(Meaning(v), v)
  {
    match v
    case Number(n) => DecimalRoundTrip(n);
    case List(items) =>
      TextsAreItems(items);
      if AllText(items) {
        TextsOfStrings(items);
      }
    case _ =>
  }

  lemma OwnNamesDiffer()
    ensures Distinct(["CI_NAME", "JOB_ID", "JOB_URL", "OAUTH2_TOKEN"])
  {
    assert "CI_NAME"[0] == 'C' && "JOB_ID"[0] == "JOB_URL"[0] == 'J' && "OAUTH2_TOKEN"[0] == 'O';
    assert "JOB_ID"[4] != "JOB_URL"[4];
  }

  /** The build's own variables win over the manifest's; every other variable keeps its value. */
  lemma OwnVariablesWin(env: Env, jobId: int, jobUrl: string, token: Option<string>)
    ensures var vars := Expected(FullEnv(env, jobId, jobUrl, token));
      && "CI_NAME" in vars && vars["CI_NAME"] == Scalar("sourcehut")
      && "JOB_ID" in vars && vars["JOB_ID"] == Scalar(Decimal(jobId))
      && "JOB_URL" in vars && vars["JOB_URL"] == Scalar(jobUrl)
      && (token.Some? ==> "OAUTH2_TOKEN" in vars && vars["OAUTH2_TOKEN"] == Scalar(token.value))
      && forall k | k !in ["CI_NAME", "JOB_ID", "JOB_URL"] && !(token.Some? && k == "OAUTH2_TOKEN") ::
           (k in vars <==> k in env) && (k in env ==> IsValueOf(vars[k], env[k]))
  {
    OwnNamesDiffer();
    var names := ["CI_NAME", "JOB_ID", "JOB_URL", "OAUTH2_TOKEN"];
    assert names[0] != names[1] && names[0] != names[2] && names[1] != names[2];
    assert names[0] != names[3] && names[1] != names[3] && names[2] != names[3];
    forall v: EnvValue ensures IsValueOf(Meaning(v), v) {
      MeaningIsValue(v);
    }
  }

  /** The order in which the lines were written covers the environment. */
  ghost predicate Covers(order: seq<string>, env: Env) {
    forall k :: k in order <==> k in env
  }

  /** Appends one line per variable to `header`, in whatever order the map yields them. */
  method AppendLines(header: string, environment: Env) returns (file: Result<string, string>, ghost order: seq<string>)
    ensures file.Ok? <==> forall k | k in environment :: !environment[k].Unknown?
    ensures file.Ok? ==> Covers(order, environment) && file.value == header + Script(order, environment)
  {
    var env := header;
    var todo := environment.Keys;
    order := [];
    while todo != {}
      invariant todo <= environment.Keys
      invariant forall k :: k in order <==> k in environment && k !in todo
      invariant forall k | k in order :: !environment[k].Unknown?
      invariant env == header + Script(order, environment)
      decreases |todo|
    {
      var key :| key in todo;
      todo := todo - {key};
      if environment[key].Unknown? {
        return Err(key), order;
      }
      ScriptAppend(order, key, environment);
      Regroup(header, Script(order, environment), RenderLine(key, environment[key]));
      env := env + RenderLine(key, environment[key]);
      order := order + [key];
    }
    return Ok(env), order;
  }

  lemma SourcedScript(file: string, header: string, order: seq<string>, env: Env)
    requires Covers(order, env) && Wanted(env) && file == header + Script(order, env)
    ensures header <= file && Eval(file[|header|..], map[]) == Some(Expected(env))
  {
    var script := Script(order, env);
    assert file[|header|..] == script && script + "" == script;
    EvalScript(order, env, "", map[]);
    assert map[] + Meanings(order, env) == Expected(env);
  }

  function JobUrl(origin: string, username: string, jobId: int): string {
    origin + "/~" + username + "/job/" + Decimal(jobId)
  }

  /**
    Sends the manifest's environment with the build's own variables.  With valid names and protected
    array elements the shell gets exactly that environment; a value of an unknown type panics.
  */
  method SendEnv(manifest: Option<Env>, jobId: int, origin: string, username: string, token: Option<string>)
    returns (file: Result<string, string>)
    ensures
      var url := origin + "/~" + username + "/job/" + Decimal(jobId);
      var env := FullEnv(manifest.GetOr(map[]), jobId, url, token);
      && (file.Ok? <==> forall k | k in env :: !env[k].Unknown?)
      && (file.Ok? && Wanted(env) ==> Sourced(file.value) == Some(Expected(env)))
    ensures file.Ok? ==>
      var url := origin + "/~" + username + "/job/" + Decimal(jobId);
      var env := FullEnv(manifest.GetOr(map[]), jobId, url, token);
      exists order :: Covers(order, env) && file.value ==
        "#!/bin/sh\ncomplete-build() {\n\techo 1 > ~/.complete-build\n\texit 0\n}\n" + Script(order, env)
  {
    var environment := FullEnv(manifest.GetOr(map[]), jobId, JobUrl(origin, username, jobId), token);
    ghost var order;
    file, order := AppendLines(Header, environment);
    if file.Ok? && Wanted(environment) {
      SourcedScript(file.value, Header, order, environment);
    }
  }
}
