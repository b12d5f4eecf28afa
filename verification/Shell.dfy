/**
  The part of the shell's input language that the build environment script uses: quoting as in
  sections 2.2.2, 2.2.3 and 2.3 of the POSIX.1-2017 Shell Command Language, `export NAME=word`, and
  bash's `NAME=( word ... )`.  Anything else, an expansion in particular, is not evaluated: the
  result is None.
*/
module Shell {
  import opened Prelude

  // ---------------------------------------------------------------------------
  // Words
  // ---------------------------------------------------------------------------

  datatype Mode = Plain | InSingle | InDouble

  /** A word's value and the text after it. */
  datatype Lexed = Lexed(word: string, rest: string)

  predicate WordChar(c: char) {
    'a' <= c <= 'z' || 'A' <= c <= 'Z' || '0' <= c <= '9' || c == '_'
  }

  /** Characters that stand for themselves outside quotes. */
  predicate Ordinary(c: char) {
    WordChar(c) || c in "@%+=:,./-"
  }

  /** Letters, digits and underscores, and nine more, by ASCII codes; none of them means anything to the shell. */
  lemma OrdinaryCharacters(c: char)
    ensures WordChar(c) <==>
      97 <= c as int <= 122 || 65 <= c as int <= 90 || 48 <= c as int <= 57 || c as int == 95
    ensures Ordinary(c) <==> WordChar(c) || c as int in {37, 43, 44, 45, 46, 47, 58, 61, 64}
    ensures Ordinary(c) ==> c !in "|&;<>()$`\\\"' \t\n*?[#~"
  {
  }

  predicate Blank(c: char) {
    c == ' ' || c == '\t' || c == '\n'
  }

  predicate EndsWord(c: char) {
    Blank(c) || c == ')'
  }

  /** Characters that a backslash quotes inside double quotes. */
  predicate Escapable(c: char) {
    c == '$' || c == '`' || c == '"' || c == '\\'
  }

  function Lex(s: string, mode: Mode, acc: string): Option<Lexed>
    decreases |s|
  {
    if s == "" then
      if mode.Plain? then Some(Lexed(acc, s)) else None
    else
      var c, t := s[0], s[1..];
      match mode
      case Plain =>
        if c == '\'' then Lex(t, InSingle, acc)
        else if c == '"' then Lex(t, InDouble, acc)
        else if EndsWord(c) then Some(Lexed(acc, s))
        else if Ordinary(c) then Lex(t, Plain, acc + [c])
        else None
      case InSingle =>
        if c == '\'' then Lex(t, Plain, acc) else Lex(t, InSingle, acc + [c])
      case InDouble =>
        if c == '"' then Lex(t, Plain, acc)
        else if c == '$' || c == '`' then None
        else if c != '\\' then Lex(t, InDouble, acc + [c])
        else if t == "" then None
        else if Escapable(t[0]) then Lex(t[1..], InDouble, acc + [t[0]])
        else if t[0] == '\n' then Lex(t[1..], InDouble, acc)
        else Lex(t, InDouble, acc + [c])
  }

  lemma {:induction false} LexConsumes(s: string, mode: Mode, acc: string)
    requires Lex(s, mode, acc).Some?
    ensures |Lex(s, mode, acc).value.rest| <= |s|
    ensures s != "" && (mode.Plain? ==> !EndsWord(s[0])) ==> |Lex(s, mode, acc).value.rest| < |s|
    decreases |s|
  {
    if s != "" {
      var c, t := s[0], s[1..];
      match mode
      case Plain =>
        if c == '\'' { LexConsumes(t, InSingle, acc); }
        else if c == '"' { LexConsumes(t, InDouble, acc); }
        else if !EndsWord(c) { LexConsumes(t, Plain, acc + [c]); }
      case InSingle =>
        if c == '\'' { LexConsumes(t, Plain, acc); } else { LexConsumes(t, InSingle, acc + [c]); }
      case InDouble =>
        if c == '"' { LexConsumes(t, Plain, acc); }
        else if c != '\\' { LexConsumes(t, InDouble, acc + [c]); }
        else if Escapable(t[0]) { LexConsumes(t[1..], InDouble, acc + [t[0]]); }
        else if t[0] == '\n' { LexConsumes(t[1..], InDouble, acc); }
        else { LexConsumes(t, InDouble, acc + [c]); }
    }
  }

  // ---------------------------------------------------------------------------
  // Assignments
  // ---------------------------------------------------------------------------

  datatype Value = Scalar(text: string) | Array(items: seq<string>)

  datatype Words = Words(items: seq<string>, rest: string)

  /** The words of an array, up to and including the closing parenthesis. */
  function ReadWords(s: string, items: seq<string>): Option<Words>
    decreases |s|
  {
    if s == "" then None
    else if Blank(s[0]) then ReadWords(s[1..], items)
    else if s[0] == ')' then Some(Words(items, s[1..]))
    else
      var w := Lex(s, Plain, "");
      if w.None? then None
      else
        LexConsumes(s, Plain, "");
        ReadWords(w.value.rest, items + [w.value.word])
  }

  predicate ValidName(name: string) {
    name != "" && !('0' <= name[0] <= '9') && forall c | c in name :: WordChar(c)
  }

  lemma NamesStartWithNoDigit(name: string)
    ensures ValidName(name) <==>
      && name != "" && !(48 <= name[0] as int <= 57)
      && forall i | 0 <= i < |name| :: WordChar(name[i])
  {
  }

  /** The number of name characters at the start of `s`. */
  function NameLength(s: string): (n: nat)
    ensures n <= |s|
    ensures forall i | 0 <= i < n :: WordChar(s[i])
    ensures n < |s| ==> !WordChar(s[n])
  {
    if s == "" || !WordChar(s[0]) then 0 else 1 + NameLength(s[1..])
  }

  datatype Assignment = Assignment(name: string, value: Value, rest: string)

  const Export := "export "

  /** One line of the script: an exported scalar or an array. */
  function ReadLine(s: string): Option<Assignment> {
    if Export <= s then
      var t := s[|Export|..];
      var n := NameLength(t);
      if ValidName(t[..n]) && n < |t| && t[n] == '=' then
        var w := Lex(t[n + 1..], Plain, "");
        if w.Some? && w.value.rest != "" && w.value.rest[0] == '\n'
        then Some(Assignment(t[..n], Scalar(w.value.word), w.value.rest[1..]))
        else None
      else None
    else
      var n := NameLength(s);
      if ValidName(s[..n]) && n + 1 < |s| && s[n] == '=' && s[n + 1] == '(' then
        var w := ReadWords(s[n + 2..], []);
        if w.Some? && w.value.rest != "" && w.value.rest[0] == '\n'
        then Some(Assignment(s[..n], Array(w.value.items), w.value.rest[1..]))
        else None
      else None
  }

  /** The variables after the script's lines. */
  function Eval(s: string, vars: map<string, Value>): Option<map<string, Value>>
    decreases |s|
  {
    if s == "" then Some(vars)
    else
      var a := ReadLine(s);
      if a.Some? && |a.value.rest| < |s|
      then Eval(a.value.rest, vars[a.value.name := a.value.value])
      else None
  }
}
