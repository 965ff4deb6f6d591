/** Quoting a value for a POSIX shell, read back by the shell's own rules: sections 2.2.1 (escape
    character), 2.2.2 (single-quotes) and 2.3 (token recognition) of the POSIX.1-2017 Shell Command Language. */
module ShellQuote {
  import opened Wrappers

  /** `value.replace('\'', "'\\''")` */
  function Quote(value: string): string {
    if value == "" then "" else (if value[0] == '\'' then "'\\''" else [value[0]]) + Quote(value[1..])
  }

  /** `quote_command_path`, and what `prepare` writes around a quoted value. */
  function Quoted(value: string): string {
    "'" + Quote(value) + "'"
  }

  // ---- The reader ----

  predicate Blank(c: char) {
    c == ' ' || c == '\t'
  }

  /** Ends a word when not quoted: a blank, a newline or an operator character. */
  predicate Delimiter(c: char) {
    Blank(c) || c == '\n' || c == '|' || c == '&' || c == ';' || c == '<' || c == '>' || c == '(' || c == ')'
  }

  /** Unquoted, these start something other than themselves; the reader refuses them. */
  predicate Special(c: char) {
    c == '$' || c == '`' || c == '"' || c == '*' || c == '?' || c == '[' || c == '#' || c == '~'
  }

  predicate Plain(c: char) {
    !Delimiter(c) && !Special(c) && c != '\'' && c != '\\'
  }

  /** Reads on from inside a word of which `word` is read: the whole word and the text after it. A backslash
      outside quotes takes the next character literally, except that before a newline both vanish; between
      single quotes every character is itself. */
  function ReadWord(text: string, quoted: bool, word: string): (r: Option<(string, string)>)
    ensures r.Some? ==> |r.value.1| <= |text|
    ensures r.Some? && text != "" && !quoted && !Delimiter(text[0]) ==> |r.value.1| < |text|
    decreases |text|
  {
    if quoted then
      if text == "" then None
      else if text[0] == '\'' then ReadWord(text[1..], false, word)
      else ReadWord(text[1..], true, word + [text[0]])
    else if text == "" || Delimiter(text[0]) then Some((word, text))
    else if text[0] == '\'' then ReadWord(text[1..], true, word)
    else if text[0] == '\\' then
      if |text| == 1 then None
      else if text[1] == '\n' then ReadWord(text[2..], false, word)
      else ReadWord(text[2..], false, word + [text[1]])
    else if Special(text[0]) then None
    else ReadWord(text[1..], false, word + [text[0]])
  }

  /** The words up to the next operator or newline. */
  function ReadWords(text: string): Option<(seq<string>, string)>
    decreases |text|
  {
    if text == "" then Some(([], text))
    else if Blank(text[0]) then ReadWords(text[1..])
    else if Delimiter(text[0]) then Some(([], text))
    else
      var first := ReadWord(text, false, "");
      if first.None? then None
      else
        var rest := ReadWords(first.value.1);
        if rest.None? then None else Some(([first.value.0] + rest.value.0, rest.value.1))
  }

  // ---- Round trip ----

  predicate EndsWord(rest: string) {
    rest == "" || Delimiter(rest[0])
  }

  /** The four characters a quote becomes close the quotes, add a quote, and open them again. */
  lemma EscapedQuoteReads(tail: string, word: string)
    ensures ReadWord("'\\''" + tail, true, word) == ReadWord(tail, true, word + "'")
  {
    var text := "'\\''" + tail;
    assert text[1..] == "\\''" + tail;
    assert text[1..][2..] == "'" + tail;
    assert text[1..][2..][1..] == tail;
    assert ReadWord(text, true, word) == ReadWord(text[1..], false, word);
    assert ReadWord(text[1..], false, word) == ReadWord(text[1..][2..], false, word + "'");
  }

  lemma {:induction false} QuotedBodyReads(value: string, rest: string, word: string)
    requires EndsWord(rest)
    ensures ReadWord(Quote(value) + "'" + rest, true, word) == Some((word + value, rest))
    decreases |value|
  {
    if value == "" {
      assert Quote(value) + "'" + rest == "'" + rest;
      assert ("'" + rest)[1..] == rest;
      assert word + value == word;
    } else {
      var tail := Quote(value[1..]) + "'" + rest;
      QuotedBodyReads(value[1..], rest, word + [value[0]]);
      assert word + [value[0]] + value[1..] == word + value;
      if value[0] == '\'' {
        EscapedQuoteReads(tail, word);
        assert Quote(value) + "'" + rest == "'\\''" + tail;
      } else {
        assert Quote(value) + "'" + rest == [value[0]] + tail;
        assert ([value[0]] + tail)[1..] == tail;
      }
    }
  }

  /** Whatever the value, the shell reads it back as it was, as one word that ends where the quoting ends. */
  lemma QuotedReadsBack(value: string, rest: string)
    requires EndsWord(rest)
    ensures ReadWord(Quoted(value) + rest, false, "") == Some((value, rest))
  {
    var text := Quoted(value) + rest;
    assert text[0] == '\'' && text[1..] == Quote(value) + "'" + rest;
    assert "" + value == value;
    hide Quote, Quoted;
    QuotedBodyReads(value, rest, "");
    assert ReadWord(text, false, "") == ReadWord(text[1..], true, "");
  }

  /** Two values are never quoted alike. */
  lemma QuoteIsInjective(a: string, b: string)
    requires Quoted(a) == Quoted(b)
    ensures a == b
  {
    QuotedReadsBack(a, "");
    QuotedReadsBack(b, "");
  }

  lemma {:induction false} PlainReads(plain: string, rest: string, word: string)
    requires EndsWord(rest) && forall c :: c in plain ==> Plain(c)
    ensures ReadWord(plain + rest, false, word) == Some((word + plain, rest))
    decreases |plain|
  {
    if plain == "" {
      assert plain + rest == rest && word + plain == word;
    } else {
      assert plain[0] in plain;
      assert (plain + rest)[1..] == plain[1..] + rest;
      PlainReads(plain[1..], rest, word + [plain[0]]);
      assert word + [plain[0]] + plain[1..] == word + plain;
    }
  }

  // ---- Lines of words ----

  /** How a word is written: as it is, or quoted. */
  datatype Written = Bare(text: string) | InQuotes(text: string)

  predicate Writable(w: Written) {
    w.Bare? ==> w.text != "" && forall c :: c in w.text ==> Plain(c)
  }

  function Text(w: Written): string {
    if w.Bare? then w.text else Quoted(w.text)
  }

  /** Words with a blank before each. */
  function Line(ws: seq<Written>): string {
    if ws == [] then "" else " " + Text(ws[0]) + Line(ws[1..])
  }

  function Values(ws: seq<Written>): seq<string> {
    if ws == [] then [] else [ws[0].text] + Values(ws[1..])
  }

  lemma WordThenWords(text: string, word: string, after: string, words: seq<string>, end: string)
    requires text != "" && !Delimiter(text[0])
    requires ReadWord(text, false, "") == Some((word, after)) && ReadWords(after) == Some((words, end))
    ensures ReadWords(" " + text) == Some(([word] + words, end))
  {
    assert (" " + text)[1..] == text;
  }

  lemma WrittenReads(w: Written, after: string)
    requires Writable(w) && EndsWord(after)
    ensures Text(w) != "" && !Delimiter(Text(w)[0])
    ensures ReadWord(Text(w) + after, false, "") == Some((w.text, after))
  {
    if w.Bare? {
      assert w.text[0] in w.text;
      PlainReads(w.text, after, "");
      assert "" + w.text == w.text;
    } else {
      QuotedReadsBack(w.text, after);
    }
  }

  /** A line of words is read as their values. */
  lemma {:induction false} LineReads(ws: seq<Written>, rest: string, end: string)
    requires forall k :: 0 <= k < |ws| ==> Writable(ws[k])
    requires EndsWord(rest) && ReadWords(rest) == Some(([], end))
    ensures ReadWords(Line(ws) + rest) == Some((Values(ws), end))
    decreases |ws|
  {
    hide ReadWord, ReadWords, Writable, Text, Delimiter, EndsWord, Line;
    LineSplit(ws, rest);
    if ws != [] {
      var after := Line(ws[1..]) + rest;
      LineEndsWord(ws[1..], rest);
      LineReads(ws[1..], rest, end);
      WrittenReads(ws[0], after);
      TextNotEmpty(ws[0], after);
      WordThenWords(Text(ws[0]) + after, ws[0].text, after, Values(ws[1..]), end);
    }
  }

  lemma TextNotEmpty(w: Written, after: string)
    requires Text(w) != ""
    ensures Text(w) + after != "" && (Text(w) + after)[0] == Text(w)[0]
  {
  }

  lemma LineSplit(ws: seq<Written>, rest: string)
    ensures Line(ws) + rest == if ws == [] then rest else " " + (Text(ws[0]) + (Line(ws[1..]) + rest))
  {
    hide Text;
    if ws != [] {
      Associates(" ", Text(ws[0]), Line(ws[1..]), rest);
    }
  }

  lemma Associates(a: string, b: string, c: string, d: string)
    ensures a + b + c + d == a + (b + (c + d))
  {
  }

  lemma LineEndsWord(ws: seq<Written>, rest: string)
    requires EndsWord(rest)
    ensures EndsWord(Line(ws) + rest)
  {
    if ws == [] {
      assert Line(ws) + rest == rest;
    }
  }

  lemma LineOfThree(a: Written, b: Written, c: Written)
    ensures Line([a, b, c]) == " " + Text(a) + (" " + Text(b) + (" " + Text(c)))
    ensures Values([a, b, c]) == [a.text, b.text, c.text]
  {
    hide Text;
    assert [a, b, c][1..] == [b, c] && [b, c][1..] == [c] && [c][1..] == [];
    assert Line([c]) == " " + Text(c);
    assert Values([c]) == [c.text] && Values([b, c]) == [b.text, c.text];
  }

  /** The body of a clause of the askpass script, lines 294 to 299. */
  function AskpassCommand(value: string): string {
    " printf" + " '%s\\n'" + " '" + Quote(value) + "'" + " ;;\n"
  }

  lemma Regroup(a: string, b: string, c: string, q: string, d: string, e: string)
    ensures a + b + c + q + d + e == a + (b + (c + q + d)) + e
  {
  }

  lemma QuotedFormat()
    ensures " " + Quoted("%s\\n") == " '%s\\n'"
  {
    NothingToQuote("%s\\n");
    hide Quote;
  }

  lemma QuotedAfterBlank(value: string)
    ensures " " + Quoted(value) == " '" + Quote(value) + "'"
  {
    hide Quote;
  }

  lemma PrintfAfterBlank()
    ensures " " + "printf" == " printf"
  {
  }

  lemma AskpassLine(value: string)
    ensures AskpassCommand(value) == Line([Bare("printf"), InQuotes("%s\\n"), InQuotes(value)]) + " ;;\n"
  {
    LineOfThree(Bare("printf"), InQuotes("%s\\n"), InQuotes(value));
    QuotedFormat();
    QuotedAfterBlank(value);
    PrintfAfterBlank();
    hide Quote, Line, Quoted;
    Regroup(" printf", " '%s\\n'", " '", Quote(value), "'", " ;;\n");
  }

  /** The shell runs printf with the format and the very value, whatever is in it, and then ends the clause. */
  lemma AskpassPrintsTheValue(value: string)
    ensures ReadWords(AskpassCommand(value)) == Some((["printf", "%s\\n", value], ";;\n"))
  {
    var ws := [Bare("printf"), InQuotes("%s\\n"), InQuotes(value)];
    AskpassLine(value);
    ClauseEnd();
    PlainPrintf();
    LineOfThree(ws[0], ws[1], ws[2]);
    hide ReadWords, ReadWord, Quote, Line, AskpassCommand, Writable, Values, Delimiter;
    assert EndsWord(" ;;\n") by { BlankEnds(); }
    forall k | 0 <= k < |ws| ensures Writable(ws[k]) {
      QuotedIsWritable(ws[k]);
    }
    LineReads(ws, " ;;\n", ";;\n");
  }

  lemma QuotedIsWritable(w: Written)
    ensures w.InQuotes? ==> Writable(w)
  {
  }

  lemma BlankEnds()
    ensures Delimiter(' ')
  {
  }

  lemma PlainPrintf()
    ensures Writable(Bare("printf"))
  {
  }

  lemma ClauseEnd()
    ensures ReadWords(" ;;\n") == Some(([], ";;\n"))
  {
    assert " ;;\n"[1..] == ";;\n";
  }

  lemma {:induction false} NothingToQuote(value: string)
    requires '\'' !in value
    ensures Quote(value) == value
  {
    if value != "" {
      assert value[0] in value;
      NothingToQuote(value[1..]);
    }
  }
  // ---- Which value answers which prompt ----

  /** Pattern matching of `case` for patterns of plain characters and asterisks. */
  predicate Glob(pattern: string, text: string)
    decreases |pattern| + |text|
  {
    if pattern == "" then text == ""
    else if pattern[0] == '*' then Glob(pattern[1..], text) || (text != "" && Glob(pattern, text[1..]))
    else text != "" && text[0] == pattern[0] && Glob(pattern[1..], text[1..])
  }

  /** A clause of `case`: its pattern, and what follows the parenthesis up to the end of the line. */
  datatype Clause = Clause(pattern: string, body: string)

  /** Lines 294 to 299 of the script. */
  function AskpassClauses(username: string, token: string): seq<Clause> {
    [Clause("*Username*", AskpassCommand(username)), Clause("*", AskpassCommand(token))]
  }

  /** The words of the first clause that matches. */
  function Answer(clauses: seq<Clause>, prompt: string): Option<seq<string>> {
    if clauses == [] then None
    else if Glob(clauses[0].pattern, prompt) then
      var words := ReadWords(clauses[0].body);
      if words.None? then None else Some(words.value.0)
    else Answer(clauses[1..], prompt)
  }

  lemma {:induction false} StarMatchesAll(text: string)
    ensures Glob("*", text)
    decreases |text|
  {
    assert "*"[1..] == "";
    if text != "" {
      StarMatchesAll(text[1..]);
    }
  }

  /** Plain characters and then an asterisk: the text begins with them. */
  lemma {:induction false} PrefixPattern(word: string, text: string)
    requires '*' !in word
    ensures Glob(word + "*", text) <==> word <= text
    decreases |word|
  {
    if word == "" {
      assert word + "*" == "*";
      StarMatchesAll(text);
    } else {
      assert word[0] in word && (word + "*")[0] == word[0] && (word + "*")[1..] == word[1..] + "*";
      if text != "" && text[0] == word[0] {
        PrefixPattern(word[1..], text[1..]);
        assert word == [word[0]] + word[1..] && text == [text[0]] + text[1..];
      }
    }
  }

  predicate Contains(text: string, word: string) {
    exists i :: 0 <= i <= |text| && word <= text[i..]
  }

  /** With an asterisk before them as well: the text contains them. */
  lemma {:induction false} InfixPattern(word: string, text: string)
    requires '*' !in word
    ensures Glob("*" + word + "*", text) <==> Contains(text, word)
    decreases |text|
  {
    var pattern := "*" + word + "*";
    assert pattern[1..] == word + "*";
    PrefixPattern(word, text);
    if text == "" {
      assert text[0..] == text;
    } else {
      InfixPattern(word, text[1..]);
      assert text[0..] == text;
      if i :| 0 <= i <= |text| && word <= text[i..] {
        if i > 0 {
          assert text[1..][i - 1..] == text[i..];
        }
      }
      if i :| 0 <= i <= |text[1..]| && word <= text[1..][i..] {
        assert text[i + 1..] == text[1..][i..];
      }
    }
  }

  /** A prompt for the user name is answered with the user name, any other with the token, and with nothing else,
      whatever the two contain. */
  lemma AskpassAnswers(username: string, token: string, prompt: string)
    ensures Answer(AskpassClauses(username, token), prompt)
         == Some(["printf", "%s\\n", if Contains(prompt, "Username") then username else token])
  {
    var clauses := AskpassClauses(username, token);
    assert clauses[1..] == [Clause("*", AskpassCommand(token))];
    assert "*" + "Username" + "*" == "*Username*";
    InfixPattern("Username", prompt);
    StarMatchesAll(prompt);
    AskpassPrintsTheValue(username);
    AskpassPrintsTheValue(token);
    hide ReadWords, AskpassCommand, Glob, Contains;
  }
}
