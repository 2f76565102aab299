/** How the local POSIX shell (`subprocess.Popen(..., shell=True)`) splits a
    command line into the arguments of one simple command: blanks (space and
    tab) separate words, single quotes make everything up to the next single
    quote literal, and a backslash outside quotes makes the next character
    literal (a backslash before a newline is removed together with it).
    Outside quotes, a control or redirection operator (`|`, `&`, `;`, `<`, `>`,
    `(`, `)`, newline), an expansion (`$`, backquote), a double quote, a glob
    character (`*`, `?`, `[`), and `#` or `~` at the start of a word all make
    the line something other than one simple command of literal words; the
    result is then `None`, as it is when a single quote is left unterminated
    (a syntax error). */
module ShellWords {
  import opened Wrappers

  predicate IsBlank(c: char) {
    c == ' ' || c == '\t'
  }

  /** Characters outside quotes that end, redirect or expand the command
      wherever they stand. */
  predicate IsSpecial(c: char) {
    c == '|' || c == '&' || c == ';' || c == '<' || c == '>' || c == '(' || c == ')'
    || c == '\n' || c == '$' || c == '`' || c == '"' || c == '*' || c == '?' || c == '['

  }

  /** Characters outside quotes that are special at the start of a word only:
      a comment, a tilde expansion. */
  predicate IsWordStartSpecial(c: char) {
    c == '#' || c == '~'
  }

  /** A character with no special meaning to the shell anywhere in a word. */
  predicate IsPlain(c: char) {
    !IsBlank(c) && c != '\'' && c != '\\' && !IsSpecial(c) && !IsWordStartSpecial(c)
  }

  predicate IsPlainWord(w: string) {
    w != [] && forall k :: 0 <= k < |w| ==> IsPlain(w[k])
  }

  /** Lower-case letters, digits and hyphens need no quoting. */
  lemma LowerWordPlain(w: string)
    requires w != [] && forall k :: 0 <= k < |w| ==> 'a' <= w[k] <= 'z' || '0' <= w[k] <= '9' || w[k] == '-'
    ensures IsPlainWord(w)
  {
  }

  /** Scanning outside quotes. `done` holds the finished words, `word` the word
      being built and `inWord` whether one has started (an empty quoted string
      starts a word). */
  function Unquoted(s: string, done: seq<string>, word: string, inWord: bool): Option<seq<string>>
    decreases |s|
  {
    if s == [] then Some(if inWord then done + [word] else done)
    else if IsBlank(s[0]) then Unquoted(s[1..], if inWord then done + [word] else done, "", false)
    else if s[0] == '\'' then Quoted(s[1..], done, word)
    else if IsSpecial(s[0]) || (IsWordStartSpecial(s[0]) && !inWord) then None
    else if s[0] == '\\' && |s| >= 2 then
      if s[1] == '\n' then Unquoted(s[2..], done, word, inWord)
      else Unquoted(s[2..], done, word + [s[1]], true)
    else Unquoted(s[1..], done, word + [s[0]], true)
  }

  /** A line is not one simple command once a special character follows a
      stretch `p` that scans to completion (its quotes closed) and does not
      end in a backslash that would escape that character. */
  lemma {:induction false} SpecialAfterScanned(p: string, rest: string, done: seq<string>, word: string, inWord: bool)
    requires Unquoted(p, done, word, inWord).Some?
    requires p == [] || p[|p| - 1] != '\\'
    requires rest != [] && IsSpecial(rest[0])
    ensures Unquoted(p + rest, done, word, inWord) == None
    decreases |p|, 1
  {
    if p == [] {
      assert p + rest == rest;
    } else {
      var s := p + rest;
      assert s[0] == p[0] && s[1..] == p[1..] + rest;
      if IsBlank(p[0]) {
        SpecialAfterScanned(p[1..], rest, if inWord then done + [word] else done, "", false);
      } else if p[0] == '\'' {
        QuotedSpecialAfterScanned(p[1..], rest, done, word);
      } else if IsSpecial(p[0]) || (IsWordStartSpecial(p[0]) && !inWord) {
      } else if p[0] == '\\' && |p| >= 2 {
        assert s[1] == p[1] && s[2..] == p[2..] + rest;
        if p[1] == '\n' {
          SpecialAfterScanned(p[2..], rest, done, word, inWord);
        } else {
          SpecialAfterScanned(p[2..], rest, done, word + [p[1]], true);
        }
      } else {
        SpecialAfterScanned(p[1..], rest, done, word + [p[0]], true);
      }
    }
  }

  lemma {:induction false} QuotedSpecialAfterScanned(p: string, rest: string, done: seq<string>, word: string)
    requires Quoted(p, done, word).Some?
    requires p == [] || p[|p| - 1] != '\\'
    requires rest != [] && IsSpecial(rest[0])
    ensures Quoted(p + rest, done, word) == None
    decreases |p|, 0
  {
    var s := p + rest;
    assert s[0] == p[0] && s[1..] == p[1..] + rest;
    if p[0] == '\'' {
      SpecialAfterScanned(p[1..], rest, done, word, true);
    } else {
      QuotedSpecialAfterScanned(p[1..], rest, done, word + [p[0]]);
    }
  }

  /** Scanning inside single quotes, where only the closing quote is special. */
  function Quoted(s: string, done: seq<string>, word: string): Option<seq<string>>
    decreases |s|
  {
    if s == [] then None
    else if s[0] == '\'' then Unquoted(s[1..], done, word, true)
    else Quoted(s[1..], done, word + [s[0]])
  }

  /** The arguments the shell passes for command line `s`. */
  function Words(s: string): Option<seq<string>> {
    Unquoted(s, [], "", false)
  }

  /** Puts `ws` in front of a successful split. */
  function Prepend(ws: seq<string>, o: Option<seq<string>>): Option<seq<string>> {
    match o
    case None => None
    case Some(vs) => Some(ws + vs)
  }

  // ---------------------------------------------------------------------------

  /** The finished words only ever grow at the end: scanning with `done` already
      collected is scanning from scratch with `done` put in front. */
  lemma {:induction false} UnquotedAccumulates(s: string, done: seq<string>, word: string, inWord: bool)
    ensures Unquoted(s, done, word, inWord) == Prepend(done, Unquoted(s, [], word, inWord))
    decreases |s|, 1
  {
    if s == [] {
      assert done + ([] + [word]) == done + [word];
      assert done + [] == done;
    } else if IsBlank(s[0]) {
      var o := Unquoted(s[1..], [], "", false);
      UnquotedAccumulates(s[1..], if inWord then done + [word] else done, "", false);
      if inWord {
        UnquotedAccumulates(s[1..], [] + [word], "", false);
        assert Unquoted(s, [], word, inWord) == Prepend([] + [word], o);
        if o.Some? {
          assert done + [word] + o.value == done + (([] + [word]) + o.value);
        }
      }
    } else if s[0] == '\'' {
      QuotedAccumulates(s[1..], done, word);
    } else if IsSpecial(s[0]) || (IsWordStartSpecial(s[0]) && !inWord) {
    } else if s[0] == '\\' && |s| >= 2 {
      if s[1] == '\n' {
        UnquotedAccumulates(s[2..], done, word, inWord);
      } else {
        UnquotedAccumulates(s[2..], done, word + [s[1]], true);
      }
    } else {
      UnquotedAccumulates(s[1..], done, word + [s[0]], true);
    }
  }

  lemma {:induction false} QuotedAccumulates(s: string, done: seq<string>, word: string)
    ensures Quoted(s, done, word) == Prepend(done, Quoted(s, [], word))
    decreases |s|, 0
  {
    if s == [] {
    } else if s[0] == '\'' {
      UnquotedAccumulates(s[1..], done, word, true);
    } else {
      QuotedAccumulates(s[1..], done, word + [s[0]]);
    }
  }

  /** An opening single quote switches to quoted scanning. */
  lemma OpenQuote(rest: string, done: seq<string>, word: string, inWord: bool)
    ensures Unquoted("'" + rest, done, word, inWord) == Quoted(rest, done, word)
  {
    assert ("'" + rest)[0] == '\'' && ("'" + rest)[1..] == rest;
  }

  /** A quoted stretch without a single quote in it is added to the current
      word verbatim, blanks and all. */
  lemma {:induction false} QuotedStretch(b: string, rest: string, done: seq<string>, word: string)
    requires '\'' !in b
    ensures Quoted(b + "'" + rest, done, word) == Unquoted(rest, done, word + b, true)
  {
    if b == [] {
      assert b + "'" + rest == "'" + rest;
      assert ("'" + rest)[1..] == rest;
      assert word + b == word;
    } else {
      assert (b + "'" + rest)[0] == b[0];
      assert (b + "'" + rest)[1..] == b[1..] + "'" + rest;
      QuotedStretch(b[1..], rest, done, word + [b[0]]);
      assert word + [b[0]] + b[1..] == word + b;
    }
  }

  /** Plain characters are added to the current word one by one. */
  lemma {:induction false} PlainStretch(w: string, rest: string, done: seq<string>, word: string)
    requires IsPlainWord(w)
    ensures Unquoted(w + rest, done, word, false) == Unquoted(rest, done, word + w, true)
    ensures Unquoted(w + rest, done, word, true) == Unquoted(rest, done, word + w, true)
  {
    assert (w + rest)[0] == w[0];
    assert (w + rest)[1..] == w[1..] + rest;
    if |w| == 1 {
      assert w[1..] + rest == rest;
      assert word + [w[0]] == word + w;
    } else {
      PlainStretch(w[1..], rest, done, word + [w[0]]);
      assert word + [w[0]] + w[1..] == word + w;
    }
  }

  /** A plain word followed by a blank becomes one argument. */
  lemma WordThenBlank(w: string, rest: string, done: seq<string>)
    requires IsPlainWord(w)
    ensures Unquoted(w + " " + rest, done, "", false) == Unquoted(rest, done + [w], "", false)
  {
    PlainStretch(w, " " + rest, done, "");
    assert w + " " + rest == w + (" " + rest);
    assert (" " + rest)[1..] == rest;
    assert "" + w == w;
  }

  /** A blank between words adds nothing. */
  lemma ExtraBlank(rest: string, done: seq<string>)
    ensures Unquoted(" " + rest, done, "", false) == Unquoted(rest, done, "", false)
  {
    assert (" " + rest)[1..] == rest;
  }

  /** Words each followed by one blank, as a command line writes them. */
  function Spaced(ws: seq<string>): string {
    if ws == [] then "" else ws[0] + " " + Spaced(ws[1..])
  }

  /** Plain words each followed by a blank become one argument each. */
  lemma {:induction false} SpacedWords(ws: seq<string>, rest: string, done: seq<string>)
    requires forall k :: 0 <= k < |ws| ==> IsPlainWord(ws[k])
    ensures Unquoted(Spaced(ws) + rest, done, "", false) == Unquoted(rest, done + ws, "", false)
  {
    if ws == [] {
      assert Spaced(ws) + rest == rest;
      assert done + ws == done;
    } else {
      assert Spaced(ws) + rest == ws[0] + " " + (Spaced(ws[1..]) + rest);
      WordThenBlank(ws[0], Spaced(ws[1..]) + rest, done);
      SpacedWords(ws[1..], rest, done + [ws[0]]);
      assert done + [ws[0]] + ws[1..] == done + ws;
    }
  }

  lemma {:induction false} SpacedConcat(a: seq<string>, b: seq<string>)
    ensures Spaced(a + b) == Spaced(a) + Spaced(b)
  {
    if a == [] {
      assert a + b == b;
    } else {
      var c := a + b;
      assert c[0] == a[0] && c[1..] == a[1..] + b;
      SpacedConcat(a[1..], b);
      assert Spaced(c) == a[0] + " " + (Spaced(a[1..]) + Spaced(b));
    }
  }

  lemma SpacedPair(a: string, b: string)
    ensures Spaced([a, b]) == a + " " + b + " "
  {
    assert Spaced([b]) == b + " ";
  }
}
