/** Text as the programs read it: lines, blank-separated words, and their inverses. */
module Strings {

  predicate StartsWith(line: string, prefix: string) {
    |prefix| <= |line| && line[..|prefix|] == prefix
  }

  predicate Blank(c: char) {
    c in " \t\r\n"
  }

  function TrimLeft(s: string): string {
    if s != "" && Blank(s[0]) then TrimLeft(s[1..]) else s
  }

  function TrimRight(s: string): string {
    if s != "" && Blank(s[|s| - 1]) then TrimRight(s[..|s| - 1]) else s
  }

  function Trim(s: string): string {
    TrimRight(TrimLeft(s))
  }

  /** text.split("\n"), which has one more part than there are newlines. */
  function Split(text: string): (lines: seq<string>)
    ensures lines != []
  {
    if text == "" then [""]
    else
      var rest := Split(text[1..]);
      if text[0] == '\n' then [""] + rest else [[text[0]] + rest[0]] + rest[1..]
  }

  function Join(lines: seq<string>): string {
    if lines == [] then "" else if |lines| == 1 then lines[0] else lines[0] + "\n" + Join(lines[1..])
  }

  lemma {:induction false} SplitJoin(lines: seq<string>)
    requires lines != [] && forall line <- lines :: '\n' !in line
    ensures Split(Join(lines)) == lines
    decreases |lines|
  {
    if |lines| == 1 {
      SplitLine(lines[0], "");
      assert lines[0] + "" == lines[0] && [lines[0]] + [] == lines;
    } else {
      SplitJoin(lines[1..]);
      SplitLine(lines[0], "\n" + Join(lines[1..]));
      assert lines[0] + ("\n" + Join(lines[1..])) == Join(lines);
      assert ("\n" + Join(lines[1..]))[1..] == Join(lines[1..]);
      assert ([""] + lines[1..])[1..] == lines[1..] && lines[0] + "" == lines[0];
    }
  }

  /** A line without newlines goes in front of the first part of the rest. */
  lemma {:induction false} SplitLine(line: string, rest: string)
    requires '\n' !in line
    ensures var parts := Split(rest); Split(line + rest) == [line + parts[0]] + parts[1..]
  {
    if line == "" {
      var parts := Split(rest);
      assert line + rest == rest && line + parts[0] == parts[0] && [parts[0]] + parts[1..] == parts;
    } else {
      SplitLine(line[1..], rest);
      assert (line + rest)[1..] == line[1..] + rest;
      assert [line[0]] + (line[1..] + Split(rest)[0]) == line + Split(rest)[0];
    }
  }

  // ---------- words ----------

  predicate Word(s: string) {
    s != "" && forall c <- s :: !Blank(c)
  }

  /** The length of the first run of non-blank characters. */
  function WordRun(s: string): (n: nat)
    ensures n <= |s| && (forall c <- s[..n] :: !Blank(c)) && (n < |s| ==> Blank(s[n]))
  {
    if s == "" || Blank(s[0]) then 0
    else
      var n := WordRun(s[1..]);
      assert s[..n + 1] == [s[0]] + s[1..][..n];
      n + 1
  }

  /** text.split(): the maximal runs of non-blank characters. */
  function Words(s: string): seq<string> {
    if s == "" then []
    else if Blank(s[0]) then Words(s[1..])
    else
      var n := WordRun(s);
      [s[..n]] + Words(s[n..])
  }

  function JoinWords(words: seq<string>): string {
    if words == [] then "" else if |words| == 1 then words[0] else words[0] + " " + JoinWords(words[1..])
  }

  lemma {:induction false} WordRunOf(word: string, rest: string)
    requires (forall c <- word :: !Blank(c)) && (rest == "" || Blank(rest[0]))
    ensures WordRun(word + rest) == |word|
  {
    if word == "" {
      assert word + rest == rest;
    } else {
      WordRunOf(word[1..], rest);
      assert (word + rest)[1..] == word[1..] + rest;
    }
  }

  lemma FirstWord(word: string, rest: string)
    requires Word(word) && (rest == "" || Blank(rest[0]))
    ensures Words(word + rest) == [word] + Words(rest)
  {
    WordRunOf(word, rest);
    assert (word + rest)[..|word|] == word && (word + rest)[|word|..] == rest;
  }

  lemma WordsJoinMore(word: string, rest: string)
    requires Word(word)
    ensures Words(word + " " + rest) == [word] + Words(rest)
  {
    FirstWord(word, " " + rest);
    assert word + (" " + rest) == word + " " + rest;
    assert (" " + rest)[1..] == rest;
  }

  /** Words joined by blanks split into the same words. */
  lemma {:induction false} WordsJoin(words: seq<string>)
    requires forall word <- words :: Word(word)
    ensures Words(JoinWords(words)) == words
  {
    if words == [] {
    } else if |words| == 1 {
      FirstWord(words[0], "");
      assert words[0] + "" == words[0];
    } else {
      WordsJoin(words[1..]);
      WordsJoinMore(words[0], JoinWords(words[1..]));
    }
  }

  /** No joined text of such words has a newline in it. */
  lemma {:induction false} JoinedIsOneLine(words: seq<string>)
    requires forall word <- words :: Word(word)
    ensures '\n' !in JoinWords(words)
  {
    if words != [] {
      assert Word(words[0]) && '\n' !in words[0] by {
        assert Blank('\n');
      }
      JoinedIsOneLine(words[1..]);
    }
  }

  function LowerChar(c: char): char {
    if 'A' <= c <= 'Z' then (c as int + 32) as char else c
  }

  /** Lower case of ASCII text. */
  function Lower(s: string): string {
    seq(|s|, i requires 0 <= i < |s| => LowerChar(s[i]))
  }

  lemma LowerTwice(s: string)
    ensures Lower(Lower(s)) == Lower(s)
  {
  }
}
