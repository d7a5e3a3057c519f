/** Quoting of texts that are placed inside a quoted string of a message or a command. */
module EscapeQuote {
  import opened Runs

  /** One entry of the replacement table; every pattern of the table is a single character. */
  datatype Escape = Escape(from: char, to: string)

  const ESCAPES: seq<Escape> := [Escape('`', ""), Escape('\\', "\\\\"), Escape('\'', "\\'"), Escape('"', "\\\"")]

  function ReplaceAll(s: string, from: char, to: string): string {
    if s == [] then [] else ReplaceAll(ButLast(s), from, to) + if Last(s) == from then to else [Last(s)]
  }

  /** The replacements of the table, one after the other. */
  function ReplaceEach(s: string, table: seq<Escape>): string {
    if table == [] then s
    else ReplaceAll(ReplaceEach(s, ButLast(table)), Last(table).from, Last(table).to)
  }

  /** What becomes of a single character. */
  function EscapeChar(c: char): string {
    if c == '`' then ""
    else if c == '\\' || c == '\'' || c == '"' then ['\\', c]
    else [c]
  }

  function EscapeChars(s: string): string {
    if s == [] then [] else EscapeChar(s[0]) + EscapeChars(s[1..])
  }

  lemma {:induction false} ReplaceAllDistributes(a: string, b: string, from: char, to: string)
    ensures ReplaceAll(a + b, from, to) == ReplaceAll(a, from, to) + ReplaceAll(b, from, to)
  {
    if b == [] {
      assert a + b == a;
    } else {
      ReplaceAllDistributes(a, ButLast(b), from, to);
      assert ButLast(a + b) == a + ButLast(b);
    }
  }

  lemma {:induction false} ReplaceEachDistributes(a: string, b: string, table: seq<Escape>)
    ensures ReplaceEach(a + b, table) == ReplaceEach(a, table) + ReplaceEach(b, table)
  {
    if table != [] {
      var rest := ButLast(table);
      ReplaceEachDistributes(a, b, rest);
      ReplaceAllDistributes(ReplaceEach(a, rest), ReplaceEach(b, rest), Last(table).from, Last(table).to);
    }
  }

  lemma {:induction false} ReplaceEachEmpty(table: seq<Escape>)
    ensures ReplaceEach("", table) == ""
  {
    if table != [] {
      ReplaceEachEmpty(ButLast(table));
    }
  }

  /** Replacement on texts of at most two characters. */
  lemma {:induction false} ReplaceAllShort(s: string, from: char, to: string)
    requires |s| <= 2
    ensures s == "" ==> ReplaceAll(s, from, to) == ""
    ensures |s| == 1 ==> ReplaceAll(s, from, to) == if s[0] == from then to else s
    ensures |s| == 2 && from !in s ==> ReplaceAll(s, from, to) == s
  {
    if |s| > 0 {
      ReplaceAllShort(ButLast(s), from, to);
    }
  }

  /** What a single character has become after `k` entries of the table. */
  function Stage(c: char, k: nat): string {
    var done := if c == '`' then 1 else if c == '\\' then 2 else if c == '\'' then 3 else 4;
    if k >= done then EscapeChar(c) else [c]
  }

  lemma {:induction false} StageStep(c: char, k: nat)
    requires k < 4
    ensures ReplaceAll(Stage(c, k), ESCAPES[k].from, ESCAPES[k].to) == Stage(c, k + 1)
  {
    ReplaceAllShort(Stage(c, k), ESCAPES[k].from, ESCAPES[k].to);
  }

  /** Every entry of the table takes a character from its stage to the next. */
  predicate Staged(c: char, table: seq<Escape>) {
    forall k :: 0 <= k < |table| ==> ReplaceAll(Stage(c, k), table[k].from, table[k].to) == Stage(c, k + 1)
  }

  lemma {:induction false} StagesOfTable(c: char, table: seq<Escape>)
    requires Staged(c, table)
    ensures ReplaceEach([c], table) == Stage(c, |table|)
  {
    if table != [] {
      var k := |table| - 1;
      assert ReplaceAll(Stage(c, k), table[k].from, table[k].to) == Stage(c, k + 1);
      StagesOfTable(c, ButLast(table));
    }
  }

  lemma {:induction false} EscapesAreStaged(c: char)
    ensures Staged(c, ESCAPES)
  {
    forall k | 0 <= k < |ESCAPES|
      ensures ReplaceAll(Stage(c, k), ESCAPES[k].from, ESCAPES[k].to) == Stage(c, k + 1)
    {
      StageStep(c, k);
    }
  }

  /** The four successive replacements are one map over the characters. */
  lemma {:induction false} ReplacementsAreOneMap(s: string)
    ensures ReplaceEach(s, ESCAPES) == EscapeChars(s)
  {
    if s == [] {
      ReplaceEachEmpty(ESCAPES);
    } else {
      EscapesAreStaged(s[0]);
      StagesOfTable(s[0], ESCAPES);
      ReplacementsAreOneMap(s[1..]);
      ReplaceEachDistributes([s[0]], s[1..], ESCAPES);
      assert [s[0]] + s[1..] == s;
    }
  }

  method EscapeQuote(text: string) returns (str: string)
    ensures str == EscapeChars(text)
  {
    str := text;
    var i := 0;
    while i < |ESCAPES|
      invariant 0 <= i <= |ESCAPES|
      invariant str == ReplaceEach(text, ESCAPES[..i])
    {
      assert ButLast(ESCAPES[..i + 1]) == ESCAPES[..i];
      str := ReplaceAll(str, ESCAPES[i].from, ESCAPES[i].to);
      i := i + 1;
    }
    assert ESCAPES[..i] == ESCAPES;
    ReplacementsAreOneMap(text);
  }

  // ----- what the reader of the quoted text sees

  /** A backslash makes the next character literal. */
  function Unescape(s: string): string {
    if s == [] then []
    else if s[0] == '\\' && |s| >= 2 then [s[1]] + Unescape(s[2..])
    else [s[0]] + Unescape(s[1..])
  }

  function WithoutBackticks(s: string): string {
    if s == [] then [] else (if s[0] == '`' then "" else [s[0]]) + WithoutBackticks(s[1..])
  }

  /** Unescaping gives back the text, up to the backticks that were removed. */
  lemma {:induction false} UnescapeEscaped(s: string)
    ensures Unescape(EscapeChars(s)) == WithoutBackticks(s)
  {
    if s != [] {
      var head, rest := EscapeChar(s[0]), EscapeChars(s[1..]);
      UnescapeEscaped(s[1..]);
      assert (head + rest)[|head|..] == rest;
    }
  }

  /** No quote is left bare: read from the left, every quote stands behind its own backslash, and none is left over. */
  predicate NoBareQuote(s: string) {
    s == [] || if s[0] == '\\' then |s| >= 2 && NoBareQuote(s[2..])
               else s[0] != '\'' && s[0] != '"' && s[0] != '`' && NoBareQuote(s[1..])
  }

  lemma {:induction false} EscapedHasNoBareQuote(s: string)
    ensures NoBareQuote(EscapeChars(s))
  {
    if s != [] {
      var head, rest := EscapeChar(s[0]), EscapeChars(s[1..]);
      EscapedHasNoBareQuote(s[1..]);
      assert (head + rest)[|head|..] == rest;
    }
  }

  /** Two texts look the same after quoting exactly when they differ in backticks only. */
  lemma {:induction false} EscapedEqualIff(a: string, b: string)
    ensures EscapeChars(a) == EscapeChars(b) <==> WithoutBackticks(a) == WithoutBackticks(b)
  {
    UnescapeEscaped(a);
    UnescapeEscaped(b);
    EscapeIgnoresBackticks(a);
    EscapeIgnoresBackticks(b);
  }

  lemma {:induction false} EscapeIgnoresBackticks(s: string)
    ensures EscapeChars(WithoutBackticks(s)) == EscapeChars(s)
  {
    if s != [] {
      EscapeIgnoresBackticks(s[1..]);
      if s[0] != '`' {
        assert WithoutBackticks(s)[1..] == WithoutBackticks(s[1..]);
      } else {
        assert WithoutBackticks(s) == WithoutBackticks(s[1..]);
      }
    }
  }

  /** A backslash is added for each quote and backslash, and each backtick is taken away. */
  lemma {:induction false} EscapedLength(s: string)
    ensures |EscapeChars(s)| + multiset(s)['`']
         == |s| + multiset(s)['\\'] + multiset(s)['\''] + multiset(s)['"']
  {
    if s != [] {
      EscapedLength(s[1..]);
      assert s == [s[0]] + s[1..];
    }
  }

  lemma {:induction false} EscapedHasNoBacktick(s: string)
    ensures '`' !in EscapeChars(s)
  {
    if s != [] {
      EscapedHasNoBacktick(s[1..]);
    }
  }

  predicate Plain(s: string) {
    '`' !in s && '\\' !in s && '\'' !in s && '"' !in s
  }

  lemma {:induction false} PlainIsUnchanged(s: string)
    requires Plain(s)
    ensures EscapeChars(s) == s
  {
    if s != [] {
      PlainIsUnchanged(s[1..]);
    }
  }

  /** A text is unchanged exactly when it has none of the four characters. */
  lemma {:induction false} UnchangedIffPlain(s: string)
    ensures EscapeChars(s) == s <==> Plain(s)
  {
    EscapedLength(s);
    EscapedHasNoBacktick(s);
    if Plain(s) {
      PlainIsUnchanged(s);
    }
  }
}
