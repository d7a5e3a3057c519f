/** Names of metrics, made of arbitrary texts. A text is a list of bytes, one `char` each. */
module MetricName {
  import opened Runs

  predicate Letter(c: char) {
    'a' <= c <= 'z' || 'A' <= c <= 'Z'
  }

  predicate ValidMetricChar(c: char) {
    Letter(c) || '0' <= c <= '9' || c == '_' || c == ':'
  }

  /** The names the metrics library accepts. */
  predicate ValidMetricName(name: string) {
    && name != ""
    && (Letter(name[0]) || name[0] == '_' || name[0] == ':')
    && AllValid(name)
  }

  predicate AllValid(s: string) {
    forall i :: 0 <= i < |s| ==> ValidMetricChar(s[i])
  }

  predicate HasLetter(s: string) {
    exists i :: 0 <= i < |s| && Letter(s[i])
  }

  /** The first position from `i` on that holds a letter, or the length of the text. */
  function FirstLetter(s: string, i: nat): (r: nat)
    requires i <= |s|
    ensures i <= r <= |s|
    ensures forall j :: i <= j < r ==> !Letter(s[j])
    ensures r < |s| ==> Letter(s[r])
    decreases |s| - i
  {
    if i == |s| || Letter(s[i]) then i else FirstLetter(s, i + 1)
  }

  /** The text from its first letter on. */
  function FromFirstLetter(s: string): string {
    s[FirstLetter(s, 0)..]
  }

  function KeepValid(s: string): string {
    if s == [] then []
    else if ValidMetricChar(Last(s)) then KeepValid(ButLast(s)) + [Last(s)]
    else KeepValid(ButLast(s))
  }

  function Clean(s: string): string {
    KeepValid(FromFirstLetter(s))
  }

  method RemoveInvalidChars(name: string) returns (result: string)
    ensures result == Clean(name)
  {
    var i := 0;
    while i < |name|
      invariant 0 <= i <= |name|
      invariant FirstLetter(name, 0) == FirstLetter(name, i)
    {
      if Letter(name[i]) {
        break;
      }
      i := i + 1;
    }
    ghost var tail, start := name[i..], i;
    result := [];
    while i < |name|
      invariant start <= i <= |name|
      invariant result == KeepValid(tail[..i - start])
    {
      KeepValidPush(tail, i - start);
      if ValidMetricChar(name[i]) {
        result := result + [name[i]];
      }
      i := i + 1;
    }
    assert tail[..|tail|] == tail;
  }

  lemma {:induction false} KeepValidPush(s: string, i: nat)
    requires i < |s|
    ensures KeepValid(s[..i + 1]) == if ValidMetricChar(s[i]) then KeepValid(s[..i]) + [s[i]] else KeepValid(s[..i])
  {
    assert ButLast(s[..i + 1]) == s[..i];
  }

  // ----- the name of several fields

  /** The cleaned fields, without those of which nothing is left. */
  function Parts(fields: seq<string>): seq<string> {
    if fields == [] then []
    else if Clean(Last(fields)) == "" then Parts(ButLast(fields))
    else Parts(ButLast(fields)) + [Clean(Last(fields))]
  }

  function Join(parts: seq<string>): string {
    if parts == [] then ""
    else if |parts| == 1 then parts[0]
    else Join(ButLast(parts)) + "_" + Last(parts)
  }

  /** The metric key of the fields: their cleaned texts with one underscore in between. */
  function Key(fields: seq<string>): string {
    Join(Parts(fields))
  }

  method GetName(fields: seq<string>) returns (name: string)
    ensures name == Key(fields)
  {
    name := "";
    var i := 0;
    while i < |fields|
      invariant 0 <= i <= |fields|
      invariant name == if Parts(fields[..i]) == [] then "" else Join(Parts(fields[..i])) + "_"
    {
      assert ButLast(fields[..i + 1]) == fields[..i];
      var v := RemoveInvalidChars(fields[i]);
      if |v| > 0 {
        assert ButLast(Parts(fields[..i]) + [v]) == Parts(fields[..i]);
        name := name + v + "_";
      }
      i := i + 1;
    }
    assert fields[..i] == fields;
    if |name| > 0 && name[|name| - 1] == '_' {
      name := name[..|name| - 1];
    }
  }

  // ----- cleaning

  lemma {:induction false} KeepValidIsValid(s: string)
    ensures AllValid(KeepValid(s))
  {
    if s != [] {
      KeepValidIsValid(ButLast(s));
    }
  }

  lemma {:induction false} KeepValidKeepsFirst(s: string)
    requires s != [] && ValidMetricChar(s[0])
    ensures KeepValid(s) != [] && KeepValid(s)[0] == s[0]
  {
    if |s| > 1 {
      KeepValidKeepsFirst(ButLast(s));
    }
  }

  lemma {:induction false} KeepValidOfValid(s: string)
    requires AllValid(s)
    ensures KeepValid(s) == s
  {
    if s != [] {
      var rest := ButLast(s);
      assert AllValid(rest) && s == rest + [Last(s)];
      KeepValidOfValid(rest);
    }
  }

  lemma {:induction false} FirstLetterFound(s: string)
    ensures HasLetter(s) <==> FromFirstLetter(s) != []
    ensures HasLetter(s) ==> Letter(FromFirstLetter(s)[0])
  {
    if i :| 0 <= i < |s| && Letter(s[i]) {
      assert FirstLetter(s, 0) <= i;
    }
  }

  /** Starts with a letter and holds nothing but valid characters. */
  predicate Clear(s: string) {
    s != "" && Letter(s[0]) && AllValid(s)
  }

  /** Something is left of a text exactly when it holds a letter; cleaning again changes nothing. */
  lemma {:induction false} CleanIsClear(s: string)
    ensures HasLetter(s) ==> Clear(Clean(s))
    ensures !HasLetter(s) ==> Clean(s) == ""
    ensures Clean(Clean(s)) == Clean(s)
  {
    FirstLetterFound(s);
    KeepValidIsValid(FromFirstLetter(s));
    if HasLetter(s) {
      KeepValidKeepsFirst(FromFirstLetter(s));
    }
    KeepValidOfValid(Clean(s));
  }

  // ----- keys

  predicate AnyHasLetter(fields: seq<string>) {
    exists i :: 0 <= i < |fields| && HasLetter(fields[i])
  }

  predicate AllClear(parts: seq<string>) {
    forall i :: 0 <= i < |parts| ==> Clear(parts[i])
  }

  lemma {:induction false} PartsAreClear(fields: seq<string>)
    ensures AllClear(Parts(fields))
    ensures Parts(fields) != [] <==> AnyHasLetter(fields)
  {
    if fields != [] {
      PartsAreClear(ButLast(fields));
      CleanIsClear(Last(fields));
      if AnyHasLetter(ButLast(fields)) {
        var i :| 0 <= i < |ButLast(fields)| && HasLetter(ButLast(fields)[i]);
        assert HasLetter(fields[i]);
      } else if HasLetter(Last(fields)) {
        assert HasLetter(fields[|fields| - 1]);
      } else {
        forall i | 0 <= i < |fields|
          ensures !HasLetter(fields[i])
        {
          if i < |fields| - 1 {
            assert ButLast(fields)[i] == fields[i];
          }
        }
      }
    }
  }

  lemma {:induction false} JoinIsClear(parts: seq<string>)
    requires AllClear(parts) && parts != []
    ensures Clear(Join(parts))
  {
    if |parts| > 1 {
      JoinIsClear(ButLast(parts));
    }
  }

  /** The key is a valid metric name exactly when some field holds a letter, and empty otherwise. */
  lemma {:induction false} KeyIsValidIff(fields: seq<string>)
    ensures ValidMetricName(Key(fields)) <==> AnyHasLetter(fields)
    ensures Key(fields) == "" <==> !AnyHasLetter(fields)
  {
    PartsAreClear(fields);
    if Parts(fields) != [] {
      JoinIsClear(Parts(fields));
    }
  }

  lemma {:induction false} JoinAppend(p: seq<string>, q: seq<string>)
    requires p != [] && q != []
    ensures Join(p + q) == Join(p) + "_" + Join(q)
  {
    assert ButLast(p + q) == p + ButLast(q);
    if |q| == 1 {
      assert p + ButLast(q) == p;
    } else {
      JoinAppend(p, ButLast(q));
    }
  }

  lemma {:induction false} PartsAppend(a: seq<string>, b: seq<string>)
    ensures Parts(a + b) == Parts(a) + Parts(b)
  {
    if b == [] {
      assert a + b == a;
    } else {
      PartsAppend(a, ButLast(b));
      assert ButLast(a + b) == a + ButLast(b);
    }
  }

  /** A key is not changed by making a key of it again. */
  lemma {:induction false} KeyParts(fields: seq<string>)
    ensures Parts([Key(fields)]) == if Key(fields) == "" then [] else [Key(fields)]
    ensures Key([Key(fields)]) == Key(fields)
  {
    PartsAreClear(fields);
    assert ButLast([Key(fields)]) == [];
    if Parts(fields) != [] {
      JoinIsClear(Parts(fields));
      KeepValidOfValid(Key(fields));
    }
  }

  /** Keys compose: naming two groups of fields first, and then the two names, gives the key of all the fields. */
  lemma {:induction false} KeysCompose(a: seq<string>, b: seq<string>)
    ensures Key([Key(a), Key(b)]) == Key(a + b)
  {
    KeyParts(a);
    KeyParts(b);
    KeyIsValidIff(a);
    KeyIsValidIff(b);
    PartsAreClear(a);
    PartsAreClear(b);
    PartsAppend([Key(a)], [Key(b)]);
    assert [Key(a)] + [Key(b)] == [Key(a), Key(b)];
    PartsAppend(a, b);
    if Parts(a) == [] {
      assert Parts(a) + Parts(b) == Parts(b);
    } else if Parts(b) == [] {
      assert Parts(a) + Parts(b) == Parts(a);
    } else {
      JoinAppend(Parts(a), Parts(b));
      JoinAppend([Key(a)], [Key(b)]);
    }
  }

  // ----- the bytes, one by one

  const LOWER := "abcdefghijklmnopqrstuvwxyz"
  const UPPER := "ABCDEFGHIJKLMNOPQRSTUVWXYZ"
  const DIGITS := "0123456789"

  lemma {:induction false} LowerIff(c: char)
    ensures 'a' <= c <= 'z' <==> c in LOWER
  {
    if 'a' <= c <= 'z' {
      assert LOWER[c as int - 'a' as int] == c;
    }
  }

  lemma {:induction false} UpperIff(c: char)
    ensures 'A' <= c <= 'Z' <==> c in UPPER
  {
    if 'A' <= c <= 'Z' {
      assert UPPER[c as int - 'A' as int] == c;
    }
  }

  predicate InLists(c: char) {
    c in LOWER || c in UPPER || c in DIGITS || c == '_' || c == ':'
  }

  lemma {:induction false} ValidMetricCharIff(c: char)
    ensures Letter(c) <==> c in LOWER || c in UPPER
    ensures ValidMetricChar(c) <==> InLists(c)
  {
    LowerIff(c);
    UpperIff(c);
    if '0' <= c <= '9' {
      assert DIGITS[c as int - '0' as int] == c;
    }
  }

  /** The names the metrics library accepts: letters, digits, underscores and colons, and no digit in front. */
  lemma {:induction false} ValidMetricNameIff(name: string)
    ensures ValidMetricName(name) <==>
              && name != "" && name[0] !in DIGITS
              && forall i :: 0 <= i < |name| ==> InLists(name[i])
  {
    forall i | 0 <= i < |name|
      ensures ValidMetricChar(name[i]) <==> InLists(name[i])
    {
      ValidMetricCharIff(name[i]);
    }
    if name != "" {
      ValidMetricCharIff(name[0]);
    }
  }

  /** How often a byte is kept: as often as it stands in the text from the first letter on, if it is a valid one. */
  lemma {:induction false} KeptBytes(s: string, c: char)
    ensures multiset(Clean(s))[c] ==
              if InLists(c) then multiset(FromFirstLetter(s))[c] else 0
  {
    ValidMetricCharIff(c);
    KeptOf(FromFirstLetter(s), c);
  }

  lemma {:induction false} KeptOf(s: string, c: char)
    ensures multiset(KeepValid(s))[c] == if ValidMetricChar(c) then multiset(s)[c] else 0
  {
    if s != [] {
      KeptOf(ButLast(s), c);
      assert s == ButLast(s) + [Last(s)];
    }
  }
}
