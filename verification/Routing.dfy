/** Exchange routing, sections 3.1.3.1 (direct), 3.1.3.2 (fanout) and 3.1.3.3 (topic) of AMQP 0-9-1. */
module Routing {
  import opened Retry

  datatype Kind = Direct | Fanout | Topic

  /** The dot-delimited words of a routing key or pattern; the empty key has none. */
  function Words(key: string): seq<string> {
    if key == "" then [] else SplitDots(key, "")
  }

  function SplitDots(rest: string, word: string): seq<string> {
    if rest == "" then [word]
    else if rest[0] == '.' then [word] + SplitDots(rest[1..], "")
    else SplitDots(rest[1..], word + [rest[0]])
  }

  predicate WordsMatch(pattern: seq<string>, key: seq<string>)
    decreases |pattern| + |key|
  {
    if pattern == [] then key == []
    else if pattern[0] == "#" then
      WordsMatch(pattern[1..], key) || (key != [] && WordsMatch(pattern, key[1..]))
    else
      && key != []
      && (pattern[0] == "*" || pattern[0] == key[0])
      && WordsMatch(pattern[1..], key[1..])
  }

  /** Does a binding with this pattern on an exchange of this kind accept the key? */
  predicate Accepts(kind: Kind, pattern: string, key: string) {
    match kind
    case Direct => pattern == key
    case Fanout => true
    case Topic => WordsMatch(Words(pattern), Words(key))
  }

  // ----- an independent reading of topic matching -----

  /** The words one pattern word may stand for. */
  predicate StandsFor(word: string, part: seq<string>) {
    if word == "#" then true
    else if word == "*" then |part| == 1
    else part == [word]
  }

  function Flatten(parts: seq<seq<string>>): seq<string> {
    if parts == [] then [] else parts[0] + Flatten(parts[1..])
  }

  /** `parts` cuts the key into consecutive pieces, one per pattern word. */
  predicate Cut(pattern: seq<string>, key: seq<string>, parts: seq<seq<string>>) {
    && |parts| == |pattern|
    && Flatten(parts) == key
    && forall i :: 0 <= i < |pattern| ==> StandsFor(pattern[i], parts[i])
  }

  lemma {:induction false} MatchHasCut(pattern: seq<string>, key: seq<string>) returns (parts: seq<seq<string>>)
    requires WordsMatch(pattern, key)
    ensures Cut(pattern, key, parts)
    decreases |pattern| + |key|
  {
    if pattern == [] {
      parts := [];
    } else if pattern[0] == "#" && !WordsMatch(pattern[1..], key) {
      var rest := MatchHasCut(pattern, key[1..]);
      parts := [[key[0]] + rest[0]] + rest[1..];
      assert Flatten(parts) == key;
    } else {
      var part := if pattern[0] == "#" then [] else [key[0]];
      var rest := MatchHasCut(pattern[1..], key[|part|..]);
      parts := [part] + rest;
      assert Flatten(parts) == part + key[|part|..] == key;
    }
  }

  lemma {:induction false} CutMatches(pattern: seq<string>, key: seq<string>, parts: seq<seq<string>>)
    requires Cut(pattern, key, parts)
    ensures WordsMatch(pattern, key)
    decreases |pattern| + |key|
  {
    if pattern == [] {
    } else if pattern[0] == "#" && parts[0] != [] {
      var shorter := [parts[0][1..]] + parts[1..];
      assert key[1..] == parts[0][1..] + Flatten(parts[1..]);
      assert Flatten(shorter) == key[1..];
      CutMatches(pattern, key[1..], shorter);
    } else {
      assert key[|parts[0]|..] == Flatten(parts[1..]);
      CutMatches(pattern[1..], key[|parts[0]|..], parts[1..]);
    }
  }

  /** A key matches a pattern iff it can be cut into pieces the pattern's words stand for. */
  lemma TopicMeaning(pattern: seq<string>, key: seq<string>)
    ensures WordsMatch(pattern, key) <==> exists parts :: Cut(pattern, key, parts)
  {
    if WordsMatch(pattern, key) {
      var parts := MatchHasCut(pattern, key);
    }
    if parts :| Cut(pattern, key, parts) {
      CutMatches(pattern, key, parts);
    }
  }

  // ----- keys and their words -----

  function Join(words: seq<string>): string {
    if words == [] then ""
    else if |words| == 1 then words[0]
    else words[0] + "." + Join(words[1..])
  }

  predicate DotFree(words: seq<string>) {
    forall i :: 0 <= i < |words| ==> '.' !in words[i]
  }

  /** The key is these words with dots between them; the empty key has no word. */
  predicate IsSplit(key: string, words: seq<string>) {
    if key == "" then words == [] else words != [] && Join(words) == key && DotFree(words)
  }

  lemma JoinFirst(word: string, words: seq<string>)
    requires words != []
    ensures Join([word] + words) == word + "." + Join(words)
  {
    assert ([word] + words)[1..] == words;
  }

  lemma {:induction false} SplitJoins(rest: string, word: string)
    requires '.' !in word
    ensures SplitDots(rest, word) != [] && Join(SplitDots(rest, word)) == word + rest && DotFree(SplitDots(rest, word))
  {
    if rest == "" {
      assert word + rest == word;
    } else if rest[0] == '.' {
      SplitJoins(rest[1..], "");
      JoinFirst(word, SplitDots(rest[1..], ""));
      assert "" + rest[1..] == rest[1..];
      assert word + "." + rest[1..] == word + rest;
    } else {
      SplitJoins(rest[1..], word + [rest[0]]);
      assert word + [rest[0]] + rest[1..] == word + rest;
    }
  }

  lemma WordsSplit(key: string)
    ensures IsSplit(key, Words(key))
  {
    if key != "" {
      SplitJoins(key, "");
      assert "" + key == key;
    }
  }

  /** `word` is all of the key, or what comes before its first dot. */
  predicate Leads(key: string, word: string) {
    && '.' !in word && |word| <= |key| && key[..|word|] == word
    && (|word| < |key| ==> key[|word|] == '.')
  }

  function FirstDot(key: string): nat {
    if key == "" || key[0] == '.' then 0 else 1 + FirstDot(key[1..])
  }

  lemma {:induction false} LeadsToFirstDot(key: string, word: string)
    requires Leads(key, word)
    ensures |word| == FirstDot(key) && word == key[..|word|]
  {
    if word != "" {
      assert key[0] == key[..|word|][0] == word[0];
      assert key[1..][..|word| - 1] == key[..|word|][1..];
      LeadsToFirstDot(key[1..], word[1..]);
    }
  }

  lemma FirstWordLeads(words: seq<string>)
    requires words != [] && DotFree(words)
    ensures Leads(Join(words), words[0]) && (|words| == 1 <==> |Join(words)| == |words[0]|)
    ensures |words| > 1 ==> Join(words)[|words[0]| + 1..] == Join(words[1..])
  {
    if |words| > 1 {
      var key, rest := Join(words), Join(words[1..]);
      assert key == words[0] + "." + rest;
    }
  }

  lemma {:induction false} JoinDecides(a: seq<string>, b: seq<string>)
    requires a != [] && b != [] && DotFree(a) && DotFree(b) && Join(a) == Join(b)
    ensures a == b
  {
    FirstWordLeads(a);
    FirstWordLeads(b);
    LeadsToFirstDot(Join(a), a[0]);
    LeadsToFirstDot(Join(a), b[0]);
    assert a == [a[0]] + a[1..] && b == [b[0]] + b[1..];
    if |a| > 1 {
      JoinDecides(a[1..], b[1..]);
    }
  }

  /** There is only one way to split a key. */
  lemma SplitIsWords(key: string, words: seq<string>)
    requires IsSplit(key, words)
    ensures words == Words(key)
  {
    WordsSplit(key);
    if key != "" {
      JoinDecides(words, Words(key));
    }
  }

  /** The key can be cut into pieces that the pattern's words stand for. */
  ghost predicate Fits(pattern: string, key: string) {
    exists patternWords, keyWords, parts ::
      IsSplit(pattern, patternWords) && IsSplit(key, keyWords) && Cut(patternWords, keyWords, parts)
  }

  /**
   * What the three kinds of exchange accept: the binding key itself, every key, and the keys that can be cut, at
   * dots, into pieces that the dot-delimited words of the pattern stand for.
   */
  lemma AcceptsMeaning(kind: Kind, pattern: string, key: string)
    ensures kind == Direct ==> (Accepts(kind, pattern, key) <==> key == pattern)
    ensures kind == Fanout ==> Accepts(kind, pattern, key)
    ensures kind == Topic ==> (Accepts(kind, pattern, key) <==> Fits(pattern, key))
  {
    WordsSplit(pattern);
    WordsSplit(key);
    TopicMeaning(Words(pattern), Words(key));
    if Fits(pattern, key) {
      var patternWords, keyWords, parts :|
        IsSplit(pattern, patternWords) && IsSplit(key, keyWords) && Cut(patternWords, keyWords, parts);
      SplitIsWords(pattern, patternWords);
      SplitIsWords(key, keyWords);
    }
  }

  // ----- retry copies route back -----

  /** Every topic pattern matches itself read as a literal key. */
  lemma {:induction false} PatternMatchesItself(pattern: seq<string>)
    ensures WordsMatch(pattern, pattern)
    decreases |pattern|
  {
    if pattern != [] {
      PatternMatchesItself(pattern[1..]);
      if pattern[0] == "#" {
        assert WordsMatch(pattern, pattern[1..]);
      }
    }
  }

  /** Whatever key reached the queue through a binding, the key chosen for the retry reaches it again. */
  lemma RetryRoutesBack(kind: Kind, pattern: string, key: string)
    requires Accepts(kind, pattern, key)
    ensures Accepts(kind, pattern, RetryKey(key, pattern))
  {
    PatternMatchesItself(Words(pattern));
  }
}
