/** Topic strings and filters: their levels, the two syntax checks, the tokeniser. */
module Topics {

  const MAX_TOPIC := 65535

  // ---------------------------------------------------------------- levels

  /** The levels of a topic or filter: what lies between the slashes. */
  function Split(s: string): (levels: seq<string>)
    ensures |levels| >= 1
  {
    if s == "" then [""]
    else
      var rest := Split(s[1..]);
      if s[0] == '/' then [""] + rest else [[s[0]] + rest[0]] + rest[1..]
  }

  /** The levels written one after another with a slash between them. */
  function Join(levels: seq<string>): string
    requires |levels| >= 1
  {
    if |levels| == 1 then levels[0] else levels[0] + "/" + Join(levels[1..])
  }

  lemma {:induction false} JoinSplit(s: string)
    ensures Join(Split(s)) == s
  {
    if s != "" {
      JoinSplit(s[1..]);
      var rest := Split(s[1..]);
      if s[0] == '/' {
        assert Split(s)[1..] == rest;
      } else {
        assert Split(s)[1..] == rest[1..];
        assert [s[0]] + Join(rest) == s;
      }
    }
  }

  /** No level contains a slash. */
  lemma {:induction false} SplitSlashFree(s: string)
    ensures forall l :: l in Split(s) ==> '/' !in l
  {
    if s != "" {
      SplitSlashFree(s[1..]);
    }
  }

  /** The first level ends at the first slash. */
  lemma {:induction false} SplitAtSlash(s: string, i: nat)
    requires i < |s| && s[i] == '/' && '/' !in s[..i]
    ensures Split(s) == [s[..i]] + Split(s[i + 1..])
  {
    if i > 0 {
      assert s[..i][0] == s[0];
      assert s[1..][..i - 1] == s[..i][1..];
      SplitAtSlash(s[1..], i - 1);
      assert s[1..][i..] == s[i + 1..];
      assert [s[0]] + s[1..][..i - 1] == s[..i];
    }
  }

  lemma {:induction false} SplitNoSlash(s: string)
    requires '/' !in s
    ensures Split(s) == [s]
  {
    if s != "" {
      SplitNoSlash(s[1..]);
      assert [s[0]] + s[1..] == s;
    }
  }

  // ------------------------------------------------------------- wildcards

  predicate NoWild(s: string) {
    '+' !in s && '#' !in s
  }

  /** A filter is well formed when `+` and `#` stand alone in their level and
      `#` stands in the last one. */
  predicate ValidLevels(filter: seq<string>) {
    filter != [] ==>
      filter == ["#"] || ((filter[0] == "+" || NoWild(filter[0])) && ValidLevels(filter[1..]))
  }

  predicate WildFree(levels: seq<string>) {
    forall l :: l in levels ==> NoWild(l)
  }

  lemma {:induction false} SplitNoWild(s: string)
    ensures WildFree(Split(s)) <==> NoWild(s)
  {
    if s != "" {
      SplitNoWild(s[1..]);
      var rest := Split(s[1..]);
      assert s == [s[0]] + s[1..];
      if s[0] == '/' {
        assert forall l :: l in Split(s) <==> l == "" || l in rest;
      } else {
        var first := [s[0]] + rest[0];
        assert forall l :: l in Split(s) <==> l == first || l in rest[1..];
        assert forall l :: l in rest <==> l == rest[0] || l in rest[1..];
        assert NoWild(first) <==> s[0] != '+' && s[0] != '#' && NoWild(rest[0]);
      }
    }
  }

  // --------------------------------------------------- meaning of a filter

  /** The level-by-level meaning: `+` stands for one level, a final `#` for
      any number of levels, none included. */
  predicate LevelsMatch(filter: seq<string>, topic: seq<string>) {
    if filter == [] then topic == []
    else if filter == ["#"] then true
    else topic != [] && (filter[0] == "+" || filter[0] == topic[0]) && LevelsMatch(filter[1..], topic[1..])
  }

  predicate Dollar(s: string) {
    s != "" && s[0] == '$'
  }

  /** A filter matches a topic when the levels match and the two agree on
      starting with `$`. */
  predicate Matches(filter: string, topic: string) {
    Dollar(filter) == Dollar(topic) && LevelsMatch(Split(filter), Split(topic))
  }

  // --------------------------------------------------------- the tokeniser

  /** What the broker's tokeniser computes: the levels, behind an empty token
      unless the string starts with `$`. */
  function Tokens(s: string): (tokens: seq<string>)
    ensures |tokens| >= 1
  {
    (if Dollar(s) then [] else [""]) + Split(s)
  }

  method Tokenise(subtopic: string) returns (tokens: seq<string>)
    ensures tokens == Tokens(subtopic)
  {
    tokens := [];
    if !(subtopic != "" && subtopic[0] == '$') {
      tokens := tokens + [""];
    }
    var len := |subtopic|;
    var start := 0;
    if subtopic != "" && subtopic[0] == '/' {
      tokens := tokens + [""];
      start := 1;
    }
    FirstCut(subtopic, tokens, start);
    var stop := 0;
    var i := start;
    while i < len + 1
      invariant start <= i <= len + 1
      invariant forall k :: start <= k < i <= len ==> subtopic[k] != '/'
      invariant tokens + Uncut(subtopic, start) == Tokens(subtopic)
      invariant i == len + 1 ==> start == len + 1
    {
      if i == len || subtopic[i] == '/' {
        stop := i;
        CutLevel(subtopic, start, stop, tokens);
        tokens := tokens + [subtopic[start..stop]];
        start := i + 1;
      }
      i := i + 1;
    }
  }

  /** The levels still to be cut when the tokeniser stands at `start`. */
  function Uncut(s: string, start: nat): seq<string> {
    if start <= |s| then Split(s[start..]) else []
  }

  lemma FirstCut(s: string, tokens: seq<string>, start: nat)
    requires tokens == (if Dollar(s) then [] else [""]) + (if s != "" && s[0] == '/' then [""] else [])
    requires start == if s != "" && s[0] == '/' then 1 else 0
    ensures tokens + Uncut(s, start) == Tokens(s)
  {
    assert s[0..] == s;
  }

  lemma CutLevel(s: string, start: nat, stop: nat, tokens: seq<string>)
    requires start <= stop <= |s| && forall k :: start <= k < stop ==> s[k] != '/'
    requires stop < |s| ==> s[stop] == '/'
    ensures tokens + Uncut(s, start) == tokens + [s[start..stop]] + Uncut(s, stop + 1)
  {
    var rest := s[start..];
    assert rest[..stop - start] == s[start..stop];
    if stop < |s| {
      SplitAtSlash(rest, stop - start);
      assert rest[stop - start + 1..] == s[stop + 1..];
    } else {
      assert rest == s[start..stop];
      SplitNoSlash(rest);
    }
    assert Uncut(s, start) == [s[start..stop]] + Uncut(s, stop + 1);
  }

  lemma {:induction false} TokensFirst(s: string)
    ensures Tokens(s)[0] == if Dollar(s) then Split(s)[0] else ""
    ensures Dollar(s) ==> Dollar(Tokens(s)[0])
  {
  }

  /** Two strings with the same tokens are the same string, so a path of the
      subscription tree belongs to one filter only. */
  lemma TokensInjective(a: string, b: string)
    requires Tokens(a) == Tokens(b)
    ensures a == b
  {
    TokensFirst(a);
    TokensFirst(b);
    assert Dollar(a) == Dollar(b);
    assert Split(a) == Tokens(a)[|Tokens(a)| - |Split(a)|..];
    assert Split(b) == Tokens(b)[|Tokens(b)| - |Split(b)|..];
    JoinSplit(a);
    JoinSplit(b);
  }

  /** Matching the tokens is matching the strings; the rule about `$` comes
      for free from the first token. */
  lemma TokensMatch(filter: string, topic: string)
    requires ValidLevels(Split(filter)) && NoWild(topic)
    ensures Tokens(filter)[0] == Tokens(topic)[0] && LevelsMatch(Tokens(filter), Tokens(topic))
       <==> Matches(filter, topic)
  {
    SplitNoWild(topic);
    TokensFirst(filter);
    TokensFirst(topic);
    var f, t := Tokens(filter), Tokens(topic);
    if Dollar(filter) == Dollar(topic) {
      if !Dollar(filter) {
        assert f[1..] == Split(filter) && t[1..] == Split(topic);
        assert f != ["#"];
      } else {
        assert f == Split(filter) && t == Split(topic);
        assert Split(filter)[0][0] == '$';
        assert Split(filter)[0] != "+" && Split(filter) != ["#"];
      }
    }
  }

  // ----------------------------------------------------- the syntax checks

  method PubTopicCheck(str: string) returns (ok: bool)
    ensures ok <==> NoWild(str) && |str| <= MAX_TOPIC
  {
    var len := 0;
    while len < |str|
      invariant 0 <= len <= |str|
      invariant NoWild(str[..len])
    {
      if str[len] == '+' || str[len] == '#' {
        return false;
      }
      len := len + 1;
    }
    assert str[..len] == str;
    return len <= MAX_TOPIC;
  }

  /** The three filter shapes this copy of the library turns away although
      the protocol allows them. */
  predicate RefusedShape(str: string) {
    str == "#" || str == "+" || (|str| >= 2 && str[0] == '+' && str[1] == '/')
  }

  predicate SubTopicOk(str: string) {
    !RefusedShape(str) && ValidLevels(Split(str)) && |str| <= MAX_TOPIC
  }

  /** The part of a filter from some position on is well formed; `start` says
      whether the position is the start of a level. */
  predicate ValidRest(start: bool, rest: seq<string>)
    requires rest != []
  {
    if start then ValidLevels(rest) else NoWild(rest[0]) && ValidLevels(rest[1..])
  }

  /** How the syntax condition moves over one character. */
  lemma ValidStep(start: bool, s: string)
    requires s != ""
    ensures s[0] == '+' ==>
              (ValidRest(start, Split(s)) <==>
               start && (|s| == 1 || s[1] == '/') && ValidRest(false, Split(s[1..])))
    ensures s[0] == '#' ==> (ValidRest(start, Split(s)) <==> start && |s| == 1)
    ensures s[0] != '+' && s[0] != '#' ==>
              (ValidRest(start, Split(s)) <==> ValidRest(s[0] == '/', Split(s[1..])))
  {
    var rest := Split(s[1..]);
    if s[0] == '/' {
      assert Split(s)[1..] == rest;
    } else {
      var first := [s[0]] + rest[0];
      FirstLevelEmpty(s[1..]);
      FirstLevelWild(s[0], rest[0]);
      var all := Split(s);
      assert all[0] == first && all[1..] == rest[1..];
      if s[0] == '#' {
        assert all == ["#"] <==> |s| == 1 by {
          if |s| == 1 { assert s[1..] == ""; }
        }
        assert !NoWild(first);
      }
    }
  }

  lemma FirstLevelWild(c: char, level: string)
    ensures NoWild([c] + level) <==> c != '+' && c != '#' && NoWild(level)
    ensures [c] + level == "+" <==> c == '+' && level == ""
    ensures [c] + level == "#" <==> c == '#' && level == ""
  {
    var l := [c] + level;
    assert l[0] == c && l[1..] == level;
  }

  lemma FirstLevelEmpty(s: string)
    ensures Split(s)[0] == "" <==> s == "" || s[0] == '/'
    ensures Split(s) == [""] <==> s == ""
  {
  }

  method SubTopicCheck(str: string) returns (ok: bool)
    ensures ok <==> SubTopicOk(str)
  {
    if str == "#" || str == "+" {
      return false;
    }
    if |str| >= 2 && str[0] == '+' && str[1] == '/' {
      return false;
    }
    var start := true;   // no previous character, or a slash
    var len := 0;
    assert str[0..] == str;
    while len < |str|
      invariant 0 <= len <= |str|
      invariant ValidRest(start, Split(str[len..])) <==> ValidLevels(Split(str))
    {
      var rest := str[len..];
      ValidStep(start, rest);
      assert rest[1..] == str[len + 1..];
      if str[len] == '+' {
        if !start || (len + 1 < |str| && str[len + 1] != '/') {
          return false;
        }
      } else if str[len] == '#' {
        if !start || len + 1 < |str| {
          return false;
        }
      }
      start := str[len] == '/';
      len := len + 1;
    }
    assert str[len..] == "" && ValidLevels([""]);
    return len <= MAX_TOPIC;
  }
}
