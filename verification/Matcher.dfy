/** The character-level matcher of the library, and what it decides compared
    with the level-by-level meaning of a filter. */
module Matcher {
  import opened Common
  import opened Topics

  /** `#` would have to stand for no level at all right behind a `+`, as in
      `+/#` against `a`. */
  predicate HashAfterPlus(filter: seq<string>, topic: seq<string>) {
    |filter| >= 2 && |topic| == |filter| - 1 && filter[|filter| - 1] == "#" && filter[|filter| - 2] == "+"
  }

  /** A `#` behind other levels would have to stand for one empty level at
      the end of the topic, as in `a/#` against `a/`. */
  predicate HashForEmptyEnd(filter: seq<string>, topic: seq<string>) {
    |filter| >= 2 && |topic| == |filter| && filter[|filter| - 1] == "#" && topic[|topic| - 1] == ""
  }

  /** What the matcher decides for well-formed arguments. */
  predicate Decides(filter: string, topic: string) {
    var f, t := Split(filter), Split(topic);
    Matches(filter, topic) && !HashAfterPlus(f, t) && !HashForEmptyEnd(f, t)
  }

  method TopicMatchesSub(sub: string, topic: string) returns (result: Option<bool>)
    ensures result == None <==> sub == "" && topic == ""
    ensures sub != "" && topic != "" && ValidLevels(Split(sub)) && NoWild(topic)
            ==> result == Some(Decides(sub, topic))
  {
    result := None;
    var multilevelWildcard := false;
    var slen, tlen := |sub|, |topic|;
    if slen > 0 && tlen > 0 {
      if (sub[0] == '$' && topic[0] != '$') || (topic[0] == '$' && sub[0] != '$') {
        return Some(false);
      }
    }
    var spos, tpos := 0, 0;
    ghost var checked := sub != "" && topic != "" && ValidLevels(Split(sub)) && NoWild(topic);
    ghost var at := LevelStart;
    if checked { AtStart(sub, topic); }
    while spos < slen && tpos < tlen
      invariant spos <= slen && tpos <= tlen
      invariant result == None && !multilevelWildcard
      invariant spos == slen && tpos == tlen ==> slen == 0 && tlen == 0
      invariant checked ==> OnTrack(sub, topic, spos, tpos, at)
      decreases slen - spos + tlen - tpos
    {
      if sub[spos] == topic[tpos] {
        if checked { OnEqual(sub, topic, spos, tpos, at); }
        at := After(sub[spos]);
        if tpos == tlen - 1 {
          if spos == slen - 3 && sub[spos + 1] == '/' && sub[spos + 2] == '#' {
            multilevelWildcard := true;
            return Some(true);
          }
        }
        spos := spos + 1;
        tpos := tpos + 1;
        if spos == slen && tpos == tlen {
          return Some(true);
        } else if tpos == tlen && spos == slen - 1 && sub[spos] == '+' {
          spos := spos + 1;
          return Some(true);
        }
      } else {
        if sub[spos] == '+' {
          spos := spos + 1;
          ghost var from := tpos;
          while tpos < tlen && topic[tpos] != '/'
            invariant from <= tpos <= tlen
            invariant forall k :: from <= k < tpos ==> topic[k] != '/'
          {
            tpos := tpos + 1;
          }
          if checked { OnPlus(sub, topic, spos - 1, from, tpos, at); }
          at := AfterPlus;
          if tpos == tlen && spos == slen {
            return Some(true);
          }
        } else if sub[spos] == '#' {
          if checked { OnHash(sub, topic, spos, tpos, at); }
          multilevelWildcard := true;
          if spos + 1 != slen {
            return Some(false);
          } else {
            return Some(true);
          }
        } else {
          if checked { OnDiffer(sub, topic, spos, tpos, at); }
          return Some(false);
        }
      }
    }
    if checked { OnEnd(sub, topic, spos, tpos, at); }
    if !multilevelWildcard && (tpos < tlen || spos < slen) {
      result := Some(false);
    }
  }

  // --------------------------------------------- steps of the two cursors

  /** The invariant of the loop: the rests at the cursors deserve the verdict
      the whole strings deserve. */
  ghost predicate OnTrack(sub: string, topic: string, spos: nat, tpos: nat, at: Place) {
    spos <= |sub| && tpos <= |topic| &&
    Good(at, sub[spos..], topic[tpos..]) &&
    (Outlook(at, sub[spos..], topic[tpos..]) <==> Decides(sub, topic)) &&
    (tpos == |topic| ==> Exhausted(at, sub[spos..]))
  }

  lemma AtStart(sub: string, topic: string)
    requires sub != "" && topic != "" && ValidLevels(Split(sub)) && NoWild(topic) && Dollar(sub) == Dollar(topic)
    ensures OnTrack(sub, topic, 0, 0, LevelStart)
  {
    assert sub[0..] == sub && topic[0..] == topic;
    FirstLevelEmpty(topic);
  }

  lemma OnEqual(sub: string, topic: string, spos: nat, tpos: nat, at: Place)
    requires OnTrack(sub, topic, spos, tpos, at)
    requires spos < |sub| && tpos < |topic| && sub[spos] == topic[tpos]
    ensures tpos == |topic| - 1 && spos == |sub| - 3 && sub[spos + 1] == '/' && sub[spos + 2] == '#'
            ==> Decides(sub, topic)
    ensures tpos == |topic| - 1 && spos == |sub| - 1 ==> Decides(sub, topic)
    ensures tpos == |topic| - 1 && spos == |sub| - 2 && sub[spos + 1] == '+' ==> Decides(sub, topic)
    ensures OnTrack(sub, topic, spos + 1, tpos + 1, After(sub[spos])) ||
            (tpos == |topic| - 1 && ShortEnd(sub[spos + 1..]))
  {
    var s, t := sub[spos..], topic[tpos..];
    StepEqual(at, s, t);
    assert s[1..] == sub[spos + 1..] && t[1..] == topic[tpos + 1..];
    ShortEnds(s[1..]);
  }

  ghost predicate ShortEnd(s: string) {
    s == "/#" || s == "" || s == "+"
  }

  lemma ShortEnds(s: string)
    ensures ShortEnd(s) <==> (|s| == 2 && s[0] == '/' && s[1] == '#') || |s| == 0 || (|s| == 1 && s[0] == '+')
  {
  }

  lemma OnPlus(sub: string, topic: string, spos: nat, from: nat, tpos: nat, at: Place)
    requires OnTrack(sub, topic, spos, from, at)
    requires spos < |sub| && from < |topic| && sub[spos] == '+' && from <= tpos <= |topic|
    requires forall k :: from <= k < tpos ==> topic[k] != '/'
    requires tpos < |topic| ==> topic[tpos] == '/'
    ensures OnTrack(sub, topic, spos + 1, tpos, AfterPlus)
    ensures tpos == |topic| && spos + 1 == |sub| ==> Decides(sub, topic)
  {
    var s, t := sub[spos..], topic[from..];
    assert s[1..] == sub[spos + 1..] && t[tpos - from..] == topic[tpos..];
    StepPlus(at, s, t, tpos - from);
  }

  lemma OnHash(sub: string, topic: string, spos: nat, tpos: nat, at: Place)
    requires OnTrack(sub, topic, spos, tpos, at)
    requires spos < |sub| && tpos < |topic| && sub[spos] == '#'
    ensures spos + 1 == |sub| && Decides(sub, topic)
  {
    StepHash(at, sub[spos..], topic[tpos..]);
  }

  lemma OnDiffer(sub: string, topic: string, spos: nat, tpos: nat, at: Place)
    requires OnTrack(sub, topic, spos, tpos, at) && spos < |sub| && tpos < |topic|
    requires sub[spos] != topic[tpos] && sub[spos] != '+' && sub[spos] != '#'
    ensures !Decides(sub, topic)
  {
    StepDiffer(at, sub[spos..], topic[tpos..]);
  }

  lemma OnEnd(sub: string, topic: string, spos: nat, tpos: nat, at: Place)
    requires OnTrack(sub, topic, spos, tpos, at)
    requires (spos == |sub| || tpos == |topic|) && (spos < |sub| || tpos < |topic|)
    ensures !Decides(sub, topic)
  {
    StepEnd(at, sub[spos..], topic[tpos..]);
  }

  // ------------------------------------------- where the two cursors stand

  datatype Place = LevelStart | MidLevel | AfterPlus

  /** The cursors stand at well-formed rests: inside a level, or behind a `+`
      whose level has been skipped in the topic. */
  ghost predicate Good(at: Place, s: string, t: string) {
    NoWild(t) &&
    match at
    case LevelStart => ValidRest(true, Split(s))
    case MidLevel => ValidRest(false, Split(s))
    case AfterPlus => ValidRest(false, Split(s)) && (s == "" || s[0] == '/') && (t == "" || t[0] == '/')
  }

  /** The verdict the rests deserve when their levels are compared, the two
      exceptions taken out. */
  ghost predicate Verdict(f: seq<string>, t: seq<string>) {
    LevelsMatch(f, t) && !HashAfterPlus(f, t) && !(f == ["#"] && t == [""]) && !HashForEmptyEnd(f, t)
  }

  ghost predicate Outlook(at: Place, s: string, t: string) {
    var f := Split(s);
    match at
    case LevelStart => Verdict(f, Split(t))
    case MidLevel => f[0] == Split(t)[0] && Verdict(f, Split(t))
    case AfterPlus => Verdict(["+"] + f[1..], Split(t))
  }

  /** When the topic ends first the two rests the code looks ahead for have
      already been answered. */
  ghost predicate Exhausted(at: Place, s: string) {
    at != AfterPlus ==> !ShortEnd(s)
  }

  lemma SplitHead(s: string)
    requires s != ""
    ensures s[0] == '/' ==> Split(s)[0] == "" && Split(s)[1..] == Split(s[1..])
    ensures s[0] != '/' ==> Split(s)[0] == [s[0]] + Split(s[1..])[0] && Split(s)[1..] == Split(s[1..])[1..]
  {
  }

  lemma StepHash(at: Place, s: string, t: string)
    requires Good(at, s, t) && s != "" && t != "" && s[0] == '#'
    ensures at == LevelStart && |s| == 1 && Outlook(at, s, t)
  {
    ValidStep(at == LevelStart, s);
    FirstLevelEmpty(t);
    assert Split(s) == ["#"] by { SplitNoSlash(s); }
  }

  lemma StepDiffer(at: Place, s: string, t: string)
    requires Good(at, s, t) && s != "" && t != "" && s[0] != t[0] && s[0] != '+' && s[0] != '#'
    ensures !Outlook(at, s, t)
  {
    SplitHead(s);
    SplitHead(t);
    var f, l := Split(s), Split(t);
    assert f[0] != l[0];
    if s[0] != '/' { assert f[0][0] == s[0]; }
    assert f[0] != "+" && f != ["#"];
  }

  lemma VerdictTail(f: seq<string>, t: seq<string>)
    requires f != [] && f != ["#"] && |t| >= 2 && (f[0] == "+" || f[0] == t[0])
    ensures Verdict(f, t) <==> Verdict(f[1..], t[1..])
  {
  }

  /** Dropping the same character from two literal first levels. */
  lemma VerdictShorter(c: char, x: string, y: string, f: seq<string>, t: seq<string>)
    requires NoWild([c] + x)
    ensures x == y && Verdict([x] + f, [y] + t) <==> Verdict([[c] + x] + f, [[c] + y] + t)
  {
    FirstLevelWild(c, x);
    var cx, cy := [c] + x, [c] + y;
    assert cx[1..] == x && cy[1..] == y;
    LiteralHead(x, y, f, t);
    LiteralHead(cx, cy, f, t);
  }

  lemma LiteralHead(x: string, y: string, f: seq<string>, t: seq<string>)
    requires NoWild(x)
    ensures LevelsMatch([x] + f, [y] + t) <==> x == y && LevelsMatch(f, t)
    ensures [x] + f != ["#"]
  {
    var g, l := [x] + f, [y] + t;
    assert g[0] == x && l[0] == y && g[1..] == f && l[1..] == t;
    assert x != "+" && x != "#";
  }

  ghost function After(c: char): Place {
    if c == '/' then LevelStart else MidLevel
  }

  lemma StepEqual(at: Place, s: string, t: string)
    requires Good(at, s, t) && s != "" && t != "" && s[0] == t[0]
    ensures Good(After(s[0]), s[1..], t[1..])
    ensures Outlook(After(s[0]), s[1..], t[1..]) <==> Outlook(at, s, t)
    ensures |t| == 1 && (s[1..] == "/#" || s[1..] == "" || s[1..] == "+") ==> Outlook(at, s, t)
  {
    assert s[0] != '+' && s[0] != '#';
    ValidStep(at == LevelStart, s);
    StepEqualOutlook(at, s, t);
    if |t| == 1 {
      assert t[1..] == "";
      SplitShort(s[1..]);
      if s[1..] == "+" {
        ValidStep(s[0] == '/', s[1..]);
        assert s[0] == '/';
      }
    }
  }

  lemma SplitShort(s: string)
    ensures s == "/#" ==> Split(s) == ["", "#"]
    ensures s == "" ==> Split(s) == [""]
    ensures s == "+" ==> Split(s) == ["+"]
  {
    if s == "/#" {
      assert s[1..] == "#";
      SplitNoSlash("#");
    } else if s == "+" {
      SplitNoSlash(s);
    }
  }

  lemma StepEqualOutlook(at: Place, s: string, t: string)
    requires Good(at, s, t) && s != "" && t != "" && s[0] == t[0] && s[0] != '+' && s[0] != '#'
    ensures Outlook(After(s[0]), s[1..], t[1..]) <==> Outlook(at, s, t)
  {
    SplitHead(s);
    SplitHead(t);
    var f, l, f', l' := Split(s), Split(t), Split(s[1..]), Split(t[1..]);
    if s[0] == '/' {
      var g := if at == AfterPlus then ["+"] + f[1..] else f;
      assert g[1..] == f' && l[1..] == l';
      VerdictTail(g, l);
    } else {
      var x, y := f'[0], l'[0];
      ValidStep(at == LevelStart, s);
      assert NoWild(x);
      FirstLevelWild(s[0], x);
      VerdictShorter(s[0], x, y, f'[1..], l'[1..]);
      assert f' == [x] + f'[1..] && l' == [y] + l'[1..];
      assert f == [[s[0]] + x] + f'[1..] && l == [[s[0]] + y] + l'[1..];
      assert Verdict(f, l) ==> f[0] == l[0];
    }
  }

  /** A `+` swallows the rest of the current level of the topic. */
  lemma StepPlus(at: Place, s: string, t: string, n: nat)
    requires Good(at, s, t) && s != "" && t != "" && s[0] == '+'
    requires n <= |t| && (forall k :: 0 <= k < n ==> t[k] != '/') && (n < |t| ==> t[n] == '/')
    ensures at == LevelStart && Good(AfterPlus, s[1..], t[n..])
    ensures Outlook(AfterPlus, s[1..], t[n..]) <==> Outlook(at, s, t)
    ensures n == |t| && s[1..] == "" ==> Outlook(at, s, t)
  {
    ValidStep(at == LevelStart, s);
    SplitHead(s);
    FirstLevelEmpty(s[1..]);
    var f, l := Split(s), Split(t);
    assert f[0] == "+" && f == ["+"] + Split(s[1..])[1..];
    assert l[1..] == Split(t[n..])[1..] && Split(t[n..])[0] == "" by {
      assert t[..n] + t[n..] == t;
      if n < |t| {
        SplitAtSlash(t, n);
        assert t[n..][1..] == t[n + 1..];
      } else {
        SplitNoSlash(t);
        assert t[n..] == "";
      }
    }
    PlusIgnores(f, l, Split(t[n..]));
    if n == |t| && s[1..] == "" {
      SplitNoSlash(t);
    }
  }

  lemma PlusIgnores(f: seq<string>, l: seq<string>, l': seq<string>)
    requires f != [] && f[0] == "+" && l != [] && l' != [] && l[1..] == l'[1..]
    ensures Verdict(f, l) <==> Verdict(f, l')
  {
    assert |l| == |l'| && (|l| > 1 ==> l[|l| - 1] == l[1..][|l| - 2]);
    assert |l| > 1 ==> l'[|l| - 1] == l'[1..][|l| - 2];
  }

  /** One of the two ran out first: nothing is left that could match. */
  lemma StepEnd(at: Place, s: string, t: string)
    requires Good(at, s, t) && (s == "" || t == "") && (s != "" || t != "")
    requires t == "" ==> Exhausted(at, s)
    ensures !Outlook(at, s, t)
  {
    var f, l := Split(s), Split(t);
    var g := if at == AfterPlus then ["+"] + f[1..] else f;
    assert g[1..] == f[1..] && f == [f[0]] + f[1..];
    FirstLevelEmpty(t);
    if t == "" {
      UnsplitShort(s);
      AgainstEmpty(g);
      assert Split(t) == [""];
    } else {
      assert s == "" && f == [""];
      SplitHead(t);
      AgainstOne(g, l);
    }
  }

  lemma UnsplitShort(s: string)
    ensures Split(s) == ["", "#"] ==> s == "/#"
    ensures Split(s) == ["+"] ==> s == "+"
    ensures Split(s) == [""] ==> s == ""
  {
    JoinSplit(s);
    assert ["", "#"][1..] == ["#"];
    assert Join(["", "#"]) == "" + "/" + Join(["#"]) == "/#";
  }

  lemma AgainstEmpty(g: seq<string>)
    requires g != []
    ensures LevelsMatch(g, [""]) <==>
            g == ["#"] || ((g[0] == "+" || g[0] == "") && (g[1..] == [] || g[1..] == ["#"]))
  {
    assert [""][1..] == [];
    assert LevelsMatch(g[1..], []) <==> g[1..] == [] || g[1..] == ["#"];
  }

  lemma AgainstOne(g: seq<string>, l: seq<string>)
    requires |g| == 1 && g != ["#"] && l != []
    ensures LevelsMatch(g, l) <==> (g[0] == "+" || g[0] == l[0]) && |l| == 1
  {
    assert g[1..] == [];
    assert LevelsMatch(g[1..], l[1..]) <==> l[1..] == [];
  }
}
