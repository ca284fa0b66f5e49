/** Topic (the older broker tree): parsing a topic or topic filter into
    tokens, matching a topic against a filter, and the per-topic set of
    subscribed client ids (MQTT 3.1.1 section 4.7). */
module TopicFilter {

  import opened Wrappers

  /** Token is not part of this model; its four kinds are the empty level,
      the single-level wildcard `+`, the multi-level wildcard `#` and a
      literal level name. */
  datatype Token = EMPTY | SINGLE | MULTI | Literal(name: string)

  /** Token.toString, taken to print a token as the level it was parsed from. */
  function TokenText(t: Token): string {
    match t
    case EMPTY => ""
    case SINGLE => "+"
    case MULTI => "#"
    case Literal(s) => s
  }

  /* ---------------- String.split("/") ---------------- */

  /** Every piece between two separators, the empty ones included. */
  function Pieces(s: string): (r: seq<string>)
    ensures |r| >= 1
    ensures forall i | 0 <= i < |r| :: '/' !in r[i]
  {
    if |s| == 0 then [""]
    else
      var rest := Pieces(s[1..]);
      if s[0] == '/' then [""] + rest else [[s[0]] + rest[0]] + rest[1..]
  }

  /** String.join("/", ps). */
  function Join(ps: seq<string>): string {
    if |ps| == 0 then ""
    else if |ps| == 1 then ps[0]
    else ps[0] + "/" + Join(ps[1..])
  }

  /** Splitting and joining again gives the string back: the pieces are the
      whole string, cut exactly at the separators. */
  lemma {:induction false} PiecesJoin(s: string)
    ensures Join(Pieces(s)) == s
  {
    if |s| > 0 {
      PiecesJoin(s[1..]);
      var rest := Pieces(s[1..]);
      if s[0] == '/' {
        assert Pieces(s) == [""] + rest;
        assert s == "/" + s[1..];
      } else if |rest| == 1 {
        assert Pieces(s) == [[s[0]] + rest[0]];
        assert s == [s[0]] + s[1..];
      } else {
        var ps := Pieces(s);
        assert ps == [[s[0]] + rest[0]] + rest[1..];
        assert ps[1..] == rest[1..];
        assert Join(rest) == rest[0] + "/" + Join(rest[1..]);
        assert s == [s[0]] + s[1..];
      }
    }
  }

  /** Every character of a piece occurs in the string. */
  lemma {:induction false} PiecesChars(s: string, i: nat, c: char)
    requires i < |Pieces(s)| && c in Pieces(s)[i]
    ensures c in s
  {
    if |s| > 0 {
      var rest := Pieces(s[1..]);
      if s[0] == '/' {
        PiecesChars(s[1..], i - 1, c);
      } else if i == 0 {
        if c != s[0] {
          assert c in rest[0];
          PiecesChars(s[1..], 0, c);
        }
      } else {
        PiecesChars(s[1..], i, c);
      }
    }
  }

  /** A string without separator is a single piece. */
  lemma {:induction false} PiecesNoSeparator(s: string)
    requires '/' !in s
    ensures Pieces(s) == [s]
  {
    if |s| > 0 {
      PiecesNoSeparator(s[1..]);
      assert s == [s[0]] + s[1..];
    }
  }

  /** The trailing empty strings that a split with limit 0 discards. */
  function DropTrailingEmpty(ps: seq<string>): (r: seq<string>)
    ensures |r| <= |ps| && r == ps[..|r|]
    ensures |r| > 0 ==> r[|r| - 1] != ""
    ensures forall i | |r| <= i < |ps| :: ps[i] == ""
  {
    if |ps| == 0 then []
    else if ps[|ps| - 1] == "" then DropTrailingEmpty(ps[..|ps| - 1])
    else ps
  }

  /** String.split("/"): a string without separator is its own single piece
      (so "" splits to [""]); otherwise the pieces without the trailing empty
      ones (so "/" splits to nothing). */
  function JavaSplit(s: string): (r: seq<string>)
    ensures forall i | 0 <= i < |r| :: '/' !in r[i]
  {
    if '/' !in s then [s] else DropTrailingEmpty(Pieces(s))
  }

  predicate EndsWithSlash(s: string) {
    |s| > 0 && s[|s| - 1] == '/'
  }

  /* ---------------- parseTopic ---------------- */

  /** The segments parseTopic walks: the split, plus one empty segment when
      the topic ends with a separator. */
  function Segments(topic: string): seq<string> {
    JavaSplit(topic) + (if EndsWithSlash(topic) then [""] else [])
  }

  /** The EMPTY token parseTopic adds before the walk when the split is empty. */
  function Prefix(topic: string): seq<Token> {
    if |JavaSplit(topic)| == 0 then [EMPTY] else []
  }

  /** The token for one segment, None for a ParseException: `#` only as the
      last segment, and no `#` or `+` inside a longer segment. */
  function SegmentToken(s: string, isLast: bool): Option<Token> {
    if s == "" then Some(EMPTY)
    else if s == "#" then (if isLast then Some(MULTI) else None)
    else if '#' in s then None
    else if s == "+" then Some(SINGLE)
    else if '+' in s then None
    else Some(Literal(s))
  }

  /** The tokens of the first n segments, or the index of the first segment
      that does not parse. */
  function ParsePrefix(segs: seq<string>, n: nat): Result<seq<Token>, nat>
    requires n <= |segs|
  {
    if n == 0 then Success([])
    else match ParsePrefix(segs, n - 1)
      case Failure(i) => Failure(i)
      case Success(ts) =>
        match SegmentToken(segs[n - 1], n - 1 == |segs| - 1)
        case None => Failure(n - 1)
        case Some(t) => Success(ts + [t])
  }

  /** ParseException, with the index of the offending segment. */
  datatype ParseException = ParseException(index: nat)

  function ParseTopicSpec(topic: string): Result<seq<Token>, ParseException> {
    var segs := Segments(topic);
    match ParsePrefix(segs, |segs|)
    case Success(ts) => Success(Prefix(topic) + ts)
    case Failure(i) => Failure(ParseException(i))
  }

  lemma {:induction false} ErrorPersists(segs: seq<string>, n: nat, i: nat)
    requires n <= |segs| && ParsePrefix(segs, n) == Failure(i)
    ensures ParsePrefix(segs, |segs|) == Failure(i)
    decreases |segs| - n
  {
    if n < |segs| {
      ErrorPersists(segs, n + 1, i);
    }
  }

  /** One segment more of the parse. */
  lemma ParsePrefixStep(segs: seq<string>, i: nat, t: Token)
    requires i < |segs| && ParsePrefix(segs, i).Success?
    requires SegmentToken(segs[i], i == |segs| - 1) == Some(t)
    ensures ParsePrefix(segs, i + 1) == Success(ParsePrefix(segs, i).value + [t])
  {
  }

  /** The segment that stops the parse. */
  lemma ParsePrefixFails(segs: seq<string>, i: nat)
    requires i < |segs| && ParsePrefix(segs, i).Success?
    requires SegmentToken(segs[i], i == |segs| - 1).None?
    ensures ParsePrefix(segs, |segs|) == Failure(i)
  {
    ErrorPersists(segs, i + 1, i);
  }

  /** A non-empty level name without wildcards is a literal token. */
  lemma NameToken(s: string, isLast: bool)
    requires s != "" && '#' !in s && '+' !in s
    ensures SegmentToken(s, isLast) == Some(Literal(s))
  {
  }

  /** parseTopic: the loop that builds the token list. */
  method ParseTopic(topic: string) returns (r: Result<seq<Token>, ParseException>)
    ensures r == ParseTopicSpec(topic)
  {
    var res: seq<Token> := [];
    var splitted := JavaSplit(topic);
    if |splitted| == 0 {
      res := res + [EMPTY];
    }
    if EndsWithSlash(topic) {
      splitted := splitted + [""];
    }
    assert splitted == Segments(topic) && res == Prefix(topic);
    ghost var done: seq<Token> := [];
    var i := 0;
    while i < |splitted|
      invariant 0 <= i <= |splitted|
      invariant ParsePrefix(splitted, i) == Success(done)
      invariant res == Prefix(topic) + done
    {
      var s := splitted[i];
      var token: Token;
      if s == "" {
        token := EMPTY;
      } else if s == "#" {
        if i != |splitted| - 1 {
          ParsePrefixFails(splitted, i);
          return Failure(ParseException(i));
        }
        token := MULTI;
      } else if '#' in s {
        ParsePrefixFails(splitted, i);
        return Failure(ParseException(i));
      } else if s == "+" {
        token := SINGLE;
      } else if '+' in s {
        ParsePrefixFails(splitted, i);
        return Failure(ParseException(i));
      } else {
        token := Literal(s);
      }
      ParsePrefixStep(splitted, i, token);
      assert res + [token] == Prefix(topic) + (done + [token]);
      res := res + [token];
      done := done + [token];
      i := i + 1;
    }
    return Success(res);
  }

  /* ---------------- properties of the parse ---------------- */

  lemma {:induction false} ParsePrefixTokens(segs: seq<string>, n: nat)
    requires n <= |segs| && ParsePrefix(segs, n).Success?
    ensures |ParsePrefix(segs, n).value| == n
    ensures forall k | 0 <= k < n ::
      SegmentToken(segs[k], k == |segs| - 1) == Some(ParsePrefix(segs, n).value[k])
  {
    if n > 0 {
      ParsePrefixTokens(segs, n - 1);
    }
  }

  lemma {:induction false} ParsePrefixSucceeds(segs: seq<string>, n: nat)
    requires n <= |segs|
    requires forall k | 0 <= k < n :: SegmentToken(segs[k], k == |segs| - 1).Some?
    ensures ParsePrefix(segs, n).Success?
  {
    if n > 0 {
      ParsePrefixSucceeds(segs, n - 1);
    }
  }

  lemma {:induction false} ParsePrefixFirstError(segs: seq<string>, n: nat)
    requires n <= |segs| && ParsePrefix(segs, n).Failure?
    ensures ParsePrefix(segs, n).error < n
    ensures SegmentToken(segs[ParsePrefix(segs, n).error], ParsePrefix(segs, n).error == |segs| - 1).None?
    ensures forall k | 0 <= k < ParsePrefix(segs, n).error :: SegmentToken(segs[k], k == |segs| - 1).Some?
  {
    if ParsePrefix(segs, n - 1).Failure? {
      ParsePrefixFirstError(segs, n - 1);
    } else {
      ParsePrefixTokens(segs, n - 1);
    }
  }

  /** Parsing succeeds exactly when every segment has a token; the tokens are
      then the prefix followed by one token per segment, in order. */
  lemma ParseTopicTokens(topic: string)
    ensures ParseTopicSpec(topic).Success? <==>
      forall k | 0 <= k < |Segments(topic)| :: SegmentToken(Segments(topic)[k], k == |Segments(topic)| - 1).Some?
    ensures ParseTopicSpec(topic).Success? ==>
      var ts := ParseTopicSpec(topic).value;
      var segs := Segments(topic);
      var off := |Prefix(topic)|;
      && |ts| == off + |segs|
      && ts[..off] == Prefix(topic)
      && forall k | 0 <= k < |segs| :: SegmentToken(segs[k], k == |segs| - 1) == Some(ts[off + k])
  {
    var segs := Segments(topic);
    if forall k | 0 <= k < |segs| :: SegmentToken(segs[k], k == |segs| - 1).Some? {
      ParsePrefixSucceeds(segs, |segs|);
    }
    if ParsePrefix(segs, |segs|).Success? {
      ParsePrefixTokens(segs, |segs|);
    } else {
      ParsePrefixFirstError(segs, |segs|);
    }
  }

  /** The exception names the first segment that does not parse. */
  lemma ParseErrorIsFirst(topic: string)
    requires ParseTopicSpec(topic).Failure?
    ensures var i := ParseTopicSpec(topic).error.index;
      var segs := Segments(topic);
      && i < |segs|
      && SegmentToken(segs[i], i == |segs| - 1).None?
      && forall k | 0 <= k < i :: SegmentToken(segs[k], k == |segs| - 1).Some?
  {
    ParsePrefixFirstError(Segments(topic), |Segments(topic)|);
  }

  /** What a segment's token says about the segment. */
  lemma SegmentTokenShape(s: string, isLast: bool)
    requires SegmentToken(s, isLast).Some?
    ensures SegmentToken(s, isLast).value == MULTI ==> isLast
    ensures SegmentToken(s, isLast).value.Literal? ==>
      SegmentToken(s, isLast).value.name == s && s != "" && '#' !in s && '+' !in s
  {
  }

  /** No segment contains a separator. */
  lemma SegmentsNoSeparator(topic: string)
    ensures forall k | 0 <= k < |Segments(topic)| :: '/' !in Segments(topic)[k]
  {
    var split := JavaSplit(topic);
    var segs := Segments(topic);
    forall k | 0 <= k < |segs| ensures '/' !in segs[k] {
      if k < |split| {
        assert segs[k] == split[k];
      }
    }
  }

  /** The facts of ParsedTokensWellFormed for the token at one index. */
  lemma ParsedTokenAt(topic: string, k: nat)
    requires ParseTopicSpec(topic).Success? && k < |ParseTopicSpec(topic).value|
    ensures var ts := ParseTopicSpec(topic).value;
      && (ts[k] == MULTI ==> k == |ts| - 1)
      && (ts[k].Literal? ==> ts[k].name != "" && '/' !in ts[k].name && '#' !in ts[k].name && '+' !in ts[k].name)
  {
    ParseTopicTokens(topic);
    var ts := ParseTopicSpec(topic).value;
    var segs := Segments(topic);
    var off := |Prefix(topic)|;
    if k >= off {
      var j := k - off;
      assert SegmentToken(segs[j], j == |segs| - 1) == Some(ts[k]);
      SegmentTokenShape(segs[j], j == |segs| - 1);
      SegmentsNoSeparator(topic);
      assert '/' !in segs[j];
    } else {
      assert ts[k] == Prefix(topic)[k];
    }
  }

  /** A parsed topic has at least one token, `#` only as its last token, and
      literal tokens that are non-empty and free of separators and wildcards. */
  lemma ParsedTokensWellFormed(topic: string)
    requires ParseTopicSpec(topic).Success?
    ensures var ts := ParseTopicSpec(topic).value;
      && |ts| >= 1
      && (forall k | 0 <= k < |ts| && ts[k] == MULTI :: k == |ts| - 1)
      && (forall k | 0 <= k < |ts| && ts[k].Literal? ::
            ts[k].name != "" && '/' !in ts[k].name && '#' !in ts[k].name && '+' !in ts[k].name)
  {
    var ts := ParseTopicSpec(topic).value;
    assert |ts| >= 1 by {
      ParseTopicTokens(topic);
      if |JavaSplit(topic)| > 0 {
        assert |Segments(topic)| >= |JavaSplit(topic)|;
      }
    }
    forall k | 0 <= k < |ts|
      ensures ts[k] == MULTI ==> k == |ts| - 1
      ensures ts[k].Literal? ==> ts[k].name != "" && '/' !in ts[k].name && '#' !in ts[k].name && '+' !in ts[k].name
    {
      ParsedTokenAt(topic, k);
    }
  }

  /** Every character of a segment occurs in the topic. */
  lemma SegmentChars(topic: string, k: nat, c: char)
    requires k < |Segments(topic)| && c in Segments(topic)[k]
    ensures c in topic
  {
    var split := JavaSplit(topic);
    if k < |split| && '/' in topic {
      var ps := Pieces(topic);
      assert split == ps[..|split|];
      assert split[k] == ps[k];
      PiecesChars(topic, k, c);
    }
  }

  /** Each segment of a wildcard-free topic is an empty or a literal level. */
  lemma WildcardFreeSegment(topic: string, k: nat)
    requires '#' !in topic && '+' !in topic && k < |Segments(topic)|
    ensures var t := SegmentToken(Segments(topic)[k], k == |Segments(topic)| - 1);
      t.Some? && (t.value.EMPTY? || t.value.Literal?)
  {
    var segs := Segments(topic);
    if '#' in segs[k] { SegmentChars(topic, k, '#'); }
    if '+' in segs[k] { SegmentChars(topic, k, '+'); }
  }

  /** Each token of a wildcard-free topic is an empty or a literal level. */
  lemma WildcardFreeToken(topic: string, k: nat)
    requires '#' !in topic && '+' !in topic
    requires ParseTopicSpec(topic).Success? && k < |ParseTopicSpec(topic).value|
    ensures ParseTopicSpec(topic).value[k].EMPTY? || ParseTopicSpec(topic).value[k].Literal?
  {
    ParseTopicTokens(topic);
    var segs := Segments(topic);
    var off := |Prefix(topic)|;
    var ts := ParseTopicSpec(topic).value;
    if k >= off {
      WildcardFreeSegment(topic, k - off);
      assert SegmentToken(segs[k - off], k - off == |segs| - 1) == Some(ts[k]);
    } else {
      assert ts[k] == Prefix(topic)[k];
    }
  }

  /** A topic name without wildcard characters always parses, into empty
      and literal tokens only. */
  lemma WildcardFreeParses(topic: string)
    requires '#' !in topic && '+' !in topic
    ensures ParseTopicSpec(topic).Success?
    ensures forall k | 0 <= k < |ParseTopicSpec(topic).value| ::
      ParseTopicSpec(topic).value[k].EMPTY? || ParseTopicSpec(topic).value[k].Literal?
  {
    var segs := Segments(topic);
    forall k | 0 <= k < |segs|
      ensures SegmentToken(segs[k], k == |segs| - 1).Some?
    {
      WildcardFreeSegment(topic, k);
    }
    ParseTopicTokens(topic);
    forall k | 0 <= k < |ParseTopicSpec(topic).value|
      ensures ParseTopicSpec(topic).value[k].EMPTY? || ParseTopicSpec(topic).value[k].Literal?
    {
      WildcardFreeToken(topic, k);
    }
  }

  /** Cutting at the first separator. */
  lemma {:induction false} PiecesFirst(a: string, b: string)
    requires '/' !in a
    ensures Pieces(a + "/" + b) == [a] + Pieces(b)
  {
    if |a| == 0 {
      assert a + "/" + b == "/" + b;
      assert ("/" + b)[1..] == b;
    } else {
      PiecesFirst(a[1..], b);
      assert (a + "/" + b)[1..] == a[1..] + "/" + b;
      assert a == [a[0]] + a[1..];
    }
  }

  /** Joining separator-free levels and splitting again gives the levels
      back (the other half of the round trip in PiecesJoin). */
  lemma {:induction false} PiecesOfJoin(ls: seq<string>)
    requires |ls| >= 1 && forall i | 0 <= i < |ls| :: '/' !in ls[i]
    ensures Pieces(Join(ls)) == ls
  {
    if |ls| == 1 {
      PiecesNoSeparator(ls[0]);
    } else {
      PiecesOfJoin(ls[1..]);
      PiecesFirst(ls[0], Join(ls[1..]));
      assert ls == [ls[0]] + ls[1..];
    }
  }

  lemma {:induction false} JoinLast(ls: seq<string>)
    requires |ls| >= 1
    ensures |ls[|ls| - 1]| > 0 ==> |Join(ls)| > 0 && Join(ls)[|Join(ls)| - 1] == ls[|ls| - 1][|ls[|ls| - 1]| - 1]
    ensures |ls| >= 2 ==> '/' in Join(ls)
  {
    if |ls| >= 2 {
      JoinLast(ls[1..]);
      assert Join(ls) == ls[0] + "/" + Join(ls[1..]);
      assert Join(ls)[|ls[0]|] == '/';
    }
  }

  /** A topic written as levels whose last level is a name has exactly those
      levels as its segments. */
  lemma SegmentsOfLevels(ls: seq<string>)
    requires |ls| >= 1 && forall i | 0 <= i < |ls| :: '/' !in ls[i]
    requires ls[|ls| - 1] != ""
    ensures JavaSplit(Join(ls)) == ls && Segments(Join(ls)) == ls && Prefix(Join(ls)) == []
  {
    JoinLast(ls);
    var last := ls[|ls| - 1];
    assert last[|last| - 1] in last;
    assert !EndsWithSlash(Join(ls));
    if |ls| >= 2 {
      PiecesOfJoin(ls);
    }
  }

  /** A topic joined from levels without separators, the last non-empty,
      parses to the tokens of its levels. */
  lemma ParseJoined(ls: seq<string>, toks: seq<Token>)
    requires |ls| >= 1 && forall i | 0 <= i < |ls| :: '/' !in ls[i]
    requires ls[|ls| - 1] != ""
    requires ParsePrefix(ls, |ls|) == Success(toks)
    ensures ParseTopicSpec(Join(ls)) == Success(toks)
  {
    var topic := Join(ls);
    SegmentsOfLevels(ls);
    assert Segments(topic) == ls && Prefix(topic) == [];
    assert Prefix(topic) + toks == toks;
  }

  lemma JoinThree(a: string, b: string, c: string)
    ensures Join([a, b, c]) == a + "/" + b + "/" + c
  {
    assert [a, b, c][1..] == [b, c];
    assert [b, c][1..] == [c];
    assert Join([b, c]) == b + "/" + c;
    assert Join([a, b, c]) == a + "/" + (b + "/" + c);
    assert a + "/" + (b + "/" + c) == a + "/" + b + "/" + c;
  }

  /** The parse of two levels, each with its token. */
  lemma ParseTwoLevels(a: string, b: string, ta: Token, tb: Token)
    requires SegmentToken(a, false) == Some(ta) && SegmentToken(b, true) == Some(tb)
    ensures ParsePrefix([a, b], 2) == Success([ta, tb])
  {
    var segs := [a, b];
    ParsePrefixStep(segs, 0, ta);
    ParsePrefixStep(segs, 1, tb);
    assert [] + [ta] + [tb] == [ta, tb];
  }

  /** The parse of three levels, each with its token. */
  lemma ParseThreeLevels(a: string, b: string, c: string, ta: Token, tb: Token, tc: Token)
    requires SegmentToken(a, false) == Some(ta) && SegmentToken(b, false) == Some(tb)
    requires SegmentToken(c, true) == Some(tc)
    ensures ParsePrefix([a, b, c], 3) == Success([ta, tb, tc])
  {
    var segs := [a, b, c];
    ParsePrefixStep(segs, 0, ta);
    ParsePrefixStep(segs, 1, tb);
    ParsePrefixStep(segs, 2, tc);
    assert [] + [ta] + [tb] + [tc] == [ta, tb, tc];
  }

  /* Concrete parses of the topics of MQTT 3.1.1 section 4.7. Each fixes its
     topic through a precondition so that the segments are worked out step by
     step rather than by unfolding the split on a literal. */

  /** "sport/+/player1": a single-level wildcard between two names. */
  lemma ParseSingleLevelExample(t: string)
    requires t == "sport/+/player1"
    ensures ParseTopicSpec(t) == Success([Literal("sport"), SINGLE, Literal("player1")])
  {
    assert "sport" + "/" + "+" + "/" + "player1" == t;
    JoinThree("sport", "+", "player1");
    var segs := ["sport", "+", "player1"];
    NameToken("sport", false);
    NameToken("player1", true);
    ParseThreeLevels("sport", "+", "player1", Literal("sport"), SINGLE, Literal("player1"));
    ParseJoined(segs, [Literal("sport"), SINGLE, Literal("player1")]);
  }

  /** "sport/#": a multi-level wildcard as the last level. */
  lemma ParseMultiLevelExample(t: string)
    requires t == "sport/#"
    ensures ParseTopicSpec(t) == Success([Literal("sport"), MULTI])
  {
    var segs := ["sport", "#"];
    NameToken("sport", false);
    ParseTwoLevels("sport", "#", Literal("sport"), MULTI);
    assert Join(segs) == t;
    SegmentsOfLevels(segs);
    assert ParseTopicSpec(t).value == [Literal("sport"), MULTI];
  }

  /** "/finance": a leading separator gives an EMPTY first level. */
  lemma ParseLeadingSeparatorExample(t: string)
    requires t == "/finance"
    ensures ParseTopicSpec(t) == Success([EMPTY, Literal("finance")])
  {
    var segs := ["", "finance"];
    NameToken("finance", true);
    ParseTwoLevels("", "finance", EMPTY, Literal("finance"));
    assert Join(segs) == t;
    SegmentsOfLevels(segs);
    assert ParseTopicSpec(t).value == [EMPTY, Literal("finance")];
  }

  /** "/": the split is empty, so the EMPTY prefix is followed by the EMPTY
      level of the trailing separator. */
  lemma ParseSeparatorOnlyExample(t: string)
    requires t == "/"
    ensures ParseTopicSpec(t) == Success([EMPTY, EMPTY])
  {
    assert Join(["", ""]) == t;
    PiecesOfJoin(["", ""]);
    assert DropTrailingEmpty(["", ""]) == [] by {
      assert ["", ""][..1] == [""];
      assert [""][..0] == [];
    }
    assert JavaSplit(t) == [];
    assert EndsWithSlash(t);
    assert Segments(t) == [""];
    assert ParsePrefix([""], 1).value == [EMPTY];
    assert Prefix(t) == [EMPTY];
    assert ParseTopicSpec(t).value == [EMPTY, EMPTY];
  }

  /** "": no separator, one EMPTY level. */
  lemma ParseEmptyExample(t: string)
    requires t == ""
    ensures ParseTopicSpec(t) == Success([EMPTY])
  {
    assert Segments(t) == [""];
    assert ParsePrefix([""], 1).value == [EMPTY];
    assert ParseTopicSpec(t).value == [EMPTY];
  }

  /** "a//": the split drops both trailing empty pieces, and the trailing
      separator adds back one EMPTY level. */
  lemma ParseTrailingSeparatorsExample(t: string)
    requires t == "a//"
    ensures ParseTopicSpec(t) == Success([Literal("a"), EMPTY])
  {
    assert Join(["a", "", ""]) == t;
    PiecesOfJoin(["a", "", ""]);
    assert DropTrailingEmpty(["a", "", ""]) == ["a"] by {
      assert ["a", "", ""][..2] == ["a", ""];
      assert ["a", ""][..1] == ["a"];
    }
    assert EndsWithSlash(t);
    var segs := ["a", ""];
    assert Segments(t) == segs;
    assert ParsePrefix(segs, 2).value == [Literal("a"), EMPTY];
    assert ParseTopicSpec(t).value == [Literal("a"), EMPTY];
  }

  /** "sport/#/ranking": a `#` before the last level is refused at level 1. */
  lemma ParseMultiNotLastExample(t: string)
    requires t == "sport/#/ranking"
    ensures ParseTopicSpec(t) == Failure(ParseException(1))
  {
    var segs := ["sport", "#", "ranking"];
    NameToken(segs[0], false);
    ParsePrefixStep(segs, 0, Literal("sport"));
    ParsePrefixFails(segs, 1);
    assert Join(segs) == t;
    SegmentsOfLevels(segs);
  }

  /** "sport/tennis#" and "sport+": a wildcard inside a level name is
      refused at that level. */
  lemma ParseWildcardInNameExample(t: string, u: string)
    requires t == "sport/tennis#" && u == "sport+"
    ensures ParseTopicSpec(t) == Failure(ParseException(1))
    ensures ParseTopicSpec(u) == Failure(ParseException(0))
  {
    var segs := ["sport", "tennis#"];
    NameToken(segs[0], false);
    ParsePrefixStep(segs, 0, Literal("sport"));
    assert segs[1][6] == '#';
    ParsePrefixFails(segs, 1);
    assert u[5] == '+';
    ParsePrefixFails([u], 0);
    assert Join(segs) == t;
    SegmentsOfLevels(segs);
    assert Segments(u) == [u] && Prefix(u) == [];
  }

  /* ---------------- match ---------------- */

  /** The index of the first `#` token of a filter, or its length when it
      has none. */
  function FirstMulti(sub: seq<Token>): (p: nat)
    ensures p <= |sub|
    ensures forall j | 0 <= j < p :: sub[j] != MULTI
    ensures p < |sub| ==> sub[p] == MULTI
  {
    if |sub| == 0 then 0
    else if sub[0] == MULTI then 0
    else 1 + FirstMulti(sub[1..])
  }

  /** The matching rule of MQTT 3.1.1 section 4.7: up to the first `#`,
      every filter level is `+` or equal to the topic level at the same
      position, and the topic has a level for each of them; a filter that
      ends there with `#` matches any number of further levels, including
      none, and one without `#` needs exactly as many levels as the topic. */
  predicate LevelsMatch(msg: seq<Token>, sub: seq<Token>) {
    var p := FirstMulti(sub);
    && p <= |msg|
    && (forall j | 0 <= j < p :: sub[j] == SINGLE || msg[j] == sub[j])
    && (p == |sub| ==> |msg| == |sub|)
  }

  /** What Topic.match decides: the same, except that a `+` is accepted
      even where the topic has no level left, which only matters when a `#`
      follows it. */
  predicate AsWrittenMatch(msg: seq<Token>, sub: seq<Token>) {
    var p := FirstMulti(sub);
    && (forall j | 0 <= j < p && sub[j] != SINGLE :: j < |msg| && msg[j] == sub[j])
    && (p == |sub| ==> |msg| == |sub|)
  }

  /** Topic.match on two token lists, as written: the walk over the filter
      that stops at the first `#`. */
  method MatchTokens(msg: seq<Token>, sub: seq<Token>) returns (b: bool)
    ensures b == AsWrittenMatch(msg, sub)
  {
    var i := 0;
    while i < |sub|
      invariant 0 <= i <= |sub|
      invariant forall j | 0 <= j < i :: sub[j] != MULTI
      invariant forall j | 0 <= j < i && sub[j] != SINGLE :: j < |msg| && msg[j] == sub[j]
    {
      var subToken := sub[i];
      if subToken != MULTI && subToken != SINGLE {
        if i >= |msg| {
          return false;
        }
        if msg[i] != subToken {
          return false;
        }
      } else if subToken == MULTI {
        return true;
      }
      i := i + 1;
    }
    return i == |msg|;
  }

  /** The walk with the missing check added: a `+` needs a topic level too. */
  method MatchLevels(msg: seq<Token>, sub: seq<Token>) returns (b: bool)
    ensures b == LevelsMatch(msg, sub)
  {
    var i := 0;
    while i < |sub|
      invariant 0 <= i <= |sub| && i <= |msg|
      invariant forall j | 0 <= j < i :: sub[j] != MULTI
      invariant forall j | 0 <= j < i :: sub[j] == SINGLE || msg[j] == sub[j]
    {
      var subToken := sub[i];
      if subToken == MULTI {
        return true;
      }
      if i >= |msg| {
        return false;
      }
      if subToken != SINGLE && msg[i] != subToken {
        return false;
      }
      i := i + 1;
    }
    return i == |msg|;
  }

  /** The corrected rule only refuses more: it agrees with the walk as
      written except where a `+` before the first `#` has no topic level. */
  lemma MatchAsWrittenRelation(msg: seq<Token>, sub: seq<Token>)
    ensures LevelsMatch(msg, sub) ==> AsWrittenMatch(msg, sub)
    ensures AsWrittenMatch(msg, sub) && FirstMulti(sub) <= |msg| ==> LevelsMatch(msg, sub)
    ensures MULTI !in sub ==> (LevelsMatch(msg, sub) <==> AsWrittenMatch(msg, sub))
  {
    if MULTI !in sub {
      assert FirstMulti(sub) == |sub|;
    }
  }

  /** The topic "a" matches the filter "a/+/#" as written, although the `+`
      has no level of the topic to stand for. */
  lemma MatchCounterexample()
    ensures AsWrittenMatch([Literal("a")], [Literal("a"), SINGLE, MULTI])
    ensures !LevelsMatch([Literal("a")], [Literal("a"), SINGLE, MULTI])
  {
    var sub := [Literal("a"), SINGLE, MULTI];
    assert FirstMulti(sub) == 2 by {
      assert sub[2] == MULTI;
    }
  }

  /** A filter without wildcards matches exactly the topic with the same
      tokens. */
  lemma LiteralFilterMatchesItself(msg: seq<Token>, sub: seq<Token>)
    requires MULTI !in sub && SINGLE !in sub
    ensures LevelsMatch(msg, sub) <==> msg == sub
  {
    assert FirstMulti(sub) == |sub|;
  }

  /** A filter ending in `#` matches every topic that starts with the levels
      before it, the parent level itself included (MQTT 3.1.1 section
      4.7.1.2). */
  lemma MultiMatchesDescendants(prefix: seq<Token>, rest: seq<Token>)
    requires MULTI !in prefix && SINGLE !in prefix
    ensures LevelsMatch(prefix + rest, prefix + [MULTI])
  {
    var sub := prefix + [MULTI];
    assert sub[|prefix|] == MULTI;
    assert FirstMulti(sub) == |prefix| by {
      forall j | 0 <= j < |prefix| ensures sub[j] != MULTI {
        assert sub[j] == prefix[j];
      }
    }
    forall j | 0 <= j < |prefix| ensures (prefix + rest)[j] == sub[j] {
    }
  }

  /** A `+` stands for exactly one level: "sport/+" does not match "sport"
      but matches "sport/tennis" (MQTT 3.1.1 section 4.7.1.3). */
  lemma SingleNeedsOneLevel()
    ensures !LevelsMatch([Literal("sport")], [Literal("sport"), SINGLE])
    ensures LevelsMatch([Literal("sport"), Literal("tennis")], [Literal("sport"), SINGLE])
    ensures !LevelsMatch([Literal("sport"), Literal("tennis"), Literal("player1")], [Literal("sport"), SINGLE])
  {
    assert FirstMulti([Literal("sport"), SINGLE]) == 2;
  }

  /** Without `#`, the walk as written accepts exactly the topics with as
      many levels as the filter whose levels agree with every non-`+`
      filter level. */
  lemma NoMultiMatch(msg: seq<Token>, sub: seq<Token>)
    requires MULTI !in sub
    ensures AsWrittenMatch(msg, sub) <==>
              |msg| == |sub| && forall j | 0 <= j < |sub| :: sub[j] == SINGLE || msg[j] == sub[j]
  {
    assert FirstMulti(sub) == |sub|;
  }

  /** "a/b/c" does not match "a/+", and "/finance" matches "+/+" (its first
      level is the empty one). */
  lemma MatchExamples()
    ensures !AsWrittenMatch([Literal("a"), Literal("b"), Literal("c")], [Literal("a"), SINGLE])
    ensures AsWrittenMatch([EMPTY, Literal("finance")], [SINGLE, SINGLE])
  {
    NoMultiMatch([Literal("a"), Literal("b"), Literal("c")], [Literal("a"), SINGLE]);
    NoMultiMatch([EMPTY, Literal("finance")], [SINGLE, SINGLE]);
  }

  /* ---------------- the Topic object ---------------- */

  /** The topic string of a Topic built from tokens: their texts joined with
      the separator. */
  function TokensText(ts: seq<Token>): string {
    Join(seq(|ts|, i requires 0 <= i < |ts| => TokenText(ts[i])))
  }

  /** The cached parse: Some tokens when the topic parses, None otherwise. */
  function Parsed(topic: string): (r: Option<seq<Token>>)
    ensures r.Some? <==> ParseTopicSpec(topic).Success?
    ensures r.Some? ==> r.value == ParseTopicSpec(topic).value
  {
    match ParseTopicSpec(topic)
    case Success(ts) => Some(ts)
    case Failure(_) => None
  }

  /** The NullPointerException of dereferencing the token list of a topic
      that has none (getTokens returns null when the topic does not parse). */
  datatype TopicError = NullTokens

  class Topic {
    const topic: string
    /** Whether the Topic was built from a token list rather than a string. */
    ghost const built: bool
    var subscribes: set<string>
    var tokens: Option<seq<Token>>
    var valid: bool

    /** The cache holds tokens exactly when valid is set, and the tokens of a
        string topic are its parse. */
    ghost predicate Valid()
      reads this
    {
      && (valid <==> tokens.Some?)
      && (built ==> tokens.Some?)
      && (!built && tokens.Some? ==> tokens == Parsed(topic))
    }

    /** getTokens can return a token list: the topic parses, or it was built
        from tokens. */
    ghost predicate HasTokens()
      reads this
    {
      built || ParseTopicSpec(topic).Success?
    }

    constructor (topic: string)
      ensures this.topic == topic && !built
      ensures subscribes == {} && tokens == None && !valid
      ensures Valid()
    {
      this.topic := topic;
      built := false;
      subscribes := {};
      tokens := None;
      valid := false;
    }

    constructor FromTokens(ts: seq<Token>)
      ensures topic == TokensText(ts) && built
      ensures subscribes == {} && tokens == Some(ts) && valid
      ensures Valid()
    {
      topic := TokensText(ts);
      built := true;
      subscribes := {};
      tokens := Some(ts);
      valid := true;
    }

    method Subscribe(clientIdentifier: string)
      modifies this`subscribes
      ensures subscribes == old(subscribes) + {clientIdentifier}
    {
      subscribes := subscribes + {clientIdentifier};
    }

    /** Removes the client id; suc tells whether it was there. */
    method UnSubscribe(clientIdentifier: string) returns (suc: bool)
      modifies this`subscribes
      ensures suc <==> clientIdentifier in old(subscribes)
      ensures subscribes == old(subscribes) - {clientIdentifier}
    {
      suc := clientIdentifier in subscribes;
      subscribes := subscribes - {clientIdentifier};
    }

    /** Parses on first use and caches the result; a topic that does not
        parse is re-parsed on every call and stays invalid. */
    method GetTokens() returns (r: Option<seq<Token>>)
      requires Valid()
      modifies this`tokens, this`valid
      ensures Valid()
      ensures r == tokens && valid == r.Some?
      ensures r == (if built then old(tokens) else Parsed(topic))
    {
      if tokens.None? {
        var parsed := ParseTopic(topic);
        match parsed
        case Success(ts) =>
          tokens := Some(ts);
          valid := true;
        case Failure(_) =>
          valid := false;
      }
      r := tokens;
    }

    /** isValid: whether the topic has tokens, parsing it if needed. */
    method IsValid() returns (b: bool)
      requires Valid()
      modifies this`tokens, this`valid
      ensures Valid()
      ensures b <==> HasTokens()
      ensures tokens == (if built then old(tokens) else Parsed(topic))
    {
      if tokens.None? {
        var _ := GetTokens();
      }
      b := valid;
    }

    /** isEmpty: true when there are no tokens, which for a string topic
        happens exactly when it does not parse. */
    method IsEmpty() returns (b: bool)
      requires Valid()
      modifies this`tokens, this`valid
      ensures Valid()
      ensures tokens == (if built then old(tokens) else Parsed(topic))
      ensures b <==> tokens.None? || |tokens.value| == 0
      ensures !built ==> (b <==> ParseTopicSpec(topic).Failure?)
    {
      var ts := GetTokens();
      b := ts.None? || |ts.value| == 0;
      if !built && ParseTopicSpec(topic).Success? {
        ParsedTokensWellFormed(topic);
      }
    }

    /** headToken: the first token, None for an empty token list; a topic
        without tokens is the null dereference of its tokens. */
    method HeadToken() returns (r: Result<Option<Token>, TopicError>)
      requires Valid()
      modifies this`tokens, this`valid
      ensures Valid()
      ensures tokens == (if built then old(tokens) else Parsed(topic))
      ensures r.Failure? <==> !HasTokens()
      ensures r.Failure? ==> r.error == NullTokens
      ensures tokens.Some? ==> r == Success(if |tokens.value| == 0 then None else Some(tokens.value[0]))
      ensures !built && r.Success? ==> r.value.Some?
    {
      var ts := GetTokens();
      if ts.None? {
        return Failure(NullTokens);
      }
      if |ts.value| == 0 {
        r := Success(None);
      } else {
        r := Success(Some(ts.value[0]));
      }
      if !built {
        ParsedTokensWellFormed(topic);
      }
    }

    /** exceptHeadToken: a new Topic of the tokens after the first; a topic
        without tokens is the null dereference of its tokens. */
    method ExceptHeadToken() returns (r: Result<Topic, TopicError>)
      requires Valid()
      modifies this`tokens, this`valid
      ensures Valid()
      ensures tokens == (if built then old(tokens) else Parsed(topic))
      ensures r.Failure? <==> !HasTokens()
      ensures r.Failure? ==> r.error == NullTokens
      ensures r.Success? ==>
                var t := r.value;
                && fresh(t) && t.Valid() && t.built && t.subscribes == {}
                && t.tokens == Some(if |tokens.value| == 0 then [] else tokens.value[1..])
                && t.topic == TokensText(t.tokens.value)
    {
      var ts := GetTokens();
      if ts.None? {
        return Failure(NullTokens);
      }
      var t;
      if |ts.value| == 0 {
        t := new Topic.FromTokens([]);
      } else {
        t := new Topic.FromTokens(ts.value[1..]);
      }
      r := Success(t);
    }

    /** match: this topic against a subscription's filter, both parsed on
        demand; decided by the corrected walk (MatchLevels), which differs
        from the walk as written (MatchTokens) only on a `+` with no topic
        level before a `#`. A filter without tokens is dereferenced at once;
        a message topic without tokens only where the walk reads its
        levels, which the corrected walk does for every level before the
        first `#`. */
    method Match(subscriptionTopic: Topic) returns (r: Result<bool, TopicError>)
      requires Valid() && subscriptionTopic.Valid()
      modifies this`tokens, this`valid, subscriptionTopic`tokens, subscriptionTopic`valid
      ensures Valid() && subscriptionTopic.Valid()
      ensures tokens == (if built then old(tokens) else Parsed(topic))
      ensures subscriptionTopic.tokens ==
        (if subscriptionTopic.built then old(subscriptionTopic.tokens) else Parsed(subscriptionTopic.topic))
      ensures subscriptionTopic.tokens.None? ==> r == Failure(NullTokens)
      ensures subscriptionTopic.tokens.Some? && tokens.None? ==>
                var sub := subscriptionTopic.tokens.value;
                r == if |sub| > 0 && sub[0] == MULTI then Success(true) else Failure(NullTokens)
      ensures subscriptionTopic.tokens.Some? && tokens.Some? ==>
                r == Success(LevelsMatch(tokens.value, subscriptionTopic.tokens.value))
    {
      var msgTokens := GetTokens();
      var subscriptionTokens := subscriptionTopic.GetTokens();
      if subscriptionTokens.None? {
        return Failure(NullTokens);
      }
      if msgTokens.None? {
        var sub := subscriptionTokens.value;
        if |sub| > 0 && sub[0] == MULTI {
          return Success(true);
        }
        return Failure(NullTokens);
      }
      var b := MatchLevels(msgTokens.value, subscriptionTokens.value);
      r := Success(b);
    }

    /** equals: two Topics are equal when their topic strings are; null is
        equal to nothing, and equal topics parse alike. */
    predicate Equals(other: Topic?): (r: bool)
      ensures other == null ==> !r
      ensures other == this ==> r
      ensures r ==> other != null && Parsed(other.topic) == Parsed(topic)
    {
      other != null && other.topic == topic
    }
  }

  /** equals is an equivalence on topics. */
  lemma EqualsIsEquivalence(a: Topic, b: Topic, c: Topic)
    ensures a.Equals(a)
    ensures a.Equals(b) ==> b.Equals(a)
    ensures a.Equals(b) && b.Equals(c) ==> a.Equals(c)
  {
  }

  /** equals is finer than match: the topics "a/" and "a//" are not equal,
      yet each matches the other as a filter. */
  method EqualsFinerThanMatch() returns (equal: bool, ab: Result<bool, TopicError>, ba: Result<bool, TopicError>)
    ensures !equal
    ensures ab == Success(true) && ba == Success(true)
  {
    var a := new Topic("a/");
    var b := new Topic("a//");
    equal := a.Equals(b);
    EqualsFinerThanTokens(a.topic, b.topic);
    LiteralFilterMatchesItself([Literal("a"), EMPTY], [Literal("a"), EMPTY]);
    ab := a.Match(b);
    ba := b.Match(a);
  }

  /** Equal topic strings have equal tokens, but not conversely: "a/" and
      "a//" are different strings with the same tokens. */
  lemma EqualsFinerThanTokens(t: string, u: string)
    requires t == "a/" && u == "a//"
    ensures t != u
    ensures ParseTopicSpec(t) == ParseTopicSpec(u) == Success([Literal("a"), EMPTY])
  {
    ParseTrailingSeparatorsExample(u);
    assert Join(["a", ""]) == t;
    PiecesOfJoin(["a", ""]);
    assert DropTrailingEmpty(["a", ""]) == ["a"] by {
      assert ["a", ""][..1] == ["a"];
    }
    assert EndsWithSlash(t);
    var segs := ["a", ""];
    assert Segments(t) == segs;
    assert ParsePrefix(segs, 2).value == [Literal("a"), EMPTY];
    assert ParseTopicSpec(t).value == [Literal("a"), EMPTY];
  }
}
