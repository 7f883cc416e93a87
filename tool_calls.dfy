/**
 * The tool-call protocol of the enhanced agents: the token grammar
 * `[TOOL_CALL:<name>:<args>]` as `re.findall` scans it, the argument-map
 * parser, and the fail-soft execution of one call against a tool registry.
 */
module ToolCalls {
  import opened Wrappers
  import opened Strings
  import opened Dicts

  const Marker: string := "[TOOL_CALL:"

  /** The text of a token with the two groups `name` and `args`. */
  function Token(name: string, args: string): string {
    Marker + name + ":" + args + "]"
  }

  /** `([^:]+)` and `([^\]]+)`: both groups non-empty, the first without ':', the second without ']'. */
  predicate Groups(name: string, args: string) {
    name != [] && ':' !in name && args != [] && ']' !in args
  }

  /** One match of the pattern: where it starts, its two groups, and where it ends. */
  datatype RawMatch = RawMatch(start: nat, name: string, args: string, end: nat)

  /** The marker's characters from its `k`-th on sit at `i + k` onwards. */
  predicate MarkerFrom(text: string, i: nat, k: nat)
    decreases |Marker| - k
  {
    if k >= |Marker| then i + |Marker| <= |text|
    else i + k < |text| && text[i + k] == Marker[k] && MarkerFrom(text, i, k + 1)
  }

  /**
   * The first group from `j` on: `[^:]+` is greedy and cannot cross a ':', so
   * it ends at the first ':' after the marker, and must not be empty.
   */
  function ScanName(text: string, i: nat, j: nat): (r: Option<RawMatch>)
    requires i + |Marker| <= j
    ensures r.Some? ==> r.value.start == i && j < r.value.end <= |text|
    decreases |text| - j
  {
    if j >= |text| then None
    else if text[j] == ':' then (if j == i + |Marker| then None else ScanArgs(text, i, j, j + 1))
    else ScanName(text, i, j + 1)
  }

  /** The second group from `j` on: up to the first ']' after the ':' at `c`, not empty. */
  function ScanArgs(text: string, i: nat, c: nat, j: nat): (r: Option<RawMatch>)
    requires i + |Marker| < c < j
    ensures r.Some? ==> r.value.start == i && j < r.value.end <= |text|
    decreases |text| - j
  {
    if j >= |text| then None
    else if text[j] == ']' then
      (if j == c + 1 then None else Some(RawMatch(i, text[i + |Marker|..c], text[c + 1..j], j + 1)))
    else ScanArgs(text, i, c, j + 1)
  }

  /** The pattern tried at position `i`. */
  function MatchAt(text: string, i: nat): (r: Option<RawMatch>)
    ensures r.Some? ==> r.value.start == i && i < r.value.end <= |text|
  {
    if MarkerFrom(text, i, 0) then ScanName(text, i, i + |Marker|) else None
  }

  lemma {:induction false} MarkerFromAt(text: string, i: nat, k: nat)
    requires k <= |Marker|
    ensures MarkerFrom(text, i, k) <==> i + |Marker| <= |text| && text[i + k..i + |Marker|] == Marker[k..]
    decreases |Marker| - k
  {
    if k < |Marker| {
      MarkerFromAt(text, i, k + 1);
      if i + |Marker| <= |text| {
        assert text[i + k..i + |Marker|] == [text[i + k]] + text[i + k + 1..i + |Marker|];
        assert Marker[k..] == [Marker[k]] + Marker[k + 1..];
      }
    }
  }

  /** A match of the marker is exactly an occurrence of it. */
  lemma MarkerAt(text: string, i: nat)
    ensures MarkerFrom(text, i, 0) <==> OccursAt(text, Marker, i)
  {
    MarkerFromAt(text, i, 0);
  }

  /** What the args scan reports is the token it read. */
  lemma {:induction false} ScanArgsSound(text: string, i: nat, c: nat, j: nat)
    requires i + |Marker| < c < j <= |text| && ':' !in text[i + |Marker|..c] && text[c] == ':'
    requires ']' !in text[c + 1..j]
    requires ScanArgs(text, i, c, j).Some?
    ensures var m := ScanArgs(text, i, c, j).value;
      m.name == text[i + |Marker|..c] && Groups(m.name, m.args) && text[c + 1..m.end - 1] == m.args
      && text[m.end - 1] == ']'
    decreases |text| - j
  {
    if text[j] != ']' {
      assert text[c + 1..j + 1] == text[c + 1..j] + [text[j]];
      ScanArgsSound(text, i, c, j + 1);
    }
  }

  /** What the name scan reports is the token it read. */
  lemma {:induction false} ScanNameSound(text: string, i: nat, j: nat)
    requires i + |Marker| <= j <= |text| && ':' !in text[i + |Marker|..j]
    requires ScanName(text, i, j).Some?
    ensures var m := ScanName(text, i, j).value;
      Groups(m.name, m.args) && text[i + |Marker|..m.end] == m.name + ":" + m.args + "]"
    decreases |text| - j
  {
    if text[j] == ':' {
      assert text[j + 1..j + 1] == [];
      ScanArgsSound(text, i, j, j + 1);
      var m := ScanName(text, i, j).value;
      assert text[i + |Marker|..m.end]
          == text[i + |Marker|..j] + [text[j]] + text[j + 1..m.end - 1] + [text[m.end - 1]];
    } else {
      assert text[i + |Marker|..j + 1] == text[i + |Marker|..j] + [text[j]];
      ScanNameSound(text, i, j + 1);
    }
  }

  /** A match is a well-formed token, read off the text at its start. */
  lemma MatchAtSound(text: string, i: nat)
    requires MatchAt(text, i).Some?
    ensures var m := MatchAt(text, i).value;
      Groups(m.name, m.args) && m.end == i + |Token(m.name, m.args)|
      && text[i..m.end] == Token(m.name, m.args)
  {
    var m := MatchAt(text, i).value;
    MarkerAt(text, i);
    assert text[i + |Marker|..i + |Marker|] == [];
    ScanNameSound(text, i, i + |Marker|);
    assert text[i..m.end] == text[i..i + |Marker|] + text[i + |Marker|..m.end];
  }

  lemma {:induction false} ScanArgsToken(text: string, i: nat, c: nat, j: nat, args: string)
    requires i + |Marker| < c < j && args != [] && ']' !in args
    requires c + 1 + |args| < |text| && text[c + 1..c + 1 + |args|] == args && text[c + 1 + |args|] == ']'
    requires j <= c + 1 + |args| && ']' !in text[c + 1..j]
    ensures ScanArgs(text, i, c, j) == Some(RawMatch(i, text[i + |Marker|..c], args, c + 2 + |args|))
    decreases |text| - j
  {
    if j < c + 1 + |args| {
      assert text[j] == args[j - c - 1];
      assert text[c + 1..j + 1] == args[..j - c];
      ScanArgsToken(text, i, c, j + 1, args);
    }
  }

  lemma {:induction false} ScanNameToken(text: string, i: nat, j: nat, name: string, args: string)
    requires Groups(name, args)
    requires i + |Marker| + |name| + |args| + 2 <= |text|
    requires text[i + |Marker|..i + |Marker| + |name|] == name
    requires i + |Marker| <= j <= i + |Marker| + |name|
    requires text[i + |Marker| + |name|] == ':'
    requires text[i + |Marker| + |name| + 1..i + |Marker| + |name| + 1 + |args|] == args
    requires text[i + |Marker| + |name| + 1 + |args|] == ']'
    ensures ScanName(text, i, j) == Some(RawMatch(i, name, args, i + |Marker| + |name| + |args| + 2))
    decreases |text| - j
  {
    var c := i + |Marker| + |name|;
    if j < c {
      assert text[j] == name[j - i - |Marker|];
      ScanNameToken(text, i, j + 1, name, args);
    } else {
      assert text[c + 1..c + 1] == [];
      ScanArgsToken(text, i, c, c + 1, args);
    }
  }

  /** Where each part of a token sits. */
  lemma TokenParts(name: string, args: string)
    ensures var t := Token(name, args);
      && |t| == |Marker| + |name| + |args| + 2
      && t[..|Marker|] == Marker
      && t[|Marker|..|Marker| + |name|] == name
      && t[|Marker| + |name|] == ':'
      && t[|Marker| + |name| + 1..|t| - 1] == args
      && t[|t| - 1] == ']'
  {
    var t := Token(name, args);
    assert t == Marker + name + [':'] + args + [']'];
  }

  /** A well-formed token at `i` is matched there, with exactly its own groups. */
  lemma MatchAtToken(text: string, i: nat, name: string, args: string)
    requires Groups(name, args)
    requires i + |Token(name, args)| <= |text| && text[i..i + |Token(name, args)|] == Token(name, args)
    ensures MatchAt(text, i) == Some(RawMatch(i, name, args, i + |Token(name, args)|))
  {
    TokenParts(name, args);
    MatchAtWindow(text, i, name, args, Token(name, args));
  }

  /** The same, for any window `t` laid out as a token. */
  lemma MatchAtWindow(text: string, i: nat, name: string, args: string, t: string)
    requires Groups(name, args)
    requires i + |t| <= |text| && text[i..i + |t|] == t
    requires |t| == |Marker| + |name| + |args| + 2 && t[..|Marker|] == Marker
    requires t[|Marker|..|Marker| + |name|] == name && t[|Marker| + |name|] == ':'
    requires t[|Marker| + |name| + 1..|t| - 1] == args && t[|t| - 1] == ']'
    ensures MatchAt(text, i) == Some(RawMatch(i, name, args, i + |t|))
  {
    var n := |Marker| + |name|;
    WindowSlice(text, i, t, 0, |Marker|);
    MarkerAt(text, i);
    WindowSlice(text, i, t, |Marker|, n);
    WindowSlice(text, i, t, n + 1, |t| - 1);
    assert text[i + n] == t[n] && text[i + |t| - 1] == t[|t| - 1];
    ScanNameToken(text, i, i + |Marker|, name, args);
  }

  /** A slice of a window of `text` is the same slice of `text`. */
  lemma WindowSlice(text: string, i: nat, w: string, a: nat, b: nat)
    requires i + |w| <= |text| && text[i..i + |w|] == w && a <= b <= |w|
    ensures text[i + a..i + b] == w[a..b]
  {
    forall k | 0 <= k < b - a
      ensures text[i + a..i + b][k] == w[a..b][k]
    {
      assert text[i + a + k] == text[i..i + |w|][a + k];
    }
  }

  /** No match starts at any position in `[a, b)`. */
  predicate Gap(text: string, a: nat, b: nat) {
    forall p :: a <= p < b ==> MatchAt(text, p).None?
  }

  /** The leftmost match starting at or after `i`, as the regex engine's scan finds it. */
  function NextMatch(text: string, i: nat): (r: Option<RawMatch>)
    requires i <= |text|
    ensures r.Some? ==> i <= r.value.start && MatchAt(text, r.value.start) == r
    ensures r.Some? ==> Gap(text, i, r.value.start)
    ensures r.None? ==> Gap(text, i, |text| + 1)
    decreases |text| - i
  {
    if i == |text| then None
    else match MatchAt(text, i)
      case Some(m) => Some(m)
      case None => NextMatch(text, i + 1)
  }

  /**
   * `re.findall` from position `i`: the leftmost match, then the scan
   * resumes at its end.
   */
  function FindAllFrom(text: string, i: nat): (r: seq<RawMatch>)
    requires i <= |text|
    ensures forall k :: 0 <= k < |r| ==> i <= r[k].start && MatchAt(text, r[k].start) == Some(r[k])
    decreases |text| - i
  {
    match NextMatch(text, i)
    case None => []
    case Some(m) => [m] + FindAllFrom(text, m.end)
  }

  predicate Ordered(r: seq<RawMatch>) {
    forall k, l :: 0 <= k < l < |r| ==> r[k].end <= r[l].start
  }

  /** The matches do not overlap and come left to right. */
  lemma {:induction false} FindAllOrdered(text: string, i: nat)
    requires i <= |text|
    ensures Ordered(FindAllFrom(text, i))
    decreases |text| - i
  {
    match NextMatch(text, i)
    case None =>
    case Some(m) =>
      var rest := FindAllFrom(text, m.end);
      var r := FindAllFrom(text, i);
      assert r == [m] + rest;
      FindAllOrdered(text, m.end);
      forall k, l | 0 <= k < l < |r|
        ensures r[k].end <= r[l].start
      {
        assert r[l] == rest[l - 1];
        if k > 0 {
          assert r[k] == rest[k - 1];
          assert rest[k - 1].end <= rest[l - 1].start;
        } else {
          assert r[k] == m && m.end <= rest[l - 1].start;
        }
      }
  }

  /** Position `p` lies inside one of the matches `r`. */
  predicate Covered(r: seq<RawMatch>, p: nat) {
    exists k :: 0 <= k < |r| && r[k].start <= p < r[k].end
  }

  /**
   * No match is missed: wherever the pattern matches from `i` on, that
   * position lies inside a reported match (it is reported, or it overlaps
   * one reported before it).
   */
  lemma {:induction false} FindAllCovers(text: string, i: nat)
    requires i <= |text|
    ensures forall p :: i <= p && MatchAt(text, p).Some? ==> Covered(FindAllFrom(text, i), p)
    decreases |text| - i
  {
    match NextMatch(text, i)
    case None =>
    case Some(m) =>
      FindAllCovers(text, m.end);
      var r := FindAllFrom(text, i);
      var rest := FindAllFrom(text, m.end);
      assert r == [m] + rest;
      assert Gap(text, i, m.start);
      forall p | i <= p && MatchAt(text, p).Some?
        ensures Covered(r, p)
      {
        if p >= m.end {
          CoveredCons(m, rest, p);
        } else if p >= m.start {
          CoveredHead(m, rest, p);
        }
      }
  }

  lemma CoveredCons(m: RawMatch, rest: seq<RawMatch>, p: nat)
    requires Covered(rest, p)
    ensures Covered([m] + rest, p)
  {
    var k :| 0 <= k < |rest| && rest[k].start <= p < rest[k].end;
    assert ([m] + rest)[k + 1] == rest[k];
  }

  lemma CoveredHead(m: RawMatch, rest: seq<RawMatch>, p: nat)
    requires m.start <= p < m.end
    ensures Covered([m] + rest, p)
  {
    assert ([m] + rest)[0] == m;
  }

  function FindAll(text: string): (r: seq<RawMatch>) {
    FindAllFrom(text, 0)
  }

  /** One entry of `_parse_tool_calls`'s result. */
  datatype ToolCall = ToolCall(toolName: string, parameters: string, original: string)

  function CallOf(m: RawMatch): (c: ToolCall) {
    ToolCall(Strip(m.name), Strip(m.args), Token(m.name, m.args))
  }

  /** The calls for a list of matches, one each, in order. */
  function CallsOf(ms: seq<RawMatch>): (r: seq<ToolCall>)
    ensures |r| == |ms|
  {
    if ms == [] then [] else CallsOf(ms[..|ms| - 1]) + [CallOf(ms[|ms| - 1])]
  }

  lemma {:induction false} CallsOfAt(ms: seq<RawMatch>, k: nat)
    requires k < |ms|
    ensures CallsOf(ms)[k] == CallOf(ms[k])
    decreases |ms|
  {
    if k < |ms| - 1 {
      CallsOfAt(ms[..|ms| - 1], k);
    }
  }

  /** `_parse_tool_calls`: one call per match, in order, with stripped groups. */
  function ToolCallsOf(text: string): (r: seq<ToolCall>) {
    CallsOf(FindAll(text))
  }

  /**
   * Each call reads its groups, stripped, off the text the pattern matched,
   * and its `original` is exactly that text.
   */
  lemma CallsAreMatchedText(text: string, k: nat)
    requires k < |FindAll(text)|
    ensures var m := FindAll(text)[k];
      var c := ToolCallsOf(text)[k];
      && m.start < m.end <= |text| && Groups(m.name, m.args)
      && c.original == text[m.start..m.end]
      && c.toolName == Strip(m.name) && c.parameters == Strip(m.args)
  {
    var m := FindAll(text)[k];
    CallsOfAt(FindAll(text), k);
    MatchAtSound(text, m.start);
  }

  /** A match starts with '['. */
  lemma MatchStartsWithBracket(text: string, p: nat)
    requires MatchAt(text, p).Some?
    ensures p < |text| && text[p] == '['
  {
    assert text[p..p + |Marker|][0] == '[';
  }

  /** Up to the first '[' no match starts, so the scan lands on it. */
  lemma {:induction false} SkipToBracket(text: string, i: nat, j: nat)
    requires i <= j <= |text| && '[' !in text[i..j]
    ensures NextMatch(text, i) == NextMatch(text, j)
    decreases j - i
  {
    if i < j {
      assert text[i] == text[i..j][0];
      if MatchAt(text, i).Some? {
        MatchStartsWithBracket(text, i);
      }
      assert text[i + 1..j] == text[i..j][1..];
      SkipToBracket(text, i + 1, j);
    }
  }

  /** A text with no '[' from `i` on holds no further call. */
  lemma NoBracketNoCalls(text: string, i: nat)
    requires i <= |text| && '[' !in text[i..]
    ensures FindAllFrom(text, i) == []
  {
    assert text[i..|text|] == text[i..];
    SkipToBracket(text, i, |text|);
  }

  /**
   * A single well-formed token in text without other '[' is parsed back:
   * one call, its groups stripped, its `original` the token itself.
   */
  lemma SingleToken(prefix: string, name: string, args: string, suffix: string)
    requires Groups(name, args) && '[' !in prefix && '[' !in suffix
    ensures ToolCallsOf(prefix + Token(name, args) + suffix)
         == [ToolCall(Strip(name), Strip(args), Token(name, args))]
  {
    var t := Token(name, args);
    var text := prefix + t + suffix;
    assert text[0..|prefix|] == prefix;
    SkipToBracket(text, 0, |prefix|);
    assert text[|prefix|..|prefix| + |t|] == t;
    MatchAtToken(text, |prefix|, name, args);
    assert text[|prefix| + |t|..] == suffix;
    NoBracketNoCalls(text, |prefix| + |t|);
    assert FindAll(text) == [RawMatch(|prefix|, name, args, |prefix| + |t|)];
  }

  /**
   * `_parse_tool_calls` as its loop runs: `re.findall` gives the matches,
   * and each becomes one entry.
   */
  method ParseToolCalls(text: string) returns (calls: seq<ToolCall>)
    ensures calls == ToolCallsOf(text)
  {
    var matches := FindAll(text);
    calls := CallsFor(matches);
  }

  method CallsFor(matches: seq<RawMatch>) returns (calls: seq<ToolCall>)
    ensures calls == CallsOf(matches)
  {
    calls := [];
    for k := 0 to |matches|
      invariant calls == CallsOf(matches[..k])
    {
      assert matches[..k + 1][..k] == matches[..k];
      calls := calls + [CallOf(matches[k])];
    }
    assert matches[..|matches|] == matches;
  }

  // Argument maps

  /** `s.split(c, 1)` for a string that contains `c`. */
  function SplitFirst(s: string, c: char): (r: (string, string))
    requires c in s
    decreases |s|
  {
    if s[0] == c then ([], s[1..])
    else
      var t := SplitFirst(s[1..], c);
      ([s[0]] + t.0, t.1)
  }

  /** The part before the first `c`, the `c`, and the rest. */
  lemma {:induction false} SplitFirstParts(s: string, c: char)
    requires c in s
    ensures var r := SplitFirst(s, c); s == r.0 + [c] + r.1 && c !in r.0
    decreases |s|
  {
    if s[0] != c {
      SplitFirstParts(s[1..], c);
    }
  }

  /** A piece's stripped key and stripped value. */
  function PairOf(piece: string): (string, string)
    requires '=' in piece
  {
    var kv := SplitFirst(piece, '=');
    (Strip(kv.0), Strip(kv.1))
  }

  /** The pairs loop over `parameters.split(',')`: pieces without '=' are skipped, a later key overwrites. */
  function PairsDict(pieces: seq<string>): Dict<string, string>
    decreases |pieces|
  {
    if pieces == [] then Empty()
    else
      var d := PairsDict(pieces[..|pieces| - 1]);
      var p := pieces[|pieces| - 1];
      if '=' in p then d.Put(PairOf(p).0, PairOf(p).1) else d
  }

  lemma {:induction false} PairsDictValid(pieces: seq<string>)
    ensures PairsDict(pieces).Valid()
    decreases |pieces|
  {
    if pieces != [] {
      var init := pieces[..|pieces| - 1];
      var p := pieces[|pieces| - 1];
      PairsDictValid(init);
      if '=' in p {
        PutValid(PairsDict(init), PairOf(p).0, PairOf(p).1);
      }
    }
  }

  /** `_parse_tool_parameters` */
  function ToolParameters(toolName: string, parameters: string): (r: Dict<string, string>)
    ensures r.Valid()
  {
    if '=' in parameters then
      if ',' in parameters then PairsDictValid(Split(parameters, ',')); PairsDict(Split(parameters, ','))
      else var p := PairOf(parameters); Empty().Put(p.0, p.1)
    else if toolName == "search" then Empty().Put("query", parameters)
    else if toolName == "memory" then Empty().Put("action", "search").Put("query", parameters)
    else Empty().Put("input", parameters)
  }

  /** The key of `pieces[j]` when it has one. */
  predicate KeyedAt(pieces: seq<string>, j: int, k: string) {
    0 <= j < |pieces| && '=' in pieces[j] && PairOf(pieces[j]).0 == k
  }

  /** A key is present exactly when some piece with '=' carries it. */
  lemma {:induction false} PairsDictKeys(pieces: seq<string>, k: string)
    ensures k in PairsDict(pieces).m <==> exists j :: KeyedAt(pieces, j, k)
    decreases |pieces|
  {
    if pieces != [] {
      var n := |pieces| - 1;
      PairsDictKeys(pieces[..n], k);
      KeyedSnoc(pieces[..n], pieces[n], k);
      assert pieces[..n] + [pieces[n]] == pieces;
    }
  }

  /** A key is carried by `init + [p]` when it is carried by `init` or by `p`. */
  lemma KeyedSnoc(init: seq<string>, p: string, k: string)
    ensures (exists j :: KeyedAt(init + [p], j, k))
        <==> (exists j :: KeyedAt(init, j, k)) || ('=' in p && PairOf(p).0 == k)
  {
    var pieces := init + [p];
    if exists j :: KeyedAt(init, j, k) {
      var j :| KeyedAt(init, j, k);
      assert pieces[j] == init[j];
      assert KeyedAt(pieces, j, k);
    }
    if '=' in p && PairOf(p).0 == k {
      assert pieces[|init|] == p;
      assert KeyedAt(pieces, |init|, k);
    }
    if exists j :: KeyedAt(pieces, j, k) {
      var j :| KeyedAt(pieces, j, k);
      if j < |init| {
        assert pieces[j] == init[j];
        assert KeyedAt(init, j, k);
      }
    }
  }

  /** The value under a key comes from the last piece that carries it. */
  lemma {:induction false} PairsDictLastWins(pieces: seq<string>, j: nat)
    requires j < |pieces| && '=' in pieces[j]
    requires forall j' :: j < j' < |pieces| ==> !KeyedAt(pieces, j', PairOf(pieces[j]).0)
    ensures PairOf(pieces[j]).0 in PairsDict(pieces).m
    ensures PairsDict(pieces).m[PairOf(pieces[j]).0] == PairOf(pieces[j]).1
    decreases |pieces|
  {
    var init := pieces[..|pieces| - 1];
    if j < |pieces| - 1 {
      forall j' | j < j' < |init|
        ensures !KeyedAt(init, j', PairOf(init[j]).0)
      {
        assert !KeyedAt(pieces, j', PairOf(pieces[j]).0);
      }
      PairsDictLastWins(init, j);
      assert !KeyedAt(pieces, |pieces| - 1, PairOf(pieces[j]).0);
    }
  }

  /** With '=' but no ',' the whole argument string is one pair. */
  lemma OnePair(toolName: string, parameters: string)
    requires '=' in parameters && ',' !in parameters
    ensures var kv := SplitFirst(parameters, '=');
      ToolParameters(toolName, parameters).m == map[Strip(kv.0) := Strip(kv.1)]
  {
  }

  /** Without '=' the whole string goes under the tool's default key. */
  lemma DefaultKeys(toolName: string, parameters: string)
    requires '=' !in parameters
    ensures var r := ToolParameters(toolName, parameters);
      && (toolName == "search" ==> r.m == map["query" := parameters])
      && (toolName == "memory" ==> r.m == map["action" := "search", "query" := parameters])
      && (toolName != "search" && toolName != "memory" ==> r.m == map["input" := parameters])
  {
  }

  /** Two clean `key=value` pairs come back as they are, in order. */
  lemma TwoPairs(k1: string, v1: string, k2: string, v2: string, toolName: string)
    requires ',' !in k1 && ',' !in v1 && ',' !in k2 && ',' !in v2 && '=' !in k1 && '=' !in k2 && k1 != k2
    requires NoSurroundingSpace(k1) && NoSurroundingSpace(v1) && NoSurroundingSpace(k2) && NoSurroundingSpace(v2)
    ensures ToolParameters(toolName, k1 + "=" + v1 + "," + k2 + "=" + v2)
         == Dict([k1, k2], map[k1 := v1, k2 := v2])
  {
    var p1 := k1 + "=" + v1;
    var p2 := k2 + "=" + v2;
    PieceNoComma(k1, v1);
    PieceNoComma(k2, v2);
    PieceKeyValue(k1, v1);
    PieceKeyValue(k2, v2);
    var a := p1 + ",";
    Associative(a, k2, "=");
    Associative(a, k2 + "=", v2);
    TwoPieces(toolName, p1, p2);
    PairsDictTwo(p1, p2, k1, v1, k2, v2);
  }

  lemma PieceNoComma(k: string, v: string)
    requires ',' !in k && ',' !in v
    ensures ',' !in k + "=" + v
  {
  }

  /** Two comma-free pieces, the first with '=': the comma branch over both. */
  lemma TwoPieces(toolName: string, p1: string, p2: string)
    requires ',' !in p1 && ',' !in p2 && '=' in p1
    ensures ToolParameters(toolName, p1 + "," + p2) == PairsDict([p1, p2])
  {
    var s := p1 + "," + p2;
    assert s == p1 + [','] + p2;
    SplitPair(p1, p2, ',');
    assert '=' in s by {
      var i :| 0 <= i < |p1| && p1[i] == '=';
      assert s[i] == '=';
    }
    assert s[|p1|] == ',';
  }

  lemma PairsDictTwo(p1: string, p2: string, k1: string, v1: string, k2: string, v2: string)
    requires '=' in p1 && PairOf(p1) == (k1, v1) && '=' in p2 && PairOf(p2) == (k2, v2) && k1 != k2
    ensures PairsDict([p1, p2]) == Dict([k1, k2], map[k1 := v1, k2 := v2])
  {
    assert [p1, p2][..1] == [p1];
    PairsDictOne(p1, k1, v1);
    assert [k1] + [k2] == [k1, k2];
  }

  lemma PairsDictOne(p: string, k: string, v: string)
    requires '=' in p && PairOf(p) == (k, v)
    ensures PairsDict([p]) == Dict([k], map[k := v])
  {
    assert [p][..0] == [];
    assert [] + [k] == [k];
  }

  lemma PieceKeyValue(k: string, v: string)
    requires '=' !in k && NoSurroundingSpace(k) && NoSurroundingSpace(v)
    ensures '=' in k + "=" + v && PairOf(k + "=" + v) == (k, v)
  {
    assert k + "=" + v == k + ['='] + v;
    SplitFirstOf(k, v, '=');
    StripIdentity(k);
    StripIdentity(v);
  }

  /** Splitting at the first `c` recovers the two sides when the left one has no `c`. */
  lemma {:induction false} SplitFirstOf(a: string, b: string, c: char)
    requires c !in a
    ensures c in a + [c] + b && SplitFirst(a + [c] + b, c) == (a, b)
    decreases |a|
  {
    var s := a + [c] + b;
    assert s[|a|] == c;
    if a != [] {
      assert s[1..] == a[1..] + [c] + b;
      SplitFirstOf(a[1..], b, c);
      assert [a[0]] + a[1..] == a;
    }
  }

  /** The first occurrence of a character, pinned down by its defining property. */
  lemma CharIndexIs(s: string, c: char, j: nat)
    requires j < |s| && s[j] == c && c !in s[..j]
    ensures CharIndex(s, c) == Some(j)
  {
  }

  /** Splitting two separator-free pieces joined by the separator. */
  lemma SplitPair(a: string, b: string, c: char)
    requires c !in a && c !in b
    ensures Split(a + [c] + b, c) == [a, b]
  {
    var s := a + [c] + b;
    assert s[|a|] == c && s[..|a|] == a;
    CharIndexIs(s, c, |a|);
    assert s[|a| + 1..] == b;
    assert CharIndex(b, c) == None;
  }

  // Execution

  /** What a tool's code did: returned a result (rendered as text) or raised. */
  datatype ToolOutcome = Ran(result: string) | Raised(error: string)

  /** A tool's `run` as a function of its argument map. */
  datatype Tool = Tool(run: Dict<string, string> -> ToolOutcome)

  /**
   * The tool registry: the tools it holds, by name, and `execute_tool`, the
   * raw-string entry point used for the calculator.
   */
  datatype ToolRegistry = ToolRegistry(tools: map<string, Tool>, executeTool: (string, string) -> ToolOutcome)

  const NoRegistryText: string := "❌ 错误：未配置工具注册表"

  function UnknownToolText(name: string): string {
    "❌ 错误：未找到工具 '" + name + "'"
  }

  function ToolResultText(name: string, result: string): string {
    "🔧 工具 " + name + " 执行结果：\n" + result
  }

  function ToolFailureText(error: string): string {
    "❌ 工具调用失败：" + error
  }

  function OutcomeText(name: string, o: ToolOutcome): string {
    match o
    case Ran(result) => ToolResultText(name, result)
    case Raised(error) => ToolFailureText(error)
  }

  /**
   * `_execute_tool_call`: never raises. The calculator gets the raw
   * argument string; any other tool gets the parsed argument map.
   */
  function ExecuteToolCall(registry: Option<ToolRegistry>, name: string, parameters: string): (r: string)
    ensures registry.None? ==> r == NoRegistryText
    ensures registry.Some? && name == "calculator" ==>
      r == OutcomeText(name, registry.value.executeTool(name, parameters))
    ensures registry.Some? && name != "calculator" && name !in registry.value.tools ==> r == UnknownToolText(name)
    ensures registry.Some? && name != "calculator" && name in registry.value.tools ==>
      r == OutcomeText(name, registry.value.tools[name].run(ToolParameters(name, parameters)))
  {
    match registry
    case None => NoRegistryText
    case Some(reg) =>
      if name == "calculator" then OutcomeText(name, reg.executeTool(name, parameters))
      else if name !in reg.tools then UnknownToolText(name)
      else OutcomeText(name, reg.tools[name].run(ToolParameters(name, parameters)))
  }

  /** The texts of the three error paths and of a result are told apart by their first characters. */
  lemma OutcomeTextsDiffer(name: string, result: string, error: string)
    ensures ToolResultText(name, result) != ToolFailureText(error)
    ensures ToolResultText(name, result) != NoRegistryText && ToolResultText(name, result) != UnknownToolText(name)
  {
    assert ToolResultText(name, result)[0] == '🔧';
    assert ToolFailureText(error)[0] == '❌';
    assert NoRegistryText[0] == '❌';
    assert UnknownToolText(name)[0] == '❌';
  }

  /**
   * `_parse_tool_parameters` as its loop runs over the comma pieces.
   */
  method ParseToolParameters(toolName: string, parameters: string) returns (r: Dict<string, string>)
    ensures r == ToolParameters(toolName, parameters)
  {
    if '=' in parameters {
      if ',' in parameters {
        var pieces := Split(parameters, ',');
        r := Empty();
        for i := 0 to |pieces|
          invariant r == PairsDict(pieces[..i])
        {
          assert pieces[..i + 1][..i] == pieces[..i];
          if '=' in pieces[i] {
            var kv := SplitFirst(pieces[i], '=');
            r := r.Put(Strip(kv.0), Strip(kv.1));
          }
        }
        assert pieces[..|pieces|] == pieces;
      } else {
        var kv := SplitFirst(parameters, '=');
        r := Empty().Put(Strip(kv.0), Strip(kv.1));
      }
    } else if toolName == "search" {
      r := Empty().Put("query", parameters);
    } else if toolName == "memory" {
      r := Empty().Put("action", "search").Put("query", parameters);
    } else {
      r := Empty().Put("input", parameters);
    }
  }
}
