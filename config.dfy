/** The CORS part of the application settings. */
module Config {
  import opened Wrappers
  import opened Strings

  const DefaultCorsOrigins: string := "http://localhost:5173,http://localhost:3000"

  function StripAll(ps: seq<string>): (r: seq<string>)
    ensures |r| == |ps| && forall i :: 0 <= i < |ps| ==> r[i] == Strip(ps[i])
  {
    if ps == [] then [] else [Strip(ps[0])] + StripAll(ps[1..])
  }

  /**
   * `get_cors_origins_list`: one entry per comma-separated piece, in order,
   * each stripped; empty pieces are kept.
   */
  function CorsOriginsList(origins: string): (r: seq<string>)
    ensures |r| == CountChar(origins, ',') + 1
    ensures var pieces := Split(origins, ',');
      |r| == |pieces| && forall i :: 0 <= i < |r| ==> r[i] == Strip(pieces[i])
    ensures forall i :: 0 <= i < |r| ==> ',' !in r[i] && NoSurroundingSpace(r[i])
  {
    var r := StripAll(Split(origins, ','));
    forall i | 0 <= i < |r| ensures ',' !in r[i] && NoSurroundingSpace(r[i]) {
      StripInside(Split(origins, ',')[i]);
    }
    r
  }

  /** Stripping only removes characters, so a character absent before is absent after. */
  lemma {:induction false} StripInside(s: string)
    ensures forall c :: c in Strip(s) ==> c in s
    ensures NoSurroundingSpace(Strip(s))
    decreases |s|
  {
    if s != [] && IsSpace(s[0]) {
      StripInside(s[1..]);
      assert forall c :: c in s[1..] ==> c in s;
    } else {
      var r := StripRight(s);
      assert r == s[..|r|];
      assert forall c :: c in r ==> c in s;
    }
  }

  /** The default setting yields the two development origins. */
  lemma DefaultOrigins()
    ensures CorsOriginsList(DefaultCorsOrigins) == ["http://localhost:5173", "http://localhost:3000"]
  {
    var a := "http://localhost:5173";
    var b := "http://localhost:3000";
    assert DefaultCorsOrigins == a + [','] + b;
    TwoOrigins(a, b);
  }

  /** Two clean origins separated by one comma come back as they are. */
  lemma TwoOrigins(a: string, b: string)
    requires ',' !in a && ',' !in b && NoSurroundingSpace(a) && NoSurroundingSpace(b)
    ensures CorsOriginsList(a + [','] + b) == [a, b]
  {
    SplitAround(a, b);
    StripIdentity(a);
    StripIdentity(b);
  }

  lemma SplitAround(a: string, b: string)
    requires ',' !in a && ',' !in b
    ensures Split(a + [','] + b, ',') == [a, b]
  {
    var s := a + [','] + b;
    assert s[..|a|] == a && s[|a| + 1..] == b;
    assert CharIndex(s, ',') == Some(|a|) by {
      CharIndexAfter(a, b);
    }
    assert CharIndex(b, ',') == None;
  }

  lemma CharIndexAfter(a: string, b: string)
    requires ',' !in a
    ensures CharIndex(a + [','] + b, ',') == Some(|a|)
  {
    if a != [] {
      assert (a + [','] + b)[1..] == a[1..] + [','] + b;
      CharIndexAfter(a[1..], b);
    }
  }

  /** A trailing comma yields a final empty origin. */
  lemma TrailingComma(s: string)
    ensures var r := CorsOriginsList(s + ","); r[|r| - 1] == ""
  {
    SplitLastEmpty(s);
  }

  lemma {:induction false} SplitLastEmpty(s: string)
    ensures var p := Split(s + ",", ','); p[|p| - 1] == ""
    decreases |s|
  {
    var t := s + ",";
    match CharIndex(t, ',')
    case None =>
      assert false;
    case Some(i) =>
      if i == |s| {
        assert t[i + 1..] == "";
      } else {
        assert t[i + 1..] == s[i + 1..] + ",";
        SplitLastEmpty(s[i + 1..]);
      }
  }
}
