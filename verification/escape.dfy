/**
 * `escapeHtml`: four `replaceAll` passes over the text, `&` first, then
 * `<`, `>` and `"`. The passes are shown to equal escaping each character on
 * its own, which in turn is undone by decoding the four entities.
 */
module Escape {
  import opened Wrappers
  import opened Strings

  /** `s.replaceAll(pat, rep)` for a non-empty pattern: matches found left to right, never overlapping. */
  function ReplaceAll(s: string, pat: string, rep: string): (r: string)
    requires pat != []
    ensures !Contains(s, pat) ==> r == s
    decreases |s|
  {
    if |s| < |pat| then s
    else if s[..|pat|] == pat then rep + ReplaceAll(s[|pat|..], pat, rep)
    else [s[0]] + ReplaceAll(s[1..], pat, rep)
  }

  /** The four entities. */
  const Amp: string := "&amp;"
  const Lt: string := "&lt;"
  const Gt: string := "&gt;"
  const Quot: string := "&quot;"

  /** `escapeHtml(s)`, with `null` / `undefined` as `None`. */
  function EscapeHtml(s: Option<string>): (r: string)
    ensures s.None? ==> r == ""
  {
    var t := s.GetOr("");
    ReplaceAll(ReplaceAll(ReplaceAll(ReplaceAll(t, "&", Amp), "<", Lt), ">", Gt), "\"", Quot)
  }

  /** The replacement for one character. */
  function EscapeChar(c: char): (r: string)
    ensures '<' !in r && '>' !in r && '"' !in r
    ensures c !in "&<>\"" ==> r == [c]
  {
    if c == '&' then Amp
    else if c == '<' then Lt
    else if c == '>' then Gt
    else if c == '"' then Quot
    else [c]
  }

  /** Each character replaced on its own. */
  function EscapeEach(s: string): (r: string)
    ensures '<' !in r && '>' !in r && '"' !in r
    decreases |s|
  {
    if s == [] then [] else EscapeChar(s[0]) + EscapeEach(s[1..])
  }

  /** Substituting one character, position by position. */
  function MapChar(s: string, c: char, rep: string): string
    decreases |s|
  {
    if s == [] then [] else (if s[0] == c then rep else [s[0]]) + MapChar(s[1..], c, rep)
  }

  /** A one-character `replaceAll` is a per-character substitution. */
  lemma {:induction false} ReplaceAllChar(s: string, c: char, rep: string)
    ensures ReplaceAll(s, [c], rep) == MapChar(s, c, rep)
    decreases |s|
  {
    if s != [] {
      ReplaceAllChar(s[1..], c, rep);
      assert s[..1] == [s[0]];
    }
  }

  lemma {:induction false} MapCharAppend(a: string, b: string, c: char, rep: string)
    ensures MapChar(a + b, c, rep) == MapChar(a, c, rep) + MapChar(b, c, rep)
    decreases |a|
  {
    if a == [] {
      assert a + b == b;
    } else {
      assert (a + b)[1..] == a[1..] + b;
      MapCharAppend(a[1..], b, c, rep);
    }
  }

  lemma {:induction false} MapCharAbsent(s: string, c: char, rep: string)
    requires c !in s
    ensures MapChar(s, c, rep) == s
    decreases |s|
  {
    if s != [] {
      MapCharAbsent(s[1..], c, rep);
      assert s == [s[0]] + s[1..];
    }
  }

  /** The four passes, each written as a per-character substitution. */
  function Passes(s: string): string {
    MapChar(MapChar(MapChar(MapChar(s, '&', Amp), '<', Lt), '>', Gt), '"', Quot)
  }

  lemma PassesAppend(a: string, b: string)
    ensures Passes(a + b) == Passes(a) + Passes(b)
  {
    var r1a, r1b := MapChar(a, '&', Amp), MapChar(b, '&', Amp);
    MapCharAppend(a, b, '&', Amp);
    var r2a, r2b := MapChar(r1a, '<', Lt), MapChar(r1b, '<', Lt);
    MapCharAppend(r1a, r1b, '<', Lt);
    var r3a, r3b := MapChar(r2a, '>', Gt), MapChar(r2b, '>', Gt);
    MapCharAppend(r2a, r2b, '>', Gt);
    MapCharAppend(r3a, r3b, '"', Quot);
  }

  lemma MapCharOne(c: char, d: char, rep: string)
    ensures MapChar([c], d, rep) == if c == d then rep else [c]
  {
    assert [c][1..] == [];
  }

  /** A replacement that a later pass's character does not occur in survives that pass. */
  lemma MapCharKeeps(r: string, d: char, rep: string)
    requires d !in r
    ensures MapChar(r, d, rep) == r
  {
    MapCharAbsent(r, d, rep);
  }

  lemma PassesAmp()
    ensures Passes(['&']) == Amp
  {
    var r1 := MapChar(['&'], '&', Amp);
    assert r1 == Amp by { MapCharOne('&', '&', Amp); }
    assert '<' !in Amp && '>' !in Amp && '"' !in Amp;
    var r2 := MapChar(r1, '<', Lt);
    assert r2 == Amp by { MapCharKeeps(Amp, '<', Lt); }
    var r3 := MapChar(r2, '>', Gt);
    assert r3 == Amp by { MapCharKeeps(Amp, '>', Gt); }
    assert MapChar(r3, '"', Quot) == Amp by { MapCharKeeps(Amp, '"', Quot); }
  }

  lemma PassesLt()
    ensures Passes(['<']) == Lt
  {
    MapCharOne('<', '&', Amp);
    MapCharOne('<', '<', Lt);
    MapCharKeeps(Lt, '>', Gt);
    MapCharKeeps(Lt, '"', Quot);
  }

  lemma PassesGt()
    ensures Passes(['>']) == Gt
  {
    MapCharOne('>', '&', Amp);
    MapCharOne('>', '<', Lt);
    MapCharOne('>', '>', Gt);
    MapCharKeeps(Gt, '"', Quot);
  }

  lemma PassesQuot()
    ensures Passes(['"']) == Quot
  {
    MapCharOne('"', '&', Amp);
    MapCharOne('"', '<', Lt);
    MapCharOne('"', '>', Gt);
    MapCharOne('"', '"', Quot);
  }

  lemma PassesOther(c: char)
    requires c != '&' && c != '<' && c != '>' && c != '"'
    ensures Passes([c]) == [c]
  {
    MapCharOne(c, '&', Amp);
    MapCharOne(c, '<', Lt);
    MapCharOne(c, '>', Gt);
    MapCharOne(c, '"', Quot);
  }

  /** On one character, the four passes give that character's replacement. */
  lemma PassesChar(c: char)
    ensures Passes([c]) == EscapeChar(c)
  {
    if c == '&' {
      PassesAmp();
    } else if c == '<' {
      PassesLt();
    } else if c == '>' {
      PassesGt();
    } else if c == '"' {
      PassesQuot();
    } else {
      PassesOther(c);
    }
  }

  /** The four sequential passes equal escaping each character independently. */
  lemma {:induction false} PassesEach(s: string)
    ensures Passes(s) == EscapeEach(s)
    decreases |s|
  {
    if s != [] {
      PassesEach(s[1..]);
      assert s == [s[0]] + s[1..];
      PassesAppend([s[0]], s[1..]);
      PassesChar(s[0]);
    }
  }

  /**
   * `escapeHtml` equals per-character escaping; its output holds no `<`,
   * `>` or `"`; null and undefined give the empty string.
   */
  lemma EscapeHtmlPerChar(s: string)
    ensures EscapeHtml(Some(s)) == EscapeEach(s)
    ensures '<' !in EscapeHtml(Some(s)) && '>' !in EscapeHtml(Some(s)) && '"' !in EscapeHtml(Some(s))
    ensures EscapeHtml(None) == ""
  {
    var r1 := ReplaceAll(s, "&", Amp);
    ReplaceAllChar(s, '&', Amp);
    var r2 := ReplaceAll(r1, "<", Lt);
    ReplaceAllChar(r1, '<', Lt);
    var r3 := ReplaceAll(r2, ">", Gt);
    ReplaceAllChar(r2, '>', Gt);
    ReplaceAllChar(r3, '"', Quot);
    PassesEach(s);
  }

  /** Text without the four special characters is left as it is. */
  lemma {:induction false} EscapeEachPlain(s: string)
    requires forall i :: 0 <= i < |s| ==> s[i] !in "&<>\""
    ensures EscapeEach(s) == s
    decreases |s|
  {
    if s != [] {
      EscapeEachPlain(s[1..]);
      assert s == [s[0]] + s[1..];
    }
  }

  /** Decoding the four entities `escapeHtml` writes. */
  function Unescape(s: string): string
    decreases |s|
  {
    if s == [] then []
    else if StartsWith(s, Amp) then "&" + Unescape(s[|Amp|..])
    else if StartsWith(s, Lt) then "<" + Unescape(s[|Lt|..])
    else if StartsWith(s, Gt) then ">" + Unescape(s[|Gt|..])
    else if StartsWith(s, Quot) then "\"" + Unescape(s[|Quot|..])
    else [s[0]] + Unescape(s[1..])
  }

  lemma UnescapeAmp(rest: string)
    ensures Unescape(Amp + rest) == "&" + Unescape(rest)
  {
    var e := Amp + rest;
    assert e[..|Amp|] == Amp && e[|Amp|..] == rest;
  }

  lemma UnescapeLt(rest: string)
    ensures Unescape(Lt + rest) == "<" + Unescape(rest)
  {
    var e := Lt + rest;
    assert e[1] == Lt[1] != Amp[1];
    assert e[..|Lt|] == Lt && e[|Lt|..] == rest;
  }

  lemma UnescapeGt(rest: string)
    ensures Unescape(Gt + rest) == ">" + Unescape(rest)
  {
    var e := Gt + rest;
    assert e[1] == Gt[1] != Amp[1] && Gt[1] != Lt[1];
    assert e[..|Gt|] == Gt && e[|Gt|..] == rest;
  }

  lemma UnescapeQuot(rest: string)
    ensures Unescape(Quot + rest) == "\"" + Unescape(rest)
  {
    var e := Quot + rest;
    assert e[1] == Quot[1] != Amp[1] && Quot[1] != Lt[1] && Quot[1] != Gt[1];
    assert e[..|Quot|] == Quot && e[|Quot|..] == rest;
  }

  lemma UnescapePlain(c: char, rest: string)
    requires c != '&'
    ensures Unescape([c] + rest) == [c] + Unescape(rest)
  {
    var e := [c] + rest;
    assert e[0] == c != Amp[0] && Lt[0] == Gt[0] == Quot[0] == Amp[0];
    assert e[1..] == rest;
  }

  lemma UnescapeChar(c: char, rest: string)
    ensures Unescape(EscapeChar(c) + rest) == [c] + Unescape(rest)
  {
    if c == '&' {
      UnescapeAmp(rest);
    } else if c == '<' {
      UnescapeLt(rest);
    } else if c == '>' {
      UnescapeGt(rest);
    } else if c == '"' {
      UnescapeQuot(rest);
    } else {
      UnescapePlain(c, rest);
    }
  }

  /** Decoding undoes escaping, so `escapeHtml` never maps two texts to one. */
  lemma {:induction false} UnescapeEscape(s: string)
    ensures Unescape(EscapeHtml(Some(s))) == s
    decreases |s|
  {
    EscapeHtmlPerChar(s);
    UnescapeEach(s);
  }

  lemma {:induction false} UnescapeEach(s: string)
    ensures Unescape(EscapeEach(s)) == s
    decreases |s|
  {
    if s != [] {
      UnescapeEach(s[1..]);
      UnescapeChar(s[0], EscapeEach(s[1..]));
      assert s == [s[0]] + s[1..];
    }
  }
}
