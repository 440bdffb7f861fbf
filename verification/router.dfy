/**
 * The hash router: `parseRoute`, the `render` dispatch (with `renderSound`'s
 * fallback for an unknown sound) and the navigation-highlight rule of
 * `setActiveNav`. Path segments are compared exactly as they appear in the
 * fragment; no percent-decoding is applied.
 */
module Router {
  import opened Wrappers
  import opened Strings
  import Catalogue

  /** `str.split("/")`: the pieces between slashes; `n` slashes give `n + 1` pieces. */
  function Split(s: string): (parts: seq<string>)
    ensures |parts| >= 1
    ensures forall x :: x in parts ==> '/' !in x
    decreases |s|
  {
    if s == [] then [""]
    else if s[0] == '/' then [""] + Split(s[1..])
    else
      var rest := Split(s[1..]);
      [[s[0]] + rest[0]] + rest[1..]
  }

  /** `parts.join("/")` */
  function Join(parts: seq<string>): string
    requires |parts| >= 1
    decreases |parts|
  {
    if |parts| == 1 then parts[0] else parts[0] + "/" + Join(parts[1..])
  }

  /** Extending the first piece extends the joined text at the front. */
  lemma JoinHead(c: string, x: string, rest: seq<string>)
    ensures Join([c + x] + rest) == c + Join([x] + rest)
  {
    if rest != [] {
      var t := "/" + Join(rest);
      assert ([c + x] + rest)[1..] == rest;
      assert ([x] + rest)[1..] == rest;
      assert (c + x) + t == c + (x + t);
    }
  }

  /** Joining the pieces of a split gives back the text. */
  lemma {:induction false} JoinSplit(s: string)
    ensures Join(Split(s)) == s
    decreases |s|
  {
    if s != [] {
      JoinSplit(s[1..]);
      var rest := Split(s[1..]);
      if s[0] == '/' {
        assert Split(s) == [""] + rest;
        assert ([""] + rest)[1..] == rest;
        assert Join(Split(s)) == "" + "/" + Join(rest);
      } else {
        assert Split(s) == [[s[0]] + rest[0]] + rest[1..];
        JoinHead([s[0]], rest[0], rest[1..]);
        assert [rest[0]] + rest[1..] == rest;
      }
      assert s == [s[0]] + s[1..];
    }
  }

  /** Splitting a word with no slash gives that word alone. */
  lemma {:induction false} SplitWord(w: string)
    requires '/' !in w
    ensures Split(w) == [w]
    decreases |w|
  {
    if w != [] {
      SplitWord(w[1..]);
      assert [w[0]] + w[1..] == w;
    }
  }

  /** A slash splits the text into the pieces before it and the pieces after it. */
  lemma {:induction false} SplitAtSlash(a: string, b: string)
    ensures Split(a + "/" + b) == Split(a) + Split(b)
    decreases |a|
  {
    if a == [] {
      assert a + "/" + b == ['/'] + b;
      assert (['/'] + b)[1..] == b;
    } else {
      var s := a + "/" + b;
      assert s[0] == a[0] && s[1..] == a[1..] + "/" + b;
      SplitAtSlash(a[1..], b);
    }
  }

  /** Slash-free pieces survive a join followed by a split. */
  lemma {:induction false} SplitJoin(parts: seq<string>)
    requires |parts| >= 1
    requires forall i :: 0 <= i < |parts| ==> '/' !in parts[i]
    ensures Split(Join(parts)) == parts
    decreases |parts|
  {
    if |parts| == 1 {
      SplitWord(parts[0]);
    } else {
      SplitJoin(parts[1..]);
      SplitWord(parts[0]);
      SplitAtSlash(parts[0], Join(parts[1..]));
      assert parts == [parts[0]] + parts[1..];
    }
  }

  /** `.filter(Boolean)` on strings: the empty string is dropped. */
  function NonEmpty(parts: seq<string>): (r: seq<string>)
    ensures forall i :: 0 <= i < |r| ==> r[i] != ""
    ensures forall x :: x in r ==> x in parts
    decreases |parts|
  {
    if parts == [] then []
    else if parts[0] == "" then NonEmpty(parts[1..])
    else [parts[0]] + NonEmpty(parts[1..])
  }

  lemma {:induction false} NonEmptyAppend(p: seq<string>, q: seq<string>)
    ensures NonEmpty(p + q) == NonEmpty(p) + NonEmpty(q)
    decreases |p|
  {
    if p != [] {
      assert (p + q)[1..] == p[1..] + q;
      NonEmptyAppend(p[1..], q);
    } else {
      assert p + q == q;
    }
  }

  /** The non-empty pieces of a path: `h.split("/").filter(Boolean)`. */
  function Segments(h: string): (segs: seq<string>)
    ensures forall i :: 0 <= i < |segs| ==> segs[i] != "" && '/' !in segs[i]
  {
    NonEmpty(Split(h))
  }

  /**
   * `Segments` is determined by three facts: the empty path has none, a
   * non-empty slash-free word is one segment, and a slash separates the
   * segments on its two sides (so repeated, leading and trailing slashes
   * contribute nothing).
   */
  lemma SegmentsEmpty()
    ensures Segments("") == []
  {
  }

  lemma SegmentsWord(w: string)
    requires w != "" && '/' !in w
    ensures Segments(w) == [w]
  {
    SplitWord(w);
    assert NonEmpty([w]) == [w] + NonEmpty([]);
  }

  lemma SegmentsAtSlash(a: string, b: string)
    ensures Segments(a + "/" + b) == Segments(a) + Segments(b)
  {
    SplitAtSlash(a, b);
    NonEmptyAppend(Split(a), Split(b));
  }

  /** `hash.replace(/^#/, "")`: one leading `#` is removed, if present. */
  function StripHash(hash: string): (h: string)
    ensures hash != [] && hash[0] == '#' ==> "#" + h == hash
    ensures (hash == [] || hash[0] != '#') ==> h == hash
  {
    if hash != [] && hash[0] == '#' then hash[1..] else hash
  }

  /** A parsed route: the first three segments, each `""` when missing. */
  datatype Route = Route(a: string, b: string, c: string)

  function Nth(segs: seq<string>, i: nat): string {
    if i < |segs| then segs[i] else ""
  }

  /** `parseRoute(hash)` */
  function ParseRoute(hash: string): (r: Route)
    ensures '/' !in r.a && '/' !in r.b && '/' !in r.c
    ensures r.b != "" ==> r.a != ""
    ensures r.c != "" ==> r.b != ""
    ensures var segs := Segments(StripHash(hash));
            forall x :: x in [r.a, r.b, r.c] && x != "" ==> x in segs
  {
    var segs := Segments(StripHash(hash));
    Route(Nth(segs, 0), Nth(segs, 1), Nth(segs, 2))
  }

  /** Segments after the third and empty segments do not affect the route. */
  lemma ParseRouteSegments(hash: string)
    ensures var segs := Segments(StripHash(hash));
            var r := ParseRoute(hash);
            (|segs| >= 3 ==> [r.a, r.b, r.c] == segs[..3])
            && (|segs| < 3 ==> ([r.a, r.b, r.c])[..|segs|] == segs
                               && forall i :: |segs| <= i < 3 ==> ([r.a, r.b, r.c])[i] == "")
  {
    var segs := Segments(StripHash(hash));
    var r := ParseRoute(hash);
    var t := [r.a, r.b, r.c];
    assert forall i :: 0 <= i < 3 ==> t[i] == Nth(segs, i);
    if |segs| >= 3 {
      assert forall i :: 0 <= i < 3 ==> t[i] == segs[..3][i];
    } else {
      assert forall i :: 0 <= i < |segs| ==> t[..|segs|][i] == segs[i];
    }
  }

  /** A trailing slash never changes the route. */
  lemma TrailingSlashIgnored(hash: string)
    ensures ParseRoute(hash + "/") == ParseRoute(hash)
  {
    var h := StripHash(hash);
    assert StripHash(hash + "/") == h + "/" by {
      if hash != [] && hash[0] == '#' {
        assert (hash + "/")[1..] == hash[1..] + "/";
      }
    }
    SegmentsAtSlash(h, "");
    assert h + "/" + "" == h + "/";
  }

  lemma ParseRouteHome()
    ensures ParseRoute("#/") == Route("", "", "")
    ensures ParseRoute("") == Route("", "", "")
  {
    SegmentsAtSlash("", "");
  }

  /** A fragment `#/x/y` with two proper segments. */
  lemma {:induction false} ParseRouteTwo(x: string, y: string)
    requires x != "" && '/' !in x && y != "" && '/' !in y
    ensures ParseRoute("#/" + x + "/" + y) == Route(x, y, "")
  {
    var h := "/" + x + "/" + y;
    assert StripHash("#/" + x + "/" + y) == h by {
      assert ("#/" + x + "/" + y)[1..] == h;
    }
    assert h == "" + "/" + (x + "/" + y);
    SegmentsAtSlash("", x + "/" + y);
    SegmentsAtSlash(x, y);
    SegmentsWord(x);
    SegmentsWord(y);
  }

  lemma ParseRouteCategory()
    ensures ParseRoute("#/category/nasales") == Route("category", "nasales", "")
  {
    var x, y := "category", "nasales";
    assert '/' !in x && '/' !in y;
    assert "#/" + x + "/" + y == "#/category/nasales";
    ParseRouteTwo(x, y);
  }

  /** Empty segments are dropped: `#//x/` routes like `#/x`. */
  lemma {:induction false} ParseRouteOneSegment(x: string)
    requires x != "" && '/' !in x
    ensures ParseRoute("#//" + x + "/") == Route(x, "", "")
  {
    var h := "//" + x + "/";
    assert StripHash("#//" + x + "/") == h by {
      assert ("#//" + x + "/")[1..] == h;
    }
    assert h == "" + "/" + ("" + "/" + (x + "/" + ""));
    SegmentsAtSlash("", "" + "/" + (x + "/" + ""));
    SegmentsAtSlash("", x + "/" + "");
    SegmentsAtSlash(x, "");
    SegmentsWord(x);
  }

  lemma ParseRouteExtraSlashes()
    ensures ParseRoute("#//dashboard/") == Route("dashboard", "", "")
  {
    var x := "dashboard";
    assert '/' !in x;
    assert "#//" + x + "/" == "#//dashboard/";
    ParseRouteOneSegment(x);
  }

  /** Only one `#` is removed. */
  lemma ParseRouteDoubleHash()
    ensures ParseRoute("##/x") == Route("#", "x", "")
  {
    var a, b := "#", "x";
    assert StripHash("##/x") == a + "/" + b;
    SegmentsAtSlash(a, b);
    SegmentsWord(a);
    SegmentsWord(b);
  }

  /** The six screens `render` can show. */
  datatype Screen = Home | Dashboard | Settings | Test | Category(catId: string) | SoundPage(sound: Catalogue.Sound)

  /**
   * `render()` after `parseRoute`, including `renderSound`'s fallback: the
   * first path segment picks the screen; `category` and `sound` need a second
   * segment, and a sound identifier that is not exactly one in the catalogue
   * shows the home screen, as does any unrecognised route.
   */
  function Dispatch(r: Route): (s: Screen)
    ensures r.a == "" ==> s == Home
    ensures s == Dashboard <==> r.a == "dashboard"
    ensures s == Settings <==> r.a == "settings"
    ensures s == Test <==> r.a == "test"
    ensures s.Category? <==> r.a == "category" && r.b != ""
    ensures s.Category? ==> s.catId == r.b
    ensures s.SoundPage? <==> r.a == "sound" && exists i :: 0 <= i < |Catalogue.Sounds| && Catalogue.Sounds[i].id == r.b
    ensures s.SoundPage? ==> s.sound in Catalogue.Sounds && s.sound.id == r.b
  {
    if r.a == "" then Home
    else if r.a == "dashboard" then Dashboard
    else if r.a == "settings" then Settings
    else if r.a == "test" then Test
    else if r.a == "category" && r.b != "" then Category(r.b)
    else if r.a == "sound" && r.b != "" then
      match Catalogue.Find(r.b)
      case Some(sound) => SoundPage(sound)
      case None => Home
    else Home
  }

  /** `render()`: the screen shown for the location's fragment (`location.hash`). */
  function Render(locationHash: string): (s: Screen)
    ensures s.Category? ==> s.catId != ""
    ensures s.SoundPage? ==> s.sound in Catalogue.Sounds
  {
    Dispatch(ParseRoute(CurrentHash(locationHash)))
  }

  /** `render()` hides the back button on the home route and shows it elsewhere. */
  predicate BackHidden(locationHash: string) {
    CurrentHash(locationHash) == "#/" || CurrentHash(locationHash) == ""
  }

  /** An empty fragment and `#/` both show the home screen with the back button hidden. */
  lemma RenderHome()
    ensures Render("") == Home && Render("#/") == Home
    ensures BackHidden("") && BackHidden("#/")
    ensures forall l :: BackHidden(l) <==> l == "" || l == "#/"
  {
    ParseRouteHome();
  }

  /** The third segment never matters, nor the second one for the fixed screens. */
  lemma DispatchIgnores(a: string, b: string, b': string, c: string, c': string)
    ensures Dispatch(Route(a, b, c)) == Dispatch(Route(a, b, c'))
    ensures a in ["", "dashboard", "settings", "test"] ==> Dispatch(Route(a, b, c)) == Dispatch(Route(a, b', c'))
  {
  }

  lemma RenderCategory()
    ensures Render("#/category/nasales") == Category("nasales")
  {
    ParseRouteCategory();
  }

  lemma RenderSound()
    ensures Render("#/sound/" + Catalogue.AnId) == SoundPage(Catalogue.Sounds[0])
  {
    var x, y := "sound", Catalogue.AnId;
    assert '/' !in x && '/' !in y;
    assert "#/" + x + "/" + y == "#/sound/" + Catalogue.AnId;
    ParseRouteTwo(x, y);
    assert Catalogue.Sounds[0].id == y;
  }

  /**
   * A browser reports `location.hash` with every character beyond ASCII
   * percent-encoded. An identifier that is all ASCII still opens its page.
   */
  lemma RenderAsciiSound()
    ensures Render("#/sound/" + Catalogue.EuxId) == SoundPage(Catalogue.Sounds[5])
  {
    var x, y := "sound", Catalogue.EuxId;
    assert '/' !in x && '/' !in y;
    assert "#/" + x + "/" + y == "#/sound/" + Catalogue.EuxId;
    ParseRouteTwo(x, y);
    assert Catalogue.Sounds[5].id == y;
  }

  /** The reported form of `#/sound/an-ɑ̃` shows the home screen, not the AN page. */
  lemma RenderReportedAnSound()
    ensures Render(ReportedAn) == Home
  {
    var x, z := "sound", EncodedAnId;
    assert '/' !in x && '/' !in z;
    assert ReportedAn == "#/" + x + "/" + z;
    ParseRouteTwo(x, z);
    EncodedSoundIdShowsHome();
  }

  /**
   * Segments are not percent-decoded: the percent-encoded form of the
   * identifier `an-ɑ̃` (UTF-8 C9 91 CC 83) names no sound, so it shows the
   * home screen.
   */
  lemma EncodedSoundIdShowsHome()
    ensures Dispatch(Route("sound", EncodedAnId, "")) == Home
  {
    assert forall i :: 0 <= i < |Catalogue.Sounds| ==> Catalogue.Sounds[i].id != EncodedAnId;
  }

  /** The identifier `an-ɑ̃` percent-encoded (UTF-8 C9 91 CC 83), and the fragment that names it. */
  const EncodedAnId: string := "an-%C9%91%CC%83"
  const ReportedAn: string := "#/sound/an-%C9%91%CC%83"

  /**
   * `setActiveNav`: a navigation button is highlighted when its target is the
   * current fragment, or when the target is not the home route and prefixes it.
   */
  predicate NavActive(target: string, current: string) {
    target == current || (target != "#/" && StartsWith(current, target))
  }

  /** The home button is active only on the home route; any other on all routes below it. */
  lemma NavActiveRule(target: string, current: string)
    ensures target == "#/" ==> (NavActive(target, current) <==> current == "#/")
    ensures target != "#/" ==> (NavActive(target, current) <==> StartsWith(current, target))
  {
    if target == current {
      assert current[..|target|] == target;
    }
  }

  /** `currentHash()`: an empty fragment reads as the home route. */
  function CurrentHash(locationHash: string): (h: string)
    ensures h != ""
    ensures locationHash != "" ==> h == locationHash
  {
    if locationHash == "" then "#/" else locationHash
  }
}
