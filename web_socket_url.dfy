/**
 * The rewrite of an HTTP endpoint URL into the streaming WebSocket URL that
 * both the streaming client and the connection test perform before they
 * connect: the scheme `https://` becomes `wss://` (or `http://` becomes
 * `ws://`) and every `/tts` becomes `/tts-stream`, with Python's
 * all-occurrences `str.replace`.
 */
module WebSocketUrl {

  predicate StartsWith(s: string, prefix: string)
  {
    |prefix| <= |s| && s[..|prefix|] == prefix
  }

  /**
   * Python's `s.replace(pat, rep)` for a non-empty `pat`: scanning from the
   * left, every occurrence of `pat` that does not overlap an earlier
   * replaced one becomes `rep`.
   */
  function ReplaceAll(s: string, pat: string, rep: string): string
    requires pat != []
    decreases |s|
  {
    if s == [] then []
    else if StartsWith(s, pat) then rep + ReplaceAll(s[|pat|..], pat, rep)
    else [s[0]] + ReplaceAll(s[1..], pat, rep)
  }

  /** The path rewrite of the client: every `/tts` becomes `/tts-stream`. */
  function ExpandTts(s: string): string
  {
    ReplaceAll(s, "/tts", "/tts-stream")
  }

  /** The inverse rewrite, used only to state what ExpandTts preserves. */
  function RestoreTts(s: string): string
  {
    ReplaceAll(s, "/tts-stream", "/tts")
  }

  /** Every `/tts` in `r` is the start of a `/tts-stream`. */
  predicate TtsAlwaysStreams(r: string)
  {
    forall i :: 0 <= i < |r| && StartsWith(r[i..], "/tts") ==> StartsWith(r[i..], "/tts-stream")
  }

  /**
   * The WebSocket URL the client connects to (`ws_url`): a URL that starts
   * with an HTTP(S) scheme gets the matching WebSocket scheme, and every
   * occurrence of that scheme string elsewhere in the URL is swapped too;
   * then every `/tts` becomes `/tts-stream`. Anything else is taken to be a
   * WebSocket URL already. Undoing the path rewrite gives back the swapped
   * URL, and no bare `/tts` is left, which together fix the result exactly
   * (ExpandTtsCharacterised).
   */
  function ToWebSocketUrl(url: string): (r: string)
    ensures StartsWith(url, "https://") ==>
              StartsWith(r, "wss://") && RestoreTts(r) == ReplaceAll(url, "https://", "wss://")
              && TtsAlwaysStreams(r)
    ensures !StartsWith(url, "https://") && StartsWith(url, "http://") ==>
              StartsWith(r, "ws://") && RestoreTts(r) == ReplaceAll(url, "http://", "ws://")
              && TtsAlwaysStreams(r)
    ensures r == url <==> !StartsWith(url, "https://") && !StartsWith(url, "http://")
  {
    if StartsWith(url, "https://") then
      var swapped := ReplaceAll(url, "https://", "wss://");
      var rest := ReplaceAll(url[8..], "https://", "wss://");
      assert swapped == "wss://" + rest == "wss:/" + "/" + rest;
      SchemeSurvivesExpand("wss:/", rest);
      RestoreExpand(swapped);
      ExpandLeavesNoBareTts(swapped);
      ExpandTts(swapped)
    else if StartsWith(url, "http://") then
      var swapped := ReplaceAll(url, "http://", "ws://");
      var rest := ReplaceAll(url[7..], "http://", "ws://");
      assert swapped == "ws://" + rest == "ws:/" + "/" + rest;
      SchemeSurvivesExpand("ws:/", rest);
      RestoreExpand(swapped);
      ExpandLeavesNoBareTts(swapped);
      ExpandTts(swapped)
    else
      url
  }

  /** A rewrite whose replacement starts like its pattern keeps the first character. */
  lemma ReplaceAllHead(t: string, pat: string, rep: string)
    requires pat != [] && rep != [] && rep[0] == pat[0] && t != []
    ensures ReplaceAll(t, pat, rep) != [] && ReplaceAll(t, pat, rep)[0] == t[0]
  {
  }

  /** A prefix at none of whose positions the pattern starts passes through ReplaceAll unchanged. */
  lemma {:induction false} ReplaceKeepsPrefix(p: string, t: string, pat: string, rep: string)
    requires pat != []
    requires forall i :: 0 <= i < |p| ==> !StartsWith((p + t)[i..], pat)
    ensures ReplaceAll(p + t, pat, rep) == p + ReplaceAll(t, pat, rep)
  {
    if p != [] {
      assert !StartsWith((p + t)[0..], pat);
      assert (p + t)[0..] == p + t;
      assert (p + t)[1..] == p[1..] + t;
      forall i | 0 <= i < |p[1..]|
        ensures !StartsWith((p[1..] + t)[i..], pat)
      {
        assert (p[1..] + t)[i..] == (p + t)[i + 1..];
      }
      ReplaceKeepsPrefix(p[1..], t, pat, rep);
    }
  }

  /** `/tts` starts nowhere inside the scheme `<ws>:/` when a `/` follows it. */
  lemma SchemeHasNoTts(scheme: string, t: string)
    requires scheme == "wss:/" || scheme == "ws:/"
    requires t != [] && t[0] == '/'
    ensures forall i :: 0 <= i < |scheme| ==> !StartsWith((scheme + t)[i..], "/tts")
  {
    forall i | 0 <= i < |scheme|
      ensures !StartsWith((scheme + t)[i..], "/tts")
    {
      if i < |scheme| - 1 {
        assert (scheme + t)[i..][0] == scheme[i] != '/';
      } else {
        assert (scheme + t)[i..][1] == '/';
      }
    }
  }

  /** After the scheme swap, the scheme `<ws>:/` + `/` survives the path rewrite. */
  lemma SchemeSurvivesExpand(scheme: string, rest: string)
    requires scheme == "wss:/" || scheme == "ws:/"
    ensures StartsWith(ExpandTts(scheme + "/" + rest), scheme + "/")
  {
    var t := "/" + rest;
    assert scheme + "/" + rest == scheme + t;
    SchemeHasNoTts(scheme, t);
    ReplaceKeepsPrefix(scheme, t, "/tts", "/tts-stream");
    ReplaceAllHead(t, "/tts", "/tts-stream");
    var e := ExpandTts(scheme + t);
    assert e == scheme + ExpandTts(t);
    assert e[..|scheme| + 1] == scheme + "/";
  }

  /**
   * For a rewrite between two strings that both start with `/tts`: `/tts`
   * starts at the head of a head followed by the rewritten rest only if it
   * already started at the head before the rewrite.
   */
  lemma ReplacedTailKeepsTts(s: string, pat: string, rep: string)
    requires StartsWith(pat, "/tts") && StartsWith(rep, "/tts") && s != []
    ensures StartsWith([s[0]] + ReplaceAll(s[1..], pat, rep), "/tts") ==> StartsWith(s, "/tts")
  {
    var t := s[1..];
    var x := ReplaceAll(t, pat, rep);
    var e := [s[0]] + x;
    if StartsWith(e, "/tts") {
      assert e[..4] == "/tts";
      assert x[..3] == e[1..4];
      ReplaceAllHead(t, pat, rep);
      var x1 := ReplaceAll(t[1..], pat, rep);
      assert x == [t[0]] + x1;
      ReplaceAllHead(t[1..], pat, rep);
      var x2 := ReplaceAll(t[2..], pat, rep);
      assert t[1..][1..] == t[2..];
      assert x1[0] == x[1];
      assert x1 == [t[1]] + x2;
      ReplaceAllHead(t[2..], pat, rep);
      assert x2[0] == x[2];
      assert s[..4] == [s[0], t[0], t[1], t[2]];
    }
  }

  /** The path rewrite loses nothing: undoing it gives back the original text. */
  lemma {:induction false} RestoreExpand(s: string)
    ensures RestoreTts(ExpandTts(s)) == s
  {
    if s == [] {
    } else if StartsWith(s, "/tts") {
      var x := ExpandTts(s[4..]);
      var e := "/tts-stream" + x;
      assert ExpandTts(s) == e;
      assert StartsWith(e, "/tts-stream");
      assert e[11..] == x;
      RestoreExpand(s[4..]);
      assert s == "/tts" + s[4..];
    } else {
      var x := ExpandTts(s[1..]);
      var e := [s[0]] + x;
      assert ExpandTts(s) == e;
      ReplacedTailKeepsTts(s, "/tts", "/tts-stream");
      assert e[1..] == x;
      RestoreExpand(s[1..]);
      assert s == [s[0]] + s[1..];
    }
  }

  /** The path rewrite leaves no `/tts` that is not the start of a `/tts-stream`. */
  lemma {:induction false} ExpandLeavesNoBareTts(s: string)
    ensures TtsAlwaysStreams(ExpandTts(s))
    decreases |s|
  {
    var e := ExpandTts(s);
    if s == [] {
    } else if StartsWith(s, "/tts") {
      var x := ExpandTts(s[4..]);
      assert e == "/tts-stream" + x;
      ExpandLeavesNoBareTts(s[4..]);
      assert e[0..] == e;
      assert StartsWith(e[0..], "/tts-stream");
      forall i | 0 < i < 11
        ensures !StartsWith(e[i..], "/tts")
      {
        assert e[i..][0] == "/tts-stream"[i];
      }
      forall i | 11 <= i < |e| && StartsWith(e[i..], "/tts")
        ensures StartsWith(e[i..], "/tts-stream")
      {
        assert e[i..] == x[i - 11..];
      }
    } else {
      var x := ExpandTts(s[1..]);
      assert e == [s[0]] + x;
      ExpandLeavesNoBareTts(s[1..]);
      ReplacedTailKeepsTts(s, "/tts", "/tts-stream");
      assert e[0..] == e;
      assert !StartsWith(e[0..], "/tts");
      forall i | 1 <= i < |e| && StartsWith(e[i..], "/tts")
        ensures StartsWith(e[i..], "/tts-stream")
      {
        assert e[i..] == x[i - 1..];
      }
    }
  }

  /**
   * The two promises of the path rewrite determine it: a string whose every
   * `/tts` starts a `/tts-stream` and whose inverse rewrite is `s` is the
   * rewrite of `s`.
   */
  lemma {:induction false} ExpandTtsCharacterised(r: string, s: string)
    requires TtsAlwaysStreams(r) && RestoreTts(r) == s
    ensures r == ExpandTts(s)
    decreases |r|
  {
    if r == [] {
    } else if StartsWith(r, "/tts-stream") {
      var u := r[11..];
      assert TtsAlwaysStreams(u) by {
        forall i | 0 <= i < |u| && StartsWith(u[i..], "/tts")
          ensures StartsWith(u[i..], "/tts-stream")
        {
          assert u[i..] == r[i + 11..];
        }
      }
      ExpandTtsCharacterised(u, RestoreTts(u));
      assert s == "/tts" + RestoreTts(u);
      ExpandAtTts(RestoreTts(u));
      assert r == "/tts-stream" + u;
    } else {
      var u := r[1..];
      assert r[0..] == r;
      assert !StartsWith(r, "/tts");
      assert TtsAlwaysStreams(u) by {
        forall i | 0 <= i < |u| && StartsWith(u[i..], "/tts")
          ensures StartsWith(u[i..], "/tts-stream")
        {
          assert u[i..] == r[i + 1..];
        }
      }
      ExpandTtsCharacterised(u, RestoreTts(u));
      assert s == [r[0]] + RestoreTts(u);
      ReplacedTailKeepsTts(r, "/tts-stream", "/tts");
      ExpandPastHead(r[0], RestoreTts(u));
      assert r == [r[0]] + u;
    }
  }

  /** A prefix in which the pattern's first character never occurs passes through ReplaceAll unchanged. */
  lemma ReplaceKeepsHeadFree(p: string, t: string, pat: string, rep: string)
    requires pat != []
    requires forall i :: 0 <= i < |p| ==> p[i] != pat[0]
    ensures ReplaceAll(p + t, pat, rep) == p + ReplaceAll(t, pat, rep)
  {
    forall i | 0 <= i < |p|
      ensures !StartsWith((p + t)[i..], pat)
    {
      assert (p + t)[i..][0] == p[i];
    }
    ReplaceKeepsPrefix(p, t, pat, rep);
  }

  /** An occurrence of `/tts` at the head is rewritten and the scan goes on after it. */
  lemma ExpandAtTts(x: string)
    ensures ExpandTts("/tts" + x) == "/tts-stream" + ExpandTts(x)
  {
    assert StartsWith("/tts" + x, "/tts");
    assert ("/tts" + x)[4..] == x;
  }

  /** A head at which `/tts` does not start is kept and the scan goes on after it. */
  lemma ExpandPastHead(c: char, t: string)
    requires !StartsWith([c] + t, "/tts")
    ensures ExpandTts([c] + t) == [c] + ExpandTts(t)
  {
    assert ([c] + t)[1..] == t;
  }

  /** A `/tts-stream` with no `/tts` starting before it comes out as `/tts-stream-stream`. */
  lemma ExistingStreamPathDoubled(p: string, q: string)
    requires forall i :: 0 <= i < |p| ==> !StartsWith((p + "/tts-stream" + q)[i..], "/tts")
    ensures ExpandTts(p + "/tts-stream" + q) == p + "/tts-stream-stream" + ExpandTts(q)
  {
    var t := "/tts" + ("-stream" + q);
    assert p + "/tts-stream" + q == p + t;
    ReplaceKeepsPrefix(p, t, "/tts", "/tts-stream");
    ExpandAtTts("-stream" + q);
    ReplaceKeepsHeadFree("-stream", q, "/tts", "/tts-stream");
    StreamSuffixJoined(p, ExpandTts(q));
  }

  lemma StreamSuffixJoined(p: string, x: string)
    ensures p + ("/tts-stream" + ("-stream" + x)) == p + "/tts-stream-stream" + x
  {
    assert "/tts-stream" + ("-stream" + x) == "/tts-stream-stream" + x;
  }

  /** The rewrite does not stop at the path: a host name that begins with `tts` becomes `tts-stream`. */
  lemma HostStartingWithTts(rest: string)
    ensures StartsWith(ToWebSocketUrl("https://tts" + rest), "wss://tts-stream")
  {
    var url := "https://tts" + rest;
    assert StartsWith(url, "https://");
    assert url[8..] == "tts" + rest;
    ReplaceKeepsHeadFree("tts", rest, "https://", "wss://");
    var r := ReplaceAll(rest, "https://", "wss://");
    var swapped := ReplaceAll(url, "https://", "wss://");
    assert swapped == "wss:" + ("/" + ("/tts" + r));
    ReplaceKeepsHeadFree("wss:", "/" + ("/tts" + r), "/tts", "/tts-stream");
    ExpandPastHead('/', "/tts" + r);
    ExpandAtTts(r);
    WssTtsStreamPrefix(ExpandTts(r));
  }

  lemma WssTtsStreamPrefix(x: string)
    ensures StartsWith("wss:" + ("/" + ("/tts-stream" + x)), "wss://tts-stream")
  {
    assert "wss:" + ("/" + ("/tts-stream" + x)) == "wss://tts-stream" + x;
  }

  /**
   * The scheme swap is not confined to the scheme: a second `https://` later
   * in the URL, such as one in a query string, is swapped to `wss://` too.
   */
  lemma NestedSchemeSwapped(a: string, b: string)
    requires forall i :: 0 <= i < |a| ==> a[i] != 'h'
    ensures RestoreTts(ToWebSocketUrl("https://" + a + "https://" + b))
              == "wss://" + a + "wss://" + ReplaceAll(b, "https://", "wss://")
  {
    var url := "https://" + a + "https://" + b;
    assert StartsWith(url, "https://");
    SwapBothSchemes(a, b);
  }

  /** The scheme swap on a URL with a second `https://` after an `h`-free stretch. */
  lemma SwapBothSchemes(a: string, b: string)
    requires forall i :: 0 <= i < |a| ==> a[i] != 'h'
    ensures ReplaceAll("https://" + a + "https://" + b, "https://", "wss://")
              == "wss://" + a + "wss://" + ReplaceAll(b, "https://", "wss://")
  {
    var url := "https://" + a + "https://" + b;
    assert StartsWith(url, "https://");
    assert url[8..] == a + ("https://" + b);
    ReplaceKeepsHeadFree(a, "https://" + b, "https://", "wss://");
    assert ("https://" + b)[8..] == b;
    assert StartsWith("https://" + b, "https://");
    assert ReplaceAll(url, "https://", "wss://") == "wss://" + (a + ("wss://" + ReplaceAll(b, "https://", "wss://")));
  }
}
