/** The address the browser is sent to in order to start the authorization-code flow
    (the authorization request of section 4.1.1 of RFC 6749), built the way the server builds it:
    four `key=value` pairs in a fixed order, joined with `&`, and no percent-encoding at all. */
module AuthorizationUrl {
  import opened PyBuiltins

  const AUTH_URL := "https://accounts.spotify.com/authorize"
  const REDIRECT_URI := "http://localhost:5000/callback"

  /** The requested permissions, space-separated; the third piece ends in two spaces, so the
      list holds one empty scope between `user-modify-playback-state` and
      `user-read-currently-playing`. */
  const SCOPE := "user-read-private user-read-email "
               + "user-modify-playback-state  "
               + "user-read-currently-playing "
               + "user-read-playback-state "
               + "playlist-read-private "
               + "playlist-read-collaborative"

  /** The query parameters, in the order of the dict literal that holds them. */
  function QueryParams(clientId: Option<string>): (ps: seq<(string, string)>)
    ensures |ps| == 4
    ensures ps[0] == ("response_type", "code") && ps[3] == ("client_id", Show(clientId))
  {
    [("response_type", "code"), ("redirect_uri", REDIRECT_URI), ("scope", SCOPE), ("client_id", Show(clientId))]
  }

  /** `"&".join(f"{key}={val}" for key, val in ps)`. */
  function JoinParams(ps: seq<(string, string)>): string
  {
    if ps == [] then ""
    else if |ps| == 1 then ps[0].0 + "=" + ps[0].1
    else JoinParams(ps[..|ps| - 1]) + "&" + ps[|ps| - 1].0 + "=" + ps[|ps| - 1].1
  }

  /** The authorization URL for the client id currently held by the server (`None` before the
      credentials window has handed one over, which the URL then spells "None"). */
  function AuthUrl(clientId: Option<string>): (url: string)
    ensures url == AUTH_URL + "?" + ("response_type" + "=" + "code" + "&" + "redirect_uri" + "=" + REDIRECT_URI
                                     + "&" + "scope" + "=" + SCOPE + "&" + "client_id" + "=" + Show(clientId))
  {
    var ps := QueryParams(clientId);
    JoinFour(ps);
    AUTH_URL + "?" + JoinParams(ps)
  }

  /** Four pairs join as `k0=v0&k1=v1&k2=v2&k3=v3`. */
  lemma JoinFour(ps: seq<(string, string)>)
    requires |ps| == 4
    ensures JoinParams(ps) == ps[0].0 + "=" + ps[0].1 + "&" + ps[1].0 + "=" + ps[1].1
                              + "&" + ps[2].0 + "=" + ps[2].1 + "&" + ps[3].0 + "=" + ps[3].1
  {
    var p3, p2, p1 := ps[..3], ps[..2], ps[..1];
    assert p3[..2] == p2 && p2[..1] == p1 && p1 == [ps[0]];
    assert JoinParams(p1) == ps[0].0 + "=" + ps[0].1;
    assert JoinParams(p2) == JoinParams(p1) + "&" + ps[1].0 + "=" + ps[1].1;
    assert JoinParams(p3) == JoinParams(p2) + "&" + ps[2].0 + "=" + ps[2].1;
    assert JoinParams(ps) == JoinParams(p3) + "&" + ps[3].0 + "=" + ps[3].1;
  }

  /** The scope holds an empty entry: the two spaces after `user-modify-playback-state` (60
      characters in) are kept, and `AuthUrl` places the scope in the URL verbatim, unescaped. */
  lemma ScopeHasDoubleSpace()
    ensures |SCOPE| >= 62 && SCOPE[60..62] == "  "
  {
    var first := "user-read-private user-read-email ";
    var piece := "user-modify-playback-state  ";
    var rest := ["user-read-currently-playing ", "user-read-playback-state ", "playlist-read-private ",
                 "playlist-read-collaborative"];
    InfixAt(first, piece, rest[0], rest[1], rest[2], rest[3], 26);
    assert piece[26..28] == "  ";
  }

  /** Two characters of the piece `m` sit `|h|` places into the concatenation. */
  lemma InfixAt(h: string, m: string, t1: string, t2: string, t3: string, t4: string, i: nat)
    requires i + 2 <= |m|
    ensures (h + m + t1 + t2 + t3 + t4)[|h| + i..|h| + i + 2] == m[i..i + 2]
  {
    var r := h + m + t1 + t2 + t3 + t4;
    assert r[|h| + i] == m[i] && r[|h| + i + 1] == m[i + 1];
  }

  /** The text after a known prefix is determined by the whole. */
  lemma TailDetermined(p: string, x: string, y: string)
    requires p + x == p + y
    ensures x == y
  {
    assert x == (p + x)[|p|..];
  }

  /** `x + (q + s)` regrouped as `(x + q) + s`. */
  lemma Regroup(x: string, q: string, s: string)
    ensures x + (q + s) == (x + q) + s
  {
  }

  /** The client id is the tail of the URL, so two URLs are equal only when the client ids are
      spelled the same. */
  lemma AuthUrlInjective(a: Option<string>, b: Option<string>)
    requires AuthUrl(a) == AuthUrl(b)
    ensures Show(a) == Show(b)
  {
    var x := AUTH_URL + "?";
    var q := "response_type" + "=" + "code" + "&" + "redirect_uri" + "=" + REDIRECT_URI
             + "&" + "scope" + "=" + SCOPE + "&" + "client_id" + "=";
    Regroup(x, q, Show(a));
    Regroup(x, q, Show(b));
    TailDetermined(x + q, Show(a), Show(b));
  }
}
