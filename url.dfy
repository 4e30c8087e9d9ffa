/** A minimal model of the browser's URL class, as far as the clients use it:
    `new URL(s)` either throws or yields a record, the `pathname` setter replaces
    the path, and `toString()` writes the record back. Only the form
    `scheme://host[path][?query][#fragment]` is recognised; case folding, default
    ports, dot segments and percent-encoding are not modelled. */
module Url {
  import opened Signaling

  /** `suffix` is the query and fragment, kept as written. */
  datatype Url = Url(scheme: string, host: string, path: string, suffix: string)

  /** Splits s before its first character that is in stops: the part before it,
      and the rest, which is empty or starts with that character. */
  function SplitAt(s: string, stops: set<char>): (r: (string, string))
    ensures r.0 + r.1 == s
    ensures forall k :: 0 <= k < |r.0| ==> r.0[k] !in stops
    ensures r.1 == [] || r.1[0] in stops
  {
    if s == [] || s[0] in stops then ([], s)
    else
      var (before, rest) := SplitAt(s[1..], stops);
      assert [s[0]] + before + rest == s;
      ([s[0]] + before, rest)
  }

  /** SplitAt finds the one split with no stop character before it. */
  lemma {:induction false} SplitAtUnique(before: string, rest: string, stops: set<char>)
    requires forall k :: 0 <= k < |before| ==> before[k] !in stops
    requires rest == [] || rest[0] in stops
    ensures SplitAt(before + rest, stops) == (before, rest)
  {
    if before == [] {
      assert before + rest == rest;
    } else {
      assert (before + rest)[0] == before[0];
      assert (before + rest)[1..] == before[1..] + rest;
      SplitAtUnique(before[1..], rest, stops);
      assert [before[0]] + before[1..] == before;
    }
  }

  function ToString(u: Url): string {
    u.scheme + "://" + u.host + u.path + u.suffix
  }

  /** `new URL(s)`, as far as the model goes: None where Valid refuses the string. The scheme ends at the first
      ':' and may not contain '/', '?' or '#'; the host, which runs up to the first
      '/', '?' or '#' after "://", must not be empty; the path runs up to the first
      '?' or '#'. */
  function Parse(s: string): (u: Option<Url>)
    ensures u.Some? <==> Valid(s)
    ensures u.Some? ==> ToString(u.value) == s
    ensures u.Some? ==> u.value.scheme != [] && u.value.host != []
    ensures u.Some? ==> u.value.path == [] || u.value.path[0] == '/'
  {
    var (scheme, rest) := SplitAt(s, {':', '/', '?', '#'});
    if scheme == [] || !StartsWith(rest, "://") then None
    else
      var (host, tail) := SplitAt(rest[3..], {'/', '?', '#'});
      if host == [] then None
      else
        var (path, suffix) := SplitAt(tail, {'?', '#'});
        assert path != [] ==> path[0] == '/' by {
          if path != [] {
            assert path[0] == tail[0] && path[0] !in {'?', '#'};
          }
        }
        assert rest == "://" + rest[3..] by {
          assert rest[..3] == "://";
        }
        assert s == scheme + "://" + (host + (path + suffix));
        Some(Url(scheme, host, path, suffix))
  }

  /** The records Parse yields: Parse and ToString are inverse on them. */
  predicate WellFormedUrl(u: Url) {
    && u.scheme != [] && (forall k :: 0 <= k < |u.scheme| ==> u.scheme[k] !in {':', '/', '?', '#'})
    && u.host != [] && (forall k :: 0 <= k < |u.host| ==> u.host[k] !in {'/', '?', '#'})
    && (u.path == [] || u.path[0] == '/') && (forall k :: 0 <= k < |u.path| ==> u.path[k] !in {'?', '#'})
    && (u.suffix == [] || u.suffix[0] in {'?', '#'})
  }

  lemma ParseToString(u: Url)
    requires WellFormedUrl(u)
    ensures Parse(ToString(u)) == Some(u)
  {
    var tail := u.path + u.suffix;
    var rest := "://" + (u.host + tail);
    assert ToString(u) == u.scheme + rest;
    SplitAtUnique(u.scheme, rest, {':', '/', '?', '#'});
    assert rest[..3] == "://" && rest[3..] == u.host + tail;
    assert tail == [] || tail[0] in {'/', '?', '#'} by {
      if u.path != [] { assert tail[0] == u.path[0]; }
    }
    SplitAtUnique(u.host, tail, {'/', '?', '#'});
    SplitAtUnique(u.path, u.suffix, {'?', '#'});
  }

  /** Where the model lets `new URL(s)` succeed: a scheme, "://" and a non-empty host.
      This approximates the constructor; it checks no characters. */
  predicate Valid(s: string) {
    var (scheme, rest) := SplitAt(s, {':', '/', '?', '#'});
    scheme != [] && StartsWith(rest, "://") && SplitAt(rest[3..], {'/', '?', '#'}).0 != []
  }

  /** The `pathname` setter: a path that does not start with '/' gets one, as for
      the http(s) schemes. */
  function WithPathname(u: Url, pathname: string): Url {
    u.(path := if StartsWith(pathname, "/") then pathname else "/" + pathname)
  }

  /** The relative-location rule of both clients (wish/index.ts:406-408,
      wish.ts:299-301): parse the endpoint and replace its path; None where the
      endpoint does not parse. */
  function ReplacePath(endpoint: string, pathname: string): (r: Option<string>)
    ensures r.Some? <==> Valid(endpoint)
    ensures r.Some? ==> StartsWith(r.value, Parse(endpoint).value.scheme + "://" + Parse(endpoint).value.host + "/")
  {
    match Parse(endpoint)
    case None => None
    case Some(u) =>
      var v := WithPathname(u, pathname);
      var prefix := u.scheme + "://" + u.host + "/";
      assert v.path[0] == '/';
      assert ToString(v) == (u.scheme + "://" + u.host) + v.path + u.suffix;
      assert ToString(v)[..|prefix|] == prefix;
      Some(ToString(v))
  }

  /** The resolved resource URL keeps the endpoint's scheme, host, query and
      fragment, and carries the new path. */
  lemma ReplacePathKeepsOrigin(endpoint: string, pathname: string)
    requires Valid(endpoint)
    ensures var u := Parse(endpoint).value;
      ReplacePath(endpoint, pathname).value
        == u.scheme + "://" + u.host + (if StartsWith(pathname, "/") then pathname else "/" + pathname) + u.suffix
  {
  }
}
