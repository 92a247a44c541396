/**
 Volume IDs of the form beegfs://host/path and the directory names the controller service derives from
 them. Strings are taken to consist of characters that need no percent-encoding, one byte each.
 */
module VolumeIDs {
  import opened Wrappers

  const SCHEME := "beegfs://"

  /** Length limit of a file name. */
  const MAX_NAME: nat := 255

  // ---- URLs ---------------------------------------------------------------------------------------------

  function NewBeegfsURL(host: string, path: string): (r: string)
  {
    SCHEME + host + (if path != "" && path[0] != '/' && host != "" then "/" else "") + path
  }

  /** Length of the part in front of the first slash. */
  function HostLength(s: string): (n: nat)
    ensures n <= |s| && '/' !in s[..n] && (n < |s| ==> s[n] == '/')
  {
    if s == "" || s[0] == '/' then 0
    else
      assert s[..1 + HostLength(s[1..])] == [s[0]] + s[1..][..HostLength(s[1..])];
      1 + HostLength(s[1..])
  }

  function ParseBeegfsURL(id: string): (r: Option<(string, string)>)
  {
    if SCHEME <= id then
      var rest := id[|SCHEME|..];
      Some((rest[..HostLength(rest)], rest[HostLength(rest)..]))
    else None
  }

  lemma HostLengthIs(host: string, path: string)
    requires '/' !in host && (path == "" || path[0] == '/')
    ensures HostLength(host + path) == |host|
  {
    var s, n := host + path, HostLength(host + path);
    assert forall k :: 0 <= k < |host| ==> s[k] == host[k] && host[k] != '/';
    assert path != "" ==> s[|host|] == '/';
    assert forall k :: 0 <= k < n ==> s[..n][k] == s[k] && s[k] != '/';
  }

  /** Building a URL and parsing it are inverse to each other. */
  lemma URLRoundTrip(host: string, path: string, id: string)
    requires '/' !in host && (path == "" || path[0] == '/')
    ensures ParseBeegfsURL(NewBeegfsURL(host, path)) == Some((host, path))
    ensures ParseBeegfsURL(id).Some? ==>
      NewBeegfsURL(ParseBeegfsURL(id).value.0, ParseBeegfsURL(id).value.1) == id
  {
    var url := NewBeegfsURL(host, path);
    assert url[|SCHEME|..] == host + path;
    HostLengthIs(host, path);
    if ParseBeegfsURL(id).Some? {
      var (h, p) := ParseBeegfsURL(id).value;
      assert id == SCHEME + (h + p) == SCHEME + h + p;
    }
  }

  /** Volume IDs spelled out: a relative path is taken from the root, and another scheme is no volume ID. */
  lemma URLForm(host: string, path: string, id: string)
    requires '/' !in host && host != "" && path != "" && path[0] != '/'
    ensures NewBeegfsURL(host, "/" + path) == NewBeegfsURL(host, path) == "beegfs://" + host + "/" + path
    ensures NewBeegfsURL(host, "") == "beegfs://" + host
    ensures ParseBeegfsURL(NewBeegfsURL(host, path)) == Some((host, "/" + path))
    ensures ParseBeegfsURL(id).None? <==> |id| < 9 || id[..9] != "beegfs://"
  {
    URLRoundTrip(host, "/" + path, id);
    assert SCHEME + host + ("/" + path) == SCHEME + host + "/" + path;
    assert SCHEME <= id <==> |id| >= 9 && id[..9] == SCHEME;
  }

  // ---- sanitizeVolumeID -----------------------------------------------------------------------------------

  /** strings.Replace with n = 1 and an empty replacement: drops the first occurrence, wherever it is. */
  function RemoveFirst(s: string, sub: string): (r: string)
  {
    if |s| < |sub| then s
    else if sub <= s then s[|sub|..]
    else if s == "" then s
    else [s[0]] + RemoveFirst(s[1..], sub)
  }

  /** strings.Replace with n = -1 for a one-character pattern. */
  function ReplaceAll(s: string, c: char, with: string): (r: string)
  {
    if s == "" then "" else (if s[0] == c then with else [s[0]]) + ReplaceAll(s[1..], c, with)
  }

  /** Underscores are doubled, then slashes become underscores. */
  function Escape(s: string): (r: string)
  {
    ReplaceAll(ReplaceAll(s, '_', "__"), '/', "_")
  }

  /** The directory name for a volume ID; sha1 prints the SHA-1 digest in hexadecimal. */
  function SanitizeVolumeID(id: string, sha1: string -> string): (r: string)
  {
    var escaped := Escape(RemoveFirst(id, SCHEME));
    if |escaped| > MAX_NAME then sha1(id) else escaped
  }

  // ---- What the escaping loses ------------------------------------------------------------------------------

  /** A slash may not be followed by a slash or an underscore. */
  predicate Unambiguous(s: string)
  {
    forall i :: 0 <= i < |s| - 1 && s[i] == '/' ==> s[i + 1] != '/' && s[i + 1] != '_'
  }

  /** Greedy decoding: read two underscores as one, a single underscore as a slash. */
  function Decode(e: string): (r: string)
  {
    if e == "" then ""
    else if e[0] != '_' then [e[0]] + Decode(e[1..])
    else if |e| > 1 && e[1] == '_' then "_" + Decode(e[2..])
    else "/" + Decode(e[1..])
  }

  function EscapeChar(c: char): (r: string)
  {
    if c == '_' then "__" else if c == '/' then "_" else [c]
  }

  lemma {:induction false} ReplaceAllConcat(a: string, b: string, c: char, with: string)
    ensures ReplaceAll(a + b, c, with) == ReplaceAll(a, c, with) + ReplaceAll(b, c, with)
  {
    if a == "" {
      assert a + b == b;
    } else {
      assert (a + b)[1..] == a[1..] + b;
      ReplaceAllConcat(a[1..], b, c, with);
    }
  }

  lemma {:induction false} EscapeCons(s: string)
    requires s != ""
    ensures Escape(s) == EscapeChar(s[0]) + Escape(s[1..])
  {
    var c := s[0];
    var doubled := if c == '_' then "__" else [c];
    ReplaceAllConcat(doubled, ReplaceAll(s[1..], '_', "__"), '/', "_");
    assert ReplaceAll(doubled, '/', "_") == EscapeChar(c) by {
      if c == '_' {
        assert "__"[1..] == "_" && "_"[1..] == "";
      } else {
        assert [c][1..] == "";
      }
    }
  }

  lemma {:induction false} EscapeHasNoSlash(s: string)
    ensures '/' !in Escape(s)
    ensures s != "" ==> Escape(s) != "" && (Escape(s)[0] == '_' <==> s[0] == '_' || s[0] == '/')
    ensures '/' in s ==> '_' in Escape(s)
  {
    if s != "" {
      EscapeCons(s);
      EscapeHasNoSlash(s[1..]);
    }
  }

  lemma {:induction false} DecodeUndoesEscape(s: string)
    requires Unambiguous(s)
    ensures Decode(Escape(s)) == s
  {
    if s != "" {
      var rest := s[1..];
      assert forall i :: 0 <= i < |rest| ==> rest[i] == s[i + 1];
      EscapeCons(s);
      DecodeUndoesEscape(rest);
      EscapeHasNoSlash(rest);
      DecodeFirst(s[0], Escape(rest));
    }
  }

  /** The code of a character is read back, unless a slash is followed by an underscore. */
  lemma DecodeFirst(c: char, e: string)
    requires c == '/' && e != "" ==> e[0] != '_'
    ensures Decode(EscapeChar(c) + e) == [c] + Decode(e)
  {
    var all := EscapeChar(c) + e;
    assert all[|EscapeChar(c)|..] == e;
  }

  lemma {:induction false} EscapeUndoesDecode(e: string)
    requires '/' !in e
    ensures Escape(Decode(e)) == e && Unambiguous(Decode(e))
    ensures e != "" && e[0] != '_' ==> Decode(e) != "" && Decode(e)[0] == e[0]
  {
    if e != "" {
      var used := if e[0] == '_' && |e| > 1 && e[1] == '_' then 2 else 1;
      var rest := e[used..];
      assert e == e[..used] + rest;
      EscapeUndoesDecode(rest);
      var d := Decode(e);
      EscapeCons(d);
      assert d[1..] == Decode(rest);
      assert EscapeChar(d[0]) == e[..used];
      forall i | 0 <= i < |d| - 1 && d[i] == '/' ensures d[i + 1] != '/' && d[i + 1] != '_' {
        if i > 0 {
          assert Decode(rest)[i - 1] == '/' && Decode(rest)[i] == d[i + 1];
        } else {
          assert rest != "" ==> rest[0] == e[1];
          assert d[1] == Decode(rest)[0];
        }
      }
    }
  }

  /** Decoding recovers exactly the unambiguous strings. */
  lemma DecodableExactly(s: string)
    ensures Decode(Escape(s)) == s <==> Unambiguous(s)
  {
    EscapeHasNoSlash(s);
    EscapeUndoesDecode(Escape(s));
    if Unambiguous(s) {
      DecodeUndoesEscape(s);
    }
  }

  /** Each escaped name stands for exactly one unambiguous string, and every ambiguous one collides with it. */
  lemma OneUnambiguousSource(s: string, t: string)
    ensures Unambiguous(s) && Unambiguous(t) && Escape(s) == Escape(t) ==> s == t
    ensures !Unambiguous(s) ==>
      var twin := Decode(Escape(s));
      twin != s && Unambiguous(twin) && Escape(twin) == Escape(s)
  {
    DecodableExactly(s);
    DecodableExactly(t);
    EscapeHasNoSlash(s);
    EscapeUndoesDecode(Escape(s));
  }

  // ---- Directory names of volumes ---------------------------------------------------------------------------

  predicate IsHexDigit(c: char)
  {
    '0' <= c <= '9' || 'a' <= c <= 'f'
  }

  /** SHA-1 as the controller uses it: forty hexadecimal digits, no collision among the IDs in use. */
  ghost predicate GoodDigest(sha1: string -> string, inUse: set<string>)
  {
    && (forall id :: |sha1(id)| == 40 && forall i :: 0 <= i < 40 ==> IsHexDigit(sha1(id)[i]))
    && (forall a, b :: a in inUse && b in inUse && sha1(a) == sha1(b) ==> a == b)
  }

  /** An ID with a host and an absolute path, in the domain on which the escaping is injective. */
  predicate CanonicalID(id: string)
  {
    SCHEME <= id && '/' in id[|SCHEME|..] && Unambiguous(id[|SCHEME|..])
  }

  lemma DigestHasNoUnderscore(sha1: string -> string, inUse: set<string>, id: string)
    requires GoodDigest(sha1, inUse)
    ensures '_' !in sha1(id) && '/' !in sha1(id) && |sha1(id)| == 40
  {
    assert |sha1(id)| == 40 && forall i :: 0 <= i < 40 ==> IsHexDigit(sha1(id)[i]);
  }

  /** A name fits into a directory entry and is a single path component. */
  lemma SanitizedIsFileName(id: string, sha1: string -> string, inUse: set<string>)
    requires GoodDigest(sha1, inUse)
    ensures '/' !in SanitizeVolumeID(id, sha1) && |SanitizeVolumeID(id, sha1)| <= MAX_NAME
    ensures CanonicalID(id) ==> SanitizeVolumeID(id, sha1) !in {"", ".", ".."}
  {
    EscapeHasNoSlash(RemoveFirst(id, SCHEME));
    DigestHasNoUnderscore(sha1, inUse, id);
  }

  lemma {:induction false} EscapedLength(s: string)
    ensures |Escape(s)| == |s| + multiset(s)['_']
  {
    if s != "" {
      EscapeCons(s);
      EscapedLength(s[1..]);
      assert s == [s[0]] + s[1..];
    }
  }

  /**
   The name of a volume decodes to its ID without the scheme, as far as it does at all, if it has at most 255
   characters, each underscore counted twice; otherwise it is the digest of the whole ID.
   */
  lemma SanitizeExactly(rest: string, sha1: string -> string)
    ensures
      var name := SanitizeVolumeID("beegfs://" + rest, sha1);
      if |rest| + multiset(rest)['_'] <= 255 then
        && |name| == |rest| + multiset(rest)['_'] && '/' !in name
        && (Decode(name) == rest <==> Unambiguous(rest)) && Escape(Decode(name)) == name
      else name == sha1("beegfs://" + rest)
  {
    assert RemoveFirst(SCHEME + rest, SCHEME) == rest;
    EscapedLength(rest);
    DecodableExactly(rest);
    EscapeHasNoSlash(rest);
    EscapeUndoesDecode(Escape(rest));
  }

  /** No two canonical volumes share a directory name, whether their names are escaped or hashed. */
  lemma SanitizeIsInjective(a: string, b: string, sha1: string -> string, inUse: set<string>)
    requires GoodDigest(sha1, inUse) && a in inUse && b in inUse
    requires CanonicalID(a) && CanonicalID(b)
    ensures SanitizeVolumeID(a, sha1) == SanitizeVolumeID(b, sha1) ==> a == b
  {
    var x, y := a[|SCHEME|..], b[|SCHEME|..];
    assert a == SCHEME + x && b == SCHEME + y;
    OneUnambiguousSource(x, y);
    EscapeHasNoSlash(x);
    EscapeHasNoSlash(y);
    DigestHasNoUnderscore(sha1, inUse, a);
    DigestHasNoUnderscore(sha1, inUse, b);
  }

  /**
   Outside that domain clean volumes do share one: a volume whose name starts with an underscore collides
   with the volume without it, one directory over (/x/_a and /x_/a).
   */
  lemma SanitizeCollides(before: string, after: string, sha1: string -> string)
    requires |Escape(before + "/_" + after)| <= MAX_NAME
    ensures
      var a, b := SCHEME + (before + "/_" + after), SCHEME + (before + "_/" + after);
      a != b && SanitizeVolumeID(a, sha1) == SanitizeVolumeID(b, sha1)
  {
    var x, y := before + "/_" + after, before + "_/" + after;
    assert x[|before|] == '/' && y[|before|] == '_';
    assert (SCHEME + x)[|SCHEME|..] == x && (SCHEME + y)[|SCHEME|..] == y;
    EscapeConcat(before, "/_"); EscapeConcat(before + "/_", after);
    EscapeConcat(before, "_/"); EscapeConcat(before + "_/", after);
    SlashUnderscore();
  }

  lemma EscapeConcat(a: string, b: string)
    ensures Escape(a + b) == Escape(a) + Escape(b)
  {
    ReplaceAllConcat(a, b, '_', "__");
    ReplaceAllConcat(ReplaceAll(a, '_', "__"), ReplaceAll(b, '_', "__"), '/', "_");
  }

  lemma SlashUnderscore()
    ensures Escape("/_") == "___" == Escape("_/")
  {
    EscapeCons("/_"); EscapeCons("_/"); EscapeCons("_"); EscapeCons("/");
    assert "/_"[1..] == "_" && "_/"[1..] == "/" && "_"[1..] == "" == "/"[1..];
  }
}
