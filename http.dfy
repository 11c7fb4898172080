/**
 * The response cookies of a route handler (`response.cookies.set(...)`):
 * an insertion-ordered collection keyed by cookie name, with the
 * attributes of section 4.1 of RFC 6265 that the handlers use.
 */
module Http {

  import opened Wrappers
  import Json

  /** One cookie: name, value and the Path, Max-Age (seconds), Secure and
      HttpOnly attributes; no Max-Age means a session cookie. */
  datatype Cookie = Cookie(
    name: string,
    value: string,
    httpOnly: bool,
    secure: bool,
    path: string,
    maxAge: Option<int>)

  /** No two cookies share a name. */
  ghost predicate NamesDistinct(cs: seq<Cookie>) {
    forall i, j :: 0 <= i < j < |cs| ==> cs[i].name != cs[j].name
  }

  /** The cookie stored under `name`, if any. */
  function Find(cs: seq<Cookie>, name: string): (r: Option<Cookie>)
    ensures r.Some? ==> r.value in cs && r.value.name == name
    ensures r.None? ==> forall i :: 0 <= i < |cs| ==> cs[i].name != name
    decreases |cs|
  {
    if cs == [] then None
    else if cs[0].name == name then Some(cs[0])
    else Find(cs[1..], name)
  }

  /** `set(c)`: a cookie with the same name is replaced where it stands (a
      JavaScript Map keeps the original insertion position); otherwise the
      cookie is added at the end. */
  function Put(cs: seq<Cookie>, c: Cookie): seq<Cookie>
    decreases |cs|
  {
    if cs == [] then [c]
    else if cs[0].name == c.name then [c] + cs[1..]
    else [cs[0]] + Put(cs[1..], c)
  }

  /** After `set(c)` the name finds `c`, every other name finds what it found
      before, names stay distinct, and the collection grows by at most one. */
  lemma {:induction false} PutSpec(cs: seq<Cookie>, c: Cookie, other: string)
    requires NamesDistinct(cs)
    ensures Find(Put(cs, c), c.name) == Some(c)
    ensures other != c.name ==> Find(Put(cs, c), other) == Find(cs, other)
    ensures NamesDistinct(Put(cs, c))
    ensures |Put(cs, c)| == if Find(cs, c.name).Some? then |cs| else |cs| + 1
    decreases |cs|
  {
    if cs != [] && cs[0].name != c.name {
      assert NamesDistinct(cs[1..]);
      PutSpec(cs[1..], c, other);
    }
    PutDistinct(cs, c);
  }

  /** `set` keeps the names distinct. */
  lemma {:induction false} PutDistinct(cs: seq<Cookie>, c: Cookie)
    requires NamesDistinct(cs)
    ensures NamesDistinct(Put(cs, c))
    decreases |cs|
  {
    if cs != [] && cs[0].name != c.name {
      assert NamesDistinct(cs[1..]);
      PutDistinct(cs[1..], c);
      var r := Put(cs, c);
      assert r == [cs[0]] + Put(cs[1..], c);
      PutNames(cs[1..], c, cs[0].name);
      forall i, j | 0 <= i < j < |r| ensures r[i].name != r[j].name {
        if i == 0 {
          assert r[j] == Put(cs[1..], c)[j - 1];
        } else {
          assert r[i] == Put(cs[1..], c)[i - 1] && r[j] == Put(cs[1..], c)[j - 1];
        }
      }
    } else if cs != [] {
      var r := Put(cs, c);
      forall i, j | 0 <= i < j < |r| ensures r[i].name != r[j].name {
        if i == 0 {
          assert cs[0].name != cs[j].name;
        } else {
          assert cs[i].name != cs[j].name;
        }
      }
    }
  }

  /** `set` never introduces a name other than the cookie's own. */
  lemma {:induction false} PutNames(cs: seq<Cookie>, c: Cookie, name: string)
    requires name != c.name
    requires forall i :: 0 <= i < |cs| ==> cs[i].name != name
    ensures forall i :: 0 <= i < |Put(cs, c)| ==> Put(cs, c)[i].name != name
    decreases |cs|
  {
    if cs != [] && cs[0].name != c.name {
      PutNames(cs[1..], c, name);
    }
  }

  /** A response's mutable cookie collection. */
  class CookieJar {
    var cookies: seq<Cookie>

    ghost predicate Valid()
      reads this
    {
      NamesDistinct(cookies)
    }

    constructor ()
      ensures Valid() && cookies == []
    {
      cookies := [];
    }

    /** `cookies.set(name, value, options)`. */
    method Set(c: Cookie)
      requires Valid()
      modifies this
      ensures Valid()
      ensures cookies == Put(old(cookies), c)
      ensures Find(cookies, c.name) == Some(c)
    {
      PutSpec(cookies, c, c.name);
      cookies := Put(cookies, c);
    }
  }

  /** The response a route handler returns: a plain-text body, a JSON body, or
      a redirect (its Location header and the cookies set on it). */
  datatype Response =
    | Text(status: int, text: string)
    | JsonReply(status: int, body: Json.Json)
    | Redirect(status: int, location: string, cookies: seq<Cookie>)
}
