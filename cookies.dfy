/** The browser cookie jar as the credential store sees it: `document.cookie`
    is the jar's cookies written `name=value` and joined by `"; "`; reading a
    cookie is done by string splitting, writing one replaces or appends it,
    deleting one removes it. */
module Cookies {
  import opened JsValues

  datatype Cookie = Cookie(name: string, value: string)

  /** A cookie name: non-empty, with neither `;` nor `=`. */
  predicate NameOk(n: string)
  {
    n != [] && ';' !in n && '=' !in n
  }

  /** A stored cookie: the browser cuts every value at its first `;`. */
  predicate CookieOk(c: Cookie)
  {
    NameOk(c.name) && ';' !in c.value
  }

  predicate JarOk(jar: seq<Cookie>)
  {
    forall i :: 0 <= i < |jar| ==> CookieOk(jar[i])
  }

  /** The number of cookies named n. */
  function Count(jar: seq<Cookie>, n: string): nat
  {
    if jar == [] then 0 else (if jar[0].name == n then 1 else 0) + Count(jar[1..], n)
  }

  /** The cookies of one path: each name at most once. */
  ghost predicate Unique(jar: seq<Cookie>)
  {
    forall n :: Count(jar, n) <= 1
  }

  ghost predicate ValidJar(jar: seq<Cookie>)
  {
    JarOk(jar) && Unique(jar)
  }

  /** The jar as a name-to-value map; the first cookie of a name wins. */
  function View(jar: seq<Cookie>): map<string, string>
  {
    if jar == [] then map[] else View(jar[1..])[jar[0].name := jar[0].value]
  }

  function Get(m: map<string, string>, k: string): Option<string>
  {
    if k in m then Some(m[k]) else None
  }

  /** A name is a key of the view exactly when some cookie carries it. */
  lemma {:induction false} ViewKeys(jar: seq<Cookie>, n: string)
    ensures n in View(jar) <==> Count(jar, n) >= 1
  {
    if jar != [] {
      ViewKeys(jar[1..], n);
    }
  }

  /** No value in the view of a well-formed jar holds a `;`. */
  ghost predicate ValuesOk(m: map<string, string>)
  {
    forall k :: k in m ==> ';' !in m[k]
  }

  lemma {:induction false} ViewValuesOk(jar: seq<Cookie>)
    requires JarOk(jar)
    ensures ValuesOk(View(jar))
  {
    if jar != [] {
      assert CookieOk(jar[0]);
      assert JarOk(jar[1..]) by {
        forall i | 0 <= i < |jar[1..]| ensures CookieOk(jar[1..][i]) { assert jar[1..][i] == jar[i + 1]; }
      }
      ViewValuesOk(jar[1..]);
    }
  }

  /** `document.cookie`: `n1=v1; n2=v2; ...`, the empty string for an empty jar. */
  function Serialize(jar: seq<Cookie>): string
  {
    if jar == [] then []
    else jar[0].name + "=" + jar[0].value + (if |jar| == 1 then [] else "; " + Serialize(jar[1..]))
  }

  // ---------------------------------------------------------------------
  // String splitting, as `String.prototype.split` with a string separator.

  /** The pieces of s between the non-overlapping occurrences of sep, found
      scanning from the left. */
  function Split(s: string, sep: string): (parts: seq<string>)
    requires sep != []
    ensures |parts| >= 1
    decreases |s|
  {
    if |s| < |sep| then [s]
    else if s[..|sep|] == sep then [[]] + Split(s[|sep|..], sep)
    else
      var rest := Split(s[1..], sep);
      [[s[0]] + rest[0]] + rest[1..]
  }

  /** `parts.join(sep)`. */
  function Join(parts: seq<string>, sep: string): string
    requires |parts| >= 1
  {
    parts[0] + (if |parts| == 1 then [] else sep + Join(parts[1..], sep))
  }

  /** Splitting loses nothing: joining the pieces gives the string back. */
  lemma {:induction false} SplitJoin(s: string, sep: string)
    requires sep != []
    ensures Join(Split(s, sep), sep) == s
    decreases |s|
  {
    if |s| < |sep| {
    } else if s[..|sep|] == sep {
      SplitJoin(s[|sep|..], sep);
      assert s == sep + s[|sep|..];
    } else {
      var rest := Split(s[1..], sep);
      SplitJoin(s[1..], sep);
      var parts := [[s[0]] + rest[0]] + rest[1..];
      assert parts[1..] == rest[1..];
      assert Join(rest, sep) == rest[0] + (if |rest| == 1 then [] else sep + Join(rest[1..], sep));
      assert s == [s[0]] + s[1..];
    }
  }

  /** `s.split(';').shift()`: s up to its first `;`. */
  function FirstField(s: string): (f: string)
    ensures f <= s && ';' !in f
    ensures |f| < |s| ==> s[|f|] == ';'
  {
    if s == [] then []
    else if s[0] == ';' then []
    else [s[0]] + FirstField(s[1..])
  }

  function Separator(name: string): string
  {
    "; " + name + "="
  }

  /** `getCookie(name)`: split `"; " + document.cookie` at `"; name="`; a
      value only when there are exactly two pieces, and then the second
      piece up to its first `;`. */
  function GetCookie(cookie: string, name: string): (v: Option<string>)
    ensures v.Some? ==> ';' !in v.value
  {
    var parts := Split("; " + cookie, Separator(name));
    if |parts| == 2 then Some(FirstField(parts[1])) else None
  }

  // ---------------------------------------------------------------------
  // Reading a serialised jar.

  predicate MatchAt(t: string, i: nat, sep: string)
  {
    i + |sep| <= |t| && t[i..i + |sep|] == sep
  }

  function Entry(c: Cookie): string
  {
    "; " + c.name + "=" + c.value
  }

  /** `"; " + document.cookie` for a non-empty jar. */
  function Entries(jar: seq<Cookie>): string
  {
    if jar == [] then [] else Entry(jar[0]) + Entries(jar[1..])
  }

  lemma {:induction false} PrefixedSerialize(jar: seq<Cookie>)
    requires jar != []
    ensures "; " + Serialize(jar) == Entries(jar)
  {
    var c := jar[0];
    if |jar| == 1 {
      assert jar[1..] == [];
    } else {
      PrefixedSerialize(jar[1..]);
      assert "; " + Serialize(jar) == Entry(c) + ("; " + Serialize(jar[1..]));
    }
  }

  /** A separator cannot start at a position that holds no `;`. */
  lemma NoMatchOffSemicolon(t: string, i: nat, sep: string)
    requires sep != [] && sep[0] == ';'
    requires i < |t| && t[i] != ';'
    ensures !MatchAt(t, i, sep)
  {
    if i + |sep| <= |t| {
      assert t[i..i + |sep|][0] != sep[0];
    }
  }

  /** Skipping a stretch that holds no occurrence of the separator. */
  lemma {:induction false} SplitSkip(s: string, rest: string, sep: string)
    requires sep != []
    requires forall i :: 0 <= i < |s| ==> !MatchAt(s + rest, i, sep)
    ensures Split(s + rest, sep) == [s + Split(rest, sep)[0]] + Split(rest, sep)[1..]
    decreases |s|
  {
    if s == [] {
      var p := Split(rest, sep);
      assert s + rest == rest;
      assert s + p[0] == p[0];
      assert p == [p[0]] + p[1..];
    } else {
      var t := s + rest;
      if |t| >= |sep| {
        assert !MatchAt(t, 0, sep);
        assert t[1..] == s[1..] + rest;
        forall i | 0 <= i < |s[1..]| ensures !MatchAt(s[1..] + rest, i, sep) {
          assert !MatchAt(t, i + 1, sep);
          if i + |sep| <= |t[1..]| {
            assert t[1..][i..i + |sep|] == t[i + 1..i + 1 + |sep|];
          }
        }
        SplitSkip(s[1..], rest, sep);
        assert [t[0]] + (s[1..] + Split(rest, sep)[0]) == s + Split(rest, sep)[0];
      }
    }
  }

  lemma SplitAtSeparator(sep: string, rest: string)
    requires sep != []
    ensures Split(sep + rest, sep) == [[]] + Split(rest, sep)
  {
    assert (sep + rest)[..|sep|] == sep;
    assert (sep + rest)[|sep|..] == rest;
  }

  lemma {:induction false} FirstFieldStops(v: string, w: string)
    requires ';' !in v
    requires w == [] || w[0] == ';'
    ensures FirstField(v + w) == v
  {
    if v != [] {
      assert (v + w)[1..] == v[1..] + w;
      FirstFieldStops(v[1..], w);
    }
  }

  /** The entry of a cookie with another name holds no separator for n. */
  lemma EntryHasNoSeparator(c: Cookie, n: string, tail: string)
    requires CookieOk(c) && NameOk(n) && c.name != n
    ensures forall i :: 0 <= i < |Entry(c)| ==> !MatchAt(Entry(c) + tail, i, Separator(n))
  {
    var e, sep := Entry(c), Separator(n);
    var t := e + tail;
    forall i | 0 <= i < |e| ensures !MatchAt(t, i, sep) {
      if i == 0 {
        // t is "; " + c.name + "=" + ..., sep is "; " + n + "=": they differ
        // at the first position where the names part ways
        var k: nat;
        if |c.name| == |n| {
          var j :| 0 <= j < |n| && c.name[j] != n[j];
          k := 2 + j;
          assert t[k] == c.name[j] && sep[k] == n[j];
        } else if |c.name| < |n| {
          k := 2 + |c.name|;
          assert t[k] == '=' && sep[k] == n[|c.name|];
          assert n[|c.name|] in n;
        } else {
          k := 2 + |n|;
          assert t[k] == c.name[|n|] && sep[k] == '=';
          assert c.name[|n|] in c.name;
        }
        assert k < |sep| && k < |t| && t[k] != sep[k];
        if |sep| <= |t| {
          assert t[0..|sep|][k] != sep[k];
        }
      } else {
        assert t[i] == e[i];
        if i == 1 {
          assert e[1] == ' ';
        } else if i < 2 + |c.name| {
          assert e[i] == c.name[i - 2];
        } else if i == 2 + |c.name| {
          assert e[i] == '=';
        } else {
          assert e[i] == c.value[i - 3 - |c.name|];
        }
        NoMatchOffSemicolon(t, i, sep);
      }
    }
  }

  /** Splitting the entries of a well-formed jar at n's separator: one piece
      more than there are cookies named n; the first piece is empty or starts
      a new entry; with exactly one such cookie, the second piece starts with
      its value, followed by a `;` or nothing. */
  lemma {:induction false} SplitEntries(jar: seq<Cookie>, n: string)
    requires JarOk(jar) && NameOk(n)
    ensures var parts := Split(Entries(jar), Separator(n));
      && |parts| == 1 + Count(jar, n)
      && (parts[0] == [] || parts[0][0] == ';')
      && (Count(jar, n) == 1 ==> Some(FirstField(parts[1])) == Get(View(jar), n))
  {
    var sep := Separator(n);
    if jar != [] {
      var c, rest := jar[0], jar[1..];
      assert CookieOk(c);
      assert JarOk(rest) by {
        forall i | 0 <= i < |rest| ensures CookieOk(rest[i]) { assert rest[i] == jar[i + 1]; }
      }
      SplitEntries(rest, n);
      var tail := Entries(rest);
      var inner := Split(tail, sep);
      assert Entries(jar) == Entry(c) + tail;
      if c.name == n {
        assert Entry(c) + tail == sep + (c.value + tail);
        SplitAtSeparator(sep, c.value + tail);
        forall i | 0 <= i < |c.value| ensures !MatchAt(c.value + tail, i, sep) {
          assert (c.value + tail)[i] == c.value[i];
          NoMatchOffSemicolon(c.value + tail, i, sep);
        }
        SplitSkip(c.value, tail, sep);
        if Count(jar, n) == 1 {
          FirstFieldStops(c.value, inner[0]);
        }
      } else {
        EntryHasNoSeparator(c, n, tail);
        SplitSkip(Entry(c), tail, sep);
        assert (Entry(c) + inner[0])[0] == ';';
      }
    }
  }

  /** `getCookie` on `document.cookie`: the value of the one cookie named n,
      and null when there is none or when there are several. */
  lemma GetCookieOfSerialized(jar: seq<Cookie>, n: string)
    requires JarOk(jar) && NameOk(n)
    ensures GetCookie(Serialize(jar), n) == if Count(jar, n) == 1 then Get(View(jar), n) else None
  {
    if jar == [] {
      assert "; " + Serialize(jar) == "; ";
    } else {
      PrefixedSerialize(jar);
      SplitEntries(jar, n);
    }
  }

  /** In a jar with one cookie per name, `getCookie` reads the map view. */
  lemma ReadCookie(jar: seq<Cookie>, n: string)
    requires ValidJar(jar) && NameOk(n)
    ensures GetCookie(Serialize(jar), n) == Get(View(jar), n)
  {
    GetCookieOfSerialized(jar, n);
    ViewKeys(jar, n);
    assert Count(jar, n) <= 1;
  }

  /** A second cookie of the same name (the same name under another path)
      makes `getCookie` return null. */
  lemma DuplicateHidesCookie(jar: seq<Cookie>, n: string)
    requires JarOk(jar) && NameOk(n) && Count(jar, n) >= 2
    ensures GetCookie(Serialize(jar), n) == None
  {
    GetCookieOfSerialized(jar, n);
  }

  // ---------------------------------------------------------------------
  // Writing and deleting.

  /** `document.cookie = "n=v; ..."`: the first cookie named n takes the new
      value in place, or a new cookie is appended. */
  function Upsert(jar: seq<Cookie>, n: string, v: string): (r: seq<Cookie>)
    ensures View(r) == View(jar)[n := v]
    ensures forall x :: Count(r, x) == if x == n && Count(jar, n) == 0 then 1 else Count(jar, x)
    ensures JarOk(jar) && NameOk(n) && ';' !in v ==> JarOk(r)
  {
    if jar == [] then [Cookie(n, v)]
    else if jar[0].name == n then [Cookie(n, v)] + jar[1..]
    else
      var r := [jar[0]] + Upsert(jar[1..], n, v);
      assert r[1..] == Upsert(jar[1..], n, v);
      assert JarOk(jar) ==> CookieOk(jar[0]) && JarOk(jar[1..]) by {
        if JarOk(jar) {
          forall i | 0 <= i < |jar[1..]| ensures CookieOk(jar[1..][i]) { assert jar[1..][i] == jar[i + 1]; }
        }
      }
      r
  }

  /** Deleting a cookie (writing it with an expiry in the past): every cookie
      named n goes, the others stay in order. */
  function Remove(jar: seq<Cookie>, n: string): (r: seq<Cookie>)
    ensures View(r) == View(jar) - {n}
    ensures forall x :: Count(r, x) == if x == n then 0 else Count(jar, x)
    ensures JarOk(jar) ==> JarOk(r)
  {
    if jar == [] then []
    else
      var tail := Remove(jar[1..], n);
      assert JarOk(jar) ==> CookieOk(jar[0]) && JarOk(jar[1..]) by {
        if JarOk(jar) {
          forall i | 0 <= i < |jar[1..]| ensures CookieOk(jar[1..][i]) { assert jar[1..][i] == jar[i + 1]; }
        }
      }
      if jar[0].name == n then tail
      else
        var r := [jar[0]] + tail;
        assert r[1..] == tail;
        r
  }

  /** Writing a well-formed cookie keeps the jar valid and reads back. */
  lemma UpsertThenRead(jar: seq<Cookie>, n: string, v: string, other: string)
    requires ValidJar(jar) && NameOk(n) && NameOk(other) && ';' !in v
    ensures ValidJar(Upsert(jar, n, v))
    ensures GetCookie(Serialize(Upsert(jar, n, v)), n) == Some(v)
    ensures other != n ==> GetCookie(Serialize(Upsert(jar, n, v)), other) == GetCookie(Serialize(jar), other)
  {
    var r := Upsert(jar, n, v);
    assert Count(jar, n) <= 1;
    assert forall x :: Count(r, x) <= 1 by {
      forall x ensures Count(r, x) <= 1 { assert Count(jar, x) <= 1; }
    }
    ReadCookie(r, n);
    ReadCookie(r, other);
    ReadCookie(jar, other);
  }

  /** Deleting a cookie keeps the jar valid; it then reads as null and the
      other names read as before. */
  lemma RemoveThenRead(jar: seq<Cookie>, n: string, other: string)
    requires ValidJar(jar) && NameOk(n) && NameOk(other)
    ensures ValidJar(Remove(jar, n))
    ensures GetCookie(Serialize(Remove(jar, n)), n) == None
    ensures other != n ==> GetCookie(Serialize(Remove(jar, n)), other) == GetCookie(Serialize(jar), other)
  {
    var r := Remove(jar, n);
    assert forall x :: Count(r, x) <= 1 by {
      forall x ensures Count(r, x) <= 1 { assert Count(jar, x) <= 1; }
    }
    ReadCookie(r, n);
    ReadCookie(r, other);
    ReadCookie(jar, other);
  }
}
