/** The header carrier handed to the propagator: it looks a header name up in
    Django's `request.META`, where the header `X-Foo` is stored under the key
    `HTTP_X_FOO`. */
module Meta {
  import opened Values

  const HeaderPrefix: string := "HTTP_"

  /** Python's `str.upper()` on one character, for ASCII: `a`..`z` become
      `A`..`Z`, every other character is left alone. */
  function UpperChar(c: char): (r: char)
    ensures 'a' <= c <= 'z' ==> 'A' <= r <= 'Z' && r as int - 'A' as int == c as int - 'a' as int
    ensures !('a' <= c <= 'z') ==> r == c
  {
    if 'a' <= c <= 'z' then (c as int - 32) as char else c
  }

  /** `s.upper()`, character by character. */
  function Upper(s: string): (r: string)
    ensures |r| == |s|
    ensures forall i :: 0 <= i < |s| ==> r[i] == UpperChar(s[i])
  {
    if s == [] then [] else [UpperChar(s[0])] + Upper(s[1..])
  }

  /** `s.replace('-', '_')`. */
  function DashesToUnderscores(s: string): (r: string)
    ensures |r| == |s|
    ensures forall i :: 0 <= i < |s| ==> r[i] == (if s[i] == '-' then '_' else s[i])
  {
    if s == [] then [] else [if s[0] == '-' then '_' else s[0]] + DashesToUnderscores(s[1..])
  }

  /** What one character of a header name becomes in its META key: never a
      dash and never a lower-case ASCII letter; any other character than a
      dash or a lower-case letter is kept. */
  function MetaChar(c: char): (r: char)
    ensures r != '-' && !('a' <= r <= 'z')
    ensures c == '-' ==> r == '_'
    ensures c != '-' && !('a' <= c <= 'z') ==> r == c
  {
    if UpperChar(c) == '-' then '_' else UpperChar(c)
  }

  /** The META key of a header name: `'HTTP_' + key.upper().replace('-', '_')`. */
  function HeaderKey(key: string): (r: string)
    ensures |r| == |HeaderPrefix| + |key|
    ensures r[..|HeaderPrefix|] == HeaderPrefix
    ensures forall i :: 0 <= i < |key| ==> r[|HeaderPrefix| + i] == MetaChar(key[i])
  {
    var d := DashesToUnderscores(Upper(key));
    assert forall i :: 0 <= i < |key| ==> d[i] == MetaChar(key[i]);
    assert (HeaderPrefix + d)[..|HeaderPrefix|] == HeaderPrefix;
    HeaderPrefix + d
  }

  /** `_DjangoMetaWrapper`: a read-only view of `request.META`. */
  datatype MetaWrapper = MetaWrapper(meta: map<string, string>) {

    /** `get(key)`: the META value stored under the header's META key, or
        None when META has no such key. */
    function Get(key: string): (r: Option<string>)
      ensures r.Some? <==> HeaderKey(key) in meta
      ensures r.Some? ==> r.value == meta[HeaderKey(key)]
    {
      if HeaderKey(key) in meta then Some(meta[HeaderKey(key)]) else None
    }
  }

  predicate HasHeaderPrefix(k: string)
  {
    |k| >= |HeaderPrefix| && k[..|HeaderPrefix|] == HeaderPrefix
  }

  /** Two header names reach the same META key exactly when they have the
      same length and agree character by character up to case and up to
      `-` versus `_`. */
  lemma HeaderKeyEqual(a: string, b: string)
    ensures HeaderKey(a) == HeaderKey(b) <==>
      |a| == |b| && forall i :: 0 <= i < |a| ==> MetaChar(a[i]) == MetaChar(b[i])
  {
    var ka, kb := HeaderKey(a), HeaderKey(b);
    if ka == kb {
      forall i | 0 <= i < |a| ensures MetaChar(a[i]) == MetaChar(b[i]) {
        assert ka[|HeaderPrefix| + i] == kb[|HeaderPrefix| + i];
      }
    }
    if |a| == |b| && forall i :: 0 <= i < |a| ==> MetaChar(a[i]) == MetaChar(b[i]) {
      forall j | 0 <= j < |ka| ensures ka[j] == kb[j] {
        if j < |HeaderPrefix| {
          assert ka[j] == ka[..|HeaderPrefix|][j];
          assert kb[j] == kb[..|HeaderPrefix|][j];
        } else {
          var i := j - |HeaderPrefix|;
          assert ka[|HeaderPrefix| + i] == MetaChar(a[i]);
        }
      }
    }
  }

  /** So `get` ignores the case of a header name and does not tell `-` from
      `_`: `get('X-Cloud-Trace')` and `get('x_cloud_trace')` read the same
      META entry. */
  lemma GetIgnoresCaseAndDashes(w: MetaWrapper, a: string, b: string)
    requires |a| == |b|
    requires forall i :: 0 <= i < |a| ==> MetaChar(a[i]) == MetaChar(b[i])
    ensures w.Get(a) == w.Get(b)
  {
    HeaderKeyEqual(a, b);
  }

  /** A META key produced by `get` never holds a `-` or a lower-case ASCII
      letter, and starts with `HTTP_`. */
  lemma HeaderKeyShape(key: string)
    ensures HasHeaderPrefix(HeaderKey(key))
    ensures forall j :: 0 <= j < |HeaderKey(key)| ==>
      HeaderKey(key)[j] != '-' && !('a' <= HeaderKey(key)[j] <= 'z')
  {
    var k := HeaderKey(key);
    var n := |HeaderPrefix|;
    forall j | 0 <= j < |k| ensures k[j] != '-' && !('a' <= k[j] <= 'z') {
      if j < n {
        assert k[j] == k[..n][j];
      } else {
        assert k[n + (j - n)] == MetaChar(key[j - n]);
      }
    }
  }

  /** Entries of META that are not HTTP headers (`CONTENT_LENGTH`,
      `REMOTE_ADDR`, ...) are invisible through the wrapper: `get` answers as
      it would on the META that keeps only the keys starting with `HTTP_`. */
  lemma GetSeesOnlyHttpEntries(w: MetaWrapper, key: string)
    ensures w.Get(key) == MetaWrapper(map k | k in w.meta && HasHeaderPrefix(k) :: w.meta[k]).Get(key)
  {
    HeaderKeyShape(key);
  }
}
