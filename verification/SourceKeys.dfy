/** Object keys and the URI that carries them: what `put` stores and what `get` recovers through urlparse. */
module SourceKeys {
  import opened Basics
  import opened Domain

  predicate UuidChar(c: char) {
    '0' <= c <= '9' || 'a' <= c <= 'f' || c == '-'
  }

  predicate IsUuid(s: string) {
    |s| == 36 && forall i :: 0 <= i < 36 ==> UuidChar(s[i])
  }

  predicate BucketChar(c: char) {
    'a' <= c <= 'z' || '0' <= c <= '9' || c == '-' || c == '.'
  }

  predicate IsBucket(b: string) {
    |b| > 0 && forall i :: 0 <= i < |b| ==> BucketChar(b[i])
  }

  function Replace(s: string, from: char, to: char): (r: string)
    ensures |r| == |s|
  {
    seq(|s|, i requires 0 <= i < |s| => if s[i] == from then to else s[i])
  }

  function SafeFilename(filename: string): string {
    var safe := Replace(Replace(filename, '/', '_'), '\\', '_');
    if safe == "" then "upload" else safe
  }

  const PREFIX_LENGTH: nat := 83

  function DocumentPrefix(tenant: Id, document: Id): string {
    tenant + "/" + document + "/original/"
  }

  function SourceKey(tenant: Id, document: Id, filename: string): string {
    DocumentPrefix(tenant, document) + SafeFilename(filename)
  }

  /** The key is tenant, document and file name, the latter with its slashes of both kinds replaced, so that the first
      three slashes of the key are the only ones. */
  lemma SourceKeyLayout(tenant: Id, document: Id, filename: string) returns (name: string)
    ensures SourceKey(tenant, document, filename) == tenant + "/" + document + "/original/" + name
    ensures if |filename| == 0 then name == "upload" else |name| == |filename|
    ensures forall i :: 0 <= i < |filename| ==>
              name[i] == if filename[i] in {'/', '\\'} then '_' else filename[i]
    ensures '/' !in name
  {
    name := SafeFilename(filename);
    assert |filename| == 0 ==> filename == "";
  }

  function ObjectUri(bucket: string, key: string): string {
    "s3://" + bucket + "/" + key
  }

  // ---- urllib.parse.urlparse, as far as `get` looks at its result ----

  datatype Url = Url(scheme: string, netloc: string, path: string)

  predicate RemovedByUrlSplit(c: char) {
    c == '\t' || c == '\r' || c == '\n'
  }

  function DropWhitespace(s: string): (r: string)
    ensures |r| <= |s|
  {
    if s == "" then "" else (if RemovedByUrlSplit(s[0]) then "" else [s[0]]) + DropWhitespace(s[1..])
  }

  function StripControls(s: string): string {
    if s != "" && s[0] <= ' ' then StripControls(s[1..]) else s
  }

  /** The part of `s` before the first character of `stop`. */
  function Cut(s: string, stop: set<char>): (r: string)
    ensures |r| <= |s|
  {
    if s == "" || s[0] in stop then "" else [s[0]] + Cut(s[1..], stop)
  }

  predicate IsLetter(c: char) {
    'a' <= c <= 'z' || 'A' <= c <= 'Z'
  }

  predicate IsSchemeChar(c: char) {
    IsLetter(c) || '0' <= c <= '9' || c == '+' || c == '-' || c == '.'
  }

  function UrlParse(uri: string): Url {
    SplitUrl(DropWhitespace(StripControls(uri)))
  }

  function SplitUrl(url: string): Url {
    var (scheme, rest) := SplitScheme(url);
    var (netloc, path) := SplitNetloc(rest);
    Url(scheme, netloc, Cut(Cut(path, {'#'}), {'?'}))
  }

  function SplitScheme(url: string): (string, string) {
    var head := Cut(url, {':'});
    if |head| < |url| && head != "" && IsLetter(url[0]) && forall c :: c in head ==> IsSchemeChar(c) then
      (Lower(head), url[|head| + 1..])
    else
      ("", url)
  }

  function SplitNetloc(rest: string): (string, string) {
    if |rest| >= 2 && rest[0] == rest[1] == '/' then
      var netloc := Cut(rest[2..], {'/', '?', '#'});
      (netloc, rest[2 + |netloc|..])
    else
      ("", rest)
  }

  function StripSlashes(s: string): string {
    if s != "" && s[0] == '/' then StripSlashes(s[1..]) else s
  }

  /** The key `SourceObjectStore.get` asks the bucket for; None is the ValueError for a foreign URI. */
  function KeyOfUri(bucket: string, uri: string): Option<string> {
    var url := UrlParse(uri);
    var key := StripSlashes(url.path);
    if url.scheme != "s3" || url.netloc != bucket || key == "" then None else Some(key)
  }

  // ---- The round trip ----

  /** The characters that end the path (section 3.3 of RFC 3986) or that urlsplit deletes. */
  predicate Breaking(c: char) {
    c == '?' || c == '#' || RemovedByUrlSplit(c)
  }

  lemma {:induction false} DropWhitespaceConcat(a: string, b: string)
    ensures DropWhitespace(a + b) == DropWhitespace(a) + DropWhitespace(b)
  {
    if a == "" {
      assert a + b == b;
    } else {
      assert (a + b)[1..] == a[1..] + b;
      DropWhitespaceConcat(a[1..], b);
    }
  }

  lemma DropWhitespaceAppend(a: string, b: string)
    requires forall c :: c in a ==> !RemovedByUrlSplit(c)
    ensures DropWhitespace(a + b) == a + DropWhitespace(b)
  {
    DropWhitespaceConcat(a, b);
    DropKeepsAll(a);
  }

  lemma {:induction false} CutAppend(a: string, b: string, stop: set<char>)
    requires forall c :: c in a ==> c !in stop
    ensures Cut(a + b, stop) == a + Cut(b, stop)
  {
    if a == "" {
      assert a + b == b;
    } else {
      assert (a + b)[1..] == a[1..] + b;
      CutAppend(a[1..], b, stop);
    }
  }

  lemma {:induction false} CutKeepsAll(s: string, stop: set<char>)
    ensures |Cut(s, stop)| == |s| <==> forall c :: c in s ==> c !in stop
    ensures |Cut(s, stop)| == |s| ==> Cut(s, stop) == s
  {
    if s != "" {
      CutKeepsAll(s[1..], stop);
      assert s == [s[0]] + s[1..];
    }
  }

  lemma {:induction false} DropKeepsAll(s: string)
    ensures |DropWhitespace(s)| == |s| <==> forall c :: c in s ==> !RemovedByUrlSplit(c)
    ensures |DropWhitespace(s)| == |s| ==> DropWhitespace(s) == s
  {
    if s != "" {
      DropKeepsAll(s[1..]);
      assert s == [s[0]] + s[1..];
    }
  }

  /** The part of a file name that survives the trip through the URI. */
  function Surviving(safe: string): string {
    Cut(Cut(DropWhitespace(safe), {'#'}), {'?'})
  }

  lemma SurvivesWhole(safe: string)
    ensures Surviving(safe) == safe <==> forall c :: c in safe ==> !Breaking(c)
  {
    var a := DropWhitespace(safe);
    var b := Cut(a, {'#'});
    DropKeepsAll(safe);
    CutKeepsAll(a, {'#'});
    CutKeepsAll(b, {'?'});
  }

  lemma SafeFilenameBreaks(filename: string)
    ensures (exists c :: c in SafeFilename(filename) && Breaking(c)) <==> (exists c :: c in filename && Breaking(c))
  {
    var once := Replace(filename, '/', '_');
    var safe := Replace(once, '\\', '_');
    forall i | 0 <= i < |filename|
      ensures safe[i] == if filename[i] == '/' || filename[i] == '\\' then '_' else filename[i]
    {
    }
    if c :| c in filename && Breaking(c) {
      var i :| 0 <= i < |filename| && filename[i] == c;
      assert safe[i] == c;
    }
    if c :| c in safe && Breaking(c) {
      var i :| 0 <= i < |safe| && safe[i] == c;
      assert filename[i] == c;
    }
  }

  predicate PlainPrefix(s: string) {
    forall c :: c in s ==> UuidChar(c) || c == '/' || 'a' <= c <= 'z'
  }

  lemma PrefixIsPlain(tenant: Id, document: Id)
    requires IsUuid(tenant) && IsUuid(document)
    ensures |DocumentPrefix(tenant, document)| == PREFIX_LENGTH
    ensures PlainPrefix(DocumentPrefix(tenant, document))
    ensures DocumentPrefix(tenant, document)[0] != '/'
  {
    var prefix := DocumentPrefix(tenant, document);
    forall c | c in prefix ensures UuidChar(c) || c == '/' || 'a' <= c <= 'z' {
      assert c in tenant || c == '/' || c in document || c in "/original/";
    }
  }

  lemma SplitS3Scheme(rest: string)
    ensures SplitScheme("s3:" + rest) == ("s3", rest)
  {
    var url := "s3:" + rest;
    var tail := [':'] + rest;
    assert url == "s3" + tail;
    CutAppend("s3", tail, {':'});
    assert Cut(tail, {':'}) == "";
    assert Cut(url, {':'}) == "s3";
    assert url[0] == 's' && IsLetter('s') && forall c :: c in "s3" ==> IsSchemeChar(c);
    assert Lower("s3") == "s3";
    assert url[3..] == rest;
  }

  lemma SplitBucket(bucket: string, path: string)
    requires IsBucket(bucket) && path != "" && path[0] == '/'
    ensures SplitNetloc("//" + bucket + path) == (bucket, path)
  {
    var rest := "//" + bucket + path;
    assert rest[2..] == bucket + path;
    CutAppend(bucket, path, {'/', '?', '#'});
    assert Cut(path, {'/', '?', '#'}) == "";
    assert Cut(rest[2..], {'/', '?', '#'}) == bucket;
    assert rest[2 + |bucket|..] == path;
  }

  lemma SplitCleanUrl(bucket: string, path: string, rest: string)
    requires IsBucket(bucket) && path != "" && path[0] == '/' && rest == "//" + bucket + path
    ensures SplitUrl("s3:" + rest) == Url("s3", bucket, Cut(Cut(path, {'#'}), {'?'}))
  {
    SplitS3Scheme(rest);
    SplitBucket(bucket, path);
  }

  lemma UrlParts(bucket: string, path: string)
    ensures "s3://" + bucket + path == "s3:" + ("//" + bucket + path)
  {
    assert "s3://" == "s3:" + "//";
  }

  lemma SplitS3Url(bucket: string, path: string)
    requires IsBucket(bucket) && path != "" && path[0] == '/'
    ensures SplitUrl("s3://" + bucket + path) == Url("s3", bucket, Cut(Cut(path, {'#'}), {'?'}))
  {
    SplitCleanUrl(bucket, path, "//" + bucket + path);
    UrlParts(bucket, path);
  }

  lemma StoredUriIsCleaned(bucket: string, prefix: string, tail: string)
    requires IsBucket(bucket) && PlainPrefix(prefix)
    ensures DropWhitespace(StripControls(ObjectUri(bucket, prefix + tail)))
            == "s3://" + bucket + ("/" + prefix + DropWhitespace(tail))
  {
    var uri := ObjectUri(bucket, prefix + tail);
    var lead := "s3://" + bucket + "/" + prefix;
    assert uri == lead + tail;
    assert uri[0] == 's';
    assert StripControls(uri) == uri;
    forall c | c in lead ensures !RemovedByUrlSplit(c) {
      assert c in "s3://" || c in bucket || c == '/' || c in prefix;
    }
    DropWhitespaceAppend(lead, tail);
    assert lead + DropWhitespace(tail) == "s3://" + bucket + ("/" + prefix + DropWhitespace(tail));
  }

  lemma PathOfKey(prefix: string, tail: string)
    requires PlainPrefix(prefix)
    ensures Cut(Cut("/" + prefix + DropWhitespace(tail), {'#'}), {'?'}) == "/" + prefix + Surviving(tail)
  {
    var kept := DropWhitespace(tail);
    CutAppend("/" + prefix, kept, {'#'});
    CutAppend("/" + prefix, Cut(kept, {'#'}), {'?'});
  }

  lemma StripLeadingSlash(key: string)
    requires key != "" && key[0] != '/'
    ensures StripSlashes("/" + key) == key
  {
    assert ("/" + key)[1..] == key;
  }

  lemma UrlOfKey(bucket: string, prefix: string, tail: string)
    requires IsBucket(bucket) && PlainPrefix(prefix)
    ensures UrlParse(ObjectUri(bucket, prefix + tail)) == Url("s3", bucket, "/" + prefix + Surviving(tail))
  {
    StoredUriIsCleaned(bucket, prefix, tail);
    SplitS3Url(bucket, "/" + prefix + DropWhitespace(tail));
    PathOfKey(prefix, tail);
  }

  /** What `get` asks for, for any stored key that begins with a plain prefix. */
  lemma RecoveredKey(bucket: string, prefix: string, tail: string)
    requires IsBucket(bucket) && PlainPrefix(prefix) && prefix != "" && prefix[0] != '/'
    ensures KeyOfUri(bucket, ObjectUri(bucket, prefix + tail)) == Some(prefix + Surviving(tail))
  {
    var key := prefix + Surviving(tail);
    UrlOfKey(bucket, prefix, tail);
    assert "/" + prefix + Surviving(tail) == "/" + key;
    StripLeadingSlash(key);
  }

  // ---- Any URI at all ----

  /** `Cut` is the longest part before a stop. */
  lemma {:induction false} CutSplits(s: string, stop: set<char>) returns (rest: string)
    ensures s == Cut(s, stop) + rest && rest == s[|Cut(s, stop)|..]
    ensures forall c :: c in Cut(s, stop) ==> c !in stop
    ensures rest == "" || rest[0] in stop
  {
    if s == "" || s[0] in stop {
      rest := s;
    } else {
      rest := CutSplits(s[1..], stop);
      assert s == [s[0]] + s[1..];
    }
  }

  predicate AllSlashes(s: string) {
    forall i :: 0 <= i < |s| ==> s[i] == '/'
  }

  lemma {:induction false} StripSplits(s: string) returns (slashes: string)
    ensures s == slashes + StripSlashes(s) && AllSlashes(slashes)
    ensures slashes != "" <==> s != "" && s[0] == '/'
    ensures StripSlashes(s) == "" || StripSlashes(s)[0] != '/'
  {
    if s != "" && s[0] == '/' {
      slashes := StripSplits(s[1..]);
      slashes := "/" + slashes;
      assert s == [s[0]] + s[1..];
    } else {
      slashes := "";
    }
  }

  lemma {:induction false} StripAll(slashes: string, key: string)
    requires AllSlashes(slashes) && key != "" && key[0] != '/'
    ensures StripSlashes(slashes + key) == key
  {
    if slashes == "" {
      assert slashes + key == key;
    } else {
      assert (slashes + key)[1..] == slashes[1..] + key;
      StripAll(slashes[1..], key);
    }
  }

  /** An s3 URL of the bucket with this key, in the grammar of section 3 of RFC 3986: the scheme in any case, slashes
      after the authority, and after the key nothing, a query or a fragment. */
  predicate IsUrlOf(bucket: string, url: string, scheme: string, slashes: string, key: string, tail: string) {
    && url == scheme + "://" + bucket + slashes + key + tail
    && scheme in {"s3", "S3"}
    && slashes != "" && AllSlashes(slashes)
    && key != "" && key[0] != '/' && '?' !in key && '#' !in key
    && (tail == "" || tail[0] == '?' || tail[0] == '#')
  }

  lemma SchemeIsS3(head: string)
    ensures Lower(head) == "s3" <==> head in {"s3", "S3"}
  {
    assert |"s3"| == 2;
    if |head| == 2 {
      assert Lower(head)[0] == LowerChar(head[0]) && Lower(head)[1] == LowerChar(head[1]);
      assert Lower(head) == [LowerChar(head[0]), LowerChar(head[1])];
      assert head == [head[0], head[1]];
    }
  }

  lemma SchemeOfUrl(scheme: string, rest: string)
    requires scheme in {"s3", "S3"}
    ensures SplitScheme(scheme + ":" + rest) == ("s3", rest)
  {
    var url, tail := scheme + ":" + rest, ":" + rest;
    assert url == scheme + tail;
    CutAppend(scheme, tail, {':'});
    assert Cut(tail, {':'}) == "";
    assert Cut(url, {':'}) == scheme;
    SchemeIsS3(scheme);
    assert url[|scheme| + 1..] == rest;
  }

  /** The two cuts together end the path at its first '?' or '#'. */
  lemma PathOfUrl(path: string, tail: string)
    requires '?' !in path && '#' !in path && (tail == "" || tail[0] == '?' || tail[0] == '#')
    ensures Cut(Cut(path + tail, {'#'}), {'?'}) == path
  {
    CutAppend(path, tail, {'#'});
    CutAppend(path, Cut(tail, {'#'}), {'?'});
  }

  lemma UrlGivesKey(bucket: string, url: string, scheme: string, slashes: string, key: string, tail: string)
    requires IsBucket(bucket) && IsUrlOf(bucket, url, scheme, slashes, key, tail)
    ensures SplitUrl(url).scheme == "s3" && SplitUrl(url).netloc == bucket && StripSlashes(SplitUrl(url).path) == key
  {
    var path := slashes + key;
    var rest := "//" + bucket + (path + tail);
    assert url == scheme + ":" + rest;
    SchemeOfUrl(scheme, rest);
    assert path[0] == slashes[0] == '/';
    SplitBucket(bucket, path + tail);
    PathOfUrl(path, tail);
    StripAll(slashes, key);
  }

  lemma SchemeGivesUrl(url: string, rest: string) returns (scheme: string)
    requires SplitScheme(url) == ("s3", rest)
    ensures url == scheme + ":" + rest && scheme in {"s3", "S3"}
  {
    scheme := Cut(url, {':'});
    var colon := CutSplits(url, {':'});
    SchemeIsS3(scheme);
  }

  lemma NetlocGivesUrl(bucket: string, rest: string, path: string)
    requires IsBucket(bucket) && SplitNetloc(rest) == (bucket, path)
    ensures rest == "//" + bucket + path
  {
    assert rest[..2] == "//";
    assert rest == rest[..2] + rest[2..];
    var after := CutSplits(rest[2..], {'/', '?', '#'});
  }

  lemma FirstOfTail(query: string, fragment: string)
    requires query == "" || query[0] in {'?'}
    requires fragment == "" || fragment[0] in {'#'}
    ensures query + fragment == "" || (query + fragment)[0] == '?' || (query + fragment)[0] == '#'
  {
    if query == "" {
      assert query + fragment == fragment;
    }
  }

  lemma NoStopKept(before: string, kept: string, query: string)
    requires before == kept + query
    requires (forall c :: c in before ==> c !in {'#'}) && forall c :: c in kept ==> c !in {'?'}
    ensures '?' !in kept && '#' !in kept
  {
    assert forall c :: c in kept ==> c in before;
  }

  lemma CutsSplit(path: string) returns (kept: string, tail: string)
    ensures kept == Cut(Cut(path, {'#'}), {'?'}) && path == kept + tail
    ensures '?' !in kept && '#' !in kept
    ensures tail == "" || tail[0] == '?' || tail[0] == '#'
  {
    var before := Cut(path, {'#'});
    kept := Cut(before, {'?'});
    var fragment := CutSplits(path, {'#'});
    var query := CutSplits(before, {'?'});
    tail := query + fragment;
    FirstOfTail(query, fragment);
    NoStopKept(before, kept, query);
    assert path == (kept + query) + fragment == kept + tail;
  }

  lemma KeptGivesKey(path: string, kept: string, tail: string, key: string) returns (slashes: string)
    requires path == kept + tail && path != "" && path[0] == '/' && kept != ""
    requires key != "" && StripSlashes(kept) == key && '?' !in kept && '#' !in kept
    ensures kept == slashes + key && slashes != "" && AllSlashes(slashes)
    ensures key[0] != '/' && '?' !in key && '#' !in key
  {
    slashes := StripSplits(kept);
    assert kept[0] == path[0];
    assert forall c :: c in key ==> c in kept;
  }

  lemma PathGivesKey(path: string, key: string) returns (slashes: string, tail: string)
    requires path != "" && path[0] == '/' && key != "" && StripSlashes(Cut(Cut(path, {'#'}), {'?'})) == key
    ensures path == slashes + key + tail && key[0] != '/' && '?' !in key && '#' !in key
    ensures slashes != "" && AllSlashes(slashes)
    ensures tail == "" || tail[0] == '?' || tail[0] == '#'
  {
    var kept;
    kept, tail := CutsSplit(path);
    assert StripSlashes("") == "";
    slashes := KeptGivesKey(path, kept, tail, key);
  }

  lemma PathBeginsWithSlash(rest: string, bucket: string, path: string)
    requires IsBucket(bucket) && SplitNetloc(rest) == (bucket, path)
    requires Cut(Cut(path, {'#'}), {'?'}) != ""
    ensures path != "" && path[0] == '/'
  {
    var after := CutSplits(rest[2..], {'/', '?', '#'});
    assert after == path;
  }

  lemma KeyGivesUrl(bucket: string, url: string, key: string) returns (scheme: string, slashes: string, tail: string)
    requires IsBucket(bucket) && key != ""
    requires SplitUrl(url).scheme == "s3" && SplitUrl(url).netloc == bucket && StripSlashes(SplitUrl(url).path) == key
    ensures IsUrlOf(bucket, url, scheme, slashes, key, tail)
  {
    var rest := SplitScheme(url).1;
    var path := SplitNetloc(rest).1;
    scheme := SchemeGivesUrl(url, rest);
    NetlocGivesUrl(bucket, rest, path);
    assert StripSlashes("") == "";
    PathBeginsWithSlash(rest, bucket, path);
    slashes, tail := PathGivesKey(path, key);
    UrlIsWhole(bucket, url, scheme, slashes, key, tail, path);
  }

  lemma UrlIsWhole(bucket: string, url: string, scheme: string, slashes: string, key: string, tail: string,
                   path: string)
    requires url == scheme + ":" + ("//" + bucket + path) && path == slashes + key + tail
    ensures url == scheme + "://" + bucket + slashes + key + tail
  {
  }

  /** `url` is an s3 URL of the bucket with this key. */
  ghost predicate NamesKey(bucket: string, url: string, key: string) {
    exists scheme, slashes, tail :: IsUrlOf(bucket, url, scheme, slashes, key, tail)
  }

  lemma NamedIff(bucket: string, url: string, key: string)
    requires IsBucket(bucket)
    ensures NamesKey(bucket, url, key)
            <==> SplitUrl(url).scheme == "s3" && SplitUrl(url).netloc == bucket && key != ""
                 && StripSlashes(SplitUrl(url).path) == key
  {
    if NamesKey(bucket, url, key) {
      var scheme, slashes, tail :| IsUrlOf(bucket, url, scheme, slashes, key, tail);
      UrlGivesKey(bucket, url, scheme, slashes, key, tail);
    } else if SplitUrl(url).scheme == "s3" && SplitUrl(url).netloc == bucket && key != ""
              && StripSlashes(SplitUrl(url).path) == key {
      var scheme, slashes, tail := KeyGivesUrl(bucket, url, key);
      assert false;
    }
  }

  /** What `get` asks for, for any URI at all: a key if and only if the URI, without leading control characters and
      without tabs and line ends, is an s3 URL of its own bucket with that key. */
  lemma KeyOfUriIff(bucket: string, uri: string, key: string)
    requires IsBucket(bucket)
    ensures KeyOfUri(bucket, uri) == Some(key) <==> NamesKey(bucket, DropWhitespace(StripControls(uri)), key)
  {
    NamedIff(bucket, DropWhitespace(StripControls(uri)), key);
  }

  /** What the URI is read without. */
  lemma {:induction false} ControlsAreStripped(uri: string) returns (lead: string)
    ensures uri == lead + StripControls(uri) && forall c :: c in lead ==> c <= ' '
    ensures StripControls(uri) == "" || StripControls(uri)[0] > ' '
  {
    if uri != "" && uri[0] <= ' ' {
      lead := ControlsAreStripped(uri[1..]);
      lead := [uri[0]] + lead;
      assert uri == [uri[0]] + uri[1..];
    } else {
      lead := "";
    }
  }

  /** A URI of another bucket is refused. */
  lemma ForeignBucketIsRefused(bucket: string, other: string, prefix: string, tail: string)
    requires IsBucket(other) && other != bucket && PlainPrefix(prefix)
    ensures KeyOfUri(bucket, ObjectUri(other, prefix + tail)) == None
  {
    UrlOfKey(other, prefix, tail);
  }

  /** `get` recovers exactly the key `put` stored if and only if the file name has no breaking character. */
  lemma UriRoundTrip(bucket: string, tenant: Id, document: Id, filename: string)
    requires IsBucket(bucket) && IsUuid(tenant) && IsUuid(document)
    ensures var key := SourceKey(tenant, document, filename);
            KeyOfUri(bucket, ObjectUri(bucket, key)) == Some(key) <==> forall c :: c in filename ==> !Breaking(c)
  {
    var prefix, safe := DocumentPrefix(tenant, document), SafeFilename(filename);
    PrefixIsPlain(tenant, document);
    RecoveredKey(bucket, prefix, safe);
    SurvivesWhole(safe);
    SafeFilenameBreaks(filename);
    assert (prefix + safe)[|prefix|..] == safe;
    assert (prefix + Surviving(safe))[|prefix|..] == Surviving(safe);
  }

  /** Whatever the file name, the recovered key stays under the prefix of its own tenant and document. */
  lemma RecoveredKeyStaysInDocument(bucket: string, tenant: Id, document: Id, filename: string)
    requires IsBucket(bucket) && IsUuid(tenant) && IsUuid(document)
    ensures var r := KeyOfUri(bucket, ObjectUri(bucket, SourceKey(tenant, document, filename)));
            r.Some? && DocumentPrefix(tenant, document) <= r.value
  {
    PrefixIsPlain(tenant, document);
    RecoveredKey(bucket, DocumentPrefix(tenant, document), SafeFilename(filename));
  }

  /** The document id inside a key. */
  function OwnerOf(key: string): string {
    if |key| < PREFIX_LENGTH then "" else key[37..73]
  }

  lemma PrefixNamesOwner(tenant: Id, document: Id, key: string)
    requires IsUuid(tenant) && IsUuid(document) && DocumentPrefix(tenant, document) <= key
    ensures OwnerOf(key) == document && key[..36] == tenant
  {
    var prefix := DocumentPrefix(tenant, document);
    assert |prefix| == PREFIX_LENGTH;
    assert prefix[..36] == tenant && prefix[37..73] == document;
    assert key[..PREFIX_LENGTH] == prefix;
    assert key[..36] == prefix[..36] && key[37..73] == prefix[37..73];
  }

  /** Keys of distinct (tenant, document) pairs differ, whatever the file names. */
  lemma SourceKeyInjective(t1: Id, d1: Id, f1: string, t2: Id, d2: Id, f2: string)
    requires IsUuid(t1) && IsUuid(d1) && IsUuid(t2) && IsUuid(d2)
    requires SourceKey(t1, d1, f1) == SourceKey(t2, d2, f2)
    ensures t1 == t2 && d1 == d2
  {
    PrefixNamesOwner(t1, d1, SourceKey(t1, d1, f1));
    PrefixNamesOwner(t2, d2, SourceKey(t2, d2, f2));
  }

  // ---- Artifact keys ----

  function ArtifactPrefix(tenant: Id, version: Id, sha: string): string {
    tenant + "/" + version + "/extracted/" + sha
  }

  function NormalizedKey(tenant: Id, version: Id, sha: string): string {
    ArtifactPrefix(tenant, version, sha) + "/normalized.json"
  }

  function ManifestKey(tenant: Id, version: Id, sha: string): string {
    ArtifactPrefix(tenant, version, sha) + "/manifest.json"
  }

  lemma SplitPrefix(tenant: Id, version: Id, sha: string, suffix: string, key: string)
    requires IsUuid(tenant) && IsUuid(version)
    requires key == ArtifactPrefix(tenant, version, sha) + suffix
    ensures |key| == 84 + |sha| + |suffix|
    ensures key[..36] == tenant && key[37..73] == version && key[84..|key| - |suffix|] == sha
    ensures key[|key| - |suffix|..] == suffix
  {
    var prefix := ArtifactPrefix(tenant, version, sha);
    assert |tenant + "/" + version + "/extracted/"| == 84;
    assert prefix[..36] == tenant && prefix[37..73] == version && prefix[84..] == sha;
    assert key[..|prefix|] == prefix;
    assert key[..36] == prefix[..36] && key[37..73] == prefix[37..73];
    assert key[84..|prefix|] == prefix[84..];
  }

  /** Distinct (tenant, version, sha) triples never share an artifact key, and the two artifacts of one triple
      never share one with each other or with those of another triple. */
  lemma ArtifactKeysDisjoint(t1: Id, v1: Id, s1: string, t2: Id, v2: Id, s2: string)
    requires IsUuid(t1) && IsUuid(v1) && IsUuid(t2) && IsUuid(v2)
    ensures NormalizedKey(t1, v1, s1) == NormalizedKey(t2, v2, s2) ==> t1 == t2 && v1 == v2 && s1 == s2
    ensures ManifestKey(t1, v1, s1) == ManifestKey(t2, v2, s2) ==> t1 == t2 && v1 == v2 && s1 == s2
    ensures NormalizedKey(t1, v1, s1) != ManifestKey(t2, v2, s2)
  {
    var n1, n2 := NormalizedKey(t1, v1, s1), NormalizedKey(t2, v2, s2);
    var m1, m2 := ManifestKey(t1, v1, s1), ManifestKey(t2, v2, s2);
    SplitPrefix(t1, v1, s1, "/normalized.json", n1);
    SplitPrefix(t2, v2, s2, "/normalized.json", n2);
    SplitPrefix(t1, v1, s1, "/manifest.json", m1);
    SplitPrefix(t2, v2, s2, "/manifest.json", m2);
    assert n1[|n1| - 6] == n1[|n1| - 16..][10] == 'd';
    assert m2[|m2| - 6] == m2[|m2| - 14..][8] == 't';
  }
}
