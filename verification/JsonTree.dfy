/** `_without_binary` and `_figure_evidence`: what of a converted document reaches the artifact bucket. */
module JsonTree {
  import opened Basics
  import opened Domain

  // A dictionary key is a string, or any other object with the text `str(key)` gives it.
  datatype Key = Text(text: string) | Other(text: string)

  datatype Entry = Entry(key: Key, value: Value)

  // A dictionary keeps insertion order. Opaque is any object that is not a JSON type, with its `str` text.
  datatype Value =
    | Dict(entries: seq<Entry>)
    | List(items: seq<Value>)
    | Str(s: string)
    | Number(n: real)
    | Bool(b: bool)
    | Null
    | Opaque(text: string)

  // Only ASCII letters matter here: no other character lower-cases to a letter of a forbidden key.
  predicate Forbidden(key: string) {
    Lower(key) in ["image", "image_data", "data", "binary", "base64", "pixels"]
  }

  /** `key` is `word`, a word in lower case, with any of its letters in upper case. */
  predicate SameButCase(key: string, word: string) {
    |key| == |word| && forall i :: 0 <= i < |key| ==>
      key[i] == word[i] || ('a' <= word[i] <= 'z' && key[i] as int == word[i] as int - 32)
  }

  lemma LowerIff(key: string, word: string)
    requires forall c :: c in word ==> !('A' <= c <= 'Z')
    ensures Lower(key) == word <==> SameButCase(key, word)
  {
    if SameButCase(key, word) {
      forall i | 0 <= i < |key| ensures Lower(key)[i] == word[i] {
        assert word[i] in word;
      }
    }
    if Lower(key) == word {
      forall i | 0 <= i < |key|
        ensures key[i] == word[i] || ('a' <= word[i] <= 'z' && key[i] as int == word[i] as int - 32)
      {
        assert Lower(key)[i] == word[i];
      }
    }
  }

  /** The six names under which nothing is kept, in any case. */
  lemma ForbiddenNames(key: string)
    ensures Forbidden(key) <==>
              || SameButCase(key, "image") || SameButCase(key, "image_data") || SameButCase(key, "data")
              || SameButCase(key, "binary") || SameButCase(key, "base64") || SameButCase(key, "pixels")
  {
    LowerIff(key, "image");
    LowerIff(key, "image_data");
    LowerIff(key, "data");
    LowerIff(key, "binary");
    LowerIff(key, "base64");
    LowerIff(key, "pixels");
  }

  /** Assignment to a dictionary: a present key keeps its place, a new one goes last. */
  function Put(entries: seq<Entry>, key: string, value: Value): seq<Entry> {
    if entries == [] then [Entry(Text(key), value)]
    else if entries[0].key == Text(key) then [Entry(Text(key), value)] + entries[1..]
    else [entries[0]] + Put(entries[1..], key, value)
  }

  function WithoutBinary(v: Value): Value
    decreases v, 1
  {
    match v
    case Dict(entries) => Dict(CleanEntries(entries))
    case List(items) => List(CleanItems(items))
    case Opaque(text) => Str(text)
    case _ => v
  }

  function CleanEntries(entries: seq<Entry>): seq<Entry>
    decreases entries, 0
  {
    if entries == [] then [] else
    var last := entries[|entries| - 1];
    var done := CleanEntries(entries[..|entries| - 1]);
    if Forbidden(last.key.text) then done else Put(done, last.key.text, CleanValue(last))
  }

  function CleanValue(e: Entry): Value
    decreases e, 0
  {
    WithoutBinary(e.value)
  }

  function CleanItems(items: seq<Value>): (r: seq<Value>)
    ensures |r| == |items|
    decreases items, 0
  {
    if items == [] then [] else
    CleanItems(items[..|items| - 1]) + [WithoutBinary(items[|items| - 1])]
  }

  /** A JSON tree without a forbidden key at any depth. */
  ghost predicate Clean(v: Value)
    decreases v, 1
  {
    match v
    case Dict(entries) => CleanDict(entries)
    case List(items) => forall i :: 0 <= i < |items| ==> Clean(items[i])
    case Opaque(_) => false
    case _ => true
  }

  ghost predicate CleanDict(entries: seq<Entry>)
    decreases entries, 0
  {
    WellKeyed(entries) && forall i :: 0 <= i < |entries| ==> CleanEntry(entries[i])
  }

  predicate Permitted(key: Key) {
    key.Text? && !Forbidden(key.text)
  }

  /** A dictionary that JSON can write: permitted text keys, each once. */
  ghost predicate WellKeyed(entries: seq<Entry>) {
    && (forall i :: 0 <= i < |entries| ==> Permitted(entries[i].key))
    && (forall i, j :: 0 <= i < j < |entries| ==> entries[i].key != entries[j].key)
  }

  ghost predicate CleanEntry(e: Entry)
    decreases e, 0
  {
    Clean(e.value)
  }

  function Find(entries: seq<Entry>, key: string): Option<Value> {
    if entries == [] then None
    else if entries[0].key == Text(key) then Some(entries[0].value)
    else Find(entries[1..], key)
  }

  /** The value of the last entry whose key prints as `key`. */
  function LastNamed(entries: seq<Entry>, key: string): Option<Value> {
    if entries == [] then None
    else
      var last := entries[|entries| - 1];
      if last.key.text == key then Some(last.value) else LastNamed(entries[..|entries| - 1], key)
  }

  lemma {:induction false} PutKeys(entries: seq<Entry>, key: string, value: Value, e: Entry)
    requires e in Put(entries, key, value)
    ensures e == Entry(Text(key), value) || e in entries
  {
    if entries != [] && entries[0].key != Text(key) && e != entries[0] {
      PutKeys(entries[1..], key, value, e);
    }
  }

  lemma ConsIsWellKeyed(e: Entry, tail: seq<Entry>)
    requires Permitted(e.key) && WellKeyed(tail) && forall j :: 0 <= j < |tail| ==> tail[j].key != e.key
    ensures WellKeyed([e] + tail)
  {
  }

  lemma ConsIsClean(e: Entry, tail: seq<Entry>)
    requires CleanEntry(e) && CleanDict(tail) && WellKeyed([e] + tail)
    ensures CleanDict([e] + tail)
  {
    forall i | 0 <= i < |[e] + tail| ensures CleanEntry(([e] + tail)[i]) {
      if i > 0 {
        assert ([e] + tail)[i] == tail[i - 1];
      }
    }
  }

  lemma TailIsClean(entries: seq<Entry>)
    requires CleanDict(entries) && entries != []
    ensures CleanDict(entries[1..]) && CleanEntry(entries[0]) && Permitted(entries[0].key)
    ensures forall j :: 0 <= j < |entries[1..]| ==> entries[1..][j].key != entries[0].key
  {
  }

  lemma {:induction false} PutKeepsClean(entries: seq<Entry>, key: string, value: Value)
    requires CleanDict(entries) && Clean(value) && !Forbidden(key)
    ensures CleanDict(Put(entries, key, value))
  {
    if entries == [] {
      ConsIsClean(Entry(Text(key), value), []);
    } else {
      TailIsClean(entries);
      if entries[0].key == Text(key) {
        ConsIsWellKeyed(Entry(Text(key), value), entries[1..]);
        ConsIsClean(Entry(Text(key), value), entries[1..]);
      } else {
        var tail := Put(entries[1..], key, value);
        PutKeepsClean(entries[1..], key, value);
        forall j | 0 <= j < |tail| ensures tail[j].key != entries[0].key {
          PutKeys(entries[1..], key, value, tail[j]);
        }
        ConsIsWellKeyed(entries[0], tail);
        ConsIsClean(entries[0], tail);
      }
    }
  }

  lemma {:induction false} FindAfterPut(entries: seq<Entry>, key: string, value: Value, k: string)
    ensures Find(Put(entries, key, value), k) == if k == key then Some(value) else Find(entries, k)
  {
    if entries != [] && entries[0].key != Text(key) {
      FindAfterPut(entries[1..], key, value, k);
    }
  }

  /** No forbidden key survives at any depth, whatever the converter produced. */
  lemma {:induction false} ResultIsClean(v: Value)
    ensures Clean(WithoutBinary(v))
    decreases v, 1
  {
    match v
    case Dict(entries) => ResultDictIsClean(entries);
    case List(items) => ResultItemsAreClean(items);
    case _ =>
  }

  lemma {:induction false} ResultDictIsClean(entries: seq<Entry>)
    ensures CleanDict(CleanEntries(entries))
    decreases entries, 0
  {
    if entries != [] {
      var last := entries[|entries| - 1];
      ResultDictIsClean(entries[..|entries| - 1]);
      ResultEntryIsClean(last);
      if !Forbidden(last.key.text) {
        PutKeepsClean(CleanEntries(entries[..|entries| - 1]), last.key.text, WithoutBinary(last.value));
      }
    }
  }

  lemma {:induction false} ResultEntryIsClean(e: Entry)
    ensures Clean(CleanValue(e))
    decreases e, 0
  {
    ResultIsClean(e.value);
  }

  lemma {:induction false} ResultItemsAreClean(items: seq<Value>)
    ensures forall i :: 0 <= i < |items| ==> CleanItems(items)[i] == WithoutBinary(items[i])
    ensures forall i :: 0 <= i < |items| ==> Clean(CleanItems(items)[i])
    decreases items, 0
  {
    if items != [] {
      ResultItemsAreClean(items[..|items| - 1]);
      ResultIsClean(items[|items| - 1]);
    }
  }

  lemma {:induction false} PutFreshAppends(entries: seq<Entry>, key: string, value: Value)
    requires forall i :: 0 <= i < |entries| ==> entries[i].key != Text(key)
    ensures Put(entries, key, value) == entries + [Entry(Text(key), value)]
  {
    if entries != [] {
      PutFreshAppends(entries[1..], key, value);
    }
  }

  lemma {:induction false} CleanIsFixed(v: Value)
    requires Clean(v)
    ensures WithoutBinary(v) == v
    decreases v, 1
  {
    match v
    case Dict(entries) => CleanDictIsFixed(entries);
    case List(items) => CleanItemsAreFixed(items);
    case _ =>
  }

  lemma {:induction false} CleanDictIsFixed(entries: seq<Entry>)
    requires CleanDict(entries)
    ensures CleanEntries(entries) == entries
    decreases entries, 0
  {
    if entries != [] {
      var n := |entries| - 1;
      var last := entries[n];
      CleanDictIsFixed(entries[..n]);
      CleanEntryIsFixed(last);
      PutFreshAppends(entries[..n], last.key.text, last.value);
      assert entries == entries[..n] + [last];
    }
  }

  lemma {:induction false} CleanEntryIsFixed(e: Entry)
    requires Clean(e.value)
    ensures CleanValue(e) == e.value
    decreases e, 0
  {
    CleanIsFixed(e.value);
  }

  lemma {:induction false} CleanItemsAreFixed(items: seq<Value>)
    requires forall i :: 0 <= i < |items| ==> Clean(items[i])
    ensures CleanItems(items) == items
    decreases items, 0
  {
    if items != [] {
      CleanItemsAreFixed(items[..|items| - 1]);
      CleanIsFixed(items[|items| - 1]);
    }
  }

  /** The trees left as they are are exactly the clean ones. */
  lemma FixedIffClean(v: Value)
    ensures WithoutBinary(v) == v <==> Clean(v)
  {
    ResultIsClean(v);
    if Clean(v) {
      CleanIsFixed(v);
    }
  }

  lemma Idempotent(v: Value)
    ensures WithoutBinary(WithoutBinary(v)) == WithoutBinary(v)
  {
    ResultIsClean(v);
    CleanIsFixed(WithoutBinary(v));
  }

  /** Nothing else is lost: under every permitted name the result holds the cleaned last value of that name. */
  lemma {:induction false} EvidenceIsKept(entries: seq<Entry>, key: string)
    ensures Find(CleanEntries(entries), key) ==
            if Forbidden(key) then None
            else if LastNamed(entries, key).None? then None
            else Some(WithoutBinary(LastNamed(entries, key).value))
  {
    if entries != [] {
      var n := |entries| - 1;
      EvidenceIsKept(entries[..n], key);
      if !Forbidden(entries[n].key.text) {
        FindAfterPut(CleanEntries(entries[..n]), entries[n].key.text, WithoutBinary(entries[n].value), key);
      }
    }
  }

  /** The permitted names of a dictionary in the order in which they first occur. */
  function FirstNames(entries: seq<Entry>): seq<string> {
    if entries == [] then [] else
    var before := FirstNames(entries[..|entries| - 1]);
    var name := entries[|entries| - 1].key.text;
    if Forbidden(name) || name in before then before else before + [name]
  }

  /** The entries have these names, in this order. */
  predicate Named(entries: seq<Entry>, names: seq<string>) {
    |entries| == |names| && forall i :: 0 <= i < |entries| ==> entries[i].key == Text(names[i])
  }

  lemma {:induction false} PutKeepsNames(entries: seq<Entry>, names: seq<string>, key: string, value: Value)
    requires Named(entries, names)
    ensures Named(Put(entries, key, value), if key in names then names else names + [key])
  {
    if entries != [] && entries[0].key != Text(key) {
      PutKeepsNames(entries[1..], names[1..], key, value);
      assert names == [names[0]] + names[1..];
    }
  }

  /** Names keep the place of their first occurrence, also where a later key of the same text replaces the value. */
  lemma {:induction false} NamesKeepTheirPlace(entries: seq<Entry>)
    ensures Named(CleanEntries(entries), FirstNames(entries))
  {
    if entries != [] {
      var last := entries[|entries| - 1];
      NamesKeepTheirPlace(entries[..|entries| - 1]);
      if !Forbidden(last.key.text) {
        PutKeepsNames(CleanEntries(entries[..|entries| - 1]), FirstNames(entries[..|entries| - 1]), last.key.text,
                      CleanValue(last));
      }
    }
  }

  // ---- At any depth ----

  datatype Hop = Name(name: string) | Index(i: nat)

  /** What a JSON tree holds at the end of a path of names and list indices. */
  function Lookup(v: Value, path: seq<Hop>): Option<Value>
    decreases |path|
  {
    if path == [] then Some(v)
    else
      match path[0]
      case Name(name) =>
        if !v.Dict? || Find(v.entries, name).None? then None else Lookup(Find(v.entries, name).value, path[1..])
      case Index(i) => if !v.List? || i >= |v.items| then None else Lookup(v.items[i], path[1..])
  }

  /** What a converted document holds there, if every name on the path is permitted; of several keys that print alike
      the last one counts. */
  function Evidence(v: Value, path: seq<Hop>): Option<Value>
    decreases |path|
  {
    if path == [] then Some(v)
    else
      match path[0]
      case Name(name) =>
        if !v.Dict? || Forbidden(name) || LastNamed(v.entries, name).None? then None
        else Evidence(LastNamed(v.entries, name).value, path[1..])
      case Index(i) => if !v.List? || i >= |v.items| then None else Evidence(v.items[i], path[1..])
  }

  function Cleaned(v: Option<Value>): Option<Value> {
    if v.Some? then Some(WithoutBinary(v.value)) else None
  }

  /** At the end of every path the result holds the cleaned value of the document, and nothing where a name on the path
      is forbidden. */
  lemma {:induction false} EvidenceAtAnyDepth(v: Value, path: seq<Hop>)
    ensures Lookup(WithoutBinary(v), path) == Cleaned(Evidence(v, path))
    decreases |path|
  {
    if path == [] {
    } else if path[0].Name? && v.Dict? {
      EvidenceIsKept(v.entries, path[0].name);
      if !Forbidden(path[0].name) && LastNamed(v.entries, path[0].name).Some? {
        EvidenceAtAnyDepth(LastNamed(v.entries, path[0].name).value, path[1..]);
      }
    } else if path[0].Index? && v.List? && path[0].i < |v.items| {
      ResultItemsAreClean(v.items);
      EvidenceAtAnyDepth(v.items[path[0].i], path[1..]);
    }
  }

  /** The texts in the result are exactly the texts of the document, and of its objects that are not JSON, which no
      forbidden name leads to. */
  lemma TextIsKeptIff(v: Value, path: seq<Hop>, text: string)
    ensures Lookup(WithoutBinary(v), path) == Some(Str(text))
            <==> Evidence(v, path) == Some(Str(text)) || Evidence(v, path) == Some(Opaque(text))
  {
    EvidenceAtAnyDepth(v, path);
  }

  /** What a JSON tree holds at a place where the document holds `was`: the same, but the text of an object that is not
      JSON, and a dictionary or a list in the place of one. */
  predicate SameLeaf(was: Option<Value>, now: Option<Value>) {
    match now
    case None => was.None?
    case Some(Str(text)) => was == Some(Str(text)) || was == Some(Opaque(text))
    case Some(Dict(_)) => was.Some? && was.value.Dict?
    case Some(List(items)) => was.Some? && was.value.List? && |was.value.items| == |items|
    case Some(_) => was == now && !now.value.Opaque?
  }

  /** Wherever a path of permitted names and list indices leads, `result` holds what `document` holds there, and no
      other path leads anywhere. */
  ghost predicate HoldsEvidence(document: Value, result: Value) {
    forall path :: SameLeaf(Evidence(document, path), Lookup(result, path))
  }

  /** Cleaning keeps the evidence, and all of it. */
  lemma ResultHoldsEvidence(v: Value)
    ensures HoldsEvidence(v, WithoutBinary(v))
  {
    forall path ensures SameLeaf(Evidence(v, path), Lookup(WithoutBinary(v), path)) {
      EvidenceAtAnyDepth(v, path);
    }
  }

  /** So bytes are kept as text under any name that is not forbidden: the promise of the docstring fails for them. */
  lemma BytesAreKept(name: string, bytes: string)
    requires !Forbidden(name)
    ensures Lookup(WithoutBinary(Dict([Entry(Text(name), Opaque(bytes))])), [Name(name)]) == Some(Str(bytes))
  {
    var document := Dict([Entry(Text(name), Opaque(bytes))]);
    assert LastNamed(document.entries, name) == Some(Opaque(bytes));
    assert [Name(name)][1..] == [];
    TextIsKeptIff(document, [Name(name)], bytes);
  }

  /** Objects that are not JSON leave no text in the result. */
  ghost predicate KeepsNoBytes(v: Value) {
    forall path, text :: Lookup(WithoutBinary(v), path) == Some(Str(text)) ==> Evidence(v, path) == Some(Str(text))
  }

  /** The docstring's promise is kept for exactly the documents whose objects that are not JSON all lie behind a
      forbidden name, or behind a key that a later one of the same text replaces. */
  lemma NoBytesIff(v: Value)
    ensures KeepsNoBytes(v) <==> forall path :: Evidence(v, path).Some? ==> !Evidence(v, path).value.Opaque?
  {
    if path :| Evidence(v, path).Some? && Evidence(v, path).value.Opaque? {
      var text := Evidence(v, path).value.text;
      TextIsKeptIff(v, path, text);
      assert Lookup(WithoutBinary(v), path) == Some(Str(text)) && Evidence(v, path) != Some(Str(text));
    }
    if !KeepsNoBytes(v) {
      var path, text :| Lookup(WithoutBinary(v), path) == Some(Str(text)) && Evidence(v, path) != Some(Str(text));
      TextIsKeptIff(v, path, text);
      assert Evidence(v, path) == Some(Opaque(text));
    }
  }

  // ---- Figures ----

  datatype Figure = Figure(index: nat, selfRef: string, captions: Value, provenance: Value)

  function GetOr(entries: seq<Entry>, key: string, default: Value): Value {
    var found := Find(entries, key);
    if found.Some? then found.value else default
  }

  lemma {:induction false} FindIsEntry(entries: seq<Entry>, key: string)
    ensures match Find(entries, key)
            case Some(value) => exists i :: 0 <= i < |entries| && entries[i] == Entry(Text(key), value)
            case None => forall i :: 0 <= i < |entries| ==> entries[i].key != Text(key)
  {
    if entries != [] {
      FindIsEntry(entries[1..], key);
      if entries[0].key == Text(key) {
        assert entries[0] == Entry(Text(key), entries[0].value);
      } else if Find(entries, key).Some? {
        var i :| 0 <= i < |entries[1..]| && entries[1..][i] == Entry(Text(key), Find(entries, key).value);
        assert entries[i + 1] == Entry(Text(key), Find(entries, key).value);
      }
    }
  }

  /** `dict.get`: the value of the one entry of that name, or the default. */
  lemma GetOrIsGet(entries: seq<Entry>, key: string, default: Value)
    ensures var r := GetOr(entries, key, default);
            || (exists i :: 0 <= i < |entries| && entries[i] == Entry(Text(key), r))
            || (r == default && forall i :: 0 <= i < |entries| ==> entries[i].key != Text(key))
  {
    FindIsEntry(entries, key);
  }

  /** What is to be kept of the picture with these entries. */
  predicate IsAnchor(f: Figure, figures: seq<Value>, str: Value -> string) {
    && f.index < |figures| && figures[f.index].Dict?
    && var entries := figures[f.index].entries;
       && f.selfRef == str(GetOr(entries, "self_ref", Str("")))
       && f.captions == WithoutBinary(GetOr(entries, "captions", List([])))
       && f.provenance == WithoutBinary(GetOr(entries, "prov", List([])))
  }

  /** One anchor for each dictionary among the first `n` pictures, in order. */
  ghost predicate AnchorsOf(result: seq<Figure>, n: nat, figures: seq<Value>, str: Value -> string) {
    && (forall k :: 0 <= k < |result| ==> IsAnchor(result[k], figures, str) && result[k].index < n)
    && (forall j, k :: 0 <= j < k < |result| ==> result[j].index < result[k].index)
    && (forall i :: 0 <= i < n && i < |figures| && figures[i].Dict? ==> HasIndex(result, i))
  }

  ghost predicate HasIndex(result: seq<Figure>, i: nat) {
    exists k :: 0 <= k < |result| && result[k].index == i
  }

  lemma OneMoreAnchor(result: seq<Figure>, n: nat, figures: seq<Value>, str: Value -> string, f: Figure)
    requires AnchorsOf(result, n, figures, str) && f.index == n && IsAnchor(f, figures, str)
    ensures AnchorsOf(result + [f], n + 1, figures, str)
  {
    var more := result + [f];
    forall i | 0 <= i < n + 1 && figures[i].Dict? ensures HasIndex(more, i) {
      if i == n {
        assert more[|result|].index == i;
      } else {
        assert HasIndex(result, i);
        var k :| 0 <= k < |result| && result[k].index == i;
        assert more[k].index == i;
      }
    }
  }

  lemma NoAnchor(result: seq<Figure>, n: nat, figures: seq<Value>, str: Value -> string)
    requires AnchorsOf(result, n, figures, str) && n < |figures| && !figures[n].Dict?
    ensures AnchorsOf(result, n + 1, figures, str)
  {
  }

  /** One anchor for every dictionary among the pictures, in order; `str` stands for Python's str(). */
  method FigureEvidence(document: seq<Entry>, str: Value -> string) returns (result: seq<Figure>)
    ensures var pictures := GetOr(document, "pictures", List([]));
            if pictures.List? then AnchorsOf(result, |pictures.items|, pictures.items, str) else result == []
  {
    var pictures := GetOr(document, "pictures", List([]));
    result := [];
    if !pictures.List? {
      return;
    }
    var figures := pictures.items;
    for index := 0 to |figures|
      invariant AnchorsOf(result, index, figures, str)
    {
      if figures[index].Dict? {
        var entries := figures[index].entries;
        var figure := Figure(index, str(GetOr(entries, "self_ref", Str(""))),
                             WithoutBinary(GetOr(entries, "captions", List([]))),
                             WithoutBinary(GetOr(entries, "prov", List([]))));
        OneMoreAnchor(result, index, figures, str, figure);
        result := result + [figure];
      } else {
        NoAnchor(result, index, figures, str);
      }
    }
  }
}
