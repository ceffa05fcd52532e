// The useMetaTags effect (my-app/src/components/setMetaTag.jsx): it sets
// document.title and, for each of eight keys, updates the first <meta> with
// that key or appends a new one.
//
// The document's <meta> elements are a sequence of records in document
// order; a record carries the attribute that identifies it (name or
// property), its key and its content.
module MetaTags {
  import opened Text

  datatype KeyAttr = NameAttr | PropertyAttr

  datatype Meta = Meta(attr: KeyAttr, key: string, content: string)

  /** translations[lang].page */
  datatype Page = Page(title: string, description: string)

  /** The selector `meta[name="key"]` or `meta[property="key"]` matches m. */
  predicate Keyed(m: Meta, attr: KeyAttr, key: string) {
    m.attr == attr && m.key == key
  }

  function KeyOf(m: Meta): (KeyAttr, string) {
    (m.attr, m.key)
  }

  /** document.querySelector: the first record the selector matches, if any. */
  function FirstMatch(metas: seq<Meta>, attr: KeyAttr, key: string): (r: Option<nat>)
    ensures r.Some? ==> r.value < |metas| && Keyed(metas[r.value], attr, key)
    ensures r.Some? ==> forall j :: 0 <= j < r.value ==> !Keyed(metas[j], attr, key)
    ensures r.None? ==> forall j :: 0 <= j < |metas| ==> !Keyed(metas[j], attr, key)
  {
    if metas == [] then None
    else if Keyed(metas[0], attr, key) then Some(0)
    else match FirstMatch(metas[1..], attr, key)
      case None => None
      case Some(i) => Some(i + 1)
  }

  /** The content of the first record with the key, if there is one. */
  function ContentOf(metas: seq<Meta>, attr: KeyAttr, key: string): (r: Option<string>)
    ensures r.Some? <==> exists j :: 0 <= j < |metas| && Keyed(metas[j], attr, key)
    ensures r.Some? ==> r.value == metas[FirstMatch(metas, attr, key).value].content
  {
    match FirstMatch(metas, attr, key)
    case None => None
    case Some(i) => Some(metas[i].content)
  }

  /** One iteration of a forEach: set the content of the first match, or append the tag. */
  function Upsert(metas: seq<Meta>, tag: Meta): (r: seq<Meta>)
    ensures ContentOf(r, tag.attr, tag.key) == Some(tag.content)
    ensures |r| == if FirstMatch(metas, tag.attr, tag.key).None? then |metas| + 1 else |metas|
    ensures forall j :: 0 <= j < |metas| && Some(j) != FirstMatch(metas, tag.attr, tag.key) ==> r[j] == metas[j]
    ensures FirstMatch(metas, tag.attr, tag.key).Some? ==>
      r[FirstMatch(metas, tag.attr, tag.key).value]
        == metas[FirstMatch(metas, tag.attr, tag.key).value].(content := tag.content)
    ensures FirstMatch(metas, tag.attr, tag.key).None? ==> r[|metas|] == tag
  {
    match FirstMatch(metas, tag.attr, tag.key)
    case Some(i) =>
      var r := metas[i := metas[i].(content := tag.content)];
      assert forall j :: 0 <= j < i ==> r[j] == metas[j];
      assert Keyed(r[i], tag.attr, tag.key);
      assert FirstMatch(r, tag.attr, tag.key) == Some(i);
      r
    case None =>
      var r := metas + [tag];
      assert Keyed(r[|metas|], tag.attr, tag.key);
      r
  }

  /** The tags upserted in order, one after another. */
  function UpsertAll(metas: seq<Meta>, tags: seq<Meta>): seq<Meta>
    decreases |tags|
  {
    if tags == [] then metas else Upsert(UpsertAll(metas, tags[..|tags| - 1]), tags[|tags| - 1])
  }

  lemma UpsertAllSnoc(metas: seq<Meta>, tags: seq<Meta>, tag: Meta)
    ensures UpsertAll(metas, tags + [tag]) == Upsert(UpsertAll(metas, tags), tag)
  {
    assert (tags + [tag])[..|tags|] == tags;
  }

  lemma UpsertAllSingle(metas: seq<Meta>, tag: Meta)
    ensures UpsertAll(metas, [tag]) == Upsert(metas, tag)
  {
    UpsertAllSnoc(metas, [], tag);
  }

  /** Upserting a then b is upserting a + b. */
  lemma {:induction false} UpsertAllAppend(metas: seq<Meta>, a: seq<Meta>, b: seq<Meta>)
    ensures UpsertAll(UpsertAll(metas, a), b) == UpsertAll(metas, a + b)
    decreases |b|
  {
    if b == [] {
      assert a + b == a;
    } else {
      var n := |b| - 1;
      UpsertAllAppend(metas, a, b[..n]);
      assert (a + b)[..|a + b| - 1] == a + b[..n];
    }
  }

  // ---------------------------------------------------------------------
  // The tags the effect writes
  // ---------------------------------------------------------------------

  function DescriptionTag(page: Page): Meta {
    Meta(NameAttr, "description", page.description)
  }

  const SiteUrl: string := "https://maxcup.hu/"

  function OgTags(page: Page, lang: string): seq<Meta> {
    [ Meta(PropertyAttr, "og:title", page.title),
      Meta(PropertyAttr, "og:description", page.description),
      Meta(PropertyAttr, "og:url", SiteUrl + Lower(lang)),
      Meta(PropertyAttr, "og:type", "website"),
      Meta(PropertyAttr, "og:site_name", "MAX CUP") ]
  }

  function TwitterTags(page: Page): seq<Meta> {
    [ Meta(NameAttr, "twitter:title", page.title),
      Meta(NameAttr, "twitter:description", page.description) ]
  }

  /** Every tag of the effect, in the order it writes them. */
  function EffectTags(page: Page, lang: string): seq<Meta> {
    [DescriptionTag(page)] + OgTags(page, lang) + TwitterTags(page)
  }

  /** The records after the effect, from the records before it. */
  function EffectMetas(metas: seq<Meta>, page: Page, lang: string): seq<Meta> {
    UpsertAll(metas, EffectTags(page, lang))
  }

  function KeysOf(tags: seq<Meta>): set<(KeyAttr, string)> {
    set i | 0 <= i < |tags| :: KeyOf(tags[i])
  }

  predicate DistinctKeys(tags: seq<Meta>) {
    forall i, j :: 0 <= i < j < |tags| ==> KeyOf(tags[i]) != KeyOf(tags[j])
  }

  lemma EffectTagsDistinct(page: Page, lang: string)
    ensures DistinctKeys(EffectTags(page, lang))
  {
  }

  // ---------------------------------------------------------------------
  // Updating one key leaves the other keys alone
  // ---------------------------------------------------------------------

  /** An upsert of one key leaves the first match of every other key where it was. */
  lemma UpsertKeepsOtherKey(metas: seq<Meta>, tag: Meta, attr: KeyAttr, key: string)
    requires KeyOf(tag) != (attr, key)
    ensures FirstMatch(Upsert(metas, tag), attr, key) == FirstMatch(metas, attr, key)
    ensures ContentOf(Upsert(metas, tag), attr, key) == ContentOf(metas, attr, key)
  {
    var r := Upsert(metas, tag);
    var m := FirstMatch(metas, attr, key);
    var found := FirstMatch(metas, tag.attr, tag.key);
    forall j | 0 <= j < |metas|
      ensures Keyed(r[j], attr, key) == Keyed(metas[j], attr, key)
    {
      if Some(j) == found {
        assert r[j] == metas[j].(content := tag.content);
      }
    }
    if found.None? {
      assert !Keyed(r[|metas|], attr, key);
    }
    match m
    case Some(i) => {
      assert Some(i) != found;
      assert r[i] == metas[i];
      FirstMatchAt(r, attr, key, i);
    }
    case None => {
      FirstMatchAbsent(r, attr, key);
    }
  }

  /** The first index with the key is what FirstMatch finds. */
  lemma FirstMatchAt(s: seq<Meta>, attr: KeyAttr, key: string, i: nat)
    requires i < |s| && Keyed(s[i], attr, key)
    requires forall j :: 0 <= j < i ==> !Keyed(s[j], attr, key)
    ensures FirstMatch(s, attr, key) == Some(i)
  {
  }

  lemma FirstMatchAbsent(s: seq<Meta>, attr: KeyAttr, key: string)
    requires forall j :: 0 <= j < |s| ==> !Keyed(s[j], attr, key)
    ensures FirstMatch(s, attr, key) == None
  {
  }

  /** Upserting a key whose first match already has the content changes nothing. */
  lemma UpsertNoop(metas: seq<Meta>, tag: Meta)
    requires ContentOf(metas, tag.attr, tag.key) == Some(tag.content)
    ensures Upsert(metas, tag) == metas
  {
    var i := FirstMatch(metas, tag.attr, tag.key).value;
    assert metas[i].(content := tag.content) == metas[i];
  }

  /** With distinct keys, every tag's key ends with that tag's content. */
  lemma {:induction false} UpsertAllSets(metas: seq<Meta>, tags: seq<Meta>)
    requires DistinctKeys(tags)
    ensures forall i :: 0 <= i < |tags| ==>
      ContentOf(UpsertAll(metas, tags), tags[i].attr, tags[i].key) == Some(tags[i].content)
    decreases |tags|
  {
    if tags != [] {
      var n := |tags| - 1;
      var init := tags[..n];
      var before := UpsertAll(metas, init);
      UpsertAllSets(metas, init);
      forall i | 0 <= i < n
        ensures ContentOf(UpsertAll(metas, tags), tags[i].attr, tags[i].key) == Some(tags[i].content)
      {
        assert init[i] == tags[i];
        UpsertKeepsOtherKey(before, tags[n], tags[i].attr, tags[i].key);
      }
    }
  }

  /** If every tag's key already holds its content, upserting them all changes nothing. */
  lemma {:induction false} UpsertAllNoop(metas: seq<Meta>, tags: seq<Meta>)
    requires forall i :: 0 <= i < |tags| ==> ContentOf(metas, tags[i].attr, tags[i].key) == Some(tags[i].content)
    ensures UpsertAll(metas, tags) == metas
    decreases |tags|
  {
    if tags != [] {
      var n := |tags| - 1;
      var init := tags[..n];
      forall i | 0 <= i < |init|
        ensures ContentOf(metas, init[i].attr, init[i].key) == Some(init[i].content)
      {
        assert init[i] == tags[i];
      }
      UpsertAllNoop(metas, init);
      assert UpsertAll(metas, tags) == Upsert(UpsertAll(metas, init), tags[n]);
      UpsertNoop(metas, tags[n]);
    }
  }

  /** Upserting a list of distinct keys a second time changes nothing. */
  lemma UpsertAllIdempotent(metas: seq<Meta>, tags: seq<Meta>)
    requires DistinctKeys(tags)
    ensures UpsertAll(UpsertAll(metas, tags), tags) == UpsertAll(metas, tags)
  {
    UpsertAllSets(metas, tags);
    UpsertAllNoop(UpsertAll(metas, tags), tags);
  }

  // ---------------------------------------------------------------------
  // Counting records with a key
  // ---------------------------------------------------------------------

  function Count(metas: seq<Meta>, attr: KeyAttr, key: string): nat
    decreases |metas|
  {
    if metas == [] then 0
    else (if Keyed(metas[0], attr, key) then 1 else 0) + Count(metas[1..], attr, key)
  }

  lemma {:induction false} CountNoneIffZero(metas: seq<Meta>, attr: KeyAttr, key: string)
    ensures Count(metas, attr, key) == 0 <==> FirstMatch(metas, attr, key).None?
    decreases |metas|
  {
    if metas != [] {
      CountNoneIffZero(metas[1..], attr, key);
      if !Keyed(metas[0], attr, key) && FirstMatch(metas[1..], attr, key).Some? {
        assert Keyed(metas[1..][FirstMatch(metas[1..], attr, key).value], attr, key);
      }
    }
  }

  lemma {:induction false} CountUpdate(metas: seq<Meta>, i: nat, x: Meta, attr: KeyAttr, key: string)
    requires i < |metas|
    requires Keyed(x, attr, key) == Keyed(metas[i], attr, key)
    ensures Count(metas[i := x], attr, key) == Count(metas, attr, key)
    decreases |metas|
  {
    if i > 0 {
      assert metas[i := x][1..] == metas[1..][i - 1 := x];
      CountUpdate(metas[1..], i - 1, x, attr, key);
    } else {
      assert metas[i := x][1..] == metas[1..];
    }
  }

  lemma {:induction false} CountAppend(metas: seq<Meta>, x: Meta, attr: KeyAttr, key: string)
    ensures Count(metas + [x], attr, key) == Count(metas, attr, key) + (if Keyed(x, attr, key) then 1 else 0)
    decreases |metas|
  {
    if metas == [] {
      assert [x][1..] == [];
    } else {
      assert (metas + [x])[1..] == metas[1..] + [x];
      CountAppend(metas[1..], x, attr, key);
    }
  }

  /**
   * An upsert adds a record with its key only when there was none, and
   * leaves the count of every other key as it was.
   */
  lemma UpsertCount(metas: seq<Meta>, tag: Meta, attr: KeyAttr, key: string)
    ensures Count(Upsert(metas, tag), attr, key)
         == if KeyOf(tag) == (attr, key) && Count(metas, attr, key) == 0 then 1 else Count(metas, attr, key)
  {
    CountNoneIffZero(metas, tag.attr, tag.key);
    match FirstMatch(metas, tag.attr, tag.key)
    case Some(i) => {
      CountUpdate(metas, i, metas[i].(content := tag.content), attr, key);
    }
    case None => {
      CountAppend(metas, tag, attr, key);
    }
  }

  lemma KeysOfSnoc(tags: seq<Meta>)
    requires tags != []
    ensures KeysOf(tags) == KeysOf(tags[..|tags| - 1]) + {KeyOf(tags[|tags| - 1])}
  {
    var n := |tags| - 1;
    forall k | k in KeysOf(tags) ensures k in KeysOf(tags[..n]) + {KeyOf(tags[n])} {
      var i :| 0 <= i < |tags| && k == KeyOf(tags[i]);
      if i < n { assert tags[..n][i] == tags[i]; }
    }
    forall k | k in KeysOf(tags[..n]) ensures k in KeysOf(tags) {
      var i :| 0 <= i < n && k == KeyOf(tags[..n][i]);
      assert tags[..n][i] == tags[i];
    }
  }

  /** After upserting a list of tags, a key of the list occurs once if it was absent, else as often as before. */
  lemma {:induction false} UpsertAllCount(metas: seq<Meta>, tags: seq<Meta>, attr: KeyAttr, key: string)
    ensures Count(UpsertAll(metas, tags), attr, key)
         == if (attr, key) in KeysOf(tags) && Count(metas, attr, key) == 0 then 1 else Count(metas, attr, key)
    decreases |tags|
  {
    if tags != [] {
      var n := |tags| - 1;
      var before := UpsertAll(metas, tags[..n]);
      UpsertAllCount(metas, tags[..n], attr, key);
      UpsertCount(before, tags[n], attr, key);
      KeysOfSnoc(tags);
    }
  }

  // ---------------------------------------------------------------------
  // Records with other keys keep their values and their order
  // ---------------------------------------------------------------------

  /** The records whose key is not in `keys`, in document order. */
  function Others(metas: seq<Meta>, keys: set<(KeyAttr, string)>): seq<Meta>
    decreases |metas|
  {
    if metas == [] then []
    else (if KeyOf(metas[0]) in keys then [] else [metas[0]]) + Others(metas[1..], keys)
  }

  lemma {:induction false} OthersUpdate(metas: seq<Meta>, i: nat, x: Meta, keys: set<(KeyAttr, string)>)
    requires i < |metas| && KeyOf(metas[i]) in keys && KeyOf(x) in keys
    ensures Others(metas[i := x], keys) == Others(metas, keys)
    decreases |metas|
  {
    if i > 0 {
      assert metas[i := x][1..] == metas[1..][i - 1 := x];
      OthersUpdate(metas[1..], i - 1, x, keys);
    } else {
      assert metas[i := x][1..] == metas[1..];
    }
  }

  lemma {:induction false} OthersAppend(metas: seq<Meta>, x: Meta, keys: set<(KeyAttr, string)>)
    requires KeyOf(x) in keys
    ensures Others(metas + [x], keys) == Others(metas, keys)
    decreases |metas|
  {
    if metas == [] {
      assert [x][1..] == [];
    } else {
      assert (metas + [x])[1..] == metas[1..] + [x];
      OthersAppend(metas[1..], x, keys);
    }
  }

  lemma UpsertOthers(metas: seq<Meta>, tag: Meta, keys: set<(KeyAttr, string)>)
    requires KeyOf(tag) in keys
    ensures Others(Upsert(metas, tag), keys) == Others(metas, keys)
  {
    match FirstMatch(metas, tag.attr, tag.key)
    case Some(i) => OthersUpdate(metas, i, metas[i].(content := tag.content), keys);
    case None => OthersAppend(metas, tag, keys);
  }

  /** Upserting tags with keys in `keys` keeps every record outside `keys`, in order. */
  lemma {:induction false} UpsertAllOthers(metas: seq<Meta>, tags: seq<Meta>, keys: set<(KeyAttr, string)>)
    requires forall i :: 0 <= i < |tags| ==> KeyOf(tags[i]) in keys
    ensures Others(UpsertAll(metas, tags), keys) == Others(metas, keys)
    decreases |tags|
  {
    if tags != [] {
      var n := |tags| - 1;
      var init := tags[..n];
      forall i | 0 <= i < |init| ensures KeyOf(init[i]) in keys {
        assert init[i] == tags[i];
      }
      UpsertAllOthers(metas, init, keys);
      assert UpsertAll(metas, tags) == Upsert(UpsertAll(metas, init), tags[n]);
      UpsertOthers(UpsertAll(metas, init), tags[n], keys);
    }
  }

  // ---------------------------------------------------------------------
  // What the effect achieves
  // ---------------------------------------------------------------------

  /** Every key the effect writes ends with the listed content. */
  lemma EffectContents(metas: seq<Meta>, page: Page, lang: string)
    ensures var r := EffectMetas(metas, page, lang);
      && ContentOf(r, NameAttr, "description") == Some(page.description)
      && ContentOf(r, PropertyAttr, "og:title") == Some(page.title)
      && ContentOf(r, PropertyAttr, "og:description") == Some(page.description)
      && ContentOf(r, PropertyAttr, "og:url") == Some(SiteUrl + Lower(lang))
      && ContentOf(r, PropertyAttr, "og:type") == Some("website")
      && ContentOf(r, PropertyAttr, "og:site_name") == Some("MAX CUP")
      && ContentOf(r, NameAttr, "twitter:title") == Some(page.title)
      && ContentOf(r, NameAttr, "twitter:description") == Some(page.description)
  {
    var tags := EffectTags(page, lang);
    EffectTagsDistinct(page, lang);
    UpsertAllSets(metas, tags);
    TagContents(EffectMetas(metas, page, lang), page, lang);
  }

  /** Records holding every effect tag's content hold the eight listed contents. */
  lemma TagContents(r: seq<Meta>, page: Page, lang: string)
    requires var tags := EffectTags(page, lang);
      forall i :: 0 <= i < |tags| ==> ContentOf(r, tags[i].attr, tags[i].key) == Some(tags[i].content)
    ensures ContentOf(r, NameAttr, "description") == Some(page.description)
    ensures ContentOf(r, PropertyAttr, "og:title") == Some(page.title)
    ensures ContentOf(r, PropertyAttr, "og:description") == Some(page.description)
    ensures ContentOf(r, PropertyAttr, "og:url") == Some(SiteUrl + Lower(lang))
    ensures ContentOf(r, PropertyAttr, "og:type") == Some("website")
    ensures ContentOf(r, PropertyAttr, "og:site_name") == Some("MAX CUP")
    ensures ContentOf(r, NameAttr, "twitter:title") == Some(page.title)
    ensures ContentOf(r, NameAttr, "twitter:description") == Some(page.description)
  {
    var tags := EffectTags(page, lang);
    assert tags[0] == DescriptionTag(page);
    assert tags[1].key == "og:title" && tags[2].key == "og:description" && tags[3].key == "og:url";
    assert tags[4].key == "og:type" && tags[5].key == "og:site_name";
    assert tags[6].key == "twitter:title" && tags[7].key == "twitter:description";
  }

  /** A key the effect writes occurs once if it was absent and as often as before otherwise. */
  lemma EffectCount(metas: seq<Meta>, page: Page, lang: string, attr: KeyAttr, key: string)
    requires (attr, key) in KeysOf(EffectTags(page, lang))
    ensures Count(EffectMetas(metas, page, lang), attr, key)
         == if Count(metas, attr, key) == 0 then 1 else Count(metas, attr, key)
  {
    UpsertAllCount(metas, EffectTags(page, lang), attr, key);
  }

  /** Records with any other key keep their content and their order. */
  lemma EffectKeepsOthers(metas: seq<Meta>, page: Page, lang: string)
    ensures var keys := KeysOf(EffectTags(page, lang));
      Others(EffectMetas(metas, page, lang), keys) == Others(metas, keys)
  {
    var tags := EffectTags(page, lang);
    UpsertAllOthers(metas, tags, KeysOf(tags));
  }

  /** Running the effect twice with the same inputs gives the records of running it once. */
  lemma EffectIdempotent(metas: seq<Meta>, page: Page, lang: string)
    ensures EffectMetas(EffectMetas(metas, page, lang), page, lang) == EffectMetas(metas, page, lang)
  {
    EffectTagsDistinct(page, lang);
    UpsertAllIdempotent(metas, EffectTags(page, lang));
  }

  // ---------------------------------------------------------------------
  // The document, updated in place
  // ---------------------------------------------------------------------

  class Document {
    var title: string
    var metas: seq<Meta>

    /** document.querySelector(`meta[attr="key"]`): a scan in document order. */
    method QuerySelector(attr: KeyAttr, key: string) returns (found: Option<nat>)
      ensures found.Some? ==> found.value < |metas| && Keyed(metas[found.value], attr, key)
      ensures found.Some? ==> forall j :: 0 <= j < found.value ==> !Keyed(metas[j], attr, key)
      ensures found.None? ==> forall j :: 0 <= j < |metas| ==> !Keyed(metas[j], attr, key)
      ensures found == FirstMatch(metas, attr, key)
    {
      var i := 0;
      while i < |metas|
        invariant 0 <= i <= |metas|
        invariant forall j :: 0 <= j < i ==> !Keyed(metas[j], attr, key)
      {
        if Keyed(metas[i], attr, key) {
          found := Some(i);
          assert FirstMatch(metas, attr, key).Some?;
          return;
        }
        i := i + 1;
      }
      found := None;
    }

    /** The body of one forEach iteration: set the content of the match or append a new element. */
    method SetMeta(tag: Meta)
      modifies this
      ensures metas == Upsert(old(metas), tag)
      ensures title == old(title)
    {
      var found := QuerySelector(tag.attr, tag.key);
      if found.Some? {
        var i := found.value;
        metas := metas[i := metas[i].(content := tag.content)];
      } else {
        metas := metas + [tag];
      }
    }

    /** tags.forEach(tag => ...): the tags set one after another, in order. */
    method SetAll(tags: seq<Meta>)
      modifies this
      ensures metas == UpsertAll(old(metas), tags)
      ensures title == old(title)
    {
      for i := 0 to |tags|
        invariant metas == UpsertAll(old(metas), tags[..i])
        invariant title == old(title)
      {
        UpsertAllSnoc(old(metas), tags[..i], tags[i]);
        SetMeta(tags[i]);
        assert tags[..i + 1] == tags[..i] + [tags[i]];
      }
      assert tags[..|tags|] == tags;
    }

    /**
     * The effect body. Reading translations[lang] for a language without an
     * entry throws before anything is written; ok reports whether the effect
     * ran to the end.
     */
    method ApplyMetaTags(translations: map<string, Page>, lang: string) returns (ok: bool)
      modifies this
      ensures ok == (lang in translations)
      ensures ok ==> title == translations[lang].title
      ensures ok ==> metas == EffectMetas(old(metas), translations[lang], lang)
      ensures !ok ==> title == old(title) && metas == old(metas)
    {
      if lang !in translations {
        return false;
      }
      var page := translations[lang];
      title := page.title;
      SetMeta(DescriptionTag(page));
      SetAll(OgTags(page, lang));
      SetAll(TwitterTags(page));
      UpsertAllSingle(old(metas), DescriptionTag(page));
      UpsertAllAppend(old(metas), [DescriptionTag(page)], OgTags(page, lang));
      UpsertAllAppend(old(metas), [DescriptionTag(page)] + OgTags(page, lang), TwitterTags(page));
      return true;
    }
  }
}
