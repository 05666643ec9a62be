/**
 * The text references the ledger stores in place of media files kept in the
 * browser's IndexedDB: `indexeddb:<kind>:<id>`, their recognition, their
 * parsing, and which store a reference is loaded from.
 */
module MediaRef {
  import opened Wrappers
  import opened JsText

  const Scheme: string := "indexeddb"

  /** The reference the media store hands back for a file of this kind and id. */
  function Reference(kind: string, id: string): (r: string)
    ensures IsIndexedDBReference(r)
    ensures |r| == |Scheme| + |kind| + |id| + 2
  {
    SchemeSplit(kind + ":" + id);
    assert Scheme + ":" + kind + ":" + id == Scheme + ":" + (kind + ":" + id);
    Scheme + ":" + kind + ":" + id
  }

  /** The reference `saveAudioFile(id, file)` returns. */
  function AudioReference(id: string): (r: string)
    ensures IsIndexedDBReference(r)
  {
    Reference("audio", id)
  }

  /** The reference `saveImageFile(id, file)` returns. */
  function ImageReference(id: string): (r: string)
    ensures IsIndexedDBReference(r)
  {
    Reference("image", id)
  }

  /** `isIndexedDBReference(url)` */
  predicate IsIndexedDBReference(url: string) {
    StartsWith(url, Scheme + ":")
  }

  /** A parsed reference; the kind is whatever text stood between the colons. */
  datatype ParsedRef = ParsedRef(kind: string, id: string)

  /** `parseIndexedDBReference(url)`: a reference that splits on ':' into exactly three parts. */
  function ParseIndexedDBReference(url: string): (r: Option<ParsedRef>)
    ensures r.Some? ==> IsIndexedDBReference(url)
    ensures r.Some? ==> ':' !in r.value.kind && ':' !in r.value.id
  {
    if !IsIndexedDBReference(url) then None
    else
      var parts := Split(url, ':');
      if |parts| != 3 then None
      else
        SplitShape(url, ':');
        Some(ParsedRef(parts[1], parts[2]))
  }

  /** What `loadMediaFromReference` reads: the audio store, the image store, or nothing. */
  datatype MediaRequest = FetchAudio(id: string) | FetchImage(id: string) | NoMedia

  /** `loadMediaFromReference(reference)`, up to the store lookup. */
  function LoadMediaFromReference(reference: string): (r: MediaRequest)
    ensures r.FetchAudio? ==> ParseIndexedDBReference(reference) == Some(ParsedRef("audio", r.id))
    ensures r.FetchImage? ==> ParseIndexedDBReference(reference) == Some(ParsedRef("image", r.id))
    ensures r.NoMedia? <==> ParseIndexedDBReference(reference).None? ||
                            ParseIndexedDBReference(reference).value.kind !in {"audio", "image"}
    ensures !r.NoMedia? ==> IsIndexedDBReference(reference) && ':' !in r.id
  {
    match ParseIndexedDBReference(reference)
    case None => NoMedia
    case Some(parsed) =>
      if parsed.kind == "audio" then FetchAudio(parsed.id)
      else if parsed.kind == "image" then FetchImage(parsed.id)
      else NoMedia
  }

  /** A text behind the scheme splits as the scheme followed by the parts of that text. */
  lemma SchemeSplit(rest: string)
    ensures IsIndexedDBReference(Scheme + ":" + rest)
    ensures Split(Scheme + ":" + rest, ':') == [Scheme] + Split(rest, ':')
  {
    var url := Scheme + ":" + rest;
    assert url[..|Scheme + ":"|] == Scheme + ":";
    SplitAfterHead(Scheme, ':', rest);
  }

  /** Every reference is the scheme, a colon and what follows it. */
  lemma ReferenceShape(url: string)
    requires IsIndexedDBReference(url)
    ensures url == Scheme + ":" + url[|Scheme + ":"|..]
  {
    assert url == url[..|Scheme + ":"|] + url[|Scheme + ":"|..];
  }

  /** `indexeddb:<kind>:<id>` with no colon in the kind or the id parses to that kind and id. */
  lemma ParseAccepts(kind: string, id: string)
    requires ':' !in kind && ':' !in id
    ensures ParseIndexedDBReference(Scheme + ":" + kind + ":" + id) == Some(ParsedRef(kind, id))
  {
    var rest := kind + ":" + id;
    assert Scheme + ":" + kind + ":" + id == Scheme + ":" + rest;
    SchemeSplit(rest);
    SplitPair(kind, ':', id);
  }

  /** Whatever parses is `indexeddb:<kind>:<id>` with no colon in the kind or the id. */
  lemma ParseOnlyAccepts(url: string)
    requires ParseIndexedDBReference(url).Some?
    ensures var p := ParseIndexedDBReference(url).value;
            url == Scheme + ":" + p.kind + ":" + p.id && ':' !in p.kind && ':' !in p.id
  {
    var p := ParseIndexedDBReference(url).value;
    ReferenceShape(url);
    var rest := url[|Scheme + ":"|..];
    SchemeSplit(rest);
    var tail := Split(rest, ':');
    assert |tail| == 2 && tail[0] == p.kind && tail[1] == p.id;
    SplitShape(rest, ':');
    assert ':' !in tail[0] && ':' !in tail[1];
    SplitJoin(rest, ':');
    assert tail[1..] == [p.id];
    assert rest == p.kind + ":" + p.id;
  }

  /**
   * The parser accepts exactly the texts `indexeddb:<kind>:<id>` with no
   * colon in the kind or the id, and returns those two parts.
   */
  lemma ParseCharacterization(url: string, kind: string, id: string)
    ensures ParseIndexedDBReference(url) == Some(ParsedRef(kind, id)) <==>
            url == Scheme + ":" + kind + ":" + id && ':' !in kind && ':' !in id
  {
    if url == Scheme + ":" + kind + ":" + id && ':' !in kind && ':' !in id {
      ParseAccepts(kind, id);
    }
    if ParseIndexedDBReference(url) == Some(ParsedRef(kind, id)) {
      ParseOnlyAccepts(url);
    }
  }

  /** A saved file's reference, with a colon-free id, parses back to its kind and id and loads from its store. */
  lemma ReferenceRoundTrip(id: string)
    requires ':' !in id
    ensures ParseIndexedDBReference(AudioReference(id)) == Some(ParsedRef("audio", id))
    ensures ParseIndexedDBReference(ImageReference(id)) == Some(ParsedRef("image", id))
    ensures LoadMediaFromReference(AudioReference(id)) == FetchAudio(id)
    ensures LoadMediaFromReference(ImageReference(id)) == FetchImage(id)
  {
    ParseCharacterization(AudioReference(id), "audio", id);
    ParseCharacterization(ImageReference(id), "image", id);
  }

  /** A reference to a kind, built from an id holding a colon, has four or more parts. */
  lemma ColonIdSplit(kind: string, id: string)
    requires ':' !in kind && ':' in id
    ensures ParseIndexedDBReference(Scheme + ":" + kind + ":" + id).None?
  {
    var url := Scheme + ":" + kind + ":" + id;
    assert url == Scheme + ":" + (kind + ":" + id);
    SchemeSplit(kind + ":" + id);
    SplitAfterHead(kind, ':', id);
    SplitShape(id, ':');
  }

  /** A reference built from an id with a colon does not parse and loads nothing. */
  lemma ColonIdDoesNotParse(id: string)
    requires ':' in id
    ensures ParseIndexedDBReference(AudioReference(id)).None?
    ensures ParseIndexedDBReference(ImageReference(id)).None?
    ensures LoadMediaFromReference(AudioReference(id)) == NoMedia
    ensures LoadMediaFromReference(ImageReference(id)) == NoMedia
  {
    ColonIdSplit("audio", id);
    ColonIdSplit("image", id);
  }

  /**
   * Exactly the audio references of colon-free ids load from the audio
   * store, and exactly the image references from the image store.
   */
  lemma LoadCharacterization(reference: string, id: string)
    ensures LoadMediaFromReference(reference) == FetchAudio(id) <==> reference == AudioReference(id) && ':' !in id
    ensures LoadMediaFromReference(reference) == FetchImage(id) <==> reference == ImageReference(id) && ':' !in id
  {
    ParseCharacterization(reference, "audio", id);
    ParseCharacterization(reference, "image", id);
  }
}
