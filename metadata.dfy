/**
 * Normalisation of document metadata, the loop that chatbot_com_rag/chat.py and
 * rags/singleton_training.py both run over the documents the ETL returns, before indexing:
 * every one of the eight mandatory keys is back-filled with "N/A" when absent, and a present
 * mandatory value that exposes `.item()` (a NumPy scalar, say) is replaced by what `.item()`
 * returns. Every other key is left alone.
 */
module Metadata {
  import opened Wrappers

  /**
   * A value without an `.item` attribute: a Python primitive, or any other such object (a
   * list, a dict, a `datetime`), which the model knows only by its type name.
   */
  datatype Plain = Str(s: string) | Int(i: int) | Float(x: real) | Bool(b: bool) | NoneValue | Other(typeName: string)

  /**
   * A metadata value: `Prim` has no `.item` attribute; `Boxed` is an object with `.item()` (a
   * NumPy scalar, say), which returns the plain value it wraps.
   */
  datatype Value = Prim(plain: Plain) | Boxed(plain: Plain) {
    /** `hasattr(value, "item")`. */
    predicate HasItem() { Boxed? }
  }

  type Metadata = map<string, Value>

  /** The sentinel written for a missing mandatory key. */
  const NotAvailable: Value := Prim(Str("N/A"))

  /** `required_metadata_defaults`, in its iteration order. */
  const RequiredMetadataDefaults: seq<(string, Value)> := [
    ("id_doc", NotAvailable),
    ("source", NotAvailable),
    ("page_number", NotAvailable),
    ("categoria", NotAvailable),
    ("id_produto", NotAvailable),
    ("preco", NotAvailable),
    ("timestamp", NotAvailable),
    ("data_owner", NotAvailable)
  ]

  /** The eight mandatory keys. */
  const RequiredKeys: set<string> :=
    {"id_doc", "source", "page_number", "categoria", "id_produto", "preco", "timestamp", "data_owner"}

  /** The keys of a list of (key, default) pairs. */
  function KeysOf(defaults: seq<(string, Value)>): set<string> {
    set e | e in defaults :: e.0
  }

  /** `value.item()` when the value has it, the value itself otherwise. */
  function Coerce(v: Value): (r: Value)
    ensures !r.HasItem() && r.plain == v.plain
    ensures !v.HasItem() ==> r == v
  {
    if v.HasItem() then Prim(v.plain) else v
  }

  /** `metadata` after the mandatory keys in `keys` have been handled. */
  function NormalizedOn(base: Metadata, keys: set<string>): Metadata {
    map k | k in base.Keys + keys ::
      if k !in keys then base[k]
      else if k in base then Coerce(base[k])
      else NotAvailable
  }

  /** The metadata a document ends up with, given the metadata it had (`None` for none). */
  function Normalized(m: Option<Metadata>): (r: Metadata)
    ensures RequiredKeys <= r.Keys
    ensures var base := m.GetOr(map[]);
      && r.Keys == base.Keys + RequiredKeys
      && (forall k :: k in RequiredKeys && k !in base ==> r[k] == NotAvailable)
      && (forall k :: k in RequiredKeys && k in base ==> r[k] == Coerce(base[k]))
      && (forall k :: k in base && k !in RequiredKeys ==> r[k] == base[k])
    ensures forall k :: k in RequiredKeys ==> !r[k].HasItem()
    ensures m.None? || m.value == map[] ==> r == map k | k in RequiredKeys :: NotAvailable
  {
    NormalizedOn(m.GetOr(map[]), RequiredKeys)
  }

  /** Normalising normalised metadata changes nothing. */
  lemma NormalizedIdempotent(m: Option<Metadata>)
    ensures Normalized(Some(Normalized(m))) == Normalized(m)
  {
  }

  /** A mandatory key that is present is never overwritten with the sentinel unless it held it. */
  lemma PresentKeyNotReplaced(m: Metadata, k: string)
    requires k in RequiredKeys && k in m
    ensures Normalized(Some(m))[k] == NotAvailable <==> Coerce(m[k]) == NotAvailable
  {
  }

  lemma DefaultsCoverRequiredKeys()
    ensures KeysOf(RequiredMetadataDefaults) == RequiredKeys
    ensures forall e :: e in RequiredMetadataDefaults ==> e.1 == NotAvailable
  {
  }

  lemma KeysOfPrefix(j: nat)
    requires j < |RequiredMetadataDefaults|
    ensures KeysOf(RequiredMetadataDefaults[..j + 1]) == KeysOf(RequiredMetadataDefaults[..j]) + {RequiredMetadataDefaults[j].0}
  {
    assert RequiredMetadataDefaults[..j + 1] == RequiredMetadataDefaults[..j] + [RequiredMetadataDefaults[j]];
  }

  /** One turn of the inner loop extends the set of handled keys by `key`. */
  lemma NormalizeStep(base: Metadata, done: set<string>, key: string)
    ensures var metadata := NormalizedOn(base, done);
      var next :=
        if key !in metadata then metadata[key := NotAvailable]
        else if metadata[key].HasItem() then metadata[key := Coerce(metadata[key])]
        else metadata;
      next == NormalizedOn(base, done + {key})
  {
  }

  /** The inner loop of the source: the mandatory keys of one document's metadata. */
  method NormalizeMetadata(m: Option<Metadata>) returns (metadata: Metadata)
    ensures metadata == Normalized(m)
  {
    metadata := if m.None? then map[] else m.value;  // `doc.metadata or {}`
    ghost var base := metadata;
    DefaultsCoverRequiredKeys();
    for j := 0 to |RequiredMetadataDefaults|
      invariant metadata == NormalizedOn(base, KeysOf(RequiredMetadataDefaults[..j]))
    {
      var (key, defaultValue) := RequiredMetadataDefaults[j];
      assert (key, defaultValue) in RequiredMetadataDefaults;
      NormalizeStep(base, KeysOf(RequiredMetadataDefaults[..j]), key);
      KeysOfPrefix(j);
      if key !in metadata {
        metadata := metadata[key := defaultValue];
      } else {
        var value := metadata[key];
        if value.HasItem() {
          metadata := metadata[key := Prim(value.plain)];  // `value.item()`
        }
      }
    }
    assert RequiredMetadataDefaults[..|RequiredMetadataDefaults|] == RequiredMetadataDefaults;
  }

  /** A document as the ETL returns it; the loop writes only `metadata`. */
  class Document {
    const pageContent: string
    var metadata: Option<Metadata>

    constructor (pageContent: string, metadata: Option<Metadata>)
      ensures this.pageContent == pageContent && this.metadata == metadata
    {
      this.pageContent := pageContent;
      this.metadata := metadata;
    }
  }

  /** The metadata of each document, in order (what an index copies when it is built). */
  function MetadataOf(documents: seq<Document>): (r: seq<Option<Metadata>>)
    reads documents
    ensures |r| == |documents|
    ensures forall i :: 0 <= i < |documents| ==> r[i] == documents[i].metadata
  {
    seq(|documents|, i reads documents requires 0 <= i < |documents| => documents[i].metadata)
  }

  /** Every document of `documents` has all mandatory keys, none of them exposing `.item`. */
  ghost predicate AllNormalized(documents: seq<Document>)
    reads documents
  {
    forall i :: 0 <= i < |documents| ==>
      documents[i].metadata.Some?
      && RequiredKeys <= documents[i].metadata.value.Keys
      && forall k :: k in RequiredKeys ==> !documents[i].metadata.value[k].HasItem()
  }

  /**
   * The outer loop, `for doc in documents: ... doc.metadata = metadata`. A document listed
   * twice is normalised twice, which changes nothing the second time.
   */
  method NormalizeDocuments(documents: seq<Document>)
    modifies documents
    ensures forall i :: 0 <= i < |documents| ==>
      documents[i].metadata == Some(Normalized(old(documents[i].metadata)))
    ensures AllNormalized(documents)
  {
    for i := 0 to |documents|
      invariant forall j :: 0 <= j < |documents| ==>
        documents[j].metadata ==
          if documents[j] in documents[..i] then Some(Normalized(old(documents[j].metadata)))
          else old(documents[j].metadata)
    {
      var doc := documents[i];
      if doc in documents[..i] {
        NormalizedIdempotent(old(doc.metadata));
      }
      var metadata := NormalizeMetadata(doc.metadata);
      doc.metadata := Some(metadata);
      assert documents[..i + 1] == documents[..i] + [doc];
    }
    assert documents[..|documents|] == documents;
  }
}
