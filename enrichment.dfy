/**
 * `GetSampleDocumentsAsync`: for every input dictionary, embed its title and its content, write
 * the two vectors into that same dictionary and append a copy of it to the output list.
 */
module Enrichment {
  import opened Values

  const TitleKey: string := "title"
  const ContentKey: string := "content"
  const TitleVectorKey: string := "titleVector"
  const ContentVectorKey: string := "contentVector"

  /** A `Dictionary<string, object>`: a mutable object that the input list holds by reference. */
  class Document {
    var fields: Fields

    constructor (fields: Fields)
      ensures this.fields == fields
    {
      this.fields := fields;
    }
  }

  /** What the dictionary indexer throws for a missing key. */
  datatype EnrichError = KeyNotFound(key: string)

  /** Both keys that the enricher reads are present. */
  predicate HasTexts(m: Fields)
  {
    TitleKey in m && ContentKey in m
  }

  /** The key whose lookup throws first: the title is read before the content. */
  function MissingKey(m: Fields): (k: Option<string>)
    ensures k.None? <==> HasTexts(m)
    ensures k == Some(TitleKey) <==> TitleKey !in m
    ensures k == Some(ContentKey) <==> TitleKey in m && ContentKey !in m
  {
    if TitleKey !in m then Some(TitleKey)
    else if ContentKey !in m then Some(ContentKey)
    else None
  }

  /** One document after enrichment. */
  function Enriched(m: Fields, embed: string -> Embedding): Fields
    requires HasTexts(m)
  {
    m[TitleVectorKey := Floats(embed(TextOf(m[TitleKey])))]
     [ContentVectorKey := Floats(embed(TextOf(m[ContentKey])))]
  }

  /**
   * Enrichment adds exactly the two vector keys, holding the embeddings of the title and content
   * texts (null read as the empty string), and keeps every other entry.
   */
  lemma EnrichedContents(m: Fields, embed: string -> Embedding)
    requires HasTexts(m)
    ensures var r := Enriched(m, embed);
      && r.Keys == m.Keys + {TitleVectorKey, ContentVectorKey}
      && r[TitleVectorKey] == Floats(embed(TextOf(m[TitleKey])))
      && r[ContentVectorKey] == Floats(embed(TextOf(m[ContentKey])))
      && (forall k :: k in m && k != TitleVectorKey && k != ContentVectorKey ==> r[k] == m[k])
      && (m[TitleKey] == Null ==> r[TitleVectorKey] == Floats(embed("")))
      && (m[ContentKey] == Null ==> r[ContentVectorKey] == Floats(embed("")))
  {
  }

  /** Enriching an enriched document changes nothing, since the vectors do not affect the texts. */
  lemma EnrichedIdempotent(m: Fields, embed: string -> Embedding)
    requires HasTexts(m)
    ensures HasTexts(Enriched(m, embed))
    ensures Enriched(Enriched(m, embed), embed) == Enriched(m, embed)
  {
    var e := Enriched(m, embed);
    EnrichedContents(m, embed);
    assert e[TitleKey] == m[TitleKey] && e[ContentKey] == m[ContentKey];
    var ee := Enriched(e, embed);
    assert ee.Keys == e.Keys;
    forall k | k in e ensures ee[k] == e[k] {
    }
  }

  /** The whole list: either every document enriched, in order, or the error of the first one lacking a key. */
  function EnrichAll(ms: seq<Fields>, embed: string -> Embedding): (r: Result<seq<Fields>, EnrichError>)
    ensures r.Ok? ==> |r.value| == |ms|
    ensures r.Err? ==> r.error.key == TitleKey || r.error.key == ContentKey
  {
    if |ms| == 0 then Ok([])
    else match MissingKey(ms[0])
      case Some(k) => Err(KeyNotFound(k))
      case None =>
        match EnrichAll(ms[1..], embed)
        case Ok(rest) => Ok([Enriched(ms[0], embed)] + rest)
        case Err(e) => Err(e)
  }

  /** Position of the first document lacking `title` or `content`, or |ms| when none does. */
  function FirstMissing(ms: seq<Fields>): (i: nat)
    ensures i <= |ms|
    ensures forall j :: 0 <= j < i ==> HasTexts(ms[j])
    ensures i < |ms| ==> !HasTexts(ms[i])
  {
    if |ms| == 0 then 0
    else if !HasTexts(ms[0]) then 0
    else 1 + FirstMissing(ms[1..])
  }

  /** Enrichment succeeds exactly when every document has both keys; then it keeps length and order. */
  lemma {:induction false} EnrichAllSucceeds(ms: seq<Fields>, embed: string -> Embedding)
    ensures EnrichAll(ms, embed).Ok? <==> FirstMissing(ms) == |ms|
    ensures EnrichAll(ms, embed).Ok? ==>
      && |EnrichAll(ms, embed).value| == |ms|
      && forall j :: 0 <= j < |ms| ==> EnrichAll(ms, embed).value[j] == Enriched(ms[j], embed)
  {
    if |ms| > 0 {
      EnrichAllSucceeds(ms[1..], embed);
      if HasTexts(ms[0]) {
        assert FirstMissing(ms) == 1 + FirstMissing(ms[1..]);
        if EnrichAll(ms, embed).Ok? {
          var out := EnrichAll(ms, embed).value;
          forall j | 0 <= j < |ms| ensures out[j] == Enriched(ms[j], embed) {
            if j > 0 {
              assert ms[j] == ms[1..][j - 1];
            }
          }
        }
      }
    }
  }

  /** When enrichment fails, it names the missing key of the first document that lacks one. */
  lemma {:induction false} EnrichAllFails(ms: seq<Fields>, embed: string -> Embedding)
    requires FirstMissing(ms) < |ms|
    ensures EnrichAll(ms, embed) == Err(KeyNotFound(MissingKey(ms[FirstMissing(ms)]).value))
  {
    if HasTexts(ms[0]) {
      EnrichAllFails(ms[1..], embed);
      assert ms[FirstMissing(ms)] == ms[1..][FirstMissing(ms[1..])];
    }
  }

  /** The fields of every listed document, in list order. */
  function FieldsOf(docs: seq<Document>): (r: seq<Fields>)
    reads docs
    ensures |r| == |docs|
    ensures forall j :: 0 <= j < |docs| ==> r[j] == docs[j].fields
  {
    seq(|docs|, j reads docs requires 0 <= j < |docs| => docs[j].fields)
  }

  /**
   * The body of the enrichment loop for one dictionary: read `title` and `content` (the indexer
   * throws for a missing key, title first), embed both texts and write the two vectors in place.
   */
  method EnrichDocument(embed: string -> Embedding, document: Document) returns (error: Option<EnrichError>)
    modifies document
    ensures error.None? <==> HasTexts(old(document.fields))
    ensures error.Some? ==> error == Some(KeyNotFound(MissingKey(old(document.fields)).value))
    ensures document.fields == if error.None? then Enriched(old(document.fields), embed) else old(document.fields)
  {
    if TitleKey !in document.fields {
      return Some(KeyNotFound(TitleKey));
    }
    var title := TextOf(document.fields[TitleKey]);
    if ContentKey !in document.fields {
      return Some(KeyNotFound(ContentKey));
    }
    var content := TextOf(document.fields[ContentKey]);
    var titleEmbeddings := embed(title);
    var contentEmbeddings := embed(content);
    document.fields := document.fields[TitleVectorKey := Floats(titleEmbeddings)];
    document.fields := document.fields[ContentVectorKey := Floats(contentEmbeddings)];
    return None;
  }

  /** A dictionary listed twice had the same contents at both positions. */
  ghost predicate AliasConsistent(docs: seq<Document>, before: seq<Fields>)
  {
    && |docs| == |before|
    && forall j, k :: 0 <= j < |docs| && 0 <= k < |docs| && docs[j] == docs[k] ==> before[j] == before[k]
  }

  /**
   * The contents of the listed dictionaries once the first `n` have been enriched in place:
   * a dictionary is enriched when it occurs among the first `n`, whatever its position.
   */
  ghost function Progress(docs: seq<Document>, before: seq<Fields>, n: nat, embed: string -> Embedding): (r: seq<Fields>)
    requires AliasConsistent(docs, before) && n <= |docs|
    requires forall j :: 0 <= j < n ==> HasTexts(before[j])
    ensures |r| == |docs|
    ensures forall j :: 0 <= j < |docs| ==>
      r[j] == if docs[j] in docs[..n] then Enriched(before[j], embed) else before[j]
  {
    seq(|docs|, j requires 0 <= j < |docs| =>
      if docs[j] in docs[..n] then Enriched(before[j], embed) else before[j])
  }

  /** Enriching the dictionary at position `n` updates every position that holds the same dictionary. */
  lemma ProgressStep(docs: seq<Document>, before: seq<Fields>, n: nat, embed: string -> Embedding)
    requires AliasConsistent(docs, before) && n < |docs|
    requires forall j :: 0 <= j <= n ==> HasTexts(before[j])
    ensures Progress(docs, before, n + 1, embed) ==
      seq(|docs|, j requires 0 <= j < |docs| =>
        if docs[j] == docs[n] then Enriched(before[n], embed) else Progress(docs, before, n, embed)[j])
  {
    assert docs[..n + 1] == docs[..n] + [docs[n]];
  }

  /**
   * The dictionary at position `n`, as the loop finds it: if it occurred earlier it was checked
   * and enriched there, which changes neither whether it has both texts nor its enrichment.
   */
  lemma CurrentEntry(docs: seq<Document>, before: seq<Fields>, n: nat, embed: string -> Embedding)
    requires AliasConsistent(docs, before) && n < |docs|
    requires forall j :: 0 <= j < n ==> HasTexts(before[j])
    ensures var now := Progress(docs, before, n, embed)[n];
      && (HasTexts(now) <==> HasTexts(before[n]))
      && (!HasTexts(before[n]) ==> now == before[n])
      && (HasTexts(before[n]) ==> Enriched(now, embed) == Enriched(before[n], embed))
  {
    if docs[n] in docs[..n] {
      var k :| 0 <= k < n && docs[..n][k] == docs[n];
      assert before[k] == before[n];
      EnrichedIdempotent(before[n], embed);
    }
  }

  /** The loop stops at position `n` when every earlier dictionary has both texts and this one does not. */
  lemma StopsAt(before: seq<Fields>, n: nat, embed: string -> Embedding)
    requires n < |before|
    requires forall j :: 0 <= j < n ==> HasTexts(before[j])
    requires !HasTexts(before[n])
    ensures FirstMissing(before) == n
    ensures EnrichAll(before, embed) == Err(KeyNotFound(MissingKey(before[n]).value))
  {
    EnrichAllFails(before, embed);
  }

  /** After the last step every dictionary is enriched, and the contents are what `EnrichAll` gives. */
  lemma Finished(docs: seq<Document>, before: seq<Fields>, embed: string -> Embedding)
    requires AliasConsistent(docs, before)
    requires forall j :: 0 <= j < |docs| ==> HasTexts(before[j])
    ensures EnrichAll(before, embed) == Ok(Progress(docs, before, |docs|, embed))
  {
    EnrichAllSucceeds(before, embed);
    assert FirstMissing(before) == |before|;
    assert docs[..|docs|] == docs;
    var all := Progress(docs, before, |docs|, embed);
    forall j | 0 <= j < |docs| ensures all[j] == Enriched(before[j], embed) {
      assert docs[j] in docs;
    }
    assert EnrichAll(before, embed).value == all;
  }

  /**
   * One loop step on values: if the contents were `prev` and only the dictionary at position `n`
   * (and its repeats) now hold its enrichment, the contents are those after `n + 1` steps, and
   * their first `n + 1` entries extend the first `n` by the new one.
   */
  lemma AdvanceStep(docs: seq<Document>, before: seq<Fields>, n: nat, embed: string -> Embedding,
                    prev: seq<Fields>, now: seq<Fields>)
    requires AliasConsistent(docs, before) && n < |docs|
    requires forall j :: 0 <= j <= n ==> HasTexts(before[j])
    requires prev == Progress(docs, before, n, embed)
    requires |now| == |docs|
    requires forall j :: 0 <= j < |docs| ==>
      now[j] == if docs[j] == docs[n] then Enriched(before[n], embed) else prev[j]
    ensures now == Progress(docs, before, n + 1, embed)
    ensures now[..n + 1] == prev[..n] + [Enriched(before[n], embed)]
  {
    ProgressStep(docs, before, n, embed);
    if docs[n] in docs[..n] {
      EnrichedIdempotent(before[n], embed);
    }
    assert now[..n] == prev[..n];
  }

  /**
   * The enrichment loop. Each processed dictionary is updated in place; the output list holds
   * copies. A dictionary that occurs twice in the input is simply enriched twice, to the same
   * result. On a missing key the loop stops: the dictionaries before the failing one are
   * updated, the rest are untouched (unless they are the same object as an updated one).
   */
  method GetSampleDocuments(embed: string -> Embedding, inputDocuments: seq<Document>)
    returns (result: Result<seq<Fields>, EnrichError>)
    modifies inputDocuments
    ensures result == EnrichAll(old(FieldsOf(inputDocuments)), embed)
    ensures var done := inputDocuments[..FirstMissing(old(FieldsOf(inputDocuments)))];
      forall j :: 0 <= j < |inputDocuments| ==>
        inputDocuments[j].fields ==
          if inputDocuments[j] in done then Enriched(old(inputDocuments[j].fields), embed)
          else old(inputDocuments[j].fields)
    ensures result.Ok? ==> |result.value| == |inputDocuments|
    ensures result.Ok? ==> forall j :: 0 <= j < |inputDocuments| ==> result.value[j] == inputDocuments[j].fields
  {
    var docs := inputDocuments;
    ghost var before := FieldsOf(docs);
    var sampleDocuments: seq<Fields> := [];
    var i := 0;
    while i < |docs|
      invariant 0 <= i <= |docs|
      invariant AliasConsistent(docs, before)
      invariant forall j :: 0 <= j < i ==> HasTexts(before[j])
      invariant FieldsOf(docs) == Progress(docs, before, i, embed)
      invariant sampleDocuments == FieldsOf(docs)[..i]
    {
      var document := docs[i];
      ghost var prev := FieldsOf(docs);
      CurrentEntry(docs, before, i, embed);
      var error := EnrichDocument(embed, document);
      if error.Some? {
        StopsAt(before, i, embed);
        return Err(error.value);
      }
      sampleDocuments := sampleDocuments + [document.fields];
      AdvanceStep(docs, before, i, embed, prev, FieldsOf(docs));
      i := i + 1;
    }
    assert FieldsOf(docs)[..i] == FieldsOf(docs);
    Finished(docs, before, embed);
    result := Ok(sampleDocuments);
  }
}
