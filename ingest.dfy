/**
 * The embedding step of the ingestion job (`ingest_embedded.py`): each raw
 * product document gets an `all_text` column, the labelled concatenation of
 * its url, description, price and title, and an `embedded_all_text` column,
 * the embedding of that text. The documents are then inserted as they are.
 */
module Ingest {
  import opened Python
  import opened Embedder
  import Retrieval

  /** A value in a stored document: text, a vector, or any other BSON value kept as it is. */
  datatype Field = Text(text: string) | Vector(vector: seq<real>) | Other(code: int)

  type Document = map<string, Field>

  const AllTextField := "all_text"
  /** The field the chatbot's vector search reads. */
  const EmbeddingField := Retrieval.EmbeddingField

  /** The four columns the concatenation reads, each present and textual. */
  predicate HasTextFields(d: Document) {
    && "url" in d && d["url"].Text?
    && "content" in d && d["content"].Text?
    && "price" in d && d["price"].Text?
    && "title" in d && d["title"].Text?
  }

  /** The labelled text that is embedded for a document. */
  function AllText(d: Document): (s: string)
    requires HasTextFields(d)
  {
    "URL: " + d["url"].text + " Description: " + d["content"].text
      + " Price: " + d["price"].text + " Title: " + d["title"].text
  }

  /**
   * The labels come in the order URL, Description, Price, Title, each field
   * right after its label, so the text begins with "URL: " and is never blank.
   */
  lemma AllTextLayout(d: Document)
    requires HasTextFields(d)
    ensures var s, u, c, p := AllText(d), d["url"].text, d["content"].text, d["price"].text;
      && s[..5] == "URL: "
      && s[5..5 + |u|] == u
      && s[5 + |u|..5 + |u| + 14] == " Description: "
      && s[5 + |u| + 14..5 + |u| + 14 + |c|] == c
      && s[5 + |u| + 14 + |c|..5 + |u| + 14 + |c| + 8] == " Price: "
      && s[5 + |u| + 14 + |c| + 8..5 + |u| + 14 + |c| + 8 + |p|] == p
      && s[5 + |u| + 14 + |c| + 8 + |p|..5 + |u| + 14 + |c| + 8 + |p| + 8] == " Title: "
      && s[5 + |u| + 14 + |c| + 8 + |p| + 8..] == d["title"].text
  {
  }

  /** The text starts with the letter U, so it is never blank. */
  lemma AllTextNotBlank(d: Document)
    requires HasTextFields(d)
    ensures !IsBlank(AllText(d))
  {
    assert AllText(d)[0] == 'U';
  }

  /** One output document: the input with the two new columns set. */
  function EmbedDocument(model: EmbeddingModel, d: Document): Document
    requires HasTextFields(d)
  {
    var allText := AllText(d);
    d[AllTextField := Text(allText)][EmbeddingField := Vector(GetEmbedding(model, allText).vector)]
  }

  /**
   * An output document keeps every original field and gains exactly
   * `all_text`, holding the document's labelled text, and `embedded_all_text`.
   */
  lemma EmbedDocumentFields(model: EmbeddingModel, d: Document)
    requires HasTextFields(d)
    ensures var e := EmbedDocument(model, d);
      && e.Keys == d.Keys + {AllTextField, EmbeddingField}
      && (forall k :: k in d && k != AllTextField && k != EmbeddingField ==> e[k] == d[k])
      && e[AllTextField] == Text(AllText(d))
      && e[EmbeddingField] == Vector(model.encode(AllText(d)))
  {
    AllTextNotBlank(d);
    var allText := AllText(d);
    var withText := d[AllTextField := Text(allText)];
    assert withText.Keys == d.Keys + {AllTextField};
    assert EmbedDocument(model, d) == withText[EmbeddingField := Vector(GetEmbedding(model, allText).vector)];
  }

  /**
   * The vector of an output document is the model's encoding of its own
   * text: the model is called on it, so the blank guard never fires during
   * ingestion.
   */
  lemma EmbedDocumentVector(model: EmbeddingModel, d: Document)
    requires HasTextFields(d)
    ensures EmbedDocument(model, d)[EmbeddingField] == Vector(model.encode(AllText(d)))
    ensures GetEmbedding(model, AllText(d)).encoderInputs == [AllText(d)]
  {
    AllTextNotBlank(d);
  }

  /** The pandas frame built from the raw documents, one record per row. */
  class DataFrame {
    var records: seq<Document>

    /** `pd.DataFrame(data)` */
    constructor (data: seq<Document>)
      ensures records == data
    {
      records := data;
    }

    /** `df[name] = column`: every row gets its value of the column, in row order. */
    method AssignColumn(name: string, column: seq<Field>)
      requires |column| == |records|
      modifies this
      ensures |records| == |old(records)|
      ensures forall i :: 0 <= i < |records| ==> records[i] == old(records)[i][name := column[i]]
    {
      var rows := records;
      records := seq(|rows|, i requires 0 <= i < |rows| => rows[i][name := column[i]]);
    }

    /** `df.to_dict('records')` */
    function ToRecords(): seq<Document>
      reads this
    {
      records
    }
  }

  /**
   * `main` of the ingestion job between the `find` and the `insert_many`:
   * one output document per raw document, in the same order.
   */
  method EmbedDocuments(data: seq<Document>, model: EmbeddingModel) returns (embeddedDocuments: seq<Document>)
    requires forall d :: d in data ==> HasTextFields(d)
    ensures |embeddedDocuments| == |data|
    ensures forall i :: 0 <= i < |data| ==> embeddedDocuments[i] == EmbedDocument(model, data[i])
  {
    var rawDf := new DataFrame(data);
    var allText := seq(|data|, i requires 0 <= i < |data| => Text(AllText(data[i])));
    rawDf.AssignColumn(AllTextField, allText);
    var rows := rawDf.records;
    assert forall i :: 0 <= i < |rows| ==> rows[i][AllTextField] == allText[i];
    var embedded := seq(|rows|, i requires 0 <= i < |rows| => Vector(GetEmbedding(model, rows[i][AllTextField].text).vector));
    rawDf.AssignColumn(EmbeddingField, embedded);
    embeddedDocuments := rawDf.ToRecords();
  }
}
