/**
 * The document-search tool (app/tools/rag_finance_docs.py): the retrieved passages are
 * joined into one context block for the prompt, and the tool turns any failure of the
 * retrieval-and-generation chain into a fixed error text. The retriever and the language
 * model are parameters of the model.
 */
module Rag {
  import opened Wrappers
  import opened Text

  /** The number of passages the retriever is asked for. */
  const TopK: nat := 4

  /** What separates two passages in the context block. */
  const Separator := "\n\n---\n\n"

  /** The tool's answer when the chain raises. */
  const SearchError := "Erreur lors de l'exécution de la recherche dans les documents."

  /** A retrieved chunk; only its text reaches the prompt. */
  datatype Document = Document(pageContent: string)

  /** The passages' texts, in retrieval order. */
  function Contents(docs: seq<Document>): (cs: seq<string>)
    ensures |cs| == |docs| && forall i :: 0 <= i < |docs| ==> cs[i] == docs[i].pageContent
  {
    seq(|docs|, i requires 0 <= i < |docs| => docs[i].pageContent)
  }

  /** `_format_docs`: the passages' texts joined by the separator. */
  function FormatDocs(docs: seq<Document>): (text: string)
    ensures docs == [] ==> text == ""
    ensures |docs| == 1 ==> text == docs[0].pageContent
  {
    Join(Contents(docs), Separator)
  }

  /** Where passage `i` starts in the context block. */
  function PassageStart(docs: seq<Document>, i: nat): nat
    requires i <= |docs|
  {
    JoinOffset(Contents(docs), Separator, i)
  }

  /**
   * The context block, passage by passage: passage `i` starts where the ones before it and
   * their separators end, a separator follows it unless it is the last, and the block ends
   * exactly where the last passage does.
   */
  lemma FormatDocsLayout(docs: seq<Document>, i: nat)
    requires i < |docs|
    ensures var text, o, c := FormatDocs(docs), PassageStart(docs, i), docs[i].pageContent;
      && o + |c| <= |text| && text[o..o + |c|] == c
      && (i + 1 < |docs| ==> o + |c| + |Separator| <= |text| && text[o + |c|..o + |c| + |Separator|] == Separator)
      && (i + 1 == |docs| ==> o + |c| == |text|)
  {
    var cs := Contents(docs);
    JoinPiece(cs, Separator, i);
    if i + 1 < |docs| {
      JoinSeparator(cs, Separator, i);
    } else {
      JoinLength(cs, Separator);
    }
  }

  /** Passages keep their retrieval order: one more passage adds the separator and its text at the end. */
  lemma FormatDocsAppend(docs: seq<Document>, d: Document)
    requires docs != []
    ensures FormatDocs(docs + [d]) == FormatDocs(docs) + Separator + d.pageContent
  {
    assert Contents(docs + [d]) == Contents(docs) + [d.pageContent];
    JoinAppend(Contents(docs), d.pageContent, Separator);
  }

  /**
   * `search_financial_documents`: `retrieve(question, k)` is the retriever (`None` where it
   * raises) and `generate(question, context)` the prompt, model and output parser
   * (`None` where they raise).
   */
  function SearchFinancialDocuments(query: string, retrieve: (string, nat) -> Option<seq<Document>>,
                                    generate: (string, string) -> Option<string>): (answer: string)
    ensures retrieve(query, TopK).None? ==> answer == SearchError
    ensures retrieve(query, TopK).Some? ==>
              var generated := generate(query, FormatDocs(retrieve(query, TopK).value));
              && (generated.None? ==> answer == SearchError)
              && (generated.Some? ==> answer == generated.value)
    ensures answer != SearchError ==>
              retrieve(query, TopK).Some? && generate(query, FormatDocs(retrieve(query, TopK).value)) == Some(answer)
  {
    match retrieve(query, TopK)
    case None => SearchError
    case Some(docs) =>
      match generate(query, FormatDocs(docs))
      case None => SearchError
      case Some(answer) => answer
  }
}
