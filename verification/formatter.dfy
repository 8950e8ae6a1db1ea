/** The text handed to the LLM: the numbered context block built from the
    retrieved documents, the optional history section, the language
    instruction chosen by Pidgin detection, and the three prompt layouts
    (modular formatter, monolithic `rag.py`, pipeline class). Instruction
    wording is kept as opaque constants. */
module Formatter {
  import opened Wrappers
  import opened Text
  import opened Retrieval
  import ChatHistory

  /** What `format_context` returns when nothing was retrieved. */
  const NoDocuments: string := "No relevant documents found."

  /** The part for the `i`-th document (counting from 1): a header naming
      its type and source, "Unknown" for a missing entry, then its text. The
      score is not rendered. */
  function DocumentPart(i: nat, d: Doc): (r: string)
    ensures |r| > 0 && r[0] == '['
  {
    "[Document " + NatToString(i) + " - " + d.docType.GetOr("Unknown") + " - "
    + d.source.GetOr("Unknown") + "]\n" + d.text + "\n"
  }

  function DocumentParts(docs: seq<Doc>): (r: seq<string>)
    ensures |r| == |docs|
    ensures forall i :: 0 <= i < |docs| ==> r[i] == DocumentPart(i + 1, docs[i])
  {
    seq(|docs|, i requires 0 <= i < |docs| => DocumentPart(i + 1, docs[i]))
  }

  /** `format_context`: the sentinel for no documents, otherwise the numbered
      parts joined by newlines. */
  function FormatContext(docs: seq<Doc>): (r: string)
    ensures r == NoDocuments <==> docs == []
  {
    if docs == [] then NoDocuments
    else
      JoinHead(DocumentParts(docs), "\n");
      assert NoDocuments[0] == 'N';
      Join(DocumentParts(docs), "\n")
  }

  /** Parts come in input order, numbered from 1: one more document adds its
      part, with the next number, after a newline. */
  lemma FormatContextSnoc(docs: seq<Doc>, d: Doc)
    requires docs != []
    ensures FormatContext(docs + [d]) == FormatContext(docs) + "\n" + DocumentPart(|docs| + 1, d)
  {
    assert DocumentParts(docs + [d]) == DocumentParts(docs) + [DocumentPart(|docs| + 1, d)];
    JoinSnoc(DocumentParts(docs), DocumentPart(|docs| + 1, d), "\n");
  }

  /** Documents that differ only in their scores format identically. */
  lemma ScoreNotRendered(docs: seq<Doc>, others: seq<Doc>)
    requires |docs| == |others|
    requires forall i :: 0 <= i < |docs| ==>
      docs[i].(score := 0) == others[i].(score := 0)
    ensures FormatContext(docs) == FormatContext(others)
  {
    assert DocumentParts(docs) == DocumentParts(others) by {
      forall i | 0 <= i < |docs| ensures DocumentPart(i + 1, docs[i]) == DocumentPart(i + 1, others[i]) {
        assert docs[i].(score := 0) == others[i].(score := 0);
      }
    }
  }

  // ---------------------------------------------------------------------
  // Prompt pieces

  /** The history section: empty when the history is empty, whitespace
      only, or the "no previous conversation" sentinel. */
  function HistorySection(history: string): (r: string)
    ensures r == "" <==> IsBlank(history) || history == ChatHistory.NoConversation
    ensures r != "" ==> r == "\nPREVIOUS CONVERSATION:\n" + history + "\n"
  {
    if history != "" && !IsBlank(history) && history != ChatHistory.NoConversation then
      "\nPREVIOUS CONVERSATION:\n" + history + "\n"
    else
      assert history == "" ==> IsBlank(history) by {
        if history == "" { assert AllSpace(history); }
      }
      ""
  }

  /** The words whose presence marks a query as Nigerian Pidgin. */
  const PidginMarkers: seq<string> :=
    ["wetin", "dey", "na so", "oga", "abeg", "don", "fit", "sabi", "wahala", "shey", "abi"]

  /** Some marker occurs in the lowercased query, as a plain substring. */
  predicate IsPidgin(query: string) {
    exists i | 0 <= i < |PidginMarkers| :: Contains(Lower(query), PidginMarkers[i])
  }

  const PidginInstruction: string :=
    "LANGUAGE: The user speaks Nigerian Pidgin English. Respond ENTIRELY in Pidgin."
  const StandardInstruction: string :=
    "Use clear, professional Standard English with Nigerian context."

  function LanguageInstruction(query: string): (r: string)
    ensures r == PidginInstruction <==> IsPidgin(query)
    ensures r == StandardInstruction <==> !IsPidgin(query)
  {
    if IsPidgin(query) then PidginInstruction else StandardInstruction
  }

  /** Substring matching reads ordinary English as Pidgin: "liability"
      contains the marker "abi". */
  lemma LiabilityReadsAsPidgin()
    ensures IsPidgin("my tax liability")
  {
    var q := "my tax liability";
    assert Lower(q) == q;
    assert q[9..12] == "abi";
    assert IsInfixAt(Lower(q), PidginMarkers[10], 9);
  }

  /** A query with no marker anywhere gets the Standard English instruction. */
  lemma PlainQueryIsStandard()
    ensures !IsPidgin("vat")
  {
    assert Lower("vat") == "vat";
    assert "vat" !in PidginMarkers;
    forall i | 0 <= i < |PidginMarkers| ensures !Contains(Lower("vat"), PidginMarkers[i]) {
      var m := PidginMarkers[i];
      assert m in PidginMarkers;
      if |m| == 3 { ContainsSameLength("vat", m); }
    }
  }

  const TaxAssistantIntro: string :=
    "You are a helpful Nigerian Tax Assistant. Use the following context from official tax documents to answer the user's question accurately and concisely."
  const LegacyIntro: string :=
    "You are a helpful Nigerian Tax Assistant. Use the following context from official tax documents to answer the user's question accurately and comprehensively."
  /** The numbered instruction lists, shortened to their first items. */
  const ModularInstructions: string :=
    "INSTRUCTIONS:\n1. Answer based ONLY on the provided context\n2. Be CONCISE and DIRECT - focus on answering the specific question asked"
  const LegacyInstructions: string :=
    "INSTRUCTIONS:\n1. Answer based ONLY on the provided context\n2. If the context doesn't contain enough information, say so clearly\n7. DO NOT reference documents by number"
  const PipelineInstructions: string :=
    "INSTRUCTIONS:\n1. Answer based ONLY on the provided context\n2. If the context doesn't contain enough information, say so clearly\n6. For PAYE questions, explain the calculation method clearly"

  /** The pieces of the modular `create_prompt(query, context, chat_history)`. */
  function PromptPieces(query: string, context: string, history: string): seq<string> {
    [TaxAssistantIntro, "\n\n", HistorySection(history), "\n\nCONTEXT:\n", context,
     "\n\nUSER QUESTION:\n", query, "\n\n", LanguageInstruction(query), "\n\n",
     ModularInstructions, "\n\nANSWER:"]
  }

  /** The modular `create_prompt`: it carries the context, the query, the
      history section and the language instruction verbatim. */
  function CreatePrompt(query: string, context: string, history: string): (r: string)
    ensures Contains(r, query) && Contains(r, context)
    ensures Contains(r, HistorySection(history))
    ensures Contains(r, LanguageInstruction(query))
  {
    var pieces := PromptPieces(query, context, history);
    PieceInConcat(pieces, 2);
    PieceInConcat(pieces, 4);
    PieceInConcat(pieces, 6);
    PieceInConcat(pieces, 8);
    Concat(pieces)
  }

  /** The monolithic `rag.py` `create_prompt`: the same history rule, no
      language detection. */
  function LegacyCreatePrompt(query: string, context: string, history: string): (r: string)
    ensures Contains(r, query) && Contains(r, context)
    ensures Contains(r, HistorySection(history))
  {
    var pieces := [LegacyIntro, "\n\n", HistorySection(history), "\n\nCONTEXT:\n", context,
      "\n\nUSER QUESTION:\n", query, "\n\n", LegacyInstructions, "\n\nANSWER:"];
    PieceInConcat(pieces, 2);
    PieceInConcat(pieces, 4);
    PieceInConcat(pieces, 6);
    Concat(pieces)
  }

  /** `RAGPipeline.create_prompt(query, context)`: no history at all. */
  function PipelinePrompt(query: string, context: string): (r: string)
    ensures Contains(r, query) && Contains(r, context)
  {
    var pieces := [LegacyIntro, "\n\nCONTEXT:\n", context, "\n\nUSER QUESTION:\n", query,
      "\n\n", PipelineInstructions, "\n\nANSWER:"];
    PieceInConcat(pieces, 2);
    PieceInConcat(pieces, 4);
    Concat(pieces)
  }
}
