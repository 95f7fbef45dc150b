/**
 * The text a WebSocket turn sends to the generation endpoint
 * (backend/server.py:983-999, 1091-1094): the reference block built from
 * the search hits of the room's PDF, and the final prompt around the
 * system instruction and the user's message.
 */
module PromptAssembly {
  import opened Base
  import opened PyStr
  import opened Records

  /** A search hit: its "filename", "page" and "content" entries. */
  datatype Hit = Hit(filename: string, page: int, content: string)

  /** The arguments of `rag_system.search_by_pdf`. */
  datatype Query = Query(user: UserId, pdf: PdfId, text: string, limit: nat)

  const ReferenceHeader: string := "\n\n**참고 자료:**\n"
  const SnippetLength: nat := 200
  const SearchLimit: nat := 5

  /** `f"[{filename} - Page {page}] {content[:200]}...\n\n"` */
  function HitText(h: Hit): string {
    "[" + h.filename + " - Page " + IntToDecimal(h.page) + "] " + Take(h.content, SnippetLength) + "...\n\n"
  }

  /** The hits' texts one after the other, in the order of the hits. */
  function HitsText(hits: seq<Hit>): string
    decreases |hits|
  {
    if hits == [] then "" else HitsText(hits[..|hits| - 1]) + HitText(hits[|hits| - 1])
  }

  /** `rag_context` for a list of hits: empty when there are none. */
  function ReferenceBlock(hits: seq<Hit>): string {
    if hits == [] then "" else ReferenceHeader + HitsText(hits)
  }

  /** The loop of backend/server.py:993-996. */
  method BuildReferenceBlock(hits: seq<Hit>) returns (block: string)
    ensures block == ReferenceBlock(hits)
  {
    block := "";
    if hits != [] {
      block := ReferenceHeader;
      for i := 0 to |hits|
        invariant block == ReferenceHeader + HitsText(hits[..i])
      {
        HitsTextSnoc(hits, i);
        AppendAssoc(ReferenceHeader, HitsText(hits[..i]), HitText(hits[i]));
        block := block + HitText(hits[i]);
      }
      assert hits[..|hits|] == hits;
    }
  }

  lemma {:induction false} HitsTextSnoc(hits: seq<Hit>, i: nat)
    requires i < |hits|
    ensures HitsText(hits[..i + 1]) == HitsText(hits[..i]) + HitText(hits[i])
  {
    assert hits[..i + 1][..i] == hits[..i];
  }

  /**
   * A hit's entry names the file and the page and carries at most the
   * first 200 characters of the content.
   */
  lemma {:induction false} HitTextShape(h: Hit)
    ensures StartsWith(HitText(h), "[" + h.filename + " - Page " + IntToDecimal(h.page) + "] ")
    ensures EndsWith(HitText(h), "...\n\n")
    ensures |HitText(h)| == |h.filename| + |IntToDecimal(h.page)| + (if |h.content| < 200 then |h.content| else 200) + 16
  {
    var head := "[" + h.filename + " - Page " + IntToDecimal(h.page) + "] ";
    var snippet := Take(h.content, SnippetLength);
    assert HitText(h) == head + (snippet + "...\n\n");
    assert HitText(h)[..|head|] == head;
  }

  /** Every hit's entry appears in the block, and the block is empty iff there are no hits. */
  lemma {:induction false} ReferenceBlockLists(hits: seq<Hit>)
    ensures ReferenceBlock(hits) == "" <==> hits == []
    ensures hits != [] ==> StartsWith(ReferenceBlock(hits), ReferenceHeader)
    ensures forall i :: 0 <= i < |hits| ==> IsInfix(HitText(hits[i]), ReferenceBlock(hits))
  {
    if hits != [] {
      assert ReferenceBlock(hits)[..|ReferenceHeader|] == ReferenceHeader;
      forall i | 0 <= i < |hits| ensures IsInfix(HitText(hits[i]), ReferenceBlock(hits)) {
        HitsTextHas(hits, i);
        InfixExtendLeft(HitText(hits[i]), ReferenceHeader, HitsText(hits));
      }
    }
  }

  lemma {:induction false} HitsTextHas(hits: seq<Hit>, i: nat)
    requires i < |hits|
    ensures IsInfix(HitText(hits[i]), HitsText(hits))
    decreases |hits|
  {
    var front := hits[..|hits| - 1];
    if i == |hits| - 1 {
      InfixAt(HitText(hits[i]), HitsText(front), "");
      assert HitsText(front) + HitText(hits[i]) + "" == HitsText(hits);
    } else {
      assert front[i] == hits[i];
      HitsTextHas(front, i);
      InfixExtendRight(HitText(hits[i]), HitsText(front), HitText(hits[|hits| - 1]));
    }
  }

  /**
   * The retrieval step of a turn (backend/server.py:983-999): only a room
   * whose `pdf_id` is truthy and whose PDF the index holds is searched,
   * with the user's message as the query. The search made, if any, comes
   * back with the block.
   */
  function Retrieval(hasPdf: (UserId, PdfId) -> bool, search: Query -> seq<Hit>, room: RoomRow, message: string)
    : (r: (string, Option<Query>))
    ensures r.1.Some? <==> room.pdfId.Some? && room.pdfId.value != "" && hasPdf(room.userId, room.pdfId.value)
    ensures r.1.Some? ==> r.1.value == Query(room.userId, room.pdfId.value, message, SearchLimit)
    ensures r.0 != "" <==> r.1.Some? && search(r.1.value) != []
  {
    if room.pdfId.Some? && room.pdfId.value != "" && hasPdf(room.userId, room.pdfId.value) then
      var q := Query(room.userId, room.pdfId.value, message, SearchLimit);
      ReferenceBlockLists(search(q));
      (ReferenceBlock(search(q)), Some(q))
    else ("", None)
  }

  /** What the prompt ends with: the user's turn and the cue for the answer. */
  function UserTurn(message: string): string {
    "사용자: " + message + "\n\nAI:"
  }

  /** The prompt of backend/server.py:1091-1094. */
  function FullPrompt(system: string, block: string, message: string): string {
    if block != "" then system + "\n\n" + block + "\n\n" + UserTurn(message)
    else system + "\n\n" + UserTurn(message)
  }

  /**
   * The prompt opens with the system instruction and closes with the
   * user's turn; a non-empty block sits between them followed by a blank
   * line, and nothing else is added.
   */
  lemma {:induction false} FullPromptShape(system: string, block: string, message: string)
    ensures StartsWith(FullPrompt(system, block, message), system + "\n\n")
    ensures EndsWith(FullPrompt(system, block, message), UserTurn(message))
    ensures block == "" ==> FullPrompt(system, block, message) == system + "\n\n" + UserTurn(message)
    ensures block != "" ==> InsertedInto(block + "\n\n", FullPrompt(system, "", message), FullPrompt(system, block, message))
  {
    var p := FullPrompt(system, block, message);
    var head := system + "\n\n";
    if block != "" {
      assert p == head + (block + "\n\n" + UserTurn(message));
      assert p == (head + (block + "\n\n")) + UserTurn(message);
      InsertedAt(block + "\n\n", head, UserTurn(message));
      assert head + (block + "\n\n") + UserTurn(message) == p;
    } else {
      assert p == head + UserTurn(message);
    }
    assert p[..|head|] == head;
    assert p[|p| - |UserTurn(message)|..] == UserTurn(message);
  }
}
