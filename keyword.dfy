/**
 * Concept-keyword extraction (`extract_concept_keyword` in
 * backend/server.py): the language model is asked for the keyword of a
 * question, and its reply is cleaned up; whenever that fails, the
 * question itself is the keyword.
 */
module ConceptKeyword {
  import opened Base
  import opened PyStr

  /** The `response` member of a decoded reply body. */
  datatype ResponseField =
    | Missing
    | Text(text: string)
      /** The body is not JSON, not an object, or `response` is not a string. */
    | Unusable

  /** What the non-streaming generation request came back with. */
  datatype KeywordReply =
    | CallFailed
    | Reply(status: int, field: ResponseField)

  /** The extraction instruction around the question. */
  const ExtractionIntro: string := "다음 질문에서 학습하고자 하는 핵심 개념/키워드만 추출하세요.\n질문: "
  const ExtractionRules: string :=
    "\n\n규칙:\n- 2-3단어 이내의 핵심 개념만 추출\n- \"에 대해\", \"알려줘\", \"설명해줘\" 등은 제외\n"
    + "- 명사형으로 추출\n- 한 줄로만 답변\n\n예시:\n질문: \"자료구조에 대해서 알려줘\" → 자료구조\n"
    + "질문: \"머신러닝 알고리즘 설명해줘\" → 머신러닝 알고리즘\n질문: \"양자역학이 뭐야?\" → 양자역학\n\n키워드:"

  function ExtractionPrompt(message: string): string {
    ExtractionIntro + message + ExtractionRules
  }

  predicate IsQuote(c: char) {
    c == '"' || c == '\''
  }

  /** `.strip()`, then `.split('\n')[0].strip()`, then `.strip('"\'')`. */
  function CleanKeyword(raw: string): string {
    Strip(Strip(FirstLine(Strip(raw, IsSpace)), IsSpace), IsQuote)
  }

  /** The cleaned keyword is a single line of the reply with no quote at either end. */
  lemma {:induction false} CleanKeywordShape(raw: string)
    ensures var k := CleanKeyword(raw);
      IsInfix(k, raw) && '\n' !in k && BareEnds(k, IsQuote)
  {
    CleanShapeWith(raw, IsSpace, IsQuote);
  }

  /** The same for any blank and quote classes. */
  lemma {:induction false} CleanShapeWith(raw: string, sp: char -> bool, q: char -> bool)
    ensures var k := Strip(Strip(FirstLine(Strip(raw, sp)), sp), q);
      IsInfix(k, raw) && '\n' !in k && BareEnds(k, q)
  {
    var stripped := Strip(raw, sp);
    var line := FirstLine(stripped);
    var trimmed := Strip(line, sp);
    var k := Strip(trimmed, q);
    assert IsInfix(k, raw) && '\n' !in k by {
      StripIsInfix(raw, sp);
      StripIsInfix(line, sp);
      StripIsInfix(trimmed, q);
      FirstLineFacts(stripped);
      PrefixIsInfix(stripped, |line|);
      InfixChain(k, trimmed, line, stripped, raw);
    }
    StripBare(trimmed, q);
  }

  /** A piece of a piece of ... of `raw` lies in `raw`, and lacks what the line lacks. */
  lemma {:induction false} InfixChain(k: string, trimmed: string, line: string, stripped: string, raw: string)
    requires IsInfix(k, trimmed) && IsInfix(trimmed, line) && IsInfix(line, stripped) && IsInfix(stripped, raw)
    requires '\n' !in line
    ensures IsInfix(k, raw) && '\n' !in k
  {
    InfixTrans(k, trimmed, line);
    InfixTrans(k, line, stripped);
    InfixTrans(k, stripped, raw);
    InfixLacks(k, line, '\n');
  }

  /** The reply text when the reply can be read; None where the handler falls back. */
  function ReplyText(reply: KeywordReply): Option<string> {
    match reply
    case Reply(200, Text(t)) => Some(t)
    case Reply(200, Missing) => Some("")
    case _ => None
  }

  /**
   * `extract_concept_keyword`: the cleaned reply when it is a 200 reply
   * and the cleaned text is nonempty; the question itself otherwise
   * (other status, failed call, unreadable body, or nothing left).
   */
  function ExtractConceptKeyword(message: string, reply: KeywordReply): (k: string)
    ensures ReplyText(reply).None? ==> k == message
    ensures ReplyText(reply).Some? ==>
      var cleaned := CleanKeyword(ReplyText(reply).value);
      (cleaned == [] ==> k == message) && (cleaned != [] ==> k == cleaned)
    ensures k == message
            || (k != [] && IsInfix(k, ReplyText(reply).value) && '\n' !in k && BareEnds(k, IsQuote))
  {
    match ReplyText(reply)
    case None => message
    case Some(t) =>
      var keyword := CleanKeyword(t);
      CleanKeywordShape(t);
      if keyword != [] then keyword else message
  }

  /**
   * Whatever blanks and quotes surround a clean keyword on the reply's
   * first line, and whatever follows on later lines, the clean-up returns
   * exactly that keyword.
   */
  lemma {:induction false} CleanKeywordRecovers(
    k: string, w1: string, q1: string, q2: string, w2: string, tail: string)
    requires k != [] && '\n' !in k
    requires BareEnds(k, IsSpace) && BareEnds(k, IsQuote)
    requires AllIn(w1, IsSpace) && AllIn(w2, IsSpace) && '\n' !in w2
    requires AllIn(q1, IsQuote) && AllIn(q2, IsQuote)
    requires tail == [] || tail[0] == '\n'
    ensures CleanKeyword(w1 + q1 + k + q2 + w2 + tail) == k
  {
    KeywordLine(k, w1, q1, q2, w2, tail);
    StripPadded(q1, k, q2, IsQuote);
  }

  /** Blank-stripping the first line of such a reply leaves the quoted keyword. */
  lemma {:induction false} KeywordLine(
    k: string, w1: string, q1: string, q2: string, w2: string, tail: string)
    requires k != [] && '\n' !in k && BareEnds(k, IsSpace)
    requires AllIn(w1, IsSpace) && AllIn(w2, IsSpace) && '\n' !in w2
    requires AllIn(q1, IsQuote) && AllIn(q2, IsQuote)
    requires tail == [] || tail[0] == '\n'
    ensures Strip(FirstLine(Strip(w1 + q1 + k + q2 + w2 + tail, IsSpace)), IsSpace) == q1 + k + q2
  {
    var line := q1 + k + q2;
    QuotedLine(k, q1, q2);
    assert w1 + q1 + k + q2 + w2 + tail == w1 + (line + (w2 + tail));
    StrippedFirstLine(w1, line, w2, tail, IsSpace);
  }

  /** A keyword in quotes: a nonempty line, neither end blank. */
  lemma {:induction false} QuotedLine(k: string, q1: string, q2: string)
    requires k != [] && '\n' !in k && BareEnds(k, IsSpace)
    requires AllIn(q1, IsQuote) && AllIn(q2, IsQuote)
    ensures var line := q1 + k + q2;
      line != [] && BareEnds(line, IsSpace) && '\n' !in line
  {
    var line := q1 + k + q2;
    assert line[0] == (if q1 == [] then k[0] else q1[0]);
    assert line[|line| - 1] == (if q2 == [] then k[|k| - 1] else q2[|q2| - 1]);
    forall t | 0 <= t < |line| ensures line[t] != '\n' {
      if t < |q1| { assert IsQuote(q1[t]); }
      else if t < |q1| + |k| { assert line[t] == k[t - |q1|]; }
      else { assert IsQuote(q2[t - |q1| - |k|]); }
    }
  }

  /**
   * Stripping (by any class of blanks) the first line of the stripped
   * reply gives back the line.
   */
  lemma {:induction false} StrippedFirstLine(w1: string, line: string, w2: string, tail: string, sp: char -> bool)
    requires line != [] && BareEnds(line, sp) && '\n' !in line
    requires AllIn(w1, sp) && AllIn(w2, sp) && '\n' !in w2
    requires tail == [] || tail[0] == '\n'
    ensures Strip(FirstLine(Strip(w1 + (line + (w2 + tail)), sp)), sp) == line
  {
    var first := FirstLine(Strip(w1 + (line + (w2 + tail)), sp));
    FirstLineOfReply(w1, line, w2, tail, sp);
    StripBlankTail(first, line, sp);
  }

  /** The first line of the stripped reply is the keyword line and then only blanks. */
  lemma {:induction false} FirstLineOfReply(w1: string, line: string, w2: string, tail: string, sp: char -> bool)
    requires line != [] && BareEnds(line, sp) && '\n' !in line
    requires AllIn(w1, sp) && AllIn(w2, sp) && '\n' !in w2
    requires tail == [] || tail[0] == '\n'
    ensures var first := FirstLine(Strip(w1 + (line + (w2 + tail)), sp));
      StartsWith(first, line) && AllIn(first[|line|..], sp)
  {
    var rest := w2 + tail;
    var after := StripTail(w1, line, rest, sp);
    FirstLineOfPadded(line, after, w2, tail, sp);
  }

  /** The first line of `line + after`, where `after` starts the blanks `w2` and then `tail`. */
  lemma {:induction false} FirstLineOfPadded(line: string, after: string, w2: string, tail: string, sp: char -> bool)
    requires '\n' !in line
    requires AllIn(w2, sp) && '\n' !in w2
    requires tail == [] || tail[0] == '\n'
    requires |after| <= |w2| + |tail| && after == (w2 + tail)[..|after|]
    ensures var first := FirstLine(line + after);
      StartsWith(first, line) && AllIn(first[|line|..], sp)
  {
    FirstLineAfter(line, after);
    BlankFirstLine(after, w2, tail, sp);
    var first := line + FirstLine(after);
    assert first[..|line|] == line && first[|line|..] == FirstLine(after);
  }

  /** Stripping `w1 + line + rest` keeps `line` at the front followed by a prefix of `rest`. */
  lemma {:induction false} StripTail(w1: string, line: string, rest: string, sp: char -> bool) returns (after: string)
    requires AllIn(w1, sp)
    requires line != [] && BareEnds(line, sp)
    ensures |after| <= |rest| && after == rest[..|after|]
    ensures Strip(w1 + (line + rest), sp) == line + after
  {
    var t := line + rest;
    assert TrimStart(w1 + t, sp) == t by {
      assert t[0] == line[0];
      TrimStartAfterPad(w1, t, sp);
    }
    var r := TrimEnd(t, sp);
    assert Strip(w1 + t, sp) == r;
    TrimEndKeepsFront(line, rest, sp);
    after := rest[..|r| - |line|];
  }

  /** The first line of a prefix of `w2 + tail` lies within the blanks `w2`. */
  lemma {:induction false} BlankFirstLine(after: string, w2: string, tail: string, sp: char -> bool)
    requires AllIn(w2, sp) && '\n' !in w2
    requires tail == [] || tail[0] == '\n'
    requires |after| <= |w2| + |tail| && after == (w2 + tail)[..|after|]
    ensures AllIn(FirstLine(after), sp)
  {
    var r := FirstLine(after);
    FirstLineFacts(after);
    assert |after| > |w2| ==> after[|w2|] == tail[0] == '\n';
    assert forall t :: 0 <= t < |r| ==> after[t] == r[t] != '\n';
    assert |r| <= |w2|;
    forall t | 0 <= t < |r| ensures sp(r[t]) {
      assert r[t] == after[t] == w2[t];
    }
  }
}
