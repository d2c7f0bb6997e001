/** The text `searchHistory` in db.ts makes of the rows its query returns:
    a fixed message when there are none, otherwise one numbered entry per row
    separated by blank lines. The SQL query itself is not part of this model;
    the rows are an input. */
module History {
  import opened Text

  /** One row of the `research` table, with the columns the query selects. */
  datatype Row = Row(query: string, answer: string, credibility: string, sources: string, timestamp: string)

  const NoMatchReply := "No matching research found."

  /** How much of an answer an entry shows. */
  const AnswerLength := 300

  /** `answer.slice(0, 300)` followed by "..." when the answer is longer. */
  function AnswerPart(answer: string): string
  {
    Abbreviate(answer, AnswerLength)
  }

  /** The sources line, present only for a non-empty `sources`. */
  function SourcesLine(sources: string): string
  {
    if sources != "" then "\nSources: " + sources else ""
  }

  /** Everything an entry shows before the answer: number, timestamp,
      credibility and question. */
  function EntryHead(n: nat, r: Row): string
  {
    "[" + NatToString(n) + "] " + r.timestamp + " [credibility: " + r.credibility + "]\nQ: " + r.query + "\nA: "
  }

  /** The entry for row `r` shown as number `n`. */
  function Entry(n: nat, r: Row): string
  {
    EntryHead(n, r) + AnswerPart(r.answer) + SourcesLine(r.sources)
  }

  /** `rows.map((r, i) => …)`: row `i` becomes entry number `i + 1`. */
  function Entries(rows: seq<Row>): seq<string>
  {
    seq(|rows|, i requires 0 <= i < |rows| => Entry(i + 1, rows[i]))
  }

  /** `searchHistory` after the query has returned `rows`. */
  function RenderHistory(rows: seq<Row>): string
  {
    if |rows| == 0 then NoMatchReply else Join(Entries(rows), "\n\n")
  }

  // ---------------------------------------------------------------------------
  // Properties
  // ---------------------------------------------------------------------------

  /** The fixed message is returned exactly when there are no rows: every
      entry starts with "[", the message does not. */
  lemma RenderHistoryEmptyIff(rows: seq<Row>)
    ensures RenderHistory(rows) == NoMatchReply <==> rows == []
  {
    if rows != [] {
      var es := Entries(rows);
      JoinHead(es, "\n\n");
      assert es[0][0] == '[';
      assert RenderHistory(rows)[0] == '[';
    }
  }

  /** One more row adds a blank line and that row's entry, numbered one past
      the previous rows, at the end: entries keep row order and are numbered
      1, 2, 3, … */
  lemma RenderHistoryAppend(rows: seq<Row>, r: Row)
    requires rows != []
    ensures RenderHistory(rows + [r]) == RenderHistory(rows) + "\n\n" + Entry(|rows| + 1, r)
  {
    assert Entries(rows + [r]) == Entries(rows) + [Entry(|rows| + 1, r)];
    JoinAppend(Entries(rows), Entry(|rows| + 1, r), "\n\n");
  }

  /** A single row renders as its entry numbered 1. */
  lemma RenderHistorySingle(r: Row)
    ensures RenderHistory([r]) == Entry(1, r)
  {
    assert Entries([r]) == [Entry(1, r)];
  }

  /** An entry opens with "[", the decimal number `n`, "] " and the
      timestamp. The number is written in digits only, so the first "]" ends
      it, and it reads back as `n`. */
  lemma EntryNumber(n: nat, r: Row)
    ensures var d := NatToString(n);
            "[" + d + "] " + r.timestamp <= Entry(n, r)
            && |d| > 0 && (forall i :: 0 <= i < |d| ==> IsDigit(d[i])) && ParseDecimal(d) == n
  {
    NatToStringRoundTrip(n);
    var d := NatToString(n);
    var rest := " [credibility: " + r.credibility + "]\nQ: " + r.query + "\nA: "
                + AnswerPart(r.answer) + SourcesLine(r.sources);
    assert Entry(n, r) == ("[" + d + "] " + r.timestamp) + rest;
  }

  /** The answer part is the whole answer when it has at most 300 characters,
      otherwise its first 300 characters and "..."; it never exceeds 303. */
  lemma AnswerPartShape(answer: string)
    ensures |AnswerPart(answer)| <= 303
    ensures |answer| <= 300 ==> AnswerPart(answer) == answer
    ensures |answer| > 300 ==> AnswerPart(answer) == answer[..300] + "..."
  {
    var a := AnswerPart(answer);
    if |answer| > 300 {
      assert a == a[..300] + a[300..];
    }
  }

  /** An entry ends with the sources line exactly when `sources` is
      non-empty; otherwise it ends with the answer part. */
  lemma EntryTail(n: nat, r: Row)
    ensures r.sources != "" ==> EndsWith(Entry(n, r), "\nSources: " + r.sources)
    ensures r.sources == "" ==> EndsWith(Entry(n, r), "\nA: " + AnswerPart(r.answer))
    ensures EntryHead(n, r) <= Entry(n, r)
  {
    var e := Entry(n, r);
    var head := EntryHead(n, r);
    assert e == head + AnswerPart(r.answer) + SourcesLine(r.sources);
    if r.sources != "" {
      var tail := "\nSources: " + r.sources;
      assert e[|e| - |tail|..] == tail;
    } else {
      var tail := "\nA: " + AnswerPart(r.answer);
      assert head[|head| - 4..] == "\nA: ";
      assert e == head + AnswerPart(r.answer);
      assert e[|e| - |tail|..] == tail;
    }
  }
}
