/**
 * The sample text the import page offers (`getImportExample`): one week header followed by
 * three days of logged exercises. Its first line is a week header, so the history parser
 * accepts it.
 */
module HistoryExample {
  import opened Wrappers
  import opened Text
  import opened Segment
  import opened Types
  import opened Blocks
  import opened HistoryParser

  /** The sample's first line. */
  const WeekLine: string := "Тиждень: 25.08.2024 - 31.08.2024"

  /** The sample's lines after the week header: the three days. */
  const DayLines: seq<string> := [
    "",
    "День 1",
    "1. Присідання зі штангою – 3×8-12",
    "100 кг × 12",
    "100 кг × 10",
    "100 кг × 8",
    "",
    "2. Жим ногами – 3×10-15",
    "150 кг × 15",
    "150 кг × 12",
    "150 кг × 10",
    "",
    "3. Згинання ніг сидячи у тренажері – 3×10-15",
    "27 кг × 12",
    "32 кг × 10",
    "32 кг × 10",
    "",
    "4. Випади з гантелями – 3×10-12",
    "14 кг × 12",
    "16 кг × 10",
    "16 кг × 10",
    "",
    "5. Підйом на носки стоячи (ікра) – 3×15-20",
    "40 кг × 20",
    "50 кг × 18",
    "50 кг × 15",
    "",
    "День 2",
    "1. Жим штанги лежачи – 3×8-12",
    "80 кг × 12",
    "80 кг × 10",
    "80 кг × 8",
    "",
    "2. Розведення гантелей лежачи – 3×10-15",
    "16 кг × 15",
    "16 кг × 12",
    "16 кг × 10",
    "",
    "3. Жим гантелей сидячи – 3×8-12",
    "15 кг × 12",
    "17.5 кг × 10",
    "17.5 кг × 8",
    "",
    "4. Махи гантелями в сторони – 3×12-15",
    "5 кг × 15",
    "5 кг × 12",
    "5 кг × 12",
    "",
    "5. Французький жим лежачи – 3×8-12",
    "15 кг × 12",
    "17.5 кг × 10",
    "17.5 кг × 8",
    "",
    "День 3",
    "1. Віджимання від підлоги – 3×макс",
    "20",
    "18",
    "15",
    "",
    "2. Підтягування – 3×макс",
    "10",
    "8",
    "6",
    "",
    "3. Тяга верхнього блока – 3×10-12",
    "41 кг × 12",
    "45 кг × 10",
    "50 кг × 8",
    "",
    "4. Тяга однієї гантелі під нахилом – 3×8-12",
    "17.5 кг × 12",
    "20 кг × 10",
    "22.5 кг × 8",
    "",
    "5. Молотки – 3×8-12",
    "8 кг × 12",
    "10 кг × 10",
    "10 кг × 8"
  ]

  /** `getImportExample()`: the week header, then the days' lines, each on a line of its own. */
  const ImportExample: string := WeekLine + "\n" + Join(DayLines, '\n')

  /** Replacing CRLF leaves a head without carriage returns as it is. */
  lemma {:induction false} ReplaceCrLfKeepsHead(h: string, t: string)
    requires '\r' !in h
    ensures ReplaceCrLf(h + t) == h + ReplaceCrLf(t)
    decreases |h|
  {
    if |h| == 0 {
      assert h + t == t;
    } else {
      var s := h + t;
      assert h[0] in h;
      assert s[0] == h[0] && s[1..] == h[1..] + t;
      assert ReplaceCrLf(s) == [h[0]] + ReplaceCrLf(h[1..] + t);
      ReplaceCrLfKeepsHead(h[1..], t);
      Associate([h[0]], h[1..], ReplaceCrLf(t));
      assert [h[0]] + h[1..] == h;
    }
  }

  /** Collapsing blank lines leaves a head without line feeds as it is. */
  lemma {:induction false} CollapseKeepsHead(h: string, t: string)
    requires '\n' !in h
    ensures CollapseBlankLines(h + t) == h + CollapseBlankLines(t)
    decreases |h|
  {
    if |h| == 0 {
      assert h + t == t;
    } else {
      var s := h + t;
      assert h[0] in h;
      assert s[0] == h[0] && s[1..] == h[1..] + t;
      assert CollapseBlankLines(s) == [h[0]] + CollapseBlankLines(h[1..] + t);
      CollapseKeepsHead(h[1..], t);
      Associate([h[0]], h[1..], CollapseBlankLines(t));
      assert [h[0]] + h[1..] == h;
    }
  }

  /** Trimming keeps a head that starts and ends with a character other than a space. */
  lemma TrimKeepsHead(h: string, t: string)
    requires |h| > 0 && !IsSpace(h[0]) && !IsSpace(h[|h| - 1])
    ensures |h| <= |Trim(h + t)| && Trim(h + t)[..|h|] == h
  {
    var s := h + t;
    RunEndIs(s, 0, 0, Spaces);
    var r := Trim(s);
    assert !IsSpace(s[|h| - 1]);
    assert r == s[..|r|];
  }

  /** Cleaning keeps a first line that has no surrounding space. */
  lemma CleanTextKeepsHead(h: string, t: string)
    requires '\r' !in h && '\n' !in h
    requires |h| > 0 && !IsSpace(h[0]) && !IsSpace(h[|h| - 1])
    ensures |h| <= |CleanText(h + t)| && CleanText(h + t)[..|h|] == h
  {
    ReplaceCrLfKeepsHead(h, t);
    CollapseKeepsHead(h, ReplaceCrLf(t));
    TrimKeepsHead(h, CollapseBlankLines(ReplaceCrLf(t)));
  }

  lemma DateDigits()
    ensures DigitsValue("25") == 25 && DigitsValue("08") == 8 && DigitsValue("2024") == 2024
  {
    assert "25"[..1] == "2" && "08"[..1] == "0" && "2"[..0] == "" && "0"[..0] == "";
    assert "2024"[..3] == "202" && "202"[..2] == "20" && "20"[..1] == "2";
  }

  lemma WeekLineChars(c: string)
    requires |WeekLine| <= |c| && c[..|WeekLine|] == WeekLine
    ensures |WeekLine| == 32 && forall i :: 0 <= i < 32 ==> c[i] == WeekLine[i]
  {
    assert |WeekLine| == 32;
    forall i | 0 <= i < 32 ensures c[i] == WeekLine[i] {
      assert c[..32][i] == c[i];
    }
  }

  lemma KeywordAtStart(c: string)
    requires |WeekLine| <= |c| && c[..|WeekLine|] == WeekLine
    ensures MatchesAt(c, 0, "тиждень:") && RunEnd(c, 8, Spaces) == 9
  {
    WeekLineChars(c);
    assert c[0..8] == "Тиждень:";
    LowerKeyword();
    RunEndIs(c, 8, 9, Spaces);
  }

  lemma LowerKeyword()
    ensures Lower("Тиждень:") == "тиждень:"
  {
    assert Fold('Т') == 'т' && Fold('и') == 'и' && Fold('ж') == 'ж' && Fold('д') == 'д';
    assert Fold('е') == 'е' && Fold('н') == 'н' && Fold('ь') == 'ь' && Fold(':') == ':';
  }

  lemma StartDateAt(c: string)
    requires |WeekLine| <= |c| && c[..|WeekLine|] == WeekLine
    ensures DateAt(c, 9) == Some((WrittenDate(25, 8, 2024), 19))
  {
    WeekLineChars(c);
    assert c[9..11] == "25" by {
      assert c[9] == '2' && c[10] == '5';
    }
    assert c[12..14] == "08" by {
      assert c[12] == '0' && c[13] == '8';
    }
    assert c[11] == '.' && c[14] == '.';
    assert c[15..19] == "2024";
    DateDigits();
  }

  lemma DashAfterStart(c: string)
    requires |WeekLine| <= |c| && c[..|WeekLine|] == WeekLine
    ensures DashAt(c, 19) == Some(22)
  {
    WeekLineChars(c);
    RunEndIs(c, 19, 20, Spaces);
    RunEndIs(c, 21, 22, Spaces);
  }

  lemma EndDateAt(c: string)
    requires |WeekLine| <= |c| && c[..|WeekLine|] == WeekLine
    ensures DateAt(c, 22).Some? && DateAt(c, 22).value.1 == 32
  {
    WeekLineChars(c);
    assert c[22] == '3' && c[23] == '1' && c[24] == '.' && c[25] == '0' && c[26] == '8' && c[27] == '.';
    assert c[28..32] == "2024";
  }

  /** A text that starts with the sample's first line has a week header at 0 whose start is 25 August 2024. */
  lemma WeekHeaderAtStart(c: string)
    requires |WeekLine| <= |c| && c[..|WeekLine|] == WeekLine
    ensures WeekHeaderAt(c, 0) == Some(Hit(0, |WeekLine|, StartDate(WrittenDate(25, 8, 2024))))
  {
    KeywordAtStart(c);
    StartDateAt(c);
    DashAfterStart(c);
    EndDateAt(c);
  }

  /** Cleaning a text whose first line is the sample's week header leaves a week header at 0. */
  lemma WeekLineFirstCleaned(body: string)
    ensures MarkerAt(WeekHeader, CleanText(WeekLine + body), 0).Some?
  {
    assert '\r' !in WeekLine && '\n' !in WeekLine;
    CleanTextKeepsHead(WeekLine, body);
    WeekHeaderAtStart(CleanText(WeekLine + body));
  }

  /** Any text whose first line is the sample's week header parses without the error. */
  lemma WeekLineFirstParses(body: string, ids: IdSupply, next: nat)
    ensures HistoryParse(WeekLine + body, ids, next).Ok?
  {
    WeekLineFirstCleaned(body);
    HistoryParseFailsIff(WeekLine + body, ids, next);
  }

  /** `parseHistoryWorkouts(getImportExample())` does not throw. */
  lemma ImportExampleParses(ids: IdSupply, next: nat)
    ensures HistoryParse(ImportExample, ids, next).Ok?
  {
    var rest := Join(DayLines, '\n');
    Associate(WeekLine, "\n", rest);
    WeekLineFirstParses("\n" + rest, ids, next);
  }
}
