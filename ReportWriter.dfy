/**
 * `save_summary`: the file name and the Markdown document written for one summarised video.
 * The summariser's `outputs` object is read with defaults: a missing `summary` is "" and
 * missing `keywords` is the empty list.
 */
module ReportWriter {
  import opened Wrappers
  import Filenames
  import Seqs

  /** The two fields read from the summariser's `outputs`, each possibly absent. */
  datatype SummaryData = SummaryData(summary: Option<string>, keywords: Option<seq<string>>)

  /** The number of characters in all of `parts`. */
  function TotalLength(parts: seq<string>): nat
  {
    if parts == [] then 0 else |parts[0]| + TotalLength(parts[1..])
  }

  /**
   * `sep.join(parts)`: every part, in order, with one separator between neighbours and none
   * before the first or after the last.
   */
  function Join(parts: seq<string>, sep: string): (r: string)
    ensures parts == [] ==> r == ""
    ensures parts != [] ==> |r| == TotalLength(parts) + (|parts| - 1) * |sep|
    ensures parts != [] ==> r[..|parts[0]|] == parts[0]
  {
    if parts == [] then ""
    else if |parts| == 1 then parts[0]
    else parts[0] + sep + Join(parts[1..], sep)
  }

  /**
   * `f"{date_str}-{channel_name}-{sanitized_title}.md"`: it starts with the date, ends with
   * `.md`, and is at most five characters longer than its three parts.
   */
  function Filename(dateStr: string, channel: string, title: string): (r: string)
    ensures |dateStr| + |channel| + 5 <= |r| <= |dateStr| + |channel| + |title| + 5
    ensures r[..|dateStr|] == dateStr
    ensures r[|r| - 3..] == ".md"
  {
    dateStr + "-" + channel + "-" + Filenames.Sanitize(title) + ".md"
  }

  /**
   * `os.path.join(directory, name)` on a POSIX system: an absolute name replaces the
   * directory; otherwise the directory comes first, then a `/` unless it already ends in
   * one (or is empty), then the name.
   */
  function PathJoin(directory: string, name: string): (r: string)
    ensures |r| >= |name| && r[|r| - |name|..] == name
    ensures |name| > 0 && name[0] == '/' ==> r == name
    ensures !(|name| > 0 && name[0] == '/') ==>
      |r| >= |directory| && r[..|directory|] == directory
      && |r| - |name| - |directory| == (if directory == [] || directory[|directory| - 1] == '/' then 0 else 1)
      && (|r| - |name| - |directory| == 1 ==> r[|directory|] == '/')
  {
    if |name| > 0 && name[0] == '/' then name
    else if directory == [] || directory[|directory| - 1] == '/' then directory + name
    else directory + "/" + name
  }

  /** `summary_data.get("summary", "")`. */
  function SummaryText(data: SummaryData): (r: string)
    ensures data.summary.None? ==> r == ""
    ensures data.summary.Some? ==> r == data.summary.value
  {
    data.summary.GetOr("")
  }

  /** `", ".join(summary_data.get("keywords", []))`. */
  function KeywordsText(data: SummaryData): (r: string)
    ensures data.keywords.None? || data.keywords.value == [] ==> r == ""
    ensures data.keywords.Some? && data.keywords.value != [] ==>
      |r| == TotalLength(data.keywords.value) + 2 * (|data.keywords.value| - 1)
      && r[..|data.keywords.value[0]|] == data.keywords.value[0]
  {
    Join(data.keywords.GetOr([]), ", ")
  }

  const TitleLine: string := "# YouTube 영상 요약"
  const LinkLabel: string := "- **링크**: "
  const DateLabel: string := "- **요약 날짜**: "
  const SummaryHeading: string := "## 📋 요약 내용"
  const KeywordsHeading: string := "## 🔑 주요 키워드"

  /**
   * The document template: eleven lines, each ended by a newline. It opens with the title
   * heading line and ends with a newline.
   */
  function Render(url: string, dateStr: string, data: SummaryData): (r: string)
    ensures |r| > |TitleLine| && r[..|TitleLine| + 1] == TitleLine + "\n"
    ensures r[|r| - 1] == '\n'
  {
    Terminated([TitleLine, "", LinkLabel + url, DateLabel + dateStr, "", SummaryHeading, "",
                SummaryText(data), "", KeywordsHeading, KeywordsText(data)])
  }

  /** Each line followed by a newline. */
  function Terminated(lines: seq<string>): (r: string)
    ensures lines == [] <==> r == ""
    ensures lines != [] ==> r[|r| - 1] == '\n'
  {
    if lines == [] then "" else lines[0] + "\n" + Terminated(lines[1..])
  }

  /** Adding a keyword appends the separator and that keyword. */
  lemma {:induction false} JoinSnoc(parts: seq<string>, p: string, sep: string)
    requires parts != []
    ensures Join(parts + [p], sep) == Join(parts, sep) + sep + p
  {
    if |parts| == 1 {
      assert (parts + [p])[1..] == [p];
    } else {
      assert (parts + [p])[1..] == parts[1..] + [p];
      JoinSnoc(parts[1..], p, sep);
    }
  }

  /** A list of keywords is joined by ", ". */
  lemma KeywordsJoined()
    ensures KeywordsText(SummaryData(None, Some(["a", "b"]))) == "a, b"
  {
    JoinSnoc(["a"], "b", ", ");
    assert ["a"] + ["b"] == ["a", "b"];
  }

  /**
   * Missing `summary` and `keywords` do not fail: both section headings are still
   * rendered, each followed by an empty body.
   */
  lemma MissingFieldsRender(url: string, dateStr: string)
    requires HasNoNewline(url) && HasNoNewline(dateStr)
    ensures Lines(Render(url, dateStr, SummaryData(None, None)))
         == [TitleLine, "", LinkLabel + url, DateLabel + dateStr, "", SummaryHeading, "", "", "", KeywordsHeading, "", ""]
  {
    var data := SummaryData(None, None);
    assert SummaryText(data) == "" && KeywordsText(data) == "";
    RenderLines(url, dateStr, data);
    assert Lines("") == [""];
  }

  /** The file name is the date, the channel and the sanitized title, each followed by the next separator. */
  lemma FilenameParts(dateStr: string, channel: string, title: string)
    ensures var f, n := Filename(dateStr, channel, title), |dateStr| + |channel| + 2;
      |f| == n + |Filenames.Sanitize(title)| + 3
      && f[..|dateStr|] == dateStr && f[|dateStr|] == '-'
      && f[|dateStr| + 1..n - 1] == channel && f[n - 1] == '-'
      && f[n..|f| - 3] == Filenames.Sanitize(title) && f[|f| - 3..] == ".md"
  {
  }

  /**
   * Two titles give the same file on the same day in the same channel exactly when
   * they sanitize to the same text; the later write then replaces the earlier file.
   */
  lemma FilenameCollision(dateStr: string, channel: string, t1: string, t2: string)
    ensures Filename(dateStr, channel, t1) == Filename(dateStr, channel, t2)
            <==> Filenames.Sanitize(t1) == Filenames.Sanitize(t2)
  {
    FilenameParts(dateStr, channel, t1);
    FilenameParts(dateStr, channel, t2);
  }

  /** A file name with its title already clean. */
  lemma FilenameOfClean(dateStr: string, channel: string, title: string, clean: string)
    requires Filenames.Sanitize(title) == clean
    ensures Filename(dateStr, channel, title) == dateStr + "-" + channel + "-" + clean + ".md"
  {
  }

  lemma DemoName()
    ensures "2024-05-01" + "-" + "Demo" + "-" + "Test Video" + ".md" == "2024-05-01-Demo-Test Video.md"
  {
  }

  /** The report of "Test: Video?" in channel Demo. */
  lemma FilenameExample()
    ensures Filename("2024-05-01", "Demo", "Test: Video?") == "2024-05-01-Demo-Test Video.md"
  {
    Filenames.SanitizeExample();
    FilenameOfClean("2024-05-01", "Demo", "Test: Video?", "Test Video");
    DemoName();
  }

  /** With a date and a channel name free of illegal characters, the whole file name is free of them. */
  lemma FilenameIsClean(dateStr: string, channel: string, title: string)
    requires Filenames.IsClean(dateStr) && Filenames.IsClean(channel)
    ensures Filenames.IsClean(Filename(dateStr, channel, title))
  {
    var f := Filename(dateStr, channel, title);
    var san := Filenames.Sanitize(title);
    forall i | 0 <= i < |f| ensures !Filenames.IsIllegal(f[i]) {
      if i < |dateStr| {
        assert f[i] == dateStr[i];
      } else if i < |dateStr| + 1 + |channel| + 1 && i != |dateStr| && i != |dateStr| + |channel| + 1 {
        assert f[i] == channel[i - |dateStr| - 1];
      } else if |dateStr| + |channel| + 2 <= i < |f| - 3 {
        assert f[i] == san[i - |dateStr| - |channel| - 2];
      }
    }
  }

  // ---------------------------------------------------------------------------------
  // Reading a document back as lines

  /** `s.split("\n")`: the lines of `s`; a trailing newline leaves an empty last line. */
  function Lines(s: string): (r: seq<string>)
    ensures |r| >= 1
  {
    if s == [] then [""]
    else if s[0] == '\n' then [""] + Lines(s[1..])
    else
      var rest := Lines(s[1..]);
      [[s[0]] + rest[0]] + rest[1..]
  }

  /** Splitting at a newline splits the line list there. */
  lemma {:induction false} LinesAppend(a: string, b: string)
    ensures Lines(a + "\n" + b) == Lines(a) + Lines(b)
  {
    if a == [] {
      assert a + "\n" + b == "\n" + b;
      assert ("\n" + b)[1..] == b;
    } else {
      var s := a + "\n" + b;
      assert s[0] == a[0];
      assert s[1..] == a[1..] + "\n" + b;
      LinesAppend(a[1..], b);
    }
  }

  predicate HasNoNewline(s: string)
  {
    forall i :: 0 <= i < |s| ==> s[i] != '\n'
  }

  lemma {:induction false} LinesSingle(s: string)
    requires HasNoNewline(s)
    ensures Lines(s) == [s]
  {
    if s != [] {
      assert HasNoNewline(s[1..]) by {
        forall i | 0 <= i < |s[1..]| ensures s[1..][i] != '\n' {
          assert s[1..][i] == s[i + 1];
        }
      }
      LinesSingle(s[1..]);
      assert [s[0]] + s[1..] == s;
    }
  }

  /** Terminating two runs of lines one after the other. */
  lemma {:induction false} TerminatedAppend(a: seq<string>, b: seq<string>)
    ensures Terminated(a + b) == Terminated(a) + Terminated(b)
  {
    if a == [] {
      assert a + b == b;
    } else {
      assert (a + b)[1..] == a[1..] + b;
      TerminatedAppend(a[1..], b);
    }
  }

  /** Newline-terminated single lines in front of `rest` come back as they are, then the lines of `rest`. */
  lemma {:induction false} LinesAfterSingles(ls: seq<string>, rest: string)
    requires forall k :: 0 <= k < |ls| ==> HasNoNewline(ls[k])
    ensures Lines(Terminated(ls) + rest) == ls + Lines(rest)
  {
    if ls == [] {
      assert Terminated(ls) + rest == rest;
    } else {
      var later := Terminated(ls[1..]) + rest;
      assert Terminated(ls) + rest == ls[0] + "\n" + later;
      assert Lines(ls[0] + "\n" + later) == [ls[0]] + Lines(later) by {
        LinesAppend(ls[0], later);
        LinesSingle(ls[0]);
      }
      assert Lines(later) == ls[1..] + Lines(rest) by {
        forall k | 0 <= k < |ls[1..]| ensures HasNoNewline(ls[1..][k]) {
          assert ls[1..][k] == ls[k + 1];
        }
        LinesAfterSingles(ls[1..], rest);
      }
      Seqs.AppendAssoc([ls[0]], ls[1..], Lines(rest));
      assert [ls[0]] + ls[1..] == ls;
    }
  }

  lemma LabelledLine(prefix: string, value: string)
    requires HasNoNewline(prefix) && HasNoNewline(value)
    ensures HasNoNewline(prefix + value)
  {
    var s := prefix + value;
    forall i | 0 <= i < |s| ensures s[i] != '\n' {
      if i < |prefix| { assert s[i] == prefix[i]; } else { assert s[i] == value[i - |prefix|]; }
    }
  }

  lemma TemplateConstants()
    ensures HasNoNewline(TitleLine) && HasNoNewline(LinkLabel) && HasNoNewline(DateLabel)
    ensures HasNoNewline(SummaryHeading) && HasNoNewline(KeywordsHeading)
  {
  }

  /**
   * The document's lines: the title heading, a blank line, the link line, the date line,
   * the summary heading and a blank line followed by the summary text, then a blank line,
   * the keywords heading followed directly by the keyword text, and a final newline.
   * Both headings are present even when the summary or the keyword list is empty.
   */
  lemma RenderLines(url: string, dateStr: string, data: SummaryData)
    requires HasNoNewline(url) && HasNoNewline(dateStr)
    ensures Lines(Render(url, dateStr, data))
         == [TitleLine, "", LinkLabel + url, DateLabel + dateStr, "", SummaryHeading, ""]
            + Lines(SummaryText(data)) + ["", KeywordsHeading] + Lines(KeywordsText(data)) + [""]
  {
    var link, date := LinkLabel + url, DateLabel + dateStr;
    var sum, kw := SummaryText(data), KeywordsText(data);
    var head := [TitleLine, "", link, date, "", SummaryHeading, ""];
    var middle := ["", KeywordsHeading];
    TemplateConstants();
    LabelledLine(LinkLabel, url);
    LabelledLine(DateLabel, dateStr);
    // The text after the summary: the two middle lines, then the keywords line.
    var tail := Terminated(middle) + (kw + "\n" + "");
    assert Terminated(middle + [kw]) == tail by {
      TerminatedAppend(middle, [kw]);
      assert Terminated([kw]) == kw + "\n" + Terminated([]);
    }
    assert Render(url, dateStr, data) == Terminated(head) + (sum + "\n" + tail) by {
      var rest := [sum] + (middle + [kw]);
      assert head + rest == [TitleLine, "", link, date, "", SummaryHeading, "", sum, "", KeywordsHeading, kw];
      TerminatedAppend(head, rest);
      assert rest[1..] == middle + [kw];
    }
    assert Lines(tail) == middle + (Lines(kw) + [""]) by {
      LinesAfterSingles(middle, kw + "\n" + "");
      LinesAppend(kw, "");
    }
    LinesAfterSingles(head, sum + "\n" + tail);
    LinesAppend(sum, tail);
    Seqs.AppendAssoc5(head, Lines(sum), middle, Lines(kw), [""]);
  }

}
