/**
 * The file classification of components/FileImportButton.tsx: `getFileType`
 * maps a picked document's MIME type and name to one of seven type labels,
 * and the imported `FileData` record carries that label. The picker, the
 * copy into the app's directory and the upload are not part of this model.
 */
module FileImport {
  import Text
  import Desk

  /** One test of the chain: the MIME type mentions `keyword`, or the extension is one of `extensions`. */
  datatype Rule = Rule(fileType: string, keyword: string, extensions: set<string>)

  /** The tests of `getFileType`, in the order they are tried. */
  const Rules: seq<Rule> := [
    Rule("PDF Document", "pdf", {"pdf"}),
    Rule("Word Document", "word", {"docx", "doc"}),
    Rule("Text Document", "text", {"txt"}),
    Rule("Image", "image", {"jpg", "jpeg", "png", "gif"}),
    Rule("Excel File", "excel", {"xlsx", "xls"}),
    Rule("PowerPoint", "powerpoint", {"pptx", "ppt"})
  ]

  /** The label of a document no test recognises. */
  const Fallback: string := "Document"

  const Labels: set<string> :=
    {"PDF Document", "Word Document", "Text Document", "Image", "Excel File", "PowerPoint", "Document"}

  predicate Matches(rule: Rule, mimeType: string, extension: string) {
    Text.Includes(mimeType, rule.keyword) || extension in rule.extensions
  }

  /** Reference reading of the chain: the type label of the first rule that matches, else the fallback. */
  function FirstMatch(rules: seq<Rule>, mimeType: string, extension: string): string {
    if rules == [] then Fallback
    else if Matches(rules[0], mimeType, extension) then rules[0].fileType
    else FirstMatch(rules[1..], mimeType, extension)
  }

  /** `getFileType`: the tests of the chain tried in order on the lower-cased last extension. */
  function GetFileType(mimeType: string, name: string): (r: string)
    ensures r in Labels
  {
    LabelsOfRules(mimeType, Text.Extension(name));
    FirstMatch(Rules, mimeType, Text.Extension(name))
  }

  /** The result is the fallback or the type label of one of the rules. */
  lemma {:induction false} FirstMatchIsALabel(rules: seq<Rule>, mimeType: string, extension: string)
    ensures var r := FirstMatch(rules, mimeType, extension);
      r == Fallback || exists j :: 0 <= j < |rules| && rules[j].fileType == r
  {
    if rules != [] && !Matches(rules[0], mimeType, extension) {
      FirstMatchIsALabel(rules[1..], mimeType, extension);
      var r := FirstMatch(rules, mimeType, extension);
      if r != Fallback {
        var j :| 0 <= j < |rules[1..]| && rules[1..][j].fileType == r;
        assert rules[j + 1].fileType == r;
      }
    }
  }

  lemma LabelsOfRules(mimeType: string, extension: string)
    ensures FirstMatch(Rules, mimeType, extension) in Labels
  {
    FirstMatchIsALabel(Rules, mimeType, extension);
    assert forall j :: 0 <= j < |Rules| ==> Rules[j].fileType in Labels;
  }

  /** The first rule that matches decides, whatever later rules would say. */
  lemma {:induction false} FirstMatchAt(rules: seq<Rule>, mimeType: string, extension: string, i: nat)
    requires i < |rules| && Matches(rules[i], mimeType, extension)
    requires forall j :: 0 <= j < i ==> !Matches(rules[j], mimeType, extension)
    ensures FirstMatch(rules, mimeType, extension) == rules[i].fileType
  {
    if i > 0 {
      assert !Matches(rules[0], mimeType, extension);
      FirstMatchAt(rules[1..], mimeType, extension, i - 1);
    }
  }

  /** With no rule matching, the result is the fallback. */
  lemma {:induction false} NoMatchIsFallback(rules: seq<Rule>, mimeType: string, extension: string)
    requires forall j :: 0 <= j < |rules| ==> !Matches(rules[j], mimeType, extension)
    ensures FirstMatch(rules, mimeType, extension) == Fallback
  {
    if rules != [] {
      assert !Matches(rules[0], mimeType, extension);
      NoMatchIsFallback(rules[1..], mimeType, extension);
    }
  }

  /** The label is that of the earliest matching rule of the table, or "Document" when none matches. */
  lemma FileTypeIsEarliestMatch(mimeType: string, name: string, i: nat)
    requires i < |Rules| && Matches(Rules[i], mimeType, Text.Extension(name))
    requires forall j :: 0 <= j < i ==> !Matches(Rules[j], mimeType, Text.Extension(name))
    ensures GetFileType(mimeType, name) == Rules[i].fileType
  {
    FirstMatchAt(Rules, mimeType, Text.Extension(name), i);
  }

  /** Every test of the table has a nonempty keyword. */
  lemma KeywordsNonEmpty()
    ensures forall j :: 0 <= j < |Rules| ==> |Rules[j].keyword| > 0
  {
  }

  /** With an empty MIME type and nonempty keywords, the first rule listing the extension decides. */
  lemma FirstExtensionMatch(rules: seq<Rule>, extension: string, i: nat)
    requires forall j :: 0 <= j < |rules| ==> |rules[j].keyword| > 0
    requires i < |rules| && extension in rules[i].extensions
    requires forall j :: 0 <= j < i ==> extension !in rules[j].extensions
    ensures FirstMatch(rules, "", extension) == rules[i].fileType
  {
    forall j | 0 <= j < i
      ensures !Matches(rules[j], "", extension)
    {
      Text.EmptyIncludesNothing(rules[j].keyword);
    }
    FirstMatchAt(rules, "", extension, i);
  }

  /** With no MIME type, as for a file made on the desk, the extension alone decides. */
  lemma ByExtensionOnly(name: string, i: nat)
    requires i < |Rules| && Text.Extension(name) in Rules[i].extensions
    requires forall j :: 0 <= j < i ==> Text.Extension(name) !in Rules[j].extensions
    ensures GetFileType("", name) == Rules[i].fileType
  {
    KeywordsNonEmpty();
    FirstExtensionMatch(Rules, Text.Extension(name), i);
  }

  lemma UnmatchedIsDocument(mimeType: string, name: string)
    requires forall j :: 0 <= j < |Rules| ==> !Matches(Rules[j], mimeType, Text.Extension(name))
    ensures GetFileType(mimeType, name) == "Document"
  {
    NoMatchIsFallback(Rules, mimeType, Text.Extension(name));
  }

  /** There are exactly seven labels, and every result is one of them. */
  lemma SevenLabels(mimeType: string, name: string)
    ensures |Labels| == 7
    ensures GetFileType(mimeType, name) in Labels
  {
  }

  /** The PDF test comes first: a `pdf` extension or a MIME type mentioning `pdf` beats every other test. */
  lemma PdfWins(mimeType: string, name: string)
    requires Text.Includes(mimeType, "pdf") || Text.Extension(name) == "pdf"
    ensures GetFileType(mimeType, name) == "PDF Document"
  {
    FileTypeIsEarliestMatch(mimeType, name, 0);
  }

  /** A `text/plain` upload named `notes.pdf` is filed as a PDF, not as text. */
  lemma TextPlainPdfIsPdf()
    ensures GetFileType("text/plain", "notes.pdf") == "PDF Document"
  {
    assert "notes.pdf" == "notes" + "." + "pdf";
    Text.LastSegmentOfDotted("notes", "pdf");
    var l := Text.AsciiLower("pdf");
    assert l[0] == 'p' && l[1] == 'd' && l[2] == 'f';
    assert l == "pdf";
    PdfWins("text/plain", "notes.pdf");
  }

  /** The `importedFile` record: the picked name, its classified type, and the size and date computed by the caller. */
  function ImportedFile(name: string, mimeType: string, size: string, date: string): (r: Desk.FileData)
    ensures r.name == name && r.size == size && r.date == date
    ensures r.fileType == GetFileType(mimeType, name)
    ensures r.fileType in Labels
    ensures Text.Extension(name) == "pdf" ==> r.fileType == "PDF Document"
  {
    Desk.FileData(name, GetFileType(mimeType, name), size, date)
  }
}
