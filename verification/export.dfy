/**
 The plain-text export offered after a plan is shown: the name of the file
 to download and its contents, which are only a header naming the person and
 the date the plan was generated.
 */
module Export {
  import opened Wrappers
  import opened Text

  const FileNamePrefix := "treatment_plan_"
  const FileNameSuffix := ".txt"

  /** The download file name: the full name with its spaces turned into underscores. */
  function FileName(fullName: string): (r: string)
    ensures |r| == |FileNamePrefix| + |fullName| + |FileNameSuffix|
    ensures ' ' !in r
    ensures r[..|FileNamePrefix|] == FileNamePrefix
    ensures r[|r| - |FileNameSuffix|..] == FileNameSuffix
    ensures forall i :: 0 <= i < |fullName| ==>
      r[|FileNamePrefix| + i] == (if fullName[i] == ' ' then '_' else fullName[i])
  {
    ReplaceCharRemoves(fullName, ' ', '_');
    FileNamePrefix + ReplaceChar(fullName, ' ', '_') + FileNameSuffix
  }

  /** A name without spaces appears in its file name unchanged. */
  lemma FileNameKeepsSpacelessName(fullName: string)
    requires ' ' !in fullName
    ensures FileName(fullName)[|FileNamePrefix|..|FileName(fullName)| - |FileNameSuffix|] == fullName
  {
    ReplaceCharAbsent(fullName, ' ', '_');
  }

  const TitleLine := "Personalized Treatment Plan for "
  const DateLine := "\nGenerated on: "
  const Trailer := "\n\n"

  /** The exported text: a title naming the person, the generation date, and a blank line. */
  function Header(fullName: string, date: string): (r: string)
    ensures |r| == |TitleLine| + |fullName| + |DateLine| + |date| + |Trailer|
  {
    TitleLine + fullName + DateLine + date + Trailer
  }

  /**
   Reads a header back into the name and the date it carries, or None when
   the text does not have the header's shape.
   */
  function ParseHeader(text: string): (r: Option<(string, string)>)
    ensures r.Some? ==> Header(r.value.0, r.value.1) == text
  {
    if |text| < |TitleLine| + |Trailer|
       || text[..|TitleLine|] != TitleLine
       || text[|text| - |Trailer|..] != Trailer
    then None
    else
      var body := text[|TitleLine|..|text| - |Trailer|];
      var at := Find(body, DateLine);
      if at == -1 then None
      else
        var name := body[..at];
        var date := body[at + |DateLine|..];
        assert body == name + DateLine + date;
        assert text == TitleLine + body + Trailer;
        Some((name, date))
  }

  /**
   The header holds the name and the date and nothing else: both can be read
   back from it, provided the name is a single line.
   */
  lemma HeaderRoundTrip(fullName: string, date: string)
    requires '\n' !in fullName
    ensures ParseHeader(Header(fullName, date)) == Some((fullName, date))
  {
    var text := Header(fullName, date);
    var body := fullName + DateLine + date;
    assert text[..|TitleLine|] == TitleLine;
    assert text[|text| - |Trailer|..] == Trailer;
    assert text[|TitleLine|..|text| - |Trailer|] == body;
    assert OccursAt(body, DateLine, |fullName|);
    forall i | 0 <= i < |fullName| ensures !OccursAt(body, DateLine, i) {
      assert body[i] == fullName[i];
    }
    var at := Find(body, DateLine);
    assert at == |fullName|;
    assert body[..at] == fullName;
    assert body[at + |DateLine|..] == date;
  }
}
